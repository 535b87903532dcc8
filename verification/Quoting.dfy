/**
 What a command line holds of the texts in it, whatever quoting does to them: patterns without
 quotes and spaces are found in the line exactly when they are found in one of the texts.
 */
module Quoting {
  import opened Text
  import opened Shell
  import Base64

  predicate Plain(pat: string) {
    pat != "" && '\'' !in pat && '"' !in pat && ' ' !in pat
  }

  /** One wrong character rules an occurrence out. */
  lemma Mismatch(text: string, pat: string, i: int, k: nat)
    requires k < |pat| && (0 <= i + k < |text| ==> text[i + k] != pat[k])
    ensures !OccursAt(text, pat, i)
  {
    assert 0 <= i <= |text| - |pat| ==> text[i..i + |pat|][k] == text[i + k];
  }

  lemma ShiftOccurrence(pre: string, text: string, pat: string, i: int)
    requires i >= |pre|
    ensures OccursAt(pre + text, pat, i) <==> OccursAt(text, pat, i - |pre|)
  {
    if i + |pat| <= |pre + text| {
      assert (pre + text)[i..i + |pat|] == text[i - |pre|..i - |pre| + |pat|];
    }
  }

  /** A text without some character of the pattern does not hold it. */
  lemma LacksOne(text: string, pat: string, k: nat)
    requires k < |pat| && pat[k] !in text
    ensures !Contains(text, pat)
  {
    forall i
      ensures !OccursAt(text, pat, i)
    {
      assert 0 <= i + k < |text| ==> text[i + k] in text;
      Mismatch(text, pat, i, k);
    }
  }

  lemma LacksFirst(text: string, pat: string)
    requires pat != "" && pat[0] !in text
    ensures !Contains(text, pat)
  {
    LacksOne(text, pat, 0);
  }

  /** Two texts around a separator hold a pattern exactly when one of them does. */
  lemma AroundSeparator(a: string, sep: char, b: string, pat: string)
    requires sep !in pat && pat != ""
    ensures Contains(a + [sep] + b, pat) <==> Contains(a, pat) || Contains(b, pat)
  {
    if i :| OccursAt(a + [sep] + b, pat, i) {
      OccursOnOneSide(a, sep, b, pat, i);
    }
    if i :| OccursAt(a, pat, i) {
      assert (a + [sep] + b)[i..i + |pat|] == a[i..i + |pat|];
      assert OccursAt(a + [sep] + b, pat, i);
    }
    if i :| OccursAt(b, pat, i) {
      assert a + [sep] + b == (a + [sep]) + b;
      ShiftOccurrence(a + [sep], b, pat, i + |a| + 1);
      assert OccursAt(a + [sep] + b, pat, i + |a| + 1);
    }
  }

  // ---- quoting ----

  lemma {:induction false} NothingToEscape(s: string)
    requires '\'' !in s
    ensures EscapeQuotes(s) == s
  {
    if s != "" {
      NothingToEscape(s[1..]);
    }
  }

  lemma {:induction false} EscapeFirst(s: string, n: nat)
    requires n < |s| && s[n] == '\'' && '\'' !in s[..n]
    ensures EscapeQuotes(s) == s[..n] + "'\"'\"'" + EscapeQuotes(s[n + 1..])
  {
    if n > 0 {
      assert s[0] in s[..n];
      assert forall c :: c in s[1..][..n - 1] ==> c in s[..n];
      EscapeFirst(s[1..], n - 1);
      assert s[..n] == [s[0]] + s[1..][..n - 1];
    }
  }

  function FirstQuote(s: string): (n: nat)
    requires '\'' in s
    ensures n < |s| && s[n] == '\'' && '\'' !in s[..n]
  {
    if s[0] == '\'' then 0 else FirstQuote(s[1..]) + 1
  }

  /** Escaping neither makes nor breaks a pattern. */
  lemma {:induction false} EscapeHolds(s: string, pat: string)
    requires Plain(pat)
    ensures Contains(EscapeQuotes(s), pat) <==> Contains(s, pat)
    decreases |s|
  {
    if '\'' !in s {
      NothingToEscape(s);
    } else {
      var n := FirstQuote(s);
      var a, b := s[..n], s[n + 1..];
      EscapeFirst(s, n);
      EscapeHolds(b, pat);
      EscapedPieces(a, EscapeQuotes(b), pat);
      assert s == a + ['\''] + b;
      AroundSeparator(a, '\'', b, pat);
    }
  }

  lemma EscapedPieces(a: string, b: string, pat: string)
    requires Plain(pat)
    ensures Contains(a + "'\"'\"'" + b, pat) <==> Contains(a, pat) || Contains(b, pat)
  {
    var last := "\"" + ['\''] + b;
    var rest := "\"" + ['\''] + last;
    assert a + "'\"'\"'" + b == a + ['\''] + rest;
    LacksFirst("\"", pat);
    AroundSeparator("\"", '\'', b, pat);
    AroundSeparator("\"", '\'', last, pat);
    AroundSeparator(a, '\'', rest, pat);
  }

  lemma BetweenQuotes(escaped: string, pat: string)
    requires Plain(pat)
    ensures Contains("'" + escaped + "'", pat) <==> Contains(escaped, pat)
  {
    var rest := escaped + ['\''] + "";
    assert "'" + escaped + "'" == "" + ['\''] + rest;
    LacksFirst("", pat);
    AroundSeparator(escaped, '\'', "", pat);
    AroundSeparator("", '\'', rest, pat);
  }

  lemma QuoteHolds(path: string, pat: string)
    requires Plain(pat)
    ensures Contains(Quote(path), pat) <==> Contains(path, pat)
  {
    if path == "" {
      LacksFirst("", pat);
      LacksFirst("''", pat);
    } else if forall c :: c in path ==> IsSafe(c) {
      assert Quote(path) == path;
    } else {
      EscapeHolds(path, pat);
      BetweenQuotes(EscapeQuotes(path), pat);
    }
  }

  // ---- command lines ----

  /** The texts that a line carries in quotes. */
  function Inserted(cmd: Command): seq<string> {
    match cmd
    case ProbeDecoder => []
    case ProbeEncoder => []
    case Chunk(encoded, _, _, path) => [encoded, path]
    case Md5(path) => [path]
    case Move(source, target) => [source, target]
    case Cleanup(path) => [path]
    case Pull(path, _) => [path]
  }

  predicate Carries(cmd: Command, pat: string) {
    exists i :: 0 <= i < |Inserted(cmd)| && Contains(Inserted(cmd)[i], pat)
  }

  /** A pattern like the sentinels: the fixed parts of a line print "42" only by computing it. */
  predicate Telltale(pat: string) {
    Plain(pat) && '2' in pat && '_' in pat
  }

  lemma LacksChar(text: string, pat: string, c: char)
    requires c in pat && c !in text
    ensures !Contains(text, pat)
  {
    var k :| 0 <= k < |pat| && pat[k] == c;
    LacksOne(text, pat, k);
  }

  /** One quoted text between fixed parts that have no '2'. */
  lemma AroundText(head: string, text: string, tail: string, pat: string)
    requires Telltale(pat) && '2' !in head
    ensures Contains(Spaced(head, Spaced(Quote(text), tail)), pat) <==> Contains(text, pat) || Contains(tail, pat)
  {
    LacksChar(head, pat, '2');
    QuoteHolds(text, pat);
    AroundSeparator(Quote(text), ' ', tail, pat);
    AroundSeparator(head, ' ', Spaced(Quote(text), tail), pat);
  }

  lemma EndingHoldsNone(prefix: string, pat: string)
    requires Telltale(pat) && '2' !in prefix
    ensures !Contains(Ending(prefix), pat)
  {
    LacksChar(Ending(prefix), pat, '2');
  }

  lemma Md5Holds(path: string, pat: string)
    requires Telltale(pat)
    ensures Contains(Render(Md5(path)), pat) <==> Contains(path, pat)
  {
    EndingHoldsNone("SW_XFER_MD5_", pat);
    AroundText("md5sum", path, Ending("SW_XFER_MD5_"), pat);
  }

  lemma CleanupHolds(path: string, pat: string)
    requires Telltale(pat)
    ensures Contains(Render(Cleanup(path)), pat) <==> Contains(path, pat)
  {
    EndingHoldsNone("SW_XFER_CLEANUP_", pat);
    AroundText("rm -f", path, Ending("SW_XFER_CLEANUP_"), pat);
  }

  lemma MoveHolds(source: string, target: string, pat: string)
    requires Telltale(pat)
    ensures Contains(Render(Move(source, target)), pat) <==> Contains(source, pat) || Contains(target, pat)
  {
    var tail := Ending("SW_XFER_MV_");
    EndingHoldsNone("SW_XFER_MV_", pat);
    QuoteHolds(target, pat);
    AroundSeparator(Quote(target), ' ', tail, pat);
    AroundText("mv", source, Spaced(Quote(target), tail), pat);
  }

  lemma ChunkHolds(encoded: string, decoder: Tool, op: Op, path: string, pat: string)
    requires Telltale(pat)
    ensures Contains(Render(Chunk(encoded, decoder, op, path)), pat) <==> Contains(encoded, pat) || Contains(path, pat)
  {
    EndingHoldsNone("SW_XFER_CHUNK_", pat);
    AroundText(ChunkPipe(decoder, op), path, Ending("SW_XFER_CHUNK_"), pat);
    AroundText("printf '%s'", encoded, ChunkTail(decoder, op, path), pat);
  }

  lemma PullPiecesLackTwo(encoder: Tool)
    ensures '2' !in PullHead(encoder) && '2' !in PullTail()
  {
    assert '2' !in MarkerExpression("BEGIN") && '2' !in EncoderName(encoder);
    PullTailLacksTwo();
  }

  lemma PullTailLacksTwo()
    ensures '2' !in PullTail()
  {
    assert '2' !in MarkerExpression("END") && '2' !in FinalWord("SW_XFER_ENCODER_FAILED_");
  }

  lemma PullHolds(path: string, encoder: Tool, pat: string)
    requires Telltale(pat)
    ensures Contains(Render(Pull(path, encoder)), pat) <==> Contains(path, pat)
  {
    PullPiecesLackTwo(encoder);
    LacksChar(PullTail(), pat, '2');
    AroundText(PullHead(encoder), path, PullTail(), pat);
  }

  lemma ProbeHoldsNone(head: string, pipe1: string, middle: string, pipe2: string, end: string, pat: string)
    requires Telltale(pat) && '2' !in head && '_' !in pipe1 && '2' !in middle && '_' !in pipe2 && '2' !in end
    ensures !Contains(ProbeText(head, pipe1, middle, pipe2, end), pat)
  {
    var rest3 := pipe2 + ['\''] + end;
    var rest2 := middle + ['\''] + rest3;
    var rest1 := pipe1 + ['\''] + rest2;
    assert ProbeText(head, pipe1, middle, pipe2, end) == head + ['\''] + rest1;
    LacksChar(head, pat, '2');
    LacksChar(pipe1, pat, '_');
    LacksChar(middle, pat, '2');
    LacksChar(pipe2, pat, '_');
    LacksChar(end, pat, '2');
    AroundSeparator(pipe2, '\'', end, pat);
    AroundSeparator(middle, '\'', rest3, pat);
    AroundSeparator(pipe1, '\'', rest2, pat);
    AroundSeparator(head, '\'', rest1, pat);
  }

  lemma HeadLacksTwo(payload: string)
    requires '2' !in payload
    ensures '2' !in ProbeHead(payload)
  {
  }

  lemma PipeLacksLine(tool: string)
    requires '_' !in tool
    ensures '_' !in ProbePipe(tool)
  {
  }

  lemma MiddleLacksTwo(want: string, found: string, payload: string)
    requires '2' !in want && '2' !in found && '2' !in payload
    ensures '2' !in ProbeMiddle(want, found, payload)
  {
    assert '2' !in RuntimeSentinel(found);
  }

  lemma EndLacksTwo(want: string, found: string)
    requires '2' !in want && '2' !in found
    ensures '2' !in ProbeEnd(want, found)
  {
    assert '2' !in RuntimeSentinel(found);
  }

  lemma ProbeWithHoldsNone(payload: string, want: string, tool1: string, found1: string, tool2: string, found2: string, pat: string)
    requires Telltale(pat)
    requires '2' !in payload && '2' !in want && '2' !in found1 && '2' !in found2 && '_' !in tool1 && '_' !in tool2
    ensures !Contains(ProbeWith(payload, want, tool1, found1, tool2, found2), pat)
  {
    HeadLacksTwo(payload);
    PipeLacksLine(tool1);
    PipeLacksLine(tool2);
    MiddleLacksTwo(want, found1, payload);
    EndLacksTwo(want, found2);
    ProbeHoldsNone(ProbeHead(payload), ProbePipe(tool1), ProbeMiddle(want, found1, payload), ProbePipe(tool2), ProbeEnd(want, found2), pat);
  }

  lemma DecoderProbeHoldsNone(pat: string)
    requires Telltale(pat)
    ensures !Contains(Render(ProbeDecoder), pat)
  {
    ProbeWithHoldsNone(PROBE_PAYLOAD, "sw-probe", " | base64 -d", "SW_XFER_DECODER_B64_",
                       " | openssl enc -base64 -d -A", "SW_XFER_DECODER_OPENSSL_", pat);
  }

  lemma EncoderProbeHoldsNone(pat: string)
    requires Telltale(pat)
    ensures !Contains(Render(ProbeEncoder), pat)
  {
    ProbeWithHoldsNone("sw-probe", PROBE_PAYLOAD, " | base64", "SW_XFER_ENCODER_B64_",
                       " | openssl enc -base64", "SW_XFER_ENCODER_OPENSSL_", pat);
  }

  /** A line, and so its echo, holds a sentinel exactly when a text in it does. */
  lemma LineHolds(cmd: Command, pat: string)
    requires Telltale(pat)
    ensures Contains(Render(cmd), pat) <==> Carries(cmd, pat)
  {
    match cmd {
      case ProbeDecoder => DecoderProbeHoldsNone(pat);
      case ProbeEncoder => EncoderProbeHoldsNone(pat);
      case Chunk(encoded, decoder, op, path) =>
        ChunkHolds(encoded, decoder, op, path, pat);
        CarriesTwo(cmd, encoded, path, pat);
      case Md5(path) =>
        Md5Holds(path, pat);
        CarriesOne(cmd, path, pat);
      case Move(source, target) =>
        MoveHolds(source, target, pat);
        CarriesTwo(cmd, source, target, pat);
      case Cleanup(path) =>
        CleanupHolds(path, pat);
        CarriesOne(cmd, path, pat);
      case Pull(path, encoder) =>
        PullHolds(path, encoder, pat);
        CarriesOne(cmd, path, pat);
    }
  }

  lemma CarriesOne(cmd: Command, a: string, pat: string)
    requires Inserted(cmd) == [a]
    ensures Carries(cmd, pat) <==> Contains(a, pat)
  {
    assert Inserted(cmd)[0] == a;
  }

  lemma CarriesTwo(cmd: Command, a: string, b: string, pat: string)
    requires Inserted(cmd) == [a, b]
    ensures Carries(cmd, pat) <==> Contains(a, pat) || Contains(b, pat)
  {
    assert Inserted(cmd)[0] == a && Inserted(cmd)[1] == b;
  }

  // ---- how a line ends ----

  /** The turn from a sentinel's prefix to its arithmetic; it is nowhere else in a line. */
  const TURN := "_'$"

  predicate IsProbe(cmd: Command) {
    cmd.ProbeDecoder? || cmd.ProbeEncoder?
  }

  /** What the final word names. */
  function Prefix(cmd: Command): string
    requires !IsProbe(cmd)
  {
    match cmd
    case Chunk(_, _, _, _) => "SW_XFER_CHUNK_"
    case Md5(_) => "SW_XFER_MD5_"
    case Move(_, _) => "SW_XFER_MV_"
    case Cleanup(_) => "SW_XFER_CLEANUP_"
    case Pull(_, _) => "SW_XFER_ENCODER_FAILED_"
  }

  /** A closing quote before '$' has a double quote before it. */
  predicate QuotesClose(t: string) {
    forall i :: 0 <= i && i + 1 < |t| && t[i] == '\'' && t[i + 1] == '$' ==> i > 0 && t[i - 1] == '"'
  }

  lemma PrependClose(piece: string, t: string)
    requires QuotesClose(t) && (piece == "'\"'\"'" || (|piece| == 1 && piece != "'"))
    ensures QuotesClose(piece + t)
  {
    var u := piece + t;
    forall i | 0 <= i && i + 1 < |u| && u[i] == '\'' && u[i + 1] == '$'
      ensures i > 0 && u[i - 1] == '"'
    {
      if i >= |piece| {
        assert t[i - |piece|] == '\'' && t[i - |piece| + 1] == '$';
      }
    }
  }

  lemma {:induction false} EscapeCloses(s: string)
    ensures QuotesClose(EscapeQuotes(s))
  {
    if s != "" {
      EscapeCloses(s[1..]);
      PrependClose(if s[0] == '\'' then "'\"'\"'" else [s[0]], EscapeQuotes(s[1..]));
    }
  }

  lemma QuotedLacksTurn(escaped: string)
    requires QuotesClose(escaped)
    ensures !Contains("'" + escaped + "'", TURN)
  {
    var t := "'" + escaped + "'";
    forall i
      ensures !OccursAt(t, TURN, i)
    {
      if 0 <= i && i + 2 < |t| && t[i] == '_' && t[i + 1] == '\'' {
        assert i > 0 ==> t[i] == escaped[i - 1];
        if i + 2 < |t| - 1 {
          assert escaped[i] == '\'' && escaped[i + 1] == t[i + 2];
          Mismatch(t, TURN, i, 2);
        } else {
          Mismatch(t, TURN, i, 2);
        }
      } else if 0 <= i && i + 2 < |t| && t[i] == '_' {
        Mismatch(t, TURN, i, 1);
      } else if 0 <= i && i + 2 < |t| {
        Mismatch(t, TURN, i, 0);
      }
    }
  }

  lemma QuoteLacksTurn(text: string)
    ensures !Contains(Quote(text), TURN)
  {
    if text == "" {
      LacksChar("''", TURN, '$');
    } else if forall c :: c in text ==> IsSafe(c) {
      assert '$' !in text;
      LacksChar(text, TURN, '$');
    } else {
      EscapeCloses(text);
      QuotedLacksTurn(EscapeQuotes(text));
    }
  }

  lemma AroundTextTurn(head: string, text: string, tail: string)
    requires !Contains(head, TURN) && !Contains(tail, TURN)
    ensures !Contains(Spaced(head, Spaced(Quote(text), tail)), TURN)
  {
    QuoteLacksTurn(text);
    AroundSeparator(Quote(text), ' ', tail, TURN);
    AroundSeparator(head, ' ', Spaced(Quote(text), tail), TURN);
  }

  lemma NoTurn(text: string)
    requires '$' !in text
    ensures !Contains(text, TURN)
  {
    LacksChar(text, TURN, '$');
  }

  lemma Respaced(a: string, b: string, c: string)
    ensures Spaced(a, Spaced(b, c)) == Spaced(Spaced(a, b), c)
  {
  }

  /** Every line but a probe's is a body without the turn, a space, and its final word. */
  lemma LineEnds(cmd: Command) returns (body: string)
    requires !IsProbe(cmd)
    ensures Render(cmd) == Spaced(body, FinalWord(Prefix(cmd))) && !Contains(body, TURN)
  {
    NoTurn(AND_PRINT);
    if cmd.Md5? {
      body := TextEnds("md5sum", cmd.path, AND_PRINT, FinalWord("SW_XFER_MD5_"));
    } else if cmd.Cleanup? {
      body := TextEnds("rm -f", cmd.path, AND_PRINT, FinalWord("SW_XFER_CLEANUP_"));
    } else if cmd.Move? {
      body := MoveEnds(cmd.source, cmd.target);
    } else if cmd.Chunk? {
      body := ChunkEnds(cmd.encoded, cmd.decoder, cmd.op, cmd.path);
    } else {
      PullPiecesLackTurn(cmd.encoder);
      body := TextEnds(PullHead(cmd.encoder), cmd.path, PullFirstTail(), FinalWord("SW_XFER_ENCODER_FAILED_"));
    }
  }

  /** A word, a quoted text, a tail and the final word. */
  lemma TextEnds(head: string, text: string, tail: string, last: string) returns (body: string)
    requires '$' !in head && !Contains(tail, TURN)
    ensures Spaced(head, Spaced(Quote(text), Spaced(tail, last))) == Spaced(body, last) && !Contains(body, TURN)
  {
    body := Spaced(head, Spaced(Quote(text), tail));
    Respaced(Quote(text), tail, last);
    Respaced(head, Spaced(Quote(text), tail), last);
    NoTurn(head);
    AroundTextTurn(head, text, tail);
  }

  lemma MoveEnds(source: string, target: string) returns (body: string)
    ensures Render(Move(source, target)) == Spaced(body, FinalWord("SW_XFER_MV_")) && !Contains(body, TURN)
  {
    var last := FinalWord("SW_XFER_MV_");
    NoTurn(AND_PRINT);
    QuoteLacksTurn(target);
    AroundSeparator(Quote(target), ' ', AND_PRINT, TURN);
    Respaced(Quote(target), AND_PRINT, last);
    body := TextEnds("mv", source, Spaced(Quote(target), AND_PRINT), last);
  }

  lemma ChunkEnds(encoded: string, decoder: Tool, op: Op, path: string) returns (body: string)
    ensures Render(Chunk(encoded, decoder, op, path)) == Spaced(body, FinalWord("SW_XFER_CHUNK_")) && !Contains(body, TURN)
  {
    NoTurn(AND_PRINT);
    var rest := TextEnds(ChunkPipe(decoder, op), path, AND_PRINT, FinalWord("SW_XFER_CHUNK_"));
    body := AfterPrintf(encoded, rest, FinalWord("SW_XFER_CHUNK_"));
  }

  lemma AfterPrintf(encoded: string, rest: string, last: string) returns (body: string)
    requires !Contains(rest, TURN)
    ensures ChunkLine(Quote(encoded), Spaced(rest, last)) == Spaced(body, last) && !Contains(body, TURN)
  {
    body := TextEnds("printf '%s'", encoded, rest, last);
  }

  lemma PullPiecesLackTurn(encoder: Tool)
    ensures '$' !in PullHead(encoder) && !Contains(PullFirstTail(), TURN)
  {
    assert '$' !in MarkerExpression("BEGIN") && '$' !in EncoderName(encoder);
    NoTurn(PullFirstTail());
  }

  /** A line begins with a lower-case letter, and ends with `)`, a probe's with `fi`. */
  lemma LineShape(cmd: Command)
    ensures Render(cmd) != "" && 'a' <= Render(cmd)[0] <= 'z'
    ensures Render(cmd)[|Render(cmd)| - 1] == if IsProbe(cmd) then 'i' else ')'
  {
    if IsProbe(cmd) {
      ProbeShape(cmd);
    } else {
      var body := LineEnds(cmd);
      var last := FinalWord(Prefix(cmd));
      assert last[|last| - 1] == ')';
      assert Spaced(body, last)[|Spaced(body, last)| - 1] == last[|last| - 1];
      FirstLetter(cmd);
    }
  }

  lemma ProbeShape(cmd: Command)
    requires IsProbe(cmd)
    ensures Render(cmd) != "" && Render(cmd)[0] == 'i' && Render(cmd)[|Render(cmd)| - 1] == 'i'
  {
    var want := if cmd.ProbeDecoder? then "sw-probe" else PROBE_PAYLOAD;
    var found := if cmd.ProbeDecoder? then "SW_XFER_DECODER_OPENSSL_" else "SW_XFER_ENCODER_OPENSSL_";
    var end := ProbeEnd(want, found);
    assert end[|end| - 1] == 'i';
    assert Render(cmd)[|Render(cmd)| - 1] == end[|end| - 1];
  }

  lemma FirstLetter(cmd: Command)
    requires !IsProbe(cmd)
    ensures Render(cmd) != "" && 'a' <= Render(cmd)[0] <= 'z'
  {
  }
}
