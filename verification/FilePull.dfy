/**
 Pulling a file (`pull_file` of sw_core/file_transfer.py): the target prints the file in base64
 between two markers, and the host cuts it out of whatever else the console shows.
 */
module FilePull {
  import opened Wrappers
  import opened Bytes
  import opened Echo
  import opened Quoting
  import opened Shell
  import opened Text
  import opened Transfer
  import Base64

  datatype PullResult =
    | Pulled(data: bytes)
    | PullFailed(error: Error)
    | PullRaised  // TxIncompleteError

  /** What stands between the last BEGIN and the last END marker, without escapes and white space. */
  function Extract(host: Host, text: string, command: string): Option<string> {
    Cut(host, StripEcho(text, command))
  }

  function Cut(host: Host, output: string): Option<string> {
    var b, e := RFind(output, BEGIN), RFind(output, END);
    if b < 0 || e < 0 || e <= b then None
    else Some(DropSpace(host.stripAnsi(if e < b + |BEGIN| then "" else output[b + |BEGIN|..e])))
  }

  // ---- the transcript of a pull ----

  predicate IsNewline(nl: string) {
    nl == "\n" || nl == "\r\n"
  }

  /** Base64 text, broken by any white space. */
  predicate IsBody(body: string) {
    forall c :: c in body ==> Base64.IsBase64Char(c) || IsSpace(c)
  }

  /** What is on the console from the BEGIN marker on. */
  function Output(nl: string, body: string, post: string): string {
    BEGIN + nl + body + END + nl + post
  }

  lemma OneSideOfCrLf(a: string, b: string, pat: string, i: int)
    requires '\n' !in pat && '\r' !in pat && pat != ""
    requires OccursAt(a + ['\r'] + ("" + ['\n'] + b), pat, i)
    ensures (i + |pat| <= |a| && OccursAt(a, pat, i)) || (i >= |a| + 2 && OccursAt(b, pat, i - |a| - 2))
  {
    OccursOnOneSide(a, '\r', "" + ['\n'] + b, pat, i);
    if i > |a| {
      OccursOnOneSide("", '\n', b, pat, i - |a| - 1);
    }
  }

  lemma OneSideOfLf(a: string, b: string, pat: string, i: int)
    requires '\n' !in pat && pat != ""
    requires OccursAt(a + ['\n'] + b, pat, i)
    ensures (i + |pat| <= |a| && OccursAt(a, pat, i)) || (i >= |a| + 1 && OccursAt(b, pat, i - |a| - 1))
  {
    OccursOnOneSide(a, '\n', b, pat, i);
  }

  /** A pattern without line breaks lies on one side of a newline. */
  lemma OneSide(a: string, nl: string, b: string, pat: string, i: int)
    requires IsNewline(nl) && '\n' !in pat && '\r' !in pat && pat != ""
    requires OccursAt(a + nl + b, pat, i)
    ensures (i + |pat| <= |a| && OccursAt(a, pat, i)) || (i >= |a| + |nl| && OccursAt(b, pat, i - |a| - |nl|))
  {
    if |nl| == 1 {
      assert a + nl + b == a + ['\n'] + b;
      OneSideOfLf(a, b, pat, i);
    } else {
      assert a + nl + b == a + ['\r'] + ("" + ['\n'] + b);
      OneSideOfCrLf(a, b, pat, i);
    }
  }

  lemma MarkersHaveNoNewline()
    ensures '\n' !in BEGIN && '\r' !in BEGIN && '\n' !in END && '\r' !in END
    ensures |BEGIN| == 19 && |END| == 17
  {
  }

  /** The BEGIN marker is nowhere in the body and the END marker. */
  lemma NoBeginInBody(body: string, i: int)
    requires IsBody(body)
    ensures !OccursAt(body + END, BEGIN, i)
  {
    var m := i + 5 - |body|;
    if m < 0 {
      if i + 5 >= 0 {
        assert body[i + 5] in body;
      }
      Mismatch(body + END, BEGIN, i, 5);
    } else if m == 5 {
      Mismatch(body + END, BEGIN, i, 11);
    } else if m == 10 {
      Mismatch(body + END, BEGIN, i, 10);
    } else {
      EndUnderscores(m);
      Mismatch(body + END, BEGIN, i, 5);
    }
  }

  lemma EndUnderscores(m: nat)
    requires m != 5 && m != 10
    ensures m < |END| ==> END[m] != '_'
  {
    assert END == "===SW" + "_" + "XFER" + "_" + "END===";
    var head, middle, tail := "===SW", "XFER", "END===";
    assert '_' !in head && '_' !in middle && '_' !in tail;
    if m < 5 {
      assert END[m] == head[m];
    } else if m < 10 {
      assert END[m] == middle[m - 6];
    } else if m < |END| {
      assert END[m] == tail[m - 11];
    }
  }

  /** In the output of a pull, the first marker is the last BEGIN. */
  lemma LastBegin(nl: string, body: string, post: string, i: int)
    requires IsNewline(nl) && IsBody(body) && !Contains(post, BEGIN)
    requires i > 0
    ensures !OccursAt(Output(nl, body, post), BEGIN, i)
  {
    if OccursAt(Output(nl, body, post), BEGIN, i) {
      MarkersHaveNoNewline();
      var rest := body + END + nl + post;
      assert Output(nl, body, post) == BEGIN + nl + rest;
      OneSide(BEGIN, nl, rest, BEGIN, i);
      var j := i - |BEGIN| - |nl|;
      assert rest == (body + END) + nl + post;
      OneSide(body + END, nl, post, BEGIN, j);
      if OccursAt(body + END, BEGIN, j) {
        NoBeginInBody(body, j);
      }
    }
  }

  /** And the second marker is the last END. */
  lemma LastEnd(nl: string, body: string, post: string, i: int)
    requires IsNewline(nl) && !Contains(post, END)
    requires i > |BEGIN| + |nl| + |body|
    ensures !OccursAt(Output(nl, body, post), END, i)
  {
    if OccursAt(Output(nl, body, post), END, i) {
      MarkersHaveNoNewline();
      OneSide(BEGIN + nl + body + END, nl, post, END, i);
    }
  }

  /** Whatever comes before the output, `rfind` lands on its two markers. */
  lemma FindsMarkers(pre: string, nl: string, body: string, post: string)
    requires IsNewline(nl) && IsBody(body) && !Contains(post, BEGIN) && !Contains(post, END)
    ensures RFind(pre + Output(nl, body, post), BEGIN) == |pre|
    ensures RFind(pre + Output(nl, body, post), END) == |pre| + |BEGIN| + |nl| + |body|
  {
    var out := Output(nl, body, post);
    MarkersStand(nl, body, post);
    forall j | 0 < j
      ensures !OccursAt(out, BEGIN, j)
    {
      LastBegin(nl, body, post, j);
    }
    forall j | |BEGIN| + |nl| + |body| < j
      ensures !OccursAt(out, END, j)
    {
      LastEnd(nl, body, post, j);
    }
    FindsLast(pre, out, BEGIN, 0);
    FindsLast(pre, out, END, |BEGIN| + |nl| + |body|);
  }

  lemma MarkersStand(nl: string, body: string, post: string)
    ensures OccursAt(Output(nl, body, post), BEGIN, 0)
    ensures OccursAt(Output(nl, body, post), END, |BEGIN| + |nl| + |body|)
  {
    var out := Output(nl, body, post);
    var e := |BEGIN| + |nl| + |body|;
    assert out[0..|BEGIN|] == BEGIN;
    assert out[e..e + |END|] == END;
  }

  /** The last occurrence in a text is also the last when something is put before it. */
  lemma FindsLast(pre: string, out: string, marker: string, e: nat)
    requires OccursAt(out, marker, e) && forall j :: e < j ==> !OccursAt(out, marker, j)
    ensures RFind(pre + out, marker) == |pre| + e
  {
    ShiftOccurrence(pre, out, marker, |pre| + e);
    forall j | |pre| + e < j
      ensures !OccursAt(pre + out, marker, j)
    {
      ShiftOccurrence(pre, out, marker, j);
    }
    RFindIs(pre + out, marker, |pre| + e);
  }

  /** Removing the echo takes nothing from the output, whether or not the echo is there. */
  lemma StripEchoKeeps(pre: string, out: string, command: string) returns (rest: string)
    requires BEGIN <= out
    requires command != "" && command[|command| - 1] == ')' && !Contains(command, BEGIN)
    ensures StripEcho(pre + out, command) == rest + out
  {
    var text := pre + out;
    if !StartsWith(text, command) {
      return pre;
    }
    EchoEndsEarly(pre, out, command);
    var n := |command|;
    rest := pre[n..];
    assert text[n..] == rest + out;
    assert out[0] == '=';
    if StartsWith(rest + out, "\r\n") {
      assert (rest + out)[0] == '\r' && (rest + out)[1] == '\n';
      assert (rest + out)[2..] == rest[2..] + out;
      return rest[2..];
    } else if StartsWith(rest + out, "\n") {
      assert (rest + out)[0] == '\n';
      assert (rest + out)[1..] == rest[1..] + out;
      return rest[1..];
    }
  }

  /** An echo that holds no marker ends before the first one. */
  lemma EchoEndsEarly(pre: string, out: string, command: string)
    requires BEGIN <= out && StartsWith(pre + out, command)
    requires command != "" && command[|command| - 1] == ')' && !Contains(command, BEGIN)
    ensures |command| <= |pre|
  {
    var n := |command|;
    assert (pre + out)[n - 1] == command[n - 1];
    if |pre| < n <= |pre| + |BEGIN| {
      MarkerHasNoParenthesis(pre, out, n - 1);
    } else if n > |pre| + |BEGIN| {
      EchoHoldsMarker(pre, out, command);
    }
  }

  lemma MarkerHasNoParenthesis(pre: string, out: string, k: nat)
    requires BEGIN <= out && |pre| <= k < |pre| + |BEGIN|
    ensures (pre + out)[k] != ')'
  {
    assert (pre + out)[k] == out[k - |pre|] == BEGIN[k - |pre|];
  }

  lemma EchoHoldsMarker(pre: string, out: string, command: string)
    requires BEGIN <= out && StartsWith(pre + out, command) && |command| >= |pre| + |BEGIN|
    ensures Contains(command, BEGIN)
  {
    var m := |pre| + |BEGIN|;
    assert command[|pre|..m] == (pre + out)[|pre|..m] == out[..|BEGIN|] == BEGIN;
    assert OccursAt(command, BEGIN, |pre|);
  }

  // ---- the command holds no marker of its own ----

  /** A marker is neither longer than it is nor free of '='. */
  predicate TooPoor(token: string) {
    |token| < |END| || '=' !in token
  }

  predicate IsMarker(marker: string) {
    marker == BEGIN || marker == END
  }

  lemma PoorHoldsNone(token: string, marker: string)
    requires IsMarker(marker) && TooPoor(token)
    ensures !Contains(token, marker)
  {
    if |token| >= |END| {
      forall i
        ensures !OccursAt(token, marker, i)
      {
        Mismatch(token, marker, i, 0);
      }
    }
  }

  /** Cut by its quotes, a marker expression is in pieces too poor to hold a marker. */
  lemma ExpressionHoldsNone(a: string, middle: string, b: string, marker: string)
    requires IsMarker(marker) && TooPoor(a) && TooPoor(middle) && TooPoor(b)
    ensures !Contains(a + MarkerExpression(middle) + b, marker)
  {
    var last := "===" + ['\''] + b;
    var rest := middle + ['\''] + last;
    var all := "===SW_XFER_" + ['\''] + rest;
    assert a + MarkerExpression(middle) + b == a + ['\''] + all;
    assert '\'' !in marker;
    PoorHoldsNone(a, marker);
    PoorHoldsNone("===SW_XFER_", marker);
    PoorHoldsNone(middle, marker);
    PoorHoldsNone("===", marker);
    PoorHoldsNone(b, marker);
    AroundSeparator("===", '\'', b, marker);
    AroundSeparator(middle, '\'', last, marker);
    AroundSeparator("===SW_XFER_", '\'', rest, marker);
    AroundSeparator(a, '\'', all, marker);
  }

  lemma HeadHoldsNone(encoder: Tool, marker: string)
    requires IsMarker(marker)
    ensures !Contains(PullHead(encoder), marker)
  {
    ExpressionHoldsNone("printf '%s\\n' ", "BEGIN", " && " + EncoderName(encoder) + " <", marker);
  }

  lemma TailHoldsNone(marker: string)
    requires IsMarker(marker)
    ensures !Contains(PullTail(), marker)
  {
    var last := FinalWord("SW_XFER_ENCODER_FAILED_");
    ExpressionHoldsNone("&& printf '%s\\n' ", "END", " || printf '%s\\n'", marker);
    PoorHoldsNone(last, marker);
    AroundSeparator(PullFirstTail(), ' ', last, marker);
  }

  /** The command, and so its echo, holds a marker exactly when the path does. */
  lemma CommandHoldsMarker(path: string, encoder: Tool, marker: string)
    requires IsMarker(marker)
    ensures Contains(Render(Pull(path, encoder)), marker) <==> Contains(path, marker)
  {
    var head, quoted, tail := PullHead(encoder), Quote(path), PullTail();
    HeadHoldsNone(encoder, marker);
    TailHoldsNone(marker);
    assert Plain(marker);
    QuoteHolds(path, marker);
    AroundSeparator(quoted, ' ', tail, marker);
    AroundSeparator(head, ' ', Spaced(quoted, tail), marker);
  }

  // ---- the round trip ----

  lemma {:induction false} SpaceAndBase64(body: string)
    requires forall c :: c in DropSpace(body) ==> Base64.IsBase64Char(c)
    ensures IsBody(body)
  {
    if body != "" {
      assert !IsSpace(body[0]) ==> body[0] in DropSpace(body);
      SpaceAndBase64(body[1..]);
    }
  }

  lemma DropSpaceNewline(nl: string, body: string)
    requires IsNewline(nl)
    ensures DropSpace(nl + body) == DropSpace(body)
  {
    assert nl[0] in nl && IsSpace('\n') && IsSpace('\r');
    assert (nl + body)[|nl|..] == body;
    if nl == "\r\n" {
      assert (nl + body)[1..] == ['\n'] + body;
      assert (['\n'] + body)[1..] == body;
    } else {
      assert (nl + body)[1..] == body;
    }
  }

  lemma CutsBody(host: Host, rest: string, nl: string, body: string, post: string)
    requires IsNewline(nl) && IsBody(body) && !Contains(post, BEGIN) && !Contains(post, END)
    requires host.stripAnsi(nl + body) == nl + body
    ensures Cut(host, rest + Output(nl, body, post)) == Some(DropSpace(body))
  {
    FindsMarkers(rest, nl, body, post);
    DropSpaceNewline(nl, body);
    BetweenMarkers(rest, nl, body, post);
  }

  lemma BetweenMarkers(rest: string, nl: string, body: string, post: string)
    ensures var out := Output(nl, body, post);
      var b := |rest| + |BEGIN|;
      b + |nl| + |body| <= |rest + out| && (rest + out)[b..b + |nl| + |body|] == nl + body
  {
    assert rest + Output(nl, body, post) == (rest + BEGIN) + (nl + body) + (END + nl + post);
  }

  lemma PullShape(remote: string, encoder: Tool)
    ensures var command := Render(Pull(remote, encoder)); command != "" && command[|command| - 1] == ')'
  {
    LineShape(Pull(remote, encoder));
  }

  lemma ExtractsFile(host: Host, file: bytes, command: string, pre: string, nl: string, body: string, post: string)
    requires command != "" && command[|command| - 1] == ')' && !Contains(command, BEGIN)
    requires IsNewline(nl) && DropSpace(body) == Base64.Encode(file)
    requires host.stripAnsi(nl + body) == nl + body
    requires !Contains(post, BEGIN) && !Contains(post, END)
    ensures Extract(host, pre + Output(nl, body, post), command) == Some(Base64.Encode(file))
  {
    var out := Output(nl, body, post);
    Base64.EncodedChars(file);
    SpaceAndBase64(body);
    assert BEGIN <= out;
    var rest := StripEchoKeeps(pre, out, command);
    CutsBody(host, rest, nl, body, post);
  }

  /**
   Whatever precedes the output (an echo, a prompt, or nothing), and however the target breaks
   its base64, what is cut out is the base64 of the file.
   */
  lemma PullRoundTrip(host: Host, file: bytes, remote: string, encoder: Tool, pre: string, nl: string, body: string, post: string)
    requires IsNewline(nl) && DropSpace(body) == Base64.Encode(file)
    requires host.stripAnsi(nl + body) == nl + body
    requires !Contains(remote, BEGIN) && !Contains(post, BEGIN) && !Contains(post, END)
    ensures Extract(host, pre + Output(nl, body, post), Render(Pull(remote, encoder))) == Some(Base64.Encode(file))
  {
    PullShape(remote, encoder);
    CommandHoldsMarker(remote, encoder, BEGIN);
    ExtractsFile(host, file, Render(Pull(remote, encoder)), pre, nl, body, post);
  }

  lemma SuffixHoldsNone(text: string, n: nat, marker: string)
    requires n <= |text| && !Contains(text, marker)
    ensures !Contains(text[n..], marker)
  {
    assert text == text[..n] + text[n..];
    if i :| OccursAt(text[n..], marker, i) {
      ShiftOccurrence(text[..n], text[n..], marker, i + n);
    }
  }

  lemma StripEchoSuffix(text: string, command: string) returns (n: nat)
    ensures n <= |text| && StripEcho(text, command) == text[n..]
  {
    n := |text| - |StripEcho(text, command)|;
  }

  /** An echo alone, in whatever else the console shows, is never taken for a file. */
  lemma EchoGivesNothing(host: Host, remote: string, encoder: Tool, before: string, sep: char, nl: char, after: string)
    requires sep !in BEGIN && nl !in BEGIN
    requires !Contains(remote, BEGIN) && !Contains(before, BEGIN) && !Contains(after, BEGIN)
    ensures var command := Render(Pull(remote, encoder));
      Extract(host, before + [sep] + (command + [nl] + after), command) == None
  {
    var command := Render(Pull(remote, encoder));
    var text := before + [sep] + (command + [nl] + after);
    CommandHoldsMarker(remote, encoder, BEGIN);
    AroundSeparator(command, nl, after, BEGIN);
    AroundSeparator(before, sep, command + [nl] + after, BEGIN);
    var n := StripEchoSuffix(text, command);
    SuffixHoldsNone(text, n, BEGIN);
  }

  // ---- the pull ----

  predicate PullTooSmall(remote: string, budget: Option<int>) {
    || Exceeds(ProbeEncoder, budget) || Exceeds(Md5(remote), budget)
    || Exceeds(Pull(remote, Base64Tool), budget) || Exceeds(Pull(remote, OpenSsl), budget)
  }

  /** Decoding and checksum, once the output is cut out. */
  function Checked(host: Host, content: string, digest: DigestResult): PullResult {
    var data := host.b64decode(content);
    if data.None? then PullFailed(DecodeFailed)
    else if digest.DigestRaised? then PullRaised
    else if digest.value.None? then PullFailed(ChecksumVerifyFailed)
    else if digest.value.value != host.md5(data.value) then PullFailed(ChecksumMismatch)
    else Pulled(data.value)
  }

  function Conclude(host: Host, reply: Reply, content: Option<string>, failed: bool, digest: DigestResult): PullResult {
    if !reply.tx.Accepted? then PullRaised
    else if !reply.prompt then PullFailed(TransferTimeout)
    else if content.None? then PullFailed(if failed then ToolFailed else ParseFailed)
    else Checked(host, content.value, digest)
  }

  lemma ConcludeChecked(host: Host, reply: Reply, content: Option<string>, failed: bool, digest: DigestResult)
    ensures var r := Conclude(host, reply, content, failed, digest);
      r != PullFailed(LineLimitTooSmall) && (r.Pulled? ==> digest == Digest(Some(host.md5(r.data))))
  {
  }

  /** The result of a pull on a console that has taken `log` and answers as `oracle` says. */
  function FetchResult(host: Host, oracle: (seq<Line>, Command) -> Reply, log: seq<Line>, remote: string, encoder: Tool): PullResult {
    var cmd := Pull(remote, encoder);
    var reply := oracle(log, cmd);
    Conclude(host, reply, Extract(host, TextOf(reply, cmd), Render(cmd)), FailureSeen(TextOf(reply, cmd), ENCODER_FAILED, cmd),
             ReadMd5(host, oracle(log + [Line(cmd, Accepted)], Md5(remote)), Md5(remote)))
  }

  /** The whole pull after its first checks, with the budget looked at once more when the encoder is known. */
  function PullRun(host: Host, oracle: (seq<Line>, Command) -> Reply, log: seq<Line>, remote: string, budget: Option<int>): PullResult {
    AfterProbe(host, oracle, log + [Line(ProbeEncoder, Accepted)], remote, budget,
               ReadProbe(host, oracle(log, ProbeEncoder), ProbeEncoder))
  }

  function AfterProbe(host: Host, oracle: (seq<Line>, Command) -> Reply, log: seq<Line>, remote: string, budget: Option<int>,
      probe: ProbeResult): PullResult
  {
    match probe
    case ProbeRaised => PullRaised
    case NotFound(error) => PullFailed(error)
    case Found(encoder) =>
      if Exceeds(Pull(remote, encoder), budget) then PullFailed(LineLimitTooSmall)
      else FetchResult(host, oracle, log, remote, encoder)
  }

  method Verify(con: Console, host: Host, remote: string, content: string, budget: Option<int>) returns (r: PullResult)
    requires !Exceeds(Md5(remote), budget)
    modifies con
    ensures Grew(old(con.log), con.log, budget, true)
    ensures con.files == old(con.files)
    ensures r == Checked(host, content, ReadMd5(host, con.oracle(old(con.log), Md5(remote)), Md5(remote)))
  {
    GrewNone(con.log, budget, true);
    var data := host.b64decode(content);
    if data.None? {
      return PullFailed(DecodeFailed);
    }
    var digest := RemoteMd5(con, host, remote, budget);
    if digest.DigestRaised? {
      return PullRaised;
    }
    if digest.value.None? {
      return PullFailed(ChecksumVerifyFailed);
    }
    if digest.value.value != host.md5(data.value) {
      return PullFailed(ChecksumMismatch);
    }
    return Pulled(data.value);
  }

  /** The exchange with the encoder. */
  method Fetch(con: Console, host: Host, remote: string, encoder: Tool, budget: Option<int>) returns (r: PullResult)
    requires !Exceeds(Pull(remote, encoder), budget) && !Exceeds(Md5(remote), budget)
    modifies con
    ensures Grew(old(con.log), con.log, budget, true)
    ensures con.files == old(con.files)
    ensures r == FetchResult(host, con.oracle, old(con.log), remote, encoder)
  {
    var cmd := Pull(remote, encoder);
    GrewOne(con.log, cmd, Taken(con.oracle(con.log, cmd), false).tx, budget);
    var reply := con.Send(cmd, false);
    if reply.tx.Rejected? {
      return PullRaised;
    }
    if !reply.prompt {
      return PullFailed(TransferTimeout);
    }
    var content := Extract(host, TextOf(reply, cmd), Render(cmd));
    if content.None? {
      var failed := FailureSeen(TextOf(reply, cmd), ENCODER_FAILED, cmd);
      return PullFailed(if failed then ToolFailed else ParseFailed);
    }
    ghost var between := con.log;
    r := Verify(con, host, remote, content.value, budget);
    GrewTrans(old(con.log), between, con.log, budget, false, true);
  }

  method Preflight(remote: string, budget: Option<int>) returns (ok: bool)
    ensures ok <==> !PullTooSmall(remote, budget)
  {
    if Exceeds(ProbeEncoder, budget) || Exceeds(Md5(remote), budget) {
      return false;
    }
    return !Exceeds(Pull(remote, Base64Tool), budget) && !Exceeds(Pull(remote, OpenSsl), budget);
  }

  method PullProbed(con: Console, host: Host, remote: string, budget: Option<int>) returns (r: PullResult)
    requires !Exceeds(ProbeEncoder, budget) && !Exceeds(Md5(remote), budget)
    modifies con
    ensures Grew(old(con.log), con.log, budget, true) && con.log != old(con.log)
    ensures con.files == old(con.files)
    ensures r == PullRun(host, con.oracle, old(con.log), remote, budget)
  {
    var probe := ProbeTool(con, host, ProbeEncoder, budget);
    ghost var between := con.log;
    GrewNone(con.log, budget, true);
    r := Encode(con, host, remote, probe, budget);
    GrewTrans(old(con.log), between, con.log, budget, false, true);
  }

  /** What follows the probe. */
  method Encode(con: Console, host: Host, remote: string, probe: ProbeResult, budget: Option<int>) returns (r: PullResult)
    requires !Exceeds(Md5(remote), budget)
    modifies con
    ensures Grew(old(con.log), con.log, budget, true)
    ensures con.files == old(con.files)
    ensures r == AfterProbe(host, con.oracle, old(con.log), remote, budget, probe)
  {
    GrewNone(con.log, budget, true);
    if probe.ProbeRaised? {
      return PullRaised;
    }
    if probe.NotFound? {
      return PullFailed(probe.error);
    }
    if Exceeds(Pull(remote, probe.tool), budget) {
      return PullFailed(LineLimitTooSmall);
    }
    r := Fetch(con, host, remote, probe.tool, budget);
  }

  /** `_pull_file_tx`, up to writing the local file. */
  method PullFileTx(con: Console, host: Host, remote: string, budget: Option<int>) returns (r: PullResult)
    modifies con
    ensures Grew(old(con.log), con.log, budget, true)
    ensures con.files == old(con.files)
    ensures PullTooSmall(remote, budget) ==> r == PullFailed(LineLimitTooSmall) && con.log == old(con.log)
    ensures !PullTooSmall(remote, budget) ==> r == PullRun(host, con.oracle, old(con.log), remote, budget) && con.log != old(con.log)
  {
    GrewNone(con.log, budget, true);
    var ok := Preflight(remote, budget);
    if !ok {
      return PullFailed(LineLimitTooSmall);
    }
    r := PullProbed(con, host, remote, budget);
  }

  /** Once a line has been sent, the line limit can no longer be the answer. */
  lemma NoLateLineLimit(host: Host, oracle: (seq<Line>, Command) -> Reply, log: seq<Line>, remote: string, budget: Option<int>)
    requires !PullTooSmall(remote, budget)
    ensures PullRun(host, oracle, log, remote, budget) != PullFailed(LineLimitTooSmall)
  {
    ProbeKinds(host, oracle(log, ProbeEncoder), ProbeEncoder);
    NotLateAfter(host, oracle, log + [Line(ProbeEncoder, Accepted)], remote, budget, ReadProbe(host, oracle(log, ProbeEncoder), ProbeEncoder));
  }

  lemma NotLateAfter(host: Host, oracle: (seq<Line>, Command) -> Reply, log: seq<Line>, remote: string, budget: Option<int>, probe: ProbeResult)
    requires !PullTooSmall(remote, budget) && (probe.NotFound? ==> IsEarly(probe.error))
    ensures AfterProbe(host, oracle, log, remote, budget, probe) != PullFailed(LineLimitTooSmall)
  {
    if probe.Found? {
      EitherFits(remote, budget, probe.tool);
      FetchIsLate(host, oracle, log, remote, probe.tool);
    }
  }

  lemma EitherFits(remote: string, budget: Option<int>, encoder: Tool)
    requires !PullTooSmall(remote, budget)
    ensures !Exceeds(Pull(remote, encoder), budget)
  {
    assert encoder == if encoder.Base64Tool? then Base64Tool else OpenSsl;
  }

  lemma FetchIsLate(host: Host, oracle: (seq<Line>, Command) -> Reply, log: seq<Line>, remote: string, encoder: Tool)
    ensures FetchResult(host, oracle, log, remote, encoder) != PullFailed(LineLimitTooSmall)
  {
    var cmd := Pull(remote, encoder);
    var reply := oracle(log, cmd);
    ConcludeChecked(host, reply, Extract(host, TextOf(reply, cmd), Render(cmd)), FailureSeen(TextOf(reply, cmd), ENCODER_FAILED, cmd),
                    ReadMd5(host, oracle(log + [Line(cmd, Accepted)], Md5(remote)), Md5(remote)));
  }

  /** What the target has to show for `file` to be pulled. */
  ghost predicate Shows(oracle: (seq<Line>, Command) -> Reply, log: seq<Line>, host: Host, remote: string, file: bytes) {
    var probe := ReadProbe(host, oracle(log, ProbeEncoder), ProbeEncoder);
    var probed := log + [Line(ProbeEncoder, Accepted)];
    probe.Found? && ShowsWith(oracle, probed, host, remote, probe.tool, file)
  }

  ghost predicate ShowsWith(oracle: (seq<Line>, Command) -> Reply, log: seq<Line>, host: Host, remote: string, encoder: Tool, file: bytes) {
    var cmd := Pull(remote, encoder);
    var reply := oracle(log, cmd);
    var fetched := log + [Line(cmd, Accepted)];
    && reply.tx.Accepted? && reply.prompt && IsTranscript(host, TextOf(reply, cmd), file)
    && ReadMd5(host, oracle(fetched, Md5(remote)), Md5(remote)) == Digest(Some(host.md5(file)))
  }

  /** Anything, then the file in base64 between the markers, then text without a marker. */
  ghost predicate IsTranscript(host: Host, text: string, file: bytes) {
    exists pre, nl, body, post ::
      && text == pre + Output(nl, body, post)
      && IsNewline(nl) && DropSpace(body) == Base64.Encode(file) && host.stripAnsi(nl + body) == nl + body
      && !Contains(post, BEGIN) && !Contains(post, END)
  }

  /** The host's decoder is lenient, but agrees on what is well formed. */
  ghost predicate DecodesBase64(host: Host) {
    forall s :: Base64.Decode(s).Some? ==> host.b64decode(s) == Base64.Decode(s)
  }

  /** A file the target shows is the file that is pulled, byte for byte. */
  lemma PullsTheFile(oracle: (seq<Line>, Command) -> Reply, log: seq<Line>, host: Host, remote: string, file: bytes, budget: Option<int>)
    requires DecodesBase64(host) && !Contains(remote, BEGIN) && !PullTooSmall(remote, budget)
    requires Shows(oracle, log, host, remote, file)
    ensures PullRun(host, oracle, log, remote, budget) == Pulled(file)
  {
    var encoder := ReadProbe(host, oracle(log, ProbeEncoder), ProbeEncoder).tool;
    EitherFits(remote, budget, encoder);
    FetchesTheFile(oracle, log + [Line(ProbeEncoder, Accepted)], host, remote, encoder, file);
  }

  lemma FetchesTheFile(oracle: (seq<Line>, Command) -> Reply, log: seq<Line>, host: Host, remote: string, encoder: Tool, file: bytes)
    requires DecodesBase64(host) && !Contains(remote, BEGIN)
    requires ShowsWith(oracle, log, host, remote, encoder, file)
    ensures FetchResult(host, oracle, log, remote, encoder) == Pulled(file)
  {
    var cmd := Pull(remote, encoder);
    TranscriptHolds(host, TextOf(oracle(log, cmd), cmd), remote, encoder, file);
    Base64.RoundTrip(file);
  }

  lemma TranscriptHolds(host: Host, text: string, remote: string, encoder: Tool, file: bytes)
    requires !Contains(remote, BEGIN) && IsTranscript(host, text, file)
    ensures Extract(host, text, Render(Pull(remote, encoder))) == Some(Base64.Encode(file))
  {
    var pre, nl, body, post :|
      && text == pre + Output(nl, body, post)
      && IsNewline(nl) && DropSpace(body) == Base64.Encode(file) && host.stripAnsi(nl + body) == nl + body
      && !Contains(post, BEGIN) && !Contains(post, END);
    PullRoundTrip(host, file, remote, encoder, pre, nl, body, post);
  }

  /** Whatever the console shows, a pulled file has the checksum the target reported last. */
  lemma PulledIsChecked(host: Host, oracle: (seq<Line>, Command) -> Reply, log: seq<Line>, remote: string, budget: Option<int>, encoder: Tool)
    requires ReadProbe(host, oracle(log, ProbeEncoder), ProbeEncoder) == Found(encoder)
    requires PullRun(host, oracle, log, remote, budget).Pulled?
    ensures var late := log + [Line(ProbeEncoder, Accepted)] + [Line(Pull(remote, encoder), Accepted)];
      ReadMd5(host, oracle(late, Md5(remote)), Md5(remote)) == Digest(Some(host.md5(PullRun(host, oracle, log, remote, budget).data)))
  {
    FetchedIsChecked(host, oracle, log + [Line(ProbeEncoder, Accepted)], remote, encoder);
  }

  lemma FetchedIsChecked(host: Host, oracle: (seq<Line>, Command) -> Reply, log: seq<Line>, remote: string, encoder: Tool)
    requires FetchResult(host, oracle, log, remote, encoder).Pulled?
    ensures var late := log + [Line(Pull(remote, encoder), Accepted)];
      ReadMd5(host, oracle(late, Md5(remote)), Md5(remote)) == Digest(Some(host.md5(FetchResult(host, oracle, log, remote, encoder).data)))
  {
    var cmd := Pull(remote, encoder);
    var reply := oracle(log, cmd);
    ConcludeChecked(host, reply, Extract(host, TextOf(reply, cmd), Render(cmd)), FailureSeen(TextOf(reply, cmd), ENCODER_FAILED, cmd),
                    ReadMd5(host, oracle(log + [Line(cmd, Accepted)], Md5(remote)), Md5(remote)));
  }
}
