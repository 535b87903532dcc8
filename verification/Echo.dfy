/**
 What comes back on the console (sw_core/file_transfer.py): the echo of the line just typed, and
 what the target prints. The echo can be taken for the target's answer exactly when a text in the
 line brings a whole line of its own that is the sentinel.
 */
module Echo {
  import opened Text
  import opened Shell
  import opened Quoting
  import Base64

  /** How a line fared: taken by the target, stalled before its newline, or refused by the bridge. */
  datatype Tx = Accepted | Stalled | Rejected

  /**
   `ran` says whether a line that was taken did its work on the target. The host reads `lead`, the
   echo of the line unless the console does not echo, and `output`; the target prints the first and
   the last.
   */
  datatype Reply = Reply(tx: Tx, ran: bool, prompt: bool, lead: string, echoed: bool, output: string)

  function TextOf(reply: Reply, cmd: Command): string {
    reply.lead + (if reply.echoed then Render(cmd) else "") + reply.output
  }

  /** The target itself printed `s`. */
  predicate HasPrinted(reply: Reply, s: string) {
    if reply.echoed then Contains(reply.lead, s) || Contains(reply.output, s) else Contains(reply.lead + reply.output, s)
  }

  // ---- reading the target's answer ----

  function StripEcho(text: string, command: string): string {
    if command != "" && StartsWith(text, command) then
      var rest := text[|command|..];
      if StartsWith(rest, "\r\n") then rest[2..] else if StartsWith(rest, "\n") then rest[1..] else rest
    else text
  }

  predicate LineEnd(text: string, i: nat) {
    i >= |text| || text[i] == '\n' || (text[i] == '\r' && i + 1 < |text| && text[i + 1] == '\n')
  }

  predicate OwnLineAt(text: string, s: string, i: int) {
    OccursAt(text, s, i) && (i == 0 || text[i - 1] == '\n') && LineEnd(text, i + |s|)
  }

  /** The sentinel stands on a line of its own. */
  predicate OnOwnLine(text: string, sentinel: string) {
    exists i :: 0 <= i <= |text| && OwnLineAt(text, sentinel, i)
  }

  predicate SentinelSeen(text: string, sentinel: string, cmd: Command) {
    OnOwnLine(StripEcho(text, Render(cmd)), sentinel)
  }

  /** The failure sentinel may stick to the encoder's partial output. */
  predicate FailureSeen(text: string, sentinel: string, cmd: Command) {
    var output := StripEcho(text, Render(cmd));
    exists i :: 0 <= i <= |output| && OccursAt(output, sentinel, i) && LineEnd(output, i + |sentinel|)
  }

  // ---- a sentinel on a line of its own ----

  /** Sentinels are made of capital letters, digits and underscores. */
  predicate IsSentinel(s: string) {
    && (forall i :: 0 <= i < |s| ==> 'A' <= s[i] <= 'Z' || '0' <= s[i] <= '9' || s[i] == '_')
    && '2' in s && '_' in s
  }

  lemma SentinelsAre(cmd: Command)
    requires !cmd.Pull?
    ensures IsSentinel(Sentinel(cmd))
  {
  }

  /** The sentinel with its line: what a text must hold for its echo to look like the answer. */
  predicate HoldsLine(text: string, s: string) {
    Contains(text, "\n" + s + "\n") || Contains(text, "\n" + s + "\r\n")
  }

  /** Some text that the line inserts brings the sentinel as a line of its own. */
  predicate EchoFools(cmd: Command, s: string) {
    exists i :: 0 <= i < |Inserted(cmd)| && HoldsLine(Inserted(cmd)[i], s)
  }

  lemma LinesAreTelltale(s: string)
    requires IsSentinel(s)
    ensures Telltale(s) && Telltale("\n" + s + "\n") && Telltale("\n" + s + "\r\n")
  {
    var k :| 0 <= k < |s| && s[k] == '2';
    var m :| 0 <= m < |s| && s[m] == '_';
    assert ("\n" + s + "\n")[k + 1] == '2' && ("\n" + s + "\n")[m + 1] == '_';
    assert ("\n" + s + "\r\n")[k + 1] == '2' && ("\n" + s + "\r\n")[m + 1] == '_';
  }

  /** The line's echo holds the sentinel as a line of its own exactly when a text in it brings it. */
  lemma LineHoldsLine(cmd: Command, s: string)
    requires IsSentinel(s)
    ensures HoldsLine(Render(cmd), s) <==> EchoFools(cmd, s)
  {
    LinesAreTelltale(s);
    LineHolds(cmd, "\n" + s + "\n");
    LineHolds(cmd, "\n" + s + "\r\n");
    FoolsWhenCarried(cmd, s);
  }

  lemma FoolsWhenCarried(cmd: Command, s: string)
    ensures EchoFools(cmd, s) <==> Carries(cmd, "\n" + s + "\n") || Carries(cmd, "\n" + s + "\r\n")
  {
    var p, q := "\n" + s + "\n", "\n" + s + "\r\n";
    if i :| 0 <= i < |Inserted(cmd)| && Contains(Inserted(cmd)[i], p) {
      assert HoldsLine(Inserted(cmd)[i], s);
    }
    if i :| 0 <= i < |Inserted(cmd)| && Contains(Inserted(cmd)[i], q) {
      assert HoldsLine(Inserted(cmd)[i], s);
    }
  }

  // ---- the echo does not start again inside itself ----

  /** A text that starts with a letter and ends with the turn, which is nowhere else in it. */
  ghost predicate TurnsOnce(r: string) {
    && |r| >= 10 && 'a' <= r[0] <= 'z' && OccursAt(r, TURN, |r| - 10)
    && (forall i :: OccursAt(r, TURN, i) ==> i == |r| - 10)
    && (forall k :: |r| - 9 <= k < |r| ==> !('a' <= r[k] <= 'z'))
  }

  lemma LineTurnsOnce(cmd: Command)
    requires !IsProbe(cmd)
    ensures TurnsOnce(Render(cmd))
  {
    LineShape(cmd);
    var body := LineEnds(cmd);
    PrefixEnds(cmd);
    TurnAtEndOf(body, Prefix(cmd));
  }

  lemma PrefixEnds(cmd: Command)
    requires !IsProbe(cmd)
    ensures var p := Prefix(cmd); p != "" && p[|p| - 1] == '_' && '$' !in p
  {
  }

  lemma TurnAtEndOf(body: string, prefix: string)
    requires !Contains(body, TURN) && prefix != "" && prefix[|prefix| - 1] == '_' && '$' !in prefix
    ensures var r := Spaced(body, FinalWord(prefix));
      && |r| >= 10 && OccursAt(r, TURN, |r| - 10)
      && (forall i :: OccursAt(r, TURN, i) ==> i == |r| - 10)
      && (forall k :: |r| - 9 <= k < |r| ==> !('a' <= r[k] <= 'z'))
  {
    var w, p := FinalWord(prefix), |prefix|;
    var r := Spaced(body, w);
    var tail := "'$((6*7))";
    assert w == "'" + prefix + tail;
    assert |w| == p + 10 && w[p] == '_' && w[p + 1] == '\'' && w[p + 2] == '$';
    assert r[|body| + 1 + p..|body| + 4 + p] == TURN;
    assert forall k :: |r| - 9 <= k < |r| ==> r[k] == tail[k - (|r| - 9)];
    forall i | OccursAt(r, TURN, i)
      ensures i == |r| - 10
    {
      OccursOnOneSide(body, ' ', w, TURN, i);
      DollarOnce(prefix, i - |body| - 1);
    }
  }

  lemma OnlyDollar(prefix: string, k: nat)
    requires '$' !in prefix && k < |FinalWord(prefix)| && k != |prefix| + 2
    ensures FinalWord(prefix)[k] != '$'
  {
    var w, tail := FinalWord(prefix), "'$((6*7))";
    assert w == "'" + prefix + tail;
    if 0 < k <= |prefix| {
      assert w[k] == prefix[k - 1];
    } else if k > |prefix| {
      assert w[k] == tail[k - |prefix| - 1];
    }
  }

  lemma DollarOnce(prefix: string, m: int)
    requires '$' !in prefix && OccursAt(FinalWord(prefix), TURN, m)
    ensures m == |prefix|
  {
    if m != |prefix| {
      OnlyDollar(prefix, m + 2);
      Mismatch(FinalWord(prefix), TURN, m, 2);
    }
  }

  lemma NoBorder(r: string, n: nat)
    requires TurnsOnce(r) && 0 < n < |r|
    ensures r[..n] != r[|r| - n..]
  {
    if n < 10 {
      assert r[..n][0] == r[0] && r[|r| - n..][0] == r[|r| - n];
    } else {
      assert r[..n][n - 10..n - 7] == r[n - 10..n - 7];
      assert r[|r| - n..][n - 10..n - 7] == r[|r| - 10..|r| - 7] == TURN;
      assert !OccursAt(r, TURN, n - 10);
    }
  }

  /** A text that starts with the line cannot have the line's echo begin inside that start. */
  lemma NoShiftedEcho(r: string, lead: string, output: string)
    requires TurnsOnce(r) && 0 < |lead| < |r|
    ensures !StartsWith(lead + r + output, r)
  {
    NoBorder(r, |r| - |lead|);
    Shifted(r, lead, output);
  }

  lemma Shifted(r: string, lead: string, output: string)
    requires |lead| < |r|
    ensures StartsWith(lead + r + output, r) ==> r[..|r| - |lead|] == r[|lead|..]
  {
    var text, k := lead + r + output, |lead|;
    if StartsWith(text, r) {
      forall m | 0 <= m < |r| - k
        ensures r[m] == r[k + m]
      {
        assert text[k + m] == r[k + m] && text[k + m] == r[m];
      }
    }
  }

  // ---- whose sentinel it is ----

  lemma EchoCut(text: string, command: string) returns (n: nat)
    ensures n <= |text| && StripEcho(text, command) == text[n..]
    ensures n == 0 || (StartsWith(text, command) && (n == |command| || (n > |command| && text[n - 1] == '\n')))
  {
    n := |text| - |StripEcho(text, command)|;
    if command != "" && StartsWith(text, command) {
      var rest := text[|command|..];
      assert StartsWith(rest, "\r\n") ==> rest[1] == '\n';
      assert StartsWith(rest, "\n") ==> rest[0] == '\n';
    }
  }

  /** Where in the reply an occurrence of a sentinel is. */
  lemma WhereSeen(lead: string, r: string, output: string, s: string, q: int)
    requires IsSentinel(s) && r != "" && 'a' <= r[0] <= 'z' && r[|r| - 1] in {')', 'i'}
    requires OccursAt(lead + r + output, s, q)
    ensures Contains(lead, s) || Contains(output, s) || (|lead| < q && q + |s| < |lead| + |r| && OccursAt(r, s, q - |lead|))
  {
    var text := lead + r + output;
    if q + |s| <= |lead| {
      assert lead[q..q + |s|] == text[q..q + |s|];
      assert OccursAt(lead, s, q);
    } else if q >= |lead| + |r| {
      assert output[q - |lead| - |r|..q - |lead| - |r| + |s|] == text[q..q + |s|];
      assert OccursAt(output, s, q - |lead| - |r|);
    } else {
      StraddlesNot(lead, r, output, s, q);
      assert r[q - |lead|..q - |lead| + |s|] == text[q..q + |s|];
    }
  }

  /** A sentinel has neither the first nor the last character of a line in it. */
  lemma StraddlesNot(lead: string, r: string, output: string, s: string, q: int)
    requires IsSentinel(s) && r != "" && 'a' <= r[0] <= 'z' && r[|r| - 1] in {')', 'i'}
    requires OccursAt(lead + r + output, s, q) && q + |s| > |lead| && q < |lead| + |r|
    ensures |lead| < q && q + |s| < |lead| + |r|
  {
    var text := lead + r + output;
    assert text[|lead|] == r[0] && text[|lead| + |r| - 1] == r[|r| - 1];
    if q <= |lead| {
      NotOver(text, s, q, |lead|);
    } else if q + |s| >= |lead| + |r| {
      NotOver(text, s, q, |lead| + |r| - 1);
    }
  }

  lemma NotOver(text: string, s: string, q: int, k: int)
    requires IsSentinel(s) && OccursAt(text, s, q) && q <= k < q + |s|
    ensures !('a' <= text[k] <= 'z') && text[k] != ')'
  {
    assert text[q..q + |s|][k - q] == text[k];
  }

  /** An occurrence inside the echo that has a line of its own has it inside the echo. */
  lemma LineInside(lead: string, r: string, output: string, s: string, n: nat, i: int)
    requires r != "" && r[|r| - 1] in {')', 'i'}
    requires n <= |lead + r + output| && OwnLineAt((lead + r + output)[n..], s, i)
    requires |lead| < n + i && n + i + |s| < |lead| + |r| && OccursAt(r, s, n + i - |lead|)
    requires i == 0 ==> n > 0 && (lead + r + output)[n - 1] == '\n'
    ensures HoldsLine(r, s)
  {
    var text, j := lead + r + output, n + i - |lead|;
    assert text[n + i - 1] == '\n' && r[j - 1] == text[n + i - 1];
    assert text[n..][i + |s|] == text[n + i + |s|] == r[j + |s|];
    if r[j + |s|] == '\n' {
      var p := "\n" + s + "\n";
      assert r[j - 1..j + |s| + 1] == p;
      assert OccursAt(r, p, j - 1);
    } else {
      assert j + |s| + 1 < |r|;
      assert text[n..][i + |s| + 1] == text[n + i + |s| + 1] == r[j + |s| + 1];
      var p := "\n" + s + "\r\n";
      assert r[j - 1..j + |s| + 2] == p;
      assert OccursAt(r, p, j - 1);
    }
  }

  lemma OccursInSuffix(text: string, n: nat, s: string, i: int)
    requires n <= |text| && OccursAt(text[n..], s, i)
    ensures OccursAt(text, s, n + i)
  {
    assert text[n + i..n + i + |s|] == text[n..][i..i + |s|];
  }

  lemma SeenParts(lead: string, r: string, output: string, s: string, n: nat, i: int)
    requires IsSentinel(s) && r != "" && 'a' <= r[0] <= 'z' && r[|r| - 1] in {')', 'i'}
    requires n <= |lead + r + output| && OwnLineAt((lead + r + output)[n..], s, i)
    requires i == 0 && |lead| < n && n + |s| < |lead| + |r| && Contains(r, s) ==> (lead + r + output)[n - 1] == '\n'
    ensures Contains(lead, s) || Contains(output, s) || HoldsLine(r, s)
  {
    var text := lead + r + output;
    OccursInSuffix(text, n, s, i);
    WhereSeen(lead, r, output, s, n + i);
    if !Contains(lead, s) && !Contains(output, s) {
      LineInside(lead, r, output, s, n, i);
    }
  }

  lemma SeenInEchoed(cmd: Command, lead: string, output: string, s: string)
    requires IsSentinel(s) && SentinelSeen(lead + Render(cmd) + output, s, cmd)
    ensures Contains(lead, s) || Contains(output, s) || EchoFools(cmd, s)
  {
    SeenSomewhere(cmd, lead, output, s);
    LineHoldsLine(cmd, s);
  }

  lemma SeenSomewhere(cmd: Command, lead: string, output: string, s: string)
    requires IsSentinel(s) && SentinelSeen(lead + Render(cmd) + output, s, cmd)
    ensures Contains(lead, s) || Contains(output, s) || HoldsLine(Render(cmd), s)
  {
    LineShape(cmd);
    var n, i := SeenStanding(cmd, lead, output, s);
    SeenParts(lead, Render(cmd), output, s, n, i);
  }

  lemma SeenStanding(cmd: Command, lead: string, output: string, s: string) returns (n: nat, i: int)
    requires IsSentinel(s) && SentinelSeen(lead + Render(cmd) + output, s, cmd)
    ensures var text := lead + Render(cmd) + output;
      && n <= |text| && OwnLineAt(text[n..], s, i)
      && (i == 0 && |lead| < n && n + |s| < |lead| + |Render(cmd)| && Contains(Render(cmd), s) ==> text[n - 1] == '\n')
  {
    n, i := SeenAt(lead + Render(cmd) + output, cmd, s);
    if i == 0 && |lead| < n && n + |s| < |lead| + |Render(cmd)| && Contains(Render(cmd), s) {
      StandsAfterNewline(cmd, lead, output, s, n);
    }
  }

  lemma SeenAt(text: string, cmd: Command, s: string) returns (n: nat, i: int)
    requires SentinelSeen(text, s, cmd)
    ensures n <= |text| && OwnLineAt(text[n..], s, i)
    ensures n == 0 || (StartsWith(text, Render(cmd)) && (n == |Render(cmd)| || text[n - 1] == '\n'))
  {
    n := EchoCut(text, Render(cmd));
    i :| 0 <= i <= |text[n..]| && OwnLineAt(text[n..], s, i);
  }

  /** If the sentinel comes first after the cut and is part of the echo, a newline was cut. */
  lemma StandsAfterNewline(cmd: Command, lead: string, output: string, s: string, n: nat)
    requires IsSentinel(s) && Contains(Render(cmd), s)
    requires var text := lead + Render(cmd) + output;
      n <= |text| && (n == 0 || (StartsWith(text, Render(cmd)) && (n == |Render(cmd)| || text[n - 1] == '\n')))
    requires |lead| < n && n + |s| < |lead| + |Render(cmd)|
    ensures (lead + Render(cmd) + output)[n - 1] == '\n'
  {
    LinesAreTelltale(s);
    LineHolds(cmd, s);
    if |lead| < |Render(cmd)| && |lead| > 0 {
      LineTurnsOnce(cmd);
      NoShiftedEcho(Render(cmd), lead, output);
    }
  }

  lemma SeenInText(text: string, cmd: Command, s: string)
    requires SentinelSeen(text, s, cmd)
    ensures Contains(text, s)
  {
    var n, i := SeenAt(text, cmd, s);
    OccursInSuffix(text, n, s, i);
  }

  /**
   A sentinel seen on a line of its own was printed by the target, unless some text in the line
   brings a line that is the sentinel.
   */
  lemma SeenIsPrinted(reply: Reply, cmd: Command, s: string)
    requires IsSentinel(s) && SentinelSeen(TextOf(reply, cmd), s, cmd)
    ensures HasPrinted(reply, s) || EchoFools(cmd, s)
  {
    if reply.echoed {
      EchoedText(reply, cmd);
      SeenInEchoed(cmd, reply.lead, reply.output, s);
    } else {
      UnechoedText(reply, cmd);
      SeenInText(reply.lead + reply.output, cmd, s);
    }
  }

  lemma EchoedText(reply: Reply, cmd: Command)
    requires reply.echoed
    ensures TextOf(reply, cmd) == reply.lead + Render(cmd) + reply.output
  {
  }

  lemma UnechoedText(reply: Reply, cmd: Command)
    requires !reply.echoed
    ensures TextOf(reply, cmd) == reply.lead + reply.output
  {
    assert reply.lead + "" == reply.lead;
  }

  /** An answer that nothing on the target stands behind. */
  ghost predicate EchoAlone(reply: Reply, cmd: Command, s: string) {
    reply.tx.Accepted? && reply.prompt && !reply.ran && !HasPrinted(reply, s) && SentinelSeen(TextOf(reply, cmd), s, cmd)
  }

  /** An echo that is not stripped, because something stands before it. */
  function Bare(): Reply {
    Reply(Accepted, false, true, "#", true, "")
  }

  lemma BareFools(cmd: Command, s: string)
    requires IsSentinel(s) && HoldsLine(Render(cmd), s)
    ensures EchoAlone(Bare(), cmd, s)
  {
    LineShape(cmd);
    assert TextOf(Bare(), cmd) == "#" + Render(cmd);
    LineShows(Render(cmd), s);
    NotStripped(Render(cmd));
    LinesAreTelltale(s);
    LacksChar("#", s, '2');
    LacksChar("", s, '2');
  }

  lemma NotStripped(r: string)
    requires r != "" && 'a' <= r[0] <= 'z'
    ensures StripEcho("#" + r, r) == "#" + r
  {
    assert ("#" + r)[0] != r[0];
  }

  lemma LineShows(r: string, s: string)
    requires HoldsLine(r, s)
    ensures OnOwnLine("#" + r, s)
  {
    var p, q := "\n" + s + "\n", "\n" + s + "\r\n";
    if Contains(r, p) {
      var i :| 0 <= i <= |r| && OccursAt(r, p, i);
      ShiftOccurrence("#", r, p, i + 1);
      LineShowsAt("#" + r, s, "\n", i + 1);
    } else {
      var i :| 0 <= i <= |r| && OccursAt(r, q, i);
      ShiftOccurrence("#", r, q, i + 1);
      LineShowsAt("#" + r, s, "\r\n", i + 1);
    }
  }

  lemma LineShowsAt(text: string, s: string, nl: string, i: int)
    requires nl == "\n" || nl == "\r\n"
    requires OccursAt(text, "\n" + s + nl, i)
    ensures OnOwnLine(text, s)
  {
    var p := "\n" + s + nl;
    forall k | 0 <= k < |p|
      ensures text[i + k] == p[k]
    {
      assert text[i..i + |p|][k] == text[i + k];
    }
    forall k | 0 <= k < |s|
      ensures text[i + 1 + k] == s[k]
    {
      assert text[i + (1 + k)] == p[1 + k];
    }
    assert text[i + 1..i + 1 + |s|] == s;
    assert text[i + 1 + |s|] == text[i + (1 + |s|)] == nl[0] && (|nl| == 2 ==> text[i + 2 + |s|] == nl[1]);
    assert OwnLineAt(text, s, i + 1);
  }

  /**
   Exactly when the echo can be taken for the answer: if and only if a text in the line holds the
   sentinel as a line of its own. A probe's line has no such text.
   */
  lemma FooledExactly(cmd: Command, s: string)
    requires IsSentinel(s)
    ensures (exists reply :: EchoAlone(reply, cmd, s)) <==> EchoFools(cmd, s)
  {
    LineHoldsLine(cmd, s);
    if reply :| EchoAlone(reply, cmd, s) {
      SeenIsPrinted(reply, cmd, s);
    }
    if EchoFools(cmd, s) {
      BareFools(cmd, s);
    }
  }
}
