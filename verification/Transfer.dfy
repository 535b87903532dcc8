/**
 What a push and a pull have in common (sw_core/file_transfer.py): the console they send their
 lines to, how its answers are read, and the small exchanges. The console is an oracle: any line
 may be refused, stall or time out, and any text may come back.
 */
module Transfer {
  import opened Wrappers
  import opened Bytes
  import opened Text
  import opened Shell
  import opened Echo

  datatype Line = Line(cmd: Command, tx: Tx)

  /** The parts of the host that this model leaves open. */
  datatype Host = Host(
    shellError: string -> bool,            // the shell error patterns of a probe
    readDigest: string -> Option<string>,  // the digest column of md5sum's output
    md5: bytes -> string,
    stripAnsi: string -> string,
    b64decode: string -> Option<bytes>)    // None where the decoder raises

  // ---- the console ----

  /** The line did its work; its sentinel is printed, other than by the echo, only if it did. */
  predicate Ran(reply: Reply, cmd: Command) {
    reply.tx.Accepted? && (reply.ran || HasPrinted(reply, Sentinel(cmd)))
  }

  /** What a line leaves behind. */
  function Effect(files: Files, cmd: Command, reply: Reply): Files {
    if Ran(reply, cmd) then Exec(files, cmd) else files
  }

  class Console {
    const oracle: (seq<Line>, Command) -> Reply
    const interrupts: seq<Line> -> bool
    var log: seq<Line>
    var files: Files

    constructor (oracle: (seq<Line>, Command) -> Reply, interrupts: seq<Line> -> bool, files: Files)
      ensures log == [] && this.files == files && this.oracle == oracle && this.interrupts == interrupts
    {
      this.oracle, this.interrupts, this.log, this.files := oracle, interrupts, [], files;
    }

    /** `send_command`, or with `paced` the echo-paced form, which alone can stall. */
    method Send(cmd: Command, paced: bool) returns (r: Reply)
      modifies this
      ensures r == Taken(oracle(old(log), cmd), paced)
      ensures log == old(log) + [Line(cmd, r.tx)]
      ensures files == Effect(old(files), cmd, r)
    {
      r := Taken(oracle(log, cmd), paced);
      log := log + [Line(cmd, r.tx)];
      files := Effect(files, cmd, r);
    }

    /** `cancel_input_line`: clears a half-typed line; the bridge may refuse that too. */
    method Interrupt() returns (ok: bool)
      ensures ok == interrupts(log)
    {
      ok := interrupts(log);
    }
  }

  function Taken(reply: Reply, paced: bool): Reply {
    if reply.tx.Stalled? && !paced then reply.(tx := Rejected) else reply
  }

  // ---- what one transfer may send ----

  /** `after` is `before` and further lines, each within the budget; without `asks` none wants a checksum. */
  ghost predicate Grew(before: seq<Line>, after: seq<Line>, budget: Option<int>, asks: bool) {
    && |before| <= |after| && after[..|before|] == before
    && forall k :: |before| <= k < |after| ==> !Exceeds(after[k].cmd, budget) && (after[k].cmd.Md5? ==> asks)
  }

  lemma GrewNone(log: seq<Line>, budget: Option<int>, asks: bool)
    ensures Grew(log, log, budget, asks)
  {
  }

  lemma GrewOne(log: seq<Line>, cmd: Command, tx: Tx, budget: Option<int>)
    requires !Exceeds(cmd, budget)
    ensures Grew(log, log + [Line(cmd, tx)], budget, cmd.Md5?)
  {
  }

  lemma GrewTrans(a: seq<Line>, b: seq<Line>, c: seq<Line>, budget: Option<int>, first: bool, second: bool)
    requires Grew(a, b, budget, first) && Grew(b, c, budget, second)
    ensures Grew(a, c, budget, first || second)
  {
    assert c[..|a|] == c[..|b|][..|a|];
    forall k | |a| <= k < |c|
      ensures !Exceeds(c[k].cmd, budget) && (c[k].cmd.Md5? ==> first || second)
    {
      if k < |b| {
        assert c[..|b|][k] == b[k];
      }
    }
  }

  /** Files other than `ps` are as they were. */
  ghost predicate SameBut(f: Files, g: Files, ps: set<string>) {
    forall p :: p !in ps ==> (p in f <==> p in g) && (p in f ==> f[p] == g[p])
  }

  // ---- exchanges ----

  datatype Error =
    | LineLimitTooSmall
    | TransferTimeout
    | ProbeFailed
    | ToolMissing
    | EchoStall
    | ToolFailed
    | ParseFailed
    | DecodeFailed
    | ChecksumVerifyFailed
    | ChecksumMismatch
    | MoveTimeout
    | MoveFailed

  /** The errors that can end a transfer before any checksum is asked for. */
  predicate IsEarly(error: Error) {
    error in {TransferTimeout, ProbeFailed, ToolMissing, EchoStall, ToolFailed}
  }

  /** What the host makes of a sent line. */
  datatype Outcome = Confirmed | LineStalled | LineRejected | NoPrompt | NoSentinel

  function Judge(reply: Reply, cmd: Command): Outcome {
    match reply.tx
    case Stalled => LineStalled
    case Rejected => LineRejected
    case Accepted =>
      if !reply.prompt then NoPrompt
      else if !SentinelSeen(TextOf(reply, cmd), Sentinel(cmd), cmd) then NoSentinel else Confirmed
  }

  /** The echo of `cmd` alone can look like its answer. */
  predicate Fools(cmd: Command) {
    EchoFools(cmd, Sentinel(cmd))
  }

  /** A confirmed line has run, unless its echo may have been taken for the answer. */
  lemma ConfirmedHasRun(cmd: Command, reply: Reply)
    requires !cmd.Pull? && Judge(reply, cmd).Confirmed?
    ensures Ran(reply, cmd) || Fools(cmd)
  {
    SentinelsAre(cmd);
    SeenIsPrinted(reply, cmd, Sentinel(cmd));
  }

  /** Sends a line and waits for its prompt and sentinel. */
  method SendAndJudge(con: Console, cmd: Command, paced: bool, budget: Option<int>) returns (r: Outcome)
    requires !Exceeds(cmd, budget) && !cmd.Pull?
    modifies con
    ensures r == Judge(Taken(con.oracle(old(con.log), cmd), paced), cmd)
    ensures Grew(old(con.log), con.log, budget, cmd.Md5?)
    ensures con.log == old(con.log) + [Line(cmd, Taken(con.oracle(old(con.log), cmd), paced).tx)]
    ensures con.files == if Ran(Taken(con.oracle(old(con.log), cmd), paced), cmd) then Exec(old(con.files), cmd) else old(con.files)
    ensures r.Confirmed? ==> Ran(Taken(con.oracle(old(con.log), cmd), paced), cmd) || Fools(cmd)
  {
    GrewOne(con.log, cmd, Taken(con.oracle(con.log, cmd), paced).tx, budget);
    var reply := con.Send(cmd, paced);
    r := Judge(reply, cmd);
    if r.Confirmed? {
      ConfirmedHasRun(cmd, reply);
    }
  }

  method CleanUp(con: Console, tmp: string, budget: Option<int>) returns (raised: bool)
    requires !Exceeds(Cleanup(tmp), budget)
    modifies con
    ensures Grew(old(con.log), con.log, budget, false)
    ensures con.files == old(con.files) || con.files == old(con.files) - {tmp}
  {
    var outcome := SendAndJudge(con, Cleanup(tmp), false, budget);
    raised := outcome.LineRejected?;
  }

  datatype ProbeResult = Found(tool: Tool) | NotFound(error: Error) | ProbeRaised

  function ProbeVerdict(reply: Reply, first: bool, second: bool, shellError: bool): (r: ProbeResult)
    ensures r.ProbeRaised? <==> !reply.tx.Accepted?
    ensures r.NotFound? ==> IsEarly(r.error)
  {
    if !reply.tx.Accepted? then ProbeRaised
    else if !reply.prompt then NotFound(TransferTimeout)
    else if first then Found(Base64Tool)
    else if second then Found(OpenSsl)
    else NotFound(if shellError then ProbeFailed else ToolMissing)
  }

  function ReadProbe(host: Host, reply: Reply, cmd: Command): ProbeResult {
    ProbeVerdict(reply, SentinelSeen(TextOf(reply, cmd), ProbeSentinel(cmd, Base64Tool), cmd),
                 SentinelSeen(TextOf(reply, cmd), ProbeSentinel(cmd, OpenSsl), cmd),
                 host.shellError(StripEcho(TextOf(reply, cmd), Render(cmd))))
  }

  lemma ProbeKinds(host: Host, reply: Reply, cmd: Command)
    ensures var r := ReadProbe(host, reply, cmd);
      (r.ProbeRaised? <==> !reply.tx.Accepted?) && (r.NotFound? ==> IsEarly(r.error))
  {
    var first := SentinelSeen(TextOf(reply, cmd), ProbeSentinel(cmd, Base64Tool), cmd);
    var second := SentinelSeen(TextOf(reply, cmd), ProbeSentinel(cmd, OpenSsl), cmd);
    assert ReadProbe(host, reply, cmd) == ProbeVerdict(reply, first, second, host.shellError(StripEcho(TextOf(reply, cmd), Render(cmd))));
  }

  method ProbeTool(con: Console, host: Host, cmd: Command, budget: Option<int>) returns (r: ProbeResult)
    requires cmd in {ProbeDecoder, ProbeEncoder} && !Exceeds(cmd, budget)
    modifies con
    ensures r == ReadProbe(host, con.oracle(old(con.log), cmd), cmd)
    ensures r.NotFound? ==> IsEarly(r.error)
    ensures r.Found? ==> con.log == old(con.log) + [Line(cmd, Accepted)]
    ensures Grew(old(con.log), con.log, budget, false) && |con.log| > |old(con.log)|
    ensures con.files == old(con.files)
  {
    GrewOne(con.log, cmd, Taken(con.oracle(con.log, cmd), false).tx, budget);
    var reply := con.Send(cmd, false);
    ProbeKinds(host, con.oracle(old(con.log), cmd), cmd);
    return if reply.tx.Rejected? then ProbeRaised else ReadProbe(host, reply, cmd);
  }

  datatype DigestResult = Digest(value: Option<string>) | DigestRaised

  function ReadMd5(host: Host, reply: Reply, cmd: Command): DigestResult {
    if !reply.tx.Accepted? then DigestRaised
    else if !reply.prompt || !SentinelSeen(TextOf(reply, cmd), Sentinel(cmd), cmd) then Digest(None)
    else Digest(host.readDigest(StripEcho(TextOf(reply, cmd), Render(cmd))))
  }

  method RemoteMd5(con: Console, host: Host, path: string, budget: Option<int>) returns (r: DigestResult)
    requires !Exceeds(Md5(path), budget)
    modifies con
    ensures r == ReadMd5(host, con.oracle(old(con.log), Md5(path)), Md5(path))
    ensures r.Digest? ==> con.log == old(con.log) + [Line(Md5(path), Accepted)]
    ensures |con.log| == |old(con.log)| + 1 && con.log[|old(con.log)|].cmd == Md5(path)
    ensures Grew(old(con.log), con.log, budget, true)
    ensures con.files == old(con.files)
  {
    var cmd := Md5(path);
    GrewOne(con.log, cmd, Taken(con.oracle(con.log, cmd), false).tx, budget);
    var reply := con.Send(cmd, false);
    if reply.tx.Rejected? {
      return DigestRaised;
    }
    if !reply.prompt {
      return Digest(None);
    }
    if !SentinelSeen(TextOf(reply, cmd), Sentinel(cmd), cmd) {
      return Digest(None);
    }
    return Digest(host.readDigest(StripEcho(TextOf(reply, cmd), Render(cmd))));
  }
}
