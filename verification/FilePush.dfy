/**
 Pushing a file (`push_file` of sw_core/file_transfer.py): budget check, chunks, checksum, move.
 */
module FilePush {
  import opened Wrappers
  import opened Bytes
  import opened Echo
  import opened Quoting
  import opened Shell
  import opened Transfer
  import Base64

  datatype PushResult =
    | Pushed(size: nat, chunks: nat)
    | PushFailed(error: Error)
    | PushRaised  // TxIncompleteError

  // ---- the line budget ----

  function EmptyChunk(tool: Tool, op: Op, tmp: string): Command {
    Chunk("", tool, op, tmp)
  }

  /** The longest line an empty chunk can need, over decoders and redirections. */
  function MaxOverhead(tmp: string): nat {
    Max(Max(LineSize(EmptyChunk(Base64Tool, Overwrite, tmp)), LineSize(EmptyChunk(Base64Tool, Append, tmp))),
        Max(LineSize(EmptyChunk(OpenSsl, Overwrite, tmp)), LineSize(EmptyChunk(OpenSsl, Append, tmp))))
  }

  /** `max(0, (budget - overhead) // 4 * 3)` */
  function RawCapacity(budget: int, overhead: nat): nat {
    if budget < overhead then 0 else (budget - overhead) / 4 * 3
  }

  predicate FixedFit(tmp: string, remote: string, budget: Option<int>) {
    && !Exceeds(Md5(tmp), budget) && !Exceeds(Move(tmp, remote), budget) && !Exceeds(Cleanup(tmp), budget)
    && !Exceeds(ProbeDecoder, budget)
  }

  predicate EmptyChunksFit(tmp: string, budget: Option<int>) {
    budget.Some? ==> MaxOverhead(tmp) <= budget.value
  }

  function Capacity(tmp: string, chunkSize: nat, budget: Option<int>): nat {
    if budget.None? then chunkSize else RawCapacity(budget.value, MaxOverhead(tmp))
  }

  /** The condition, known before the first transmission, under which a push is turned down. */
  predicate PushTooSmall(tmp: string, remote: string, data: bytes, chunkSize: nat, budget: Option<int>) {
    || !FixedFit(tmp, remote, budget)
    || !EmptyChunksFit(tmp, budget)
    || (data != [] && Capacity(tmp, chunkSize, budget) < 1)
  }

  /** Every chunk no larger than the computed capacity fits the budget, with any tool. */
  lemma ChunkFits(chunk: bytes, tool: Tool, op: Op, tmp: string, budget: Option<int>)
    requires EmptyChunksFit(tmp, budget)
    requires budget.Some? ==> |chunk| <= RawCapacity(budget.value, MaxOverhead(tmp))
    ensures !Exceeds(Chunk(Base64.Encode(chunk), tool, op, tmp), budget)
  {
    assert budget.Some? ==> LineSize(EmptyChunk(tool, op, tmp)) <= MaxOverhead(tmp);
    if budget.Some? && chunk != [] {
      ChunkSize(chunk, tool, op, tmp);
      CeilingFits(|chunk|, (budget.value - MaxOverhead(tmp)) / 4);
    }
  }

  /** `4 * ceil(n / 3)` is at most `4 * q` when `n` is at most `3 * q`. */
  lemma CeilingFits(n: nat, q: nat)
    requires n <= q * 3
    ensures (n + 2) / 3 * 4 <= q * 4
  {
  }

  // ---- splitting ----

  function Split(data: bytes, size: nat): (chunks: seq<bytes>)
    requires size > 0
    ensures data != [] ==> forall k :: 0 <= k < |chunks| ==> 0 < |chunks[k]| <= size
  {
    if |data| <= size then [data] else [data[..size]] + Split(data[size..], size)
  }

  function Join(chunks: seq<bytes>): bytes {
    if chunks == [] then [] else Join(chunks[..|chunks| - 1]) + chunks[|chunks| - 1]
  }

  lemma {:induction false} JoinFront(chunk: bytes, chunks: seq<bytes>)
    ensures Join([chunk] + chunks) == chunk + Join(chunks)
  {
    if chunks == [] {
      assert ([chunk] + chunks)[..0] == [];
      assert Join([chunk]) == Join([]) + chunk;
    } else {
      assert ([chunk] + chunks)[..|chunks|] == [chunk] + chunks[..|chunks| - 1];
      JoinFront(chunk, chunks[..|chunks| - 1]);
    }
  }

  /** Splitting loses nothing, whatever the chunk size. */
  lemma {:induction false} SplitJoin(data: bytes, size: nat)
    requires size > 0
    ensures Join(Split(data, size)) == data
  {
    if |data| <= size {
      assert Join([data]) == Join([]) + data;
    } else {
      SplitJoin(data[size..], size);
      JoinFront(data[..size], Split(data[size..], size));
      assert data[..size] + data[size..] == data;
    }
  }

  function ChunksOf(data: bytes, size: nat): seq<bytes>
    requires data != [] ==> size > 0
  {
    if data == [] then [[]] else Split(data, size)
  }

  /** Reassembly: the chunks, one after the other, are the data; none is larger than asked for. */
  lemma ChunksOfJoin(data: bytes, size: nat)
    requires data != [] ==> size > 0
    ensures ChunksOf(data, size) != [] && Join(ChunksOf(data, size)) == data
    ensures forall k :: 0 <= k < |ChunksOf(data, size)| ==> |ChunksOf(data, size)[k]| <= size
  {
    if data == [] {
      assert Join([data]) == Join([]) + data;
    } else {
      SplitJoin(data, size);
    }
  }

  function OpAt(first: bool): Op {
    if first then Overwrite else Append
  }

  /** Running a chunk's line appends the chunk, or starts the file with it. */
  lemma ChunkStored(files: Files, chunk: bytes, before: seq<bytes>, tool: Tool, tmp: string)
    requires before != [] ==> tmp in files && files[tmp] == Join(before)
    ensures var g := Exec(files, Chunk(Base64.Encode(chunk), tool, OpAt(before == []), tmp));
      tmp in g && g[tmp] == Join(before + [chunk])
  {
    Base64.RoundTrip(chunk);
    assert (before + [chunk])[..|before|] == before;
  }

  lemma ChunkTouches(files: Files, encoded: string, tool: Tool, op: Op, tmp: string)
    ensures SameBut(files, Exec(files, Chunk(encoded, tool, op, tmp)), {tmp})
  {
  }

  /** A text without a newline brings no line of its own. */
  lemma OneLineNeverFools(cmd: Command)
    requires forall i :: 0 <= i < |Inserted(cmd)| ==> '\n' !in Inserted(cmd)[i]
    ensures !Fools(cmd)
  {
    var s := Sentinel(cmd);
    forall i | 0 <= i < |Inserted(cmd)|
      ensures !HoldsLine(Inserted(cmd)[i], s)
    {
      LacksFirst(Inserted(cmd)[i], "\n" + s + "\n");
      LacksFirst(Inserted(cmd)[i], "\n" + s + "\r\n");
    }
  }

  lemma ChunkNeverFools(chunk: bytes, tool: Tool, op: Op, tmp: string)
    requires '\n' !in tmp
    ensures !Fools(Chunk(Base64.Encode(chunk), tool, op, tmp))
  {
    if chunk != [] {
      Base64IsSafe(chunk);
    }
    OneLineNeverFools(Chunk(Base64.Encode(chunk), tool, op, tmp));
  }

  /** Clears up after a chunk that was not confirmed. */
  method AfterBadChunk(con: Console, outcome: Outcome, tmp: string, budget: Option<int>) returns (r: ChunkResult)
    requires !Exceeds(Cleanup(tmp), budget) && !outcome.Confirmed?
    modifies con
    ensures Grew(old(con.log), con.log, budget, false)
    ensures SameBut(old(con.files), con.files, {tmp})
    ensures !r.ChunkDone? && (r.ChunkFailed? ==> IsEarly(r.error))
  {
    GrewNone(con.log, budget, false);
    var raised := true;
    if outcome.LineStalled? {
      var ok := con.Interrupt();
      if ok {
        raised := CleanUp(con, tmp, budget);
        if !raised {
          return ChunkFailed(EchoStall);
        }
      }
    }
    if outcome.LineStalled? || outcome.LineRejected? {
      ghost var between := con.log;
      BestEffortAfterReject(con, tmp, budget);
      GrewTrans(old(con.log), between, con.log, budget, false, false);
      return ChunkRaised;
    }
    raised := CleanUp(con, tmp, budget);
    return if raised then ChunkRaised else ChunkFailed(if outcome.NoPrompt? then TransferTimeout else ToolFailed);
  }

  method BestEffortAfterReject(con: Console, tmp: string, budget: Option<int>)
    requires !Exceeds(Cleanup(tmp), budget)
    modifies con
    ensures Grew(old(con.log), con.log, budget, false)
    ensures SameBut(old(con.files), con.files, {tmp})
  {
    GrewNone(con.log, budget, false);
    var ok := con.Interrupt();
    if ok {
      var _ := CleanUp(con, tmp, budget);
    }
  }

  ghost predicate AllConfirmed(oracle: (seq<Line>, Command) -> Reply) {
    forall log, cmd :: Judge(oracle(log, cmd), cmd).Confirmed?
  }

  lemma ConfirmedLine(oracle: (seq<Line>, Command) -> Reply, log: seq<Line>, cmd: Command, paced: bool)
    requires AllConfirmed(oracle)
    ensures Judge(Taken(oracle(log, cmd), paced), cmd).Confirmed?
  {
    assert Judge(oracle(log, cmd), cmd).Confirmed?;
  }

  lemma ConfirmedProbe(oracle: (seq<Line>, Command) -> Reply, log: seq<Line>, host: Host)
    requires AllConfirmed(oracle)
    ensures ReadProbe(host, oracle(log, ProbeDecoder), ProbeDecoder).Found?
  {
    assert Judge(oracle(log, ProbeDecoder), ProbeDecoder).Confirmed?;
  }

  datatype ChunkResult = ChunkDone | ChunkFailed(error: Error) | ChunkRaised

  /** One turn of the push loop. */
  method SendChunk(con: Console, chunk: bytes, first: bool, tool: Tool, tmp: string, paced: bool, budget: Option<int>)
    returns (r: ChunkResult)
    requires !Exceeds(Cleanup(tmp), budget) && EmptyChunksFit(tmp, budget) && '\n' !in tmp
    requires budget.Some? ==> |chunk| <= RawCapacity(budget.value, MaxOverhead(tmp))
    modifies con
    ensures Grew(old(con.log), con.log, budget, false) && |con.log| > |old(con.log)|
    ensures SameBut(old(con.files), con.files, {tmp})
    ensures r.ChunkFailed? ==> IsEarly(r.error)
    ensures r.ChunkDone? ==> con.files == Exec(old(con.files), Chunk(Base64.Encode(chunk), tool, OpAt(first), tmp))
    ensures AllConfirmed(con.oracle) ==> r.ChunkDone?
  {
    if AllConfirmed(con.oracle) {
      ConfirmedLine(con.oracle, con.log, Chunk(Base64.Encode(chunk), tool, OpAt(first), tmp), paced);
    }
    var encoded := Base64.Encode(chunk);
    ChunkFits(chunk, tool, OpAt(first), tmp, budget);
    ChunkTouches(con.files, encoded, tool, OpAt(first), tmp);
    ChunkNeverFools(chunk, tool, OpAt(first), tmp);
    if Exceeds(Chunk(encoded, tool, OpAt(first), tmp), budget) {
      assert false;  // the preflight has already turned the push down
    }
    var outcome := SendAndJudge(con, Chunk(encoded, tool, OpAt(first), tmp), paced, budget);
    if outcome.Confirmed? {
      return ChunkDone;
    }
    ghost var between := con.log;
    r := AfterBadChunk(con, outcome, tmp, budget);
    GrewTrans(old(con.log), between, con.log, budget, false, false);
  }

  method SendChunks(con: Console, chunks: seq<bytes>, tool: Tool, tmp: string, paced: bool, budget: Option<int>)
    returns (r: ChunkResult)
    requires chunks != []
    requires !Exceeds(Cleanup(tmp), budget) && EmptyChunksFit(tmp, budget) && '\n' !in tmp
    requires budget.Some? ==> forall k :: 0 <= k < |chunks| ==> |chunks[k]| <= RawCapacity(budget.value, MaxOverhead(tmp))
    modifies con
    ensures Grew(old(con.log), con.log, budget, false) && |con.log| > |old(con.log)|
    ensures SameBut(old(con.files), con.files, {tmp})
    ensures r.ChunkFailed? ==> IsEarly(r.error)
    ensures r.ChunkDone? ==> tmp in con.files && con.files[tmp] == Join(chunks)
    ensures AllConfirmed(con.oracle) ==> r.ChunkDone?
  {
    GrewNone(con.log, budget, false);
    for idx := 0 to |chunks|
      invariant Grew(old(con.log), con.log, budget, false) && |con.log| >= |old(con.log)| + (if idx > 0 then 1 else 0)
      invariant SameBut(old(con.files), con.files, {tmp})
      invariant idx > 0 ==> tmp in con.files && con.files[tmp] == Join(chunks[..idx])
    {
      ghost var before := con.log;
      assert chunks[..idx] + [chunks[idx]] == chunks[..idx + 1];
      ChunkStored(con.files, chunks[idx], chunks[..idx], tool, tmp);
      r := SendChunk(con, chunks[idx], idx == 0, tool, tmp, paced, budget);
      GrewTrans(old(con.log), before, con.log, budget, false, false);
      if !r.ChunkDone? {
        return;
      }
    }
    assert chunks[..|chunks|] == chunks;
    r := ChunkDone;
  }

  // ---- the push ----

  /** A target that confirms every line and reads back the checksum of what was sent. */
  ghost predicate Cooperative(oracle: (seq<Line>, Command) -> Reply, host: Host, data: bytes, tmp: string) {
    && AllConfirmed(oracle)
    && forall log :: ReadMd5(host, oracle(log, Md5(tmp)), Md5(tmp)) == Digest(Some(host.md5(data)))
  }

  /** The remote path holds what it held before, or the whole file: never a part of it. */
  ghost predicate AllOrNothing(f: Files, g: Files, remote: string, data: bytes) {
    AsBefore(f, g, remote) || Holds(g, remote, data)
  }

  predicate AsBefore(f: Files, g: Files, path: string) {
    (path in f <==> path in g) && (path in f ==> f[path] == g[path])
  }

  predicate Holds(files: Files, path: string, data: bytes) {
    path in files && files[path] == data
  }

  lemma TmpFirst(f: Files, mid: Files, g: Files, ran: bool, tmp: string, remote: string, data: bytes)
    requires SameBut(f, mid, {tmp}) && SameBut(mid, g, {tmp, remote})
    requires tmp != remote ==> AllOrNothing(mid, g, remote, data)
    ensures SameBut(f, g, {tmp, remote}) && (tmp != remote ==> AllOrNothing(f, g, remote, data))
    ensures Landed(mid, g, ran, tmp, remote, data) ==> Landed(f, g, ran, tmp, remote, data)
  {
    forall p | p !in {tmp, remote}
      ensures (p in f <==> p in g) && (p in f ==> f[p] == g[p])
    {
      assert p !in {tmp} && (p in mid <==> p in g);
    }
    assert tmp != remote ==> remote !in {tmp};
  }

  lemma TmpOnly(f: Files, g: Files, tmp: string, remote: string, data: bytes)
    requires SameBut(f, g, {tmp})
    ensures SameBut(f, g, {tmp, remote}) && (tmp != remote ==> AllOrNothing(f, g, remote, data))
  {
    forall p | p !in {tmp, remote}
      ensures (p in f <==> p in g) && (p in f ==> f[p] == g[p])
    {
      assert p !in {tmp};
    }
    assert tmp != remote ==> remote !in {tmp};
  }

  lemma MoveStores(f: Files, g: Files, tmp: string, remote: string, data: bytes)
    requires SameBut(f, g, {tmp}) && tmp in g && g[tmp] == data
    ensures var h := Exec(g, Move(tmp, remote));
      && SameBut(f, h, {tmp, remote})
      && (tmp != remote ==> remote in h && h[remote] == data)
  {
  }

  const MOVED := "SW_XFER_MV_42"

  /** The last line, the move, was run. */
  predicate MoveRan(oracle: (seq<Line>, Command) -> Reply, log: seq<Line>, tmp: string, remote: string)
    requires log != []
  {
    Ran(oracle(log[..|log| - 1], Move(tmp, remote)), Move(tmp, remote))
  }

  /**
   What a successful push leaves: the data if the move was run, and otherwise what was there. It was
   run unless the remote path holds a line of its own that is the sentinel.
   */
  ghost predicate Landed(f: Files, g: Files, ran: bool, tmp: string, remote: string, data: bytes) {
    && (tmp != remote ==> if ran then Holds(g, remote, data) else AsBefore(f, g, remote))
    && (!HoldsLine(remote, MOVED) ==> ran)
  }

  lemma MoveFools(tmp: string, remote: string)
    requires '\n' !in tmp
    ensures Fools(Move(tmp, remote)) <==> HoldsLine(remote, MOVED)
  {
    var cmd := Move(tmp, remote);
    LacksFirst(tmp, "\n" + MOVED + "\n");
    LacksFirst(tmp, "\n" + MOVED + "\r\n");
    assert Inserted(cmd)[0] == tmp && Inserted(cmd)[1] == remote;
  }

  /** The temporary file takes the remote path's place. */
  method MoveIn(con: Console, remote: string, data: bytes, tmp: string, chunks: nat, budget: Option<int>) returns (r: PushResult)
    requires !Exceeds(Move(tmp, remote), budget) && '\n' !in tmp
    requires tmp in con.files && con.files[tmp] == data
    modifies con
    ensures Grew(old(con.log), con.log, budget, false)
    ensures r in {PushRaised, PushFailed(MoveTimeout), PushFailed(MoveFailed), Pushed(|data|, chunks)}
    ensures r.Pushed? ==> con.log == old(con.log) + [Line(Move(tmp, remote), Accepted)]
    ensures SameBut(old(con.files), con.files, {tmp, remote})
    ensures tmp != remote ==> AllOrNothing(old(con.files), con.files, remote, data)
    ensures r.Pushed? ==> con.log != []
    ensures r.Pushed? ==> Landed(old(con.files), con.files, MoveRan(con.oracle, con.log, tmp, remote), tmp, remote, data)
    ensures AllConfirmed(con.oracle) ==> r.Pushed?
  {
    if AllConfirmed(con.oracle) {
      ConfirmedLine(con.oracle, con.log, Move(tmp, remote), false);
    }
    MoveStores(con.files, con.files, tmp, remote, data);
    MoveFools(tmp, remote);
    var outcome := SendAndJudge(con, Move(tmp, remote), false, budget);
    match outcome
    case LineStalled => return PushRaised;
    case LineRejected => return PushRaised;
    case NoPrompt => return PushFailed(MoveTimeout);
    case NoSentinel => return PushFailed(MoveFailed);
    case Confirmed => return Pushed(|data|, chunks);
  }

  /** What the target's answer to the checksum line leaves of the possible results. */
  ghost predicate Follows(answer: DigestResult, want: string, r: PushResult) {
    match answer
    case DigestRaised => r.PushRaised?
    case Digest(None) => r in {PushFailed(ChecksumVerifyFailed), PushRaised}
    case Digest(Some(digest)) =>
      if digest != want then r in {PushFailed(ChecksumMismatch), PushRaised}
      else r !in {PushFailed(ChecksumVerifyFailed), PushFailed(ChecksumMismatch)}
  }

  /** How the target answered line `k`, if that asked for the checksum of `tmp`. */
  function Answer(host: Host, oracle: (seq<Line>, Command) -> Reply, log: seq<Line>, k: nat, tmp: string): DigestResult
    requires k <= |log|
  {
    ReadMd5(host, oracle(log[..k], Md5(tmp)), Md5(tmp))
  }

  /**
   The checksum decides: the result follows from the answer to every checksum line sent, a checksum
   error comes only after one, and a push succeeds with a checksum line and a move last.
   */
  ghost predicate ChecksumDecides(host: Host, oracle: (seq<Line>, Command) -> Reply, before: seq<Line>, log: seq<Line>, tmp: string,
      remote: string, want: string, r: PushResult) {
    && (forall k :: |before| <= k < |log| && log[k].cmd.Md5? ==>
          log[k].cmd == Md5(tmp) && Follows(Answer(host, oracle, log, k, tmp), want, r))
    && (r in {PushFailed(ChecksumVerifyFailed), PushFailed(ChecksumMismatch)} ==>
          exists k :: |before| <= k < |log| && log[k].cmd == Md5(tmp))
    && (r.Pushed? ==> EndsPublished(before, log, tmp, remote))
  }

  predicate EndsPublished(before: seq<Line>, log: seq<Line>, tmp: string, remote: string) {
    |log| >= |before| + 2 && log[|log| - 2..] == [Line(Md5(tmp), Accepted), Line(Move(tmp, remote), Accepted)]
  }

  lemma DecidesAtOnce(host: Host, oracle: (seq<Line>, Command) -> Reply, before: seq<Line>, asked: seq<Line>, log: seq<Line>,
      tmp: string, remote: string, want: string, r: PushResult, budget: Option<int>)
    requires |asked| == |before| + 1 && asked[..|before|] == before && asked[|before|].cmd == Md5(tmp)
    requires Grew(asked, log, budget, false)
    requires Follows(ReadMd5(host, oracle(before, Md5(tmp)), Md5(tmp)), want, r)
    requires r.Pushed? ==> log == before + [Line(Md5(tmp), Accepted), Line(Move(tmp, remote), Accepted)]
    ensures ChecksumDecides(host, oracle, before, log, tmp, remote, want, r)
  {
    assert log[|before|] == log[..|asked|][|before|] == asked[|before|];
    assert log[..|before|] == log[..|asked|][..|before|] == before;
  }

  lemma DecidesLater(host: Host, oracle: (seq<Line>, Command) -> Reply, before: seq<Line>, between: seq<Line>, log: seq<Line>,
      tmp: string, remote: string, want: string, r: PushResult, budget: Option<int>)
    requires Grew(before, between, budget, false) && Grew(between, log, budget, true)
    requires ChecksumDecides(host, oracle, between, log, tmp, remote, want, r)
    ensures ChecksumDecides(host, oracle, before, log, tmp, remote, want, r)
  {
    forall k | |before| <= k < |between|
      ensures log[k] == between[k]
    {
      assert log[k] == log[..|between|][k];
    }
  }

  /** Without a checksum line there is nothing to follow. */
  lemma NothingAsked(host: Host, oracle: (seq<Line>, Command) -> Reply, before: seq<Line>, log: seq<Line>,
      tmp: string, remote: string, want: string, r: PushResult, budget: Option<int>)
    requires Grew(before, log, budget, false)
    requires r.PushRaised? || (r.PushFailed? && r.error !in {ChecksumVerifyFailed, ChecksumMismatch})
    ensures ChecksumDecides(host, oracle, before, log, tmp, remote, want, r)
  {
  }

  /** Clears up after a checksum that is missing or differs. */
  method AfterBadChecksum(con: Console, digest: Option<string>, tmp: string, budget: Option<int>) returns (r: PushResult)
    requires !Exceeds(Cleanup(tmp), budget)
    modifies con
    ensures Grew(old(con.log), con.log, budget, false)
    ensures SameBut(old(con.files), con.files, {tmp})
    ensures r in {PushRaised, PushFailed(if digest.None? then ChecksumVerifyFailed else ChecksumMismatch)}
  {
    var raised := CleanUp(con, tmp, budget);
    return if raised then PushRaised else PushFailed(if digest.None? then ChecksumVerifyFailed else ChecksumMismatch);
  }

  /** What follows the answer to the checksum line. */
  method AfterChecksum(con: Console, host: Host, digest: DigestResult, remote: string, data: bytes, tmp: string, chunks: nat, budget: Option<int>)
    returns (r: PushResult)
    requires !Exceeds(Move(tmp, remote), budget) && !Exceeds(Cleanup(tmp), budget)
    requires tmp in con.files && con.files[tmp] == data && '\n' !in tmp
    modifies con
    ensures Grew(old(con.log), con.log, budget, false)
    ensures r != PushFailed(LineLimitTooSmall) && Follows(digest, host.md5(data), r)
    ensures r.Pushed? ==> con.log == old(con.log) + [Line(Move(tmp, remote), Accepted)]
    ensures SameBut(old(con.files), con.files, {tmp, remote})
    ensures tmp != remote ==> AllOrNothing(old(con.files), con.files, remote, data)
    ensures r.Pushed? ==> con.log != [] && r == Pushed(|data|, chunks)
    ensures r.Pushed? ==> Landed(old(con.files), con.files, MoveRan(con.oracle, con.log, tmp, remote), tmp, remote, data)
    ensures AllConfirmed(con.oracle) && digest == Digest(Some(host.md5(data))) ==> r.Pushed?
  {
    if digest.DigestRaised? {
      GrewNone(con.log, budget, false);
      return PushRaised;
    }
    if digest.value != Some(host.md5(data)) {
      r := AfterBadChecksum(con, digest.value, tmp, budget);
      TmpOnly(old(con.files), con.files, tmp, remote, data);
      return;
    }
    if Exceeds(Move(tmp, remote), budget) {
      assert false;  // checked before the first line was sent
    }
    r := MoveIn(con, remote, data, tmp, chunks, budget);
  }

  /** Checksum and move, once every chunk is confirmed. */
  method Publish(con: Console, host: Host, remote: string, data: bytes, tmp: string, chunks: nat, budget: Option<int>)
    returns (r: PushResult)
    requires !Exceeds(Md5(tmp), budget) && !Exceeds(Move(tmp, remote), budget) && !Exceeds(Cleanup(tmp), budget)
    requires tmp in con.files && con.files[tmp] == data && '\n' !in tmp
    modifies con
    ensures Grew(old(con.log), con.log, budget, true)
    ensures r != PushFailed(LineLimitTooSmall)
    ensures Follows(ReadMd5(host, con.oracle(old(con.log), Md5(tmp)), Md5(tmp)), host.md5(data), r)
    ensures ChecksumDecides(host, con.oracle, old(con.log), con.log, tmp, remote, host.md5(data), r)
    ensures SameBut(old(con.files), con.files, {tmp, remote})
    ensures tmp != remote ==> AllOrNothing(old(con.files), con.files, remote, data)
    ensures r.Pushed? ==> con.log != [] && r == Pushed(|data|, chunks)
    ensures r.Pushed? ==> Landed(old(con.files), con.files, MoveRan(con.oracle, con.log, tmp, remote), tmp, remote, data)
    ensures Cooperative(con.oracle, host, data, tmp) ==> r.Pushed?
  {
    var digest := RemoteMd5(con, host, tmp, budget);
    ghost var asked := con.log;
    r := AfterChecksum(con, host, digest, remote, data, tmp, chunks, budget);
    GrewTrans(old(con.log), asked, con.log, budget, true, false);
    DecidesAtOnce(host, con.oracle, old(con.log), asked, con.log, tmp, remote, host.md5(data), r, budget);
  }

  /** The push once the tool is known. */
  method PushChunks(con: Console, host: Host, remote: string, data: bytes, tmp: string, size: nat, tool: Tool, paced: bool, budget: Option<int>)
    returns (r: PushResult)
    requires FixedFit(tmp, remote, budget) && EmptyChunksFit(tmp, budget) && '\n' !in tmp
    requires data != [] ==> size > 0
    requires budget.Some? ==> size <= RawCapacity(budget.value, MaxOverhead(tmp))
    modifies con
    ensures Grew(old(con.log), con.log, budget, true)
    ensures r != PushFailed(LineLimitTooSmall)
    ensures ChecksumDecides(host, con.oracle, old(con.log), con.log, tmp, remote, host.md5(data), r)
    ensures SameBut(old(con.files), con.files, {tmp, remote})
    ensures tmp != remote ==> AllOrNothing(old(con.files), con.files, remote, data)
    ensures r.Pushed? ==> con.log != [] && r == Pushed(|data|, |ChunksOf(data, size)|)
    ensures r.Pushed? ==> Landed(old(con.files), con.files, MoveRan(con.oracle, con.log, tmp, remote), tmp, remote, data)
    ensures Cooperative(con.oracle, host, data, tmp) ==> r.Pushed?
  {
    var chunks := ChunksOf(data, size);
    ChunksOfJoin(data, size);
    var sent := SendChunks(con, chunks, tool, tmp, paced, budget);
    if !sent.ChunkDone? {
      r := if sent.ChunkRaised? then PushRaised else PushFailed(sent.error);
      TmpOnly(old(con.files), con.files, tmp, remote, data);
      NothingAsked(host, con.oracle, old(con.log), con.log, tmp, remote, host.md5(data), r, budget);
      return;
    }
    ghost var between, stored := con.log, con.files;
    r := Publish(con, host, remote, data, tmp, |chunks|, budget);
    TmpFirst(old(con.files), stored, con.files, con.log != [] && MoveRan(con.oracle, con.log, tmp, remote), tmp, remote, data);
    GrewTrans(old(con.log), between, con.log, budget, false, true);
    DecidesLater(host, con.oracle, old(con.log), between, con.log, tmp, remote, host.md5(data), r, budget);
  }

  /** The checks that `push_file` repeats once the tool is known cannot fail. */
  method SecondCheck(data: bytes, size: nat, tool: Tool, tmp: string, budget: Option<int>) returns (ok: bool)
    requires EmptyChunksFit(tmp, budget) && (data != [] ==> size > 0)
    requires budget.Some? ==> size <= RawCapacity(budget.value, MaxOverhead(tmp))
    ensures ok
  {
    if data != [] && size < 1 {
      assert false;
    }
    if budget.Some? {
      var zeros := seq(Min(size, |data|), _ => 0 as byte);
      ChunkFits(zeros, tool, Overwrite, tmp, budget);
      ChunkFits(zeros, tool, Append, tmp, budget);
      if Exceeds(Chunk(Base64.Encode(zeros), tool, Overwrite, tmp), budget) {
        return false;
      }
      if Exceeds(Chunk(Base64.Encode(zeros), tool, Append, tmp), budget) {
        return false;
      }
    }
    return true;
  }

  /** The checks before the first line is sent; `None` is `CONSOLE_LINE_LIMIT_TOO_SMALL`. */
  method Preflight(remote: string, data: bytes, tmp: string, chunkSize: nat, budget: Option<int>) returns (capacity: Option<nat>)
    requires chunkSize > 0
    ensures capacity.None? <==> PushTooSmall(tmp, remote, data, chunkSize, budget)
    ensures capacity.Some? ==> capacity.value == Capacity(tmp, chunkSize, budget)
    ensures capacity.Some? ==> FixedFit(tmp, remote, budget) && EmptyChunksFit(tmp, budget) && (data != [] ==> capacity.value > 0)
  {
    if !FixedFit(tmp, remote, budget) || !EmptyChunksFit(tmp, budget) {
      return None;
    }
    if budget.None? {
      return Some(chunkSize);
    }
    var raw := RawCapacity(budget.value, MaxOverhead(tmp));
    return if data != [] && raw < 1 then None else Some(raw);
  }

  /** The push after the preflight. */
  method PushProbed(con: Console, host: Host, remote: string, data: bytes, tmp: string, size: nat, paced: bool, budget: Option<int>)
    returns (r: PushResult)
    requires FixedFit(tmp, remote, budget) && EmptyChunksFit(tmp, budget) && '\n' !in tmp
    requires data != [] ==> size > 0
    requires budget.Some? ==> size <= RawCapacity(budget.value, MaxOverhead(tmp))
    modifies con
    ensures Grew(old(con.log), con.log, budget, true) && con.log != old(con.log)
    ensures r != PushFailed(LineLimitTooSmall)
    ensures ChecksumDecides(host, con.oracle, old(con.log), con.log, tmp, remote, host.md5(data), r)
    ensures SameBut(old(con.files), con.files, {tmp, remote})
    ensures tmp != remote ==> AllOrNothing(old(con.files), con.files, remote, data)
    ensures r.Pushed? ==> con.log != [] && r == Pushed(|data|, |ChunksOf(data, size)|)
    ensures r.Pushed? ==> Landed(old(con.files), con.files, MoveRan(con.oracle, con.log, tmp, remote), tmp, remote, data)
    ensures Cooperative(con.oracle, host, data, tmp) ==> r.Pushed?
  {
    if AllConfirmed(con.oracle) {
      ConfirmedProbe(con.oracle, con.log, host);
    }
    var probe := ProbeTool(con, host, ProbeDecoder, budget);
    if !probe.Found? {
      r := if probe.ProbeRaised? then PushRaised else PushFailed(probe.error);
      NothingAsked(host, con.oracle, old(con.log), con.log, tmp, remote, host.md5(data), r, budget);
      return;
    }
    var ok := SecondCheck(data, size, probe.tool, tmp, budget);
    if !ok {
      assert false;
    }
    ghost var between := con.log;
    r := PushChunks(con, host, remote, data, tmp, size, probe.tool, paced, budget);
    GrewTrans(old(con.log), between, con.log, budget, false, true);
    DecidesLater(host, con.oracle, old(con.log), between, con.log, tmp, remote, host.md5(data), r, budget);
  }

  /** `_push_file_tx`, after the arguments have been checked; the name of the temporary file is generated. */
  method PushFileTx(con: Console, host: Host, remote: string, data: bytes, tmp: string, chunkSize: nat, paced: bool, budget: Option<int>)
    returns (r: PushResult)
    requires chunkSize > 0 && '\n' !in tmp
    modifies con
    ensures Grew(old(con.log), con.log, budget, true)
    ensures r == PushFailed(LineLimitTooSmall) <==> PushTooSmall(tmp, remote, data, chunkSize, budget)
    ensures r == PushFailed(LineLimitTooSmall) <==> con.log == old(con.log)
    ensures con.log == old(con.log) ==> con.files == old(con.files)
    ensures ChecksumDecides(host, con.oracle, old(con.log), con.log, tmp, remote, host.md5(data), r)
    ensures SameBut(old(con.files), con.files, {tmp, remote})
    ensures tmp != remote ==> AllOrNothing(old(con.files), con.files, remote, data)
    ensures r.Pushed? ==> con.log != [] && r.size == |data|
    ensures r.Pushed? ==> Landed(old(con.files), con.files, MoveRan(con.oracle, con.log, tmp, remote), tmp, remote, data)
    ensures Cooperative(con.oracle, host, data, tmp) && !PushTooSmall(tmp, remote, data, chunkSize, budget) ==> r.Pushed?
  {
    GrewNone(con.log, budget, true);
    var capacity := Preflight(remote, data, tmp, chunkSize, budget);
    if capacity.None? {
      r := PushFailed(LineLimitTooSmall);
      return;
    }
    r := PushProbed(con, host, remote, data, tmp, Min(chunkSize, capacity.value), paced, budget);
  }

  lemma AnswerDecides(host: Host, oracle: (seq<Line>, Command) -> Reply, before: seq<Line>, log: seq<Line>, k: nat, tmp: string,
      remote: string, want: string, r: PushResult)
    requires ChecksumDecides(host, oracle, before, log, tmp, remote, want, r)
    requires |before| <= k < |log| && log[k].cmd == Md5(tmp)
    ensures Follows(Answer(host, oracle, log, k, tmp), want, r)
  {
  }

  /** After a successful push the target's last checksum was that of the data. */
  lemma PushedIsChecked(host: Host, oracle: (seq<Line>, Command) -> Reply, before: seq<Line>, log: seq<Line>, tmp: string, remote: string,
      want: string, r: PushResult)
    requires ChecksumDecides(host, oracle, before, log, tmp, remote, want, r) && r.Pushed?
    ensures |log| >= 2 && Answer(host, oracle, log, |log| - 2, tmp) == Digest(Some(want))
  {
    var k := |log| - 2;
    assert log[k] == log[k..][0];
    AnswerDecides(host, oracle, before, log, k, tmp, remote, want, r);
    AnswerTells(Answer(host, oracle, log, k, tmp), want, r);
  }

  /** A mismatch is reported only after an answer that differed. */
  lemma MismatchHasCause(host: Host, oracle: (seq<Line>, Command) -> Reply, before: seq<Line>, log: seq<Line>, tmp: string, remote: string,
      want: string, r: PushResult)
    requires ChecksumDecides(host, oracle, before, log, tmp, remote, want, r) && r == PushFailed(ChecksumMismatch)
    ensures exists k :: |before| <= k < |log| && log[k].cmd == Md5(tmp) && Differs(Answer(host, oracle, log, k, tmp), want)
  {
    var k :| |before| <= k < |log| && log[k].cmd == Md5(tmp);
    AnswerDecides(host, oracle, before, log, k, tmp, remote, want, r);
    AnswerTells(Answer(host, oracle, log, k, tmp), want, r);
  }

  predicate Differs(answer: DigestResult, want: string) {
    answer.Digest? && answer.value.Some? && answer.value.value != want
  }

  lemma AnswerTells(answer: DigestResult, want: string, r: PushResult)
    requires Follows(answer, want, r)
    ensures r.Pushed? ==> answer == Digest(Some(want))
    ensures r == PushFailed(ChecksumMismatch) ==> Differs(answer, want)
  {
  }

  // ---- a push that only seems to succeed ----

  /** Every line is run and answered, but of `move` only the echo comes back. */
  function Mimic(move: Command, cmd: Command): Reply {
    if cmd == move then Bare() else Reply(Accepted, true, true, "", false, Sentinel(cmd))
  }

  lemma MimicConfirms(tmp: string, remote: string, cmd: Command)
    requires '\n' !in tmp && HoldsLine(remote, MOVED)
    ensures Judge(Mimic(Move(tmp, remote), cmd), cmd).Confirmed?
  {
    if cmd == Move(tmp, remote) {
      BareMove(tmp, remote);
    } else {
      NoLowerCase(cmd);
      AnswersPlainly(cmd, Sentinel(cmd));
    }
  }

  lemma NoLowerCase(cmd: Command)
    ensures Sentinel(cmd) != "" && !('a' <= Sentinel(cmd)[0] <= 'z')
  {
  }

  lemma BareMove(tmp: string, remote: string)
    requires '\n' !in tmp && HoldsLine(remote, MOVED)
    ensures Judge(Bare(), Move(tmp, remote)).Confirmed? && !Ran(Bare(), Move(tmp, remote))
  {
    var move := Move(tmp, remote);
    SentinelsAre(move);
    MoveFools(tmp, remote);
    LineHoldsLine(move, MOVED);
    BareFools(move, MOVED);
  }

  lemma Unechoed(s: string, cmd: Command)
    ensures TextOf(Reply(Accepted, true, true, "", false, s), cmd) == s
  {
    assert "" + "" + s == s;
  }

  lemma AnswersPlainly(cmd: Command, s: string)
    requires s != "" && !('a' <= s[0] <= 'z')
    ensures SentinelSeen(TextOf(Reply(Accepted, true, true, "", false, s), cmd), s, cmd)
  {
    LineShape(cmd);
    Unechoed(s, cmd);
    NotTheEcho(s, Render(cmd));
    WholeLine(s);
  }

  lemma WholeLine(s: string)
    ensures OnOwnLine(s, s)
  {
    assert OwnLineAt(s, s, 0);
  }

  lemma NotTheEcho(s: string, r: string)
    requires s != "" && r != "" && s[0] != r[0]
    ensures StripEcho(s, r) == s
  {
  }

  /** Whatever is pushed: such a remote path can be reported as written although it is not. */
  method EchoFakesPush(remote: string, data: bytes, tmp: string, chunkSize: nat, paced: bool) returns (con: Console, r: PushResult)
    requires chunkSize > 0 && '\n' !in tmp && tmp != remote && HoldsLine(remote, MOVED)
    ensures r.Pushed? && remote !in con.files
  {
    var move := Move(tmp, remote);
    var host := Host(_ => false, _ => Some("0"), _ => "0", s => s, s => Base64.Decode(s));
    con := new Console((log, cmd) => Mimic(move, cmd), _ => true, map[]);
    forall cmd {
      MimicConfirms(tmp, remote, cmd);
    }
    BareMove(tmp, remote);
    r := PushFileTx(con, host, remote, data, tmp, chunkSize, paced, None);
  }
}
