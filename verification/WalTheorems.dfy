/**
 What a scan of a live, rotated log is worth: it agrees with the one logical log that an honest
 writer wrote, and says so when it cannot.
 */
module WalTheorems {
  import opened Wrappers
  import opened Bytes
  import opened WalFiles
  import opened WalOracle
  import opened WalWriter
  import opened WalListing

  // ---- the cursor ----

  /** A cursor opened on a log. */
  function Opened(codec: Codec, crc: Crc, w: Wal): Cursor
    requires w.current.Some?
  {
    CursorAt(codec, crc, Found(w.current.value))
  }

  /** It stands at the end of the log and knows the number of the last record of the current file. */
  lemma CursorStandsAtEnd(codec: Codec, crc: Crc, base: string, w: Wal)
    requires CodecOk(codec) && WalInv(codec, base, w) && w.current.Some?
    ensures var cur := w.current.value;
      && Opened(codec, crc, w).ino == cur.ino
      && Opened(codec, crc, w).offset == |Written(codec, w.log[cur.from..|w.log|])|
      && Opened(codec, crc, w).lastSeq == if cur.from < |w.log| then Some(w.log[|w.log| - 1].seqNo) else None
  {
    ReadBack(codec, w.log[w.current.value.from..|w.log|]);
  }

  // ---- one file of consecutive records ----

  lemma {:induction false} NoRegressions(log: seq<Rec>, a: nat, b: nat)
    requires Consecutive(log) && a <= b <= |log|
    ensures Regressions(log[a..b]) == 0
    decreases b
  {
    if b - a >= 2 {
      NoRegressions(log, a, b - 1);
      assert log[a..b][..b - a - 1] == log[a..b - 1];
    }
  }

  lemma CleanLines(codec: Codec, acc: Acc, lines: seq<bytes>)
    requires CorruptLines(codec, lines) == 0
    ensures ScanLines(codec, acc, lines) ==
      acc.(records := acc.records + GoodRecs(codec, lines), lines := acc.lines + RawLines(codec, lines))
  {
    assert Times(0, RecordCorrupt) == [];
    assert acc.problems + [] == acc.problems;
  }

  function JunctionWith(acc: Acc, recs: seq<Rec>, atCursor: bool, allowReset: bool): seq<Problem> {
    if recs == [] then [] else Junction(acc.prev, recs[0].seqNo, atCursor, allowReset)
  }

  lemma JoinedStretch(acc: Acc, log: seq<Rec>, a: nat, b: nat, atCursor: bool, allowReset: bool)
    requires Consecutive(log) && a <= b <= |log|
    ensures var r := Joined(acc, log[a..b], atCursor, allowReset);
      && r.records == acc.records
      && r.problems == acc.problems + JunctionWith(acc, log[a..b], atCursor, allowReset)
      && r.prev == if a == b then acc.prev else Some(log[b - 1].seqNo)
  {
    var part := log[a..b];
    NoRegressions(log, a, b);
    assert Times(0, SeqRegressed) == [];
    assert acc.problems + [] == acc.problems;
    if a < b {
      assert part[|part| - 1] == log[b - 1];
      var joined := acc.problems + Junction(acc.prev, part[0].seqNo, atCursor, allowReset);
      assert joined + [] == joined;
    }
  }

  /** What reading `log[a..b]` adds. */
  ghost predicate Adds(acc: Acc, r: Acc, log: seq<Rec>, a: nat, b: nat, atCursor: bool, allowReset: bool)
    requires a <= b <= |log|
  {
    && r.records == acc.records + log[a..b]
    && r.problems == acc.problems + JunctionWith(acc, log[a..b], atCursor, allowReset)
    && r.prev == if a == b then acc.prev else Some(log[b - 1].seqNo)
  }

  /** Reading a file whose tail is a stretch of the log. */
  lemma ScanStretch(codec: Codec, acc: Acc, src: Src, log: seq<Rec>, a: nat, b: nat, atCursor: bool, allowReset: bool)
    requires CodecOk(codec) && Consecutive(log) && a <= b <= |log|
    requires src.file.readable && ReadTail(src.file.content, src.offset) == Written(codec, log[a..b])
    ensures Adds(acc, ScanFile(codec, acc, src, atCursor, allowReset), log, a, b, atCursor, allowReset)
  {
    var lines := Lines(ReadTail(src.file.content, src.offset));
    ReadBack(codec, log[a..b]);
    CleanLines(codec, acc, lines);
    JoinedStretch(ScanLines(codec, acc, lines), log, a, b, atCursor, allowReset);
    assert ScanFile(codec, acc, src, atCursor, allowReset) == Joined(ScanLines(codec, acc, lines), log[a..b], atCursor, allowReset);
  }

  // ---- rotation is invisible ----

  /** The number before position `at`, if the cursor knows it. */
  ghost predicate KnowsAt(log: seq<Rec>, at: nat, lastSeq: Option<int>)
    requires at <= |log|
  {
    lastSeq.None? || (at > 0 && lastSeq == Some(log[at - 1].seqNo))
  }

  /** What has been read when the log has been followed from `at` to `to`. */
  ghost predicate Followed(log: seq<Rec>, at: nat, to: nat, lastSeq: Option<int>, acc: Acc)
    requires at <= to <= |log|
  {
    acc.records == log[at..to] && acc.problems == [] && acc.prev == if at == to then lastSeq else Some(log[to - 1].seqNo)
  }

  lemma FollowOn(acc: Acc, r: Acc, log: seq<Rec>, at: nat, a: nat, b: nat, lastSeq: Option<int>, atCursor: bool, allowReset: bool)
    requires Consecutive(log) && at <= a <= b <= |log| && KnowsAt(log, at, lastSeq)
    requires Followed(log, at, a, lastSeq, acc) && Adds(acc, r, log, a, b, atCursor, allowReset)
    ensures Followed(log, at, b, lastSeq, r)
  {
    assert log[at..a] + log[a..b] == log[at..b];
    if a < b {
      assert log[a..b][0] == log[a];
      assert acc.prev.Some? ==> log[a].seqNo == acc.prev.value + 1;
    }
  }

  lemma HeadOfChain(codec: Codec, log: seq<Rec>, h: Held, at: nat)
    requires HeldOk(codec, log, h) && h.from <= at <= h.to
    ensures ReadTail(h.content, |Written(codec, log[h.from..at])|) == Written(codec, log[at..h.to])
  {
    TailAtBoundary(codec, log[h.from..at], log[at..h.to]);
    assert log[h.from..at] + log[at..h.to] == log[h.from..h.to];
  }

  lemma WholeTail(codec: Codec, log: seq<Rec>, h: Held)
    requires HeldOk(codec, log, h)
    ensures ReadTail(h.content, 0) == Written(codec, log[h.from..h.to])
  {
  }

  lemma ChainHeldOk(codec: Codec, base: string, w: Wal, k: nat, i: nat)
    requires WalInv(codec, base, w) && k <= |w.archives| && i < |Chain(w, k)|
    ensures HeldOk(codec, w.log, Chain(w, k)[i])
  {
    if i < |w.archives| - k {
      assert Chain(w, k)[i] == w.archives[k + i];
    }
  }

  /** Reading the first `n` files of the chain follows the log to the end of the `n`th. */
  lemma {:induction false} ScansChain(codec: Codec, base: string, w: Wal, m: Mark, k: nat, n: nat, files: seq<Src>, lastSeq: Option<int>, allowReset: bool)
    requires CodecOk(codec) && WalInv(codec, base, w) && Tracks(w, m, k) && m.at <= |w.log|
    requires KnowsAt(w.log, m.at, lastSeq)
    requires 0 < n <= |Chain(w, k)| && |files| == n
    requires forall i :: 0 <= i < n ==> files[i].file == Found(Chain(w, k)[i])
    requires forall i :: 0 <= i < n ==> files[i].offset == if i == 0 then |Written(codec, w.log[m.from..m.at])| else 0
    ensures m.at <= Chain(w, k)[n - 1].to <= |w.log|
    ensures Followed(w.log, m.at, Chain(w, k)[n - 1].to, lastSeq, ScanFiles(codec, Acc([], [], [], lastSeq), files, true, allowReset))
    decreases n
  {
    var chain := Chain(w, k);
    var start := Acc([], [], [], lastSeq);
    var h := chain[n - 1];
    ChainHeldOk(codec, base, w, k, n - 1);
    if n == 1 {
      HeadOfChain(codec, w.log, h, m.at);
      assert files[..0] == [];
      assert ScanFiles(codec, start, files, true, allowReset) == ScanFile(codec, start, files[0], true, allowReset);
      var r := ScanFile(codec, start, files[0], true, allowReset);
      ScanStretch(codec, start, files[0], w.log, m.at, h.to, true, allowReset);
      FollowOn(start, r, w.log, m.at, m.at, h.to, lastSeq, true, allowReset);
    } else {
      ScansChain(codec, base, w, m, k, n - 1, files[..n - 1], lastSeq, allowReset);
      assert chain[n - 2].to == chain[n - 1].from;
      var acc := ScanFiles(codec, start, files[..n - 1], true, allowReset);
      var r := ScanFile(codec, acc, files[n - 1], false, allowReset);
      WholeTail(codec, w.log, h);
      ScanStretch(codec, acc, files[n - 1], w.log, h.from, h.to, false, allowReset);
      FollowOn(acc, r, w.log, m.at, h.from, h.to, lastSeq, false, allowReset);
    }
  }

  /** A snapshot of the log in which every file can be read, listed in any order. */
  ghost predicate Readable(snap: Snapshot, base: string, w: Wal) {
    && snap.current == (if w.current.Some? then Some(Found(w.current.value)) else None)
    && Lists(snap.dir, base, w.archives)
  }

  /** What a scan of a log that has kept everything since the mark finds. */
  lemma ScanFollows(codec: Codec, crc: Crc, base: string, w: Wal, m: Mark, k: nat, cursor: Cursor, snap: Snapshot, allowReset: bool)
    requires CodecOk(codec) && WalInv(codec, base, w) && Tracks(w, m, k) && m.at <= |w.log|
    requires Readable(snap, base, w)
    requires m.from <= m.at && Fits(codec, crc, w.log, m, cursor)
    ensures Followed(w.log, m.at, |w.log|, cursor.lastSeq, Scanned(codec, crc, cursor, base, snap, allowReset))
  {
    if k == |w.archives| {
      CurrentFollows(codec, crc, base, w, m, cursor, snap, allowReset);
    } else {
      RotatedFollows(codec, crc, base, w, m, k, cursor, snap, allowReset);
    }
  }

  lemma CurrentFollows(codec: Codec, crc: Crc, base: string, w: Wal, m: Mark, cursor: Cursor, snap: Snapshot, allowReset: bool)
    requires CodecOk(codec) && WalInv(codec, base, w) && Tracks(w, m, |w.archives|) && m.at <= |w.log|
    requires Readable(snap, base, w)
    requires m.from <= m.at && Fits(codec, crc, w.log, m, cursor)
    ensures Followed(w.log, m.at, |w.log|, cursor.lastSeq, Scanned(codec, crc, cursor, base, snap, allowReset))
  {
    var k := |w.archives|;
    ChainHeldOk(codec, base, w, k, 0);
    assert Chain(w, k) == [w.current.value];
    NotReplaced(codec, crc, w.log, w.current.value, m.at);
    var files := CurrentSource(snap.current, cursor.offset);
    assert MakePlan(crc, cursor, base, snap) == Plan(files, [], true, []);
    ScansChain(codec, base, w, m, k, 1, files, cursor.lastSeq, allowReset);
  }

  lemma RotatedFollows(codec: Codec, crc: Crc, base: string, w: Wal, m: Mark, k: nat, cursor: Cursor, snap: Snapshot, allowReset: bool)
    requires CodecOk(codec) && WalInv(codec, base, w) && Tracks(w, m, k) && m.at <= |w.log| && k < |w.archives|
    requires Readable(snap, base, w)
    requires m.from <= m.at && Fits(codec, crc, w.log, m, cursor)
    ensures Followed(w.log, m.at, |w.log|, cursor.lastSeq, Scanned(codec, crc, cursor, base, snap, allowReset))
  {
    var chain := Chain(w, k);
    ChainHeldOk(codec, base, w, k, 0);
    assert chain[0] == w.archives[k] && w.archives[k] in w.archives;
    RotatedPlan(codec, base, w, cursor, snap.dir, snap.current, k);
    assert Moved(cursor, snap.current);
    var plan := MakePlan(crc, cursor, base, snap);
    assert plan == PlanRotated(cursor, Sort(Candidates(snap.dir, base)), snap.current, []);
    ScansChain(codec, base, w, m, k, |chain|, plan.files, cursor.lastSeq, allowReset);
  }

  /** A file that has only grown still has the bytes the cursor saw. */
  lemma NotReplaced(codec: Codec, crc: Crc, log: seq<Rec>, h: Held, at: nat)
    requires HeldOk(codec, log, h) && h.from <= at <= h.to
    ensures var seen := Written(codec, log[h.from..at]);
      |seen| <= |h.content| && TailCrc(crc, h.content, |seen|) == TailCrc(crc, seen, |seen|)
  {
    var seen := Written(codec, log[h.from..at]);
    WrittenAppend(codec, log[h.from..at], log[at..h.to]);
    assert log[h.from..at] + log[at..h.to] == log[h.from..h.to];
    var n := |seen|;
    assert h.content[n - Min(n, TAIL_BYTES)..n] == seen[n - Min(n, TAIL_BYTES)..n];
  }

  /** What a scan may rely on of a cursor, told in terms of the longer log. */
  ghost predicate Fits(codec: Codec, crc: Crc, log: seq<Rec>, m: Mark, cursor: Cursor)
    requires m.from <= m.at <= |log|
  {
    && cursor.ino == m.ino && cursor.offset == |Written(codec, log[m.from..m.at])| && KnowsAt(log, m.at, cursor.lastSeq)
    && cursor.tailCrc == TailCrc(crc, Written(codec, log[m.from..m.at]), cursor.offset)
  }

  lemma OpenedFits(codec: Codec, crc: Crc, base: string, w: Wal, log: seq<Rec>)
    requires CodecOk(codec) && WalInv(codec, base, w) && w.current.Some? && w.log <= log
    ensures Fits(codec, crc, log, MarkOf(w), Opened(codec, crc, w))
  {
    CursorStandsAtEnd(codec, crc, base, w);
    var m := MarkOf(w);
    assert log[m.from..m.at] == w.log[m.from..m.at];
  }

  lemma TrackedScan(codec: Codec, crc: Crc, base: string, w: Wal, v: Wal, k: nat, snap: Snapshot, allowReset: bool)
    requires CodecOk(codec) && WalInv(codec, base, w) && w.current.Some?
    requires WalInv(codec, base, v) && w.log <= v.log && Tracks(v, MarkOf(w), k) && Readable(snap, base, v)
    ensures var r := Scanned(codec, crc, Opened(codec, crc, w), base, snap, allowReset);
      r.records == v.log[|w.log|..] && r.problems == []
  {
    OpenedFits(codec, crc, base, w, v.log);
    ScanFollows(codec, crc, base, v, MarkOf(w), k, Opened(codec, crc, w), snap, allowReset);
    assert v.log[|w.log|..|v.log|] == v.log[|w.log|..];
  }

  /**
   Rotation refinement. A cursor is opened; the writer appends, rotates any number of times and
   deletes nothing newer than files older than the cursor's. Then a scan returns exactly the
   records appended since, in order, and no problem.
   */
  lemma RotationRefinement(codec: Codec, crc: Crc, base: string, w: Wal, steps: seq<WriterStep>, snap: Snapshot, allowReset: bool)
    requires CodecOk(codec) && WalInv(codec, base, w) && w.current.Some?
    requires IsWriterRun(codec, base, w, steps) && SparingRun(codec, base, w, MarkOf(w), steps)
    requires Readable(snap, base, After(codec, base, w, steps))
    ensures var r := Scanned(codec, crc, Opened(codec, crc, w), base, snap, allowReset);
      |w.log| <= |After(codec, base, w, steps).log| && r.records == After(codec, base, w, steps).log[|w.log|..] && r.problems == []
  {
    var v, m := After(codec, base, w, steps), MarkOf(w);
    TracksFromStart(codec, base, w);
    var k := RunTracks(codec, base, w, m, |w.archives|, steps);
    RunKeepsInv(codec, base, w, steps);
    TrackedScan(codec, crc, base, w, v, k, snap, allowReset);
  }
}
