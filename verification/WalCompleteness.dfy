/**
 No false completeness: archives may be deleted and inode numbers used again, and a scan that
 reports no problem still has no hole, exactly under the conditions stated here.
 */
module WalCompleteness {
  import opened Wrappers
  import opened Bytes
  import opened WalFiles
  import opened WalOracle
  import opened WalWriter
  import opened WalListing
  import opened WalTheorems
  import opened WalMarker

  // ---- what a snapshot of an honest log may show ----

  predicate SameBytes(file: File, h: Held) {
    file.ino == h.ino && file.content == h.content
  }

  /** Any part of the log's files may be listed, and any of them may be unreadable. */
  ghost predicate Shows(snap: Snapshot, base: string, w: Wal) {
    && (snap.current.Some? ==> w.current.Some? && SameBytes(snap.current.value, w.current.value))
    && (forall d :: d in Candidates(snap.dir, base) ==> exists a :: a in w.archives && SameBytes(d.file, a))
  }

  ghost predicate IsStretch(codec: Codec, log: seq<Rec>, content: bytes) {
    exists a, b :: 0 <= a <= b <= |log| && content == Written(codec, log[a..b])
  }

  lemma {:induction false} InsertMembers(c: Candidate, s: seq<Candidate>)
    ensures forall d :: d in Insert(c, s) ==> d == c || d in s
  {
    if s != [] && !CandidateLess(c, s[0]) {
      InsertMembers(c, s[1..]);
    }
  }

  lemma {:induction false} SortMembers(cs: seq<Candidate>)
    ensures forall d :: d in Sort(cs) ==> d in cs
  {
    if cs != [] {
      SortMembers(cs[1..]);
      InsertMembers(cs[0], Sort(cs[1..]));
    }
  }

  lemma {:induction false} MatchingMembers(cs: seq<Candidate>, ino: nat)
    ensures forall d :: d in Matching(cs, ino) ==> d in cs && d.file.ino == ino
  {
    if cs != [] {
      MatchingMembers(cs[..|cs| - 1], ino);
    }
  }

  lemma {:induction false} LaterMembers(cs: seq<Candidate>, key: Key)
    ensures forall d :: d in Later(cs, key) ==> d in cs
  {
    if cs != [] {
      LaterMembers(cs[..|cs| - 1], key);
    }
  }

  /** A file that the scan may read. */
  ghost predicate IsShown(snap: Snapshot, base: string, file: File) {
    snap.current == Some(file) || exists d :: d in Candidates(snap.dir, base) && d.file == file
  }

  /** Only files of the snapshot are read, and the first, in a continuation, carries the cursor's inode. */
  lemma PlanReadsShown(crc: Crc, cursor: Cursor, base: string, snap: Snapshot)
    ensures var plan := MakePlan(crc, cursor, base, snap);
      && (forall src :: src in plan.files ==> IsShown(snap, base, src.file))
      && (!plan.continuation ==> plan.problems != [])
      && (plan.continuation ==> plan.files != [] && plan.files[0].file.ino == cursor.ino && plan.files[0].offset == cursor.offset)
      && (forall i :: 0 < i < |plan.files| ==> plan.files[i].offset == 0)
  {
    if Rotated(crc, cursor, snap.current) {
      var cs := Sort(Candidates(snap.dir, base));
      SortMembers(Candidates(snap.dir, base));
      RotatedReadsShown(cursor, cs, base, snap, TailProblems(cursor, snap.current));
    }
  }

  lemma RotatedReadsShown(cursor: Cursor, cs: seq<Candidate>, base: string, snap: Snapshot, early: seq<Problem>)
    requires forall d :: d in cs ==> d in Candidates(snap.dir, base)
    ensures var plan := PlanRotated(cursor, cs, snap.current, early);
      && (forall src :: src in plan.files ==> IsShown(snap, base, src.file))
      && (!plan.continuation ==> plan.problems != [])
      && (plan.continuation ==> plan.files != [] && plan.files[0].file.ino == cursor.ino && plan.files[0].offset == cursor.offset)
      && (forall i :: 0 < i < |plan.files| ==> plan.files[i].offset == 0)
  {
    var plan := PlanRotated(cursor, cs, snap.current, early);
    var matching := Matching(cs, cursor.ino);
    MatchingMembers(cs, cursor.ino);
    if |matching| == 1 {
      assert matching[0] in matching;
      var later := Later(cs, matching[0].key);
      LaterMembers(cs, matching[0].key);
      forall src | src in Sources(later)
        ensures IsShown(snap, base, src.file)
      {
        var i :| 0 <= i < |later| && Sources(later)[i] == src;
        assert later[i] in later;
      }
    }
  }

  lemma ShownIsStretch(codec: Codec, base: string, w: Wal, snap: Snapshot, file: File)
    requires WalInv(codec, base, w) && Shows(snap, base, w) && IsShown(snap, base, file)
    ensures IsStretch(codec, w.log, file.content)
  {
    if snap.current == Some(file) {
      assert HeldOk(codec, w.log, w.current.value);
    } else {
      var d :| d in Candidates(snap.dir, base) && d.file == file;
      var a :| a in w.archives && SameBytes(d.file, a);
      assert HeldOk(codec, w.log, a);
    }
  }

  // ---- a scan without problems returns a stretch of the log ----

  /** The records are `log[a..b]`. */
  ghost predicate IsBlock(log: seq<Rec>, acc: Acc, prev: Option<int>, a: nat, b: nat) {
    a <= b <= |log| && acc.records == log[a..b] && acc.prev == if a == b then prev else Some(log[b - 1].seqNo)
  }

  lemma TailOfStretch(codec: Codec, log: seq<Rec>, content: bytes, offset: nat) returns (c: nat, y: nat)
    requires CodecOk(codec) && IsStretch(codec, log, content)
    ensures c <= y <= |log| && ReadTail(content, offset) == Written(codec, log[c..y])
  {
    var x, z :| 0 <= x <= z <= |log| && content == Written(codec, log[x..z]);
    var k := TailAligns(codec, log[x..z], offset);
    assert log[x..z][k..] == log[x + k..z];
    return x + k, z;
  }

  /** One more file, read from `c` to `y`, when its junction raises no problem. */
  lemma NextFile(acc: Acc, r: Acc, log: seq<Rec>, prev: Option<int>, a: nat, b: nat, c: nat, y: nat, atCursor: bool) returns (a': nat, b': nat)
    requires Consecutive(log) && c <= y <= |log|
    requires IsBlock(log, acc, prev, a, b) && (atCursor ==> a == b)
    requires Adds(acc, r, log, c, y, atCursor, false) && r.problems == []
    ensures IsBlock(log, r, prev, a', b')
    ensures a < b ==> a' == a && a' < b'
    ensures a == b && a' < b' ==> a' == c < y && (!atCursor && prev.Some? ==> log[c].seqNo == prev.value + 1)
  {
    if c == y {
      a', b' := a, b;
      assert acc.records + log[c..y] == acc.records;
    } else {
      assert log[c..y][0] == log[c];
      if a == b {
        a', b' := c, y;
        assert acc.records + log[c..y] == log[c..y];
      } else {
        a', b' := a, y;
        assert log[c].seqNo == log[b - 1].seqNo + 1;
        assert log[a..b] + log[b..y] == log[a..y];
      }
    }
  }

  lemma ProblemsGrow(codec: Codec, acc: Acc, src: Src, atCursor: bool, allowReset: bool)
    requires ScanFile(codec, acc, src, atCursor, allowReset).problems == []
    ensures acc.problems == [] && src.file.readable
  {
  }

  /** What the first file holds after the offset, if anything, is what follows the number the cursor knows. */
  ghost predicate HeadContinues(codec: Codec, log: seq<Rec>, src: Src, prev: Option<int>) {
    exists c, y :: IsHead(codec, log, src, prev, c, y)
  }

  ghost predicate IsHead(codec: Codec, log: seq<Rec>, src: Src, prev: Option<int>, c: nat, y: nat) {
    && c <= y <= |log| && ReadTail(src.file.content, src.offset) == Written(codec, log[c..y])
    && (c < y ==> prev.Some? && log[c].seqNo == prev.value + 1)
  }

  /** Whatever files are missing, a scan without problems returns records without a hole between them. */
  lemma {:induction false} ScanIsBlock(codec: Codec, log: seq<Rec>, prev: Option<int>, files: seq<Src>) returns (a: nat, b: nat)
    requires CodecOk(codec) && Consecutive(log)
    requires forall src :: src in files ==> IsStretch(codec, log, src.file.content)
    requires ScanFiles(codec, Acc([], [], [], prev), files, true, false).problems == []
    ensures IsBlock(log, ScanFiles(codec, Acc([], [], [], prev), files, true, false), prev, a, b)
    ensures a < b && prev.Some? && files != [] && HeadContinues(codec, log, files[0], prev) ==> log[a].seqNo == prev.value + 1
  {
    var start := Acc([], [], [], prev);
    if files == [] {
      a, b := 0, 0;
    } else {
      var n := |files| - 1;
      var acc, src := ScanFiles(codec, start, files[..n], true, false), files[n];
      assert src in files;
      ProblemsGrow(codec, acc, src, n == 0, false);
      var a0, b0 := ScanIsBlock(codec, log, prev, files[..n]);
      var c, y := TailOfStretch(codec, log, src.file.content, src.offset);
      if n == 0 {
        a0, b0 := 0, 0;
        if HeadContinues(codec, log, src, prev) {
          c, y :| IsHead(codec, log, src, prev, c, y);
        }
      }
      ScanStretch(codec, acc, src, log, c, y, n == 0, false);
      a, b := NextFile(acc, ScanFile(codec, acc, src, n == 0, false), log, prev, a0, b0, c, y, n == 0);
    }
  }

  lemma {:induction false} NoProblemsFromStart(codec: Codec, start: Acc, files: seq<Src>, continuation: bool, allowReset: bool)
    requires ScanFiles(codec, start, files, continuation, allowReset).problems == []
    ensures start.problems == []
  {
    if files != [] {
      var n := |files| - 1;
      ProblemsGrow(codec, ScanFiles(codec, start, files[..n], continuation, allowReset), files[n], n == 0 && continuation, allowReset);
      NoProblemsFromStart(codec, start, files[..n], continuation, allowReset);
    }
  }

  // ---- the theorems ----

  /** Every file that carries the cursor's inode number still begins with what the cursor saw. */
  ghost predicate CarriesOn(snap: Snapshot, base: string, ino: nat, seen: bytes) {
    forall file :: IsShown(snap, base, file) && file.ino == ino ==> seen <= file.content
  }

  /** The plan of a clean scan: the file with the cursor's inode comes first, and all are stretches of the log. */
  ghost predicate CleanPlan(codec: Codec, log: seq<Rec>, crc: Crc, cursor: Cursor, base: string, snap: Snapshot) {
    var plan := MakePlan(crc, cursor, base, snap);
    && plan.continuation && plan.problems == [] && plan.files != []
    && plan.files[0].file.ino == cursor.ino && plan.files[0].offset == cursor.offset
    && IsShown(snap, base, plan.files[0].file)
    && forall src :: src in plan.files ==> IsStretch(codec, log, src.file.content)
  }

  /** A scan without problems returns a stretch of the log. */
  lemma ScanReturnsStretch(codec: Codec, crc: Crc, base: string, v: Wal, cursor: Cursor, snap: Snapshot) returns (a: nat, b: nat)
    requires CodecOk(codec) && WalInv(codec, base, v) && Shows(snap, base, v)
    requires Scanned(codec, crc, cursor, base, snap, false).problems == []
    ensures a <= b <= |v.log| && Scanned(codec, crc, cursor, base, snap, false).records == v.log[a..b]
    ensures CleanPlan(codec, v.log, crc, cursor, base, snap)
    ensures a < b && cursor.lastSeq.Some? && HeadContinues(codec, v.log, MakePlan(crc, cursor, base, snap).files[0], cursor.lastSeq) ==>
      v.log[a].seqNo == cursor.lastSeq.value + 1
  {
    var plan := MakePlan(crc, cursor, base, snap);
    NoProblemsFromStart(codec, StartOf(cursor, plan), plan.files, plan.continuation, false);
    PlanReadsShown(crc, cursor, base, snap);
    forall src | src in plan.files
      ensures IsStretch(codec, v.log, src.file.content)
    {
      ShownIsStretch(codec, base, v, snap, src.file);
    }
    a, b := ScanIsBlock(codec, v.log, cursor.lastSeq, plan.files);
    assert plan.files[0] in plan.files;
  }

  ghost predicate HeadsContinue(codec: Codec, log: seq<Rec>, snap: Snapshot, base: string, cursor: Cursor) {
    forall src: Src :: IsShown(snap, base, src.file) && src.file.ino == cursor.ino && src.offset == cursor.offset ==>
      HeadContinues(codec, log, src, cursor.lastSeq)
  }

  /** Bytes that begin with records of the log are that stretch of the log, continued. */
  lemma SamePrefix(codec: Codec, log: seq<Rec>, f: nat, n: nat, x: nat, y: nat)
    requires CodecOk(codec) && Consecutive(log) && f < n <= |log| && x <= y <= |log|
    requires Written(codec, log[f..n]) <= Written(codec, log[x..y])
    ensures x == f && n <= y
  {
    var seen, content := Written(codec, log[f..n]), Written(codec, log[x..y]);
    var rest := Written(codec, log[f..n][1..]);
    var more := content[|seen|..];
    assert log[f..n][0] == log[f];
    assert content == codec.format(log[f]) + [NEWLINE] + (rest + more);
    assert codec.classify(codec.format(log[f])) == Good(log[f]);
    NewlineAt(codec.format(log[f]), rest + more);
    assert x < y;
    assert log[x..y][0] == log[x];
    assert codec.classify(codec.format(log[x])) == Good(log[x]);
    NewlineAt(codec.format(log[x]), Written(codec, log[x..y][1..]));
    assert content[..|codec.format(log[f])|] == codec.format(log[f]);
    assert content[..|codec.format(log[x])|] == codec.format(log[x]);
    assert log[f] == log[x];
    if y < n {
      LongerIsLonger(codec, log, f, y, n);
    }
  }

  lemma LongerIsLonger(codec: Codec, log: seq<Rec>, f: nat, y: nat, n: nat)
    requires f <= y < n <= |log|
    ensures |Written(codec, log[f..y])| < |Written(codec, log[f..n])|
  {
    WrittenAppend(codec, log[f..y], log[y..n]);
    assert log[f..y] + log[y..n] == log[f..n];
    EndsInNewline(codec, log[y..n]);
  }

  lemma HeadDoesContinue(codec: Codec, log: seq<Rec>, from: nat, at: nat, src: Src)
    requires CodecOk(codec) && Consecutive(log) && from < at <= |log|
    requires IsStretch(codec, log, src.file.content)
    requires Written(codec, log[from..at]) <= src.file.content && src.offset == |Written(codec, log[from..at])|
    ensures HeadContinues(codec, log, src, Some(log[at - 1].seqNo))
  {
    var x, y :| 0 <= x <= y <= |log| && src.file.content == Written(codec, log[x..y]);
    SamePrefix(codec, log, from, at, x, y);
    TailAtBoundary(codec, log[from..at], log[at..y]);
    assert log[from..at] + log[at..y] == log[from..y];
    assert IsHead(codec, log, src, Some(log[at - 1].seqNo), at, y);
  }

  lemma OpenedKnows(codec: Codec, crc: Crc, base: string, w: Wal, log: seq<Rec>)
    requires CodecOk(codec) && WalInv(codec, base, w) && w.current.Some? && w.log <= log
    requires Opened(codec, crc, w).lastSeq.Some?
    ensures var m, cursor := MarkOf(w), Opened(codec, crc, w);
      && m.from < m.at <= |log| && cursor.ino == m.ino && w.current.value.content == Written(codec, log[m.from..m.at])
      && cursor.offset == |Written(codec, log[m.from..m.at])| && cursor.lastSeq == Some(log[m.at - 1].seqNo)
  {
    var m := MarkOf(w);
    CursorStandsAtEnd(codec, crc, base, w);
    assert w.log[m.from..m.at] == log[m.from..m.at];
    assert HeldOk(codec, w.log, w.current.value);
  }

  lemma HeadsDoContinue(codec: Codec, crc: Crc, base: string, w: Wal, v: Wal, snap: Snapshot)
    requires CodecOk(codec) && WalInv(codec, base, w) && WalInv(codec, base, v) && w.log <= v.log
    requires w.current.Some? && Opened(codec, crc, w).lastSeq.Some?
    requires Shows(snap, base, v) && CarriesOn(snap, base, w.current.value.ino, w.current.value.content)
    ensures HeadsContinue(codec, v.log, snap, base, Opened(codec, crc, w))
  {
    var cursor, m := Opened(codec, crc, w), MarkOf(w);
    OpenedKnows(codec, crc, base, w, v.log);
    forall src: Src | IsShown(snap, base, src.file) && src.file.ino == cursor.ino && src.offset == cursor.offset
      ensures HeadContinues(codec, v.log, src, cursor.lastSeq)
    {
      ShownIsStretch(codec, base, v, snap, src.file);
      CarriedOn(snap, base, w.current.value.ino, w.current.value.content, src.file);
      HeadDoesContinue(codec, v.log, m.from, m.at, src);
    }
  }

  lemma CarriedOn(snap: Snapshot, base: string, ino: nat, seen: bytes, file: File)
    requires CarriesOn(snap, base, ino, seen) && IsShown(snap, base, file) && file.ino == ino
    ensures seen <= file.content
  {
  }

  /**
   No false completeness. The cursor knows the last number, and what carries its inode is its file.
   Whatever archives are deleted and whatever cannot be read, a scan without problems returns
   a prefix of the records appended since: nothing before its last record is missing.
   */
  lemma NoFalseCompleteness(codec: Codec, crc: Crc, base: string, w: Wal, steps: seq<WriterStep>, snap: Snapshot)
    requires CodecOk(codec) && WalInv(codec, base, w) && w.current.Some? && IsWriterRun(codec, base, w, steps)
    requires Shows(snap, base, After(codec, base, w, steps))
    requires Opened(codec, crc, w).lastSeq.Some?
    requires CarriesOn(snap, base, w.current.value.ino, w.current.value.content)
    requires Scanned(codec, crc, Opened(codec, crc, w), base, snap, false).problems == []
    ensures var v := After(codec, base, w, steps);
      w.log <= v.log && Scanned(codec, crc, Opened(codec, crc, w), base, snap, false).records <= v.log[|w.log|..]
  {
    var v, cursor := After(codec, base, w, steps), Opened(codec, crc, w);
    RunKeepsInv(codec, base, w, steps);
    HeadsDoContinue(codec, crc, base, w, v, snap);
    var a, b := ScanReturnsStretch(codec, crc, base, v, cursor, snap);
    assert HeadContinues(codec, v.log, MakePlan(crc, cursor, base, snap).files[0], cursor.lastSeq);
    CursorStandsAtEnd(codec, crc, base, w);
    StretchIsPrefix(w.log, v.log, a, b);
  }

  /** A stretch of the longer log continues the shorter one exactly when its first number says so. */
  lemma StretchIsPrefix(before: seq<Rec>, log: seq<Rec>, a: nat, b: nat)
    requires before != [] && before <= log && Consecutive(log) && a <= b <= |log|
    ensures log[a..b] <= log[|before|..] <==> a == b || log[a].seqNo == before[|before| - 1].seqNo + 1
  {
    var n := |before|;
    assert before[n - 1] == log[n - 1];
    if a < b {
      assert log[a..b][0] == log[a];
      if log[a..b] <= log[n..] {
        assert log[n..][0] == log[a..b][0];
      }
      if a == n {
        assert log[n..][..b - a] == log[a..b];
      }
    }
  }

  // ---- exactly when a clean scan is complete ----

  /** The records of a file that a scan would read. */
  function TailRecs(codec: Codec, src: Src): seq<Rec> {
    GoodRecs(codec, Lines(ReadTail(src.file.content, src.offset)))
  }

  /** The records of the first file that has any. */
  function FirstTail(codec: Codec, files: seq<Src>): seq<Rec> {
    if files == [] then []
    else
      var before := FirstTail(codec, files[..|files| - 1]);
      if before != [] then before else TailRecs(codec, files[|files| - 1])
  }

  predicate StartsWithNumber(recs: seq<Rec>, n: int) {
    recs == [] || recs[0].seqNo == n
  }

  lemma ScanAddsTail(codec: Codec, acc: Acc, src: Src, atCursor: bool, allowReset: bool)
    requires src.file.readable
    ensures ScanFile(codec, acc, src, atCursor, allowReset).records == acc.records + TailRecs(codec, src)
  {
  }

  /** The records of the first file with any come first, and no record comes from nowhere. */
  lemma {:induction false} FirstTailFirst(codec: Codec, prev: Option<int>, files: seq<Src>, continuation: bool)
    requires ScanFiles(codec, Acc([], [], [], prev), files, continuation, false).problems == []
    ensures var records := ScanFiles(codec, Acc([], [], [], prev), files, continuation, false).records;
      FirstTail(codec, files) <= records && (FirstTail(codec, files) == [] ==> records == [])
  {
    if files != [] {
      var n := |files| - 1;
      var acc := ScanFiles(codec, Acc([], [], [], prev), files[..n], continuation, false);
      ProblemsGrow(codec, acc, files[n], n == 0 && continuation, false);
      ScanAddsTail(codec, acc, files[n], n == 0 && continuation, false);
      FirstTailFirst(codec, prev, files[..n], continuation);
    }
  }

  lemma {:induction false} HeadIsFirst(codec: Codec, files: seq<Src>)
    requires files != [] && TailRecs(codec, files[0]) != []
    ensures FirstTail(codec, files) == TailRecs(codec, files[0])
  {
    if |files| > 1 {
      HeadIsFirst(codec, files[..|files| - 1]);
    } else {
      assert FirstTail(codec, files[..0]) == [];
    }
  }

  lemma NumberedHeadContinues(codec: Codec, log: seq<Rec>, src: Src, last: int)
    requires CodecOk(codec) && IsStretch(codec, log, src.file.content) && StartsWithNumber(TailRecs(codec, src), last + 1)
    ensures HeadContinues(codec, log, src, Some(last))
  {
    var c, y := TailOfStretch(codec, log, src.file.content, src.offset);
    ReadBack(codec, log[c..y]);
    assert c < y ==> log[c..y][0] == log[c];
    assert IsHead(codec, log, src, Some(last), c, y);
  }

  /** A scan without problems has no hole exactly when its records, if any, start with the next number. */
  lemma CompleteByResult(codec: Codec, crc: Crc, base: string, w: Wal, steps: seq<WriterStep>, snap: Snapshot) returns (a: nat, b: nat)
    requires CodecOk(codec) && WalInv(codec, base, w) && w.current.Some? && IsWriterRun(codec, base, w, steps) && w.log != []
    requires Shows(snap, base, After(codec, base, w, steps))
    requires Scanned(codec, crc, Opened(codec, crc, w), base, snap, false).problems == []
    ensures var v, cursor := After(codec, base, w, steps), Opened(codec, crc, w);
      var records := Scanned(codec, crc, cursor, base, snap, false).records;
      var next := w.log[|w.log| - 1].seqNo + 1;
      && w.log <= v.log && CleanPlan(codec, v.log, crc, cursor, base, snap)
      && a <= b <= |v.log| && records == v.log[a..b]
      && (records <= v.log[|w.log|..] <==> StartsWithNumber(records, next))
      && (cursor.lastSeq.Some? && HeadContinues(codec, v.log, MakePlan(crc, cursor, base, snap).files[0], cursor.lastSeq)
          ==> StartsWithNumber(records, cursor.lastSeq.value + 1))
  {
    var v, cursor := After(codec, base, w, steps), Opened(codec, crc, w);
    RunKeepsInv(codec, base, w, steps);
    a, b := ScanReturnsStretch(codec, crc, base, v, cursor, snap);
    StretchIsPrefix(w.log, v.log, a, b);
    assert a < b ==> v.log[a..b][0] == v.log[a];
  }

  /**
   Exactly when a clean scan is complete, for a cursor that knows a number: if and only if what the
   first file to be read holds after the offset, if anything, starts with the number after it.
   Archives may be missing and inode numbers used again. The scan compares these two numbers for
   regression only.
   */
  lemma CompleteExactly(codec: Codec, crc: Crc, base: string, w: Wal, steps: seq<WriterStep>, snap: Snapshot)
    requires CodecOk(codec) && WalInv(codec, base, w) && w.current.Some? && IsWriterRun(codec, base, w, steps)
    requires Shows(snap, base, After(codec, base, w, steps))
    requires Opened(codec, crc, w).lastSeq.Some?
    requires Scanned(codec, crc, Opened(codec, crc, w), base, snap, false).problems == []
    ensures var v, cursor := After(codec, base, w, steps), Opened(codec, crc, w);
      var files := MakePlan(crc, cursor, base, snap).files;
      && w.log <= v.log && files != []
      && (Scanned(codec, crc, cursor, base, snap, false).records <= v.log[|w.log|..]
          <==> StartsWithNumber(TailRecs(codec, files[0]), cursor.lastSeq.value + 1))
  {
    var v, cursor := After(codec, base, w, steps), Opened(codec, crc, w);
    var plan := MakePlan(crc, cursor, base, snap);
    CursorStandsAtEnd(codec, crc, base, w);
    var a, b := CompleteByResult(codec, crc, base, w, steps, snap);
    FirstTailFirst(codec, cursor.lastSeq, plan.files, true);
    if TailRecs(codec, plan.files[0]) != [] {
      HeadIsFirst(codec, plan.files);
    }
    if StartsWithNumber(TailRecs(codec, plan.files[0]), cursor.lastSeq.value + 1) {
      assert plan.files[0] in plan.files;
      NumberedHeadContinues(codec, v.log, plan.files[0], cursor.lastSeq.value);
    }
  }

  /**
   And for a cursor that knows none: if and only if the first file with records, of those to be
   read, starts with the number after the last one that was in the log. Nothing checks this.
   */
  lemma CompleteUnnumbered(codec: Codec, crc: Crc, base: string, w: Wal, steps: seq<WriterStep>, snap: Snapshot)
    requires CodecOk(codec) && WalInv(codec, base, w) && w.current.Some? && IsWriterRun(codec, base, w, steps) && w.log != []
    requires Shows(snap, base, After(codec, base, w, steps))
    requires Opened(codec, crc, w).lastSeq.None?
    requires Scanned(codec, crc, Opened(codec, crc, w), base, snap, false).problems == []
    ensures var v, cursor := After(codec, base, w, steps), Opened(codec, crc, w);
      && w.log <= v.log
      && (Scanned(codec, crc, cursor, base, snap, false).records <= v.log[|w.log|..]
          <==> StartsWithNumber(FirstTail(codec, MakePlan(crc, cursor, base, snap).files), w.log[|w.log| - 1].seqNo + 1))
  {
    var cursor := Opened(codec, crc, w);
    var a, b := CompleteByResult(codec, crc, base, w, steps, snap);
    FirstTailFirst(codec, cursor.lastSeq, MakePlan(crc, cursor, base, snap).files, true);
  }

  // ---- the marker ----

  /** Polls of a live log: before each scan the writer has taken some steps. */
  ghost predicate WatchesLog(codec: Codec, crc: Crc, base: string, w: Wal, polls: Polls, runs: nat -> seq<WriterStep>, snaps: nat -> Snapshot)
    requires w.current.Some?
  {
    forall i: nat :: PollIs(codec, crc, base, w, polls, runs(i), snaps(i), i)
  }

  ghost predicate PollIs(codec: Codec, crc: Crc, base: string, w: Wal, polls: Polls, steps: seq<WriterStep>, snap: Snapshot, i: nat)
    requires w.current.Some?
  {
    && IsWriterRun(codec, base, w, steps) && Shows(snap, base, After(codec, base, w, steps))
    && CarriesOn(snap, base, w.current.value.ino, w.current.value.content)
    && polls.scans(i) == Scanned(codec, crc, Opened(codec, crc, w), base, snap, false)
  }

  /** If the wait says ok, it names the first matching record that was appended since the cursor. */
  lemma OkNamesFirstMatch(codec: Codec, crc: Crc, base: string, w: Wal, polls: Polls, runs: nat -> seq<WriterStep>, snaps: nat -> Snapshot,
                          last: nat, marker: bytes, cmdId: Option<string>) returns (j: nat, p: nat)
    requires CodecOk(codec) && WalInv(codec, base, w) && w.current.Some? && Opened(codec, crc, w).lastSeq.Some?
    requires WatchesLog(codec, crc, base, w, polls, runs, snaps) && RunsOut(polls, last)
    requires WaitFrom(polls, last, 0, marker, cmdId).ok
    ensures IsWriterRun(codec, base, w, runs(j))
    ensures var log := After(codec, base, w, runs(j)).log;
      && |w.log| <= p < |log|
      && WaitFrom(polls, last, 0, marker, cmdId).matched == Some(log[p]) && IsMatch(log[p], marker, cmdId)
      && forall q :: |w.log| <= q < p ==> !IsMatch(log[q], marker, cmdId)
  {
    j := OkRestsOnEvidence(polls, last, 0, marker, cmdId);
    assert PollIs(codec, crc, base, w, polls, runs(j), snaps(j), j);
    NoFalseCompleteness(codec, crc, base, w, runs(j), snaps(j));
    var log, records := After(codec, base, w, runs(j)).log, polls.scans(j).records;
    var i := FirstMatch(records, marker, cmdId).value;
    p := |w.log| + i;
    forall k | 0 <= k < |records|
      ensures |w.log| + k < |log| && records[k] == log[|w.log| + k]
    {
      assert records == log[|w.log|..][..|records|];
    }
    forall q | |w.log| <= q < p
      ensures !IsMatch(log[q], marker, cmdId)
    {
      assert records[q - |w.log|] == log[q];
    }
  }

  /** A marker in the log is found by any scan that can read the files, however often they were rotated. */
  lemma MarkerIsFound(codec: Codec, crc: Crc, base: string, w: Wal, steps: seq<WriterStep>, snap: Snapshot, allowReset: bool,
                      marker: bytes, cmdId: Option<string>, p: nat)
    requires CodecOk(codec) && WalInv(codec, base, w) && w.current.Some?
    requires IsWriterRun(codec, base, w, steps) && SparingRun(codec, base, w, MarkOf(w), steps)
    requires Readable(snap, base, After(codec, base, w, steps))
    requires |w.log| <= p < |After(codec, base, w, steps).log| && IsMatch(After(codec, base, w, steps).log[p], marker, cmdId)
    ensures exists v :: Decide(Scanned(codec, crc, Opened(codec, crc, w), base, snap, allowReset), marker, cmdId) == Some(v) && v.ok
  {
    var acc := Scanned(codec, crc, Opened(codec, crc, w), base, snap, allowReset);
    RotationRefinement(codec, crc, base, w, steps, snap, allowReset);
    assert acc.records[p - |w.log|] == After(codec, base, w, steps).log[p];
    OkExactly(acc, marker, cmdId);
  }
}
