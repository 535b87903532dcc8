/**
 Two ways in which a scan without problems hides a hole, each with the writer's steps: a cursor
 that knows no number, and an inode number used again by a file that is now an archive.
 */
module WalHoles {
  import opened Wrappers
  import opened Bytes
  import opened WalFiles
  import opened WalOracle
  import opened WalWriter
  import opened WalListing
  import opened WalTheorems
  import opened WalCompleteness

  /** The log's name and three archive names in the order of their keys. */
  datatype Names = Names(base: string, first: string, second: string, third: string)

  predicate InOrder(n: Names) {
    BeforeKey(n.first, n.second, n.base) && BeforeKey(n.second, n.third, n.base) && BeforeKey(n.first, n.third, n.base)
  }

  lemma {:induction false} CommonStart(s: string, a: string, b: string)
    ensures StrLess(s + a, s + b) == StrLess(a, b)
  {
    if s == "" {
      assert s + a == a && s + b == b;
    } else {
      CommonStart(s[1..], a, b);
      assert (s + a)[1..] == s[1..] + a && (s + b)[1..] == s[1..] + b;
    }
  }

  lemma NameKey(c: char)
    requires '0' <= c <= '9'
    ensures ArchiveKey("wal.20240101-00000" + [c], "wal") == Some(Key("20240101-00000" + [c], 0))
  {
    var name, suffix := "wal.20240101-00000" + [c], "20240101-00000" + [c];
    assert name[..4] == "wal." == "wal" + ".";
    assert name[4..] == suffix;
    assert suffix[..8] == "20240101" && suffix[9..15] == "00000" + [c];
  }

  lemma SuchNamesExist()
    ensures InOrder(Names("wal", "wal.20240101-00000" + "1", "wal.20240101-00000" + "2", "wal.20240101-00000" + "3"))
  {
    NameKey('1');
    NameKey('2');
    NameKey('3');
    CommonStart("20240101-00000", "1", "2");
    CommonStart("20240101-00000", "2", "3");
    CommonStart("20240101-00000", "1", "3");
  }

  ghost predicate Reaches(n: Names, codec: Codec, w: Wal, steps: seq<WriterStep>, v: Wal) {
    IsWriterRun(codec, n.base, w, steps) && After(codec, n.base, w, steps) == v
  }

  predicate Leads(n: Names, codec: Codec, w: Wal, step: WriterStep, u: Wal) {
    CanTake(n.base, w, step) && Take(codec, n.base, w, step) == u
  }

  /** A run, told from its end: one step before the rest. */
  lemma OneMore(n: Names, codec: Codec, w: Wal, step: WriterStep, u: Wal, rest: seq<WriterStep>, v: Wal) returns (steps: seq<WriterStep>)
    requires Leads(n, codec, w, step, u) && Reaches(n, codec, u, rest, v)
    ensures Reaches(n, codec, w, steps, v)
  {
    steps := [step] + rest;
    assert steps[0] == step && steps[1..] == rest;
  }

  lemma TwoMore(n: Names, codec: Codec, w: Wal, step1: WriterStep, u: Wal, step2: WriterStep, t: Wal, rest: seq<WriterStep>, v: Wal) returns (steps: seq<WriterStep>)
    requires Leads(n, codec, w, step1, u) && Leads(n, codec, u, step2, t) && Reaches(n, codec, t, rest, v)
    ensures Reaches(n, codec, w, steps, v)
  {
    steps := OneMore(n, codec, u, step2, t, rest, v);
    steps := OneMore(n, codec, w, step1, u, steps, v);
  }

  lemma NoMore(n: Names, codec: Codec, w: Wal)
    ensures Reaches(n, codec, w, [], w)
  {
  }

  /** The directory of a log: the archives in some order, and nothing else. */
  function Listing(archives: seq<Held>): seq<DirEntry> {
    seq(|archives|, i requires 0 <= i < |archives| => DirEntry(archives[i].name, Some(Found(archives[i]))))
  }

  lemma ListingLists(n: Names, codec: Codec, w: Wal)
    requires WalInv(codec, n.base, w)
    ensures Lists(Listing(w.archives), n.base, w.archives)
  {
    var dir := Listing(w.archives);
    forall i, j | 0 <= i < j < |dir|
      ensures dir[i].name != dir[j].name
    {
      assert BeforeKey(w.archives[i].name, w.archives[j].name, n.base);
      var k := ArchiveKey(w.archives[i].name, n.base).value;
      KeyLessTotal(k, k);
    }
    forall a | a in w.archives
      ensures DirEntry(a.name, Some(Found(a))) in dir
    {
      var i :| 0 <= i < |w.archives| && w.archives[i] == a;
      assert dir[i] == DirEntry(a.name, Some(Found(a)));
    }
    forall e | e in dir
      ensures exists a :: a in w.archives && e == DirEntry(a.name, Some(Found(a)))
    {
      var i :| 0 <= i < |dir| && dir[i] == e;
      assert w.archives[i] in w.archives;
    }
  }

  function Whole(w: Wal): Snapshot {
    Snapshot(if w.current.Some? then Some(Found(w.current.value)) else None, Listing(w.archives))
  }

  lemma WholeShows(n: Names, codec: Codec, w: Wal)
    requires WalInv(codec, n.base, w)
    ensures Shows(Whole(w), n.base, w)
  {
    ListingLists(n, codec, w);
    forall d | d in Candidates(Whole(w).dir, n.base)
      ensures exists a :: a in w.archives && SameBytes(d.file, a)
    {
      CandidatesHas(Whole(w).dir, n.base, d);
      var e :| e in Whole(w).dir && CandidateOf(e, n.base) == Some(d);
    }
  }

  // ---- a cursor that knows no number ----

  /** One record in an archive, and an empty current file. */
  function JustRotated(n: Names, codec: Codec, r1: Rec): Wal {
    Wal([r1], [Held(n.first, 0, 1, Written(codec, [r1]), 0, 1)], Some(Held(n.base, 1, 2, [], 1, 1)), 2)
  }

  lemma JustRotatedInv(n: Names, codec: Codec, r1: Rec)
    requires InOrder(n)
    ensures WalInv(codec, n.base, JustRotated(n, codec, r1))
  {
    assert [r1][0..1] == [r1] && [r1][1..1] == [];
  }

  function EmptyArchive(n: Names): Held {
    Held(n.second, 1, 2, [], 1, 1)
  }

  function OneRecord(codec: Codec, name: string, id: nat, ino: nat, rec: Rec, from: nat): Held {
    Held(name, id, ino, [] + codec.format(rec) + [NEWLINE], from, from + 1)
  }

  function HoleLeft(n: Names, codec: Codec, r1: Rec, r2: Rec, r3: Rec): Wal {
    Wal([r1, r2, r3], [JustRotated(n, codec, r1).archives[0], EmptyArchive(n)], Some(OneRecord(codec, n.base, 3, 4, r3, 2)), 4)
  }

  /** The last three steps: a new file, a record, and the archive before it is lost. */
  lemma LosesArchive(n: Names, codec: Codec, r1: Rec, r2: Rec, r3: Rec) returns (steps: seq<WriterStep>)
    requires InOrder(n)
    requires r2.seqNo == r1.seqNo + 1 && r3.seqNo == r1.seqNo + 2
    ensures var a1 := JustRotated(n, codec, r1).archives[0];
      Reaches(n, codec, Wal([r1, r2], [a1, EmptyArchive(n), OneRecord(codec, n.third, 2, 3, r2, 1)], None, 3), steps, HoleLeft(n, codec, r1, r2, r3))
  {
    var a1, v := JustRotated(n, codec, r1).archives[0], HoleLeft(n, codec, r1, r2, r3);
    var archives := [a1, EmptyArchive(n), OneRecord(codec, n.third, 2, 3, r2, 1)];
    var w4 := Wal([r1, r2], archives, None, 3);
    var w5 := Wal([r1, r2], archives, Some(Held(n.base, 3, 4, [], 2, 2)), 4);
    var w6 := Wal([r1, r2, r3], archives, v.current, 4);
    assert Leads(n, codec, w4, Create(4), w5);
    assert Leads(n, codec, w5, Append(r3), w6) by {
      assert [r1, r2] + [r3] == [r1, r2, r3];
    }
    assert Leads(n, codec, w6, Delete(2), v) by {
      assert archives[..2] + archives[3..] == [a1, EmptyArchive(n)];
    }
    NoMore(n, codec, v);
    steps := OneMore(n, codec, w6, Delete(2), v, [], v);
    steps := TwoMore(n, codec, w4, Create(4), w5, Append(r3), w6, steps, v);
  }

  /** Rotate at once, write a record, rotate again, write another, and lose the archive between. */
  lemma EmptyFileSteps(n: Names, codec: Codec, r1: Rec, r2: Rec, r3: Rec) returns (steps: seq<WriterStep>)
    requires InOrder(n)
    requires r2.seqNo == r1.seqNo + 1 && r3.seqNo == r1.seqNo + 2
    ensures Reaches(n, codec, JustRotated(n, codec, r1), steps, HoleLeft(n, codec, r1, r2, r3))
  {
    var w0 := JustRotated(n, codec, r1);
    var a1, v := w0.archives[0], HoleLeft(n, codec, r1, r2, r3);
    var w1 := Wal([r1], [a1, EmptyArchive(n)], None, 2);
    var w2 := Wal([r1], [a1, EmptyArchive(n)], Some(Held(n.base, 2, 3, [], 1, 1)), 3);
    var w3 := Wal([r1, r2], [a1, EmptyArchive(n)], Some(OneRecord(codec, n.base, 2, 3, r2, 1)), 3);
    var w4 := Wal([r1, r2], [a1, EmptyArchive(n), OneRecord(codec, n.third, 2, 3, r2, 1)], None, 3);
    assert Leads(n, codec, w0, Rename(n.second), w1) by {
      assert [a1] + [EmptyArchive(n)] == [a1, EmptyArchive(n)];
    }
    assert Leads(n, codec, w1, Create(3), w2);
    assert Leads(n, codec, w2, Append(r2), w3) by {
      assert [r1] + [r2] == [r1, r2];
    }
    assert Leads(n, codec, w3, Rename(n.third), w4) by {
      assert [a1, EmptyArchive(n)] + [OneRecord(codec, n.third, 2, 3, r2, 1)] == w4.archives;
    }
    steps := LosesArchive(n, codec, r1, r2, r3);
    steps := TwoMore(n, codec, w2, Append(r2), w3, Rename(n.third), w4, steps, v);
    steps := TwoMore(n, codec, w0, Rename(n.second), w1, Create(3), w2, steps, v);
  }

  /**
   A cursor opened on a file without records knows no number. The scan then returns the third
   record only and reports nothing, although the second was appended since and is gone.
   */
  lemma UnknownNumberHidesHole(n: Names, codec: Codec, crc: Crc, r1: Rec, r2: Rec, r3: Rec) returns (steps: seq<WriterStep>, v: Wal)
    requires InOrder(n)
    requires CodecOk(codec) && r2.seqNo == r1.seqNo + 1 && r3.seqNo == r1.seqNo + 2
    ensures WalInv(codec, n.base, JustRotated(n, codec, r1)) && Reaches(n, codec, JustRotated(n, codec, r1), steps, v)
    ensures Shows(Whole(v), n.base, v) && CarriesOn(Whole(v), n.base, 2, [])
    ensures Opened(codec, crc, JustRotated(n, codec, r1)).lastSeq == None
    ensures Scanned(codec, crc, Opened(codec, crc, JustRotated(n, codec, r1)), n.base, Whole(v), false).problems == []
    ensures Scanned(codec, crc, Opened(codec, crc, JustRotated(n, codec, r1)), n.base, Whole(v), false).records == [r3]
    ensures v.log == [r1, r2, r3]
  {
    var w := JustRotated(n, codec, r1);
    JustRotatedInv(n, codec, r1);
    steps := EmptyFileSteps(n, codec, r1, r2, r3);
    v := HoleLeft(n, codec, r1, r2, r3);
    RunKeepsInv(codec, n.base, w, steps);
    WholeShows(n, codec, v);
    CursorOnEmpty(n, codec, crc, r1);
    ScanSkips(n, codec, crc, v, Opened(codec, crc, w));
    assert v.log[2..3] == [r3];
  }

  lemma CursorOnEmpty(n: Names, codec: Codec, crc: Crc, r1: Rec)
    requires InOrder(n)
    requires CodecOk(codec)
    ensures var cursor := Opened(codec, crc, JustRotated(n, codec, r1));
      cursor.ino == 2 && cursor.offset == 0 && cursor.lastSeq == None
  {
    JustRotatedInv(n, codec, r1);
    CursorStandsAtEnd(codec, crc, n.base, JustRotated(n, codec, r1));
    assert JustRotated(n, codec, r1).log[1..1] == [];
  }

  lemma TwoFiles(codec: Codec, start: Acc, first: Src, second: Src)
    ensures ScanFiles(codec, start, [first, second], true, false)
         == ScanFile(codec, ScanFile(codec, start, first, true, false), second, false, false)
  {
    assert [first][..0] == [] && [first, second][..1] == [first];
    assert ScanFiles(codec, start, [first], true, false) == ScanFile(codec, start, first, true, false);
  }

  lemma ScanSkips(n: Names, codec: Codec, crc: Crc, v: Wal, cursor: Cursor)
    requires CodecOk(codec) && WalInv(codec, n.base, v) && |v.log| == 3 && |v.archives| == 2 && v.current.Some?
    requires v.archives[1].ino == cursor.ino == 2 && v.archives[1].content == [] && cursor.offset == 0 && cursor.lastSeq == None
    requires v.current.value.ino == 4 && v.current.value.from == 2
    ensures var r := Scanned(codec, crc, cursor, n.base, Whole(v), false);
      r.problems == [] && r.records == v.log[2..3]
  {
    var start := Acc([], [], [], None);
    var first, second := Src(Found(v.archives[1]), 0, true), Src(Found(v.current.value), 0, false);
    SkipPlan(n, codec, crc, v, cursor);
    assert v.log[0..0] == [];
    var acc1 := ScanFile(codec, start, first, true, false);
    ScanStretch(codec, start, first, v.log, 0, 0, true, false);
    assert HeldOk(codec, v.log, v.current.value);
    ScanStretch(codec, acc1, second, v.log, 2, 3, false, false);
    TwoFiles(codec, start, first, second);
  }

  lemma SkipPlan(n: Names, codec: Codec, crc: Crc, v: Wal, cursor: Cursor)
    requires WalInv(codec, n.base, v) && |v.archives| == 2 && v.current.Some?
    requires v.archives[1].ino == cursor.ino == 2 && cursor.offset == 0 && v.current.value.ino == 4
    ensures MakePlan(crc, cursor, n.base, Whole(v)).problems == [] && MakePlan(crc, cursor, n.base, Whole(v)).continuation
    ensures MakePlan(crc, cursor, n.base, Whole(v)).files == [Src(Found(v.archives[1]), 0, true), Src(Found(v.current.value), 0, false)]
  {
    ListingLists(n, codec, v);
    RotatedPlan(codec, n.base, v, cursor, Whole(v).dir, Whole(v).current, 1);
    assert Chain(v, 1) == [v.archives[1], v.current.value];
  }

  // ---- an inode number used again ----

  function OneFile(n: Names, codec: Codec, r1: Rec): Wal {
    Wal([r1], [], Some(OneRecord(codec, n.base, 0, 1, r1, 0)), 1)
  }

  lemma OneFileInv(n: Names, codec: Codec, r1: Rec)
    requires InOrder(n)
    ensures WalInv(codec, n.base, OneFile(n, codec, r1))
    ensures Written(codec, [r1]) == OneFile(n, codec, r1).current.value.content
  {
    assert [r1][0..1] == [r1] && [r1][1..] == [];
    var f := codec.format(r1) + [NEWLINE];
    assert Written(codec, []) == [];
    assert Written(codec, [r1]) == f + [];
    assert [] + codec.format(r1) + [NEWLINE] == f == f + [];
  }

  function TwoRecords(n: Names, codec: Codec, r2: Rec, r3: Rec): Held {
    Held(n.second, 1, 1, [] + codec.format(r2) + [NEWLINE] + codec.format(r3) + [NEWLINE], 1, 3)
  }

  function Reused(n: Names, codec: Codec, r1: Rec, r2: Rec, r3: Rec): Wal {
    Wal([r1, r2, r3], [TwoRecords(n, codec, r2, r3)], None, 2)
  }

  function NextFileOf(n: Names, r1: Rec): Wal {
    Wal([r1], [], Some(Held(n.base, 1, 1, [], 1, 1)), 2)
  }

  lemma WritesTwo(n: Names, codec: Codec, r1: Rec, r2: Rec, r3: Rec) returns (steps: seq<WriterStep>)
    requires InOrder(n)
    requires r2.seqNo == r1.seqNo + 1 && r3.seqNo == r1.seqNo + 2
    ensures Reaches(n, codec, NextFileOf(n, r1), steps, Reused(n, codec, r1, r2, r3))
  {
    var v := Reused(n, codec, r1, r2, r3);
    var w4 := Wal([r1, r2], [], Some(OneRecord(codec, n.base, 1, 1, r2, 1)), 2);
    var w5 := Wal([r1, r2, r3], [], Some(TwoRecords(n, codec, r2, r3).(name := n.base)), 2);
    assert Leads(n, codec, NextFileOf(n, r1), Append(r2), w4) by {
      assert [r1] + [r2] == [r1, r2];
    }
    assert Leads(n, codec, w4, Append(r3), w5) by {
      assert [r1, r2] + [r3] == [r1, r2, r3];
    }
    assert Leads(n, codec, w5, Rename(n.second), v);
    NoMore(n, codec, v);
    steps := OneMore(n, codec, w5, Rename(n.second), v, [], v);
    steps := TwoMore(n, codec, NextFileOf(n, r1), Append(r2), w4, Append(r3), w5, steps, v);
  }

  /** The cursor's file is archived and deleted, and the next file gets its number. */
  lemma ReuseSteps(n: Names, codec: Codec, r1: Rec, r2: Rec, r3: Rec) returns (steps: seq<WriterStep>)
    requires InOrder(n)
    requires r2.seqNo == r1.seqNo + 1 && r3.seqNo == r1.seqNo + 2
    ensures Reaches(n, codec, OneFile(n, codec, r1), steps, Reused(n, codec, r1, r2, r3))
  {
    var v := Reused(n, codec, r1, r2, r3);
    var w1 := Wal([r1], [OneRecord(codec, n.first, 0, 1, r1, 0)], None, 1);
    var w2 := Wal([r1], [], None, 1);
    assert Leads(n, codec, OneFile(n, codec, r1), Rename(n.first), w1);
    assert Leads(n, codec, w1, Delete(0), w2) by {
      assert w1.archives[..0] + w1.archives[1..] == [];
    }
    assert Leads(n, codec, w2, Create(1), NextFileOf(n, r1));
    steps := WritesTwo(n, codec, r1, r2, r3);
    steps := TwoMore(n, codec, w1, Delete(0), w2, Create(1), NextFileOf(n, r1), steps, v);
    steps := OneMore(n, codec, OneFile(n, codec, r1), Rename(n.first), w1, steps, v);
  }

  /**
   The file that carries the cursor's inode number is another one. While it is the current file the
   bytes before the offset give it away; once it is an archive nothing is compared. The scan then
   reads from the middle of it, returns the third record only, and reports nothing.
   */
  lemma ReusedInodeHidesHole(n: Names, codec: Codec, crc: Crc, r1: Rec, r2: Rec, r3: Rec) returns (steps: seq<WriterStep>, v: Wal)
    requires InOrder(n)
    requires CodecOk(codec) && r2.seqNo == r1.seqNo + 1 && r3.seqNo == r1.seqNo + 2
    requires |codec.format(r1)| == |codec.format(r2)|
    ensures WalInv(codec, n.base, OneFile(n, codec, r1)) && Reaches(n, codec, OneFile(n, codec, r1), steps, v)
    ensures Shows(Whole(v), n.base, v)
    ensures Opened(codec, crc, OneFile(n, codec, r1)).lastSeq == Some(r1.seqNo)
    ensures Scanned(codec, crc, Opened(codec, crc, OneFile(n, codec, r1)), n.base, Whole(v), false).problems == []
    ensures Scanned(codec, crc, Opened(codec, crc, OneFile(n, codec, r1)), n.base, Whole(v), false).records == [r3]
    ensures v.log == [r1, r2, r3]
  {
    var w := OneFile(n, codec, r1);
    OneFileInv(n, codec, r1);
    steps := ReuseSteps(n, codec, r1, r2, r3);
    v := Reused(n, codec, r1, r2, r3);
    RunKeepsInv(codec, n.base, w, steps);
    WholeShows(n, codec, v);
    CursorStandsAtEnd(codec, crc, n.base, w);
    assert w.log[0..1] == [r1];
    ScanMisreads(n, codec, crc, v, Opened(codec, crc, w), r2);
    assert v.log[2..3] == [r3];
  }

  lemma ScanMisreads(n: Names, codec: Codec, crc: Crc, v: Wal, cursor: Cursor, r2: Rec)
    requires CodecOk(codec) && WalInv(codec, n.base, v) && |v.log| == 3 && |v.archives| == 1 && v.current.None?
    requires v.archives[0].ino == cursor.ino && v.archives[0].from == 1 && v.archives[0].to == 3 && v.log[1] == r2
    requires cursor.offset == |codec.format(r2)| + 1
    requires cursor.lastSeq == Some(v.log[0].seqNo)
    ensures var r := Scanned(codec, crc, cursor, n.base, Whole(v), false);
      r.problems == [] && r.records == v.log[2..3]
  {
    var snap := Whole(v);
    ListingLists(n, codec, v);
    RotatedPlan(codec, n.base, v, cursor, snap.dir, snap.current, 0);
    var plan := MakePlan(crc, cursor, n.base, snap);
    var start := Acc([], [], [], cursor.lastSeq);
    assert Chain(v, 0) == [v.archives[0]];
    assert plan.files == [Src(Found(v.archives[0]), cursor.offset, true)];
    MisreadTail(codec, v.log, v.archives[0], r2);
    ScanStretch(codec, start, plan.files[0], v.log, 2, 3, true, false);
    assert plan.files[..0] == [];
    assert ScanFiles(codec, start, plan.files, true, false) == ScanFile(codec, start, plan.files[0], true, false);
  }

  lemma MisreadTail(codec: Codec, log: seq<Rec>, h: Held, r2: Rec)
    requires HeldOk(codec, log, h) && h.from == 1 && h.to == 3 == |log| && log[1] == r2
    ensures ReadTail(h.content, |codec.format(r2)| + 1) == Written(codec, log[2..3])
  {
    assert log[1..3] == [r2] + log[2..3];
    OneFileLength(codec, r2);
    TailAtBoundary(codec, [r2], log[2..3]);
  }

  lemma OneFileLength(codec: Codec, r: Rec)
    ensures |Written(codec, [r])| == |codec.format(r)| + 1
  {
    assert Written(codec, [r]) == codec.format(r) + [NEWLINE] + Written(codec, []);
  }
}
