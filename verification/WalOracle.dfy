/**
 The oracle of realhw/wal_oracle.py: a cursor into a live log, one scan of everything appended
 since, across rotations, and waiting for a marker. A scan works on one snapshot of the files.
 */
module WalOracle {
  import opened Wrappers
  import opened Bytes
  import opened WalFiles

  /** `crc` is CRC-32 of the bytes just before the offset. */
  datatype Cursor = Cursor(ino: nat, offset: nat, lastSeq: Option<int>, tailCrc: Option<nat>)

  type Crc = bytes -> nat

  datatype Problem =
    | WalUnreadable
    | ArchiveUnreadable
    | ArchiveMissing
    | IntermediateArchiveMissing
    | RecordCorrupt
    | SeqRegressed
    | SeqDiscontinuous

  // ---- opening a cursor ----

  const TAIL_BYTES := 512

  function TailCrc(crc: Crc, data: bytes, offset: nat): Option<nat>
    requires offset <= |data|
  {
    if offset == 0 then None else Some(crc(data[offset - Min(offset, TAIL_BYTES)..offset]))
  }

  function LastSeq(recs: seq<Rec>): Option<int> {
    if recs == [] then None else Some(recs[|recs| - 1].seqNo)
  }

  /** The cursor at the end of a file: the last good record's number is remembered. */
  function CursorAt(codec: Codec, crc: Crc, file: File): Cursor {
    var data := file.content;
    Cursor(file.ino, |data|, LastSeq(GoodRecs(codec, Lines(data))), TailCrc(crc, data, |data|))
  }

  /** `open_cursor`: looks for the last good record from the end. */
  method OpenCursor(codec: Codec, crc: Crc, current: Option<File>) returns (r: Option<Cursor>)
    ensures r.Some? <==> current.Some? && current.value.readable
    ensures r.Some? ==> r.value == CursorAt(codec, crc, current.value)
  {
    if current.None? || !current.value.readable {
      return None;
    }
    var data := current.value.content;
    var lines := Lines(data);
    var lastSeq := None;
    var i := |lines|;
    assert lines[..i] == lines;
    while i > 0
      invariant 0 <= i <= |lines| && lastSeq == None
      invariant LastSeq(GoodRecs(codec, lines[..i])) == LastSeq(GoodRecs(codec, lines))
    {
      assert lines[..i][..i - 1] == lines[..i - 1] && lines[..i][i - 1] == lines[i - 1];
      i := i - 1;
      var kind := codec.classify(lines[i]);
      if kind.Good? {
        lastSeq := Some(kind.rec.seqNo);
        break;
      }
    }
    return Some(Cursor(current.value.ino, |data|, lastSeq, TailCrc(crc, data, |data|)));
  }

  // ---- which files to read ----

  datatype Src = Src(file: File, offset: nat, isArchive: bool)

  datatype Plan = Plan(files: seq<Src>, problems: seq<Problem>, continuation: bool, archives: seq<string>)

  /** The log's own name no longer leads to the cursor's file. */
  predicate Moved(cursor: Cursor, current: Option<File>) {
    current.None? || current.value.ino != cursor.ino || |current.value.content| < cursor.offset
  }

  /** The same number, but not the bytes the cursor saw. */
  predicate Replaced(crc: Crc, cursor: Cursor, file: File)
    requires |file.content| >= cursor.offset
  {
    cursor.tailCrc.Some? && cursor.offset > 0 && file.readable && TailCrc(crc, file.content, cursor.offset) != cursor.tailCrc
  }

  predicate Rotated(crc: Crc, cursor: Cursor, current: Option<File>) {
    Moved(cursor, current) || Replaced(crc, cursor, current.value)
  }

  function TailProblems(cursor: Cursor, current: Option<File>): seq<Problem> {
    if !Moved(cursor, current) && cursor.tailCrc.Some? && cursor.offset > 0 && !current.value.readable then [WalUnreadable] else []
  }

  function Matching(cs: seq<Candidate>, ino: nat): seq<Candidate> {
    if cs == [] then []
    else Matching(cs[..|cs| - 1], ino) + if cs[|cs| - 1].file.ino == ino then [cs[|cs| - 1]] else []
  }

  function Later(cs: seq<Candidate>, key: Key): seq<Candidate> {
    if cs == [] then []
    else Later(cs[..|cs| - 1], key) + if KeyLess(key, cs[|cs| - 1].key) then [cs[|cs| - 1]] else []
  }

  function Names(cs: seq<Candidate>): seq<string> {
    seq(|cs|, i requires 0 <= i < |cs| => cs[i].name)
  }

  function Sources(cs: seq<Candidate>): seq<Src> {
    seq(|cs|, i requires 0 <= i < |cs| => Src(cs[i].file, 0, true))
  }

  function CurrentSource(current: Option<File>, offset: nat): seq<Src> {
    if current.Some? then [Src(current.value, offset, false)] else []
  }

  function MakePlan(crc: Crc, cursor: Cursor, base: string, snap: Snapshot): Plan {
    var early := TailProblems(cursor, snap.current);
    if !Rotated(crc, cursor, snap.current) then Plan(CurrentSource(snap.current, cursor.offset), early, true, [])
    else PlanRotated(cursor, Sort(Candidates(snap.dir, base)), snap.current, early)
  }

  function PlanRotated(cursor: Cursor, cs: seq<Candidate>, current: Option<File>, early: seq<Problem>): Plan {
    var matching := Matching(cs, cursor.ino);
    if |matching| != 1 then
      Plan(CurrentSource(current, 0), early + [ArchiveMissing] + (if current.None? then [WalUnreadable] else []), false, [])
    else
      var later := Later(cs, matching[0].key);
      Plan([Src(matching[0].file, cursor.offset, true)] + Sources(later) + CurrentSource(current, 0),
           early, true, [matching[0].name] + Names(later))
  }

  // ---- reading them ----

  datatype Acc = Acc(records: seq<Rec>, lines: seq<bytes>, problems: seq<Problem>, prev: Option<int>)

  function Times(n: nat, p: Problem): seq<Problem> {
    seq(n, _ => p)
  }

  /** Between the last number seen and the first of a file. */
  function Junction(prev: Option<int>, first: int, atCursor: bool, allowReset: bool): seq<Problem> {
    if prev.None? then []
    else if atCursor then if first <= prev.value then [SeqRegressed] else []
    else if (allowReset && first == 1) || first == prev.value + 1 then []
    else if first > prev.value + 1 then [IntermediateArchiveMissing]
    else [SeqDiscontinuous]
  }

  function Regressions(recs: seq<Rec>): nat {
    if |recs| < 2 then 0
    else Regressions(recs[..|recs| - 1]) + if recs[|recs| - 1].seqNo <= recs[|recs| - 2].seqNo then 1 else 0
  }

  function Joined(acc: Acc, recs: seq<Rec>, atCursor: bool, allowReset: bool): Acc {
    if recs == [] then acc
    else acc.(problems := acc.problems + Junction(acc.prev, recs[0].seqNo, atCursor, allowReset) + Times(Regressions(recs), SeqRegressed),
              prev := LastSeq(recs))
  }

  function ScanLines(codec: Codec, acc: Acc, lines: seq<bytes>): Acc {
    acc.(records := acc.records + GoodRecs(codec, lines), lines := acc.lines + RawLines(codec, lines),
         problems := acc.problems + Times(CorruptLines(codec, lines), RecordCorrupt))
  }

  function ScanFile(codec: Codec, acc: Acc, src: Src, atCursor: bool, allowReset: bool): Acc {
    if !src.file.readable then
      acc.(problems := acc.problems + [if src.isArchive then ArchiveUnreadable else WalUnreadable])
    else
      var lines := Lines(ReadTail(src.file.content, src.offset));
      Joined(ScanLines(codec, acc, lines), GoodRecs(codec, lines), atCursor, allowReset)
  }

  function ScanFiles(codec: Codec, start: Acc, files: seq<Src>, continuation: bool, allowReset: bool): Acc {
    if files == [] then start
    else
      var n := |files| - 1;
      ScanFile(codec, ScanFiles(codec, start, files[..n], continuation, allowReset), files[n], n == 0 && continuation, allowReset)
  }

  function StartOf(cursor: Cursor, plan: Plan): Acc {
    Acc([], [], plan.problems, if plan.continuation then cursor.lastSeq else None)
  }

  /** What `_scan_new_records` returns; `prev` is its last `prev_seq`. */
  function Scanned(codec: Codec, crc: Crc, cursor: Cursor, base: string, snap: Snapshot, allowReset: bool): Acc {
    var plan := MakePlan(crc, cursor, base, snap);
    ScanFiles(codec, StartOf(cursor, plan), plan.files, plan.continuation, allowReset)
  }

  method CollectCandidates(dir: seq<DirEntry>, base: string) returns (cs: seq<Candidate>)
    ensures cs == Candidates(dir, base)
  {
    cs := [];
    for i := 0 to |dir|
      invariant cs == Candidates(dir[..i], base)
    {
      assert dir[..i + 1][..i] == dir[..i];
      var key := ArchiveKey(dir[i].name, base);
      if key.None? {
        continue;
      }
      if dir[i].file.None? {
        continue;
      }
      cs := cs + [Candidate(key.value, dir[i].name, dir[i].file.value)];
    }
    assert dir[..|dir|] == dir;
  }

  method ChooseFiles(crc: Crc, cursor: Cursor, base: string, snap: Snapshot) returns (plan: Plan)
    ensures plan == MakePlan(crc, cursor, base, snap)
  {
    var problems := [];
    var rotated := Moved(cursor, snap.current);
    if !rotated && cursor.tailCrc.Some? && cursor.offset > 0 {
      var file := snap.current.value;
      if !file.readable {
        problems := problems + [WalUnreadable];
      } else if TailCrc(crc, file.content, cursor.offset) != cursor.tailCrc {
        rotated := true;
      }
    }
    if !rotated {
      return Plan(CurrentSource(snap.current, cursor.offset), problems, true, []);
    }
    var cs := CollectCandidates(snap.dir, base);
    cs := Sort(cs);
    var matching := Matching(cs, cursor.ino);
    if |matching| != 1 {
      problems := problems + [ArchiveMissing];
      if snap.current.None? {
        problems := problems + [WalUnreadable];
      }
      return Plan(CurrentSource(snap.current, 0), problems, false, []);
    }
    var later := Later(cs, matching[0].key);
    return Plan([Src(matching[0].file, cursor.offset, true)] + Sources(later) + CurrentSource(snap.current, 0),
                problems, true, [matching[0].name] + Names(later));
  }

  /** The lines of one file. */
  method ReadLines(codec: Codec, before: Acc, lines: seq<bytes>) returns (acc: Acc, recs: seq<Rec>)
    ensures acc == ScanLines(codec, before, lines) && recs == GoodRecs(codec, lines)
  {
    acc, recs := before, [];
    for i := 0 to |lines|
      invariant acc.records == before.records + GoodRecs(codec, lines[..i]) && recs == GoodRecs(codec, lines[..i])
      invariant acc.lines == before.lines + RawLines(codec, lines[..i])
      invariant acc.problems == before.problems + Times(CorruptLines(codec, lines[..i]), RecordCorrupt)
      invariant acc.prev == before.prev
    {
      assert lines[..i + 1][..i] == lines[..i];
      var kind := codec.classify(lines[i]);
      if kind.Blank? {
        continue;
      }
      acc := acc.(lines := acc.lines + [lines[i]]);
      if kind.Corrupt? {
        acc := acc.(problems := acc.problems + [RecordCorrupt]);
        continue;
      }
      recs := recs + [kind.rec];
      acc := acc.(records := acc.records + [kind.rec]);
    }
    assert lines[..|lines|] == lines;
  }

  /** The sequence numbers of one file. */
  method CheckNumbers(before: Acc, recs: seq<Rec>, atCursor: bool, allowReset: bool) returns (acc: Acc)
    ensures acc == Joined(before, recs, atCursor, allowReset)
  {
    acc := before;
    if recs == [] {
      return;
    }
    var first := recs[0].seqNo;
    var problems := before.problems;
    if before.prev.Some? {
      var prev := before.prev.value;
      if atCursor {
        if first <= prev {
          problems := problems + [SeqRegressed];
        }
      } else if allowReset && first == 1 {
      } else if first == prev + 1 {
      } else if first > prev + 1 {
        problems := problems + [IntermediateArchiveMissing];
      } else {
        problems := problems + [SeqDiscontinuous];
      }
    }
    ghost var joined := problems;
    for i := 1 to |recs|
      invariant problems == joined + Times(Regressions(recs[..i]), SeqRegressed)
    {
      assert recs[..i + 1][..i] == recs[..i];
      if recs[i].seqNo <= recs[i - 1].seqNo {
        problems := problems + [SeqRegressed];
      }
    }
    assert recs[..|recs|] == recs;
    acc := before.(problems := problems, prev := Some(recs[|recs| - 1].seqNo));
  }

  /** `_scan_new_records`. */
  method Scan(codec: Codec, crc: Crc, cursor: Cursor, base: string, snap: Snapshot, allowReset: bool)
    returns (acc: Acc, archives: seq<string>)
    ensures acc == Scanned(codec, crc, cursor, base, snap, allowReset)
    ensures archives == MakePlan(crc, cursor, base, snap).archives
  {
    var plan := ChooseFiles(crc, cursor, base, snap);
    archives := plan.archives;
    var files := plan.files;
    acc := StartOf(cursor, plan);
    for idx := 0 to |files|
      invariant acc == ScanFiles(codec, StartOf(cursor, plan), files[..idx], plan.continuation, allowReset)
    {
      assert files[..idx + 1][..idx] == files[..idx];
      var src := files[idx];
      if !src.file.readable {
        acc := acc.(problems := acc.problems + [if src.isArchive then ArchiveUnreadable else WalUnreadable]);
        continue;
      }
      var recs;
      acc, recs := ReadLines(codec, acc, Lines(ReadTail(src.file.content, src.offset)));
      acc := CheckNumbers(acc, recs, idx == 0 && plan.continuation, allowReset);
    }
    assert files[..|files|] == files;
  }
}
