/**
 The files of a rotated write-ahead log as realhw/wal_oracle.py sees them: lines, archive names
 and their order, and reading from an offset.
 */
module WalFiles {
  import opened Wrappers
  import opened Bytes
  import opened Text

  datatype Rec = Rec(seqNo: int, dir: string, cmdId: Option<string>, payload: bytes)

  datatype LineKind = Blank | Corrupt | Good(rec: Rec)

  /** `classify` is decoding, JSON and `verify_record` of one line; `format` is what the writer puts there. */
  datatype Codec = Codec(classify: bytes -> LineKind, format: Rec -> bytes)

  const NEWLINE: byte := 10

  ghost predicate CodecOk(codec: Codec) {
    forall r :: codec.classify(codec.format(r)) == Good(r) && NEWLINE !in codec.format(r)
  }

  // ---- lines ----

  /** The first newline, or the length of the data. */
  function FindNewline(data: bytes): (n: nat)
    ensures n <= |data| && NEWLINE !in data[..n]
    ensures n < |data| ==> data[n] == NEWLINE
  {
    if data == [] || data[0] == NEWLINE then 0 else FindNewline(data[1..]) + 1
  }

  /** The lines that are complete; what follows the last newline is left out. */
  function Lines(data: bytes): seq<bytes>
    decreases |data|
  {
    var n := FindNewline(data);
    if n == |data| then [] else [data[..n]] + Lines(data[n + 1..])
  }

  function GoodRecs(codec: Codec, lines: seq<bytes>): seq<Rec> {
    if lines == [] then []
    else
      var rest := GoodRecs(codec, lines[..|lines| - 1]);
      var kind := codec.classify(lines[|lines| - 1]);
      if kind.Good? then rest + [kind.rec] else rest
  }

  function RawLines(codec: Codec, lines: seq<bytes>): seq<bytes> {
    if lines == [] then []
    else
      var rest := RawLines(codec, lines[..|lines| - 1]);
      if codec.classify(lines[|lines| - 1]).Blank? then rest else rest + [lines[|lines| - 1]]
  }

  function CorruptLines(codec: Codec, lines: seq<bytes>): nat {
    if lines == [] then 0
    else CorruptLines(codec, lines[..|lines| - 1]) + if codec.classify(lines[|lines| - 1]).Corrupt? then 1 else 0
  }

  /** Records as the writer puts them into a file. */
  function Written(codec: Codec, recs: seq<Rec>): bytes {
    if recs == [] then [] else codec.format(recs[0]) + [NEWLINE] + Written(codec, recs[1..])
  }

  function Printed(codec: Codec, recs: seq<Rec>): seq<bytes> {
    seq(|recs|, i requires 0 <= i < |recs| => codec.format(recs[i]))
  }

  lemma {:induction false} WrittenAppend(codec: Codec, a: seq<Rec>, b: seq<Rec>)
    ensures Written(codec, a + b) == Written(codec, a) + Written(codec, b)
  {
    if a == [] {
      assert a + b == b;
    } else {
      WrittenAppend(codec, a[1..], b);
      assert (a + b)[1..] == a[1..] + b;
    }
  }

  lemma {:induction false} NewlineAt(line: bytes, rest: bytes)
    requires NEWLINE !in line
    ensures FindNewline(line + [NEWLINE] + rest) == |line|
  {
    if line != [] {
      assert line[0] in line && forall c :: c in line[1..] ==> c in line;
      NewlineAt(line[1..], rest);
      assert (line + [NEWLINE] + rest)[1..] == line[1..] + [NEWLINE] + rest;
    }
  }

  lemma FirstLine(line: bytes, rest: bytes)
    requires NEWLINE !in line
    ensures Lines(line + [NEWLINE] + rest) == [line] + Lines(rest)
  {
    var data := line + [NEWLINE] + rest;
    NewlineAt(line, rest);
    assert data[..|line|] == line && data[|line| + 1..] == rest;
  }

  /** Splitting what was written gives back the printed records. */
  lemma {:induction false} LinesOfWritten(codec: Codec, recs: seq<Rec>)
    requires CodecOk(codec)
    ensures Lines(Written(codec, recs)) == Printed(codec, recs)
  {
    if recs == [] {
      assert FindNewline([]) == 0;
    } else {
      LinesOfWritten(codec, recs[1..]);
      assert codec.classify(codec.format(recs[0])) == Good(recs[0]);
      FirstLine(codec.format(recs[0]), Written(codec, recs[1..]));
      assert Printed(codec, recs) == [codec.format(recs[0])] + Printed(codec, recs[1..]);
    }
  }

  lemma {:induction false} GoodRecsOfPrinted(codec: Codec, recs: seq<Rec>)
    requires CodecOk(codec)
    ensures GoodRecs(codec, Printed(codec, recs)) == recs
    ensures CorruptLines(codec, Printed(codec, recs)) == 0
  {
    if recs != [] {
      var n := |recs| - 1;
      GoodRecsOfPrinted(codec, recs[..n]);
      assert Printed(codec, recs)[..n] == Printed(codec, recs[..n]);
      assert codec.classify(codec.format(recs[n])) == Good(recs[n]);
      assert recs[..n] + [recs[n]] == recs;
    }
  }

  /** Reading back what was written gives the records, and nothing corrupt. */
  lemma ReadBack(codec: Codec, recs: seq<Rec>)
    requires CodecOk(codec)
    ensures GoodRecs(codec, Lines(Written(codec, recs))) == recs
    ensures CorruptLines(codec, Lines(Written(codec, recs))) == 0
  {
    LinesOfWritten(codec, recs);
    GoodRecsOfPrinted(codec, recs);
  }

  // ---- reading from an offset ----

  /** `seek` and `read`: nothing past the end. */
  function Drop(data: bytes, n: nat): bytes {
    if n <= |data| then data[n..] else []
  }

  /** What follows the offset, less the rest of a line that was begun before it. */
  function ReadTail(data: bytes, offset: nat): bytes {
    if offset == 0 then data
    else
      var rest := Drop(data, offset - 1);
      if rest != [] && rest[0] == NEWLINE then rest[1..]
      else
        var n := FindNewline(rest);
        if n == |rest| then [] else rest[n + 1..]
  }

  lemma EndsInNewline(codec: Codec, recs: seq<Rec>)
    requires recs != []
    ensures Written(codec, recs) != [] && Written(codec, recs)[|Written(codec, recs)| - 1] == NEWLINE
  {
    var n := |recs| - 1;
    WrittenAppend(codec, recs[..n], [recs[n]]);
    assert recs[..n] + [recs[n]] == recs;
    assert Written(codec, [recs[n]]) == codec.format(recs[n]) + [NEWLINE] + Written(codec, []);
  }

  /** From the end of written records, exactly what was written after them is read. */
  lemma TailAtBoundary(codec: Codec, before: seq<Rec>, after: seq<Rec>)
    ensures ReadTail(Written(codec, before + after), |Written(codec, before)|) == Written(codec, after)
  {
    var seen, more := Written(codec, before), Written(codec, after);
    WrittenAppend(codec, before, after);
    if before != [] {
      EndsInNewline(codec, before);
      assert (seen + more)[|seen| - 1..] == [NEWLINE] + more;
    }
  }

  /** From any offset whatever, reading starts at the beginning of a record. */
  lemma {:induction false} TailAligns(codec: Codec, recs: seq<Rec>, offset: nat) returns (k: nat)
    requires CodecOk(codec)
    ensures k <= |recs| && ReadTail(Written(codec, recs), offset) == Written(codec, recs[k..])
    decreases |recs|
  {
    var data := Written(codec, recs);
    if offset == 0 {
      k := 0;
    } else if recs == [] {
      k := 0;
    } else {
      var line, rest := codec.format(recs[0]), Written(codec, recs[1..]);
      assert codec.classify(line) == Good(recs[0]);
      if offset <= |line| + 1 {
        k := 1;
        TailInFirstLine(line, rest, offset);
      } else {
        var k' := TailAligns(codec, recs[1..], offset - |line| - 1);
        k := k' + 1;
        TailPastFirstLine(line, rest, offset);
        assert recs[1..][k'..] == recs[k..];
      }
    }
  }

  lemma TailInFirstLine(line: bytes, rest: bytes, offset: nat)
    requires NEWLINE !in line && 0 < offset <= |line| + 1
    ensures ReadTail(line + [NEWLINE] + rest, offset) == rest
  {
    var data := line + [NEWLINE] + rest;
    var cut := line[offset - 1..];
    assert data[offset - 1..] == cut + [NEWLINE] + rest;
    assert forall c :: c in cut ==> c in line;
    NewlineAt(cut, rest);
    assert (cut + [NEWLINE] + rest)[|cut| + 1..] == rest;
  }

  lemma TailPastFirstLine(line: bytes, rest: bytes, offset: nat)
    requires offset > |line| + 1
    ensures ReadTail(line + [NEWLINE] + rest, offset) == ReadTail(rest, offset - |line| - 1)
  {
    var data := line + [NEWLINE] + rest;
    assert offset - 1 <= |data| ==> data[offset - 1..] == rest[offset - |line| - 2..];
  }

  // ---- archive names ----

  /** The timestamp of an archive's name and the number after it. */
  datatype Key = Key(stamp: string, number: nat)

  predicate IsDigits(s: string) {
    forall i :: 0 <= i < |s| ==> '0' <= s[i] <= '9'
  }

  function ToNumber(s: string): nat
    requires IsDigits(s)
  {
    if s == "" then 0
    else ToNumber(s[..|s| - 1]) * 10 + (s[|s| - 1] as int - '0' as int)
  }

  /** `YYYYMMDD-HHMMSS`, or the same with `.` and a number. */
  function ParseSuffix(s: string): Option<Key> {
    if |s| < 15 || !IsDigits(s[..8]) || s[8] != '-' || !IsDigits(s[9..15]) then None
    else if |s| == 15 then Some(Key(s, 0))
    else if |s| > 16 && s[15] == '.' && IsDigits(s[16..]) then Some(Key(s[..15], ToNumber(s[16..])))
    else None
  }

  function ArchiveKey(entry: string, base: string): Option<Key> {
    if StartsWith(entry, base + ".") then ParseSuffix(entry[|base| + 1..]) else None
  }

  predicate StrLess(a: string, b: string) {
    b != "" && (a == "" || a[0] < b[0] || (a[0] == b[0] && StrLess(a[1..], b[1..])))
  }

  /** By timestamp, then by number: `.2` comes before `.10`. */
  predicate KeyLess(a: Key, b: Key) {
    StrLess(a.stamp, b.stamp) || (a.stamp == b.stamp && a.number < b.number)
  }

  lemma {:induction false} StrLessTransitive(a: string, b: string, c: string)
    requires StrLess(a, b) && StrLess(b, c)
    ensures StrLess(a, c)
  {
    if a != "" && a[0] == b[0] == c[0] {
      StrLessTransitive(a[1..], b[1..], c[1..]);
    }
  }

  lemma {:induction false} StrLessTotal(a: string, b: string)
    ensures (if StrLess(a, b) then 1 else 0) + (if StrLess(b, a) then 1 else 0) + (if a == b then 1 else 0) == 1
  {
    if a != "" && b != "" && a[0] == b[0] {
      StrLessTotal(a[1..], b[1..]);
      assert a == [a[0]] + a[1..] && b == [b[0]] + b[1..];
    }
  }

  lemma KeyLessTransitive(a: Key, b: Key, c: Key)
    requires KeyLess(a, b) && KeyLess(b, c)
    ensures KeyLess(a, c)
  {
    if StrLess(a.stamp, b.stamp) && StrLess(b.stamp, c.stamp) {
      StrLessTransitive(a.stamp, b.stamp, c.stamp);
    }
  }

  /** Of two keys exactly one of less, greater and equal holds. */
  lemma KeyLessTotal(a: Key, b: Key)
    ensures (if KeyLess(a, b) then 1 else 0) + (if KeyLess(b, a) then 1 else 0) + (if a == b then 1 else 0) == 1
  {
    StrLessTotal(a.stamp, b.stamp);
  }

  // ---- a directory ----

  datatype File = File(ino: nat, content: bytes, readable: bool)

  /** An entry of the log's directory; `None` if it cannot be examined. */
  datatype DirEntry = DirEntry(name: string, file: Option<File>)

  /** What one scan sees: the file under the log's own name and the directory. */
  datatype Snapshot = Snapshot(current: Option<File>, dir: seq<DirEntry>)

  datatype Candidate = Candidate(key: Key, name: string, file: File)

  function CandidateOf(e: DirEntry, base: string): Option<Candidate> {
    var key := ArchiveKey(e.name, base);
    if key.None? || e.file.None? then None else Some(Candidate(key.value, e.name, e.file.value))
  }

  function Candidates(dir: seq<DirEntry>, base: string): seq<Candidate> {
    if dir == [] then []
    else
      var rest := Candidates(dir[..|dir| - 1], base);
      var c := CandidateOf(dir[|dir| - 1], base);
      if c.None? then rest else rest + [c.value]
  }

  predicate CandidateLess(a: Candidate, b: Candidate) {
    KeyLess(a.key, b.key) || (a.key == b.key && StrLess(a.name, b.name))
  }

  function Insert(c: Candidate, sorted: seq<Candidate>): seq<Candidate> {
    if sorted == [] || CandidateLess(c, sorted[0]) then [c] + sorted else [sorted[0]] + Insert(c, sorted[1..])
  }

  function Sort(cs: seq<Candidate>): seq<Candidate> {
    if cs == [] then [] else Insert(cs[0], Sort(cs[1..]))
  }

  /** Keys strictly ascending. */
  ghost predicate Ascending(cs: seq<Candidate>) {
    forall i, j :: 0 <= i < j < |cs| ==> KeyLess(cs[i].key, cs[j].key)
  }

  ghost predicate DistinctKeys(cs: seq<Candidate>) {
    forall i, j :: 0 <= i < j < |cs| ==> cs[i].key != cs[j].key
  }

  lemma {:induction false} InsertKeeps(c: Candidate, s: seq<Candidate>)
    requires Ascending(s) && forall d :: d in s ==> d.key != c.key
    ensures Ascending(Insert(c, s))
    ensures forall d :: d in Insert(c, s) <==> d == c || d in s
  {
    if s != [] {
      assert s[0] in s;
      KeyLessTotal(c.key, s[0].key);
      if KeyLess(c.key, s[0].key) {
        forall j | 0 < j < |s|
          ensures KeyLess(c.key, s[j].key)
        {
          KeyLessTransitive(c.key, s[0].key, s[j].key);
        }
      } else {
        assert forall d :: d in s[1..] ==> d in s;
        InsertKeeps(c, s[1..]);
        var rest := Insert(c, s[1..]);
        forall j | 0 <= j < |rest|
          ensures KeyLess(s[0].key, rest[j].key)
        {
          assert rest[j] in rest;
        }
        assert forall d :: d in s <==> d == s[0] || d in s[1..];
      }
    }
  }

  lemma {:induction false} SortSorts(cs: seq<Candidate>)
    requires DistinctKeys(cs)
    ensures Ascending(Sort(cs))
    ensures forall d :: d in Sort(cs) <==> d in cs
  {
    if cs != [] {
      SortSorts(cs[1..]);
      forall d | d in Sort(cs[1..])
        ensures d.key != cs[0].key
      {
        var j :| 0 <= j < |cs[1..]| && cs[1..][j] == d;
        assert cs[j + 1] == d;
      }
      InsertKeeps(cs[0], Sort(cs[1..]));
      assert forall d :: d in cs <==> d == cs[0] || d in cs[1..];
    }
  }

  /** There is one ascending order. */
  lemma {:induction false} AscendingUnique(s: seq<Candidate>, t: seq<Candidate>)
    requires Ascending(s) && Ascending(t) && forall d :: d in s <==> d in t
    ensures s == t
  {
    assert t == [] || t[0] in t;
    if s != [] {
      assert s[0] in s;
      HeadsAgree(s, t);
      HeadOnce(s);
      HeadOnce(t);
      AscendingUnique(s[1..], t[1..]);
      assert s == [s[0]] + s[1..] && t == [t[0]] + t[1..];
    }
  }

  lemma HeadOnce(s: seq<Candidate>)
    requires s != [] && Ascending(s)
    ensures Ascending(s[1..]) && forall d :: d in s[1..] <==> d in s && d != s[0]
  {
    KeyLessTotal(s[0].key, s[0].key);
    forall d | d in s
      ensures d == s[0] || d in s[1..]
    {
      var i :| 0 <= i < |s| && s[i] == d;
      if i > 0 {
        assert s[1..][i - 1] == d;
      }
    }
    forall d | d in s[1..]
      ensures d in s && d != s[0]
    {
      var i :| 0 <= i < |s[1..]| && s[1..][i] == d;
      assert s[i + 1] == d;
      assert KeyLess(s[0].key, s[i + 1].key);
    }
  }

  lemma HeadsAgree(s: seq<Candidate>, t: seq<Candidate>)
    requires s != [] && Ascending(s) && Ascending(t) && forall d :: d in s <==> d in t
    ensures t != [] && s[0] == t[0]
  {
    assert s[0] in s;
    var i :| 0 <= i < |t| && t[i] == s[0];
    assert t[0] in t;
    var j :| 0 <= j < |s| && s[j] == t[0];
    KeyLessTotal(s[0].key, t[0].key);
  }
}
