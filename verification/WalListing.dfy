/**
 From a directory listing in any order to the files that a scan reads, in the order they were made.
 */
module WalListing {
  import opened Wrappers
  import opened Bytes
  import opened WalFiles
  import opened WalOracle
  import opened WalWriter

  /** A file as a reader finds it. */
  function Found(h: Held): File {
    File(h.ino, h.content, true)
  }

  // ---- listing the archives ----

  function AsCandidate(base: string, a: Held): Candidate
    requires ArchiveKey(a.name, base).Some?
  {
    Candidate(ArchiveKey(a.name, base).value, a.name, Found(a))
  }

  function AsCandidates(base: string, archives: seq<Held>): seq<Candidate>
    requires forall a :: a in archives ==> ArchiveKey(a.name, base).Some?
  {
    seq(|archives|, i requires 0 <= i < |archives| => AsCandidate(base, archives[i]))
  }

  /** The directory, in any order, holds the archives and whatever else is not an archive. */
  ghost predicate Lists(dir: seq<DirEntry>, base: string, archives: seq<Held>) {
    && (forall i, j :: 0 <= i < j < |dir| ==> dir[i].name != dir[j].name)
    && (forall a :: a in archives ==> DirEntry(a.name, Some(Found(a))) in dir)
    && (forall e :: e in dir && ArchiveKey(e.name, base).Some? ==>
          exists a :: a in archives && e == DirEntry(a.name, Some(Found(a))))
  }

  lemma {:induction false} CandidatesHas(dir: seq<DirEntry>, base: string, d: Candidate)
    ensures d in Candidates(dir, base) <==> exists e :: e in dir && CandidateOf(e, base) == Some(d)
  {
    if dir != [] {
      var n := |dir| - 1;
      CandidatesHas(dir[..n], base, d);
      assert forall e :: e in dir <==> e in dir[..n] || e == dir[n];
    }
  }

  lemma {:induction false} CandidatesDistinct(dir: seq<DirEntry>, base: string)
    requires forall i, j :: 0 <= i < j < |dir| ==> DifferentKeys(dir[i], dir[j], base)
    ensures DistinctKeys(Candidates(dir, base))
  {
    if dir != [] {
      var n := |dir| - 1;
      CandidatesDistinct(dir[..n], base);
      var c := CandidateOf(dir[n], base);
      if c.Some? {
        forall i | 0 <= i < |Candidates(dir[..n], base)|
          ensures Candidates(dir[..n], base)[i].key != c.value.key
        {
          var d := Candidates(dir[..n], base)[i];
          CandidatesHas(dir[..n], base, d);
          var e :| e in dir[..n] && CandidateOf(e, base) == Some(d);
          var j :| 0 <= j < n && dir[..n][j] == e;
          assert DifferentKeys(dir[j], dir[n], base);
        }
      }
    }
  }

  predicate DifferentKeys(e: DirEntry, f: DirEntry, base: string) {
    CandidateOf(e, base).Some? && CandidateOf(f, base).Some? ==> CandidateOf(e, base).value.key != CandidateOf(f, base).value.key
  }

  /** Sorting what the directory lists gives the archives in the order they were made. */
  lemma SortsToArchives(codec: Codec, base: string, w: Wal, dir: seq<DirEntry>)
    requires WalInv(codec, base, w) && Lists(dir, base, w.archives)
    ensures Sort(Candidates(dir, base)) == AsCandidates(base, w.archives)
  {
    var cs, want := Candidates(dir, base), AsCandidates(base, w.archives);
    forall i, j | 0 <= i < j < |dir|
      ensures DifferentKeys(dir[i], dir[j], base)
    {
      ListedKeys(codec, base, w, dir, i, j);
    }
    CandidatesDistinct(dir, base);
    SortSorts(cs);
    forall i, j | 0 <= i < j < |want|
      ensures KeyLess(want[i].key, want[j].key)
    {
      assert BeforeKey(w.archives[i].name, w.archives[j].name, base);
    }
    forall d
      ensures d in cs <==> d in want
    {
      CandidatesHas(dir, base, d);
      ListedArchives(codec, base, w, dir, d);
    }
    AscendingUnique(Sort(cs), want);
  }

  lemma ListedArchives(codec: Codec, base: string, w: Wal, dir: seq<DirEntry>, d: Candidate)
    requires WalInv(codec, base, w) && Lists(dir, base, w.archives)
    ensures (exists e :: e in dir && CandidateOf(e, base) == Some(d)) <==> d in AsCandidates(base, w.archives)
  {
    if e :| e in dir && CandidateOf(e, base) == Some(d) {
      var a :| a in w.archives && e == DirEntry(a.name, Some(Found(a)));
      ArchiveIsCandidate(base, w.archives, a);
    }
    if d in AsCandidates(base, w.archives) {
      var a := ArchiveOf(base, w.archives, d);
      assert CandidateOf(DirEntry(a.name, Some(Found(a))), base) == Some(d);
    }
  }

  lemma ArchiveIsCandidate(base: string, archives: seq<Held>, a: Held)
    requires forall b :: b in archives ==> ArchiveKey(b.name, base).Some?
    requires a in archives
    ensures AsCandidate(base, a) in AsCandidates(base, archives)
  {
    var i :| 0 <= i < |archives| && archives[i] == a;
    assert AsCandidates(base, archives)[i] == AsCandidate(base, a);
  }

  lemma ArchiveOf(base: string, archives: seq<Held>, d: Candidate) returns (a: Held)
    requires forall b :: b in archives ==> ArchiveKey(b.name, base).Some?
    requires d in AsCandidates(base, archives)
    ensures a in archives && d == AsCandidate(base, a)
  {
    var i :| 0 <= i < |archives| && AsCandidates(base, archives)[i] == d;
    a := archives[i];
  }

  lemma ListedKeys(codec: Codec, base: string, w: Wal, dir: seq<DirEntry>, i: nat, j: nat)
    requires WalInv(codec, base, w) && Lists(dir, base, w.archives) && i < j < |dir|
    ensures DifferentKeys(dir[i], dir[j], base)
  {
    if CandidateOf(dir[i], base).Some? && CandidateOf(dir[j], base).Some? {
      assert dir[i] in dir && dir[j] in dir;
      var a :| a in w.archives && dir[i] == DirEntry(a.name, Some(Found(a)));
      var b :| b in w.archives && dir[j] == DirEntry(b.name, Some(Found(b)));
      ArchivesDiffer(codec, base, w, a, b);
    }
  }

  lemma ArchivesDiffer(codec: Codec, base: string, w: Wal, a: Held, b: Held)
    requires WalInv(codec, base, w) && a in w.archives && b in w.archives && a.name != b.name
    ensures ArchiveKey(a.name, base) != ArchiveKey(b.name, base)
  {
    var x :| 0 <= x < |w.archives| && w.archives[x] == a;
    var y :| 0 <= y < |w.archives| && w.archives[y] == b;
    var key := ArchiveKey(a.name, base).value;
    KeyLessTotal(key, key);
    if x < y {
      assert BeforeKey(w.archives[x].name, w.archives[y].name, base);
    } else {
      assert BeforeKey(w.archives[y].name, w.archives[x].name, base);
    }
  }

  // ---- choosing the files ----

  lemma {:induction false} MatchesOne(cs: seq<Candidate>, ino: nat, k: nat)
    requires k < |cs| && forall i :: 0 <= i < |cs| ==> (cs[i].file.ino == ino <==> i == k)
    ensures Matching(cs, ino) == [cs[k]]
  {
    var n := |cs| - 1;
    if k == n {
      MatchesNone(cs[..n], ino);
    } else {
      MatchesOne(cs[..n], ino, k);
    }
  }

  lemma {:induction false} MatchesNone(cs: seq<Candidate>, ino: nat)
    requires forall i :: 0 <= i < |cs| ==> cs[i].file.ino != ino
    ensures Matching(cs, ino) == []
  {
    if cs != [] {
      MatchesNone(cs[..|cs| - 1], ino);
    }
  }

  lemma NotLess(a: Key, b: Key)
    requires a == b || KeyLess(b, a)
    ensures !KeyLess(a, b)
  {
    KeyLessTotal(a, b);
  }

  lemma {:induction false} LaterIsRest(cs: seq<Candidate>, k: nat, n: nat)
    requires Ascending(cs) && k < |cs| && n <= |cs|
    ensures Later(cs[..n], cs[k].key) == if k < n then cs[k + 1..n] else []
  {
    if n > 0 {
      LaterIsRest(cs, k, n - 1);
      assert cs[..n][..n - 1] == cs[..n - 1];
      if k < n - 1 {
        assert KeyLess(cs[k].key, cs[n - 1].key);
        assert cs[k + 1..n] == cs[k + 1..n - 1] + [cs[n - 1]];
      } else {
        NotLess(cs[k].key, cs[n - 1].key);
      }
    }
  }

  /** The files of a chain of archives and the current file, the first read from an offset. */
  function ChainSources(w: Wal, k: nat, offset: nat): seq<Src>
    requires k <= |w.archives|
  {
    seq(|Chain(w, k)|, i requires 0 <= i < |Chain(w, k)| =>
      Src(Found(Chain(w, k)[i]), if i == 0 then offset else 0, i < |w.archives| - k))
  }

  /** Once the cursor's file is an archive, the files read are it, those after it, and the current one. */
  lemma RotatedPlan(codec: Codec, base: string, w: Wal, cursor: Cursor, dir: seq<DirEntry>, current: Option<File>, k: nat)
    requires WalInv(codec, base, w) && Lists(dir, base, w.archives)
    requires current == if w.current.Some? then Some(Found(w.current.value)) else None
    requires k < |w.archives| && w.archives[k].ino == cursor.ino
    ensures var plan := PlanRotated(cursor, Sort(Candidates(dir, base)), current, []);
      plan.files == ChainSources(w, k, cursor.offset) && plan.problems == [] && plan.continuation
  {
    var cs := AsCandidates(base, w.archives);
    SortsToArchives(codec, base, w, dir);
    forall i | 0 <= i < |cs|
      ensures cs[i].file.ino == cursor.ino <==> i == k
    {
      if i < k {
        assert w.archives[i].ino != w.archives[k].ino;
      }
      if k < i {
        assert w.archives[k].ino != w.archives[i].ino;
      }
    }
    MatchesOne(cs, cursor.ino, k);
    forall i, j | 0 <= i < j < |cs|
      ensures KeyLess(cs[i].key, cs[j].key)
    {
      assert BeforeKey(w.archives[i].name, w.archives[j].name, base);
    }
    LaterIsRest(cs, k, |cs|);
    assert cs[..|cs|] == cs;
    ChainIsPlan(base, w, k, cursor.offset, current);
  }

  lemma ChainIsPlan(base: string, w: Wal, k: nat, offset: nat, current: Option<File>)
    requires forall a :: a in w.archives ==> ArchiveKey(a.name, base).Some?
    requires k < |w.archives|
    requires current == if w.current.Some? then Some(Found(w.current.value)) else None
    ensures var cs := AsCandidates(base, w.archives);
      [Src(cs[k].file, offset, true)] + Sources(cs[k + 1..]) + CurrentSource(current, 0) == ChainSources(w, k, offset)
  {
    var cs := AsCandidates(base, w.archives);
    var left := [Src(cs[k].file, offset, true)] + Sources(cs[k + 1..]) + CurrentSource(current, 0);
    var right := ChainSources(w, k, offset);
    assert |left| == |right|;
    forall i | 0 <= i < |left|
      ensures left[i] == right[i]
    {
      if 0 < i < |w.archives| - k {
        assert left[i] == Sources(cs[k + 1..])[i - 1];
        assert cs[k + 1..][i - 1] == cs[k + i];
      }
    }
  }
}
