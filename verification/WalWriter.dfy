/**
 The writer that realhw/wal_oracle.py watches: it appends whole records with consecutive numbers,
 rotates by renaming to a larger archive name, and may delete archives. Inode numbers are unique
 among the files that exist, and may be used again for later ones.
 */
module WalWriter {
  import opened Wrappers
  import opened Bytes
  import opened WalFiles

  /** A file of the log; `id` counts files as they are created, `from..to` is its part of the log. */
  datatype Held = Held(name: string, id: nat, ino: nat, content: bytes, from: nat, to: nat)

  datatype Wal = Wal(log: seq<Rec>, archives: seq<Held>, current: Option<Held>, created: nat)

  datatype WriterStep =
    | Append(rec: Rec)
    | Rename(name: string)
    | Create(ino: nat)
    | Delete(index: nat)

  predicate CanTake(base: string, w: Wal, step: WriterStep) {
    match step
    case Append(rec) => w.current.Some? && (w.log != [] ==> rec.seqNo == w.log[|w.log| - 1].seqNo + 1)
    case Rename(name) =>
      && w.current.Some? && ArchiveKey(name, base).Some?
      && forall a :: a in w.archives ==> BeforeKey(a.name, name, base)
    case Create(ino) => w.current.None? && forall a :: a in w.archives ==> a.ino != ino
    case Delete(index) => index < |w.archives|
  }

  predicate BeforeKey(a: string, b: string, base: string) {
    && ArchiveKey(a, base).Some? && ArchiveKey(b, base).Some?
    && KeyLess(ArchiveKey(a, base).value, ArchiveKey(b, base).value)
  }

  function Extended(codec: Codec, h: Held, rec: Rec): Held {
    h.(content := h.content + codec.format(rec) + [NEWLINE], to := h.to + 1)
  }

  function Take(codec: Codec, base: string, w: Wal, step: WriterStep): Wal
    requires CanTake(base, w, step)
  {
    match step
    case Append(rec) => w.(log := w.log + [rec], current := Some(Extended(codec, w.current.value, rec)))
    case Rename(name) => w.(archives := w.archives + [w.current.value.(name := name)], current := None)
    case Create(ino) => w.(current := Some(Held(base, w.created, ino, [], |w.log|, |w.log|)), created := w.created + 1)
    case Delete(index) => w.(archives := w.archives[..index] + w.archives[index + 1..])
  }

  ghost predicate IsWriterRun(codec: Codec, base: string, w: Wal, steps: seq<WriterStep>)
    decreases |steps|
  {
    steps == [] || (CanTake(base, w, steps[0]) && IsWriterRun(codec, base, Take(codec, base, w, steps[0]), steps[1..]))
  }

  ghost function After(codec: Codec, base: string, w: Wal, steps: seq<WriterStep>): Wal
    requires IsWriterRun(codec, base, w, steps)
    decreases |steps|
  {
    if steps == [] then w else After(codec, base, Take(codec, base, w, steps[0]), steps[1..])
  }

  // ---- what every run keeps ----

  ghost predicate Consecutive(log: seq<Rec>) {
    forall i :: 0 <= i < |log| ==> log[i].seqNo == log[0].seqNo + i
  }

  ghost predicate HeldOk(codec: Codec, log: seq<Rec>, h: Held) {
    h.from <= h.to <= |log| && h.content == Written(codec, log[h.from..h.to])
  }

  ghost predicate WalInv(codec: Codec, base: string, w: Wal) {
    && Consecutive(w.log)
    && (forall a :: a in w.archives ==> HeldOk(codec, w.log, a) && a.id < w.created)
    && (w.current.Some? ==> HeldOk(codec, w.log, w.current.value) && w.current.value.to == |w.log|)
    && (w.current.Some? ==> w.current.value.id < w.created)
    && (forall i, j :: 0 <= i < j < |w.archives| ==> BeforeKey(w.archives[i].name, w.archives[j].name, base))
    && (forall a :: a in w.archives ==> ArchiveKey(a.name, base).Some?)
    && (forall i, j :: 0 <= i < j < |w.archives| ==> w.archives[i].ino != w.archives[j].ino)
    && (w.current.Some? ==> forall a :: a in w.archives ==> a.ino != w.current.value.ino)
  }

  lemma HeldGrows(codec: Codec, log: seq<Rec>, rec: Rec, h: Held)
    requires HeldOk(codec, log, h)
    ensures HeldOk(codec, log + [rec], h)
  {
    assert (log + [rec])[h.from..h.to] == log[h.from..h.to];
  }

  lemma HeldExtends(codec: Codec, log: seq<Rec>, rec: Rec, h: Held)
    requires HeldOk(codec, log, h) && h.to == |log|
    ensures HeldOk(codec, log + [rec], Extended(codec, h, rec))
  {
    var part := log[h.from..h.to];
    WrittenAppend(codec, part, [rec]);
    assert Written(codec, [rec]) == codec.format(rec) + [NEWLINE] + Written(codec, []);
    assert (log + [rec])[h.from..h.to + 1] == part + [rec];
    assert h.content + (codec.format(rec) + [NEWLINE]) == h.content + codec.format(rec) + [NEWLINE];
  }

  lemma StepKeepsInv(codec: Codec, base: string, w: Wal, step: WriterStep)
    requires WalInv(codec, base, w) && CanTake(base, w, step)
    ensures WalInv(codec, base, Take(codec, base, w, step))
  {
    var v := Take(codec, base, w, step);
    if step.Append? {
      forall a | a in w.archives
        ensures HeldOk(codec, v.log, a)
      {
        HeldGrows(codec, w.log, step.rec, a);
      }
      HeldExtends(codec, w.log, step.rec, w.current.value);
    } else if step.Rename? {
      RenameKeepsInv(codec, base, w, step.name);
    } else if step.Create? {
      assert w.log[|w.log|..|w.log|] == [];
    } else {
      assert forall a :: a in v.archives ==> a in w.archives;
    }
  }

  lemma RenameKeepsInv(codec: Codec, base: string, w: Wal, name: string)
    requires WalInv(codec, base, w) && CanTake(base, w, Rename(name))
    ensures WalInv(codec, base, Take(codec, base, w, Rename(name)))
  {
    var v := Take(codec, base, w, Rename(name));
    var n := |w.archives|;
    forall i, j | 0 <= i < j < |v.archives|
      ensures BeforeKey(v.archives[i].name, v.archives[j].name, base) && v.archives[i].ino != v.archives[j].ino
    {
      assert v.archives[i] == w.archives[i] && w.archives[i] in w.archives;
      if j < n {
        assert v.archives[j] == w.archives[j];
      }
    }
  }

  /** In every run every file holds a stretch of the log, in whole records. */
  lemma {:induction false} RunKeepsInv(codec: Codec, base: string, w: Wal, steps: seq<WriterStep>)
    requires WalInv(codec, base, w) && IsWriterRun(codec, base, w, steps)
    ensures WalInv(codec, base, After(codec, base, w, steps))
    ensures w.log <= After(codec, base, w, steps).log
    decreases |steps|
  {
    if steps != [] {
      StepKeepsInv(codec, base, w, steps[0]);
      RunKeepsInv(codec, base, Take(codec, base, w, steps[0]), steps[1..]);
    }
  }

  // ---- what follows a mark in the log ----

  /** The file that was current when a cursor was opened, and how much of it there was. */
  datatype Mark = Mark(id: nat, ino: nat, from: nat, at: nat)

  function MarkOf(w: Wal): Mark
    requires w.current.Some?
  {
    Mark(w.current.value.id, w.current.value.ino, w.current.value.from, |w.log|)
  }

  /** The files from the `k`th archive on. */
  function Chain(w: Wal, k: nat): seq<Held>
    requires k <= |w.archives|
  {
    w.archives[k..] + if w.current.Some? then [w.current.value] else []
  }

  /** The marked file heads a chain of files that together hold everything since, without a gap. */
  ghost predicate Tracks(w: Wal, m: Mark, k: nat) {
    && k <= |w.archives|
    && var chain := Chain(w, k);
    && chain != []
    && chain[0].id == m.id && chain[0].ino == m.ino && chain[0].from == m.from <= m.at <= chain[0].to
    && (forall i :: 0 <= i < |chain| - 1 ==> chain[i].to == chain[i + 1].from)
    && chain[|chain| - 1].to == |w.log|
    && (forall i :: 0 <= i < |chain| ==> chain[i].id >= m.id)
  }

  /** A step that deletes, if anything, a file older than the marked one. */
  predicate Spares(w: Wal, m: Mark, step: WriterStep) {
    step.Delete? && step.index < |w.archives| ==> w.archives[step.index].id < m.id
  }

  ghost predicate SparingRun(codec: Codec, base: string, w: Wal, m: Mark, steps: seq<WriterStep>)
    requires IsWriterRun(codec, base, w, steps)
    decreases |steps|
  {
    steps == [] || (Spares(w, m, steps[0]) && SparingRun(codec, base, Take(codec, base, w, steps[0]), m, steps[1..]))
  }

  lemma AppendTracks(codec: Codec, base: string, w: Wal, m: Mark, k: nat, rec: Rec)
    requires Tracks(w, m, k) && CanTake(base, w, Append(rec))
    requires w.current.value.to == |w.log|
    ensures Tracks(Take(codec, base, w, Append(rec)), m, k)
  {
    var v := Take(codec, base, w, Append(rec));
    var chain := Chain(w, k);
    assert Chain(v, k) == chain[..|chain| - 1] + [Extended(codec, w.current.value, rec)];
  }

  lemma RenameTracks(codec: Codec, base: string, w: Wal, m: Mark, k: nat, name: string)
    requires Tracks(w, m, k) && CanTake(base, w, Rename(name))
    ensures Tracks(Take(codec, base, w, Rename(name)), m, k)
  {
    var v := Take(codec, base, w, Rename(name));
    var chain := Chain(w, k);
    assert Chain(v, k) == chain[..|chain| - 1] + [w.current.value.(name := name)];
  }

  lemma CreateTracks(codec: Codec, base: string, w: Wal, m: Mark, k: nat, ino: nat)
    requires Tracks(w, m, k) && CanTake(base, w, Create(ino))
    requires forall a :: a in w.archives ==> a.id < w.created
    ensures Tracks(Take(codec, base, w, Create(ino)), m, k)
  {
    var v := Take(codec, base, w, Create(ino));
    var chain := Chain(w, k);
    assert chain == w.archives[k..];
    assert chain[0] == w.archives[k] && w.archives[k] in w.archives;
    assert Chain(v, k) == chain + [v.current.value];
  }

  lemma ChainIds(w: Wal, m: Mark, k: nat, i: nat)
    requires Tracks(w, m, k) && k <= i < |w.archives|
    ensures w.archives[i].id >= m.id
  {
    assert Chain(w, k)[i - k] == w.archives[i];
  }

  lemma DeleteTracks(codec: Codec, base: string, w: Wal, m: Mark, k: nat, index: nat)
    requires Tracks(w, m, k) && CanTake(base, w, Delete(index)) && Spares(w, m, Delete(index))
    ensures k > 0 && Tracks(Take(codec, base, w, Delete(index)), m, k - 1)
  {
    var v := Take(codec, base, w, Delete(index));
    var chain := Chain(w, k);
    if index >= k {
      ChainIds(w, m, k, index);
    }
    assert v.archives[k - 1..] == w.archives[k..];
    assert Chain(v, k - 1) == chain;
  }

  lemma StepTracks(codec: Codec, base: string, w: Wal, m: Mark, k: nat, step: WriterStep) returns (k': nat)
    requires WalInv(codec, base, w) && Tracks(w, m, k) && CanTake(base, w, step) && Spares(w, m, step)
    ensures Tracks(Take(codec, base, w, step), m, k')
  {
    k' := if step.Delete? then if k > 0 then k - 1 else 0 else k;
    match step
    case Append(rec) => AppendTracks(codec, base, w, m, k, rec);
    case Rename(name) => RenameTracks(codec, base, w, m, k, name);
    case Create(ino) => CreateTracks(codec, base, w, m, k, ino);
    case Delete(index) => DeleteTracks(codec, base, w, m, k, index);
  }

  /** However often the log is rotated, nothing since the mark is lost. */
  lemma {:induction false} RunTracks(codec: Codec, base: string, w: Wal, m: Mark, k: nat, steps: seq<WriterStep>) returns (k': nat)
    requires WalInv(codec, base, w) && Tracks(w, m, k)
    requires IsWriterRun(codec, base, w, steps) && SparingRun(codec, base, w, m, steps)
    ensures Tracks(After(codec, base, w, steps), m, k')
    decreases |steps|
  {
    if steps == [] {
      k' := k;
    } else {
      StepKeepsInv(codec, base, w, steps[0]);
      var next := StepTracks(codec, base, w, m, k, steps[0]);
      k' := RunTracks(codec, base, Take(codec, base, w, steps[0]), m, next, steps[1..]);
    }
  }

  lemma TracksFromStart(codec: Codec, base: string, w: Wal)
    requires WalInv(codec, base, w) && w.current.Some?
    ensures Tracks(w, MarkOf(w), |w.archives|)
  {
    assert Chain(w, |w.archives|) == [w.current.value];
  }
}
