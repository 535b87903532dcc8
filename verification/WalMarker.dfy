/**
 Waiting for a marker (`wait_for_marker` of realhw/wal_oracle.py): the log is scanned again and
 again, and a verdict is given only when the evidence is complete.
 */
module WalMarker {
  import opened Wrappers
  import opened Bytes
  import opened WalFiles
  import opened WalOracle

  datatype Reason =
    | Fine
    | Unreadable
    | Corrupted
    | MarkerNotFound
    | Regressed
    | Discontinuous
    | EvidenceIncomplete

  datatype Verdict = Verdict(ok: bool, reason: Reason, matched: Option<Rec>, lines: seq<bytes>)

  datatype Category = Environment | Test

  function CategoryOf(reason: Reason): Category {
    if reason in {Unreadable, EvidenceIncomplete} then Environment else Test
  }

  predicate StartsAt(payload: bytes, marker: bytes, i: nat) {
    i + |marker| <= |payload| && payload[i..i + |marker|] == marker
  }

  predicate OccursIn(payload: bytes, marker: bytes) {
    exists i :: 0 <= i <= |payload| && StartsAt(payload, marker, i)
  }

  predicate IsMatch(rec: Rec, marker: bytes, cmdId: Option<string>) {
    OccursIn(rec.payload, marker) && if cmdId.Some? then rec.dir == "TX" && rec.cmdId == cmdId else rec.dir == "RX"
  }

  /** The first match. */
  function FirstMatch(recs: seq<Rec>, marker: bytes, cmdId: Option<string>): (r: Option<nat>)
    ensures r.None? ==> forall i :: 0 <= i < |recs| ==> !IsMatch(recs[i], marker, cmdId)
    ensures r.Some? ==> r.value < |recs| && IsMatch(recs[r.value], marker, cmdId)
    ensures r.Some? ==> forall i :: 0 <= i < r.value ==> !IsMatch(recs[i], marker, cmdId)
  {
    if recs == [] then None
    else if IsMatch(recs[0], marker, cmdId) then Some(0)
    else
      var rest := FirstMatch(recs[1..], marker, cmdId);
      if rest.None? then None else Some(rest.value + 1)
  }

  const EVIDENCE_LINES := 200

  function Evidence(acc: Acc): seq<bytes> {
    acc.lines[..Min(|acc.lines|, EVIDENCE_LINES)]
  }

  function Fail(acc: Acc, reason: Reason): Verdict {
    Verdict(false, reason, None, Evidence(acc))
  }

  /** What one scan decides; `None` means that it is worth looking again. */
  function Decide(acc: Acc, marker: bytes, cmdId: Option<string>): Option<Verdict> {
    var found := FirstMatch(acc.records, marker, cmdId);
    if RecordCorrupt in acc.problems then Some(Fail(acc, Corrupted))
    else if SeqRegressed in acc.problems then Some(Fail(acc, Regressed))
    else if SeqDiscontinuous in acc.problems then Some(Fail(acc, Discontinuous))
    else if found.None? || WalUnreadable in acc.problems || ArchiveUnreadable in acc.problems then None
    else if ArchiveMissing in acc.problems || IntermediateArchiveMissing in acc.problems then Some(Fail(acc, EvidenceIncomplete))
    else Some(Verdict(true, Fine, Some(acc.records[found.value]), Evidence(acc)))
  }

  function TimedOut(acc: Acc): Verdict {
    if WalUnreadable in acc.problems then Fail(acc, Unreadable)
    else if ArchiveMissing in acc.problems || IntermediateArchiveMissing in acc.problems || ArchiveUnreadable in acc.problems then
      Fail(acc, EvidenceIncomplete)
    else Fail(acc, MarkerNotFound)
  }

  /** The polls of one wait: the scans they make and the time passed when each is over. */
  datatype Polls = Polls(scans: nat -> Acc, elapsed: nat -> int, timeout: int)

  /** The clock passes the timeout by poll `last` at the latest. */
  predicate RunsOut(polls: Polls, last: nat) {
    polls.elapsed(last) >= polls.timeout
  }

  function WaitFrom(polls: Polls, last: nat, i: nat, marker: bytes, cmdId: Option<string>): Verdict
    requires RunsOut(polls, last) && i <= last
    decreases last - i
  {
    var decided := Decide(polls.scans(i), marker, cmdId);
    if decided.Some? then decided.value
    else if polls.elapsed(i) >= polls.timeout then TimedOut(polls.scans(i))
    else WaitFrom(polls, last, i + 1, marker, cmdId)
  }

  /** `wait_for_marker`. */
  method WaitForMarker(polls: Polls, ghost last: nat, marker: bytes, cmdId: Option<string>) returns (r: Verdict)
    requires RunsOut(polls, last)
    ensures r == WaitFrom(polls, last, 0, marker, cmdId)
  {
    var i := 0;
    while true
      invariant i <= last && WaitFrom(polls, last, i, marker, cmdId) == WaitFrom(polls, last, 0, marker, cmdId)
      decreases last - i
    {
      var acc := polls.scans(i);
      if RecordCorrupt in acc.problems {
        return Fail(acc, Corrupted);
      }
      if SeqRegressed in acc.problems {
        return Fail(acc, Regressed);
      }
      if SeqDiscontinuous in acc.problems {
        return Fail(acc, Discontinuous);
      }
      var found := FindMatch(acc.records, marker, cmdId);
      var transient := WalUnreadable in acc.problems || ArchiveUnreadable in acc.problems;
      if found.Some? && !transient {
        if ArchiveMissing in acc.problems || IntermediateArchiveMissing in acc.problems {
          return Fail(acc, EvidenceIncomplete);
        }
        return Verdict(true, Fine, Some(acc.records[found.value]), Evidence(acc));
      }
      if polls.elapsed(i) >= polls.timeout {
        return TimedOut(acc);
      }
      i := i + 1;
    }
  }

  method FindMatch(recs: seq<Rec>, marker: bytes, cmdId: Option<string>) returns (r: Option<nat>)
    ensures r == FirstMatch(recs, marker, cmdId)
  {
    for i := 0 to |recs|
      invariant forall k :: 0 <= k < i ==> !IsMatch(recs[k], marker, cmdId)
    {
      if IsMatch(recs[i], marker, cmdId) {
        return Some(i);
      }
    }
    return None;
  }

  lemma KindOf(p: Problem)
    ensures p in {WalUnreadable, ArchiveUnreadable, ArchiveMissing, IntermediateArchiveMissing, RecordCorrupt, SeqRegressed, SeqDiscontinuous}
  {
    match p
    case WalUnreadable =>
    case ArchiveUnreadable =>
    case ArchiveMissing =>
    case IntermediateArchiveMissing =>
    case RecordCorrupt =>
    case SeqRegressed =>
    case SeqDiscontinuous =>
  }

  /** A scan is accepted exactly when it has a match and no problem at all, of whatever kind. */
  lemma OkExactly(acc: Acc, marker: bytes, cmdId: Option<string>)
    ensures (exists v :: Decide(acc, marker, cmdId) == Some(v) && v.ok)
       <==> acc.problems == [] && exists i :: 0 <= i < |acc.records| && IsMatch(acc.records[i], marker, cmdId)
  {
    var decided := Decide(acc, marker, cmdId);
    if acc.problems != [] {
      var p := acc.problems[0];
      assert p in acc.problems;
      assert p == WalUnreadable || p == ArchiveUnreadable || p == ArchiveMissing || p == IntermediateArchiveMissing
          || p == RecordCorrupt || p == SeqRegressed || p == SeqDiscontinuous by { KindOf(p); }
      assert decided.Some? ==> !decided.value.ok;
    } else if FirstMatch(acc.records, marker, cmdId).Some? {
      assert decided == Some(decided.value) && decided.value.ok;
    }
  }

  /** The wait says ok only on a scan without problems, and names the first match in it. */
  lemma {:induction false} OkRestsOnEvidence(polls: Polls, last: nat, i: nat, marker: bytes, cmdId: Option<string>) returns (j: nat)
    requires RunsOut(polls, last) && i <= last
    requires WaitFrom(polls, last, i, marker, cmdId).ok
    ensures i <= j <= last && polls.scans(j).problems == []
    ensures var found := FirstMatch(polls.scans(j).records, marker, cmdId);
      found.Some? && WaitFrom(polls, last, i, marker, cmdId).matched == Some(polls.scans(j).records[found.value])
    ensures forall k :: i <= k < j ==> Decide(polls.scans(k), marker, cmdId).None? && polls.elapsed(k) < polls.timeout
    decreases last - i
  {
    var acc := polls.scans(i);
    OkExactly(acc, marker, cmdId);
    if Decide(acc, marker, cmdId).Some? {
      assert Decide(acc, marker, cmdId) == Some(WaitFrom(polls, last, i, marker, cmdId));
      j := i;
    } else {
      j := OkRestsOnEvidence(polls, last, i + 1, marker, cmdId);
    }
  }

  /** A marker that a clean scan finds in time is reported, if no earlier scan was found broken. */
  lemma {:induction false} CleanScanSuffices(polls: Polls, last: nat, i: nat, j: nat, marker: bytes, cmdId: Option<string>)
    requires RunsOut(polls, last) && i <= j <= last
    requires forall k :: i <= k < j ==> Decide(polls.scans(k), marker, cmdId).None? && polls.elapsed(k) < polls.timeout
    requires polls.scans(j).problems == [] && FirstMatch(polls.scans(j).records, marker, cmdId).Some?
    ensures WaitFrom(polls, last, i, marker, cmdId).ok
    decreases j - i
  {
    if i < j {
      CleanScanSuffices(polls, last, i + 1, j, marker, cmdId);
    }
  }

  /** A failure blamed on the environment is one where evidence could not be read or is missing. */
  lemma {:induction false} EnvironmentMeansNoEvidence(polls: Polls, last: nat, i: nat, marker: bytes, cmdId: Option<string>) returns (j: nat)
    requires RunsOut(polls, last) && i <= last
    requires CategoryOf(WaitFrom(polls, last, i, marker, cmdId).reason).Environment?
    ensures i <= j <= last
    ensures exists p :: p in polls.scans(j).problems && p in {WalUnreadable, ArchiveUnreadable, ArchiveMissing, IntermediateArchiveMissing}
    decreases last - i
  {
    var acc := polls.scans(i);
    if Decide(acc, marker, cmdId).Some? || polls.elapsed(i) >= polls.timeout {
      j := i;
      assert WalUnreadable in acc.problems || ArchiveUnreadable in acc.problems || ArchiveMissing in acc.problems
          || IntermediateArchiveMissing in acc.problems;
    } else {
      j := EnvironmentMeansNoEvidence(polls, last, i + 1, marker, cmdId);
    }
  }
}
