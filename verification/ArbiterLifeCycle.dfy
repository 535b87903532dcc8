/**
 The life of a command record: which status changes each step makes, and which records
 eviction may take.
 */
module ArbiterLifeCycle {
  import opened Wrappers
  import opened Admission
  import opened ArbiterCore
  import opened Scheduling
  import opened ArbiterWorld
  import opened ArbiterInvariant
  import opened ArbiterReachable

  ghost predicate InSend(w: World, e: nat, c: CmdId) {
    e in w.sched.epochs && EpochAt(w, e).phase == Sending(c)
  }

  /** The status changes step `step` may make to the record of `c`, and the only ones. */
  ghost predicate Transition(w: World, step: Step, c: CmdId, s: Status, t: Status) {
    s == t ||
    match (s, t)
    case (Accepted, Running) =>
      step.LockStart? && step.epoch in w.sched.epochs && EpochAt(w, step.epoch).phase == Checked(c)
    case (Accepted, Error) =>
      (step.Flush? || step.Unregister?) && c in w.core.commands && step.session == w.core.commands[c].session
    case (Accepted, Canceled) => step.Cancel? && step.cmd == c
    case (Running, Done) => step.SendReturn? && InSend(w, step.epoch, c)
    case (Running, Interactive) => step.SendReturn? && InSend(w, step.epoch, c)
    case (Running, Error) => (step.SendReturn? || step.SendRaise?) && InSend(w, step.epoch, c)
    case (Running, Canceled) => step.Cancel? && step.cmd == c
    case (Interactive, Canceled) => step.Cancel? && step.cmd == c
    case (Canceled, Error) => step.SendRaise? && InSend(w, step.epoch, c)
    case _ => false
  }

  /** A step that finishes `c`, and so may evict it in the same critical section. */
  ghost predicate Finishes(w: World, step: Step, c: CmdId) {
    (step.Cancel? && step.cmd == c) || ((step.SendReturn? || step.SendRaise?) && InSend(w, step.epoch, c))
  }

  /** What one step does to the record of `c`: it appears accepted, changes, stays or is evicted. */
  ghost predicate RecordStep(w: World, step: Step, v: World, c: CmdId) {
    && (c in v.core.commands && c !in w.core.commands ==>
          && step.LockSubmit? && c in w.sched.loc && w.sched.loc[c] == Submitted(step.call)
          && v.core.commands[c].status == Accepted)
    && (c in v.core.commands && c in w.core.commands ==>
          var r, r' := w.core.commands[c], v.core.commands[c];
          && Transition(w, step, c, r.status, r'.status)
          && (r.doneAt.Some? ==> r'.doneAt.Some?)
          && (r.status == Accepted && r'.status == Error ==> r'.errorCode == Some(step.code))
          && r'.session == r.session && r'.order == r.order)
    && (c in w.core.commands && c !in v.core.commands ==>
          && (w.core.commands[c].doneAt.Some? || Finishes(w, step, c))
          && c !in v.core.running.Values)
  }

  /** Eviction after a step: it takes finished records only. */
  lemma EvictedStep(w: World, step: Step, b: Core, v: World, c: CmdId)
    requires RecordStep(w, step, w.(core := b), c) && Kept(b, v.core)
    requires c in w.core.commands ==> c in b.commands
    requires c in b.commands && b.commands[c].doneAt.Some? ==> c in w.core.commands
    requires c in w.core.commands && b.commands[c].doneAt.Some? && w.core.commands[c].doneAt.None? ==> Finishes(w, step, c)
    ensures RecordStep(w, step, v, c)
  {
  }

  lemma InsertedRecord(w: World, i: nat, b: Core, c: CmdId)
    requires i in w.sched.calls && w.sched.calls[i].AtLock?
    requires CmdOk(w.sched, w.sched.calls[i].cmd) && RecOk(w.core, w.sched, w.sched.calls[i].cmd)
    requires b == Inserted(w.core, w.sched.calls[i].session, w.sched.calls[i].cmd, w.sched.calls[i].ticket)
    ensures RecordStep(w, LockSubmit(i), w.(core := b), c)
  {
  }

  lemma LockSubmitRecord(w: World, i: nat, c: CmdId)
    requires StateInv(w) && i in w.sched.calls && w.sched.calls[i].AtLock?
    ensures RecordStep(w, LockSubmit(i), AfterLockSubmit(w, i), c)
  {
    var AtLock(s, d, _, ticket) := w.sched.calls[i];
    if s in w.core.queues && Pending(w.core, s) < PENDING_MAX {
      assert CmdOk(w.sched, d) && RecOk(w.core, w.sched, d);
      AcceptedRecord(w, i, c);
    } else {
      RejectedRecord(w, i, c);
    }
  }

  lemma RejectedRecord(w: World, i: nat, c: CmdId)
    requires i in w.sched.calls && w.sched.calls[i].AtLock?
    requires !(w.sched.calls[i].session in w.core.queues && Pending(w.core, w.sched.calls[i].session) < PENDING_MAX)
    ensures RecordStep(w, LockSubmit(i), AfterLockSubmit(w, i), c)
  {
    assert AfterLockSubmit(w, i).core.commands == w.core.commands;
  }

  lemma AcceptedRecord(w: World, i: nat, c: CmdId)
    requires i in w.sched.calls && w.sched.calls[i].AtLock?
    requires w.sched.calls[i].session in w.core.queues && Pending(w.core, w.sched.calls[i].session) < PENDING_MAX
    requires CmdOk(w.sched, w.sched.calls[i].cmd) && RecOk(w.core, w.sched, w.sched.calls[i].cmd)
    ensures RecordStep(w, LockSubmit(i), AfterLockSubmit(w, i), c)
  {
    var AtLock(s, d, _, ticket) := w.sched.calls[i];
    var b := Inserted(w.core, s, d, ticket);
    InsertedRecord(w, i, b, c);
    EvictKeeps(b);
    EvictedStep(w, LockSubmit(i), b, AfterLockSubmit(w, i), c);
  }

  lemma FlushRecord(w: World, step: Step, v: World, s: Session, code: string, now: int, c: CmdId)
    requires step.Flush? || step.Unregister?
    requires step.session == s && step.code == code
    requires v.core.commands == Flushing(w.core, s, code, now).commands
    ensures RecordStep(w, step, v, c)
  {
  }

  lemma LockStartRecord(w: World, e: nat, now: int, c: CmdId)
    requires StateInv(w) && e in w.sched.epochs && EpochAt(w, e).phase.Checked?
    ensures RecordStep(w, LockStart(e, now), AfterLockStart(w, e, now), c)
  {
    var d := EpochAt(w, e).phase.cmd;
    assert CmdOk(w.sched, d) && RecOk(w.core, w.sched, d);
  }

  lemma CanceledRecord(w: World, d: CmdId, now: int, b: Core, c: CmdId)
    requires d in w.core.commands && w.core.commands[d].status !in {Done, Error}
    requires b.commands == MarkCanceled(w.core, d, now).commands
    ensures RecordStep(w, Cancel(d, now), w.(core := b), c)
  {
  }

  lemma CancelRecord(w: World, d: CmdId, now: int, c: CmdId)
    requires StateInv(w)
    ensures RecordStep(w, Cancel(d, now), AfterCancel(w, d, now), c)
  {
    if d in w.core.commands && w.core.commands[d].status !in {Done, Error} {
      var b := Release(MarkCanceled(w.core, d, now), if w.core.commands[d].status == Accepted then {d} else {});
      EvictKeeps(b);
      CanceledRecord(w, d, now, b, c);
      EvictedStep(w, Cancel(d, now), b, AfterCancel(w, d, now), c);
    }
  }

  /** A returned send, before eviction. */
  lemma ReturnedRecord(w: World, e: nat, result: SendResult, now: int, c: CmdId)
    requires e in w.sched.epochs && EpochAt(w, e).phase.Sending?
    requires RecOk(w.core, w.sched, EpochAt(w, e).phase.cmd) && CmdOk(w.sched, EpochAt(w, e).phase.cmd)
    ensures var d := EpochAt(w, e).phase.cmd;
      var b := Release(ClearRunning(MarkReturned(w.core, d, result, now), EpochAt(w, e).session, d), {d});
      RecordStep(w, SendReturn(e, result, now), w.(core := b), c)
  {
  }

  lemma FailedRecord(w: World, e: nat, now: int, c: CmdId)
    requires e in w.sched.epochs && EpochAt(w, e).phase.Sending?
    requires RecOk(w.core, w.sched, EpochAt(w, e).phase.cmd) && CmdOk(w.sched, EpochAt(w, e).phase.cmd)
    ensures var d := EpochAt(w, e).phase.cmd;
      var b := Release(ClearRunning(MarkFailed(w.core, d, now), EpochAt(w, e).session, d), {d});
      RecordStep(w, SendRaise(e, now), w.(core := b), c)
  {
  }

  lemma SendReturnRecord(w: World, e: nat, result: SendResult, now: int, c: CmdId)
    requires StateInv(w) && e in w.sched.epochs && EpochAt(w, e).phase.Sending?
    ensures RecordStep(w, SendReturn(e, result, now), AfterSendReturn(w, e, result, now), c)
  {
    var d := EpochAt(w, e).phase.cmd;
    assert CmdOk(w.sched, d) && RecOk(w.core, w.sched, d);
    var b := Release(ClearRunning(MarkReturned(w.core, d, result, now), EpochAt(w, e).session, d), {d});
    ReturnedRecord(w, e, result, now, c);
    EvictKeeps(ClearRunning(MarkReturned(w.core, d, result, now), EpochAt(w, e).session, d));
    EvictedStep(w, SendReturn(e, result, now), b, AfterSendReturn(w, e, result, now), c);
  }

  lemma SendRaiseRecord(w: World, e: nat, now: int, c: CmdId)
    requires StateInv(w) && e in w.sched.epochs && EpochAt(w, e).phase.Sending?
    ensures RecordStep(w, SendRaise(e, now), AfterSendRaise(w, e, now), c)
  {
    var d := EpochAt(w, e).phase.cmd;
    assert CmdOk(w.sched, d) && RecOk(w.core, w.sched, d);
    var b := Release(ClearRunning(MarkFailed(w.core, d, now), EpochAt(w, e).session, d), {d});
    FailedRecord(w, e, now, c);
    EvictKeeps(ClearRunning(MarkFailed(w.core, d, now), EpochAt(w, e).session, d));
    EvictedStep(w, SendRaise(e, now), b, AfterSendRaise(w, e, now), c);
  }

  predicate LeavesRecords(step: Step) {
    !step.LockSubmit? && !step.Flush? && !step.Unregister? && !step.LockStart? && !step.Cancel?
    && !step.SendReturn? && !step.SendRaise?
  }

  lemma OthersKeepRecords(w: World, step: Step)
    requires Enabled(w, step) && LeavesRecords(step)
    ensures Next(w, step).core.commands == w.core.commands
  {
  }

  /** Every step of every thread moves every record along its life cycle. */
  lemma LifeCycle(w: World, step: Step, c: CmdId)
    requires StateInv(w) && Enabled(w, step)
    ensures RecordStep(w, step, Next(w, step), c)
  {
    if LeavesRecords(step) {
      OthersKeepRecords(w, step);
    } else if step.LockSubmit? {
      LockSubmitRecord(w, step.call, c);
    } else if step.LockStart? {
      LockStartRecord(w, step.epoch, step.now, c);
    } else if step.Cancel? {
      CancelRecord(w, step.cmd, step.now, c);
    } else if step.SendReturn? {
      SendReturnRecord(w, step.epoch, step.result, step.now, c);
    } else if step.SendRaise? {
      SendRaiseRecord(w, step.epoch, step.now, c);
    } else {
      FlushRecord(w, step, Next(w, step), step.session, step.code, step.now, c);
    }
  }

  /** An evicted record is no younger than any evictable record that is kept. */
  lemma EvictsOldestFirst(a: Core, c: CmdId, d: CmdId)
    requires c in a.commands && c !in Evict(a).commands
    requires d in Evict(a).commands && d in Evictable(a.commands, a.running.Values)
    ensures a.commands[c].doneAt.Some? && a.commands[c].doneAt.value <= a.commands[d].doneAt.value
  {
    assert c in Victims(a.commands, a.running.Values);
  }

  /** Eviction goes as far as the limit asks, unless too few records may be evicted. */
  lemma EvictsEnough(a: Core)
    ensures |Evict(a).commands| ==
      if |a.commands| <= HISTORY_MAX then |a.commands|
      else HISTORY_MAX + (if |Evictable(a.commands, a.running.Values)| < |a.commands| - HISTORY_MAX
                          then |a.commands| - HISTORY_MAX - |Evictable(a.commands, a.running.Values)| else 0)
  {
    var victims := Victims(a.commands, a.running.Values);
    assert Evict(a).commands.Keys == a.commands.Keys - victims;
    assert |a.commands.Keys - victims| == |a.commands| - |victims|;
  }
}
