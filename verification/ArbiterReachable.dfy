/**
 The invariant of `ArbiterInvariant` holds in every state of every run.
 */
module ArbiterReachable {
  import opened Wrappers
  import opened Admission
  import opened ArbiterCore
  import opened Scheduling
  import opened ArbiterWorld
  import opened ArbiterInvariant

  ghost predicate StateInv(w: World) {
    SchedInv(w.sched) && CoreInv(w.core, w.sched, w.flushed + w.early)
  }

  lemma AcceptCore(a: Core, sc: Sched, ended: set<CmdId>, i: nat)
    requires SchedInv(sc) && CoreInv(a, sc, ended) && i in sc.calls && sc.calls[i].AtLock? && sc.calls[i].session in a.queues
    ensures var AtLock(s, c, _, ticket) := sc.calls[i];
      CoreInv(Evict(Inserted(a, s, c, ticket)), AcceptCall(sc, i, a.queues[s], a.counter + 1), ended)
  {
    var AtLock(s, c, _, ticket) := sc.calls[i];
    InsertInv(a, sc, ended, i);
    EvictInv(Inserted(a, s, c, ticket), AcceptCall(sc, i, a.queues[s], a.counter + 1), ended);
  }

  lemma EvictInv(a: Core, sc: Sched, ended: set<CmdId>)
    requires CoreInv(a, sc, ended)
    ensures CoreInv(Evict(a), sc, ended)
  {
    EvictKeeps(a);
    KeptInv(a, Evict(a), sc, ended);
  }

  lemma AcceptState(w: World, i: nat)
    requires StateInv(w) && i in w.sched.calls && w.sched.calls[i].AtLock? && w.sched.calls[i].session in w.core.queues
    ensures var AtLock(s, c, _, ticket) := w.sched.calls[i];
      var sd := AcceptCall(w.sched, i, w.core.queues[s], w.core.counter + 1);
      SchedInv(sd) && CoreInv(Evict(Inserted(w.core, s, c, ticket)), sd, w.flushed + w.early)
  {
    AcceptCallKeeps(w.sched, i, w.core.queues[w.sched.calls[i].session], w.core.counter + 1);
    AcceptCore(w.core, w.sched, w.flushed + w.early, i);
  }

  lemma RejectState(w: World, i: nat)
    requires StateInv(w) && i in w.sched.calls && w.sched.calls[i].AtLock?
    ensures SchedInv(RejectCall(w.sched, i))
    ensures CoreInv(Discard(w.core, w.sched.calls[i].ticket), RejectCall(w.sched, i), w.flushed + w.early)
  {
    RejectCallKeeps(w.sched, i);
    RejectInv(w.core, w.sched, w.flushed + w.early, i);
    SameRecordsInv(w.core, Discard(w.core, w.sched.calls[i].ticket), RejectCall(w.sched, i), w.flushed + w.early);
  }

  lemma LockSubmitState(w: World, i: nat)
    requires StateInv(w) && i in w.sched.calls && w.sched.calls[i].AtLock?
    ensures StateInv(AfterLockSubmit(w, i))
  {
    LockSubmitParts(w, i);
    var AtLock(s, c, _, ticket) := w.sched.calls[i];
    if Submitting(w.core, s, c, ticket).1.Enqueue? {
      AcceptState(w, i);
    } else {
      RejectState(w, i);
    }
  }

  lemma BeginSubmitState(w: World, i: nat, c: CmdId, s: Session, p: int, com: string, exemption: bool)
    requires StateInv(w) && i !in w.sched.calls && c !in w.sched.loc
    ensures StateInv(AfterBeginSubmit(w, i, c, s, p, com, exemption))
  {
    var v := AfterBeginSubmit(w, i, c, s, p, com, exemption);
    if v != w {
      var call := v.sched.calls[i];
      BeginCallKeeps(w.sched, i, call);
      BeginInv(w.core, w.sched, w.flushed + w.early, i, call);
      SameRecordsInv(w.core, v.core, v.sched, w.flushed + w.early);
    }
  }

  lemma PutSubmitState(w: World, i: nat)
    requires StateInv(w) && i in w.sched.calls && w.sched.calls[i].AtPut?
    ensures StateInv(AfterPutSubmit(w, i))
  {
    PutItemKeeps(w.sched, i);
    assert CmdOk(w.sched, w.sched.calls[i].item.cmd.value);
    MoveInv(w.core, w.sched, PutItem(w.sched, i), w.flushed + w.early);
  }

  lemma RegisterState(w: World, s: Session, e: nat)
    requires StateInv(w) && e !in w.sched.epochs
    ensures StateInv(AfterRegister(w, s, e))
  {
    if s !in w.core.queues {
      OpenEpochKeeps(w.sched, s, e);
      RegisterInv(w.core, w.sched, w.flushed + w.early, s, e);
    }
  }

  lemma UnregisterState(w: World, s: Session, code: string, now: int)
    requires StateInv(w)
    ensures StateInv(AfterUnregister(w, s, code, now))
  {
    if s in w.core.queues {
      SetClosingKeeps(w.sched, w.core.queues[s], Popped);
    }
    UnregisterInv(w.core, w.sched, w.flushed + w.early, s, code, now);
    var more := FlushSet(w.core.commands, s);
    assert (w.flushed + more) + w.early == w.flushed + w.early + more;
  }

  lemma FlushState(w: World, s: Session, code: string, now: int)
    requires StateInv(w)
    ensures StateInv(AfterFlush(w, s, code, now))
  {
    FlushInv(w.core, w.sched, w.flushed + w.early, s, code, now);
    var more := FlushSet(w.core.commands, s);
    assert (w.flushed + more) + w.early == w.flushed + w.early + more;
  }

  lemma SetStopState(w: World, e: nat)
    requires StateInv(w) && e in w.sched.epochs && EpochAt(w, e).closing.Popped?
    ensures StateInv(w.(sched := SetClosing(w.sched, e, StopSet)))
  {
    SetClosingKeeps(w.sched, e, StopSet);
    MoveInv(w.core, w.sched, SetClosing(w.sched, e, StopSet), w.flushed + w.early);
  }

  lemma PutSentinelState(w: World, e: nat)
    requires StateInv(w) && e in w.sched.epochs && EpochAt(w, e).closing.StopSet?
    ensures StateInv(w.(sched := PutSentinelIn(w.sched, e)))
  {
    PutSentinelInKeeps(w.sched, e);
    MoveInv(w.core, w.sched, PutSentinelIn(w.sched, e), w.flushed + w.early);
  }

  lemma DequeueState(w: World, e: nat, item: Item)
    requires StateInv(w) && e in w.sched.epochs && EpochAt(w, e).phase.Polling? && item in EpochAt(w, e).queue
    ensures StateInv(w.(sched := TakeItem(w.sched, e, item)))
  {
    TakeItemKeeps(w.sched, e, item);
    if item.cmd.Some? {
      assert CmdOk(w.sched, item.cmd.value);
    }
    MoveInv(w.core, w.sched, TakeItem(w.sched, e, item), w.flushed + w.early);
  }

  lemma CheckStopState(w: World, e: nat)
    requires StateInv(w) && e in w.sched.epochs && EpochAt(w, e).phase.Taken?
    ensures StateInv(w.(sched := CheckItem(w.sched, e)))
  {
    CheckItemKeeps(w.sched, e);
    var item := EpochAt(w, e).phase.item;
    if item.cmd.Some? {
      assert CmdOk(w.sched, item.cmd.value);
    }
    MoveInv(w.core, w.sched, CheckItem(w.sched, e), w.flushed + w.early);
  }

  lemma SendStartState(w: World, e: nat)
    requires StateInv(w) && e in w.sched.epochs && EpochAt(w, e).phase.Ready?
    ensures StateInv(w.(sched := SendItem(w.sched, e)))
  {
    SendItemKeeps(w.sched, e);
    assert CmdOk(w.sched, EpochAt(w, e).phase.cmd);
    MoveInv(w.core, w.sched, SendItem(w.sched, e), w.flushed + w.early);
  }

  lemma ExitWorkerState(w: World, e: nat)
    requires StateInv(w) && e in w.sched.epochs && EpochAt(w, e).phase.Polling? && EpochAt(w, e).Stopped()
    ensures StateInv(w.(sched := SetPhase(w.sched, e, Ended)))
  {
    ExitWorkerKeeps(w.sched, e);
    MoveInv(w.core, w.sched, SetPhase(w.sched, e, Ended), w.flushed + w.early);
  }

  lemma LockStartState(w: World, e: nat, now: int)
    requires StateInv(w) && e in w.sched.epochs && EpochAt(w, e).phase.Checked?
    ensures StateInv(AfterLockStart(w, e, now))
  {
    var c, s := EpochAt(w, e).phase.cmd, EpochAt(w, e).session;
    if MayStart(w.core, c) {
      StartItemKeeps(w.sched, e);
      StartInv(w.core, w.sched, w.flushed + w.early, e, now);
    } else {
      SkipItemKeeps(w.sched, e);
      SkipInv(w.core, w.sched, w.flushed + w.early, e);
      SameRecordsInv(w.core, Release(w.core, {c}), SkipItem(w.sched, e), w.flushed + w.early);
    }
  }

  /** The worker's closing section, given the record as the callback's outcome left it. */
  lemma FinishState(w: World, e: nat, b: Core)
    requires StateInv(w) && e in w.sched.epochs && EpochAt(w, e).phase.Sending?
    requires Finished(w.core, b, EpochAt(w, e).phase.cmd)
    ensures var s, c := EpochAt(w, e).session, EpochAt(w, e).phase.cmd;
      && SchedInv(FinishItem(w.sched, e))
      && CoreInv(Release(Evict(ClearRunning(b, s, c)), {c}), FinishItem(w.sched, e), w.flushed + w.early)
  {
    var s, c := EpochAt(w, e).session, EpochAt(w, e).phase.cmd;
    var b1 := ClearRunning(b, s, c);
    var b2 := Evict(b1);
    FinishItemKeeps(w.sched, e);
    FinishInv(w.core, b, w.sched, w.flushed + w.early, e);
    EvictKeeps(b1);
    KeptInv(b1, b2, FinishItem(w.sched, e), w.flushed + w.early);
    SameRecordsInv(b2, Release(b2, {c}), FinishItem(w.sched, e), w.flushed + w.early);
  }

  lemma SendReturnState(w: World, e: nat, result: SendResult, now: int)
    requires StateInv(w) && e in w.sched.epochs && EpochAt(w, e).phase.Sending?
    ensures StateInv(AfterSendReturn(w, e, result, now))
  {
    var c := EpochAt(w, e).phase.cmd;
    assert RecOk(w.core, w.sched, c);
    FinishState(w, e, MarkReturned(w.core, c, result, now));
  }

  lemma SendRaiseState(w: World, e: nat, now: int)
    requires StateInv(w) && e in w.sched.epochs && EpochAt(w, e).phase.Sending?
    ensures StateInv(AfterSendRaise(w, e, now))
  {
    FinishState(w, e, MarkFailed(w.core, EpochAt(w, e).phase.cmd, now));
  }

  lemma CancelState(w: World, c: CmdId, now: int)
    requires StateInv(w)
    ensures StateInv(AfterCancel(w, c, now))
  {
    if c in w.core.commands && w.core.commands[c].status !in {Done, Error} {
      var accepted := w.core.commands[c].status == Accepted;
      var ended := if accepted then w.flushed + w.early + {c} else w.flushed + w.early;
      var b1 := MarkCanceled(w.core, c, now);
      var b2 := Release(b1, if accepted then {c} else {});
      CancelInv(w.core, w.sched, w.flushed + w.early, c, now);
      SameRecordsInv(b1, b2, w.sched, ended);
      EvictKeeps(b2);
      KeptInv(b2, Evict(b2), w.sched, ended);
      assert w.flushed + (w.early + {c}) == w.flushed + w.early + {c};
    }
  }

  /** Steps on callbacks and on the gate alone. */
  lemma OtherState(w: World, v: World)
    requires StateInv(w) && v.sched == w.sched && v.flushed == w.flushed && v.early == w.early
    requires v.core.queues == w.core.queues && v.core.commands == w.core.commands
    requires v.core.running == w.core.running && v.core.counter == w.core.counter
    ensures StateInv(v)
  {
    SameRecordsInv(w.core, v.core, w.sched, w.flushed + w.early);
  }

  predicate IsWorkers(step: Step) {
    step.Dequeue? || step.CheckStop? || step.LockStart? || step.SendStart? || step.SendReturn? || step.SendRaise? || step.ExitWorker?
  }

  lemma WorkerState(w: World, step: Step)
    requires StateInv(w) && Enabled(w, step) && IsWorkers(step)
    ensures StateInv(Next(w, step))
  {
    match step
    case Dequeue(e, item) => DequeueState(w, e, item);
    case CheckStop(e) => CheckStopState(w, e);
    case LockStart(e, now) => LockStartState(w, e, now);
    case SendStart(e) => SendStartState(w, e);
    case SendReturn(e, result, now) => SendReturnState(w, e, result, now);
    case SendRaise(e, now) => SendRaiseState(w, e, now);
    case ExitWorker(e) => ExitWorkerState(w, e);
  }

  predicate IsSubmits(step: Step) {
    step.BeginSubmit? || step.LockSubmit? || step.PutSubmit? || step.Cancel?
  }

  lemma SubmitState(w: World, step: Step)
    requires StateInv(w) && Enabled(w, step) && IsSubmits(step)
    ensures StateInv(Next(w, step))
  {
    match step
    case BeginSubmit(i, c, s, p, com, exemption) => BeginSubmitState(w, i, c, s, p, com, exemption);
    case LockSubmit(i) => LockSubmitState(w, i);
    case PutSubmit(i) => PutSubmitState(w, i);
    case Cancel(c, now) => CancelState(w, c, now);
  }

  predicate IsRegistrations(step: Step) {
    step.Register? || step.Unregister? || step.SetStop? || step.PutSentinel? || step.Flush?
  }

  lemma RegistrationState(w: World, step: Step)
    requires StateInv(w) && Enabled(w, step) && IsRegistrations(step)
    ensures StateInv(Next(w, step))
  {
    match step
    case Register(s, e) => RegisterState(w, s, e);
    case Unregister(s, code, now) => UnregisterState(w, s, code, now);
    case SetStop(e) => SetStopState(w, e);
    case PutSentinel(e) => PutSentinelState(w, e);
    case Flush(s, code, now) => FlushState(w, s, code, now);
  }

  lemma AsideState(w: World, step: Step)
    requires StateInv(w) && Enabled(w, step) && !IsWorkers(step) && !IsSubmits(step) && !IsRegistrations(step)
    ensures StateInv(Next(w, step))
  {
    OtherState(w, Next(w, step));
  }

  lemma StateStep(w: World, step: Step)
    requires StateInv(w) && Enabled(w, step)
    ensures StateInv(Next(w, step))
  {
    if IsWorkers(step) {
      WorkerState(w, step);
    } else if IsSubmits(step) {
      SubmitState(w, step);
    } else if IsRegistrations(step) {
      RegistrationState(w, step);
    } else {
      AsideState(w, step);
    }
  }

  lemma {:induction false} StateAlways(ws: seq<World>, steps: seq<Step>, i: nat)
    requires IsRun(ws, steps) && i < |ws|
    ensures StateInv(ws[i])
  {
    if i == 0 {
      assert forall c :: CmdOk(ws[0].sched, c);
    } else {
      StateAlways(ws, steps, i - 1);
      assert StepAt(ws, steps, i - 1);
      StateStep(ws[i - 1], steps[i - 1]);
    }
  }
}
