/**
 Workers that outlive their registration. `_running` has one slot for each session, so a later
 registration that starts a command takes the slot of a command still in an older worker. What
 this costs that command, and exactly when, is stated here.
 */
module ArbiterOverlap {
  import opened Wrappers
  import opened Admission
  import opened ArbiterCore
  import opened Scheduling
  import opened ArbiterWorld
  import opened ArbiterInvariant
  import opened ArbiterReachable
  import opened ArbiterTickets
  import opened ArbiterLifeCycle
  import opened ArbiterTheorems

  /** The worker of registration `e` has started `c` and has not returned from it. */
  predicate InWorker(sc: Sched, e: nat, c: CmdId) {
    e in sc.epochs && (sc.epochs[e].phase == Ready(c) || sc.epochs[e].phase == Sending(c))
  }

  /** `_running` names `c` for its session. */
  predicate Named(a: Core, s: Session, c: CmdId) {
    s in a.running && a.running[s] == c
  }

  /** The step in which a worker starts `c`. */
  ghost predicate Starts(w: World, step: Step, e: nat, c: CmdId) {
    && step.LockStart? && step.epoch == e && e in w.sched.epochs && EpochAt(w, e).phase == Checked(c)
    && MayStart(w.core, c)
  }

  /** The step in which another worker of session `s` than that of `e` starts a command. */
  ghost predicate Overtakes(w: World, step: Step, s: Session, e: nat) {
    && step.LockStart? && step.epoch != e && step.epoch in w.sched.epochs
    && EpochAt(w, step.epoch).session == s && EpochAt(w, step.epoch).phase.Checked?
    && MayStart(w.core, EpochAt(w, step.epoch).phase.cmd)
  }

  // ---- one step ----

  lemma RunningStays(w: World, step: Step)
    requires Enabled(w, step) && !step.LockStart? && !step.SendReturn? && !step.SendRaise?
    ensures Next(w, step).core.running == w.core.running
  {
    if IsQuiet(step) {
      NextIsQuiet(w, step);
    } else if step.LockSubmit? {
      LockSubmitParts(w, step.call);
    }
  }

  lemma StartNames(w: World, step: Step, s: Session, e: nat, c: CmdId)
    requires StateInv(w) && Enabled(w, step) && step.LockStart?
    requires InWorker(w.sched, e, c) && EpochAt(w, e).session == s
    ensures Named(Next(w, step).core, s, c) <==> Named(w.core, s, c) && !Overtakes(w, step, s, e)
  {
    var d := EpochAt(w, step.epoch).phase.cmd;
    StartsOther(w.sched, step.epoch, d, e, c);
    StartRunning(w, step.epoch, step.now);
    assert Next(w, step) == AfterLockStart(w, step.epoch, step.now);
  }

  lemma StartsOther(sc: Sched, f: nat, d: CmdId, e: nat, c: CmdId)
    requires SchedInv(sc) && f in sc.epochs && sc.epochs[f].phase == Checked(d) && InWorker(sc, e, c)
    ensures f != e && c != d
  {
    assert CmdOk(sc, c) && CmdOk(sc, d);
  }

  lemma StartRunning(w: World, e: nat, now: int)
    requires e in w.sched.epochs && EpochAt(w, e).phase.Checked?
    ensures var d := EpochAt(w, e).phase.cmd;
      AfterLockStart(w, e, now).core.running == if MayStart(w.core, d) then w.core.running[EpochAt(w, e).session := d] else w.core.running
  {
  }

  lemma FinishNames(w: World, step: Step, s: Session, e: nat, c: CmdId)
    requires StateInv(w) && Enabled(w, step) && (step.SendReturn? || step.SendRaise?) && step.epoch != e
    requires InWorker(w.sched, e, c) && EpochAt(w, e).session == s
    ensures Named(Next(w, step).core, s, c) <==> Named(w.core, s, c)
  {
    var d := EpochAt(w, step.epoch).phase.cmd;
    assert CmdOk(w.sched, c) && CmdOk(w.sched, d);
    var t := EpochAt(w, step.epoch).session;
    if step.SendReturn? {
      ClearedRunning(MarkReturned(w.core, d, step.result, step.now), t, d, s, c);
    } else {
      ClearedRunning(MarkFailed(w.core, d, step.now), t, d, s, c);
    }
  }

  lemma ClearedRunning(a: Core, t: Session, d: CmdId, s: Session, c: CmdId)
    requires c != d
    ensures Named(Release(Evict(ClearRunning(a, t, d)), {d}), s, c) <==> Named(a, s, c)
  {
  }

  /** While `c` is in its worker, its slot changes hands only when another worker starts a command. */
  lemma NamesStep(w: World, step: Step, s: Session, e: nat, c: CmdId)
    requires StateInv(w) && Enabled(w, step)
    requires InWorker(w.sched, e, c) && EpochAt(w, e).session == s && InWorker(Next(w, step).sched, e, c)
    ensures Named(Next(w, step).core, s, c) <==> Named(w.core, s, c) && !Overtakes(w, step, s, e)
  {
    if step.LockStart? {
      StartNames(w, step, s, e, c);
    } else if step.SendReturn? || step.SendRaise? {
      FinishNames(w, step, s, e, c);
    } else {
      RunningStays(w, step);
    }
  }

  /** A command has been started once and for all. */
  predicate WasStarted(sc: Sched, c: CmdId) {
    c in sc.loc && (sc.loc[c].Started? || sc.loc[c].Sent? || sc.loc[c].Returned?)
  }

  /** Started commands stay started, and no worker comes to hold one that it did not hold. */
  ghost predicate StartedKept(sc: Sched, sd: Sched, c: CmdId) {
    && (WasStarted(sc, c) ==> WasStarted(sd, c))
    && (WasStarted(sc, c) ==> forall e :: InWorker(sd, e, c) ==> InWorker(sc, e, c))
  }

  lemma CallMovesKeep(sc: Sched, i: nat, n: nat, c: CmdId)
    requires SchedInv(sc) && i in sc.calls
    ensures sc.calls[i].AtLock? ==> forall e :: StartedKept(sc, AcceptCall(sc, i, e, n), c)
    ensures sc.calls[i].AtLock? ==> StartedKept(sc, RejectCall(sc, i), c)
    ensures sc.calls[i].AtPut? ==> StartedKept(sc, PutItem(sc, i), c)
  {
    assert CmdOk(sc, c);
    if sc.calls[i].AtLock? {
      assert CmdOk(sc, sc.calls[i].cmd);
    } else {
      assert CmdOk(sc, sc.calls[i].item.cmd.value);
    }
  }

  lemma TakeKeeps(sc: Sched, e: nat, item: Item, c: CmdId)
    requires SchedInv(sc) && e in sc.epochs && sc.epochs[e].phase.Polling? && item in sc.epochs[e].queue
    ensures StartedKept(sc, TakeItem(sc, e, item), c)
  {
    assert CmdOk(sc, c);
    if item.cmd.Some? {
      assert CmdOk(sc, item.cmd.value);
    }
  }

  lemma CheckKeeps(sc: Sched, e: nat, c: CmdId)
    requires SchedInv(sc) && e in sc.epochs && sc.epochs[e].phase.Taken?
    ensures StartedKept(sc, CheckItem(sc, e), c)
  {
    assert CmdOk(sc, c);
  }

  lemma StartKeeps(sc: Sched, e: nat, c: CmdId)
    requires SchedInv(sc) && e in sc.epochs && sc.epochs[e].phase.Checked?
    ensures StartedKept(sc, StartItem(sc, e), c) && StartedKept(sc, SkipItem(sc, e), c)
  {
    assert CmdOk(sc, c);
  }

  lemma SendKeeps(sc: Sched, e: nat, c: CmdId)
    requires SchedInv(sc) && e in sc.epochs
    ensures sc.epochs[e].phase.Ready? ==> StartedKept(sc, SendItem(sc, e), c)
    ensures sc.epochs[e].phase.Sending? ==> StartedKept(sc, FinishItem(sc, e), c)
  {
    assert CmdOk(sc, c);
  }

  /** Steps after which queues and workers are as they were, but for phases that hold nothing. */
  lemma SamePhasesKeep(sc: Sched, sd: Sched, c: CmdId)
    requires sd.loc == sc.loc
    requires forall e :: e in sd.epochs ==>
      if e in sc.epochs then sd.epochs[e].phase == sc.epochs[e].phase || sd.epochs[e].phase.Ended? else sd.epochs[e].phase.Polling?
    ensures StartedKept(sc, sd, c)
  {
  }

  lemma BeginKeeps(w: World, step: Step, c: CmdId)
    requires Enabled(w, step) && step.BeginSubmit?
    ensures StartedKept(w.sched, Next(w, step).sched, c)
  {
  }

  predicate IsMove(step: Step) {
    step.BeginSubmit? || step.LockSubmit? || step.PutSubmit? || step.Dequeue? || step.CheckStop? || step.LockStart?
    || step.SendStart? || step.SendReturn? || step.SendRaise?
  }

  lemma StillKeeps(w: World, step: Step, c: CmdId)
    requires Enabled(w, step) && !IsMove(step)
    ensures StartedKept(w.sched, Next(w, step).sched, c)
  {
    SamePhasesKeep(w.sched, Next(w, step).sched, c);
  }

  lemma StepKeepsStarted(w: World, step: Step, c: CmdId)
    requires StateInv(w) && Enabled(w, step)
    ensures StartedKept(w.sched, Next(w, step).sched, c)
  {
    var sc := w.sched;
    if !IsMove(step) {
      StillKeeps(w, step, c);
    } else if step.BeginSubmit? {
      BeginKeeps(w, step, c);
    } else if step.LockSubmit? {
      LockSubmitParts(w, step.call);
      CallMovesKeep(sc, step.call, w.core.counter + 1, c);
    } else if step.PutSubmit? {
      CallMovesKeep(sc, step.call, 0, c);
    } else if step.Dequeue? {
      TakeKeeps(sc, step.epoch, step.item, c);
    } else if step.CheckStop? {
      CheckKeeps(sc, step.epoch, c);
    } else if step.LockStart? {
      StartKeeps(sc, step.epoch, c);
    } else {
      SendKeeps(sc, step.epoch, c);
    }
  }

  /** A registration keeps its session, and once closed it stays closed. */
  ghost predicate EpochKept(sc: Sched, sd: Sched, e: nat) {
    e in sc.epochs ==>
      && e in sd.epochs && sd.epochs[e].session == sc.epochs[e].session
      && (sd.epochs[e].closing.Open? ==> sc.epochs[e].closing.Open?)
  }

  lemma OneEpochKept(sc: Sched, sd: Sched, d: nat, ep: Epoch, e: nat)
    requires d in sc.epochs && sd.epochs == sc.epochs[d := ep]
    requires ep.session == sc.epochs[d].session && ep.closing == sc.epochs[d].closing
    ensures EpochKept(sc, sd, e)
  {
  }

  lemma QueueKeepsEpochs(w: World, step: Step, e: nat)
    requires Enabled(w, step) && (step.BeginSubmit? || step.PutSubmit?)
    ensures EpochKept(w.sched, Next(w, step).sched, e)
  {
    var v := Next(w, step);
    if v.sched.epochs != w.sched.epochs {
      var d := w.sched.calls[step.call].epoch;
      OneEpochKept(w.sched, v.sched, d, v.sched.epochs[d], e);
    }
  }

  lemma WorkerKeepsEpochs(w: World, step: Step, e: nat)
    requires Enabled(w, step) && (step.Dequeue? || step.CheckStop? || step.SendStart?)
    ensures EpochKept(w.sched, Next(w, step).sched, e)
  {
    OneEpochKept(w.sched, Next(w, step).sched, step.epoch, Next(w, step).sched.epochs[step.epoch], e);
  }

  lemma LockedKeepsEpochs(w: World, step: Step, e: nat)
    requires Enabled(w, step) && (step.LockStart? || step.SendReturn? || step.SendRaise?)
    ensures EpochKept(w.sched, Next(w, step).sched, e)
  {
    OneEpochKept(w.sched, Next(w, step).sched, step.epoch, Next(w, step).sched.epochs[step.epoch], e);
  }

  lemma StillKeepsEpochs(w: World, step: Step, e: nat)
    requires Enabled(w, step) && !IsMove(step)
    ensures EpochKept(w.sched, Next(w, step).sched, e)
  {
    if IsGateOp(step) {
      assert Next(w, step).sched == w.sched;
    } else {
      PartingKeepsEpochs(w, step, e);
    }
  }

  lemma PartingKeepsEpochs(w: World, step: Step, e: nat)
    requires Enabled(w, step) && !IsMove(step) && !IsGateOp(step)
    ensures EpochKept(w.sched, Next(w, step).sched, e)
  {
  }

  lemma EpochStays(w: World, step: Step, e: nat)
    requires Enabled(w, step)
    ensures EpochKept(w.sched, Next(w, step).sched, e)
  {
    if !IsMove(step) {
      StillKeepsEpochs(w, step, e);
    } else if step.LockSubmit? {
      LockSubmitParts(w, step.call);
    } else if step.BeginSubmit? || step.PutSubmit? {
      QueueKeepsEpochs(w, step, e);
    } else if step.Dequeue? || step.CheckStop? || step.SendStart? {
      WorkerKeepsEpochs(w, step, e);
    } else {
      LockedKeepsEpochs(w, step, e);
    }
  }

  // ---- runs ----

  /** Step `i` starts `c` in the worker of `e`, and at `j` the worker has not returned from it. */
  ghost predicate HeldSince(ws: seq<World>, steps: seq<Step>, i: nat, j: nat, e: nat, c: CmdId) {
    && |ws| == |steps| + 1 && i < j < |ws|
    && Starts(ws[i], steps[i], e, c) && InWorker(ws[j].sched, e, c)
  }

  /** Between them the worker of another registration of the session has started a command. */
  ghost predicate Overtaken(ws: seq<World>, steps: seq<Step>, i: nat, j: nat, e: nat)
    requires |ws| == |steps| + 1 && i < j < |ws| && e in ws[i].sched.epochs
  {
    exists k :: i < k < j && Overtakes(ws[k], steps[k], EpochAt(ws[i], e).session, e)
  }

  lemma StartsKeeps(w: World, step: Step, e: nat, c: CmdId)
    requires StateInv(w) && Enabled(w, step) && Starts(w, step, e, c)
    ensures InWorker(Next(w, step).sched, e, c) && WasStarted(Next(w, step).sched, c)
    ensures Named(Next(w, step).core, EpochAt(w, e).session, c)
    ensures w.core.commands[c].session == EpochAt(w, e).session
  {
    assert CmdOk(w.sched, c) && RecOk(w.core, w.sched, c);
  }

  /** From the start of `c` on, all the way to `j`, the worker of `e` holds it. */
  lemma {:induction false} HeldAllAlong(ws: seq<World>, steps: seq<Step>, i: nat, k: nat, e: nat, c: CmdId)
    requires IsRun(ws, steps) && i < k < |ws| && Starts(ws[i], steps[i], e, c)
    ensures WasStarted(ws[k].sched, c)
    ensures e in ws[k].sched.epochs && EpochAt(ws[k], e).session == EpochAt(ws[i], e).session
    decreases k
  {
    StateAlways(ws, steps, k - 1);
    assert StepAt(ws, steps, k - 1);
    EpochStays(ws[k - 1], steps[k - 1], e);
    if k == i + 1 {
      StartsKeeps(ws[i], steps[i], e, c);
    } else {
      HeldAllAlong(ws, steps, i, k - 1, e, c);
      StepKeepsStarted(ws[k - 1], steps[k - 1], c);
    }
  }

  lemma HeldBefore(ws: seq<World>, steps: seq<Step>, i: nat, j: nat, e: nat, c: CmdId)
    requires IsRun(ws, steps) && HeldSince(ws, steps, i, j, e, c) && i + 1 < j
    ensures HeldSince(ws, steps, i, j - 1, e, c)
  {
    HeldAllAlong(ws, steps, i, j - 1, e, c);
    StateAlways(ws, steps, j - 1);
    assert StepAt(ws, steps, j - 1);
    StepKeepsStarted(ws[j - 1], steps[j - 1], c);
  }

  /**
   A command in its worker holds the session's slot exactly until the worker of another
   registration starts a command, and never gets it back.
   */
  lemma {:induction false} NamedUntilOvertaken(ws: seq<World>, steps: seq<Step>, i: nat, j: nat, e: nat, c: CmdId)
    requires IsRun(ws, steps) && HeldSince(ws, steps, i, j, e, c)
    ensures Named(ws[j].core, EpochAt(ws[i], e).session, c) <==> !Overtaken(ws, steps, i, j, e)
    decreases j
  {
    var s := EpochAt(ws[i], e).session;
    if j == i + 1 {
      NamedAtFirst(ws, steps, i, e, c);
    } else {
      HeldBefore(ws, steps, i, j, e, c);
      NamedUntilOvertaken(ws, steps, i, j - 1, e, c);
      HeldAllAlong(ws, steps, i, j - 1, e, c);
      NamesAdvance(ws, steps, j - 1, s, e, c);
      OvertakenStep(ws, steps, i, j, e);
    }
  }

  lemma NamesAdvance(ws: seq<World>, steps: seq<Step>, k: nat, s: Session, e: nat, c: CmdId)
    requires IsRun(ws, steps) && k < |steps|
    requires InWorker(ws[k].sched, e, c) && EpochAt(ws[k], e).session == s && InWorker(ws[k + 1].sched, e, c)
    ensures Named(ws[k + 1].core, s, c) <==> Named(ws[k].core, s, c) && !Overtakes(ws[k], steps[k], s, e)
  {
    StateAlways(ws, steps, k);
    assert StepAt(ws, steps, k);
    NamesStep(ws[k], steps[k], s, e, c);
  }

  lemma NamedAtFirst(ws: seq<World>, steps: seq<Step>, i: nat, e: nat, c: CmdId)
    requires IsRun(ws, steps) && i < |steps| && Starts(ws[i], steps[i], e, c)
    ensures Named(ws[i + 1].core, EpochAt(ws[i], e).session, c)
  {
    StateAlways(ws, steps, i);
    assert StepAt(ws, steps, i);
    StartsKeeps(ws[i], steps[i], e, c);
  }

  lemma OvertakenStep(ws: seq<World>, steps: seq<Step>, i: nat, j: nat, e: nat)
    requires |ws| == |steps| + 1 && i + 1 < j < |ws| && e in ws[i].sched.epochs
    ensures Overtaken(ws, steps, i, j, e) <==>
      Overtaken(ws, steps, i, j - 1, e) || Overtakes(ws[j - 1], steps[j - 1], EpochAt(ws[i], e).session, e)
  {
    var s := EpochAt(ws[i], e).session;
    if k :| i < k < j && Overtakes(ws[k], steps[k], s, e) {
      assert k == j - 1 || k < j - 1;
    }
  }

  /** Who overtakes belongs to a later registration: the session has been unregistered since. */
  lemma OvertakenByLater(ws: seq<World>, steps: seq<Step>, i: nat, k: nat, e: nat, c: CmdId)
    requires IsRun(ws, steps) && i < k < |steps| && Starts(ws[i], steps[i], e, c)
    requires Overtakes(ws[k], steps[k], EpochAt(ws[i], e).session, e)
    ensures e in ws[k].sched.epochs && !EpochAt(ws[k], e).closing.Open? && EpochAt(ws[k], steps[k].epoch).closing.Open?
  {
    HeldAllAlong(ws, steps, i, k, e, c);
    StateAlways(ws, steps, k);
    assert StepAt(ws, steps, k);
    StartsOnlyItsOwn(ws, steps, k);
  }

  lemma {:induction false} ClosedStays(ws: seq<World>, steps: seq<Step>, k: nat, j: nat, e: nat)
    requires IsRun(ws, steps) && k <= j < |ws| && e in ws[k].sched.epochs && !EpochAt(ws[k], e).closing.Open?
    ensures e in ws[j].sched.epochs && !EpochAt(ws[j], e).closing.Open?
    decreases j
  {
    if k < j {
      ClosedStays(ws, steps, k, j - 1, e);
      assert StepAt(ws, steps, j - 1);
      EpochStays(ws[j - 1], steps[j - 1], e);
    }
  }

  /** While its registration stands, a command in its worker is named by `_running`. */
  lemma NamedWhileOpen(ws: seq<World>, steps: seq<Step>, i: nat, j: nat, e: nat, c: CmdId)
    requires IsRun(ws, steps) && HeldSince(ws, steps, i, j, e, c) && EpochAt(ws[j], e).closing.Open?
    ensures Named(ws[j].core, EpochAt(ws[i], e).session, c)
  {
    NamedUntilOvertaken(ws, steps, i, j, e, c);
    if k :| i < k < j && Overtakes(ws[k], steps[k], EpochAt(ws[i], e).session, e) {
      HeldAllAlong(ws, steps, i, k, e, c);
      OvertakenByLater(ws, steps, i, k, e, c);
      ClosedStays(ws, steps, k, j, e);
    }
  }

  /** A record that `Pending` counts for session `s`. */
  predicate Counted(a: Core, s: Session, c: CmdId) {
    c in Unfinished(a.commands, s) || (CanceledInWorker(a, s) && a.running[s] == c)
  }

  lemma SlotDecides(w: World, e: nat, c: CmdId)
    requires StateInv(w) && InWorker(w.sched, e, c)
    ensures var s := EpochAt(w, e).session;
      && (Named(w.core, s, c) ==> c in w.core.commands)
      && (c in w.core.commands ==>
            && w.core.commands[c].session == s
            && w.core.commands[c].status in {Running, Canceled}
            && (w.core.commands[c].doneAt.Some? <==> w.core.commands[c].status == Canceled)
            && (c in w.core.running.Values <==> Named(w.core, s, c)))
  {
    var s := EpochAt(w, e).session;
    assert CmdOk(w.sched, c) && RecOk(w.core, w.sched, c) && RunOk(w.core, w.sched, s);
    if t :| t in w.core.running && w.core.running[t] == c {
      assert RunOk(w.core, w.sched, t);
    }
    if Named(w.core, s, c) {
      assert c in w.core.running.Values;
    }
  }

  /**
   What a command that its worker has not returned from can lose, and exactly when: its record is
   gone only if it was overtaken; while the record is there it may be evicted, and is not counted,
   if and only if it was cancelled and overtaken.
   */
  lemma LostOnlyIfOvertaken(ws: seq<World>, steps: seq<Step>, i: nat, j: nat, e: nat, c: CmdId)
    requires IsRun(ws, steps) && HeldSince(ws, steps, i, j, e, c)
    ensures var a, s := ws[j].core, EpochAt(ws[i], e).session;
      && (c !in a.commands ==> Overtaken(ws, steps, i, j, e))
      && (c in a.commands ==>
            && (c in Evictable(a.commands, a.running.Values) <==> a.commands[c].status == Canceled && Overtaken(ws, steps, i, j, e))
            && (!Counted(a, s, c) <==> a.commands[c].status == Canceled && Overtaken(ws, steps, i, j, e)))
  {
    NamedUntilOvertaken(ws, steps, i, j, e, c);
    HeldAllAlong(ws, steps, i, j, e, c);
    StateAlways(ws, steps, j);
    SlotDecides(ws[j], e, c);
  }
}
