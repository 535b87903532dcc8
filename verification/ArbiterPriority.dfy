/**
 Priority order: of two commands that wait in one queue, the one with the smaller key (priority,
 then order of submission) is dealt with first.
 */
module ArbiterPriority {
  import opened Wrappers
  import opened Admission
  import opened ArbiterCore
  import opened Scheduling
  import opened ArbiterWorld
  import opened ArbiterInvariant
  import opened ArbiterReachable
  import opened ArbiterTickets
  import opened ArbiterLifeCycle
  import opened ArbiterTheorems

  /** `y` waits, and `x` waits as well, or the worker has it in hand, or the worker has ended. */
  predicate InLine(sc: Sched, e: nat, x: Item, y: Item) {
    && e in sc.epochs && y in sc.epochs[e].queue
    && (x in sc.epochs[e].queue || sc.epochs[e].phase.Ended?
        || (x.cmd.Some? && PhaseCmd(sc.epochs[e].phase) == x.cmd && !sc.epochs[e].phase.Sending?))
  }

  /** The command is over: finished, or no longer known. */
  predicate Dead(a: Core, c: CmdId) {
    c in a.commands ==> a.commands[c].doneAt.Some?
  }

  /** `x` has kept its place before `y`, has been sent, or is over. */
  predicate Ahead(w: World, e: nat, x: Item, y: Item)
    requires x.cmd.Some?
  {
    InLine(w.sched, e, x, y) || x.cmd.value in w.sched.sends || Dead(w.core, x.cmd.value)
  }

  // ---- moves ----

  /** The registration is as it was, but for how far it is closed and what was put into its queue. */
  ghost predicate EpochGrew(sc: Sched, sd: Sched, e: nat) {
    e in sc.epochs ==>
      && e in sd.epochs && sc.epochs[e].queue <= sd.epochs[e].queue
      && (sd.epochs[e].phase == sc.epochs[e].phase || sd.epochs[e].phase.Ended?)
  }

  lemma GrowthKeepsLine(sc: Sched, sd: Sched, e: nat, x: Item, y: Item)
    requires InLine(sc, e, x, y) && EpochGrew(sc, sd, e)
    ensures InLine(sd, e, x, y)
  {
    assert sc.epochs[e].queue[y] <= sd.epochs[e].queue[y] && sc.epochs[e].queue[x] <= sd.epochs[e].queue[x];
  }

  /** The least item is taken, so `y` is not taken while `x` waits. */
  lemma TakeKeepsLine(sc: Sched, f: nat, item: Item, e: nat, x: Item, y: Item)
    requires InLine(sc, e, x, y) && x.cmd.Some? && KeyLess(x, y)
    requires f in sc.epochs && sc.epochs[f].phase.Polling? && item in sc.epochs[f].queue
    requires forall it :: it in sc.epochs[f].queue ==> !KeyLess(it, item)
    ensures InLine(TakeItem(sc, f, item), e, x, y)
  {
  }

  lemma CheckKeepsLine(sc: Sched, f: nat, e: nat, x: Item, y: Item)
    requires InLine(sc, e, x, y) && x.cmd.Some? && f in sc.epochs && sc.epochs[f].phase.Taken?
    ensures InLine(CheckItem(sc, f), e, x, y)
  {
  }

  lemma StartKeepsLine(sc: Sched, f: nat, e: nat, x: Item, y: Item)
    requires InLine(sc, e, x, y) && x.cmd.Some? && f in sc.epochs && sc.epochs[f].phase.Checked?
    ensures InLine(StartItem(sc, f), e, x, y)
    ensures InLine(SkipItem(sc, f), e, x, y) || sc.epochs[f].phase == Checked(x.cmd.value)
  {
  }

  lemma SendKeepsLine(sc: Sched, f: nat, e: nat, x: Item, y: Item)
    requires InLine(sc, e, x, y) && x.cmd.Some? && f in sc.epochs && sc.epochs[f].phase.Ready?
    ensures InLine(SendItem(sc, f), e, x, y) || x.cmd.value in SendItem(sc, f).sends
  {
  }

  lemma FinishKeepsLine(sc: Sched, f: nat, e: nat, x: Item, y: Item)
    requires InLine(sc, e, x, y) && x.cmd.Some? && f in sc.epochs && sc.epochs[f].phase.Sending?
    ensures InLine(FinishItem(sc, f), e, x, y)
  {
  }

  lemma StartKeepsAhead(w: World, f: nat, now: int, e: nat, x: Item, y: Item)
    requires StateInv(w) && InLine(w.sched, e, x, y) && x.cmd.Some? && f in w.sched.epochs && EpochAt(w, f).phase.Checked?
    ensures Ahead(AfterLockStart(w, f, now), e, x, y)
  {
    StartKeepsLine(w.sched, f, e, x, y);
    assert RecOk(w.core, w.sched, x.cmd.value);
  }

  predicate MovesItems(step: Step) {
    step.Dequeue? || step.CheckStop? || step.LockStart? || step.SendStart? || step.SendReturn? || step.SendRaise?
  }

  lemma OthersGrow(w: World, step: Step, e: nat)
    requires Enabled(w, step) && !MovesItems(step)
    ensures EpochGrew(w.sched, Next(w, step).sched, e)
  {
    if step.LockSubmit? {
      LockSubmitParts(w, step.call);
    }
  }

  lemma LineStep(w: World, step: Step, e: nat, x: Item, y: Item)
    requires StateInv(w) && Enabled(w, step) && x.cmd.Some? && KeyLess(x, y) && InLine(w.sched, e, x, y)
    ensures Ahead(Next(w, step), e, x, y)
  {
    if !MovesItems(step) {
      OthersGrow(w, step, e);
      GrowthKeepsLine(w.sched, Next(w, step).sched, e, x, y);
    } else if step.Dequeue? {
      TakeKeepsLine(w.sched, step.epoch, step.item, e, x, y);
    } else if step.CheckStop? {
      CheckKeepsLine(w.sched, step.epoch, e, x, y);
    } else if step.LockStart? {
      StartKeepsAhead(w, step.epoch, step.now, e, x, y);
    } else if step.SendStart? {
      SendKeepsLine(w.sched, step.epoch, e, x, y);
    } else {
      FinishKeepsLine(w.sched, step.epoch, e, x, y);
    }
  }

  lemma DeadStays(w: World, step: Step, c: CmdId)
    requires StateInv(w) && Enabled(w, step) && Dead(w.core, c) && c in w.sched.loc && !w.sched.loc[c].Submitted?
    ensures Dead(Next(w, step).core, c)
  {
    LifeCycle(w, step, c);
  }

  lemma AheadStep(w: World, step: Step, e: nat, x: Item, y: Item)
    requires StateInv(w) && Enabled(w, step) && x.cmd.Some? && KeyLess(x, y) && Ahead(w, e, x, y)
    requires x.cmd.value in w.sched.loc && !w.sched.loc[x.cmd.value].Submitted?
    ensures Ahead(Next(w, step), e, x, y)
  {
    var c := x.cmd.value;
    if InLine(w.sched, e, x, y) {
      LineStep(w, step, e, x, y);
    } else if c in w.sched.sends {
      SendsGrowStep(w, step);
      assert w.sched.sends <= Next(w, step).sched.sends;
    } else {
      DeadStays(w, step, c);
    }
  }

  // ---- runs ----

  /** `x` and `y` wait in the queue of `e`, and `x` has the smaller key. */
  predicate WaitTogether(w: World, e: nat, x: Item, y: Item) {
    && e in w.sched.epochs && x in w.sched.epochs[e].queue && y in w.sched.epochs[e].queue
    && KeyLess(x, y) && x.cmd.Some? && y.cmd.Some?
  }

  lemma {:induction false} AheadAlways(ws: seq<World>, steps: seq<Step>, i: nat, j: nat, e: nat, x: Item, y: Item)
    requires IsRun(ws, steps) && i <= j < |ws| && WaitTogether(ws[i], e, x, y)
    ensures Ahead(ws[j], e, x, y)
    decreases j
  {
    if i < j {
      AheadAlways(ws, steps, i, j - 1, e, x, y);
      StateAlways(ws, steps, i);
      assert CmdOk(ws[i].sched, x.cmd.value);
      SpentForever(ws, steps, i, j - 1, x.cmd.value);
      StateAlways(ws, steps, j - 1);
      assert StepAt(ws, steps, j - 1);
      AheadStep(ws[j - 1], steps[j - 1], e, x, y);
    }
  }

  /**
   When the command with the larger key is sent, the other one has been sent before, or it is over:
   cancelled, flushed or evicted.
   */
  lemma SmallerKeyFirst(ws: seq<World>, steps: seq<Step>, i: nat, j: nat, e: nat, x: Item, y: Item)
    requires IsRun(ws, steps) && i <= j < |steps| && WaitTogether(ws[i], e, x, y)
    requires steps[j].SendStart? && Enabled(ws[j], steps[j]) && EpochAt(ws[j], steps[j].epoch).phase == Ready(y.cmd.value)
    ensures x.cmd.value in ws[j].sched.sends || Dead(ws[j].core, x.cmd.value)
  {
    AheadAlways(ws, steps, i, j, e, x, y);
    StateAlways(ws, steps, j);
    assert CmdOk(ws[j].sched, y.cmd.value);
  }
}
