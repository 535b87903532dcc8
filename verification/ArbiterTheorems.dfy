/**
 What the arbiter guarantees over whole runs, in every interleaving of submitters, workers,
 cancellations, flushes, registrations and gate clients.
 */
module ArbiterTheorems {
  import opened Wrappers
  import opened Admission
  import opened ArbiterCore
  import opened Scheduling
  import opened ArbiterWorld
  import opened ArbiterInvariant
  import opened ArbiterReachable
  import opened ArbiterTickets
  import opened ArbiterBounds
  import opened ArbiterLifeCycle

  // ---- sending ----

  /** The send callback runs at most once per cmd_id. */
  lemma SendsAtMostOnce(ws: seq<World>, steps: seq<Step>, i: nat, c: CmdId)
    requires IsRun(ws, steps) && i < |ws|
    ensures multiset(ws[i].sched.sends)[c] <= 1
  {
    StateAlways(ws, steps, i);
    assert CmdOk(ws[i].sched, c);
  }

  /** Step `i` flushes `c`, or cancels it while it is still accepted. */
  ghost predicate EndsUnsent(w: World, step: Step, c: CmdId) {
    && c in w.core.commands && w.core.commands[c].status == Accepted
    && (((step.Flush? || step.Unregister?) && step.session == w.core.commands[c].session)
        || (step.Cancel? && step.cmd == c))
  }

  lemma EndedSetsGrow(w: World, step: Step)
    requires Enabled(w, step)
    ensures w.flushed + w.early <= Next(w, step).flushed + Next(w, step).early
  {
  }

  lemma EndedSetsGrowAt(ws: seq<World>, steps: seq<Step>, i: nat)
    requires IsRun(ws, steps) && i < |steps|
    ensures ws[i].flushed + ws[i].early <= ws[i + 1].flushed + ws[i + 1].early
  {
    assert StepAt(ws, steps, i);
    EndedSetsGrow(ws[i], steps[i]);
  }

  lemma {:induction false} EndedForever(ws: seq<World>, steps: seq<Step>, i: nat, j: nat)
    requires IsRun(ws, steps) && i <= j < |ws|
    ensures ws[i].flushed + ws[i].early <= ws[j].flushed + ws[j].early
  {
    if i < j {
      EndedForever(ws, steps, i, j - 1);
      EndedSetsGrowAt(ws, steps, j - 1);
    }
  }

  lemma EndIsRecorded(w: World, step: Step, c: CmdId)
    requires StateInv(w) && Enabled(w, step) && EndsUnsent(w, step, c)
    ensures c in Next(w, step).flushed + Next(w, step).early
  {
    assert RecOk(w.core, w.sched, c);
  }

  /** A command that was flushed, or cancelled before it started, is never sent. */
  lemma NeverSentOnceEnded(ws: seq<World>, steps: seq<Step>, i: nat, j: nat, c: CmdId)
    requires IsRun(ws, steps) && i < |steps| && j < |ws| && EndsUnsent(ws[i], steps[i], c)
    ensures c !in ws[j].sched.sends
  {
    var k := if i < j then j else i + 1;
    StateAlways(ws, steps, i);
    assert StepAt(ws, steps, i);
    EndIsRecorded(ws[i], steps[i], c);
    EndedForever(ws, steps, i + 1, k);
    StateAlways(ws, steps, k);
    EndedIsUnsent(ws[k], c);
    SendsGrow(ws, steps, j, k);
  }

  lemma EndedIsUnsent(w: World, c: CmdId)
    requires StateInv(w) && c in w.flushed + w.early
    ensures c !in w.sched.sends
  {
    assert NeverStarted(w.core, w.sched, w.flushed + w.early, c);
    assert CmdOk(w.sched, c);
  }

  lemma SendsGrowStep(w: World, step: Step)
    requires Enabled(w, step)
    ensures w.sched.sends <= Next(w, step).sched.sends
  {
  }

  lemma SendsGrowAt(ws: seq<World>, steps: seq<Step>, i: nat)
    requires IsRun(ws, steps) && i < |steps|
    ensures ws[i].sched.sends <= ws[i + 1].sched.sends
  {
    assert StepAt(ws, steps, i);
    SendsGrowStep(ws[i], steps[i]);
  }

  lemma {:induction false} SendsGrow(ws: seq<World>, steps: seq<Step>, i: nat, j: nat)
    requires IsRun(ws, steps) && i <= j < |ws|
    ensures ws[i].sched.sends <= ws[j].sched.sends
  {
    if i < j {
      SendsGrow(ws, steps, i, j - 1);
      SendsGrowAt(ws, steps, j - 1);
    }
  }

  // ---- registrations ----

  /** `c` is in the queue of `e`, in a submit still to put it there, or in the hand of its worker. */
  ghost predicate OnItsWayIn(w: World, e: nat, c: CmdId) {
    || (e in w.sched.epochs && exists item :: item in w.sched.epochs[e].queue && item.cmd == Some(c))
    || (exists i :: i in w.sched.calls && w.sched.calls[i].AtPut? && w.sched.calls[i].epoch == e && w.sched.calls[i].item.cmd == Some(c))
    || (e in w.sched.epochs && (w.sched.epochs[e].phase == Checked(c)
          || (w.sched.epochs[e].phase.Taken? && w.sched.epochs[e].phase.item.cmd == Some(c))))
  }

  /** Everything in a discarded queue, or still to be put there, is finished or evicted. */
  lemma DiscardedQueueIsDead(ws: seq<World>, steps: seq<Step>, i: nat, e: nat, c: CmdId)
    requires IsRun(ws, steps) && i < |ws|
    requires e in ws[i].sched.epochs && !ws[i].sched.epochs[e].closing.Open?
    requires OnItsWayIn(ws[i], e, c) && c in ws[i].core.commands
    ensures ws[i].core.commands[c].doneAt.Some?
  {
    StateAlways(ws, steps, i);
    assert CmdOk(ws[i].sched, c) && RecOk(ws[i].core, ws[i].sched, c);
  }

  /** A worker starts only commands of its own registration, while that registration stands. */
  lemma StartsOnlyItsOwn(ws: seq<World>, steps: seq<Step>, i: nat)
    requires IsRun(ws, steps) && i < |steps| && steps[i].LockStart? && Enabled(ws[i], steps[i])
    requires MayStart(ws[i].core, EpochAt(ws[i], steps[i].epoch).phase.cmd)
    ensures var (e, c) := (steps[i].epoch, EpochAt(ws[i], steps[i].epoch).phase.cmd);
      && c in ws[i].sched.home && ws[i].sched.home[c] == e
      && ws[i].core.commands[c].session == EpochAt(ws[i], e).session
      && ws[i].core.commands[c].session in ws[i].core.queues && ws[i].core.queues[ws[i].core.commands[c].session] == e
  {
    StateAlways(ws, steps, i);
    assert StepAt(ws, steps, i);
    var c := EpochAt(ws[i], steps[i].epoch).phase.cmd;
    assert CmdOk(ws[i].sched, c) && RecOk(ws[i].core, ws[i].sched, c);
  }

  /** Each registration has at most one send in flight. */
  lemma OneSendPerRegistration(ws: seq<World>, steps: seq<Step>, i: nat, c: CmdId, d: CmdId)
    requires IsRun(ws, steps) && i < |ws| && c in ws[i].sched.loc && d in ws[i].sched.loc
    requires ws[i].sched.loc[c].Sent? && ws[i].sched.loc[d] == ws[i].sched.loc[c]
    ensures c == d
  {
    StateAlways(ws, steps, i);
    assert CmdOk(ws[i].sched, c) && CmdOk(ws[i].sched, d);
  }

  /** No accepted record is stale: its item is on its way to a worker that still polls. */
  lemma AcceptedIsServed(ws: seq<World>, steps: seq<Step>, i: nat, c: CmdId)
    requires IsRun(ws, steps) && i < |ws| && c in ws[i].core.commands && ws[i].core.commands[c].status == Accepted
    ensures var s := ws[i].core.commands[c].session;
      && s in ws[i].core.queues && ws[i].core.queues[s] in ws[i].sched.epochs
      && OnItsWayIn(ws[i], ws[i].core.queues[s], c)
      && !EpochAt(ws[i], ws[i].core.queues[s]).phase.Ended?
  {
    StateAlways(ws, steps, i);
    var w := ws[i];
    assert CmdOk(w.sched, c) && RecOk(w.core, w.sched, c);
    if w.sched.loc[c].Queued? {
      assert w.sched.loc[c].item in w.sched.epochs[w.sched.home[c]].queue;
    }
  }

  // ---- back-pressure and history ----

  lemma PendingIsBounded(ws: seq<World>, steps: seq<Step>, i: nat, s: Session)
    requires IsRun(ws, steps) && i < |ws|
    ensures Pending(ws[i].core, s) <= PENDING_MAX
  {
    BoundsAlways(ws, steps, i);
    assert Bounded(ws[i].core, s);
  }

  lemma HistoryIsBounded(ws: seq<World>, steps: seq<Step>, i: nat)
    requires IsRun(ws, steps) && i < |ws|
    ensures |ws[i].core.commands| <= Max(HISTORY_MAX, PENDING_MAX * |ws[i].sessions|)
  {
    BoundsAlways(ws, steps, i);
  }

  /**
   No record is evicted that is unfinished and not finished by this very step, or that `_running`
   names. Not every command in a worker is named there: see ArbiterOverlap.
   */
  lemma EvictionIsSafe(ws: seq<World>, steps: seq<Step>, i: nat, c: CmdId)
    requires IsRun(ws, steps) && i < |steps| && c in ws[i].core.commands && c !in ws[i + 1].core.commands
    ensures ws[i].core.commands[c].status in {Accepted, Running} ==> Finishes(ws[i], steps[i], c)
    ensures c !in ws[i + 1].core.running.Values
  {
    StateAlways(ws, steps, i);
    assert RecOk(ws[i].core, ws[i].sched, c);
    assert StepAt(ws, steps, i);
    LifeCycle(ws[i], steps[i], c);
  }

  // ---- life cycle ----

  lemma LifeCycleAlways(ws: seq<World>, steps: seq<Step>, i: nat, c: CmdId)
    requires IsRun(ws, steps) && i < |steps|
    ensures RecordStep(ws[i], steps[i], ws[i + 1], c)
  {
    StateAlways(ws, steps, i);
    assert StepAt(ws, steps, i);
    LifeCycle(ws[i], steps[i], c);
  }

  lemma LocsStay(w: World, step: Step, c: CmdId)
    requires Enabled(w, step) && c in w.sched.loc && !w.sched.loc[c].Submitted?
    ensures c in Next(w, step).sched.loc && !Next(w, step).sched.loc[c].Submitted?
  {
    if IsQuiet(step) {
      NextIsQuiet(w, step);
    } else if LeavesRecords(step) {
      LocsStayOutside(w, step, c);
    } else {
      LocsStayInside(w, step, c);
    }
  }

  lemma LocsStayOutside(w: World, step: Step, c: CmdId)
    requires Enabled(w, step) && c in w.sched.loc && !w.sched.loc[c].Submitted? && !IsQuiet(step) && LeavesRecords(step)
    ensures c in Next(w, step).sched.loc && !Next(w, step).sched.loc[c].Submitted?
  {
  }

  lemma LocsStayInside(w: World, step: Step, c: CmdId)
    requires Enabled(w, step) && c in w.sched.loc && !w.sched.loc[c].Submitted? && !LeavesRecords(step)
    ensures c in Next(w, step).sched.loc && !Next(w, step).sched.loc[c].Submitted?
  {
  }

  lemma LocsStayAt(ws: seq<World>, steps: seq<Step>, i: nat, c: CmdId)
    requires IsRun(ws, steps) && i < |steps| && c in ws[i].sched.loc && !ws[i].sched.loc[c].Submitted?
    ensures c in ws[i + 1].sched.loc && !ws[i + 1].sched.loc[c].Submitted?
  {
    assert StepAt(ws, steps, i);
    LocsStay(ws[i], steps[i], c);
  }

  /** A record once evicted does not come back: from then on its cmd_id is spent. */
  lemma {:induction false} SpentForever(ws: seq<World>, steps: seq<Step>, i: nat, j: nat, c: CmdId)
    requires IsRun(ws, steps) && i <= j < |ws|
    requires c in ws[i].sched.loc && !ws[i].sched.loc[c].Submitted?
    ensures c in ws[j].sched.loc && !ws[j].sched.loc[c].Submitted?
    ensures c !in ws[i].core.commands ==> c !in ws[j].core.commands
  {
    if i < j {
      SpentForever(ws, steps, i, j - 1, c);
      LocsStayAt(ws, steps, j - 1, c);
      LifeCycleAlways(ws, steps, j - 1, c);
    }
  }

  /** `done` and `error` are absorbing, and a finished record never becomes unfinished. */
  lemma {:induction false} EndStatesAbsorb(ws: seq<World>, steps: seq<Step>, i: nat, j: nat, c: CmdId)
    requires IsRun(ws, steps) && i <= j < |ws| && c in ws[i].core.commands && c in ws[j].core.commands
    ensures ws[i].core.commands[c].status in {Done, Error} ==> ws[j].core.commands[c].status == ws[i].core.commands[c].status
    ensures ws[i].core.commands[c].doneAt.Some? ==> ws[j].core.commands[c].doneAt.Some?
    ensures ws[i].core.commands[c].status == Canceled ==> ws[j].core.commands[c].status in {Canceled, Error}
  {
    if i < j {
      StateAlways(ws, steps, i);
      assert RecOk(ws[i].core, ws[i].sched, c);
      LifeCycleAlways(ws, steps, j - 1, c);
      SpentForever(ws, steps, i, j - 1, c);
      EndStatesAbsorb(ws, steps, i, j - 1, c);
    }
  }
}
