/**
 Tickets and callbacks over whole runs: every ticket is completed once, a handoff freeze holds
 back every command, and a cancel always reaches a registered callback.
 */
module ArbiterHandoff {
  import opened Wrappers
  import opened Admission
  import opened ArbiterCore
  import opened Scheduling
  import opened ArbiterWorld
  import opened ArbiterInvariant
  import opened ArbiterReachable
  import opened ArbiterTickets
  import opened ArbiterLifeCycle
  import opened ArbiterTheorems

  // ---- how the gate evolves ----

  ghost predicate Thaws(g: GateState, step: Step) {
    step.Thaw? && Thawing(g, step.token).1
  }

  /** Tickets are only ever added by an open gate, under new numbers; only a thaw opens it. */
  ghost predicate GateEvolves(g: GateState, h: GateState, thawed: bool) {
    && g.nextSeq <= h.nextSeq
    && (forall n :: n in h.tickets ==> n in g.tickets || (n > g.nextSeq && !g.frozen))
    && (g.frozen && !thawed ==> h.frozen)
  }

  lemma QuietGate(w: World, step: Step)
    requires Enabled(w, step) && IsQuiet(step)
    ensures GateEvolves(w.core.gate, Next(w, step).core.gate, Thaws(w.core.gate, step))
  {
    if IsGateOp(step) {
      OpGate(w, step);
    } else {
      assert Next(w, step).core.gate == w.core.gate;
    }
  }

  lemma OpGate(w: World, step: Step)
    requires Enabled(w, step) && IsGateOp(step)
    ensures GateEvolves(w.core.gate, Next(w, step).core.gate, Thaws(w.core.gate, step))
  {
  }

  /** The locked sections complete tickets and leave the gate otherwise alone. */
  ghost predicate OnlyCompletes(g: GateState, h: GateState) {
    h == g.(tickets := h.tickets) && h.tickets.Keys <= g.tickets.Keys
  }

  lemma SubmitGate(a: Core, s: Session, c: CmdId, ticket: Option<Ticket>)
    ensures OnlyCompletes(a.gate, Submitting(a, s, c, ticket).0.gate)
    ensures Submitting(a, s, c, ticket).0.callbacks == a.callbacks
  {
    var b := Submitting(a, s, c, ticket).0;
    var inserted := Inserted(a, s, c, ticket);
    assert b == Discard(a, ticket) || b == Evict(inserted);
    InsertGate(a, s, c, ticket);
    DiscardGate(a, ticket);
  }

  lemma InsertGate(a: Core, s: Session, c: CmdId, ticket: Option<Ticket>)
    ensures var b := Evict(Inserted(a, s, c, ticket));
      OnlyCompletes(a.gate, b.gate) && b.callbacks == a.callbacks
  {
    EvictKeeps(Inserted(a, s, c, ticket));
  }

  lemma DiscardGate(a: Core, ticket: Option<Ticket>)
    ensures OnlyCompletes(a.gate, Discard(a, ticket).gate) && Discard(a, ticket).callbacks == a.callbacks
  {
  }

  lemma CancelGate(a: Core, c: CmdId, now: int)
    ensures OnlyCompletes(a.gate, Cancelling(a, c, now).0.gate)
    ensures Cancelling(a, c, now).0.callbacks == a.callbacks
  {
  }

  lemma FinishGate(a: Core, s: Session, c: CmdId)
    ensures var b := Release(Evict(ClearRunning(a, s, c)), {c});
      OnlyCompletes(a.gate, b.gate) && b.callbacks == a.callbacks
  {
  }

  lemma LockedGate(w: World, step: Step)
    requires Enabled(w, step) && !LeavesRecords(step)
    ensures OnlyCompletes(w.core.gate, Next(w, step).core.gate) && Next(w, step).core.callbacks == w.core.callbacks
  {
    if step.LockSubmit? {
      var AtLock(s, c, _, ticket) := w.sched.calls[step.call];
      SubmitGate(w.core, s, c, ticket);
      assert Next(w, step).core == Submitting(w.core, s, c, ticket).0;
    } else if step.Cancel? {
      CancelGate(w.core, step.cmd, step.now);
    } else if step.SendReturn? || step.SendRaise? {
      var s, c := EpochAt(w, step.epoch).session, EpochAt(w, step.epoch).phase.cmd;
      FinishGate(if step.SendReturn? then MarkReturned(w.core, c, step.result, step.now) else MarkFailed(w.core, c, step.now), s, c);
    }
  }

  lemma GateStep(w: World, step: Step)
    requires Enabled(w, step)
    ensures GateEvolves(w.core.gate, Next(w, step).core.gate, Thaws(w.core.gate, step))
  {
    if IsQuiet(step) {
      QuietGate(w, step);
    } else if !LeavesRecords(step) {
      LockedGate(w, step);
    }
  }

  lemma GateAt(ws: seq<World>, steps: seq<Step>, i: nat)
    requires IsRun(ws, steps) && i < |steps|
    ensures GateEvolves(ws[i].core.gate, ws[i + 1].core.gate, Thaws(ws[i].core.gate, steps[i]))
  {
    assert StepAt(ws, steps, i);
    GateStep(ws[i], steps[i]);
  }

  // ---- tickets ----

  /** A ticket that has been completed stays completed: its number is never live again. */
  lemma {:induction false} CompletedForGood(ws: seq<World>, steps: seq<Step>, i: nat, j: nat, n: nat)
    requires IsRun(ws, steps) && i <= j < |ws|
    requires n <= ws[i].core.gate.nextSeq && n !in ws[i].core.gate.tickets
    ensures n <= ws[j].core.gate.nextSeq && n !in ws[j].core.gate.tickets
  {
    if i < j {
      CompletedForGood(ws, steps, i, j - 1, n);
      GateAt(ws, steps, j - 1);
    }
  }

  /** The submit call or the command that holds ticket `n`. */
  ghost predicate HeldByCall(w: World, i: nat, n: nat) {
    i in w.sched.calls && w.sched.calls[i].AtLock? && w.sched.calls[i].ticket.Some? && w.sched.calls[i].ticket.value.seqNo == n
  }

  ghost predicate HeldByCmd(w: World, c: CmdId, n: nat) {
    c in w.core.tickets && w.core.tickets[c].seqNo == n
  }

  /** Whoever holds a ticket holds a live one, and nobody else holds it. */
  lemma OneHolderEach(ws: seq<World>, steps: seq<Step>, k: nat, n: nat)
    requires IsRun(ws, steps) && k < |ws|
    ensures forall i :: HeldByCall(ws[k], i, n) ==> n in ws[k].core.gate.tickets
    ensures forall c :: HeldByCmd(ws[k], c, n) ==> n in ws[k].core.gate.tickets
    ensures forall i, j :: HeldByCall(ws[k], i, n) && HeldByCall(ws[k], j, n) ==> i == j
    ensures forall c, d :: HeldByCmd(ws[k], c, n) && HeldByCmd(ws[k], d, n) ==> c == d
    ensures forall i, c :: HeldByCall(ws[k], i, n) ==> !HeldByCmd(ws[k], c, n)
  {
    TicketsAlways(ws, steps, k);
    var w := ws[k];
    assert HolderOk(w.core, w.sched.calls, w.holder, n);
    forall i | HeldByCall(w, i, n)
      ensures n in w.holder && w.holder[n] == ByCall(i)
    {
      assert CallHolds(w.sched.calls, w.holder, i);
    }
    forall c | HeldByCmd(w, c, n)
      ensures n in w.holder && w.holder[n] == ByCmd(c)
    {
      assert CmdHolds(w.core, w.holder, c);
    }
  }

  /** No submit waits for the lock, no worker is busy with a command, every record is finished. */
  ghost predicate Quiescent(w: World) {
    && (forall i :: i in w.sched.calls ==> !w.sched.calls[i].AtLock?)
    && (forall e :: e in w.sched.epochs ==> !w.sched.epochs[e].phase.Ready? && !w.sched.epochs[e].phase.Sending?)
    && (forall c :: c in w.core.commands ==> w.core.commands[c].doneAt.Some?)
  }

  /** At rest, no command ticket is left in the gate: all were completed. */
  lemma NoTicketLeaks(ws: seq<World>, steps: seq<Step>, k: nat)
    requires IsRun(ws, steps) && k < |ws| && Quiescent(ws[k])
    ensures ws[k].core.tickets == map[]
    ensures forall n :: n in ws[k].core.gate.tickets ==> n in ws[k].holder && ws[k].holder[n] == Other
  {
    TicketsAlways(ws, steps, k);
    var w := ws[k];
    forall c
      ensures c !in w.core.tickets
    {
      assert Holds(w.core, w.sched, w.exempt, c) && CmdOk(w.sched, c);
    }
    forall n | n in w.core.gate.tickets
      ensures n in w.holder && w.holder[n] == Other
    {
      assert HolderOk(w.core, w.sched.calls, w.holder, n);
    }
  }

  // ---- handoff ----

  /** Step `i` is the `freeze_if_idle` that froze the gate, and no thaw has undone it before `j`. */
  ghost predicate FrozenSince(ws: seq<World>, steps: seq<Step>, i: nat, j: nat)
    requires |ws| == |steps| + 1
  {
    && i < j < |ws|
    && steps[i].FreezeIfIdle? && !ws[i].core.gate.frozen && ws[i + 1].core.gate.frozen
    && (forall k: nat {:trigger Thaws(ws[k].core.gate, steps[k])} :: i < k < j ==> !Thaws(ws[k].core.gate, steps[k]))
  }

  lemma FreezeNeedsIdle(w: World, step: Step)
    requires Enabled(w, step) && step.FreezeIfIdle? && !w.core.gate.frozen && Next(w, step).core.gate.frozen
    ensures Next(w, step).core.gate.tickets == map[]
  {
  }

  lemma {:induction false} FrozenGateIsEmpty(ws: seq<World>, steps: seq<Step>, i: nat, j: nat)
    requires IsRun(ws, steps) && FrozenSince(ws, steps, i, j)
    ensures ws[j].core.gate.frozen && ws[j].core.gate.tickets == map[]
  {
    if i + 1 == j {
      assert StepAt(ws, steps, i);
      FreezeNeedsIdle(ws[i], steps[i]);
    } else {
      FrozenGateIsEmpty(ws, steps, i, j - 1);
      GateAt(ws, steps, j - 1);
      assert !Thaws(ws[j - 1].core.gate, steps[j - 1]);
    }
  }

  /**
   From the freeze until its thaw no command under admission is accepted or running, no submit
   of one is under way, and no worker may start one.
   */
  lemma HandoffIsSafe(ws: seq<World>, steps: seq<Step>, i: nat, j: nat, c: CmdId)
    requires IsRun(ws, steps) && FrozenSince(ws, steps, i, j) && c !in ws[j].exempt
    ensures c in ws[j].core.commands ==> ws[j].core.commands[c].status !in {Accepted, Running}
    ensures !MayStart(ws[j].core, c)
    ensures forall k :: k in ws[j].sched.calls && ws[j].sched.calls[k].AtLock? ==> ws[j].sched.calls[k].cmd != c
  {
    FrozenGateIsEmpty(ws, steps, i, j);
    TicketsAlways(ws, steps, j);
    var w := ws[j];
    assert Holds(w.core, w.sched, w.exempt, c) && RecOk(w.core, w.sched, c);
    assert CmdHolds(w.core, w.holder, c);
    forall n
      ensures n !in w.holder
    {
      assert HolderOk(w.core, w.sched.calls, w.holder, n);
    }
    forall k | k in w.sched.calls && w.sched.calls[k].AtLock?
      ensures w.sched.calls[k].cmd != c
    {
      assert CallExempt(w.sched.calls, w.exempt, k) && CallHolds(w.sched.calls, w.holder, k);
    }
  }

  // ---- cancel callbacks ----

  /** Some thread has called the callback, or is about to, having decided so under the lock. */
  ghost predicate CallDue(w: World, c: CmdId, cb: Callback) {
    (c, cb) in w.due || (c, cb) in w.invoked
  }

  lemma DueStays(w: World, step: Step, c: CmdId, cb: Callback)
    requires Enabled(w, step) && CallDue(w, c, cb)
    ensures CallDue(Next(w, step), c, cb)
  {
  }

  lemma DueStaysAt(ws: seq<World>, steps: seq<Step>, i: nat, c: CmdId, cb: Callback)
    requires IsRun(ws, steps) && i < |steps| && CallDue(ws[i], c, cb)
    ensures CallDue(ws[i + 1], c, cb)
  {
    assert StepAt(ws, steps, i);
    DueStays(ws[i], steps[i], c, cb);
  }

  lemma {:induction false} DueForever(ws: seq<World>, steps: seq<Step>, i: nat, j: nat, c: CmdId, cb: Callback)
    requires IsRun(ws, steps) && i <= j < |ws| && CallDue(ws[i], c, cb)
    ensures CallDue(ws[j], c, cb)
  {
    if i < j {
      DueForever(ws, steps, i, j - 1, c, cb);
      DueStaysAt(ws, steps, j - 1, c, cb);
    }
  }

  /** The worker of `c` registers or unregisters a callback for it. */
  ghost predicate ChangesCallback(w: World, step: Step, c: CmdId) {
    (step.AddCallback? || step.DropCallback?) && step.cmd == c && Context(w, step.epoch) == Some(c)
  }

  ghost predicate Cancels(w: World, step: Step, c: CmdId) {
    step.Cancel? && step.cmd == c && Cancelling(w.core, c, step.now).1.CancelOk?
  }

  lemma CallbackStays(w: World, step: Step, c: CmdId)
    requires Enabled(w, step) && !ChangesCallback(w, step, c) && c in w.core.callbacks
    ensures c in Next(w, step).core.callbacks && Next(w, step).core.callbacks[c] == w.core.callbacks[c]
  {
    if !LeavesRecords(step) {
      LockedGate(w, step);
    }
  }

  lemma CallbackStaysAt(ws: seq<World>, steps: seq<Step>, i: nat, c: CmdId)
    requires IsRun(ws, steps) && i < |steps| && !ChangesCallback(ws[i], steps[i], c) && c in ws[i].core.callbacks
    ensures c in ws[i + 1].core.callbacks && ws[i + 1].core.callbacks[c] == ws[i].core.callbacks[c]
  {
    assert StepAt(ws, steps, i);
    CallbackStays(ws[i], steps[i], c);
  }

  lemma {:induction false} CallbackKept(ws: seq<World>, steps: seq<Step>, i: nat, j: nat, c: CmdId)
    requires IsRun(ws, steps) && i <= j < |ws| && c in ws[i].core.callbacks
    requires forall k: nat {:trigger ChangesCallback(ws[k], steps[k], c)} :: i <= k < j ==> !ChangesCallback(ws[k], steps[k], c)
    ensures c in ws[j].core.callbacks && ws[j].core.callbacks[c] == ws[i].core.callbacks[c]
  {
    if i < j {
      CallbackKept(ws, steps, i, j - 1, c);
      assert !ChangesCallback(ws[j - 1], steps[j - 1], c);
      CallbackStaysAt(ws, steps, j - 1, c);
    }
  }

  /** What the worker's call of `register_current_cancel_callback` at step `j` returned. */
  ghost function Registered(w: World, step: Step): RegisterResult
    requires step.AddCallback?
  {
    AddingCallback(w.core, Context(w, step.epoch), step.cmd, step.callback).1
  }

  lemma CancelIsDue(w: World, step: Step, c: CmdId)
    requires Enabled(w, step) && Cancels(w, step, c) && w.core.onCancel.None? && c in w.core.callbacks
    ensures CallDue(Next(w, step), c, w.core.callbacks[c])
  {
  }

  lemma AddStores(w: World, step: Step)
    requires Enabled(w, step) && step.AddCallback? && Registered(w, step) == Stored
    ensures var a := Next(w, step).core; step.cmd in a.callbacks && a.callbacks[step.cmd] == step.callback
  {
  }

  lemma AddCallsNow(w: World, step: Step)
    requires Enabled(w, step) && step.AddCallback? && Registered(w, step) == CallNow
    ensures CallDue(Next(w, step), step.cmd, step.callback)
  {
  }

  /** Register first: a callback still registered at a successful cancel is called. */
  lemma RegisteredBeforeCancel(ws: seq<World>, steps: seq<Step>, j: nat, i: nat, k: nat)
    requires IsRun(ws, steps) && j < i < k < |ws|
    requires steps[j].AddCallback? && Registered(ws[j], steps[j]) == Stored
    requires forall m: nat {:trigger ChangesCallback(ws[m], steps[m], steps[j].cmd)} :: j < m < i ==> !ChangesCallback(ws[m], steps[m], steps[j].cmd)
    requires Cancels(ws[i], steps[i], steps[j].cmd) && ws[i].core.onCancel.None?
    ensures CallDue(ws[k], steps[j].cmd, steps[j].callback)
  {
    var c := steps[j].cmd;
    assert StepAt(ws, steps, j) && StepAt(ws, steps, i);
    AddStores(ws[j], steps[j]);
    CallbackKept(ws, steps, j + 1, i, c);
    CancelIsDue(ws[i], steps[i], c);
    DueForever(ws, steps, i + 1, k, c, steps[j].callback);
  }

  lemma CancelCancels(w: World, step: Step, c: CmdId)
    requires StateInv(w) && Enabled(w, step) && Cancels(w, step, c)
    ensures c in w.sched.loc && !w.sched.loc[c].Submitted?
    ensures c in Next(w, step).core.commands ==> Next(w, step).core.commands[c].status == Canceled
  {
    assert RecOk(w.core, w.sched, c);
    EvictKeeps(Release(MarkCanceled(w.core, c, step.now), if w.core.commands[c].status == Accepted then {c} else {}));
  }

  lemma CancelCancelsAt(ws: seq<World>, steps: seq<Step>, i: nat, c: CmdId)
    requires IsRun(ws, steps) && i < |steps| && Cancels(ws[i], steps[i], c)
    ensures c in ws[i + 1].sched.loc && !ws[i + 1].sched.loc[c].Submitted?
    ensures c in ws[i + 1].core.commands ==> ws[i + 1].core.commands[c].status == Canceled
  {
    StateAlways(ws, steps, i);
    assert StepAt(ws, steps, i);
    CancelCancels(ws[i], steps[i], c);
    LocsStayAt(ws, steps, i, c);
  }

  lemma AddCallsNowAt(ws: seq<World>, steps: seq<Step>, j: nat)
    requires IsRun(ws, steps) && j < |steps| && steps[j].AddCallback? && Registered(ws[j], steps[j]) == CallNow
    ensures CallDue(ws[j + 1], steps[j].cmd, steps[j].callback)
  {
    assert StepAt(ws, steps, j);
    AddCallsNow(ws[j], steps[j]);
  }

  /** Inside its own send, a command cancelled earlier is still marked so. */
  lemma CanceledInSend(w: World, e: nat, c: CmdId)
    requires StateInv(w) && Context(w, e) == Some(c) && c in w.core.commands && w.core.commands[c].status in {Canceled, Error}
    ensures w.core.commands[c].status == Canceled
  {
    assert CmdOk(w.sched, c) && RecOk(w.core, w.sched, c);
  }

  /**
   A registration is never answered with success while the callback is dropped: in its own send a
   command has no `done_at` unless it was cancelled.
   */
  lemma NeverTooLate(ws: seq<World>, steps: seq<Step>, j: nat)
    requires IsRun(ws, steps) && j < |steps| && steps[j].AddCallback?
    ensures Registered(ws[j], steps[j]) != TooLate
  {
    StateAlways(ws, steps, j);
    var c := steps[j].cmd;
    assert CmdOk(ws[j].sched, c) && RecOk(ws[j].core, ws[j].sched, c);
  }

  /** Cancel first: the worker's later registration is refused, or the callback is called at once. */
  lemma CancelledBeforeRegister(ws: seq<World>, steps: seq<Step>, i: nat, j: nat, k: nat)
    requires IsRun(ws, steps) && i < j < k < |ws|
    requires steps[j].AddCallback? && Context(ws[j], steps[j].epoch) == Some(steps[j].cmd)
    requires Cancels(ws[i], steps[i], steps[j].cmd)
    ensures Registered(ws[j], steps[j]) == Refused || CallDue(ws[k], steps[j].cmd, steps[j].callback)
  {
    var c := steps[j].cmd;
    CancelCancelsAt(ws, steps, i, c);
    SpentForever(ws, steps, i + 1, j, c);
    if c in ws[j].core.commands {
      EndStatesAbsorb(ws, steps, i + 1, j, c);
      StateAlways(ws, steps, j);
      CanceledInSend(ws[j], steps[j].epoch, c);
      AddCallsNowAt(ws, steps, j);
      DueForever(ws, steps, j + 1, k, c, steps[j].callback);
    }
  }
}
