/**
 Back-pressure and bounded history: no session ever has more than `PENDING_MAX` commands
 pending, and so the command history stays bounded although a flush never evicts.
 */
module ArbiterBounds {
  import opened Wrappers
  import opened Admission
  import opened ArbiterCore
  import opened Scheduling
  import opened ArbiterWorld
  import opened ArbiterInvariant
  import opened ArbiterReachable
  import opened ArbiterTickets
  import opened ArbiterLifeCycle

  ghost predicate Bounded(a: Core, s: Session) {
    Pending(a, s) <= PENDING_MAX
  }

  ghost predicate BoundInv(w: World) {
    && (forall s {:trigger Bounded(w.core, s)} :: Bounded(w.core, s))
    && (forall e :: e in w.sched.epochs ==> w.sched.epochs[e].session in w.sessions)
    && |w.core.commands| <= Max(HISTORY_MAX, PENDING_MAX * |w.sessions|)
  }

  // ---- pending counts do not grow ----

  /** What makes a pending count shrink or stay. */
  ghost predicate Relieved(a: Core, b: Core, s: Session) {
    && Unfinished(b.commands, s) <= Unfinished(a.commands, s)
    && (CanceledInWorker(b, s) && !CanceledInWorker(a, s) ==> Unfinished(b.commands, s) != Unfinished(a.commands, s))
  }

  lemma RelievedPending(a: Core, b: Core, s: Session)
    requires Relieved(a, b, s)
    ensures Pending(b, s) <= Pending(a, s)
  {
    SubsetSize(Unfinished(b.commands, s), Unfinished(a.commands, s));
  }

  lemma KeptRelieved(a: Core, b: Core, s: Session)
    requires Kept(a, b)
    ensures Relieved(a, b, s)
  {
    if s in a.running {
      assert a.running[s] in a.running.Values;
    }
  }

  lemma KeptSmaller(a: Core, b: Core)
    requires Kept(a, b)
    ensures |b.commands| <= |a.commands|
  {
    SubsetSize(b.commands.Keys, a.commands.Keys);
  }

  ghost predicate NoMore(a: Core, b: Core, s: Session) {
    Pending(b, s) <= Pending(a, s)
  }

  /** `b` asks no more of the bounds than `a` does. */
  ghost predicate Calmer(a: Core, b: Core) {
    && (forall s {:trigger NoMore(a, b, s)} :: NoMore(a, b, s))
    && |b.commands| <= |a.commands|
  }

  lemma CalmerBounds(w: World, v: World)
    requires BoundInv(w) && Calmer(w.core, v.core) && v.sessions == w.sessions
    requires forall e :: e in v.sched.epochs ==> e in w.sched.epochs && v.sched.epochs[e].session == w.sched.epochs[e].session
    ensures BoundInv(v)
  {
    forall s
      ensures Bounded(v.core, s)
    {
      assert Bounded(w.core, s) && NoMore(w.core, v.core, s);
    }
  }

  lemma CalmerTrans(a: Core, b: Core, c: Core)
    requires Calmer(a, b) && Calmer(b, c)
    ensures Calmer(a, c)
  {
    forall s
      ensures NoMore(a, c, s)
    {
      assert NoMore(a, b, s) && NoMore(b, c, s);
    }
  }

  lemma KeptCalmer(a: Core, b: Core)
    requires Kept(a, b)
    ensures Calmer(a, b)
  {
    KeptSmaller(a, b);
    forall s
      ensures NoMore(a, b, s)
    {
      KeptRelieved(a, b, s);
      RelievedPending(a, b, s);
    }
  }

  lemma SameRecordsCalmer(a: Core, b: Core)
    requires b.commands == a.commands && b.running == a.running
    ensures Calmer(a, b)
  {
    forall s
      ensures NoMore(a, b, s)
    {
      RelievedPending(a, b, s);
    }
  }

  lemma FlushCalmer(a: Core, b: Core, s: Session, code: string, now: int)
    requires b.commands == Flushing(a, s, code, now).commands && b.running == a.running
    ensures Calmer(a, b)
  {
    forall t
      ensures NoMore(a, b, t)
    {
      RelievedPending(a, b, t);
    }
    assert b.commands.Keys == a.commands.Keys;
  }

  lemma StartCalmer(a: Core, s: Session, c: CmdId, now: int)
    requires MayStart(a, c)
    ensures Calmer(a, MarkRunning(a, s, c, now))
  {
    var b := MarkRunning(a, s, c, now);
    forall t
      ensures NoMore(a, b, t)
    {
      assert Unfinished(b.commands, t) == Unfinished(a.commands, t);
      RelievedPending(a, b, t);
    }
  }

  /** Cancelling a running command trades its pending count for the canceled-in-worker one. */
  lemma CancelCalmer(a: Core, sc: Sched, ended: set<CmdId>, c: CmdId, now: int)
    requires CoreInv(a, sc, ended) && c in a.commands
    ensures Calmer(a, MarkCanceled(a, c, now))
  {
    var b := MarkCanceled(a, c, now);
    assert RecOk(a, sc, c);
    forall t
      ensures NoMore(a, b, t)
    {
      assert RunOk(a, sc, t);
      assert c !in Unfinished(b.commands, t);
      RelievedPending(a, b, t);
    }
    assert b.commands.Keys == a.commands.Keys;
  }

  lemma FinishCalmer(a: Core, b: Core, s: Session, c: CmdId)
    requires Finished(a, b, c)
    requires forall t :: t in a.running && a.running[t] == c ==> t == s
    ensures Calmer(a, ClearRunning(b, s, c))
  {
    var b1 := ClearRunning(b, s, c);
    forall t
      ensures NoMore(a, b1, t)
    {
      FinishRelieves(a, b, s, c, t);
      RelievedPending(a, b1, t);
    }
    assert b1.commands.Keys == a.commands.Keys;
  }

  lemma FinishRelieves(a: Core, b: Core, s: Session, c: CmdId, t: Session)
    requires Finished(a, b, c)
    requires forall u :: u in a.running && a.running[u] == c ==> u == s
    ensures Relieved(a, ClearRunning(b, s, c), t)
  {
  }

  // ---- the history bound ----

  function OfSession(commands: map<CmdId, Rec>, cs: set<CmdId>, s: Session): set<CmdId> {
    set c | c in cs && c in commands && commands[c].session == s
  }

  lemma {:induction false} SumOverSessions(commands: map<CmdId, Rec>, cs: set<CmdId>, sessions: set<Session>, k: nat)
    requires forall c :: c in cs ==> c in commands && commands[c].session in sessions
    requires forall s :: s in sessions ==> |OfSession(commands, cs, s)| <= k
    ensures |cs| <= k * |sessions|
    decreases |sessions|
  {
    if sessions == {} {
      assert cs == {};
    } else {
      var s :| s in sessions;
      var mine, others := OfSession(commands, cs, s), sessions - {s};
      assert cs == mine + (cs - mine);
      forall t | t in others
        ensures |OfSession(commands, cs - mine, t)| <= k
      {
        SubsetSize(OfSession(commands, cs - mine, t), OfSession(commands, cs, t));
      }
      SumOverSessions(commands, cs - mine, others, k);
      Distribute(k, |others|);
    }
  }

  lemma Distribute(k: nat, n: nat)
    ensures k * (n + 1) == k * n + k
  {
  }

  /** The records that eviction must keep, of one session: no more than its pending count. */
  lemma KeptOfSession(a: Core, sc: Sched, ended: set<CmdId>, s: Session)
    requires CoreInv(a, sc, ended)
    ensures |OfSession(a.commands, a.commands.Keys - Evictable(a.commands, a.running.Values), s)| <= Pending(a, s)
  {
    var keep := OfSession(a.commands, a.commands.Keys - Evictable(a.commands, a.running.Values), s);
    var all := Unfinished(a.commands, s) + if CanceledInWorker(a, s) then {a.running[s]} else {};
    forall c | c in keep
      ensures c in all
    {
      assert RecOk(a, sc, c);
      if a.commands[c].doneAt.Some? {
        var t :| t in a.running && a.running[t] == c;
        assert RunOk(a, sc, t);
      }
    }
    SubsetSize(keep, all);
  }

  lemma EvictBound(a: Core, sc: Sched, ended: set<CmdId>, sessions: set<Session>)
    requires CoreInv(a, sc, ended)
    requires forall s {:trigger Bounded(a, s)} :: Bounded(a, s)
    requires forall e :: e in sc.epochs ==> sc.epochs[e].session in sessions
    ensures |Evict(a).commands| <= Max(HISTORY_MAX, PENDING_MAX * |sessions|)
  {
    var cands := Evictable(a.commands, a.running.Values);
    var victims := Victims(a.commands, a.running.Values);
    assert IsEvicted(a.commands, a.running.Values, victims);
    KeptBound(a, sc, ended, sessions);
    assert Evict(a).commands.Keys == a.commands.Keys - victims;
    assert a.commands.Keys == (a.commands.Keys - cands) + cands;
    assert |a.commands.Keys - victims| == |a.commands| - |victims|;
  }

  /** Records that may not be evicted are bounded by the sessions. */
  lemma KeptBound(a: Core, sc: Sched, ended: set<CmdId>, sessions: set<Session>)
    requires CoreInv(a, sc, ended)
    requires forall s {:trigger Bounded(a, s)} :: Bounded(a, s)
    requires forall e :: e in sc.epochs ==> sc.epochs[e].session in sessions
    ensures |a.commands.Keys - Evictable(a.commands, a.running.Values)| <= PENDING_MAX * |sessions|
  {
    var keep := a.commands.Keys - Evictable(a.commands, a.running.Values);
    forall c | c in keep
      ensures c in a.commands && a.commands[c].session in sessions
    {
      assert RecOk(a, sc, c);
    }
    forall s | s in sessions
      ensures |OfSession(a.commands, keep, s)| <= PENDING_MAX
    {
      assert Bounded(a, s);
      KeptOfSession(a, sc, ended, s);
    }
    SumOverSessions(a.commands, keep, sessions, PENDING_MAX);
  }

  // ---- every step ----

  lemma InsertBounded(a: Core, s: Session, c: CmdId, ticket: Option<Ticket>, t: Session)
    requires c !in a.commands && Bounded(a, t) && Pending(a, s) < PENDING_MAX
    ensures Bounded(Inserted(a, s, c, ticket), t)
  {
    var b := Inserted(a, s, c, ticket);
    if t == s {
      assert Unfinished(b.commands, s) == Unfinished(a.commands, s) + {c};
    } else {
      assert Unfinished(b.commands, t) == Unfinished(a.commands, t);
    }
    assert t in a.running && a.running[t] == c ==> !CanceledInWorker(b, t);
  }

  lemma InsertAllBounded(a: Core, s: Session, c: CmdId, ticket: Option<Ticket>)
    requires c !in a.commands && Pending(a, s) < PENDING_MAX
    requires forall t {:trigger Bounded(a, t)} :: Bounded(a, t)
    ensures var b := Inserted(a, s, c, ticket); forall t {:trigger Bounded(b, t)} :: Bounded(b, t)
  {
    var b := Inserted(a, s, c, ticket);
    forall t
      ensures Bounded(b, t)
    {
      assert Bounded(a, t);
      InsertBounded(a, s, c, ticket, t);
    }
  }

  lemma EvictBounded(a: Core)
    requires forall t {:trigger Bounded(a, t)} :: Bounded(a, t)
    ensures var b := Evict(a); forall t {:trigger Bounded(b, t)} :: Bounded(b, t)
  {
    var b := Evict(a);
    EvictKeeps(a);
    KeptCalmer(a, b);
    forall t
      ensures Bounded(b, t)
    {
      assert Bounded(a, t) && NoMore(a, b, t);
    }
  }

  lemma AcceptAllBounded(w: World, i: nat)
    requires StateInv(w) && BoundInv(w) && i in w.sched.calls && w.sched.calls[i].AtLock?
    requires Pending(w.core, w.sched.calls[i].session) < PENDING_MAX
    ensures var AtLock(s, c, _, ticket) := w.sched.calls[i];
      forall t {:trigger Bounded(Inserted(w.core, s, c, ticket), t)} :: Bounded(Inserted(w.core, s, c, ticket), t)
  {
    var AtLock(s, c, _, ticket) := w.sched.calls[i];
    assert CmdOk(w.sched, c) && RecOk(w.core, w.sched, c);
    InsertAllBounded(w.core, s, c, ticket);
  }

  lemma AcceptBounds(w: World, i: nat)
    requires StateInv(w) && BoundInv(w) && i in w.sched.calls && w.sched.calls[i].AtLock?
    requires var AtLock(s, c, _, ticket) := w.sched.calls[i]; s in w.core.queues && Pending(w.core, s) < PENDING_MAX
    ensures var AtLock(s, c, _, ticket) := w.sched.calls[i];
      BoundInv(w.(core := Evict(Inserted(w.core, s, c, ticket)),
                  sched := AcceptCall(w.sched, i, w.core.queues[s], w.core.counter + 1)))
  {
    var AtLock(s, c, _, ticket) := w.sched.calls[i];
    AcceptAllBounded(w, i);
    InsertInv(w.core, w.sched, w.flushed + w.early, i);
    EvictBounds(w, Inserted(w.core, s, c, ticket), AcceptCall(w.sched, i, w.core.queues[s], w.core.counter + 1));
  }

  lemma EvictBounds(w: World, b: Core, sd: Sched)
    requires CoreInv(b, sd, w.flushed + w.early)
    requires forall t {:trigger Bounded(b, t)} :: Bounded(b, t)
    requires forall e :: e in sd.epochs ==> sd.epochs[e].session in w.sessions
    ensures BoundInv(w.(core := Evict(b), sched := sd))
  {
    EvictBound(b, sd, w.flushed + w.early, w.sessions);
    EvictBounded(b);
  }

  lemma LockSubmitBounds(w: World, i: nat)
    requires StateInv(w) && BoundInv(w) && i in w.sched.calls && w.sched.calls[i].AtLock?
    ensures BoundInv(AfterLockSubmit(w, i))
  {
    LockSubmitParts(w, i);
    var AtLock(s, c, _, ticket) := w.sched.calls[i];
    if Submitting(w.core, s, c, ticket).1.Enqueue? {
      AcceptBounds(w, i);
    } else {
      SameRecordsCalmer(w.core, AfterLockSubmit(w, i).core);
      CalmerBounds(w, AfterLockSubmit(w, i));
    }
  }

  lemma RegisterBounds(w: World, s: Session, e: nat)
    requires BoundInv(w) && e !in w.sched.epochs
    ensures BoundInv(AfterRegister(w, s, e))
  {
    var v := AfterRegister(w, s, e);
    SameRecordsCalmer(w.core, v.core);
    CalmerBounds(w, w.(core := v.core));
    SubsetSize(w.sessions, v.sessions);
    forall t
      ensures Bounded(v.core, t)
    {
      assert Bounded(w.core, t) && NoMore(w.core, v.core, t);
    }
  }

  lemma FinishBounds(w: World, e: nat, b: Core)
    requires StateInv(w) && e in w.sched.epochs && EpochAt(w, e).phase.Sending?
    requires Finished(w.core, b, EpochAt(w, e).phase.cmd)
    ensures var s, c := EpochAt(w, e).session, EpochAt(w, e).phase.cmd;
      Calmer(w.core, Release(Evict(ClearRunning(b, s, c)), {c}))
  {
    var s, c := EpochAt(w, e).session, EpochAt(w, e).phase.cmd;
    var b1 := ClearRunning(b, s, c);
    assert CmdOk(w.sched, c);
    forall t | t in w.core.running && w.core.running[t] == c
      ensures t == s
    {
      assert RunOk(w.core, w.sched, t) && RecOk(w.core, w.sched, c);
    }
    FinishCalmer(w.core, b, s, c);
    EvictKeeps(b1);
    KeptCalmer(b1, Evict(b1));
    SameRecordsCalmer(Evict(b1), Release(Evict(b1), {c}));
    CalmerTrans(w.core, b1, Evict(b1));
    CalmerTrans(w.core, Evict(b1), Release(Evict(b1), {c}));
  }

  lemma CancelBounds(w: World, c: CmdId, now: int)
    requires StateInv(w)
    ensures Calmer(w.core, AfterCancel(w, c, now).core)
  {
    if c in w.core.commands && w.core.commands[c].status !in {Done, Error} {
      var cs: set<CmdId> := if w.core.commands[c].status == Accepted then {c} else {};
      var b1 := MarkCanceled(w.core, c, now);
      var b2 := Release(b1, cs);
      CancelCalmer(w.core, w.sched, w.flushed + w.early, c, now);
      SameRecordsCalmer(b1, b2);
      EvictKeeps(b2);
      KeptCalmer(b2, Evict(b2));
      CalmerTrans(w.core, b1, b2);
      CalmerTrans(w.core, b2, Evict(b2));
    } else {
      SameRecordsCalmer(w.core, w.core);
    }
  }

  lemma LockStartBounds(w: World, e: nat, now: int)
    requires e in w.sched.epochs && EpochAt(w, e).phase.Checked?
    ensures Calmer(w.core, AfterLockStart(w, e, now).core)
  {
    var c, s := EpochAt(w, e).phase.cmd, EpochAt(w, e).session;
    if MayStart(w.core, c) {
      StartCalmer(w.core, s, c, now);
    } else {
      SameRecordsCalmer(w.core, Release(w.core, {c}));
    }
  }

  lemma SendReturnBounds(w: World, e: nat, result: SendResult, now: int)
    requires StateInv(w) && e in w.sched.epochs && EpochAt(w, e).phase.Sending?
    ensures Calmer(w.core, AfterSendReturn(w, e, result, now).core)
  {
    var c := EpochAt(w, e).phase.cmd;
    assert RecOk(w.core, w.sched, c);
    FinishBounds(w, e, MarkReturned(w.core, c, result, now));
  }

  lemma SendRaiseBounds(w: World, e: nat, now: int)
    requires StateInv(w) && e in w.sched.epochs && EpochAt(w, e).phase.Sending?
    ensures Calmer(w.core, AfterSendRaise(w, e, now).core)
  {
    FinishBounds(w, e, MarkFailed(w.core, EpochAt(w, e).phase.cmd, now));
  }

  /** Steps that neither insert a record nor register a session. */
  lemma CalmStep(w: World, step: Step)
    requires StateInv(w) && Enabled(w, step)
    requires !step.LockSubmit? && !step.Register? && !IsQuiet(step)
    ensures Calmer(w.core, Next(w, step).core)
  {
    if step.Unregister? || step.Flush? {
      FlushCalmer(w.core, Next(w, step).core, step.session, step.code, step.now);
    } else if step.LockStart? {
      LockStartBounds(w, step.epoch, step.now);
    } else if step.SendReturn? {
      SendReturnBounds(w, step.epoch, step.result, step.now);
    } else if step.SendRaise? {
      SendRaiseBounds(w, step.epoch, step.now);
    } else if step.Cancel? {
      CancelBounds(w, step.cmd, step.now);
    } else {
      AsideCalm(w, step);
    }
  }

  lemma AsideCalm(w: World, step: Step)
    requires Enabled(w, step)
    requires step.BeginSubmit? || step.PutSubmit? || step.Dequeue? || step.CheckStop? || step.SendStart?
      || step.OtherAdmit? || step.OtherDone?
    ensures Calmer(w.core, Next(w, step).core)
  {
    SameRecordsCalmer(w.core, Next(w, step).core);
  }

  ghost predicate SessionsKept(w: World, v: World) {
    && v.sessions == w.sessions
    && (forall e :: e in v.sched.epochs ==>
          e in w.sched.epochs && v.sched.epochs[e].session == w.sched.epochs[e].session)
  }

  predicate StopsWorker(step: Step) {
    step.SetStop? || step.PutSentinel? || step.ExitWorker?
  }

  lemma StopKeepsSessions(w: World, step: Step)
    requires Enabled(w, step) && StopsWorker(step)
    ensures SessionsKept(w, Next(w, step))
  {
    OneEpochKeepsSessions(w, Next(w, step), step.epoch, Next(w, step).sched.epochs[step.epoch]);
  }

  lemma QuietKeepsSessions(w: World, step: Step)
    requires Enabled(w, step) && IsQuiet(step)
    ensures SessionsKept(w, Next(w, step))
  {
    if StopsWorker(step) {
      StopKeepsSessions(w, step);
    } else if IsGateOp(step) {
      GateOpKeepsSched(w, step);
      SameEpochsKeepSessions(w, Next(w, step));
    } else {
      SameEpochsKeepSessions(w, Next(w, step));
    }
  }

  lemma GateOpKeepsSched(w: World, step: Step)
    requires Enabled(w, step) && IsGateOp(step)
    ensures Next(w, step).sched == w.sched && Next(w, step).sessions == w.sessions
  {
  }

  /** A step keeps the sessions when it only moves phases and queues, or closes a registration. */
  lemma SameEpochsKeepSessions(w: World, v: World)
    requires v.sessions == w.sessions
    requires v.sched.epochs == w.sched.epochs
    ensures SessionsKept(w, v)
  {
  }

  lemma OneEpochKeepsSessions(w: World, v: World, e: nat, ep: Epoch)
    requires v.sessions == w.sessions && e in w.sched.epochs
    requires v.sched.epochs == w.sched.epochs[e := ep] && ep.session == w.sched.epochs[e].session
    ensures SessionsKept(w, v)
  {
  }

  lemma UnregisterKeepsSessions(w: World, s: Session, code: string, now: int)
    ensures SessionsKept(w, AfterUnregister(w, s, code, now))
  {
    var v := AfterUnregister(w, s, code, now);
    if s in w.core.queues && w.core.queues[s] in w.sched.epochs {
      var e := w.core.queues[s];
      OneEpochKeepsSessions(w, v, e, w.sched.epochs[e].(closing := Popped));
    } else {
      SameEpochsKeepSessions(w, v);
    }
  }

  lemma SubmitKeepsSessions(w: World, i: nat)
    requires i in w.sched.calls && w.sched.calls[i].AtLock?
    ensures SessionsKept(w, AfterLockSubmit(w, i))
  {
    SameEpochsKeepSessions(w, AfterLockSubmit(w, i));
  }

  lemma StartKeepsSessions(w: World, e: nat, now: int)
    requires e in w.sched.epochs && EpochAt(w, e).phase.Checked?
    ensures SessionsKept(w, AfterLockStart(w, e, now))
  {
    var v := AfterLockStart(w, e, now);
    OneEpochKeepsSessions(w, v, e, v.sched.epochs[e]);
  }

  lemma FinishKeepsSessions(w: World, v: World, e: nat)
    requires v.sessions == w.sessions && e in w.sched.epochs && EpochAt(w, e).phase.Sending?
    requires v.sched == FinishItem(w.sched, e)
    ensures SessionsKept(w, v)
  {
    OneEpochKeepsSessions(w, v, e, w.sched.epochs[e].(phase := Polling));
  }

  lemma LockedKeepsSessions(w: World, step: Step)
    requires Enabled(w, step) && !LeavesRecords(step)
    ensures SessionsKept(w, Next(w, step))
  {
    if step.LockSubmit? {
      SubmitKeepsSessions(w, step.call);
    } else if step.LockStart? {
      StartKeepsSessions(w, step.epoch, step.now);
    } else if step.Unregister? {
      UnregisterKeepsSessions(w, step.session, step.code, step.now);
    } else if step.SendReturn? || step.SendRaise? {
      FinishKeepsSessions(w, Next(w, step), step.epoch);
    } else {
      SameEpochsKeepSessions(w, Next(w, step));
    }
  }

  lemma EpochsKeepSessions(w: World, step: Step)
    requires Enabled(w, step) && !step.Register?
    ensures SessionsKept(w, Next(w, step))
  {
    if IsQuiet(step) {
      QuietKeepsSessions(w, step);
    } else if !LeavesRecords(step) {
      LockedKeepsSessions(w, step);
    }
  }

  lemma BoundStep(w: World, step: Step)
    requires StateInv(w) && BoundInv(w) && Enabled(w, step)
    ensures BoundInv(Next(w, step))
  {
    if step.LockSubmit? {
      LockSubmitBounds(w, step.call);
    } else if step.Register? {
      RegisterBounds(w, step.session, step.epoch);
    } else {
      EpochsKeepSessions(w, step);
      if IsQuiet(step) {
        NextIsQuiet(w, step);
        SameRecordsCalmer(w.core, Next(w, step).core);
      } else {
        CalmStep(w, step);
      }
      CalmerBounds(w, Next(w, step));
    }
  }

  lemma BoundsAdvance(ws: seq<World>, steps: seq<Step>, i: nat)
    requires IsRun(ws, steps) && i < |steps| && StateInv(ws[i]) && BoundInv(ws[i])
    ensures BoundInv(ws[i + 1])
  {
    assert StepAt(ws, steps, i);
    BoundStep(ws[i], steps[i]);
  }

  lemma {:induction false} BoundsAlways(ws: seq<World>, steps: seq<Step>, i: nat)
    requires IsRun(ws, steps) && i < |ws|
    ensures BoundInv(ws[i])
  {
    if i > 0 {
      StateAlways(ws, steps, i - 1);
      BoundsAlways(ws, steps, i - 1);
      BoundsAdvance(ws, steps, i - 1);
    }
  }
}
