/**
 What every reachable state satisfies: command records, the `_running` table and the
 registrations agree with the threads around them.
 */
module ArbiterInvariant {
  import opened Wrappers
  import opened Admission
  import opened ArbiterCore
  import opened Scheduling
  import opened ArbiterWorld

  /** `_queues` names exactly the registrations that no `unregister_session` has popped. */
  ghost predicate QueueInv(a: Core, sc: Sched) {
    && (forall s :: s in a.queues ==>
          a.queues[s] in sc.epochs && sc.epochs[a.queues[s]].session == s && sc.epochs[a.queues[s]].closing.Open?)
    && (forall e :: e in sc.epochs && sc.epochs[e].closing.Open? ==>
          sc.epochs[e].session in a.queues && a.queues[sc.epochs[e].session] == e)
    && (forall e :: e in sc.epochs && sc.epochs[e].phase.Ended? ==> sc.epochs[e].Stopped())
  }

  /** The statuses a record can have while its queue item is at a given place. */
  predicate StatusFits(s: Status, l: Loc) {
    match l
    case Submitted(_) => false
    case Putting(_) => s in {Accepted, Canceled, Error}
    case Queued(_, _) => s in {Accepted, Canceled, Error}
    case InHand(_) => s in {Accepted, Canceled, Error}
    case Started(_) => s in {Running, Canceled}
    case Sent(_) => s in {Running, Canceled}
    case Returned => s in {Done, Error, Interactive, Canceled}
    case Skipped => s in {Canceled, Error}
  }

  ghost predicate RecOk(a: Core, sc: Sched, c: CmdId) {
    c in a.commands ==>
      var r := a.commands[c];
      && c in sc.loc && c in sc.home && sc.home[c] in sc.epochs
      && sc.epochs[sc.home[c]].session == r.session
      && 1 <= r.order <= a.counter
      && (r.doneAt.None? <==> r.status in {Accepted, Running})
      && StatusFits(r.status, sc.loc[c])
      && (r.status == Accepted ==> sc.epochs[sc.home[c]].closing.Open?)
  }

  /** `_running` names a kept record whose worker has not returned. */
  ghost predicate RunOk(a: Core, sc: Sched, s: Session) {
    s in a.running ==>
      var c := a.running[s];
      c in a.commands && a.commands[c].session == s && c in sc.loc && (sc.loc[c].Started? || sc.loc[c].Sent?)
  }

  ghost predicate RecInv(a: Core, sc: Sched) {
    && (forall c {:trigger RecOk(a, sc, c)} :: RecOk(a, sc, c))
    && (forall s {:trigger RunOk(a, sc, s)} :: RunOk(a, sc, s))
    && DistinctOrders(a.commands)
  }

  /** Flushed commands and those cancelled while accepted are over before they started. */
  ghost predicate NeverStarted(a: Core, sc: Sched, ended: set<CmdId>, c: CmdId) {
    c in ended ==>
      && c in sc.loc && c in sc.home
      && (sc.loc[c].Putting? || sc.loc[c].Queued? || sc.loc[c].InHand? || sc.loc[c].Skipped?)
      && (c in a.commands ==> a.commands[c].doneAt.Some?)
  }

  ghost predicate CoreInv(a: Core, sc: Sched, ended: set<CmdId>) {
    && QueueInv(a, sc)
    && RecInv(a, sc)
    && (forall c {:trigger NeverStarted(a, sc, ended, c)} :: NeverStarted(a, sc, ended, c))
  }

  // ---- eviction ----

  /** `b` is `a` after evicting some finished records that no worker holds. */
  ghost predicate Kept(a: Core, b: Core) {
    && b == a.(commands := b.commands)
    && (forall c :: c in b.commands ==> c in a.commands && b.commands[c] == a.commands[c])
    && (forall c :: c in a.commands && c !in b.commands ==> a.commands[c].doneAt.Some? && c !in a.running.Values)
  }

  lemma EvictKeeps(a: Core)
    ensures Kept(a, Evict(a))
  {
  }

  lemma KeptInv(a: Core, b: Core, sc: Sched, ended: set<CmdId>)
    requires CoreInv(a, sc, ended) && Kept(a, b)
    ensures CoreInv(b, sc, ended)
  {
    forall c
      ensures RecOk(b, sc, c) && NeverStarted(b, sc, ended, c)
    {
      assert RecOk(a, sc, c) && NeverStarted(a, sc, ended, c);
    }
    forall s
      ensures RunOk(b, sc, s)
    {
      assert RunOk(a, sc, s);
    }
  }

  // ---- submit ----

  lemma InsertInv(a: Core, sc: Sched, ended: set<CmdId>, i: nat)
    requires SchedInv(sc) && CoreInv(a, sc, ended) && i in sc.calls && sc.calls[i].AtLock? && sc.calls[i].session in a.queues
    ensures var AtLock(s, c, _, ticket) := sc.calls[i];
      CoreInv(Inserted(a, s, c, ticket), AcceptCall(sc, i, a.queues[s], a.counter + 1), ended)
  {
    var AtLock(s, c, _, ticket) := sc.calls[i];
    var b, sd := Inserted(a, s, c, ticket), AcceptCall(sc, i, a.queues[s], a.counter + 1);
    assert CmdOk(sc, c) && RecOk(a, sc, c);
    forall d
      ensures RecOk(b, sd, d) && NeverStarted(b, sd, ended, d)
    {
      assert RecOk(a, sc, d) && NeverStarted(a, sc, ended, d);
    }
    forall t
      ensures RunOk(b, sd, t)
    {
      assert RunOk(a, sc, t);
    }
    forall d, f | d in b.commands && f in b.commands && b.commands[d].order == b.commands[f].order
      ensures d == f
    {
      assert RecOk(a, sc, d) && RecOk(a, sc, f);
    }
  }

  // ---- moves that leave the records alone ----

  predicate Shifts(l: Loc, m: Loc) {
    l == m || (l.Putting? && m.Queued?) || (l.Queued? && m.InHand?) || (l.Started? && m.Sent?)
  }

  ghost predicate CmdMoves(a: Core, sc: Sched, sd: Sched, c: CmdId) {
    && (c in sc.loc && c in sc.home ==>
          && c in sd.loc && c in sd.home && sd.home[c] == sc.home[c]
          && (Shifts(sc.loc[c], sd.loc[c])
              || (sc.loc[c].InHand? && sd.loc[c].Skipped? && sc.home[c] in sc.epochs && !sc.epochs[sc.home[c]].closing.Open?)))
  }

  ghost predicate EpochMoves(sc: Sched, sd: Sched, e: nat) {
    && (e in sc.epochs <==> e in sd.epochs)
    && (e in sc.epochs ==>
          && sd.epochs[e].session == sc.epochs[e].session
          && (sd.epochs[e].closing.Open? <==> sc.epochs[e].closing.Open?)
          && (sc.epochs[e].Stopped() ==> sd.epochs[e].Stopped())
          && (sd.epochs[e].phase.Ended? ==> sd.epochs[e].Stopped()))
  }

  lemma MoveInv(a: Core, sc: Sched, sd: Sched, ended: set<CmdId>)
    requires CoreInv(a, sc, ended)
    requires forall c {:trigger CmdMoves(a, sc, sd, c)} :: CmdMoves(a, sc, sd, c)
    requires forall e {:trigger EpochMoves(sc, sd, e)} :: EpochMoves(sc, sd, e)
    ensures CoreInv(a, sd, ended)
  {
    forall c
      ensures RecOk(a, sd, c) && NeverStarted(a, sd, ended, c)
    {
      assert RecOk(a, sc, c) && NeverStarted(a, sc, ended, c) && CmdMoves(a, sc, sd, c);
      if c in sc.home {
        assert EpochMoves(sc, sd, sc.home[c]);
      }
    }
    forall s
      ensures RunOk(a, sd, s)
    {
      assert RunOk(a, sc, s);
      if s in a.running {
        assert RecOk(a, sc, a.running[s]) && CmdMoves(a, sc, sd, a.running[s]);
      }
    }
    forall e | e in sd.epochs
      ensures sd.epochs[e].closing.Open? ==> sd.epochs[e].session in a.queues && a.queues[sd.epochs[e].session] == e
      ensures sd.epochs[e].phase.Ended? ==> sd.epochs[e].Stopped()
    {
      assert EpochMoves(sc, sd, e);
    }
    forall s | s in a.queues
      ensures a.queues[s] in sd.epochs && sd.epochs[a.queues[s]].session == s && sd.epochs[a.queues[s]].closing.Open?
    {
      assert EpochMoves(sc, sd, a.queues[s]);
    }
  }

  /** The invariant looks at neither tickets, callbacks nor the gate. */
  lemma SameRecordsInv(a: Core, b: Core, sc: Sched, ended: set<CmdId>)
    requires CoreInv(a, sc, ended)
    requires b.queues == a.queues && b.commands == a.commands && b.running == a.running && b.counter == a.counter
    ensures CoreInv(b, sc, ended)
  {
    forall c
      ensures RecOk(b, sc, c) && NeverStarted(b, sc, ended, c)
    {
      assert RecOk(a, sc, c) && NeverStarted(a, sc, ended, c);
    }
    forall s
      ensures RunOk(b, sc, s)
    {
      assert RunOk(a, sc, s);
    }
  }

  lemma BeginInv(a: Core, sc: Sched, ended: set<CmdId>, i: nat, call: Call)
    requires SchedInv(sc) && CoreInv(a, sc, ended) && i !in sc.calls && call.AtLock? && call.cmd !in sc.loc
    ensures CoreInv(a, BeginCall(sc, i, call), ended)
  {
    MoveInv(a, sc, BeginCall(sc, i, call), ended);
  }

  lemma RejectInv(a: Core, sc: Sched, ended: set<CmdId>, i: nat)
    requires SchedInv(sc) && CoreInv(a, sc, ended) && i in sc.calls && sc.calls[i].AtLock?
    ensures CoreInv(a, RejectCall(sc, i), ended)
  {
    var c, sd := sc.calls[i].cmd, RejectCall(sc, i);
    assert CmdOk(sc, c);
    forall d
      ensures RecOk(a, sd, d) && NeverStarted(a, sd, ended, d)
    {
      assert RecOk(a, sc, d) && NeverStarted(a, sc, ended, d);
    }
    forall s
      ensures RunOk(a, sd, s)
    {
      assert RunOk(a, sc, s);
    }
  }

  // ---- registrations and flushes ----

  lemma RegisterInv(a: Core, sc: Sched, ended: set<CmdId>, s: Session, e: nat)
    requires CoreInv(a, sc, ended) && s !in a.queues && e !in sc.epochs
    ensures CoreInv(Registering(a, s, e), OpenEpoch(sc, s, e), ended)
  {
    var b, sd := Registering(a, s, e), OpenEpoch(sc, s, e);
    forall c
      ensures RecOk(b, sd, c) && NeverStarted(b, sd, ended, c)
    {
      assert RecOk(a, sc, c) && NeverStarted(a, sc, ended, c);
    }
    forall t
      ensures RunOk(b, sd, t)
    {
      assert RunOk(a, sc, t);
    }
  }

  lemma FlushInv(a: Core, sc: Sched, ended: set<CmdId>, s: Session, code: string, now: int)
    requires CoreInv(a, sc, ended)
    ensures CoreInv(Flushing(a, s, code, now), sc, ended + FlushSet(a.commands, s))
  {
    var b := Flushing(a, s, code, now);
    forall c
      ensures RecOk(b, sc, c) && NeverStarted(b, sc, ended + FlushSet(a.commands, s), c)
    {
      assert RecOk(a, sc, c) && NeverStarted(a, sc, ended, c);
    }
    forall t
      ensures RunOk(b, sc, t)
    {
      assert RunOk(a, sc, t);
    }
  }

  function Popping(a: Core, sc: Sched, s: Session): Sched
    requires QueueInv(a, sc)
  {
    if s in a.queues then SetClosing(sc, a.queues[s], Popped) else sc
  }

  lemma UnregisterRec(a: Core, sc: Sched, ended: set<CmdId>, s: Session, code: string, now: int, c: CmdId)
    requires QueueInv(a, sc) && RecOk(a, sc, c) && NeverStarted(a, sc, ended, c)
    ensures RecOk(Unregistering(a, s, code, now), Popping(a, sc, s), c)
    ensures NeverStarted(Unregistering(a, s, code, now), Popping(a, sc, s), ended + FlushSet(a.commands, s), c)
  {
  }

  lemma UnregisterQueues(a: Core, sc: Sched, s: Session, code: string, now: int)
    requires QueueInv(a, sc)
    ensures QueueInv(Unregistering(a, s, code, now), Popping(a, sc, s))
  {
    var b, sd := Unregistering(a, s, code, now), Popping(a, sc, s);
    assert b.queues == a.queues - {s};
    if s in a.queues {
      PopQueue(a, sc, s, b, sd);
    }
  }

  lemma PopQueue(a: Core, sc: Sched, s: Session, b: Core, sd: Sched)
    requires QueueInv(a, sc) && s in a.queues && b.queues == a.queues - {s}
    requires sd.epochs == sc.epochs[a.queues[s] := sc.epochs[a.queues[s]].(closing := Popped)]
    ensures QueueInv(b, sd)
  {
  }

  lemma UnregisterOrders(a: Core, s: Session, code: string, now: int)
    requires DistinctOrders(a.commands)
    ensures DistinctOrders(Unregistering(a, s, code, now).commands)
  {
  }

  /** Popping the queue and flushing in one locked section leaves no accepted command behind. */
  lemma UnregisterInv(a: Core, sc: Sched, ended: set<CmdId>, s: Session, code: string, now: int)
    requires CoreInv(a, sc, ended)
    ensures CoreInv(Unregistering(a, s, code, now),
                    if s in a.queues then SetClosing(sc, a.queues[s], Popped) else sc, ended + FlushSet(a.commands, s))
  {
    var b, sd := Unregistering(a, s, code, now), Popping(a, sc, s);
    UnregisterQueues(a, sc, s, code, now);
    UnregisterOrders(a, s, code, now);
    forall c
      ensures RecOk(b, sd, c) && NeverStarted(b, sd, ended + FlushSet(a.commands, s), c)
    {
      assert RecOk(a, sc, c) && NeverStarted(a, sc, ended, c);
      UnregisterRec(a, sc, ended, s, code, now, c);
    }
    forall t
      ensures RunOk(b, sd, t)
    {
      assert RunOk(a, sc, t);
    }
  }

  // ---- workers ----

  lemma StartInv(a: Core, sc: Sched, ended: set<CmdId>, e: nat, now: int)
    requires SchedInv(sc) && CoreInv(a, sc, ended) && e in sc.epochs && sc.epochs[e].phase.Checked?
    requires MayStart(a, sc.epochs[e].phase.cmd)
    ensures CoreInv(MarkRunning(a, sc.epochs[e].session, sc.epochs[e].phase.cmd, now), StartItem(sc, e), ended)
  {
    var c := sc.epochs[e].phase.cmd;
    var b, sd := MarkRunning(a, sc.epochs[e].session, c, now), StartItem(sc, e);
    assert CmdOk(sc, c) && RecOk(a, sc, c);
    forall d
      ensures RecOk(b, sd, d) && NeverStarted(b, sd, ended, d)
    {
      assert RecOk(a, sc, d) && NeverStarted(a, sc, ended, d);
    }
    forall t
      ensures RunOk(b, sd, t)
    {
      assert RunOk(a, sc, t);
    }
  }

  lemma SkipInv(a: Core, sc: Sched, ended: set<CmdId>, e: nat)
    requires SchedInv(sc) && CoreInv(a, sc, ended) && e in sc.epochs && sc.epochs[e].phase.Checked?
    requires !MayStart(a, sc.epochs[e].phase.cmd)
    ensures CoreInv(a, SkipItem(sc, e), ended)
  {
    var c, sd := sc.epochs[e].phase.cmd, SkipItem(sc, e);
    assert CmdOk(sc, c) && RecOk(a, sc, c);
    forall d
      ensures RecOk(a, sd, d) && NeverStarted(a, sd, ended, d)
    {
      assert RecOk(a, sc, d) && NeverStarted(a, sc, ended, d);
    }
    forall t
      ensures RunOk(a, sd, t)
    {
      assert RunOk(a, sc, t);
    }
  }

  /** A record as the worker leaves it: finished, whatever the callback said or threw. */
  ghost predicate Finished(a: Core, b: Core, c: CmdId) {
    && b == a.(commands := b.commands)
    && b.commands.Keys == a.commands.Keys
    && (forall d :: d in a.commands && d != c ==> b.commands[d] == a.commands[d])
    && (c in a.commands ==>
          && b.commands[c].doneAt.Some? && b.commands[c].status in {Done, Error, Interactive, Canceled}
          && b.commands[c].session == a.commands[c].session && b.commands[c].order == a.commands[c].order)
  }

  lemma FinishRecord(a: Core, b: Core, sc: Sched, ended: set<CmdId>, e: nat, d: CmdId)
    requires SchedInv(sc) && CoreInv(a, sc, ended) && e in sc.epochs && sc.epochs[e].phase.Sending?
    requires Finished(a, b, sc.epochs[e].phase.cmd)
    ensures var b1 := ClearRunning(b, sc.epochs[e].session, sc.epochs[e].phase.cmd);
      RecOk(b1, FinishItem(sc, e), d) && NeverStarted(b1, FinishItem(sc, e), ended, d)
  {
    var c := sc.epochs[e].phase.cmd;
    assert CmdOk(sc, c) && RecOk(a, sc, c);
    assert RecOk(a, sc, d) && NeverStarted(a, sc, ended, d);
  }

  lemma FinishRunning(a: Core, b: Core, sc: Sched, ended: set<CmdId>, e: nat, t: Session)
    requires SchedInv(sc) && CoreInv(a, sc, ended) && e in sc.epochs && sc.epochs[e].phase.Sending?
    requires Finished(a, b, sc.epochs[e].phase.cmd)
    ensures RunOk(ClearRunning(b, sc.epochs[e].session, sc.epochs[e].phase.cmd), FinishItem(sc, e), t)
  {
    var c := sc.epochs[e].phase.cmd;
    assert CmdOk(sc, c) && RecOk(a, sc, c);
    assert RunOk(a, sc, t);
    var b1 := ClearRunning(b, sc.epochs[e].session, c);
    if t in b1.running {
      assert b1.running[t] == a.running[t] && a.running[t] != c;
    }
  }

  lemma FinishInv(a: Core, b: Core, sc: Sched, ended: set<CmdId>, e: nat)
    requires SchedInv(sc) && CoreInv(a, sc, ended) && e in sc.epochs && sc.epochs[e].phase.Sending?
    requires Finished(a, b, sc.epochs[e].phase.cmd)
    ensures CoreInv(ClearRunning(b, sc.epochs[e].session, sc.epochs[e].phase.cmd), FinishItem(sc, e), ended)
  {
    forall d {
      FinishRecord(a, b, sc, ended, e, d);
    }
    forall t {
      FinishRunning(a, b, sc, ended, e, t);
    }
    FinishOrders(a, b, sc.epochs[e].phase.cmd);
  }

  lemma FinishOrders(a: Core, b: Core, c: CmdId)
    requires DistinctOrders(a.commands) && Finished(a, b, c)
    ensures DistinctOrders(b.commands)
  {
    assert forall d :: d in b.commands ==> b.commands[d].order == a.commands[d].order;
  }

  lemma CancelInv(a: Core, sc: Sched, ended: set<CmdId>, c: CmdId, now: int)
    requires CoreInv(a, sc, ended) && c in a.commands && a.commands[c].status !in {Done, Error}
    ensures CoreInv(MarkCanceled(a, c, now), sc, if a.commands[c].status == Accepted then ended + {c} else ended)
  {
    var b := MarkCanceled(a, c, now);
    var more := if a.commands[c].status == Accepted then ended + {c} else ended;
    forall d
      ensures RecOk(b, sc, d) && NeverStarted(b, sc, more, d)
    {
      assert RecOk(a, sc, d) && NeverStarted(a, sc, ended, d);
    }
    forall t
      ensures RunOk(b, sc, t)
    {
      assert RunOk(a, sc, t);
    }
  }
}
