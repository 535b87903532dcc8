/**
 Admission tickets: who holds each live ticket of the gate, and which commands must hold one.
 */
module ArbiterTickets {
  import opened Wrappers
  import opened Admission
  import opened ArbiterCore
  import opened Scheduling
  import opened ArbiterWorld
  import opened ArbiterInvariant
  import opened ArbiterReachable

  // ---- the ledger: every live ticket has one holder ----

  ghost predicate HolderOk(a: Core, calls: map<nat, Call>, holder: map<nat, Holder>, n: nat) {
    && (n in holder <==> n in a.gate.tickets)
    && (n in holder ==>
         match holder[n]
         case Other => true
         case ByCall(i) => i in calls && calls[i].AtLock? && calls[i].ticket.Some? && calls[i].ticket.value.seqNo == n
         case ByCmd(c) => c in a.tickets && a.tickets[c].seqNo == n)
  }

  ghost predicate CallHolds(calls: map<nat, Call>, holder: map<nat, Holder>, i: nat) {
    i in calls && calls[i].AtLock? && calls[i].ticket.Some? ==>
      calls[i].ticket.value.seqNo in holder && holder[calls[i].ticket.value.seqNo] == ByCall(i)
  }

  ghost predicate CmdHolds(a: Core, holder: map<nat, Holder>, c: CmdId) {
    c in a.tickets ==> a.tickets[c].seqNo in holder && holder[a.tickets[c].seqNo] == ByCmd(c)
  }

  ghost predicate Ledger(a: Core, calls: map<nat, Call>, holder: map<nat, Holder>) {
    && GateInv(a.gate)
    && (forall n {:trigger HolderOk(a, calls, holder, n)} :: HolderOk(a, calls, holder, n))
    && (forall i {:trigger CallHolds(calls, holder, i)} :: CallHolds(calls, holder, i))
    && (forall c {:trigger CmdHolds(a, holder, c)} :: CmdHolds(a, holder, c))
  }

  lemma LedgerRelease(a: Core, calls: map<nat, Call>, holder: map<nat, Holder>, cs: set<CmdId>)
    requires Ledger(a, calls, holder)
    ensures Ledger(Release(a, cs), calls, Live(holder, Release(a, cs).gate))
  {
    var b := Release(a, cs);
    var h := Live(holder, b.gate);
    forall n | n in Tickets(a, cs)
      ensures n in holder && holder[n].ByCmd? && holder[n].cmd in cs
    {
      var c :| c in cs && c in a.tickets && a.tickets[c].seqNo == n;
      assert CmdHolds(a, holder, c);
    }
    forall n
      ensures HolderOk(b, calls, h, n)
    {
      assert HolderOk(a, calls, holder, n);
    }
    forall i
      ensures CallHolds(calls, h, i)
    {
      assert CallHolds(calls, holder, i);
      if i in calls && calls[i].AtLock? && calls[i].ticket.Some? {
        assert HolderOk(a, calls, holder, calls[i].ticket.value.seqNo);
      }
    }
    forall c
      ensures CmdHolds(b, h, c)
    {
      assert CmdHolds(a, holder, c);
      if c in a.tickets {
        assert HolderOk(a, calls, holder, a.tickets[c].seqNo);
      }
    }
  }

  lemma LedgerAdmit(a: Core, calls: map<nat, Call>, holder: map<nat, Holder>, kind: string, com: Option<string>, i: nat, call: Call)
    requires Ledger(a, calls, holder) && i !in calls && !a.gate.frozen
    requires call.AtLock? && call.ticket == Admitting(a.gate, kind, com).1
    ensures Ledger(a.(gate := Admitting(a.gate, kind, com).0), calls[i := call], holder[a.gate.nextSeq + 1 := ByCall(i)])
  {
    var b := a.(gate := Admitting(a.gate, kind, com).0);
    var h, k := holder[a.gate.nextSeq + 1 := ByCall(i)], calls[i := call];
    assert HolderOk(a, calls, holder, a.gate.nextSeq + 1);
    forall n
      ensures HolderOk(b, k, h, n)
    {
      assert HolderOk(a, calls, holder, n);
    }
    forall j
      ensures CallHolds(k, h, j)
    {
      assert CallHolds(calls, holder, j);
    }
    forall c
      ensures CmdHolds(b, h, c)
    {
      assert CmdHolds(a, holder, c);
    }
  }

  lemma LedgerAdmitOther(a: Core, calls: map<nat, Call>, holder: map<nat, Holder>, kind: string, com: Option<string>)
    requires Ledger(a, calls, holder) && !a.gate.frozen
    ensures Ledger(a.(gate := Admitting(a.gate, kind, com).0), calls, holder[a.gate.nextSeq + 1 := Other])
  {
    var b := a.(gate := Admitting(a.gate, kind, com).0);
    var h := holder[a.gate.nextSeq + 1 := Other];
    assert HolderOk(a, calls, holder, a.gate.nextSeq + 1);
    forall n
      ensures HolderOk(b, calls, h, n)
    {
      assert HolderOk(a, calls, holder, n);
    }
    forall j
      ensures CallHolds(calls, h, j)
    {
      assert CallHolds(calls, holder, j);
    }
    forall c
      ensures CmdHolds(b, h, c)
    {
      assert CmdHolds(a, holder, c);
    }
  }

  lemma LedgerDoneOther(a: Core, calls: map<nat, Call>, holder: map<nat, Holder>, t: Ticket)
    requires Ledger(a, calls, holder) && (t.seqNo in holder ==> holder[t.seqNo].Other?)
    ensures var g := Completing(a.gate, t); Ledger(a.(gate := g), calls, Live(holder, g))
  {
    var g := Completing(a.gate, t);
    var b, h := a.(gate := g), Live(holder, g);
    forall n
      ensures HolderOk(b, calls, h, n)
    {
      assert HolderOk(a, calls, holder, n);
    }
    forall j
      ensures CallHolds(calls, h, j)
    {
      assert CallHolds(calls, holder, j);
      if j in calls && calls[j].AtLock? && calls[j].ticket.Some? {
        assert HolderOk(a, calls, holder, calls[j].ticket.value.seqNo);
      }
    }
    forall c
      ensures CmdHolds(b, h, c)
    {
      assert CmdHolds(a, holder, c);
      if c in a.tickets {
        assert HolderOk(a, calls, holder, a.tickets[c].seqNo);
      }
    }
  }

  /** The submit that holds `ticket` hands it over to its command. */
  lemma LedgerHandOver(a: Core, calls: map<nat, Call>, holder: map<nat, Holder>, i: nat, call: Call, b: Core)
    requires Ledger(a, calls, holder) && i in calls && calls[i].AtLock? && call.AtPut? && calls[i].cmd !in a.tickets
    requires b.gate == a.gate
    requires b.tickets == if calls[i].ticket.Some? then a.tickets[calls[i].cmd := calls[i].ticket.value] else a.tickets
    ensures Ledger(b, calls[i := call],
      if calls[i].ticket.Some? then holder[calls[i].ticket.value.seqNo := ByCmd(calls[i].cmd)] else holder)
  {
    var h := if calls[i].ticket.Some? then holder[calls[i].ticket.value.seqNo := ByCmd(calls[i].cmd)] else holder;
    assert CallHolds(calls, holder, i);
    var k := calls[i := call];
    forall n
      ensures HolderOk(b, k, h, n)
    {
      assert HolderOk(a, calls, holder, n);
    }
    forall j
      ensures CallHolds(k, h, j)
    {
      assert CallHolds(calls, holder, j);
    }
    forall c
      ensures CmdHolds(b, h, c)
    {
      assert CmdHolds(a, holder, c);
    }
  }

  /** A rejected submit completes its own ticket. */
  lemma LedgerReject(a: Core, calls: map<nat, Call>, holder: map<nat, Holder>, i: nat)
    requires Ledger(a, calls, holder) && i in calls && calls[i].AtLock?
    ensures var b := Discard(a, calls[i].ticket); Ledger(b, calls - {i}, Live(holder, b.gate))
  {
    var b := Discard(a, calls[i].ticket);
    var h := Live(holder, b.gate);
    assert CallHolds(calls, holder, i);
    var k := calls - {i};
    forall n
      ensures HolderOk(b, k, h, n)
    {
      assert HolderOk(a, calls, holder, n);
    }
    forall j
      ensures CallHolds(k, h, j)
    {
      assert CallHolds(calls, holder, j);
      if j in calls && calls[j].AtLock? && calls[j].ticket.Some? {
        assert HolderOk(a, calls, holder, calls[j].ticket.value.seqNo);
      }
    }
    forall c
      ensures CmdHolds(b, h, c)
    {
      assert CmdHolds(a, holder, c);
      if c in a.tickets {
        assert HolderOk(a, calls, holder, a.tickets[c].seqNo);
      }
    }
  }

  /** Calls that hold no ticket may come, move on and go; the gate may change but for its tickets. */
  lemma LedgerFrame(a: Core, b: Core, calls: map<nat, Call>, calls': map<nat, Call>, holder: map<nat, Holder>)
    requires Ledger(a, calls, holder) && GateInv(b.gate)
    requires b.tickets == a.tickets && b.gate.tickets == a.gate.tickets
    requires forall i :: i in calls && calls[i].AtLock? && calls[i].ticket.Some? ==> i in calls' && calls'[i] == calls[i]
    requires forall i :: i in calls' && calls'[i].AtLock? && calls'[i].ticket.Some? ==> i in calls && calls'[i] == calls[i]
    ensures Ledger(b, calls', holder) && Live(holder, b.gate) == holder
  {
    forall n
      ensures HolderOk(b, calls', holder, n) && (n in holder ==> n in b.gate.tickets)
    {
      assert HolderOk(a, calls, holder, n);
    }
    assert Live(holder, b.gate).Keys == holder.Keys;
    forall j
      ensures CallHolds(calls', holder, j)
    {
      assert CallHolds(calls, holder, j);
    }
    forall c
      ensures CmdHolds(b, holder, c)
    {
      assert CmdHolds(a, holder, c);
    }
  }

  // ---- which commands hold a ticket ----

  /** Unfinished commands hold a ticket unless exempt; others only while their worker is busy with them. */
  ghost predicate Holds(a: Core, sc: Sched, exempt: set<CmdId>, c: CmdId) {
    && (c in a.tickets ==>
          && c !in exempt && c in sc.loc
          && ((c in a.commands && a.commands[c].doneAt.None?) || sc.loc[c].Started? || sc.loc[c].Sent?))
    && (c in a.commands && a.commands[c].doneAt.None? && c !in exempt ==> c in a.tickets)
    && (c in exempt ==> c in sc.loc)
  }

  ghost predicate CallExempt(calls: map<nat, Call>, exempt: set<CmdId>, i: nat) {
    i in calls && calls[i].AtLock? ==> (calls[i].ticket.None? <==> calls[i].cmd in exempt)
  }

  ghost predicate HoldInv(a: Core, sc: Sched, exempt: set<CmdId>) {
    && (forall c {:trigger Holds(a, sc, exempt, c)} :: Holds(a, sc, exempt, c))
    && (forall i {:trigger CallExempt(sc.calls, exempt, i)} :: CallExempt(sc.calls, exempt, i))
  }

  ghost predicate TicketInv(w: World) {
    && Ledger(w.core, w.sched.calls, w.holder)
    && HoldInv(w.core, w.sched, w.exempt)
  }

  lemma HoldKept(a: Core, b: Core, sc: Sched, exempt: set<CmdId>)
    requires HoldInv(a, sc, exempt) && Kept(a, b)
    ensures HoldInv(b, sc, exempt)
  {
    forall c
      ensures Holds(b, sc, exempt, c)
    {
      assert Holds(a, sc, exempt, c);
    }
  }

  lemma HoldInsert(a: Core, sc: Sched, ended: set<CmdId>, exempt: set<CmdId>, i: nat)
    requires SchedInv(sc) && CoreInv(a, sc, ended) && HoldInv(a, sc, exempt)
    requires i in sc.calls && sc.calls[i].AtLock? && sc.calls[i].session in a.queues
    ensures sc.calls[i].cmd !in a.tickets
    ensures var AtLock(s, c, _, ticket) := sc.calls[i];
      HoldInv(Inserted(a, s, c, ticket), AcceptCall(sc, i, a.queues[s], a.counter + 1), exempt)
  {
    var AtLock(s, c, _, ticket) := sc.calls[i];
    var b, sd := Inserted(a, s, c, ticket), AcceptCall(sc, i, a.queues[s], a.counter + 1);
    assert CmdOk(sc, c) && RecOk(a, sc, c) && Holds(a, sc, exempt, c) && CallExempt(sc.calls, exempt, i);
    forall d
      ensures Holds(b, sd, exempt, d)
    {
      assert Holds(a, sc, exempt, d);
    }
    forall j
      ensures CallExempt(sd.calls, exempt, j)
    {
      assert CallExempt(sc.calls, exempt, j);
    }
  }

  lemma LockSubmitTickets(w: World, i: nat)
    requires StateInv(w) && TicketInv(w) && i in w.sched.calls && w.sched.calls[i].AtLock?
    ensures TicketInv(AfterLockSubmit(w, i))
  {
    LockSubmitParts(w, i);
    var v := AfterLockSubmit(w, i);
    var AtLock(s, c, _, ticket) := w.sched.calls[i];
    if Submitting(w.core, s, c, ticket).1.Enqueue? {
      AcceptTickets(w, i);
    } else {
      RejectTickets(w, i);
    }
  }

  lemma AcceptHolds(a: Core, sc: Sched, ended: set<CmdId>, exempt: set<CmdId>, i: nat)
    requires SchedInv(sc) && CoreInv(a, sc, ended) && HoldInv(a, sc, exempt)
    requires i in sc.calls && sc.calls[i].AtLock? && sc.calls[i].session in a.queues
    ensures sc.calls[i].cmd !in a.tickets
    ensures var AtLock(s, c, _, ticket) := sc.calls[i];
      HoldInv(Evict(Inserted(a, s, c, ticket)), AcceptCall(sc, i, a.queues[s], a.counter + 1), exempt)
  {
    var AtLock(s, c, _, ticket) := sc.calls[i];
    var a1 := Inserted(a, s, c, ticket);
    HoldInsert(a, sc, ended, exempt, i);
    EvictKeeps(a1);
    HoldKept(a1, Evict(a1), AcceptCall(sc, i, a.queues[s], a.counter + 1), exempt);
  }

  lemma AcceptTickets(w: World, i: nat)
    requires StateInv(w) && TicketInv(w) && i in w.sched.calls && w.sched.calls[i].AtLock?
    requires w.sched.calls[i].session in w.core.queues
    ensures var AtLock(s, c, _, ticket) := w.sched.calls[i];
      var b, sd := Evict(Inserted(w.core, s, c, ticket)), AcceptCall(w.sched, i, w.core.queues[s], w.core.counter + 1);
      TicketInv(w.(core := b, sched := sd,
                   holder := if ticket.Some? then w.holder[ticket.value.seqNo := ByCmd(c)] else w.holder))
  {
    var AtLock(s, c, _, ticket) := w.sched.calls[i];
    var a1, sd := Inserted(w.core, s, c, ticket), AcceptCall(w.sched, i, w.core.queues[s], w.core.counter + 1);
    AcceptHolds(w.core, w.sched, w.flushed + w.early, w.exempt, i);
    LedgerHandOver(w.core, w.sched.calls, w.holder, i, sd.calls[i], Evict(a1));
  }

  lemma RejectTickets(w: World, i: nat)
    requires StateInv(w) && TicketInv(w) && i in w.sched.calls && w.sched.calls[i].AtLock?
    ensures var b := Discard(w.core, w.sched.calls[i].ticket);
      var sd := RejectCall(w.sched, i);
      TicketInv(w.(core := b, sched := sd, holder := Live(w.holder, b.gate)))
  {
    var b, sd := Discard(w.core, w.sched.calls[i].ticket), RejectCall(w.sched, i);
    LedgerReject(w.core, w.sched.calls, w.holder, i);
    assert CmdOk(w.sched, w.sched.calls[i].cmd) && RecOk(w.core, w.sched, w.sched.calls[i].cmd);
    forall d
      ensures Holds(b, sd, w.exempt, d)
    {
      assert Holds(w.core, w.sched, w.exempt, d);
    }
    forall j
      ensures CallExempt(sd.calls, w.exempt, j)
    {
      assert CallExempt(w.sched.calls, w.exempt, j);
    }
  }

  lemma BeginSubmitTickets(w: World, i: nat, c: CmdId, s: Session, p: int, com: string, exemption: bool)
    requires StateInv(w) && TicketInv(w) && i !in w.sched.calls && c !in w.sched.loc
    ensures TicketInv(AfterBeginSubmit(w, i, c, s, p, com, exemption))
  {
    var v := AfterBeginSubmit(w, i, c, s, p, com, exemption);
    if exemption {
      LedgerFrame(w.core, w.core, w.sched.calls, v.sched.calls, w.holder);
    } else if !w.core.gate.frozen {
      LedgerAdmit(w.core, w.sched.calls, w.holder, "command.submit", Some(com), i, v.sched.calls[i]);
    }
    if v != w {
      assert RecOk(w.core, w.sched, c);
      forall d
        ensures Holds(v.core, v.sched, v.exempt, d)
      {
        assert Holds(w.core, w.sched, w.exempt, d);
      }
      forall j
        ensures CallExempt(v.sched.calls, v.exempt, j)
      {
        assert CallExempt(w.sched.calls, w.exempt, j);
        if j in w.sched.calls && w.sched.calls[j].AtLock? {
          assert CmdOk(w.sched, w.sched.calls[j].cmd);
        }
        assert Holds(w.core, w.sched, w.exempt, c);
      }
    }
  }

  /** Moves of threads that neither end nor add a call holding a ticket. */
  lemma MoveTickets(w: World, sd: Sched)
    requires TicketInv(w)
    requires forall c {:trigger CmdMoves(w.core, w.sched, sd, c)} :: CmdMoves(w.core, w.sched, sd, c)
    requires StateInv(w)
    requires forall c :: c in w.sched.loc ==> c in sd.loc
    requires forall i :: i in sd.calls ==> i in w.sched.calls && sd.calls[i] == w.sched.calls[i]
    requires forall i :: i in w.sched.calls && w.sched.calls[i].AtLock? ==> i in sd.calls
    ensures TicketInv(w.(sched := sd))
  {
    LedgerFrame(w.core, w.core, w.sched.calls, sd.calls, w.holder);
    forall d
      ensures Holds(w.core, sd, w.exempt, d)
    {
      assert Holds(w.core, w.sched, w.exempt, d) && CmdMoves(w.core, w.sched, sd, d) && RecOk(w.core, w.sched, d);
      assert CmdOk(w.sched, d);
    }
    forall j
      ensures CallExempt(sd.calls, w.exempt, j)
    {
      assert CallExempt(w.sched.calls, w.exempt, j);
    }
  }

  lemma PutSubmitTickets(w: World, i: nat)
    requires StateInv(w) && TicketInv(w) && i in w.sched.calls && w.sched.calls[i].AtPut?
    ensures TicketInv(AfterPutSubmit(w, i))
  {
    assert CmdOk(w.sched, w.sched.calls[i].item.cmd.value);
    MoveTickets(w, PutItem(w.sched, i));
  }

  lemma DequeueTickets(w: World, e: nat, item: Item)
    requires StateInv(w) && TicketInv(w) && e in w.sched.epochs && item in EpochAt(w, e).queue
    ensures TicketInv(w.(sched := TakeItem(w.sched, e, item)))
  {
    if item.cmd.Some? {
      assert CmdOk(w.sched, item.cmd.value);
    }
    MoveTickets(w, TakeItem(w.sched, e, item));
  }

  /** A stopped worker drops only commands that no longer hold a ticket. */
  lemma CheckStopTickets(w: World, e: nat)
    requires StateInv(w) && TicketInv(w) && e in w.sched.epochs && EpochAt(w, e).phase.Taken?
    ensures TicketInv(w.(sched := CheckItem(w.sched, e)))
  {
    if EpochAt(w, e).phase.item.cmd.Some? {
      assert CmdOk(w.sched, EpochAt(w, e).phase.item.cmd.value);
    }
    MoveTickets(w, CheckItem(w.sched, e));
  }

  lemma SendStartTickets(w: World, e: nat)
    requires StateInv(w) && TicketInv(w) && e in w.sched.epochs && EpochAt(w, e).phase.Ready?
    ensures TicketInv(w.(sched := SendItem(w.sched, e)))
  {
    assert CmdOk(w.sched, EpochAt(w, e).phase.cmd);
    MoveTickets(w, SendItem(w.sched, e));
  }

  lemma RegisterTickets(w: World, s: Session, e: nat)
    requires StateInv(w) && TicketInv(w) && e !in w.sched.epochs
    ensures TicketInv(AfterRegister(w, s, e))
  {
    var v := AfterRegister(w, s, e);
    LedgerFrame(w.core, v.core, w.sched.calls, v.sched.calls, w.holder);
    forall c
      ensures Holds(v.core, v.sched, w.exempt, c)
    {
      assert Holds(w.core, w.sched, w.exempt, c);
    }
  }

  lemma FlushTickets(w: World, s: Session, code: string, now: int)
    requires StateInv(w) && TicketInv(w)
    ensures TicketInv(AfterFlush(w, s, code, now))
  {
    var v := AfterFlush(w, s, code, now);
    var b := Release(w.core, TouchSet(w.core.commands, s));
    LedgerRelease(w.core, w.sched.calls, w.holder, TouchSet(w.core.commands, s));
    LedgerFrame(b, v.core, w.sched.calls, w.sched.calls, v.holder);
    forall c
      ensures Holds(v.core, v.sched, w.exempt, c)
    {
      assert Holds(w.core, w.sched, w.exempt, c) && RecOk(w.core, w.sched, c);
    }
  }

  lemma UnregisterTickets(w: World, s: Session, code: string, now: int)
    requires StateInv(w) && TicketInv(w)
    ensures TicketInv(AfterUnregister(w, s, code, now))
  {
    var w1 := w.(core := w.core.(queues := w.core.queues - {s}));
    var v := AfterUnregister(w, s, code, now);
    var b := Release(w1.core, TouchSet(w.core.commands, s));
    LedgerFrame(w.core, w1.core, w.sched.calls, w.sched.calls, w.holder);
    LedgerRelease(w1.core, w.sched.calls, w.holder, TouchSet(w.core.commands, s));
    LedgerFrame(b, v.core, w.sched.calls, v.sched.calls, v.holder);
    forall c
      ensures Holds(v.core, v.sched, w.exempt, c)
    {
      assert Holds(w.core, w.sched, w.exempt, c) && RecOk(w.core, w.sched, c);
    }
  }

  lemma LockStartTickets(w: World, e: nat, now: int)
    requires StateInv(w) && TicketInv(w) && e in w.sched.epochs && EpochAt(w, e).phase.Checked?
    ensures TicketInv(AfterLockStart(w, e, now))
  {
    var v := AfterLockStart(w, e, now);
    var c := EpochAt(w, e).phase.cmd;
    assert CmdOk(w.sched, c);
    if MayStart(w.core, c) {
      LedgerFrame(w.core, v.core, w.sched.calls, v.sched.calls, w.holder);
    } else {
      LedgerRelease(w.core, w.sched.calls, w.holder, {c});
    }
    forall d
      ensures Holds(v.core, v.sched, w.exempt, d)
    {
      assert Holds(w.core, w.sched, w.exempt, d) && RecOk(w.core, w.sched, d);
    }
  }

  lemma FinishHolds(w: World, b: Core, b2: Core, e: nat, d: CmdId)
    requires StateInv(w) && TicketInv(w) && e in w.sched.epochs && EpochAt(w, e).phase.Sending?
    requires Finished(w.core, b, EpochAt(w, e).phase.cmd)
    requires Kept(ClearRunning(b, EpochAt(w, e).session, EpochAt(w, e).phase.cmd), b2)
    ensures Holds(Release(b2, {EpochAt(w, e).phase.cmd}), FinishItem(w.sched, e), w.exempt, d)
  {
    assert CmdOk(w.sched, EpochAt(w, e).phase.cmd);
    assert Holds(w.core, w.sched, w.exempt, d);
  }

  lemma FinishTickets(w: World, e: nat, b: Core)
    requires StateInv(w) && TicketInv(w) && e in w.sched.epochs && EpochAt(w, e).phase.Sending?
    requires Finished(w.core, b, EpochAt(w, e).phase.cmd)
    ensures var s, c := EpochAt(w, e).session, EpochAt(w, e).phase.cmd;
      TicketInv(SetCore(w, Release(Evict(ClearRunning(b, s, c)), {c})).(sched := FinishItem(w.sched, e)))
  {
    var s, c := EpochAt(w, e).session, EpochAt(w, e).phase.cmd;
    var b2 := Evict(ClearRunning(b, s, c));
    EvictKeeps(ClearRunning(b, s, c));
    LedgerFrame(w.core, b2, w.sched.calls, w.sched.calls, w.holder);
    LedgerRelease(b2, w.sched.calls, w.holder, {c});
    forall d {
      FinishHolds(w, b, b2, e, d);
    }
  }

  lemma SendReturnTickets(w: World, e: nat, result: SendResult, now: int)
    requires StateInv(w) && TicketInv(w) && e in w.sched.epochs && EpochAt(w, e).phase.Sending?
    ensures TicketInv(AfterSendReturn(w, e, result, now))
  {
    var c := EpochAt(w, e).phase.cmd;
    assert RecOk(w.core, w.sched, c);
    FinishTickets(w, e, MarkReturned(w.core, c, result, now));
  }

  lemma SendRaiseTickets(w: World, e: nat, now: int)
    requires StateInv(w) && TicketInv(w) && e in w.sched.epochs && EpochAt(w, e).phase.Sending?
    ensures TicketInv(AfterSendRaise(w, e, now))
  {
    FinishTickets(w, e, MarkFailed(w.core, EpochAt(w, e).phase.cmd, now));
  }

  lemma CancelHolds(w: World, c: CmdId, now: int)
    requires StateInv(w) && TicketInv(w) && c in w.core.commands && w.core.commands[c].status !in {Done, Error}
    ensures var cs: set<CmdId> := if w.core.commands[c].status == Accepted then {c} else {};
      HoldInv(Evict(Release(MarkCanceled(w.core, c, now), cs)), w.sched, w.exempt)
  {
    var cs: set<CmdId> := if w.core.commands[c].status == Accepted then {c} else {};
    var b := Release(MarkCanceled(w.core, c, now), cs);
    forall d
      ensures Holds(b, w.sched, w.exempt, d)
    {
      assert Holds(w.core, w.sched, w.exempt, d) && RecOk(w.core, w.sched, d);
    }
    EvictKeeps(b);
    HoldKept(b, Evict(b), w.sched, w.exempt);
  }

  lemma CancelTickets(w: World, c: CmdId, now: int)
    requires StateInv(w) && TicketInv(w)
    ensures TicketInv(AfterCancel(w, c, now))
  {
    var v := AfterCancel(w, c, now);
    if c in w.core.commands && w.core.commands[c].status !in {Done, Error} {
      var cs: set<CmdId> := if w.core.commands[c].status == Accepted then {c} else {};
      var b1 := MarkCanceled(w.core, c, now);
      var b2 := Release(b1, cs);
      LedgerFrame(w.core, b1, w.sched.calls, w.sched.calls, w.holder);
      LedgerRelease(b1, w.sched.calls, w.holder, cs);
      LedgerFrame(b2, Evict(b2), w.sched.calls, w.sched.calls, Live(w.holder, b2.gate));
      CancelHolds(w, c, now);
      assert v.core == Evict(b2) && v.holder == Live(w.holder, b2.gate);
    } else {
      LedgerFrame(w.core, w.core, w.sched.calls, w.sched.calls, w.holder);
    }
  }

  predicate IsGateOp(step: Step) {
    step.OtherFlag? || step.Freeze? || step.Thaw? || step.FreezeIfIdle?
  }

  predicate IsQuiet(step: Step) {
    || IsGateOp(step) || step.AddCallback? || step.DropCallback?
    || step.RunCallback? || step.SetStop? || step.PutSentinel? || step.ExitWorker?
  }

  /** Records, running table, calls, places and tickets are as they were. */
  ghost predicate QuietChange(w: World, v: World) {
    && v == w.(core := v.core, sched := v.sched, due := v.due, invoked := v.invoked)
    && v.core == w.core.(callbacks := v.core.callbacks, gate := v.core.gate)
    && v.sched == w.sched.(epochs := v.sched.epochs)
    && v.core.gate.tickets == w.core.gate.tickets
    && (GateInv(w.core.gate) ==> GateInv(v.core.gate))
  }

  lemma GateOpIsQuiet(w: World, step: Step)
    requires Enabled(w, step) && IsGateOp(step)
    ensures QuietChange(w, Next(w, step))
  {
    GateIsAside(w, Next(w, step).core.gate);
  }

  lemma GateIsAside(w: World, g: GateState)
    requires g.tickets == w.core.gate.tickets && (GateInv(w.core.gate) ==> GateInv(g))
    ensures QuietChange(w, w.(core := w.core.(gate := g)))
  {
  }

  lemma NextIsQuiet(w: World, step: Step)
    requires Enabled(w, step) && IsQuiet(step)
    ensures QuietChange(w, Next(w, step))
  {
    if IsGateOp(step) {
      GateOpIsQuiet(w, step);
    }
  }

  /** Steps that leave records, calls and tickets alone. */
  lemma QuietTickets(w: World, v: World)
    requires TicketInv(w) && QuietChange(w, v)
    ensures TicketInv(v)
  {
    LedgerFrame(w.core, v.core, w.sched.calls, v.sched.calls, w.holder);
    forall d
      ensures Holds(v.core, v.sched, v.exempt, d)
    {
      assert Holds(w.core, w.sched, w.exempt, d);
    }
    forall j
      ensures CallExempt(v.sched.calls, v.exempt, j)
    {
      assert CallExempt(w.sched.calls, w.exempt, j);
    }
  }

  lemma OtherDoneTickets(w: World, t: Ticket)
    requires TicketInv(w) && (t.seqNo in w.holder ==> w.holder[t.seqNo].Other?)
    ensures TicketInv(SetCore(w, w.core.(gate := Completing(w.core.gate, t))))
  {
    var v := SetCore(w, w.core.(gate := Completing(w.core.gate, t)));
    LedgerDoneOther(w.core, w.sched.calls, w.holder, t);
    forall d
      ensures Holds(v.core, v.sched, v.exempt, d)
    {
      assert Holds(w.core, w.sched, w.exempt, d);
    }
  }

  lemma OtherAdmitTickets(w: World, kind: string, port: Option<string>)
    requires TicketInv(w)
    ensures TicketInv(AfterOtherAdmit(w, kind, port))
  {
    var v := AfterOtherAdmit(w, kind, port);
    if !w.core.gate.frozen {
      LedgerAdmitOther(w.core, w.sched.calls, w.holder, kind, port);
    } else {
      LedgerFrame(w.core, v.core, w.sched.calls, w.sched.calls, w.holder);
    }
    forall d
      ensures Holds(v.core, v.sched, v.exempt, d)
    {
      assert Holds(w.core, w.sched, w.exempt, d);
    }
  }

  lemma TicketStep(w: World, step: Step)
    requires StateInv(w) && TicketInv(w) && Enabled(w, step)
    ensures TicketInv(Next(w, step))
  {
    match step
    case BeginSubmit(i, c, s, p, com, exemption) => BeginSubmitTickets(w, i, c, s, p, com, exemption);
    case LockSubmit(i) => LockSubmitTickets(w, i);
    case PutSubmit(i) => PutSubmitTickets(w, i);
    case Register(s, e) => RegisterTickets(w, s, e);
    case Unregister(s, code, now) => UnregisterTickets(w, s, code, now);
    case Flush(s, code, now) => FlushTickets(w, s, code, now);
    case Dequeue(e, item) => DequeueTickets(w, e, item);
    case CheckStop(e) => CheckStopTickets(w, e);
    case LockStart(e, now) => LockStartTickets(w, e, now);
    case SendStart(e) => SendStartTickets(w, e);
    case SendReturn(e, result, now) => SendReturnTickets(w, e, result, now);
    case SendRaise(e, now) => SendRaiseTickets(w, e, now);
    case Cancel(c, now) => CancelTickets(w, c, now);
    case OtherAdmit(kind, port) => OtherAdmitTickets(w, kind, port);
    case OtherDone(t) => OtherDoneTickets(w, t);
    case _ =>
      NextIsQuiet(w, step);
      QuietTickets(w, Next(w, step));
  }

  lemma {:induction false} TicketsAlways(ws: seq<World>, steps: seq<Step>, i: nat)
    requires IsRun(ws, steps) && i < |ws|
    ensures StateInv(ws[i]) && TicketInv(ws[i])
  {
    StateAlways(ws, steps, i);
    if i > 0 {
      TicketsAlways(ws, steps, i - 1);
      assert StepAt(ws, steps, i - 1);
      TicketStep(ws[i - 1], steps[i - 1]);
    }
  }
}
