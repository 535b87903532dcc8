/**
 The threads around the arbiter and the queue items they pass on: submitters between the
 arbiter lock and `pq.put`, one queue and one worker per registration. Nothing here looks at
 command records; this is the part of the protocol that runs outside the arbiter lock.
 */
module Scheduling {
  import opened Wrappers
  import opened Admission
  import opened ArbiterCore

  /** A `_QueuedCommand`; the sentinel of `unregister_session` names no command. */
  datatype Item = Item(priority: int, counter: nat, cmd: Option<CmdId>)

  const SENTINEL := Item(0, 0, None)

  predicate KeyLess(a: Item, b: Item) {
    a.priority < b.priority || (a.priority == b.priority && a.counter < b.counter)
  }

  /** Where a worker thread is in its loop. */
  datatype Phase =
    | Polling
    | Taken(item: Item)      // dequeued, stop event not yet re-checked
    | Checked(cmd: CmdId)    // about to take the lock
    | Ready(cmd: CmdId)      // marked running, callback not yet called
    | Sending(cmd: CmdId)    // inside the send callback
    | Ended

  /** How far `unregister_session` has got with a registration. */
  datatype Closing = Open | Popped | StopSet | SentinelPut

  /** One registration of a session: its queue, stop event and worker thread. */
  datatype Epoch = Epoch(session: Session, queue: multiset<Item>, closing: Closing, phase: Phase) {
    predicate Stopped() {
      closing.StopSet? || closing.SentinelPut?
    }
  }

  /** A thread inside `submit`: before the arbiter lock, or between the lock and `pq.put`. */
  datatype Call =
    | AtLock(session: Session, cmd: CmdId, priority: int, ticket: Option<Ticket>)
    | AtPut(epoch: nat, item: Item)

  /** History: where the queue item of a command is. */
  datatype Loc =
    | Submitted(call: nat)
    | Putting(call: nat)
    | Queued(epoch: nat, item: Item)
    | InHand(epoch: nat)
    | Started(epoch: nat)
    | Sent(epoch: nat)
    | Returned
    | Skipped

  /**
   `loc` and `home` are history: the place of every cmd_id ever drawn, and the registration a
   command was accepted into. `sends` records the calls of the send callback.
   */
  datatype Sched = Sched(
    epochs: map<nat, Epoch>,
    calls: map<nat, Call>,
    loc: map<CmdId, Loc>,
    home: map<CmdId, nat>,
    sends: seq<CmdId>)

  // ---- moves ----

  function SetPhase(w: Sched, e: nat, phase: Phase): Sched
    requires e in w.epochs
  {
    w.(epochs := w.epochs[e := w.epochs[e].(phase := phase)])
  }

  function SetClosing(w: Sched, e: nat, closing: Closing): Sched
    requires e in w.epochs
  {
    w.(epochs := w.epochs[e := w.epochs[e].(closing := closing)])
  }

  function BeginCall(w: Sched, i: nat, call: Call): Sched
    requires call.AtLock?
  {
    w.(calls := w.calls[i := call], loc := w.loc[call.cmd := Submitted(i)])
  }

  function AcceptCall(w: Sched, i: nat, e: nat, counter: nat): Sched
    requires i in w.calls && w.calls[i].AtLock?
  {
    var c := w.calls[i].cmd;
    w.(calls := w.calls[i := AtPut(e, Item(w.calls[i].priority, counter, Some(c)))],
       loc := w.loc[c := Putting(i)], home := w.home[c := e])
  }

  function RejectCall(w: Sched, i: nat): Sched
    requires i in w.calls && w.calls[i].AtLock?
  {
    w.(calls := w.calls - {i}, loc := w.loc[w.calls[i].cmd := Skipped])
  }

  function PutItem(w: Sched, i: nat): Sched
    requires i in w.calls && w.calls[i].AtPut? && w.calls[i].epoch in w.epochs && w.calls[i].item.cmd.Some?
  {
    var AtPut(e, item) := w.calls[i];
    w.(calls := w.calls - {i}, loc := w.loc[item.cmd.value := Queued(e, item)],
       epochs := w.epochs[e := w.epochs[e].(queue := w.epochs[e].queue + multiset{item})])
  }

  function OpenEpoch(w: Sched, s: Session, e: nat): Sched {
    w.(epochs := w.epochs[e := Epoch(s, multiset{}, Open, Polling)])
  }

  function PutSentinelIn(w: Sched, e: nat): Sched
    requires e in w.epochs
  {
    w.(epochs := w.epochs[e := w.epochs[e].(closing := SentinelPut, queue := w.epochs[e].queue + multiset{SENTINEL})])
  }

  function TakeItem(w: Sched, e: nat, item: Item): Sched
    requires e in w.epochs
  {
    w.(epochs := w.epochs[e := w.epochs[e].(queue := w.epochs[e].queue - multiset{item}, phase := Taken(item))],
       loc := if item.cmd.Some? then w.loc[item.cmd.value := InHand(e)] else w.loc)
  }

  /** The stop event is looked at again after a dequeue; a stopped worker drops what it holds. */
  function CheckItem(w: Sched, e: nat): Sched
    requires e in w.epochs && w.epochs[e].phase.Taken?
  {
    var cmd := w.epochs[e].phase.item.cmd;
    var stopped := w.epochs[e].Stopped();
    var next := if stopped then Ended else if cmd.Some? then Checked(cmd.value) else Polling;
    SetPhase(w, e, next).(loc := if stopped && cmd.Some? then w.loc[cmd.value := Skipped] else w.loc)
  }

  function StartItem(w: Sched, e: nat): Sched
    requires e in w.epochs && w.epochs[e].phase.Checked?
  {
    var c := w.epochs[e].phase.cmd;
    SetPhase(w, e, Ready(c)).(loc := w.loc[c := Started(e)])
  }

  function SkipItem(w: Sched, e: nat): Sched
    requires e in w.epochs && w.epochs[e].phase.Checked?
  {
    SetPhase(w, e, Polling).(loc := w.loc[w.epochs[e].phase.cmd := Skipped])
  }

  function SendItem(w: Sched, e: nat): Sched
    requires e in w.epochs && w.epochs[e].phase.Ready?
  {
    var c := w.epochs[e].phase.cmd;
    SetPhase(w, e, Sending(c)).(loc := w.loc[c := Sent(e)], sends := w.sends + [c])
  }

  function FinishItem(w: Sched, e: nat): Sched
    requires e in w.epochs && w.epochs[e].phase.Sending?
  {
    SetPhase(w, e, Polling).(loc := w.loc[w.epochs[e].phase.cmd := Returned])
  }

  // ---- every item is in one place ----

  function CallCmd(k: Call): Option<CmdId> {
    if k.AtLock? then Some(k.cmd) else k.item.cmd
  }

  function PhaseCmd(p: Phase): Option<CmdId> {
    match p
    case Taken(item) => item.cmd
    case Checked(c) => Some(c)
    case Ready(c) => Some(c)
    case Sending(c) => Some(c)
    case _ => None
  }

  predicate HomeIs(w: Sched, c: CmdId, e: nat) {
    c in w.home && w.home[c] == e && e in w.epochs
  }

  /** The place `loc` claims for command `c` is where its item is. */
  ghost predicate LocOk(w: Sched, c: CmdId) {
    c in w.loc ==>
    match w.loc[c]
    case Submitted(i) => i in w.calls && w.calls[i].AtLock? && w.calls[i].cmd == c
    case Putting(i) => i in w.calls && w.calls[i].AtPut? && w.calls[i].item.cmd == Some(c) && HomeIs(w, c, w.calls[i].epoch)
    case Queued(e, item) => HomeIs(w, c, e) && w.epochs[e].queue[item] == 1 && item.cmd == Some(c)
    case InHand(e) => HomeIs(w, c, e) && PhaseCmd(w.epochs[e].phase) == Some(c) && (w.epochs[e].phase.Taken? || w.epochs[e].phase.Checked?)
    case Started(e) => HomeIs(w, c, e) && w.epochs[e].phase == Ready(c)
    case Sent(e) => HomeIs(w, c, e) && w.epochs[e].phase == Sending(c)
    case _ => true
  }

  /** The command's item is nowhere but at its place, and it was sent at most once. */
  ghost predicate OnlyAtPlace(w: Sched, c: CmdId) {
    && (forall i :: i in w.calls && CallCmd(w.calls[i]) == Some(c) ==>
          c in w.loc && w.loc[c] == if w.calls[i].AtLock? then Submitted(i) else Putting(i))
    && (forall e, item: Item :: e in w.epochs && item in w.epochs[e].queue && item.cmd == Some(c) ==>
          c in w.loc && w.loc[c] == Queued(e, item))
    && (forall e :: e in w.epochs && PhaseCmd(w.epochs[e].phase) == Some(c) ==>
          c in w.loc && w.loc[c] in {InHand(e), Started(e), Sent(e)})
    && multiset(w.sends)[c] == if c in w.loc && (w.loc[c].Sent? || w.loc[c].Returned?) then 1 else 0
  }

  ghost predicate CmdOk(w: Sched, c: CmdId) {
    LocOk(w, c) && OnlyAtPlace(w, c)
  }

  ghost predicate SchedInv(w: Sched) {
    && (forall c {:trigger CmdOk(w, c)} :: CmdOk(w, c))
    && (forall i :: i in w.calls && w.calls[i].AtPut? ==> w.calls[i].item.cmd.Some? && w.calls[i].epoch in w.epochs)
  }

  /** Everything that is not about command `c` is as it was. */
  ghost predicate Untouched(w: Sched, v: Sched, d: CmdId) {
    && (d in v.loc <==> d in w.loc)
    && (d in w.loc ==> v.loc[d] == w.loc[d])
    && (d in w.home ==> d in v.home && v.home[d] == w.home[d])
    && (forall i :: i in w.calls && CallCmd(w.calls[i]) == Some(d) ==> i in v.calls && v.calls[i] == w.calls[i])
    && (forall i :: i in v.calls && CallCmd(v.calls[i]) == Some(d) ==> i in w.calls && v.calls[i] == w.calls[i])
    && (forall e :: e in w.epochs ==> e in v.epochs)
    && (forall e :: e in w.epochs && PhaseCmd(w.epochs[e].phase) == Some(d) ==> v.epochs[e].phase == w.epochs[e].phase)
    && (forall e :: e in v.epochs && PhaseCmd(v.epochs[e].phase) == Some(d) ==> e in w.epochs && v.epochs[e].phase == w.epochs[e].phase)
    && (forall e, item: Item :: e in w.epochs && item.cmd == Some(d) ==> w.epochs[e].queue[item] == v.epochs[e].queue[item])
    && (forall e, item: Item :: e in v.epochs && e !in w.epochs && item.cmd == Some(d) ==> item !in v.epochs[e].queue)
    && multiset(w.sends)[d] == multiset(v.sends)[d]
  }

  lemma UntouchedOk(w: Sched, v: Sched, d: CmdId)
    requires CmdOk(w, d) && Untouched(w, v, d)
    ensures CmdOk(v, d)
  {
  }

  lemma BeginCallKeeps(w: Sched, i: nat, call: Call)
    requires SchedInv(w) && i !in w.calls && call.AtLock? && call.cmd !in w.loc
    ensures SchedInv(BeginCall(w, i, call))
  {
    var v := BeginCall(w, i, call);
    forall d
      ensures CmdOk(v, d)
    {
      assert CmdOk(w, d);
      if d != call.cmd {
        UntouchedOk(w, v, d);
      }
    }
  }

  lemma AcceptCallKeeps(w: Sched, i: nat, e: nat, counter: nat)
    requires SchedInv(w) && i in w.calls && w.calls[i].AtLock? && e in w.epochs
    ensures SchedInv(AcceptCall(w, i, e, counter))
  {
    var v := AcceptCall(w, i, e, counter);
    forall d
      ensures CmdOk(v, d)
    {
      assert CmdOk(w, d);
      if d != w.calls[i].cmd {
        UntouchedOk(w, v, d);
      }
    }
  }

  lemma RejectCallKeeps(w: Sched, i: nat)
    requires SchedInv(w) && i in w.calls && w.calls[i].AtLock?
    ensures SchedInv(RejectCall(w, i))
  {
    var v := RejectCall(w, i);
    forall d
      ensures CmdOk(v, d)
    {
      assert CmdOk(w, d);
      if d != w.calls[i].cmd {
        UntouchedOk(w, v, d);
      }
    }
  }

  lemma PutItemKeeps(w: Sched, i: nat)
    requires SchedInv(w) && i in w.calls && w.calls[i].AtPut?
    ensures SchedInv(PutItem(w, i))
  {
    var v := PutItem(w, i);
    forall d
      ensures CmdOk(v, d)
    {
      assert CmdOk(w, d);
      if Some(d) != w.calls[i].item.cmd {
        UntouchedOk(w, v, d);
      }
    }
  }

  lemma OpenEpochKeeps(w: Sched, s: Session, e: nat)
    requires SchedInv(w) && e !in w.epochs
    ensures SchedInv(OpenEpoch(w, s, e))
  {
    var v := OpenEpoch(w, s, e);
    forall d
      ensures CmdOk(v, d)
    {
      assert CmdOk(w, d);
      UntouchedOk(w, v, d);
    }
  }

  lemma SetClosingKeeps(w: Sched, e: nat, closing: Closing)
    requires SchedInv(w) && e in w.epochs
    ensures SchedInv(SetClosing(w, e, closing))
  {
    var v := SetClosing(w, e, closing);
    forall d
      ensures CmdOk(v, d)
    {
      assert CmdOk(w, d);
      UntouchedOk(w, v, d);
    }
  }

  lemma PutSentinelInKeeps(w: Sched, e: nat)
    requires SchedInv(w) && e in w.epochs
    ensures SchedInv(PutSentinelIn(w, e))
  {
    var v := PutSentinelIn(w, e);
    forall d
      ensures CmdOk(v, d)
    {
      assert CmdOk(w, d);
      UntouchedOk(w, v, d);
    }
  }

  lemma TakeItemOwn(w: Sched, e: nat, item: Item)
    requires SchedInv(w) && e in w.epochs && w.epochs[e].phase.Polling? && item in w.epochs[e].queue && item.cmd.Some?
    ensures CmdOk(TakeItem(w, e, item), item.cmd.value)
  {
    assert CmdOk(w, item.cmd.value);
  }

  lemma TakeItemKeeps(w: Sched, e: nat, item: Item)
    requires SchedInv(w) && e in w.epochs && w.epochs[e].phase.Polling? && item in w.epochs[e].queue
    ensures SchedInv(TakeItem(w, e, item))
  {
    var v := TakeItem(w, e, item);
    forall d
      ensures CmdOk(v, d)
    {
      assert CmdOk(w, d);
      if Some(d) == item.cmd {
        TakeItemOwn(w, e, item);
      } else {
        UntouchedOk(w, v, d);
      }
    }
  }

  lemma CheckItemKeeps(w: Sched, e: nat)
    requires SchedInv(w) && e in w.epochs && w.epochs[e].phase.Taken?
    ensures SchedInv(CheckItem(w, e))
  {
    var v := CheckItem(w, e);
    forall d
      ensures CmdOk(v, d)
    {
      assert CmdOk(w, d);
      if Some(d) != w.epochs[e].phase.item.cmd {
        assert PhaseCmd(v.epochs[e].phase) != Some(d);
        UntouchedOk(w, v, d);
      } else if w.epochs[e].Stopped() {
      } else {
        assert v == SetPhase(w, e, Checked(d));
      }
    }
  }

  lemma StartItemKeeps(w: Sched, e: nat)
    requires SchedInv(w) && e in w.epochs && w.epochs[e].phase.Checked?
    ensures SchedInv(StartItem(w, e))
  {
    var v := StartItem(w, e);
    forall d
      ensures CmdOk(v, d)
    {
      assert CmdOk(w, d);
      if d != w.epochs[e].phase.cmd {
        UntouchedOk(w, v, d);
      }
    }
  }

  lemma SkipItemOwn(w: Sched, e: nat)
    requires SchedInv(w) && e in w.epochs && w.epochs[e].phase.Checked?
    ensures CmdOk(SkipItem(w, e), w.epochs[e].phase.cmd)
  {
    assert CmdOk(w, w.epochs[e].phase.cmd);
  }

  lemma SkipItemKeeps(w: Sched, e: nat)
    requires SchedInv(w) && e in w.epochs && w.epochs[e].phase.Checked?
    ensures SchedInv(SkipItem(w, e))
  {
    var v := SkipItem(w, e);
    SkipItemOwn(w, e);
    forall d | d != w.epochs[e].phase.cmd
      ensures CmdOk(v, d)
    {
      assert CmdOk(w, d);
      UntouchedOk(w, v, d);
    }
  }

  lemma SendItemOwn(w: Sched, e: nat)
    requires SchedInv(w) && e in w.epochs && w.epochs[e].phase.Ready?
    ensures CmdOk(SendItem(w, e), w.epochs[e].phase.cmd)
  {
    assert CmdOk(w, w.epochs[e].phase.cmd);
  }

  lemma SendItemKeeps(w: Sched, e: nat)
    requires SchedInv(w) && e in w.epochs && w.epochs[e].phase.Ready?
    ensures SchedInv(SendItem(w, e))
  {
    var v := SendItem(w, e);
    SendItemOwn(w, e);
    forall d | d != w.epochs[e].phase.cmd
      ensures CmdOk(v, d)
    {
      assert CmdOk(w, d);
      UntouchedOk(w, v, d);
    }
  }

  lemma FinishItemOwn(w: Sched, e: nat)
    requires SchedInv(w) && e in w.epochs && w.epochs[e].phase.Sending?
    ensures CmdOk(FinishItem(w, e), w.epochs[e].phase.cmd)
  {
    assert CmdOk(w, w.epochs[e].phase.cmd);
  }

  lemma FinishItemKeeps(w: Sched, e: nat)
    requires SchedInv(w) && e in w.epochs && w.epochs[e].phase.Sending?
    ensures SchedInv(FinishItem(w, e))
  {
    var v := FinishItem(w, e);
    FinishItemOwn(w, e);
    forall d | d != w.epochs[e].phase.cmd
      ensures CmdOk(v, d)
    {
      assert CmdOk(w, d);
      UntouchedOk(w, v, d);
    }
  }

  lemma ExitWorkerKeeps(w: Sched, e: nat)
    requires SchedInv(w) && e in w.epochs && w.epochs[e].phase.Polling?
    ensures SchedInv(SetPhase(w, e, Ended))
  {
    var v := SetPhase(w, e, Ended);
    forall d
      ensures CmdOk(v, d)
    {
      assert CmdOk(w, d);
      UntouchedOk(w, v, d);
    }
  }
}
