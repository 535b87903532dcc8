/**
 The arbiter with all the threads around it: any number of submitters, one worker per
 registration, cancelling and recovering threads, and other clients of the gate. A step is one
 critical section, or one action of a thread outside the lock; steps of different threads
 interleave in any order.
 */
module ArbiterWorld {
  import opened Wrappers
  import opened Admission
  import opened ArbiterCore
  import opened Scheduling

  /** History: who will complete a live ticket. */
  datatype Holder = Other | ByCall(call: nat) | ByCmd(cmd: CmdId)

  /**
   Besides the arbiter and its threads, history: `exempt` the commands submitted without
   admission, `flushed` and `early` those flushed, and those cancelled while accepted, `holder`
   the owner of each live ticket, `sessions` every session ever registered, and the cancel
   callbacks that some thread is about to call (`due`) or has called (`invoked`).
   */
  datatype World = World(
    core: Core,
    sched: Sched,
    exempt: set<CmdId>,
    flushed: set<CmdId>,
    early: set<CmdId>,
    holder: map<nat, Holder>,
    sessions: set<Session>,
    due: set<(CmdId, Callback)>,
    invoked: set<(CmdId, Callback)>)

  datatype Step =
    | BeginSubmit(call: nat, cmd: CmdId, session: Session, priority: int, com: string, exemption: bool)
    | LockSubmit(call: nat)
    | PutSubmit(call: nat)
    | Register(session: Session, epoch: nat)
    | Unregister(session: Session, code: string, now: int)
    | SetStop(epoch: nat)
    | PutSentinel(epoch: nat)
    | Flush(session: Session, code: string, now: int)
    | Dequeue(epoch: nat, item: Item)
    | CheckStop(epoch: nat)
    | LockStart(epoch: nat, now: int)
    | SendStart(epoch: nat)
    | SendReturn(epoch: nat, result: SendResult, now: int)
    | SendRaise(epoch: nat, now: int)
    | ExitWorker(epoch: nat)
    | Cancel(cmd: CmdId, now: int)
    | AddCallback(epoch: nat, cmd: CmdId, callback: Callback)
    | DropCallback(epoch: nat, cmd: CmdId)
    | RunCallback(cmd: CmdId, callback: Callback)
    | OtherAdmit(kind: string, port: Option<string>)
    | OtherDone(ticket: Ticket)
    | OtherFlag(com: string, flag: Flag, on: bool)
    | Freeze(uuid: string)
    | Thaw(token: string)
    | FreezeIfIdle(uuid: string)

  ghost predicate Init(w: World) {
    w == World(Core(map[], map[], map[], map[], map[], 0, INITIAL, w.core.onCancel),
               Sched(map[], map[], map[], map[], []), {}, {}, {}, map[], {}, {}, {})
  }


  function EpochAt(w: World, e: nat): Epoch
    requires e in w.sched.epochs
  {
    w.sched.epochs[e]
  }

  ghost predicate Enabled(w: World, step: Step) {
    match step
    case BeginSubmit(i, c, _, _, _, _) => i !in w.sched.calls && c !in w.sched.loc && c != ""  // cmd_ids are fresh
    case LockSubmit(i) => i in w.sched.calls && w.sched.calls[i].AtLock?
    case PutSubmit(i) => i in w.sched.calls && w.sched.calls[i].AtPut?
    case Register(s, e) => e !in w.sched.epochs
    case SetStop(e) => e in w.sched.epochs && EpochAt(w, e).closing.Popped?
    case PutSentinel(e) => e in w.sched.epochs && EpochAt(w, e).closing.StopSet?
    case Dequeue(e, item) =>
      && e in w.sched.epochs && EpochAt(w, e).phase.Polling? && item in EpochAt(w, e).queue
      && (forall it :: it in EpochAt(w, e).queue ==> !KeyLess(it, item))
    case CheckStop(e) => e in w.sched.epochs && EpochAt(w, e).phase.Taken?
    case LockStart(e, _) => e in w.sched.epochs && EpochAt(w, e).phase.Checked?
    case SendStart(e) => e in w.sched.epochs && EpochAt(w, e).phase.Ready?
    case SendReturn(e, _, _) => e in w.sched.epochs && EpochAt(w, e).phase.Sending?
    case SendRaise(e, _) => e in w.sched.epochs && EpochAt(w, e).phase.Sending?
    case ExitWorker(e) => e in w.sched.epochs && EpochAt(w, e).phase.Polling? && EpochAt(w, e).Stopped()
    case AddCallback(e, _, _) => e in w.sched.epochs
    case DropCallback(e, _) => e in w.sched.epochs
    case RunCallback(c, cb) => (c, cb) in w.due
    case OtherDone(t) => t.seqNo in w.holder ==> w.holder[t.seqNo].Other?
    case _ => true
  }

  /** The command a worker thread's context names: set just around the send callback. */
  function Context(w: World, e: nat): Option<CmdId> {
    if e in w.sched.epochs && EpochAt(w, e).phase.Sending? then Some(EpochAt(w, e).phase.cmd) else None
  }

  /** The holders of the tickets that are still live. */
  function Live(holder: map<nat, Holder>, g: GateState): map<nat, Holder> {
    map n | n in holder && n in g.tickets :: holder[n]
  }

  /** Installs a new arbiter state; tickets that left the gate have no holder any more. */
  function SetCore(w: World, a: Core): World {
    w.(core := a, holder := Live(w.holder, a.gate))
  }

  ghost function Next(w: World, step: Step): World
    requires Enabled(w, step)
  {
    match step
    case BeginSubmit(i, c, s, p, com, exemption) => AfterBeginSubmit(w, i, c, s, p, com, exemption)
    case LockSubmit(i) => AfterLockSubmit(w, i)
    case PutSubmit(i) => AfterPutSubmit(w, i)
    case Register(s, e) => AfterRegister(w, s, e)
    case Unregister(s, code, now) => AfterUnregister(w, s, code, now)
    case SetStop(e) => w.(sched := SetClosing(w.sched, e, StopSet))
    case PutSentinel(e) => w.(sched := PutSentinelIn(w.sched, e))
    case Flush(s, code, now) => AfterFlush(w, s, code, now)
    case Dequeue(e, item) => w.(sched := TakeItem(w.sched, e, item))
    case CheckStop(e) => w.(sched := CheckItem(w.sched, e))
    case LockStart(e, now) => AfterLockStart(w, e, now)
    case SendStart(e) => w.(sched := SendItem(w.sched, e))
    case SendReturn(e, result, now) => AfterSendReturn(w, e, result, now)
    case SendRaise(e, now) => AfterSendRaise(w, e, now)
    case ExitWorker(e) => w.(sched := SetPhase(w.sched, e, Ended))
    case Cancel(c, now) => AfterCancel(w, c, now)
    case AddCallback(e, c, cb) => AfterAddCallback(w, e, c, cb)
    case DropCallback(e, c) => w.(core := DroppingCallback(w.core, Context(w, e), c))
    case RunCallback(c, cb) => w.(due := w.due - {(c, cb)}, invoked := w.invoked + {(c, cb)})
    case OtherAdmit(kind, port) => AfterOtherAdmit(w, kind, port)
    case OtherDone(t) => SetCore(w, w.core.(gate := Completing(w.core.gate, t)))
    case OtherFlag(com, flag, on) => w.(core := w.core.(gate := Flagging(w.core.gate, com, flag, on)))
    case Freeze(uuid) => w.(core := w.core.(gate := Freezing(w.core.gate, uuid)))
    case Thaw(token) => w.(core := w.core.(gate := Thawing(w.core.gate, token).0))
    case FreezeIfIdle(uuid) => w.(core := w.core.(gate := FreezingIfIdle(w.core.gate, uuid).0))
  }

  /** Outside the arbiter lock: a ticket from the gate (unless exempt), then a fresh cmd_id. */
  function AfterBeginSubmit(w: World, i: nat, c: CmdId, s: Session, p: int, com: string, exemption: bool): World {
    if exemption then
      w.(sched := BeginCall(w.sched, i, AtLock(s, c, p, None)), exempt := w.exempt + {c})
    else
      var (g, ticket) := Admitting(w.core.gate, "command.submit", Some(com));
      if ticket.None? then w
      else w.(core := w.core.(gate := g), sched := BeginCall(w.sched, i, AtLock(s, c, p, ticket)),
              holder := w.holder[ticket.value.seqNo := ByCall(i)])
  }

  ghost function AfterLockSubmit(w: World, i: nat): World
    requires i in w.sched.calls && w.sched.calls[i].AtLock?
  {
    var AtLock(s, c, p, ticket) := w.sched.calls[i];
    var (a, r) := Submitting(w.core, s, c, ticket);
    if r.Enqueue? then
      w.(core := a, sched := AcceptCall(w.sched, i, r.epoch, r.counter),
         holder := if ticket.Some? then w.holder[ticket.value.seqNo := ByCmd(c)] else w.holder)
    else
      SetCore(w, a).(sched := RejectCall(w.sched, i))
  }

  /** What the locked section of submit changes, part by part. */
  lemma LockSubmitParts(w: World, i: nat)
    requires i in w.sched.calls && w.sched.calls[i].AtLock?
    ensures var v := AfterLockSubmit(w, i);
      var AtLock(s, c, _, ticket) := w.sched.calls[i];
      if Submitting(w.core, s, c, ticket).1.Enqueue? then
        && s in w.core.queues
        && v == w.(core := Evict(Inserted(w.core, s, c, ticket)),
                   sched := AcceptCall(w.sched, i, w.core.queues[s], w.core.counter + 1),
                   holder := if ticket.Some? then w.holder[ticket.value.seqNo := ByCmd(c)] else w.holder)
      else
        v == w.(core := Discard(w.core, ticket), sched := RejectCall(w.sched, i),
                holder := Live(w.holder, Discard(w.core, ticket).gate))
  {
  }

  function AfterPutSubmit(w: World, i: nat): World
    requires i in w.sched.calls && w.sched.calls[i].AtPut?
  {
    var AtPut(e, item) := w.sched.calls[i];
    if e in w.sched.epochs && item.cmd.Some? then w.(sched := PutItem(w.sched, i)) else w
  }

  function AfterRegister(w: World, s: Session, e: nat): World {
    if s in w.core.queues then w
    else w.(core := Registering(w.core, s, e), sessions := w.sessions + {s}, sched := OpenEpoch(w.sched, s, e))
  }

  function AfterUnregister(w: World, s: Session, code: string, now: int): World {
    SetCore(w, Unregistering(w.core, s, code, now)).(
      flushed := w.flushed + FlushSet(w.core.commands, s),
      sched := if s in w.core.queues && w.core.queues[s] in w.sched.epochs
               then SetClosing(w.sched, w.core.queues[s], Popped) else w.sched)
  }

  function AfterFlush(w: World, s: Session, code: string, now: int): World {
    SetCore(w, Flushing(w.core, s, code, now)).(flushed := w.flushed + FlushSet(w.core.commands, s))
  }

  function AfterLockStart(w: World, e: nat, now: int): World
    requires e in w.sched.epochs && EpochAt(w, e).phase.Checked?
  {
    var (a, go) := Starting(w.core, EpochAt(w, e).session, EpochAt(w, e).phase.cmd, now);
    SetCore(w, a).(sched := if go then StartItem(w.sched, e) else SkipItem(w.sched, e))
  }

  ghost function AfterSendReturn(w: World, e: nat, result: SendResult, now: int): World
    requires e in w.sched.epochs && EpochAt(w, e).phase.Sending?
  {
    SetCore(w, Returning(w.core, EpochAt(w, e).session, EpochAt(w, e).phase.cmd, result, now)).(
      sched := FinishItem(w.sched, e))
  }

  ghost function AfterSendRaise(w: World, e: nat, now: int): World
    requires e in w.sched.epochs && EpochAt(w, e).phase.Sending?
  {
    SetCore(w, Failing(w.core, EpochAt(w, e).session, EpochAt(w, e).phase.cmd, now)).(
      sched := FinishItem(w.sched, e))
  }

  ghost function AfterCancel(w: World, c: CmdId, now: int): World {
    var (a, r) := Cancelling(w.core, c, now);
    SetCore(w, a).(
      early := if r.CancelOk? && w.core.commands[c].status == Accepted then w.early + {c} else w.early,
      due := if r.CancelOk? && r.callback.Some? then w.due + {(c, r.callback.value)} else w.due)
  }

  function AfterAddCallback(w: World, e: nat, c: CmdId, cb: Callback): World {
    var (a, r) := AddingCallback(w.core, Context(w, e), c, cb);
    w.(core := a, due := if r.CallNow? then w.due + {(c, cb)} else w.due)
  }

  function AfterOtherAdmit(w: World, kind: string, port: Option<string>): World {
    var (g, ticket) := Admitting(w.core.gate, kind, port);
    w.(core := w.core.(gate := g), holder := if ticket.Some? then w.holder[ticket.value.seqNo := Other] else w.holder)
  }

  // ---- runs ----

  ghost predicate StepAt(ws: seq<World>, steps: seq<Step>, i: nat)
    requires |ws| == |steps| + 1 && i < |steps|
  {
    Enabled(ws[i], steps[i]) && ws[i + 1] == Next(ws[i], steps[i])
  }

  /** `ws` are the states of a run from the start, `steps` the steps between them. */
  ghost predicate IsRun(ws: seq<World>, steps: seq<Step>) {
    && |ws| == |steps| + 1
    && Init(ws[0])
    && (forall i: nat {:trigger StepAt(ws, steps, i)} :: i < |steps| ==> StepAt(ws, steps, i))
  }
}
