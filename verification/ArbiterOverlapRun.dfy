/**
 A run in which two workers of one session hold a command each while `_running` has room for one:
 the older one, cancelled, may be evicted and is not counted although its worker is still in it.
 */
module ArbiterOverlapRun {
  import opened Wrappers
  import opened Admission
  import opened ArbiterCore
  import opened Scheduling
  import opened ArbiterWorld
  import opened ArbiterInvariant
  import opened ArbiterTickets
  import opened ArbiterOverlap

  lemma Extend(ws: seq<World>, steps: seq<Step>, step: Step, v: World) returns (ws': seq<World>, steps': seq<Step>)
    requires IsRun(ws, steps) && Enabled(ws[|steps|], step) && v == Next(ws[|steps|], step)
    ensures ws' == ws + [v] && steps' == steps + [step] && IsRun(ws', steps')
  {
    ws', steps' := ws + [v], steps + [step];
    forall i: nat | i < |steps'|
      ensures StepAt(ws', steps', i)
    {
      assert i < |steps| ==> StepAt(ws, steps, i);
    }
  }

  lemma ExtendThrice(ws: seq<World>, steps: seq<Step>, s1: Step, v1: World, s2: Step, v2: World, s3: Step, v3: World)
    returns (ws': seq<World>, steps': seq<Step>)
    requires IsRun(ws, steps) && Enabled(ws[|steps|], s1) && v1 == Next(ws[|steps|], s1)
    requires Enabled(v1, s2) && v2 == Next(v1, s2) && Enabled(v2, s3) && v3 == Next(v2, s3)
    ensures ws' == ws + [v1, v2, v3] && steps' == steps + [s1, s2, s3] && IsRun(ws', steps')
  {
    ws', steps' := Extend(ws, steps, s1, v1);
    ws', steps' := Extend(ws', steps', s2, v2);
    ws', steps' := Extend(ws', steps', s3, v3);
    assert ws' == ws + [v1, v2, v3] && steps' == steps + [s1, s2, s3];
  }

  lemma EvictNothing(a: Core)
    requires |a.commands| <= HISTORY_MAX
    ensures Evict(a) == a
  {
    var victims := Victims(a.commands, a.running.Values);
    assert IsEvicted(a.commands, a.running.Values, victims);
    assert victims == {};
    assert a.commands - {} == a.commands;
  }

  // ---- a command on its way from submit to its worker ----

  /** Session `s` is registered as `e`, its worker polls an empty queue, and `i` and `c` are new. */
  ghost predicate Idle(w: World, s: Session, e: nat, i: nat, c: CmdId) {
    && s in w.core.queues && w.core.queues[s] == e
    && e in w.sched.epochs && w.sched.epochs[e] == Epoch(s, multiset{}, Open, Polling)
    && i !in w.sched.calls && c !in w.sched.loc && c != "" && c !in w.core.commands
    && |w.core.commands| < HISTORY_MAX && Pending(w.core, s) < PENDING_MAX && w.holder == map[]
  }

  function ItemOf(w: World, c: CmdId): Item {
    Item(0, w.core.counter + 1, Some(c))
  }

  function Begun(w: World, s: Session, i: nat, c: CmdId): World {
    w.(sched := BeginCall(w.sched, i, AtLock(s, c, 0, None)), exempt := w.exempt + {c})
  }

  function Accept(w: World, s: Session, e: nat, i: nat, c: CmdId): World {
    var w1 := Begun(w, s, i, c);
    w1.(core := Inserted(w.core, s, c, None), sched := AcceptCall(w1.sched, i, e, w.core.counter + 1))
  }

  function Put(w: World, s: Session, e: nat, i: nat, c: CmdId): World
    requires e in w.sched.epochs
  {
    var w2 := Accept(w, s, e, i, c);
    w2.(sched := PutItem(w2.sched, i))
  }

  function InHandOf(w: World, s: Session, e: nat, i: nat, c: CmdId): World
    requires e in w.sched.epochs
  {
    var w3 := Put(w, s, e, i, c);
    w3.(sched := TakeItem(w3.sched, e, ItemOf(w, c)))
  }

  function CheckedBy(w: World, s: Session, e: nat, i: nat, c: CmdId): World
    requires e in w.sched.epochs
  {
    var w4 := InHandOf(w, s, e, i, c);
    w4.(sched := CheckItem(w4.sched, e))
  }

  /** The state after the six steps, told by its parts. */
  ghost predicate Served(w: World, v: World, s: Session, e: nat, c: CmdId) {
    && e in w.sched.epochs
    && v.core == w.core.(counter := w.core.counter + 1, running := w.core.running[s := c],
                         commands := w.core.commands[c := Rec(s, Running, Some(0), None, None, w.core.counter + 1)])
    && v.sched.epochs == w.sched.epochs[e := Epoch(s, multiset{}, Open, Ready(c))]
    && v.sched.calls == w.sched.calls && v.sched.loc == w.sched.loc[c := Started(e)]
    && v.holder == map[]
  }

  lemma BeginStep(w: World, s: Session, e: nat, i: nat, c: CmdId)
    requires Idle(w, s, e, i, c)
    ensures Enabled(w, BeginSubmit(i, c, s, 0, "", true)) && Next(w, BeginSubmit(i, c, s, 0, "", true)) == Begun(w, s, i, c)
  {
  }

  lemma AcceptStep(w: World, s: Session, e: nat, i: nat, c: CmdId)
    requires Idle(w, s, e, i, c)
    ensures Enabled(w, BeginSubmit(i, c, s, 0, "", true)) && Next(w, BeginSubmit(i, c, s, 0, "", true)) == Begun(w, s, i, c)
    ensures Enabled(Begun(w, s, i, c), LockSubmit(i)) && Next(Begun(w, s, i, c), LockSubmit(i)) == Accept(w, s, e, i, c)
  {
    BeginStep(w, s, e, i, c);
    InsertStep(w, s, e, i, c);
  }

  lemma InsertStep(w: World, s: Session, e: nat, i: nat, c: CmdId)
    requires Idle(w, s, e, i, c)
    ensures Enabled(Begun(w, s, i, c), LockSubmit(i)) && Next(Begun(w, s, i, c), LockSubmit(i)) == Accept(w, s, e, i, c)
  {
    var w1 := Begun(w, s, i, c);
    assert w1.core == w.core && w1.sched.calls[i] == AtLock(s, c, 0, None);
    LockSubmitParts(w1, i);
    HasRoom(w, s, e, i, c);
  }

  lemma HasRoom(w: World, s: Session, e: nat, i: nat, c: CmdId)
    requires Idle(w, s, e, i, c)
    ensures Submitting(w.core, s, c, None).1.Enqueue?
    ensures Evict(Inserted(w.core, s, c, None)) == Inserted(w.core, s, c, None)
  {
    EvictNothing(Inserted(w.core, s, c, None));
  }

  lemma PutStep(w: World, s: Session, e: nat, i: nat, c: CmdId)
    requires Idle(w, s, e, i, c)
    ensures Enabled(Accept(w, s, e, i, c), PutSubmit(i)) && Next(Accept(w, s, e, i, c), PutSubmit(i)) == Put(w, s, e, i, c)
    ensures Put(w, s, e, i, c).sched.epochs == w.sched.epochs[e := Epoch(s, multiset{ItemOf(w, c)}, Open, Polling)]
  {
    assert multiset{} + multiset{ItemOf(w, c)} == multiset{ItemOf(w, c)};
  }

  lemma TakeStep(w: World, s: Session, e: nat, i: nat, c: CmdId)
    requires Idle(w, s, e, i, c)
    ensures Enabled(Put(w, s, e, i, c), Dequeue(e, ItemOf(w, c)))
    ensures Next(Put(w, s, e, i, c), Dequeue(e, ItemOf(w, c))) == InHandOf(w, s, e, i, c)
    ensures InHandOf(w, s, e, i, c).sched.epochs == w.sched.epochs[e := Epoch(s, multiset{}, Open, Taken(ItemOf(w, c)))]
  {
    PutStep(w, s, e, i, c);
    var item := ItemOf(w, c);
    assert multiset{item} - multiset{item} == multiset{};
    forall it | it in multiset{item}
      ensures !KeyLess(it, item)
    {
    }
  }

  lemma CheckStep(w: World, s: Session, e: nat, i: nat, c: CmdId)
    requires Idle(w, s, e, i, c)
    ensures Enabled(InHandOf(w, s, e, i, c), CheckStop(e)) && Next(InHandOf(w, s, e, i, c), CheckStop(e)) == CheckedBy(w, s, e, i, c)
    ensures CheckedBy(w, s, e, i, c).sched.epochs == w.sched.epochs[e := Epoch(s, multiset{}, Open, Checked(c))]
  {
    TakeStep(w, s, e, i, c);
  }

  lemma CheckedParts(w: World, s: Session, e: nat, i: nat, c: CmdId)
    requires Idle(w, s, e, i, c)
    ensures var w5 := CheckedBy(w, s, e, i, c);
      && w5.core == Inserted(w.core, s, c, None) && w5.holder == map[]
      && w5.sched.calls == w.sched.calls && w5.sched.loc == w.sched.loc[c := InHand(e)]
  {
    CheckedCalls(w, s, e, i, c);
    CheckedPlace(w, s, e, i, c);
  }

  lemma CheckedCalls(w: World, s: Session, e: nat, i: nat, c: CmdId)
    requires Idle(w, s, e, i, c)
    ensures CheckedBy(w, s, e, i, c).sched.calls == w.sched.calls
  {
    CheckStep(w, s, e, i, c);
  }

  lemma CheckedPlace(w: World, s: Session, e: nat, i: nat, c: CmdId)
    requires Idle(w, s, e, i, c)
    ensures CheckedBy(w, s, e, i, c).sched.loc == w.sched.loc[c := InHand(e)]
  {
    CheckStep(w, s, e, i, c);
  }

  lemma StartStep(w: World, s: Session, e: nat, i: nat, c: CmdId) returns (v: World)
    requires Idle(w, s, e, i, c)
    ensures Enabled(CheckedBy(w, s, e, i, c), LockStart(e, 0)) && Starts(CheckedBy(w, s, e, i, c), LockStart(e, 0), e, c)
    ensures v == Next(CheckedBy(w, s, e, i, c), LockStart(e, 0)) && Served(w, v, s, e, c)
  {
    CheckStep(w, s, e, i, c);
    CheckedParts(w, s, e, i, c);
    var w5 := CheckedBy(w, s, e, i, c);
    StartParts(w5, s, e, c, w.core.counter + 1);
    v := AfterLockStart(w5, e, 0);
    StartedIsServed(w, w5, v, s, e, c);
  }

  lemma StartParts(w: World, s: Session, e: nat, c: CmdId, n: nat)
    requires e in w.sched.epochs && EpochAt(w, e) == Epoch(s, multiset{}, Open, Checked(c)) && w.holder == map[]
    requires c in w.core.commands && w.core.commands[c] == Rec(s, Accepted, None, None, None, n)
    ensures var v := AfterLockStart(w, e, 0);
      && v.core == w.core.(running := w.core.running[s := c], commands := w.core.commands[c := Rec(s, Running, Some(0), None, None, n)])
      && v.sched == StartItem(w.sched, e) && v.holder == map[]
  {
  }

  lemma StartedIsServed(w: World, w5: World, v: World, s: Session, e: nat, c: CmdId)
    requires e in w.sched.epochs && c !in w.core.commands
    requires w5.core == Inserted(w.core, s, c, None) && w5.sched.calls == w.sched.calls && w5.sched.loc == w.sched.loc[c := InHand(e)]
    requires w5.sched.epochs == w.sched.epochs[e := Epoch(s, multiset{}, Open, Checked(c))]
    requires v.core == w5.core.(running := w5.core.running[s := c],
                                commands := w5.core.commands[c := Rec(s, Running, Some(0), None, None, w.core.counter + 1)])
    requires v.sched == StartItem(w5.sched, e) && v.holder == map[]
    ensures Served(w, v, s, e, c)
  {
  }

  lemma ServeFirst(ws: seq<World>, steps: seq<Step>, s: Session, e: nat, i: nat, c: CmdId) returns (ws': seq<World>, steps': seq<Step>)
    requires IsRun(ws, steps) && Idle(ws[|steps|], s, e, i, c)
    ensures IsRun(ws', steps') && |steps'| == |steps| + 3 && ws <= ws' && steps <= steps'
    ensures ws'[|steps'|] == Put(ws[|steps|], s, e, i, c)
  {
    var w := ws[|steps|];
    AcceptStep(w, s, e, i, c);
    PutStep(w, s, e, i, c);
    ws', steps' := Extend(ws, steps, BeginSubmit(i, c, s, 0, "", true), Begun(w, s, i, c));
    ws', steps' := Extend(ws', steps', LockSubmit(i), Accept(w, s, e, i, c));
    ws', steps' := Extend(ws', steps', PutSubmit(i), Put(w, s, e, i, c));
  }

  lemma ServeLast(w: World, ws: seq<World>, steps: seq<Step>, s: Session, e: nat, i: nat, c: CmdId) returns (ws': seq<World>, steps': seq<Step>)
    requires Idle(w, s, e, i, c) && IsRun(ws, steps) && ws[|steps|] == Put(w, s, e, i, c)
    ensures IsRun(ws', steps') && |steps'| == |steps| + 3 && ws <= ws' && steps <= steps'
    ensures Served(w, ws'[|steps'|], s, e, c) && Starts(ws'[|steps| + 2], steps'[|steps| + 2], e, c)
  {
    TakeStep(w, s, e, i, c);
    CheckStep(w, s, e, i, c);
    var v := StartStep(w, s, e, i, c);
    ws', steps' := ExtendThrice(ws, steps, Dequeue(e, ItemOf(w, c)), InHandOf(w, s, e, i, c),
                                CheckStop(e), CheckedBy(w, s, e, i, c), LockStart(e, 0), v);
  }

  /** Submits `c` and has it started. */
  lemma Serve(ws: seq<World>, steps: seq<Step>, s: Session, e: nat, i: nat, c: CmdId) returns (ws': seq<World>, steps': seq<Step>)
    requires IsRun(ws, steps) && Idle(ws[|steps|], s, e, i, c)
    ensures IsRun(ws', steps') && |steps'| == |steps| + 6 && ws <= ws' && steps <= steps'
    ensures Served(ws[|steps|], ws'[|steps'|], s, e, c) && Starts(ws'[|steps| + 5], steps'[|steps| + 5], e, c)
  {
    ws', steps' := ServeFirst(ws, steps, s, e, i, c);
    ws', steps' := ServeLast(ws[|steps|], ws', steps', s, e, i, c);
  }

  // ---- the run ----

  const START := World(Core(map[], map[], map[], map[], map[], 0, INITIAL, None),
                       Sched(map[], map[], map[], map[], []), {}, {}, {}, map[], {}, {}, {})

  lemma RegisterStep(w: World, s: Session, e: nat) returns (v: World)
    requires s !in w.core.queues && e !in w.sched.epochs
    ensures Enabled(w, Register(s, e)) && v == Next(w, Register(s, e))
    ensures v.core == w.core.(queues := w.core.queues[s := e]) && v.holder == w.holder
    ensures v.sched == w.sched.(epochs := w.sched.epochs[e := Epoch(s, multiset{}, Open, Polling)])
  {
    v := AfterRegister(w, s, e);
  }

  lemma SendStep(w: World, e: nat, s: Session, c: CmdId) returns (v: World)
    requires e in w.sched.epochs && EpochAt(w, e) == Epoch(s, multiset{}, Open, Ready(c))
    ensures Enabled(w, SendStart(e)) && v == Next(w, SendStart(e))
    ensures v.core == w.core && v.holder == w.holder && v.sched.calls == w.sched.calls
    ensures v.sched.epochs == w.sched.epochs[e := Epoch(s, multiset{}, Open, Sending(c))] && v.sched.loc == w.sched.loc[c := Sent(e)]
  {
    v := w.(sched := SendItem(w.sched, e));
  }

  /** Unregistering a session whose only command is running touches no record. */
  lemma UnregisterStep(w: World, s: Session, e: nat, c: CmdId, r: Rec) returns (v: World)
    requires w.core.queues == map[s := e] && e in w.sched.epochs && w.core.commands == map[c := r] && w.holder == map[]
    requires r.status == Running && r.doneAt.None?
    ensures Enabled(w, Unregister(s, "", 0)) && v == Next(w, Unregister(s, "", 0))
    ensures v.core.queues == map[] && v.core.commands == w.core.commands && v.core.running == w.core.running
    ensures v.core.counter == w.core.counter && v.holder == map[]
    ensures v.sched == w.sched.(epochs := w.sched.epochs[e := EpochAt(w, e).(closing := Popped)])
  {
    v := AfterUnregister(w, s, "", 0);
  }

  lemma CancelStep(w: World, c: CmdId) returns (v: World)
    requires c in w.core.commands && w.core.commands[c].status == Running && |w.core.commands| < HISTORY_MAX
    ensures Enabled(w, Cancel(c, 0)) && v == Next(w, Cancel(c, 0))
    ensures v.core.commands == w.core.commands[c := w.core.commands[c].(status := Canceled, doneAt := Some(0))]
    ensures v.core.running == w.core.running && v.sched == w.sched
  {
    EvictNothing(Release(MarkCanceled(w.core, c, 0), {}));
    v := AfterCancel(w, c, 0);
  }

  function Going(s: Session, n: nat): Rec {
    Rec(s, Running, Some(0), None, None, n)
  }

  /** `s` is registered, with no command yet. */
  predicate Fresh(w: World, s: Session) {
    w.core == START.core.(queues := map[s := 1]) && w.holder == map[]
    && w.sched == START.sched.(epochs := map[1 := Epoch(s, multiset{}, Open, Polling)])
  }

  /** `a` has been started. */
  predicate OneReady(w: World, s: Session, a: CmdId) {
    && w.core.queues == map[s := 1] && w.core.commands == map[a := Going(s, 1)]
    && w.core.running == map[s := a] && w.core.counter == 1
    && w.sched.epochs == map[1 := Epoch(s, multiset{}, Open, Ready(a))]
    && w.sched.calls == map[] && w.sched.loc == map[a := Started(1)] && w.holder == map[]
  }

  /** `a` is in its send. */
  predicate OneSending(w: World, s: Session, a: CmdId) {
    && w.core.queues == map[s := 1] && w.core.commands == map[a := Going(s, 1)]
    && w.core.running == map[s := a] && w.core.counter == 1
    && w.sched.epochs == map[1 := Epoch(s, multiset{}, Open, Sending(a))]
    && w.sched.calls == map[] && w.sched.loc == map[a := Sent(1)] && w.holder == map[]
  }

  /** The session has been registered anew. */
  predicate Again(w: World, s: Session, a: CmdId) {
    && w.core.queues == map[s := 2] && w.core.commands == map[a := Going(s, 1)]
    && w.core.running == map[s := a] && w.core.counter == 1
    && w.sched.epochs == map[1 := Epoch(s, multiset{}, Popped, Sending(a)), 2 := Epoch(s, multiset{}, Open, Polling)]
    && w.sched.calls == map[] && w.sched.loc == map[a := Sent(1)] && w.holder == map[]
  }

  /** And its new worker has started `b`. */
  predicate BothHeld(w: World, s: Session, a: CmdId, b: CmdId) {
    && w.core.commands == map[a := Going(s, 1), b := Going(s, 2)] && w.core.running == map[s := b]
    && w.sched.epochs == map[1 := Epoch(s, multiset{}, Popped, Sending(a)), 2 := Epoch(s, multiset{}, Open, Ready(b))]
  }

  lemma FreshIsIdle(w: World, s: Session, a: CmdId)
    requires Fresh(w, s) && a != ""
    ensures Idle(w, s, 1, 0, a)
    ensures forall v :: Served(w, v, s, 1, a) ==> OneReady(v, s, a)
  {
    assert Unfinished(w.core.commands, s) == {};
    forall v | Served(w, v, s, 1, a)
      ensures OneReady(v, s, a)
    {
    }
  }

  lemma AgainIsIdle(w: World, s: Session, a: CmdId, b: CmdId)
    requires Again(w, s, a) && b != "" && a != b
    ensures Idle(w, s, 2, 1, b)
    ensures forall v :: Served(w, v, s, 2, b) ==> BothHeld(v, s, a, b)
  {
    assert Unfinished(w.core.commands, s) == {a};
    forall v | Served(w, v, s, 2, b)
      ensures BothHeld(v, s, a, b)
    {
    }
  }

  lemma Opening(s: Session) returns (ws: seq<World>, steps: seq<Step>)
    ensures IsRun(ws, steps) && |steps| == 1 && Fresh(ws[1], s)
  {
    var w1 := RegisterStep(START, s, 1);
    ws, steps := Extend([START], [], Register(s, 1), w1);
  }

  lemma SendFirst(ws: seq<World>, steps: seq<Step>, s: Session, a: CmdId) returns (ws': seq<World>, steps': seq<Step>)
    requires IsRun(ws, steps) && OneReady(ws[|steps|], s, a)
    ensures IsRun(ws', steps') && |steps'| == |steps| + 1 && ws <= ws' && steps <= steps' && OneSending(ws'[|steps'|], s, a)
  {
    var v := SendStep(ws[|steps|], 1, s, a);
    ws', steps' := Extend(ws, steps, SendStart(1), v);
  }

  /** One registration: its command is started and sent. */
  lemma FirstRegistration(s: Session, a: CmdId) returns (ws: seq<World>, steps: seq<Step>)
    requires a != ""
    ensures IsRun(ws, steps) && |steps| == 8 && Starts(ws[6], steps[6], 1, a) && OneSending(ws[8], s, a)
  {
    ws, steps := Opening(s);
    FreshIsIdle(ws[1], s, a);
    ws, steps := Serve(ws, steps, s, 1, 0, a);
    ws, steps := SendFirst(ws, steps, s, a);
  }

  lemma Reopening(ws: seq<World>, steps: seq<Step>, s: Session, a: CmdId) returns (ws': seq<World>, steps': seq<Step>)
    requires IsRun(ws, steps) && OneSending(ws[|steps|], s, a)
    ensures IsRun(ws', steps') && |steps'| == |steps| + 2 && ws <= ws' && steps <= steps' && Again(ws'[|steps'|], s, a)
  {
    var v := UnregisterStep(ws[|steps|], s, 1, a, Going(s, 1));
    ws', steps' := Extend(ws, steps, Unregister(s, "", 0), v);
    var u := RegisterStep(v, s, 2);
    ws', steps' := Extend(ws', steps', Register(s, 2), u);
  }

  /** A second registration of the session starts another command. */
  lemma SecondRegistration(ws: seq<World>, steps: seq<Step>, s: Session, a: CmdId, b: CmdId) returns (ws': seq<World>, steps': seq<Step>)
    requires a != b && b != "" && IsRun(ws, steps) && OneSending(ws[|steps|], s, a)
    ensures IsRun(ws', steps') && |steps'| == |steps| + 8 && ws <= ws' && steps <= steps'
    ensures BothHeld(ws'[|steps'|], s, a, b)
  {
    ws', steps' := Reopening(ws, steps, s, a);
    AgainIsIdle(ws'[|steps'|], s, a, b);
    ws', steps' := Serve(ws', steps', s, 2, 1, b);
  }

  /** `a` may be evicted, and of the two commands that workers hold only `b` is counted. */
  ghost predicate Unprotected(w: World, s: Session, a: CmdId, b: CmdId) {
    && InWorker(w.sched, 1, a) && InWorker(w.sched, 2, b)
    && w.sched.epochs[1].phase == Sending(a)
    && a in Evictable(w.core.commands, w.core.running.Values)
    && Pending(w.core, s) == 1
  }

  lemma CancelUnprotects(w: World, v: World, s: Session, a: CmdId, b: CmdId)
    requires BothHeld(w, s, a, b) && a != b
    requires v.core.commands == w.core.commands[a := w.core.commands[a].(status := Canceled, doneAt := Some(0))]
    requires v.core.running == w.core.running && v.sched == w.sched
    ensures Unprotected(v, s, a, b)
  {
    assert forall t :: t in v.core.running ==> v.core.running[t] == b;
    assert Unfinished(v.core.commands, s) == {b};
  }

  /**
   `a` is cancelled while its worker is still in its send, after the session was registered anew
   and started `b`.
   */
  lemma OvertakenIsUnprotected(s: Session, a: CmdId, b: CmdId) returns (ws: seq<World>, steps: seq<Step>)
    requires a != "" && b != "" && a != b
    ensures IsRun(ws, steps) && |steps| == 17 && HeldSince(ws, steps, 6, 17, 1, a) && Unprotected(ws[17], s, a, b)
  {
    ws, steps := FirstRegistration(s, a);
    ws, steps := SecondRegistration(ws, steps, s, a, b);
    var v := CancelStep(ws[16], a);
    CancelUnprotects(ws[16], v, s, a, b);
    ws, steps := Extend(ws, steps, Cancel(a, 0), v);
  }
}
