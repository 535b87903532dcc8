/**
 The command arbiter's state and what each of its locked sections does to it
 (sw_core/arbiter.py). Every function here is one critical section of `self._lock`,
 with the gate calls made inside it.
 */
module ArbiterCore {
  import opened Wrappers
  import opened Admission

  type Session = string
  type CmdId = string
  type Callback = nat  // identity of a cancel callback

  const HISTORY_MAX: nat := 512
  const PENDING_MAX: nat := 256

  datatype Status = Accepted | Running | Interactive | Done | Error | Canceled

  /** A command record; `order` is its place in the insertion order of `_commands`. */
  datatype Rec = Rec(
    session: Session,
    status: Status,
    startedAt: Option<int>,
    doneAt: Option<int>,
    errorCode: Option<string>,
    order: nat)

  /**
   `queues[s]` is the registration (queue, stop event and worker thread, which the source keeps
   in three dictionaries with the same keys) that session `s` currently has.
   */
  datatype Core = Core(
    queues: map<Session, nat>,
    commands: map<CmdId, Rec>,
    tickets: map<CmdId, Ticket>,
    running: map<Session, CmdId>,
    callbacks: map<CmdId, Callback>,
    counter: nat,
    gate: GateState,
    onCancel: Option<Callback>)

  datatype SubmitResult = NotReady | QueueFull(pending: nat) | Enqueue(epoch: nat, counter: nat)
  datatype CancelResult = NotFound | NotCancelable | CancelOk(callback: Option<Callback>)
  datatype RegisterResult = Refused | Stored | CallNow | TooLate
  datatype SendResult = Plain | Dict(ok: bool, errorCode: Option<string>, interactive: bool)

  // ---- admission tickets ----

  function Tickets(a: Core, cs: set<CmdId>): (ns: set<nat>)
    ensures forall c :: c in cs && c in a.tickets ==> a.tickets[c].seqNo in ns
  {
    set c | c in cs && c in a.tickets :: a.tickets[c].seqNo
  }

  /** Completes whatever tickets the commands `cs` hold. */
  function Release(a: Core, cs: set<CmdId>): Core {
    a.(tickets := a.tickets - cs, gate := CompletingAll(a.gate, Tickets(a, cs)))
  }

  function Discard(a: Core, ticket: Option<Ticket>): Core {
    if ticket.Some? then a.(gate := Completing(a.gate, ticket.value)) else a
  }

  // ---- eviction ----

  function Excess(commands: map<CmdId, Rec>): nat {
    if |commands| <= HISTORY_MAX then 0 else |commands| - HISTORY_MAX
  }

  function Evictable(commands: map<CmdId, Rec>, live: set<CmdId>): set<CmdId> {
    set c | c in commands && commands[c].doneAt.Some? && c !in live
  }

  /** The stable sort order of `done.sort(key=done_at)`. */
  predicate Before(a: Rec, b: Rec)
    requires a.doneAt.Some? && b.doneAt.Some?
  {
    a.doneAt.value < b.doneAt.value || (a.doneAt.value == b.doneAt.value && a.order < b.order)
  }

  ghost predicate Oldest(commands: map<CmdId, Rec>, cands: set<CmdId>, k: nat, victims: set<CmdId>)
    requires forall c :: c in cands ==> c in commands && commands[c].doneAt.Some?
  {
    && victims <= cands
    && |victims| == Min(k, |cands|)
    && (forall v, d :: v in victims && d in cands && d !in victims ==> !Before(commands[d], commands[v]))
  }

  ghost predicate IsEvicted(commands: map<CmdId, Rec>, live: set<CmdId>, victims: set<CmdId>) {
    Oldest(commands, Evictable(commands, live), Excess(commands), victims)
  }

  lemma {:induction false} FirstExists(commands: map<CmdId, Rec>, cands: set<CmdId>) returns (m: CmdId)
    requires cands != {}
    requires forall c :: c in cands ==> c in commands && commands[c].doneAt.Some?
    ensures m in cands && forall d :: d in cands ==> !Before(commands[d], commands[m])
  {
    m :| m in cands;
    if cands != {m} {
      assert cands - {m} != {};
      var n := FirstExists(commands, cands - {m});
      if Before(commands[n], commands[m]) {
        m := n;
      }
    }
  }

  lemma {:induction false} OldestExists(commands: map<CmdId, Rec>, cands: set<CmdId>, k: nat) returns (victims: set<CmdId>)
    requires forall c :: c in cands ==> c in commands && commands[c].doneAt.Some?
    ensures Oldest(commands, cands, k, victims)
    decreases k
  {
    if k == 0 || cands == {} {
      victims := {};
    } else {
      var m := FirstExists(commands, cands);
      var rest := OldestExists(commands, cands - {m}, k - 1);
      victims := rest + {m};
    }
  }

  ghost function Victims(commands: map<CmdId, Rec>, live: set<CmdId>): (victims: set<CmdId>)
    ensures IsEvicted(commands, live, victims)
  {
    assert exists vs :: IsEvicted(commands, live, vs) by {
      var vs := OldestExists(commands, Evictable(commands, live), Excess(commands));
      assert IsEvicted(commands, live, vs);
    }
    var vs :| IsEvicted(commands, live, vs);
    vs
  }

  ghost predicate DistinctOrders(commands: map<CmdId, Rec>) {
    forall c, d :: c in commands && d in commands && commands[c].order == commands[d].order ==> c == d
  }

  /** With insertion orders distinct, who is evicted is determined. */
  lemma OldestUnique(commands: map<CmdId, Rec>, cands: set<CmdId>, k: nat, v: set<CmdId>, w: set<CmdId>)
    requires forall c :: c in cands ==> c in commands && commands[c].doneAt.Some?
    requires DistinctOrders(commands) && Oldest(commands, cands, k, v) && Oldest(commands, cands, k, w)
    ensures v == w
  {
    if v != w {
      SameSizeDiffer(v, w);
    }
  }

  lemma SameSizeDiffer<T>(v: set<T>, w: set<T>)
    requires |v| == |w| && v != w
    ensures (exists x :: x in v && x !in w) && (exists y :: y in w && y !in v)
  {
    if v <= w {
      SubsetSize(v, w);
    }
    if w <= v {
      SubsetSize(w, v);
    }
  }

  ghost function Evict(a: Core): Core {
    a.(commands := a.commands - Victims(a.commands, a.running.Values))
  }

  // ---- pending count ----

  function Unfinished(commands: map<CmdId, Rec>, s: Session): set<CmdId> {
    set c | c in commands && commands[c].session == s && commands[c].doneAt.None?
  }

  predicate CanceledInWorker(a: Core, s: Session) {
    && s in a.running && a.running[s] in a.commands
    && a.commands[a.running[s]].session == s && a.commands[a.running[s]].status == Canceled
  }

  function Pending(a: Core, s: Session): nat {
    |Unfinished(a.commands, s)| + if CanceledInWorker(a, s) then 1 else 0
  }

  // ---- locked sections ----

  function Registering(a: Core, s: Session, epoch: nat): Core {
    if s in a.queues then a else a.(queues := a.queues[s := epoch])
  }

  predicate IsFlushed(r: Rec, s: Session) {
    r.session == s && r.doneAt.None? && r.status == Accepted
  }

  function FlushRec(r: Rec, s: Session, code: string, now: int): Rec {
    if IsFlushed(r, s) then r.(status := Error, errorCode := Some(code), doneAt := Some(now)) else r
  }

  /** Records a flush touches: those it ends, and those already ended whose ticket it returns. */
  predicate Touched(r: Rec, s: Session) {
    r.session == s && (r.doneAt.Some? || r.status == Accepted)
  }

  function FlushSet(commands: map<CmdId, Rec>, s: Session): set<CmdId> {
    set c | c in commands && IsFlushed(commands[c], s)
  }

  function TouchSet(commands: map<CmdId, Rec>, s: Session): set<CmdId> {
    set c | c in commands && Touched(commands[c], s)
  }

  function Flushing(a: Core, s: Session, code: string, now: int): Core {
    Release(a, TouchSet(a.commands, s)).(commands := map c | c in a.commands :: FlushRec(a.commands[c], s, code, now))
  }

  function Unregistering(a: Core, s: Session, code: string, now: int): Core {
    Flushing(a.(queues := a.queues - {s}), s, code, now)
  }

  function Inserted(a: Core, s: Session, c: CmdId, ticket: Option<Ticket>): Core {
    var n := a.counter + 1;
    a.(counter := n, commands := a.commands[c := Rec(s, Accepted, None, None, None, n)],
       tickets := if ticket.Some? then a.tickets[c := ticket.value] else a.tickets)
  }

  ghost function Submitting(a: Core, s: Session, c: CmdId, ticket: Option<Ticket>): (Core, SubmitResult) {
    if s !in a.queues then (Discard(a, ticket), NotReady)
    else if Pending(a, s) >= PENDING_MAX then (Discard(a, ticket), QueueFull(Pending(a, s)))
    else (Evict(Inserted(a, s, c, ticket)), Enqueue(a.queues[s], a.counter + 1))
  }

  function MarkCanceled(a: Core, c: CmdId, now: int): Core
    requires c in a.commands
  {
    a.(commands := a.commands[c := a.commands[c].(status := Canceled, doneAt := Some(now))])
  }

  ghost function Cancelling(a: Core, c: CmdId, now: int): (Core, CancelResult) {
    if c !in a.commands then (a, NotFound)
    else if a.commands[c].status in {Done, Error} then (a, NotCancelable)
    else
      (Evict(Release(MarkCanceled(a, c, now), if a.commands[c].status == Accepted then {c} else {})),
       CancelOk(CancelCallback(a, c)))
  }

  function CancelCallback(a: Core, c: CmdId): Option<Callback> {
    if a.onCancel.Some? then a.onCancel
    else if c in a.callbacks then Some(a.callbacks[c]) else None
  }

  /** Whether a worker that dequeued `c` goes on to send it. */
  predicate MayStart(a: Core, c: CmdId) {
    c in a.commands && a.commands[c].status != Canceled && a.commands[c].doneAt.None?
  }

  function MarkRunning(a: Core, s: Session, c: CmdId, now: int): Core
    requires c in a.commands
  {
    a.(commands := a.commands[c := a.commands[c].(status := Running, startedAt := Some(now))],
       running := a.running[s := c])
  }

  function Starting(a: Core, s: Session, c: CmdId, now: int): (Core, bool) {
    if MayStart(a, c) then (MarkRunning(a, s, c, now), true) else (Release(a, {c}), false)
  }

  function ClearRunning(a: Core, s: Session, c: CmdId): Core {
    if s in a.running && a.running[s] == c then a.(running := a.running - {s}) else a
  }

  function MarkFailed(a: Core, c: CmdId, now: int): Core {
    if c in a.commands
    then a.(commands := a.commands[c := a.commands[c].(status := Error, errorCode := Some("SEND_FAILED"), doneAt := Some(now))])
    else a
  }

  ghost function Failing(a: Core, s: Session, c: CmdId, now: int): Core {
    Release(Evict(ClearRunning(MarkFailed(a, c, now), s, c)), {c})
  }

  function Outcome(r: Rec, result: SendResult, now: int): Rec {
    var r1 := r.(doneAt := Some(now));
    if result.Dict? && !result.ok then
      r1.(status := Error, errorCode := if result.errorCode in {None, Some("")} then Some("COMMAND_FAILED") else result.errorCode)
    else if result.Dict? && result.interactive then r1.(status := Interactive)
    else r1.(status := Done)
  }

  function MarkReturned(a: Core, c: CmdId, result: SendResult, now: int): Core {
    if c in a.commands && a.commands[c].status != Canceled
    then a.(commands := a.commands[c := Outcome(a.commands[c], result, now)])
    else a
  }

  ghost function Returning(a: Core, s: Session, c: CmdId, result: SendResult, now: int): Core {
    Release(Evict(ClearRunning(MarkReturned(a, c, result, now), s, c)), {c})
  }

  /** `context` is the command whose send callback the calling worker thread is in. */
  function AddingCallback(a: Core, context: Option<CmdId>, c: CmdId, cb: Callback): (Core, RegisterResult) {
    if context != Some(c) || c !in a.commands then (a, Refused)
    else if a.commands[c].status == Canceled then (a, CallNow)
    else if a.commands[c].doneAt.Some? then (a, TooLate)
    else (a.(callbacks := a.callbacks[c := cb]), Stored)
  }

  function DroppingCallback(a: Core, context: Option<CmdId>, c: CmdId): Core {
    if context != Some(c) then a else a.(callbacks := a.callbacks - {c})
  }
}
