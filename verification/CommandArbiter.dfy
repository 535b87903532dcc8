/**
 The arbiter object: its locked sections as methods that update its fields, each proved to do
 what the functions of `ArbiterCore` say. The threads that call them are in `ArbiterWorld`.
 */
module Arbiter {
  import opened Wrappers
  import opened Admission
  import opened ArbiterCore

  function Elems<T>(s: seq<T>): set<T> {
    set x | x in s
  }

  class CommandArbiter {
    const admission: AdmissionGate
    const onCancel: Option<Callback>
    var queues: map<Session, nat>
    var commands: map<CmdId, Rec>
    var tickets: map<CmdId, Ticket>
    var running: map<Session, CmdId>
    var callbacks: map<CmdId, Callback>
    var counter: nat

    ghost function View(): Core
      reads this, admission
    {
      Core(queues, commands, tickets, running, callbacks, counter, admission.View(), onCancel)
    }

    /** Records keep the order they were inserted in, and no two sessions share a registration. */
    ghost predicate Valid()
      reads this
    {
      && DistinctOrders(commands)
      && (forall c :: c in commands ==> commands[c].order <= counter)
      && (forall s, t :: s in queues && t in queues && queues[s] == queues[t] ==> s == t)
    }

    constructor (gate: AdmissionGate, onCancel: Option<Callback>)
      ensures Valid() && admission == gate && this.onCancel == onCancel
      ensures View() == Core(map[], map[], map[], map[], map[], 0, gate.View(), onCancel)
    {
      this.admission, this.onCancel := gate, onCancel;
      queues, commands, tickets, running, callbacks, counter := map[], map[], map[], map[], map[], 0;
    }

    /** `epoch` stands for the new queue, stop event and thread. */
    method Register(s: Session, epoch: nat)
      requires Valid() && epoch !in queues.Values
      modifies this`queues
      ensures Valid() && View() == Registering(old(View()), s, epoch)
    {
      if s in queues {
        return;
      }
      queues := queues[s := epoch];
    }

    method FinishAdmission(c: CmdId)
      modifies this`tickets, admission
      ensures View() == Release(old(View()), {c})
    {
      if c in tickets {
        admission.Done(tickets[c]);
        tickets := tickets - {c};
        assert Tickets(old(View()), {c}) == {old(tickets)[c].seqNo};
      } else {
        assert Tickets(old(View()), {c}) == {};
        assert tickets - {c} == tickets;
      }
    }

    /** The flush after looking at the records `seen`. */
    static ghost function FlushedSoFar(a: Core, seen: set<CmdId>, s: Session, code: string, now: int): Core {
      Release(a, TouchSet(a.commands, s) * seen).(
        commands := map c | c in a.commands :: if c in seen then FlushRec(a.commands[c], s, code, now) else a.commands[c])
    }

    static lemma SeeMore(a: Core, seen: set<CmdId>, c: CmdId, s: Session, code: string, now: int)
      requires c in a.commands && c !in seen
      ensures var b := FlushedSoFar(a, seen, s, code, now);
        var r := a.commands[c];
        var b1 := if Touched(r, s) then Release(b, {c}) else b;
        FlushedSoFar(a, seen + {c}, s, code, now) == b1.(commands := b.commands[c := FlushRec(r, s, code, now)])
    {
      var t := TouchSet(a.commands, s);
      if c in t {
        assert t * (seen + {c}) == t * seen + {c};
        ReleaseTwice(a, t * seen, {c});
      } else {
        assert t * (seen + {c}) == t * seen;
      }
    }

    static lemma ReleaseTwice(a: Core, cs: set<CmdId>, ds: set<CmdId>)
      requires cs !! ds
      ensures Release(Release(a, cs), ds) == Release(a, cs + ds)
    {
      var b := Release(a, cs);
      assert b.tickets - ds == a.tickets - (cs + ds);
      assert Tickets(a, cs) + Tickets(b, ds) == Tickets(a, cs + ds) by {
        forall n | n in Tickets(a, cs + ds)
          ensures n in Tickets(a, cs) + Tickets(b, ds)
        {
          var c :| c in cs + ds && c in a.tickets && a.tickets[c].seqNo == n;
          assert c in ds ==> c in b.tickets;
        }
      }
      assert b.gate.tickets - Tickets(b, ds) == a.gate.tickets - Tickets(a, cs + ds);
    }

    /** One turn of the flush loop; `hit` tells whether the record was flushed. */
    method FlushOne(c: CmdId, s: Session, code: string, now: int, ghost a: Core, ghost seen: set<CmdId>) returns (hit: bool)
      requires c in a.commands && c !in seen && View() == FlushedSoFar(a, seen, s, code, now)
      modifies this, admission
      ensures View() == FlushedSoFar(a, seen + {c}, s, code, now)
      ensures hit == IsFlushed(a.commands[c], s) && commands.Keys == a.commands.Keys
    {
      SeeMore(a, seen, c, s, code, now);
      var rec := commands[c];
      hit := false;
      if rec.session != s {
        assert commands == commands[c := rec];
      } else if rec.doneAt.Some? {
        assert commands == commands[c := rec];
        FinishAdmission(c);
      } else if rec.status == Accepted {
        commands := commands[c := rec.(status := Error, errorCode := Some(code), doneAt := Some(now))];
        FinishAdmission(c);
        hit := true;
      } else {
        assert commands == commands[c := rec];
      }
    }

    method FlushRecords(s: Session, code: string, now: int) returns (flushed: nat)
      modifies this, admission
      ensures View() == Flushing(old(View()), s, code, now)
      ensures flushed == |FlushSet(old(commands), s)|
    {
      ghost var a := View();
      flushed := 0;
      var seen: set<CmdId> := {};
      NothingFlushed(a, s, code, now);
      FlushCountEnds(a.commands, s);
      while seen != commands.Keys
        invariant seen <= a.commands.Keys == commands.Keys
        invariant View() == FlushedSoFar(a, seen, s, code, now)
        invariant flushed == FlushedCount(a.commands, s, seen)
        decreases a.commands.Keys - seen
      {
        assert commands.Keys - seen != {};
        var c :| c in commands.Keys - seen;
        var hit := FlushOne(c, s, code, now, a, seen);
        FlushCount(a.commands, seen, c, s);
        if hit {
          flushed := flushed + 1;
        }
        seen := seen + {c};
      }
      AllFlushed(a, s, code, now);
    }

    method FlushLocked(s: Session, code: string, now: int) returns (flushed: nat)
      requires Valid()
      modifies this, admission
      ensures Valid() && View() == Flushing(old(View()), s, code, now)
      ensures flushed == |FlushSet(old(commands), s)|
    {
      FlushKeepsOrders(View(), s, code, now);
      flushed := FlushRecords(s, code, now);
    }

    static ghost function FlushedCount(commands: map<CmdId, Rec>, s: Session, seen: set<CmdId>): nat {
      |FlushSet(commands, s) * seen|
    }

    static lemma FlushCountEnds(commands: map<CmdId, Rec>, s: Session)
      ensures FlushedCount(commands, s, {}) == 0 && FlushedCount(commands, s, commands.Keys) == |FlushSet(commands, s)|
    {
      assert FlushSet(commands, s) * {} == {};
      assert FlushSet(commands, s) * commands.Keys == FlushSet(commands, s);
    }

    static lemma FlushCount(commands: map<CmdId, Rec>, seen: set<CmdId>, c: CmdId, s: Session)
      requires c in commands && c !in seen
      ensures FlushedCount(commands, s, seen + {c}) == FlushedCount(commands, s, seen) + if IsFlushed(commands[c], s) then 1 else 0
    {
      var f := FlushSet(commands, s);
      assert f * (seen + {c}) == f * seen + if IsFlushed(commands[c], s) then {c} else {};
    }

    static lemma FlushKeepsOrders(a: Core, s: Session, code: string, now: int)
      requires DistinctOrders(a.commands)
      ensures DistinctOrders(Flushing(a, s, code, now).commands)
      ensures forall c :: c in a.commands ==> Flushing(a, s, code, now).commands[c].order == a.commands[c].order
    {
    }

    static lemma NothingFlushed(a: Core, s: Session, code: string, now: int)
      ensures FlushedSoFar(a, {}, s, code, now) == a
    {
      assert TouchSet(a.commands, s) * {} == {};
      NothingToRelease(a);
      assert a.commands == map c | c in a.commands :: a.commands[c];
    }

    static lemma AllFlushed(a: Core, s: Session, code: string, now: int)
      ensures FlushedSoFar(a, a.commands.Keys, s, code, now) == Flushing(a, s, code, now)
    {
      assert TouchSet(a.commands, s) * a.commands.Keys == TouchSet(a.commands, s);
    }

    static lemma NothingToRelease(a: Core)
      ensures Release(a, {}) == a
    {
      assert Tickets(a, {}) == {};
      assert a.tickets - {} == a.tickets && a.gate.tickets - {} == a.gate.tickets;
    }

    /** The locked half of `unregister_session`; the caller stops the worker of the popped registration. */
    method UnregisterLocked(s: Session, code: string, now: int) returns (popped: Option<nat>)
      requires Valid()
      modifies this, admission
      ensures Valid() && View() == Unregistering(old(View()), s, code, now)
      ensures popped == if s in old(queues) then Some(old(queues)[s]) else None
    {
      popped := if s in queues then Some(queues[s]) else None;
      queues := queues - {s};
      var _ := FlushLocked(s, code, now);
    }

    static lemma OneMore(unfinished: set<CmdId>, seen: set<CmdId>, c: CmdId)
      requires c !in seen
      ensures |unfinished * (seen + {c})| == |unfinished * seen| + if c in unfinished then 1 else 0
    {
      if c in unfinished {
        assert unfinished * (seen + {c}) == unfinished * seen + {c};
      } else {
        assert unfinished * (seen + {c}) == unfinished * seen;
      }
    }

    method CountPending(s: Session) returns (n: nat)
      ensures n == Pending(View(), s)
    {
      n := 0;
      var seen: set<CmdId> := {};
      while seen != commands.Keys
        invariant seen <= commands.Keys
        invariant n == |Unfinished(commands, s) * seen|
        decreases commands.Keys - seen
      {
        assert commands.Keys - seen != {};
        var c :| c in commands.Keys - seen;
        OneMore(Unfinished(commands, s), seen, c);
        if commands[c].session == s && commands[c].doneAt.None? {
          n := n + 1;
        }
        seen := seen + {c};
      }
      assert Unfinished(commands, s) * seen == Unfinished(commands, s);
      if s in running && running[s] in commands
        && commands[running[s]].session == s && commands[running[s]].status == Canceled {
        n := n + 1;
      }
    }

    static ghost predicate Sorted(commands: map<CmdId, Rec>, cs: seq<CmdId>) {
      && (forall i :: 0 <= i < |cs| ==> cs[i] in commands && commands[cs[i]].doneAt.Some?)
      && (forall i, j :: 0 <= i < j < |cs| ==> !Before(commands[cs[j]], commands[cs[i]]))
    }

    static function InsertAt(cs: seq<CmdId>, p: nat, c: CmdId): (r: seq<CmdId>)
      requires p <= |cs|
      ensures Elems(r) == Elems(cs) + {c} && |r| == |cs| + 1
    {
      assert cs == cs[..p] + cs[p..];
      cs[..p] + [c] + cs[p..]
    }

    method InsertSorted(cs: seq<CmdId>, c: CmdId) returns (r: seq<CmdId>)
      requires Sorted(commands, cs) && c in commands && commands[c].doneAt.Some?
      ensures Sorted(commands, r) && Elems(r) == Elems(cs) + {c} && |r| == |cs| + 1
    {
      var p := 0;
      while p < |cs| && !Before(commands[c], commands[cs[p]])
        invariant p <= |cs|
        invariant forall q :: 0 <= q < p ==> !Before(commands[c], commands[cs[q]])
      {
        p := p + 1;
      }
      r := InsertAt(cs, p, c);
    }

    /** Python's stable `done.sort(key=done_at)`. */
    method OldestFirst(cs: set<CmdId>) returns (sorted: seq<CmdId>)
      requires forall c :: c in cs ==> c in commands && commands[c].doneAt.Some?
      ensures Elems(sorted) == cs && |sorted| == |cs| && Sorted(commands, sorted)
    {
      sorted := [];
      var rest := cs;
      while rest != {}
        invariant rest <= cs
        invariant Elems(sorted) == cs - rest
        invariant |sorted| + |rest| == |cs|
        invariant Sorted(commands, sorted)
        decreases rest
      {
        var c :| c in rest;
        sorted := InsertSorted(sorted, c);
        rest := rest - {c};
      }
    }

    static lemma PrefixIsOldest(commands: map<CmdId, Rec>, sorted: seq<CmdId>, k: nat)
      requires Sorted(commands, sorted) && |Elems(sorted)| == |sorted|
      ensures Oldest(commands, Elems(sorted), k, Elems(sorted[..Min(k, |sorted|)]))
    {
      var n := Min(k, |sorted|);
      var cands, victims := Elems(sorted), Elems(sorted[..n]);
      Distinct(sorted, n);
      assert forall i :: 0 <= i < n ==> sorted[..n][i] == sorted[i];
      assert forall i :: 0 <= i < n ==> sorted[i] in victims;
      forall v, d | v in victims && d in cands && d !in victims
        ensures !Before(commands[d], commands[v])
      {
        var i :| 0 <= i < n && sorted[i] == v;
        var j :| 0 <= j < |sorted| && sorted[j] == d;
        assert i < j;
      }
    }

    static lemma Distinct<T>(s: seq<T>, n: nat)
      requires |Elems(s)| == |s| && n <= |s|
      ensures |Elems(s[..n])| == n
    {
      AtMostLength(s[..n]);
      AtMostLength(s[n..]);
      assert s == s[..n] + s[n..];
      var a, b := Elems(s[..n]), Elems(s[n..]);
      assert Elems(s) == a + b;
      assert |a + b| == |a| + |b| - |a * b|;
    }

    static lemma {:induction false} AtMostLength<T>(s: seq<T>)
      ensures |Elems(s)| <= |s|
    {
      if s != [] {
        AtMostLength(s[1..]);
        assert s == [s[0]] + s[1..];
        assert Elems(s) == {s[0]} + Elems(s[1..]);
      }
    }

    method DropFirst(sorted: seq<CmdId>, n: nat)
      requires n <= |sorted|
      modifies this`commands
      ensures commands == old(commands) - Elems(sorted[..n])
    {
      for i := 0 to n
        invariant commands == old(commands) - Elems(sorted[..i])
      {
        assert sorted[..i + 1] == sorted[..i] + [sorted[i]];
        commands := commands - {sorted[i]};
      }
    }

    static lemma VictimsAre(all: map<CmdId, Rec>, live: set<CmdId>, victims: set<CmdId>)
      requires DistinctOrders(all) && IsEvicted(all, live, victims)
      ensures victims == Victims(all, live)
    {
      OldestUnique(all, Evictable(all, live), Excess(all), victims, Victims(all, live));
    }

    method EvictLocked()
      requires Valid()
      modifies this`commands
      ensures Valid() && View() == Evict(old(View()))
    {
      var sorted := OldestFirst(Evictable(commands, running.Values));
      var n := Min(Excess(commands), |sorted|);
      PrefixIsOldest(commands, sorted, Excess(commands));
      VictimsAre(commands, running.Values, Elems(sorted[..n]));
      DropFirst(sorted, n);
    }

    method InsertLocked(s: Session, c: CmdId, ticket: Option<Ticket>)
      requires Valid() && c !in commands
      modifies this`commands, this`tickets, this`counter
      ensures Valid() && View() == Evict(Inserted(old(View()), s, c, ticket))
    {
      ghost var b := Inserted(View(), s, c, ticket);
      counter := counter + 1;
      commands := commands[c := Rec(s, Accepted, None, None, None, counter)];
      if ticket.Some? {
        tickets := tickets[c := ticket.value];
      }
      assert View() == b && Valid();
      EvictLocked();
    }

    method DoneIfAny(ticket: Option<Ticket>)
      modifies admission
      ensures View() == Discard(old(View()), ticket)
    {
      if ticket.Some? {
        admission.Done(ticket.value);
      }
    }

    /** The locked section of `submit`; the cmd_id is fresh. */
    method SubmitLocked(s: Session, c: CmdId, ticket: Option<Ticket>) returns (r: SubmitResult)
      requires Valid() && c !in commands
      modifies this, admission
      ensures Valid() && (View(), r) == Submitting(old(View()), s, c, ticket)
    {
      if s !in queues {
        DoneIfAny(ticket);
        return NotReady;
      }
      var pending := CountPending(s);
      if pending >= PENDING_MAX {
        DoneIfAny(ticket);
        return QueueFull(pending);
      }
      InsertLocked(s, c, ticket);
      r := Enqueue(queues[s], counter);
    }

    method Cancel(c: CmdId, now: int) returns (r: CancelResult)
      requires Valid()
      modifies this, admission
      ensures Valid() && (View(), r) == Cancelling(old(View()), c, now)
    {
      if c !in commands {
        return NotFound;
      }
      if commands[c].status in {Done, Error} {
        return NotCancelable;
      }
      var wasAccepted := commands[c].status == Accepted;
      ghost var a := View();
      commands := commands[c := commands[c].(status := Canceled, doneAt := Some(now))];
      if wasAccepted {
        FinishAdmission(c);
      } else {
        NothingToRelease(View());
      }
      EvictLocked();
      r := CancelOk(if onCancel.Some? then onCancel else if c in callbacks then Some(callbacks[c]) else None);
    }

    /** The worker looks again, under the lock, at the command it has dequeued. */
    method StartLocked(s: Session, c: CmdId, now: int) returns (go: bool)
      requires Valid()
      modifies this, admission
      ensures Valid() && (View(), go) == Starting(old(View()), s, c, now)
    {
      if c !in commands {
        FinishAdmission(c);
        return false;
      }
      if commands[c].status == Canceled || commands[c].doneAt.Some? {
        FinishAdmission(c);
        return false;
      }
      commands := commands[c := commands[c].(status := Running, startedAt := Some(now))];
      running := running[s := c];
      return true;
    }

    method CloseSend(s: Session, c: CmdId)
      requires Valid()
      modifies this, admission
      ensures Valid() && View() == Release(Evict(ClearRunning(old(View()), s, c)), {c})
    {
      if s in running && running[s] == c {
        running := running - {s};
      }
      EvictLocked();
      FinishAdmission(c);
    }

    method FailLocked(s: Session, c: CmdId, now: int)
      requires Valid()
      modifies this, admission
      ensures Valid() && View() == Failing(old(View()), s, c, now)
    {
      if c in commands {
        commands := commands[c := commands[c].(status := Error, errorCode := Some("SEND_FAILED"), doneAt := Some(now))];
      }
      CloseSend(s, c);
    }

    method ReturnLocked(s: Session, c: CmdId, result: SendResult, now: int)
      requires Valid()
      modifies this, admission
      ensures Valid() && View() == Returning(old(View()), s, c, result, now)
    {
      if c in commands && commands[c].status != Canceled {
        var rec := commands[c];
        if result.Dict? {
          if !result.ok {
            var code := if result.errorCode.None? || result.errorCode.value == "" then "COMMAND_FAILED" else result.errorCode.value;
            rec := rec.(status := Error, errorCode := Some(code));
          } else if result.interactive {
            rec := rec.(status := Interactive);
          } else {
            rec := rec.(status := Done);
          }
        } else {
          rec := rec.(status := Done);
        }
        commands := commands[c := rec.(doneAt := Some(now))];
      }
      CloseSend(s, c);
    }

    /** `register_current_cancel_callback`, called from a worker thread whose context is `context`. */
    method AddCallback(context: Option<CmdId>, c: CmdId, cb: Callback) returns (r: RegisterResult)
      modifies this`callbacks
      ensures (View(), r) == AddingCallback(old(View()), context, c, cb)
    {
      if context != Some(c) || c !in commands {
        return Refused;
      }
      if commands[c].status == Canceled || commands[c].doneAt.Some? {
        return if commands[c].status == Canceled then CallNow else TooLate;
      }
      callbacks := callbacks[c := cb];
      return Stored;
    }

    method DropCallback(context: Option<CmdId>, c: CmdId)
      modifies this`callbacks
      ensures View() == DroppingCallback(old(View()), context, c)
    {
      if context == Some(c) {
        callbacks := callbacks - {c};
      }
    }
  }
}
