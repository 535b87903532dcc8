/**
 Whole histories of calls on one admission gate: who may undo a freeze, and when a gate
 refuses to freeze. Each call is one step, as all calls share the gate's leaf lock.
 */
module GateHistory {
  import opened Wrappers
  import opened Admission

  datatype GateOp =
    | Admit(kind: string, com: Option<string>)
    | Done(ticket: Ticket)
    | SetFlag(port: string, flag: Flag, on: bool)
    | Freeze(uuid: string)
    | Thaw(token: string)
    | FreezeIfIdle(uuid: string)

  ghost function Apply(g: GateState, op: GateOp): GateState {
    match op
    case Admit(kind, com) => Admitting(g, kind, com).0
    case Done(t) => Completing(g, t)
    case SetFlag(port, flag, on) => Flagging(g, port, flag, on)
    case Freeze(uuid) => Freezing(g, uuid)
    case Thaw(token) => Thawing(g, token).0
    case FreezeIfIdle(uuid) => FreezingIfIdle(g, uuid).0
  }

  /** The gate before call `i` of the history. */
  ghost function At(ops: seq<GateOp>, i: nat): GateState
    requires i <= |ops|
  {
    if i == 0 then INITIAL else Apply(At(ops, i - 1), ops[i - 1])
  }

  lemma ApplyKeeps(g: GateState, op: GateOp)
    requires GateInv(g)
    ensures GateInv(Apply(g, op))
  {
  }

  lemma {:induction false} GateInvAlways(ops: seq<GateOp>, i: nat)
    requires i <= |ops|
    ensures GateInv(At(ops, i))
  {
    if i > 0 {
      GateInvAlways(ops, i - 1);
      ApplyKeeps(At(ops, i - 1), ops[i - 1]);
    }
  }

  /** Call `i` is a `freeze_if_idle` that itself froze the gate under the token `t`. */
  ghost predicate Creates(ops: seq<GateOp>, i: nat, t: string) {
    i < |ops| && ops[i] == FreezeIfIdle(t) && !At(ops, i).frozen && At(ops, i + 1).frozen
  }

  /** Calls that end the creator's right to thaw: any later freeze, or the thaw itself. */
  predicate Supersedes(op: GateOp, t: string) {
    op.Freeze? || op.FreezeIfIdle? || op == Thaw(t)
  }

  ghost predicate CreatedAt(ops: seq<GateOp>, j: nat, t: string, i: nat) {
    && i < j <= |ops|
    && Creates(ops, i, t)
    && (forall k :: i < k < j ==> !Supersedes(ops[k], t))
  }

  ghost predicate Owns(ops: seq<GateOp>, j: nat, t: string) {
    exists i :: CreatedAt(ops, j, t, i)
  }

  lemma {:induction false} IdleTokenIsOwner(ops: seq<GateOp>, j: nat, t: string)
    requires j <= |ops|
    ensures At(ops, j).idleToken == Some(t) <==> Owns(ops, j, t)
  {
    if j > 0 {
      var op := ops[j - 1];
      IdleTokenIsOwner(ops, j - 1, t);
      GateInvAlways(ops, j - 1);
      if At(ops, j).idleToken == Some(t) {
        if At(ops, j - 1).idleToken == Some(t) {
          var i :| CreatedAt(ops, j - 1, t, i);
          assert CreatedAt(ops, j, t, i);
        } else {
          assert CreatedAt(ops, j, t, j - 1);
        }
      }
      if i: nat :| CreatedAt(ops, j, t, i) {
        assert i < j - 1 ==> CreatedAt(ops, j - 1, t, i);
      }
    }
  }

  /**
   `thaw(t)` succeeds exactly when `t` is the token of the `freeze_if_idle` that created the
   freeze and neither a `freeze`, another `freeze_if_idle` nor that thaw came in between.
   */
  lemma ThawOnlyByOwner(ops: seq<GateOp>, j: nat, t: string)
    requires j < |ops| && ops[j] == Thaw(t)
    ensures Thawing(At(ops, j), t).1 <==> Owns(ops, j, t)
  {
    IdleTokenIsOwner(ops, j, t);
    GateInvAlways(ops, j);
  }

  /** A frozen gate opens only through its owner's thaw. */
  lemma UnfreezeOnlyByOwner(ops: seq<GateOp>, j: nat)
    requires j < |ops| && At(ops, j).frozen && !At(ops, j + 1).frozen
    ensures ops[j].Thaw? && Owns(ops, j, ops[j].token)
  {
    GateInvAlways(ops, j);
    IdleTokenIsOwner(ops, j, ops[j].token);
  }

  /** After any `freeze()` the gate is frozen for the rest of its life. */
  lemma {:induction false} FreezeIsForever(ops: seq<GateOp>, i: nat, j: nat)
    requires i < j <= |ops| && ops[i].Freeze?
    ensures At(ops, j).frozen && At(ops, j).idleToken.None?
  {
    if i < j - 1 {
      FreezeIsForever(ops, i, j - 1);
    }
  }

  ghost predicate AdmittedAt(ops: seq<GateOp>, i: nat, n: nat) {
    i < |ops| && ops[i].Admit? && !At(ops, i).frozen && At(ops, i).nextSeq + 1 == n
  }

  /** Ticket `n` was handed out at call `i` and not completed before call `j`. */
  ghost predicate HeldSince(ops: seq<GateOp>, j: nat, n: nat, i: nat) {
    && i < j <= |ops|
    && AdmittedAt(ops, i, n)
    && (forall k :: i < k < j ==> !(ops[k].Done? && ops[k].ticket.seqNo == n))
  }

  ghost predicate TicketOutstanding(ops: seq<GateOp>, j: nat, n: nat) {
    exists i :: HeldSince(ops, j, n, i)
  }

  lemma {:induction false} TicketsAreOutstanding(ops: seq<GateOp>, j: nat, n: nat)
    requires j <= |ops|
    ensures n in At(ops, j).tickets <==> TicketOutstanding(ops, j, n)
  {
    if j > 0 {
      TicketsAreOutstanding(ops, j - 1, n);
      if n in At(ops, j).tickets {
        if n in At(ops, j - 1).tickets {
          var i :| HeldSince(ops, j - 1, n, i);
          assert HeldSince(ops, j, n, i);
        } else {
          assert HeldSince(ops, j, n, j - 1);
        }
      }
      if i: nat :| HeldSince(ops, j, n, i) {
        assert i < j - 1 ==> HeldSince(ops, j - 1, n, i);
      }
    }
  }

  /** The flag was switched on at call `i` and not off again before call `j`. */
  ghost predicate OnSince(ops: seq<GateOp>, j: nat, port: string, flag: Flag, i: nat) {
    && i < j <= |ops|
    && ops[i] == SetFlag(port, flag, true)
    && (forall k :: i < k < j ==> ops[k] != SetFlag(port, flag, false))
  }

  ghost predicate FlagOutstanding(ops: seq<GateOp>, j: nat, port: string, flag: Flag) {
    exists i :: OnSince(ops, j, port, flag, i)
  }

  lemma {:induction false} FlagsAreOutstanding(ops: seq<GateOp>, j: nat, port: string, flag: Flag)
    requires j <= |ops|
    ensures flag in FlagsOf(At(ops, j), port) <==> FlagOutstanding(ops, j, port, flag)
  {
    if j > 0 {
      FlagsAreOutstanding(ops, j - 1, port, flag);
      if flag in FlagsOf(At(ops, j), port) {
        if flag in FlagsOf(At(ops, j - 1), port) {
          var i :| OnSince(ops, j - 1, port, flag, i);
          assert OnSince(ops, j, port, flag, i);
        } else {
          assert OnSince(ops, j, port, flag, j - 1);
        }
      }
      if i: nat :| OnSince(ops, j, port, flag, i) {
        assert i < j - 1 ==> OnSince(ops, j - 1, port, flag, i);
      }
    }
  }

  /** An open gate refuses to freeze exactly when a ticket or a flag is really outstanding. */
  lemma RefusesExactlyWhenBusy(ops: seq<GateOp>, j: nat)
    requires j < |ops| && ops[j].FreezeIfIdle? && !At(ops, j).frozen
    ensures FreezingIfIdle(At(ops, j), ops[j].uuid).1.Busy? <==>
      || (exists n :: TicketOutstanding(ops, j, n))
      || (exists port, flag :: FlagOutstanding(ops, j, port, flag))
  {
    var g := At(ops, j);
    GateInvAlways(ops, j);
    forall n {
      TicketsAreOutstanding(ops, j, n);
    }
    forall port, flag {
      FlagsAreOutstanding(ops, j, port, flag);
    }
    if n :| n in g.tickets {
      assert TicketOutstanding(ops, j, n);
    } else if port :| port in g.flags {
      var flag :| flag in g.flags[port];
      assert FlagOutstanding(ops, j, port, flag);
    }
  }
}
