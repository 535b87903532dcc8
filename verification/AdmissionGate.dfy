/**
 The admission gate (sw_core/admission.py).

 `GateState` and the functions on it say what each gate operation does; the class
 `AdmissionGate` performs them on fields.
 */
module Admission {
  import opened Wrappers
  import Text

  datatype Ticket = Ticket(kind: string, com: Option<string>, seqNo: nat)

  datatype Flag = Flashing | Recovering | Lease

  /** One row of the busy report: the operations and flags that keep a COM port busy. */
  datatype Row = Row(ops: set<string>, flags: set<Flag>)

  datatype FreezeResult =
    | Frozen(token: Option<string>)
    | Busy(byCom: map<string, Row>, flashing: bool)

  datatype GateState = GateState(
    tickets: map<nat, Ticket>,
    flags: map<string, set<Flag>>,
    nextSeq: nat,
    frozen: bool,
    token: Option<string>,
    idleToken: Option<string>)

  const INITIAL := GateState(map[], map[], 0, false, None, None)

  function Admitting(g: GateState, kind: string, com: Option<string>): (GateState, Option<Ticket>) {
    if g.frozen then (g, None)
    else
      var t := Ticket(kind, com, g.nextSeq + 1);
      (g.(nextSeq := t.seqNo, tickets := g.tickets[t.seqNo := t]), Some(t))
  }

  function Completing(g: GateState, t: Ticket): GateState {
    g.(tickets := g.tickets - {t.seqNo})
  }

  /** The effect of completing a whole set of tickets. */
  function CompletingAll(g: GateState, seqNos: set<nat>): GateState {
    g.(tickets := g.tickets - seqNos)
  }

  function FlagsOf(g: GateState, com: string): set<Flag> {
    if com in g.flags then g.flags[com] else {}
  }

  function Flagging(g: GateState, com: string, flag: Flag, on: bool): GateState {
    var fs := if on then FlagsOf(g, com) + {flag} else FlagsOf(g, com) - {flag};
    g.(flags := if fs == {} then g.flags - {com} else g.flags[com := fs])
  }

  lemma FlaggingKeeps(g: GateState, com: string, flag: Flag, on: bool)
    ensures GateInv(g) ==> GateInv(Flagging(g, com, flag, on))
  {
  }

  function Freezing(g: GateState, uuid: string): GateState {
    g.(frozen := true, idleToken := None, token := if g.token.None? then Some(uuid) else g.token)
  }

  function Thawing(g: GateState, token: string): (GateState, bool) {
    if !g.frozen || g.token != Some(token) || g.idleToken != Some(token) then (g, false)
    else (g.(frozen := false, token := None, idleToken := None), true)
  }

  /** The port a ticket is reported under; `None` and the empty name both read "*". */
  function ComName(t: Ticket): string {
    if t.com.None? || t.com.value == "" then "*" else t.com.value
  }

  /** What the tickets `seen` report under one port, and the ports they report. */
  ghost function Ops(tickets: map<nat, Ticket>, seen: set<nat>, com: string): set<string>
    requires seen <= tickets.Keys
  {
    set n | n in seen && ComName(tickets[n]) == com :: tickets[n].kind
  }

  ghost function Ports(tickets: map<nat, Ticket>, seen: set<nat>): set<string>
    requires seen <= tickets.Keys
  {
    set n | n in seen :: ComName(tickets[n])
  }

  /** The report after looking at the tickets `seen`, then at the flags of the ports `coms`. */
  ghost function Report(g: GateState, seen: set<nat>, coms: set<string>): map<string, Row>
    requires seen <= g.tickets.Keys && coms <= g.flags.Keys
  {
    map com | com in Ports(g.tickets, seen) + coms ::
      Row(Ops(g.tickets, seen, com), if com in coms then g.flags[com] else {})
  }

  ghost function BusyReport(g: GateState): map<string, Row> {
    Report(g, g.tickets.Keys, g.flags.Keys)
  }

  ghost predicate FlashingSeen(g: GateState, seen: set<nat>, coms: set<string>)
    requires seen <= g.tickets.Keys && coms <= g.flags.Keys
  {
    || (exists com :: com in coms && Flashing in g.flags[com])
    || (exists n :: n in seen && Text.StartsWith(g.tickets[n].kind, "flash."))
  }

  ghost predicate IsFlashing(g: GateState) {
    FlashingSeen(g, g.tickets.Keys, g.flags.Keys)
  }

  function RowAt(byCom: map<string, Row>, com: string): Row {
    if com in byCom then byCom[com] else Row({}, {})
  }

  lemma OpsGrow(tickets: map<nat, Ticket>, seen: set<nat>, n: nat, com: string)
    requires seen <= tickets.Keys && n in tickets
    ensures Ops(tickets, seen + {n}, com) ==
      if ComName(tickets[n]) == com then Ops(tickets, seen, com) + {tickets[n].kind} else Ops(tickets, seen, com)
  {
    var small, big := Ops(tickets, seen, com), Ops(tickets, seen + {n}, com);
    forall k | k in big && !(ComName(tickets[n]) == com && k == tickets[n].kind)
      ensures k in small
    {
      var m :| m in seen + {n} && ComName(tickets[m]) == com && tickets[m].kind == k;
      assert m in seen;
    }
    if ComName(tickets[n]) == com {
      assert n in seen + {n};
      assert tickets[n].kind in big;
    }
    forall k | k in small
      ensures k in big
    {
      var m :| m in seen && ComName(tickets[m]) == com && tickets[m].kind == k;
      assert m in seen + {n};
    }
  }

  lemma PortsGrow(tickets: map<nat, Ticket>, seen: set<nat>, n: nat)
    requires seen <= tickets.Keys && n in tickets
    ensures Ports(tickets, seen + {n}) == Ports(tickets, seen) + {ComName(tickets[n])}
  {
    assert forall m :: m in seen + {n} <==> m in seen || m == n;
  }

  lemma NoPortNoOps(tickets: map<nat, Ticket>, seen: set<nat>, com: string)
    requires seen <= tickets.Keys && com !in Ports(tickets, seen)
    ensures Ops(tickets, seen, com) == {}
  {
  }

  lemma SeeTicket(g: GateState, seen: set<nat>, n: nat)
    requires seen <= g.tickets.Keys && n in g.tickets
    ensures Report(g, seen + {n}, {}) ==
      var r := Report(g, seen, {});
      var com := ComName(g.tickets[n]);
      r[com := RowAt(r, com).(ops := RowAt(r, com).ops + {g.tickets[n].kind})]
  {
    PortsGrow(g.tickets, seen, n);
    var r, r1 := Report(g, seen, {}), Report(g, seen + {n}, {});
    forall com | com in r1
      ensures if com == ComName(g.tickets[n]) then r1[com].ops == Ops(g.tickets, seen, com) + {g.tickets[n].kind}
        else com in r && r1[com] == r[com]
    {
      OpsGrow(g.tickets, seen, n, com);
    }
    if ComName(g.tickets[n]) !in Ports(g.tickets, seen) {
      NoPortNoOps(g.tickets, seen, ComName(g.tickets[n]));
    }
  }

  lemma SeeFlags(g: GateState, coms: set<string>, com: string)
    requires coms <= g.flags.Keys && com in g.flags && com !in coms
    ensures Report(g, g.tickets.Keys, coms + {com}) ==
      var r := Report(g, g.tickets.Keys, coms);
      r[com := RowAt(r, com).(flags := RowAt(r, com).flags + g.flags[com])]
  {
    var r, r1 := Report(g, g.tickets.Keys, coms), Report(g, g.tickets.Keys, coms + {com});
    assert r1.Keys == r.Keys + {com};
    assert {} + g.flags[com] == g.flags[com];
    if com !in Ports(g.tickets, g.tickets.Keys) {
      NoPortNoOps(g.tickets, g.tickets.Keys, com);
    }
  }

  /** The report is empty just for an idle gate. */
  lemma EmptyReport(g: GateState)
    ensures BusyReport(g) == map[] <==> Idle(g)
  {
    if n :| n in g.tickets {
      assert ComName(g.tickets[n]) in BusyReport(g);
    } else if com :| com in g.flags {
      assert com in BusyReport(g);
    }
  }

  predicate Idle(g: GateState) {
    g.tickets == map[] && g.flags == map[]
  }

  ghost function FreezingIfIdle(g: GateState, uuid: string): (GateState, FreezeResult) {
    if g.frozen then (g.(idleToken := None), Frozen(g.token))
    else if !Idle(g) then (g, Busy(BusyReport(g), IsFlashing(g)))
    else (g.(frozen := true, token := Some(uuid), idleToken := Some(uuid)), Frozen(Some(uuid)))
  }

  /** What every gate operation keeps. */
  ghost predicate GateInv(g: GateState) {
    && (forall n :: n in g.tickets ==> g.tickets[n].seqNo == n && 1 <= n <= g.nextSeq)
    && (forall com :: com in g.flags ==> g.flags[com] != {})
    && (!g.frozen ==> g.token.None? && g.idleToken.None?)
    && (g.frozen ==> g.token.Some?)
    && (g.idleToken.Some? ==> g.idleToken == g.token)
  }

  /** The gate object, its fields changed by each call. */
  class AdmissionGate {
    var tickets: map<nat, Ticket>
    var flags: map<string, set<Flag>>
    var nextSeq: nat
    var frozen: bool
    var token: Option<string>
    var idleToken: Option<string>

    ghost function View(): GateState
      reads this
    {
      GateState(tickets, flags, nextSeq, frozen, token, idleToken)
    }

    constructor ()
      ensures View() == INITIAL
    {
      tickets, flags, nextSeq := map[], map[], 0;
      frozen, token, idleToken := false, None, None;
    }

    method Admit(kind: string, com: Option<string>) returns (ticket: Option<Ticket>)
      modifies this
      ensures (View(), ticket) == Admitting(old(View()), kind, com)
      ensures old(GateInv(View())) ==> GateInv(View())
    {
      if frozen {
        return None;
      }
      nextSeq := nextSeq + 1;
      var t := Ticket(kind, com, nextSeq);
      tickets := tickets[t.seqNo := t];
      return Some(t);
    }

    method Done(t: Ticket)
      modifies this`tickets
      ensures View() == Completing(old(View()), t)
      ensures old(GateInv(View())) ==> GateInv(View())
    {
      tickets := tickets - {t.seqNo};
    }

    method SetFlag(com: string, flag: Flag, on: bool)
      modifies this`flags
      ensures View() == Flagging(old(View()), com, flag, on)
      ensures old(GateInv(View())) ==> GateInv(View())
    {
      FlaggingKeeps(View(), com, flag, on);
      ghost var was, fs := flags, if on then FlagsOf(View(), com) + {flag} else FlagsOf(View(), com) - {flag};
      if com !in flags {
        flags := flags[com := {}];
      }
      if on {
        flags := flags[com := flags[com] + {flag}];
      } else {
        flags := flags[com := flags[com] - {flag}];
      }
      assert flags == was[com := fs];
      if flags[com] == {} {
        flags := flags - {com};
        assert flags == was - {com};
      }
    }

    method Freeze(uuid: string)
      modifies this
      ensures View() == Freezing(old(View()), uuid)
      ensures old(GateInv(View())) ==> GateInv(View())
    {
      frozen := true;
      idleToken := None;
      if token == None {
        token := Some(uuid);
      }
    }

    method Thaw(t: string) returns (ok: bool)
      modifies this
      ensures (View(), ok) == Thawing(old(View()), t)
      ensures old(GateInv(View())) ==> GateInv(View())
    {
      if !frozen || token != Some(t) || idleToken != Some(t) {
        return false;
      }
      frozen, token, idleToken := false, None, None;
      return true;
    }

    /** Collects the busy report ticket by ticket, then flag set by flag set. */
    method Survey() returns (byCom: map<string, Row>, flashing: bool)
      ensures byCom == BusyReport(View()) && flashing == IsFlashing(View())
    {
      byCom, flashing := map[], false;
      var seen: set<nat> := {};
      while seen != tickets.Keys
        invariant seen <= tickets.Keys
        invariant byCom == Report(View(), seen, {})
        invariant flashing <==> FlashingSeen(View(), seen, {})
        decreases tickets.Keys - seen
      {
        assert tickets.Keys - seen != {};
        var n :| n in tickets.Keys - seen;
        SeeTicket(View(), seen, n);
        var row := RowAt(byCom, ComName(tickets[n]));
        byCom := byCom[ComName(tickets[n]) := row.(ops := row.ops + {tickets[n].kind})];
        flashing := flashing || Text.StartsWith(tickets[n].kind, "flash.");
        seen := seen + {n};
      }
      var coms: set<string> := {};
      while coms != flags.Keys
        invariant coms <= flags.Keys
        invariant byCom == Report(View(), tickets.Keys, coms)
        invariant flashing <==> FlashingSeen(View(), tickets.Keys, coms)
        decreases flags.Keys - coms
      {
        assert flags.Keys - coms != {};
        var com :| com in flags.Keys - coms;
        SeeFlags(View(), coms, com);
        var row := RowAt(byCom, com);
        byCom := byCom[com := row.(flags := row.flags + flags[com])];
        flashing := flashing || Flashing in flags[com];
        coms := coms + {com};
      }
    }

    method FreezeIfIdle(uuid: string) returns (r: FreezeResult)
      modifies this
      ensures (View(), r) == FreezingIfIdle(old(View()), uuid)
      ensures old(GateInv(View())) ==> GateInv(View())
    {
      if frozen {
        idleToken := None;
        return Frozen(token);
      }
      var byCom, flashing := Survey();
      EmptyReport(View());
      if byCom != map[] {
        return Busy(byCom, flashing);
      }
      frozen, token, idleToken := true, Some(uuid), Some(uuid);
      return Frozen(Some(uuid));
    }
  }
}
