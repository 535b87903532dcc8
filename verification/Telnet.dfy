/**
 The Telnet client codec (realhw/telnet_client.py): an incremental byte machine that strips
 commands (RFC 854, "TELNET COMMAND STRUCTURE") and answers each option request once.
 */
module Telnet {
  import opened Wrappers
  import opened Bytes

  const IAC: byte := 255
  const DONT: byte := 254
  const DO: byte := 253
  const WONT: byte := 252
  const WILL: byte := 251
  const SB: byte := 250
  const SE: byte := 240
  const ACCEPTED_WILL: set<byte> := {0, 1, 3}

  datatype State = Data | Iac | InOption | Subnegotiation | SubnegotiationIac

  datatype Codec = Codec(state: State, command: Option<byte>, replied: set<(byte, byte)>)

  datatype Result = Result(codec: Codec, payload: bytes, replies: bytes)

  const INITIAL := Codec(Data, None, {})

  /** Application data with every IAC doubled. */
  function Encode(data: bytes): bytes {
    if data == [] then []
    else EncodeByte(data[0]) + Encode(data[1..])
  }

  function EncodeByte(b: byte): bytes {
    if b == IAC then [IAC, IAC] else [b]
  }

  /** The answer to an option request, if the request calls for one. */
  function Answer(command: Option<byte>, option: byte): Option<(byte, byte)> {
    if command == Some(WILL) then Some((if option in ACCEPTED_WILL then DO else DONT, option))
    else if command == Some(DO) then Some((if option == 3 then WILL else WONT, option))
    else None
  }

  function Step(c: Codec, b: byte): Result {
    match c.state
    case Data =>
      if b == IAC then Result(c.(state := Iac), [], []) else Result(c, [b], [])
    case Iac =>
      if b == IAC then Result(c.(state := Data), [IAC], [])
      else if b in {WILL, WONT, DO, DONT} then Result(c.(state := InOption, command := Some(b)), [], [])
      else if b == SB then Result(c.(state := Subnegotiation), [], [])
      else Result(c.(state := Data), [], [])
    case InOption =>
      var a := Answer(c.command, b);
      var c1 := c.(state := Data, command := None);
      if a.None? || a.value in c.replied then Result(c1, [], [])
      else Result(c1.(replied := c.replied + {a.value}), [], [IAC, a.value.0, a.value.1])
    case Subnegotiation =>
      Result(if b == IAC then c.(state := SubnegotiationIac) else c, [], [])
    case SubnegotiationIac =>
      Result(c.(state := if b == SE then Data else Subnegotiation), [], [])
  }

  /** What feeding `data` to the codec does. */
  function Fed(c: Codec, data: bytes): Result {
    if data == [] then Result(c, [], [])
    else
      var r := Fed(c, data[..|data| - 1]);
      var s := Step(r.codec, data[|data| - 1]);
      Result(s.codec, r.payload + s.payload, r.replies + s.replies)
  }

  class TelnetClientCodec {
    var state: State
    var command: Option<byte>
    var replied: set<(byte, byte)>

    ghost function View(): Codec
      reads this
    {
      Codec(state, command, replied)
    }

    constructor ()
      ensures View() == INITIAL
    {
      state, command, replied := Data, None, {};
    }

    method Feed(data: bytes) returns (payload: bytes, replies: bytes)
      modifies this
      ensures Result(View(), payload, replies) == Fed(old(View()), data)
    {
      payload, replies := [], [];
      for i := 0 to |data|
        invariant Result(View(), payload, replies) == Fed(old(View()), data[..i])
      {
        var b := data[i];
        assert data[..i + 1][..i] == data[..i];
        match state
        case Data =>
          if b == IAC {
            state := Iac;
          } else {
            payload := payload + [b];
          }
        case Iac =>
          if b == IAC {
            payload := payload + [IAC];
            state := Data;
          } else if b in {WILL, WONT, DO, DONT} {
            command := Some(b);
            state := InOption;
          } else if b == SB {
            state := Subnegotiation;
          } else {
            state := Data;
          }
        case InOption =>
          if command == Some(WILL) {
            var reply := if b in ACCEPTED_WILL then DO else DONT;
            if (reply, b) !in replied {
              replies := replies + [IAC, reply, b];
              replied := replied + {(reply, b)};
            }
          } else if command == Some(DO) {
            var reply := if b == 3 then WILL else WONT;
            if (reply, b) !in replied {
              replies := replies + [IAC, reply, b];
              replied := replied + {(reply, b)};
            }
          }
          command := None;
          state := Data;
        case Subnegotiation =>
          if b == IAC {
            state := SubnegotiationIac;
          }
        case SubnegotiationIac =>
          if b == SE {
            state := Data;
          } else {
            state := Subnegotiation;
          }
      }
      assert data[..|data|] == data;
    }
  }

  // ---- pieces ----

  lemma FedOneMore(c: Codec, data: bytes, b: byte)
    ensures Fed(c, data + [b]) == Extend(Fed(c, data), b)
  {
    assert (data + [b])[..|data|] == data;
  }

  function Extend(r: Result, b: byte): Result {
    var s := Step(r.codec, b);
    Result(s.codec, r.payload + s.payload, r.replies + s.replies)
  }

  lemma ExtendAfter(p: Result, q: Result, b: byte)
    ensures Extend(Result(q.codec, p.payload + q.payload, p.replies + q.replies), b)
         == Result(Extend(q, b).codec, p.payload + Extend(q, b).payload, p.replies + Extend(q, b).replies)
  {
    var s := Step(q.codec, b);
    assert (p.payload + q.payload) + s.payload == p.payload + (q.payload + s.payload);
    assert (p.replies + q.replies) + s.replies == p.replies + (q.replies + s.replies);
  }

  /** However the stream is cut, payload, replies and end state are the same. */
  lemma {:induction false} FedInPieces(c: Codec, a: bytes, b: bytes)
    ensures var r := Fed(c, a);
      var s := Fed(r.codec, b);
      Fed(c, a + b) == Result(s.codec, r.payload + s.payload, r.replies + s.replies)
  {
    if b == [] {
      assert a + b == a;
    } else {
      var front, last := b[..|b| - 1], b[|b| - 1];
      FedInPieces(c, a, front);
      assert b == front + [last] && a + b == (a + front) + [last];
      FedOneMore(c, a + front, last);
      FedOneMore(Fed(c, a).codec, front, last);
      ExtendAfter(Fed(c, a), Fed(Fed(c, a).codec, front), last);
    }
  }

  // ---- decoding ----

  /** What a Telnet stream is made of: data, option requests, plain commands, subnegotiations. */
  datatype Token =
    | Run(data: bytes)
    | Request(command: byte, option: byte)
    | Plain(command: byte)
    | Sub(body: bytes)

  predicate WellFormed(t: Token) {
    match t
    case Run(_) => true
    case Request(command, _) => command in {WILL, WONT, DO, DONT}
    case Plain(command) => command !in {IAC, WILL, WONT, DO, DONT, SB}
    case Sub(_) => true
  }

  function Print(t: Token): bytes {
    match t
    case Run(data) => Encode(data)
    case Request(command, option) => [IAC, command, option]
    case Plain(command) => [IAC, command]
    case Sub(body) => [IAC, SB] + Encode(body) + [IAC, SE]
  }

  function PrintAll(ts: seq<Token>): bytes {
    if ts == [] then [] else Print(ts[0]) + PrintAll(ts[1..])
  }

  function DataOf(ts: seq<Token>): bytes {
    if ts == [] then [] else (if ts[0].Run? then ts[0].data else []) + DataOf(ts[1..])
  }

  /** The answers the requests in `ts` call for, in order, repeats included. */
  function AnswersOf(ts: seq<Token>): seq<(byte, byte)> {
    if ts == [] then []
    else
      var a := if ts[0].Request? then Answer(Some(ts[0].command), ts[0].option) else None;
      (if a.Some? then [a.value] else []) + AnswersOf(ts[1..])
  }

  /** The first occurrences among `answers` of those not in `known`, as reply bytes. */
  function FirstReplies(answers: seq<(byte, byte)>, known: set<(byte, byte)>): bytes {
    if answers == [] then []
    else if answers[0] in known then FirstReplies(answers[1..], known)
    else [IAC, answers[0].0, answers[0].1] + FirstReplies(answers[1..], known + {answers[0]})
  }

  lemma FedOne(c: Codec, b: byte)
    ensures Fed(c, [b]) == Step(c, b)
  {
    var r := Fed(c, []);
    assert [b][..0] == [];
    var s := Step(r.codec, b);
    assert Fed(c, [b]) == Result(s.codec, [] + s.payload, [] + s.replies);
  }

  lemma FedTwo(c: Codec, a: byte, b: byte)
    ensures var r := Step(c, a);
      var s := Step(r.codec, b);
      Fed(c, [a, b]) == Result(s.codec, r.payload + s.payload, r.replies + s.replies)
  {
    assert [a] + [b] == [a, b];
    FedInPieces(c, [a], [b]);
    FedOne(c, a);
    FedOne(Step(c, a).codec, b);
  }

  lemma FedByte(c: Codec, b: byte)
    ensures c.state.Data? ==> Fed(c, EncodeByte(b)) == Result(c, [b], [])
    ensures c.state.Subnegotiation? ==> Fed(c, EncodeByte(b)) == Result(c, [], [])
  {
    if b == IAC {
      FedTwo(c, IAC, IAC);
    } else {
      FedOne(c, b);
    }
  }

  lemma FedBoth(c: Codec, a: bytes, b: bytes, x: bytes, y: bytes)
    requires Fed(c, a) == Result(c, x, []) && Fed(c, b) == Result(c, y, [])
    ensures Fed(c, a + b) == Result(c, x + y, [])
  {
    FedInPieces(c, a, b);
  }

  lemma {:induction false} FedData(c: Codec, data: bytes)
    requires c.state.Data?
    ensures Fed(c, Encode(data)) == Result(c, data, [])
  {
    if data != [] {
      FedByte(c, data[0]);
      FedData(c, data[1..]);
      FedBoth(c, EncodeByte(data[0]), Encode(data[1..]), [data[0]], data[1..]);
      assert [data[0]] + data[1..] == data;
    }
  }

  lemma {:induction false} FedSubBody(c: Codec, body: bytes)
    requires c.state.Subnegotiation?
    ensures Fed(c, Encode(body)) == Result(c, [], [])
  {
    if body != [] {
      FedInPieces(c, EncodeByte(body[0]), Encode(body[1..]));
      FedByte(c, body[0]);
      FedSubBody(c, body[1..]);
    }
  }

  lemma FedSub(c: Codec, body: bytes)
    requires c.state.Data?
    ensures Fed(c, Print(Sub(body))) == Result(c, [], [])
  {
    var c1 := c.(state := Subnegotiation);
    FedTwo(c, IAC, SB);
    FedSubBody(c1, body);
    FedTwo(c1, IAC, SE);
    FedInPieces(c, [IAC, SB], Encode(body));
    FedInPieces(c, [IAC, SB] + Encode(body), [IAC, SE]);
  }

  lemma FedRequest(c: Codec, command: byte, option: byte)
    requires c.state.Data? && c.command.None? && command in {WILL, WONT, DO, DONT}
    ensures var a := Answer(Some(command), option);
      Fed(c, [IAC, command, option]) ==
        if a.None? || a.value in c.replied then Result(c, [], [])
        else Result(c.(replied := c.replied + {a.value}), [], [IAC, a.value.0, a.value.1])
  {
    FedTwo(c, IAC, command);
    FedOne(c.(state := InOption, command := Some(command)), option);
    FedInPieces(c, [IAC, command], [option]);
    assert [IAC, command] + [option] == [IAC, command, option];
  }

  /** Between tokens the codec is back in the data state with no command pending. */
  ghost predicate AtRest(c: Codec) {
    c.state.Data? && c.command.None?
  }

  /**
   A stream of data runs and complete commands decodes to exactly the data, and is answered by
   exactly the first occurrence of each answer it calls for.
   */
  lemma {:induction false} Decodes(c: Codec, ts: seq<Token>)
    requires AtRest(c) && forall t :: t in ts ==> WellFormed(t)
    ensures var r := Fed(c, PrintAll(ts));
      && r.payload == DataOf(ts)
      && r.replies == FirstReplies(AnswersOf(ts), c.replied)
      && AtRest(r.codec)
    decreases |ts|
  {
    if ts != [] {
      var t := ts[0];
      assert WellFormed(t);
      FedInPieces(c, Print(t), PrintAll(ts[1..]));
      match t {
        case Run(data) => FedData(c, data);
        case Request(command, option) => FedRequest(c, command, option);
        case Plain(command) => FedTwo(c, IAC, command);
        case Sub(body) => FedSub(c, body);
      }
      var c1 := Fed(c, Print(t)).codec;
      Decodes(c1, ts[1..]);
      var a := if t.Request? then Answer(Some(t.command), t.option) else None;
      if a.Some? {
        assert AnswersOf(ts)[1..] == AnswersOf(ts[1..]);
      } else {
        assert AnswersOf(ts) == AnswersOf(ts[1..]);
      }
    }
  }

  /** `feed(encode(d))` gives back `d`. */
  lemma EncodeRoundTrip(c: Codec, data: bytes)
    requires c.state.Data?
    ensures Fed(c, Encode(data)).payload == data && Fed(c, Encode(data)).codec == c
  {
    FedData(c, data);
  }

  // ---- negotiation falls silent ----

  /** Every answer to a request about an option below `n`. */
  function AnswersBelow(n: nat): set<(byte, byte)>
    requires n <= 256
  {
    if n == 0 then {}
    else AnswersBelow(n - 1) + {Answer(Some(WILL), n - 1).value, Answer(Some(DO), n - 1).value}
  }

  lemma {:induction false} AnswersBelowSize(n: nat)
    requires n <= 256
    ensures |AnswersBelow(n)| <= 2 * n
  {
    if n > 0 {
      AnswersBelowSize(n - 1);
    }
  }

  lemma {:induction false} AnswerIsBelow(n: nat, command: Option<byte>, option: byte)
    requires option < n <= 256
    ensures Answer(command, option).Some? ==> Answer(command, option).value in AnswersBelow(n)
  {
    if option < n - 1 {
      AnswerIsBelow(n - 1, command, option);
    }
  }

  ghost predicate CodecInv(c: Codec) {
    c.replied <= AnswersBelow(256)
  }

  /** The requests still unanswered. */
  ghost function Unreplied(c: Codec): nat
    requires CodecInv(c)
  {
    SubsetSize(c.replied, AnswersBelow(256));
    AnswersBelowSize(256);
    512 - |c.replied|
  }

  lemma ReplyGrows(c: Codec, b: byte, all: set<(byte, byte)>)
    requires c.replied <= all && (Answer(c.command, b).Some? ==> Answer(c.command, b).value in all)
    ensures var s := Step(c, b);
      s.codec.replied <= all && |s.replies| == 3 * (|s.codec.replied| - |c.replied|)
  {
  }

  lemma ReplyUsesUp(c: Codec, b: byte)
    requires CodecInv(c)
    ensures var s := Step(c, b);
      CodecInv(s.codec) && |s.replies| == 3 * (Unreplied(c) - Unreplied(s.codec))
  {
    AnswerIsBelow(256, c.command, b);
    ReplyGrows(c, b, AnswersBelow(256));
  }

  /** Each reply uses up one unanswered request, whatever the codec is fed. */
  lemma {:induction false} RepliesUseUp(c: Codec, data: bytes)
    requires CodecInv(c)
    ensures var r := Fed(c, data);
      CodecInv(r.codec) && |r.replies| == 3 * (Unreplied(c) - Unreplied(r.codec))
  {
    if data != [] {
      var front := data[..|data| - 1];
      RepliesUseUp(c, front);
      ReplyUsesUp(Fed(c, front).codec, data[|data| - 1]);
    }
  }

  /** Over its whole life a codec emits at most 512 replies. */
  lemma AtMost512Replies(data: bytes)
    ensures |Fed(INITIAL, data).replies| <= 3 * 512
  {
    RepliesUseUp(INITIAL, data);
  }

  /** Two codecs back to back: each one's replies travel to the other. */
  datatype Wire = Wire(a: Codec, b: Codec, toA: bytes, toB: bytes)

  /** One end reads the next `n` bytes that have arrived. */
  datatype Delivery = ToA(n: nat) | ToB(n: nat)

  predicate CanDeliver(w: Wire, d: Delivery) {
    0 < d.n <= if d.ToA? then |w.toA| else |w.toB|
  }

  function Deliver(w: Wire, d: Delivery): Wire
    requires CanDeliver(w, d)
  {
    if d.ToA? then
      var r := Fed(w.a, w.toA[..d.n]);
      w.(a := r.codec, toA := w.toA[d.n..], toB := w.toB + r.replies)
    else
      var r := Fed(w.b, w.toB[..d.n]);
      w.(b := r.codec, toB := w.toB[d.n..], toA := w.toA + r.replies)
  }

  ghost predicate WireInv(w: Wire) {
    CodecInv(w.a) && CodecInv(w.b)
  }

  ghost function Traffic(w: Wire): nat
    requires WireInv(w)
  {
    |w.toA| + |w.toB| + 4 * (Unreplied(w.a) + Unreplied(w.b))
  }

  lemma DeliveryCosts(w: Wire, d: Delivery)
    requires WireInv(w) && CanDeliver(w, d)
    ensures WireInv(Deliver(w, d)) && Traffic(Deliver(w, d)) + d.n <= Traffic(w)
  {
    if d.ToA? {
      RepliesUseUp(w.a, w.toA[..d.n]);
    } else {
      RepliesUseUp(w.b, w.toB[..d.n]);
    }
  }

  ghost predicate CanDeliverAll(w: Wire, ds: seq<Delivery>)
    decreases |ds|
  {
    ds == [] || (CanDeliver(w, ds[0]) && CanDeliverAll(Deliver(w, ds[0]), ds[1..]))
  }

  /** Wired back to back, codecs fall silent: only so many deliveries can ever follow. */
  lemma {:induction false} WireFallsSilent(w: Wire, ds: seq<Delivery>)
    requires WireInv(w) && CanDeliverAll(w, ds)
    ensures |ds| <= Traffic(w) <= |w.toA| + |w.toB| + 4096
    decreases |ds|
  {
    if ds != [] {
      DeliveryCosts(w, ds[0]);
      WireFallsSilent(Deliver(w, ds[0]), ds[1..]);
    }
  }
}
