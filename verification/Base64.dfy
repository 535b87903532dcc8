/** Base64 with padding, as in section 4 of RFC 4648. */
module Base64 {
  import opened Wrappers
  import opened Bytes

  function Sym(v: nat): char
    requires v < 64
  {
    if v < 26 then ('A' as int + v) as char
    else if v < 52 then ('a' as int + (v - 26)) as char
    else if v < 62 then ('0' as int + (v - 52)) as char
    else if v == 62 then '+' else '/'
  }

  predicate IsSym(c: char) {
    'A' <= c <= 'Z' || 'a' <= c <= 'z' || '0' <= c <= '9' || c == '+' || c == '/'
  }

  function Val(c: char): (v: nat)
    requires IsSym(c)
    ensures v < 64
  {
    if 'A' <= c <= 'Z' then c as int - 'A' as int
    else if 'a' <= c <= 'z' then c as int - 'a' as int + 26
    else if '0' <= c <= '9' then c as int - '0' as int + 52
    else if c == '+' then 62 else 63
  }

  lemma SymVal(v: nat)
    requires v < 64
    ensures IsSym(Sym(v)) && Sym(v) != '=' && Val(Sym(v)) == v
  {
  }

  /** The encoding of the last one, two or three bytes, or of three bytes on the way. */
  function EncodeGroup(g: bytes): string
    requires 1 <= |g| <= 3
  {
    if |g| == 1 then [Sym(g[0] / 4), Sym(g[0] % 4 * 16), '=', '=']
    else if |g| == 2 then [Sym(g[0] / 4), Sym(g[0] % 4 * 16 + g[1] / 16), Sym(g[1] % 16 * 4), '=']
    else [Sym(g[0] / 4), Sym(g[0] % 4 * 16 + g[1] / 16), Sym(g[1] % 16 * 4 + g[2] / 64), Sym(g[2] % 64)]
  }

  function Encode(data: bytes): string {
    if data == [] then ""
    else if |data| <= 3 then EncodeGroup(data)
    else EncodeGroup(data[..3]) + Encode(data[3..])
  }

  function DecodeGroup(s: string): Option<bytes>
    requires |s| == 4
  {
    if !IsSym(s[0]) || !IsSym(s[1]) then None
    else
      var a: byte := Val(s[0]) * 4 + Val(s[1]) / 16;
      if s[2] == '=' && s[3] == '=' then Some([a])
      else if !IsSym(s[2]) then None
      else
        var b: byte := Val(s[1]) % 16 * 16 + Val(s[2]) / 4;
        if s[3] == '=' then Some([a, b])
        else if !IsSym(s[3]) then None
        else
          var c: byte := Val(s[2]) % 4 * 64 + Val(s[3]);
          Some([a, b, c])
  }

  /** Padding is accepted only in the last group. */
  function Decode(s: string): Option<bytes> {
    if s == "" then Some([])
    else if |s| < 4 then None
    else
      var g := DecodeGroup(s[..4]);
      if g.None? || (|s| > 4 && |g.value| < 3) then None
      else
        var rest := Decode(s[4..]);
        if rest.None? then None else Some(g.value + rest.value)
  }

  lemma OneRoundTrip(x: byte)
    ensures DecodeGroup(EncodeGroup([x])) == Some([x])
  {
    SymVal(x / 4);
    SymVal(x % 4 * 16);
    assert x / 4 * 4 + x % 4 * 16 / 16 == x;
  }

  lemma TwoRoundTrip(x: byte, y: byte)
    ensures DecodeGroup(EncodeGroup([x, y])) == Some([x, y])
  {
    var v, u := x % 4 * 16 + y / 16, y % 16 * 4;
    SymVal(x / 4);
    SymVal(v);
    SymVal(u);
    assert v / 16 == x % 4 && v % 16 == y / 16 && u / 4 == y % 16;
  }

  /** Splitting three bytes into four six-bit values loses nothing. */
  lemma SixBits(x: byte, y: byte, z: byte)
    ensures var v, u := x % 4 * 16 + y / 16, y % 16 * 4 + z / 64;
      && v < 64 && u < 64
      && x / 4 * 4 + v / 16 == x
      && v % 16 * 16 + u / 4 == y
      && u % 4 * 64 + z % 64 == z
  {
    var v, u := x % 4 * 16 + y / 16, y % 16 * 4 + z / 64;
    assert v / 16 == x % 4 && v % 16 == y / 16;
    assert u / 4 == y % 16 && u % 4 == z / 64;
  }

  lemma ThreeRoundTrip(x: byte, y: byte, z: byte)
    ensures DecodeGroup(EncodeGroup([x, y, z])) == Some([x, y, z])
  {
    var v, u := x % 4 * 16 + y / 16, y % 16 * 4 + z / 64;
    SixBits(x, y, z);
    FourSyms(x / 4, v, u, z % 64);
  }

  lemma FourSyms(p: nat, q: nat, r: nat, t: nat)
    requires p < 64 && q < 64 && r < 64 && t < 64
    ensures DecodeGroup([Sym(p), Sym(q), Sym(r), Sym(t)]) == Some([p * 4 + q / 16, q % 16 * 16 + r / 4, r % 4 * 64 + t])
  {
    SymVal(p);
    SymVal(q);
    SymVal(r);
    SymVal(t);
  }

  lemma GroupRoundTrip(g: bytes)
    requires 1 <= |g| <= 3
    ensures DecodeGroup(EncodeGroup(g)) == Some(g)
  {
    if |g| == 1 {
      OneRoundTrip(g[0]);
      assert g == [g[0]];
    } else if |g| == 2 {
      TwoRoundTrip(g[0], g[1]);
      assert g == [g[0], g[1]];
    } else {
      ThreeRoundTrip(g[0], g[1], g[2]);
      assert g == [g[0], g[1], g[2]];
    }
  }

  /** Decoding undoes encoding, for every byte string. */
  lemma {:induction false} RoundTrip(data: bytes)
    ensures Decode(Encode(data)) == Some(data)
  {
    if data == [] {
    } else if |data| <= 3 {
      GroupRoundTrip(data);
      var s := EncodeGroup(data);
      assert s[..4] == s && s[4..] == "";
      assert data + [] == data;
    } else {
      var g, rest := EncodeGroup(data[..3]), Encode(data[3..]);
      GroupRoundTrip(data[..3]);
      RoundTrip(data[3..]);
      EncodedLength(data[3..]);
      assert (g + rest)[..4] == g && (g + rest)[4..] == rest;
      assert data[..3] + data[3..] == data;
    }
  }

  /** Four symbols for every three bytes begun. */
  lemma {:induction false} EncodedLength(data: bytes)
    ensures |Encode(data)| == (|data| + 2) / 3 * 4
  {
    if |data| > 3 {
      EncodedLength(data[3..]);
      assert (|data| + 2) / 3 == (|data[3..]| + 2) / 3 + 1;
    }
  }

  predicate IsBase64Char(c: char) {
    IsSym(c) || c == '='
  }

  lemma GroupChars(g: bytes)
    requires 1 <= |g| <= 3
    ensures forall c :: c in EncodeGroup(g) ==> IsBase64Char(c)
  {
  }

  lemma {:induction false} EncodedChars(data: bytes)
    ensures forall c :: c in Encode(data) ==> IsBase64Char(c)
  {
    if |data| > 3 {
      GroupChars(data[..3]);
      EncodedChars(data[3..]);
    } else if data != [] {
      GroupChars(data);
    }
  }
}
