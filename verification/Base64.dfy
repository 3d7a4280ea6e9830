/** Section 4 of RFC 4648 (strict, padded) and the payload guard in front of it. */
module Base64 {
  import opened Options
  import opened Bytes

  const PAD: Byte := 61

  type Sextet = n: int | 0 <= n < 64

  function ToSymbol(v: Sextet): Byte {
    if v < 26 then 65 + v else if v < 52 then 71 + v else if v < 62 then v - 4 else if v == 62 then 43 else 47
  }

  function FromSymbol(b: Byte): (v: Option<Sextet>)
    ensures v.Some? ==> ToSymbol(v.value) == b
  {
    if 65 <= b <= 90 then Some(b - 65)
    else if 97 <= b <= 122 then Some(b - 71)
    else if 48 <= b <= 57 then Some(b + 4)
    else if b == 43 then Some(62) else if b == 47 then Some(63) else None
  }

  predicate IsSymbol(b: Byte) { FromSymbol(b).Some? || b == PAD }

  lemma SymbolRoundTrip(v: Sextet)
    ensures FromSymbol(ToSymbol(v)) == Some(v)
  {
  }

  function Group1(a: Byte): seq<Byte> { [ToSymbol(a / 4), ToSymbol(a % 4 * 16), PAD, PAD] }

  function Group2(a: Byte, b: Byte): seq<Byte> {
    [ToSymbol(a / 4), ToSymbol(a % 4 * 16 + b / 16), ToSymbol(b % 16 * 4), PAD]
  }

  function Group3(a: Byte, b: Byte, c: Byte): seq<Byte> {
    [ToSymbol(a / 4), ToSymbol(a % 4 * 16 + b / 16), ToSymbol(b % 16 * 4 + c / 64), ToSymbol(c % 64)]
  }

  function Encode(s: seq<Byte>): (t: seq<Byte>)
    ensures |t| == (|s| + 2) / 3 * 4
  {
    if s == [] then []
    else if |s| == 1 then Group1(s[0])
    else if |s| == 2 then Group2(s[0], s[1])
    else Group3(s[0], s[1], s[2]) + Encode(s[3..])
  }

  /** The output stays within the alphabet. */
  lemma {:induction false} EncodeIsSymbols(s: seq<Byte>)
    ensures forall i :: 0 <= i < |Encode(s)| ==> IsSymbol(Encode(s)[i])
  {
    if |s| > 2 { EncodeIsSymbols(s[3..]); }
  }

  /** One group of four symbols; a short group is allowed only at the end. */
  function DecodeGroup(a: Byte, b: Byte, c: Byte, d: Byte, last: bool): Option<seq<Byte>> {
    var w, x := FromSymbol(a), FromSymbol(b);
    if w.None? || x.None? then None
    else if c == PAD then
      if last && d == PAD && x.value % 16 == 0 then Some([w.value * 4 + x.value / 16]) else None
    else
      var y := FromSymbol(c);
      if y.None? then None
      else if d == PAD then
        if last && y.value % 4 == 0 then Some([w.value * 4 + x.value / 16, x.value % 16 * 16 + y.value / 4]) else None
      else
        var z := FromSymbol(d);
        if z.None? then None
        else Some([w.value * 4 + x.value / 16, x.value % 16 * 16 + y.value / 4, y.value % 4 * 64 + z.value])
  }

  function Decode(t: seq<Byte>): (s: Option<seq<Byte>>)
    ensures s.Some? ==> |t| % 4 == 0 && |s.value| <= |t| / 4 * 3
  {
    if t == [] then Some([])
    else if |t| < 4 then None
    else
      var head := DecodeGroup(t[0], t[1], t[2], t[3], |t| == 4);
      var tail := Decode(t[4..]);
      if head.None? || tail.None? then None else Some(head.value + tail.value)
  }

  function Group(g: seq<Byte>, last: bool): Option<seq<Byte>>
    requires |g| == 4
  {
    DecodeGroup(g[0], g[1], g[2], g[3], last)
  }

  lemma DecodeStep(g: seq<Byte>, t: seq<Byte>)
    requires |g| == 4
    ensures Decode(g + t) == (if Group(g, t == []).None? || Decode(t).None? then None
                              else Some(Group(g, t == []).value + Decode(t).value))
  {
    assert (g + t)[4..] == t;
  }

  lemma OneDecodes(a: Byte)
    ensures Group(Group1(a), true) == Some([a])
  {
    SymbolRoundTrip(a / 4);
    SymbolRoundTrip(a % 4 * 16);
  }

  lemma TwoDecode(a: Byte, b: Byte)
    ensures Group(Group2(a, b), true) == Some([a, b])
  {
    SymbolRoundTrip(a / 4);
    SymbolRoundTrip(a % 4 * 16 + b / 16);
    SymbolRoundTrip(b % 16 * 4);
  }

  lemma SymbolsDecode(w: Sextet, x: Sextet, y: Sextet, z: Sextet, last: bool)
    ensures DecodeGroup(ToSymbol(w), ToSymbol(x), ToSymbol(y), ToSymbol(z), last)
            == Some([w * 4 + x / 16, x % 16 * 16 + y / 4, y % 4 * 64 + z])
  {
    SymbolRoundTrip(w);
    SymbolRoundTrip(x);
    SymbolRoundTrip(y);
    SymbolRoundTrip(z);
  }

  lemma Unpack(a: Byte, b: Byte, c: Byte)
    ensures a / 4 * 4 + (a % 4 * 16 + b / 16) / 16 == a
    ensures (a % 4 * 16 + b / 16) % 16 * 16 + (b % 16 * 4 + c / 64) / 4 == b
    ensures (b % 16 * 4 + c / 64) % 4 * 64 + c % 64 == c
  {}

  lemma ThreeDecode(a: Byte, b: Byte, c: Byte, last: bool)
    ensures Group(Group3(a, b, c), last) == Some([a, b, c])
  {
    SymbolsDecode(a / 4, a % 4 * 16 + b / 16, b % 16 * 4 + c / 64, c % 64, last);
    Unpack(a, b, c);
  }

  lemma DecodeThree(a: Byte, b: Byte, c: Byte, t: seq<Byte>)
    requires Decode(t).Some?
    ensures Decode(Group3(a, b, c) + t) == Some([a, b, c] + Decode(t).value)
  {
    ThreeDecode(a, b, c, t == []);
    DecodeStep(Group3(a, b, c), t);
  }

  lemma RoundTripOne(a: Byte)
    ensures Decode(Group1(a)) == Some([a])
  {
    OneDecodes(a);
    DecodeStep(Group1(a), []);
    assert Group1(a) + [] == Group1(a) && [a] + [] == [a];
  }

  lemma RoundTripTwo(a: Byte, b: Byte)
    ensures Decode(Group2(a, b)) == Some([a, b])
  {
    TwoDecode(a, b);
    DecodeStep(Group2(a, b), []);
    assert Group2(a, b) + [] == Group2(a, b) && [a, b] + [] == [a, b];
  }

  /** Decoding undoes encoding. */
  lemma {:induction false} RoundTrip(s: seq<Byte>)
    ensures Decode(Encode(s)) == Some(s)
  {
    if s == [] {
    } else if |s| == 1 {
      RoundTripOne(s[0]);
      assert s == [s[0]];
    } else if |s| == 2 {
      RoundTripTwo(s[0], s[1]);
      assert s == [s[0], s[1]];
    } else {
      RoundTrip(s[3..]);
      DecodeThree(s[0], s[1], s[2], Encode(s[3..]));
      assert s == [s[0], s[1], s[2]] + s[3..];
    }
  }

  lemma Packed(w: Sextet, x: Sextet, y: Sextet, z: Sextet)
    ensures var a, b, c := w * 4 + x / 16, x % 16 * 16 + y / 4, y % 4 * 64 + z;
            && 0 <= a < 256 && 0 <= b < 256 && 0 <= c < 256
            && a / 4 == w && a % 4 * 16 + b / 16 == x && b % 16 * 4 + c / 64 == y && c % 64 == z
            && (x % 16 == 0 ==> a % 4 * 16 == x) && (y % 4 == 0 ==> b % 16 * 4 == y)
  {
  }

  /** A group that decodes is the encoding of what it decodes to. */
  lemma GroupCanonical(g: seq<Byte>, last: bool)
    requires |g| == 4 && Group(g, last).Some?
    ensures var v := Group(g, last).value;
            1 <= |v| <= 3 && (|v| < 3 ==> last)
            && g == match |v| case 1 => Group1(v[0]) case 2 => Group2(v[0], v[1]) case _ => Group3(v[0], v[1], v[2])
  {
    var w, x := FromSymbol(g[0]).value, FromSymbol(g[1]).value;
    var y: Sextet := if g[2] == PAD then 0 else FromSymbol(g[2]).value;
    var z: Sextet := if g[3] == PAD then 0 else FromSymbol(g[3]).value;
    Packed(w, x, y, z);
  }

  /** The decoder accepts nothing but encodings. */
  lemma {:induction false} Canonical(t: seq<Byte>)
    requires Decode(t).Some?
    ensures Encode(Decode(t).value) == t
  {
    if t != [] {
      var g, rest := t[..4], t[4..];
      assert t == g + rest;
      DecodeStep(g, rest);
      Canonical(rest);
      GroupCanonical(g, rest == []);
      var head, tail := Group(g, rest == []).value, Decode(rest).value;
      if |head| == 3 {
        assert (head + tail)[3..] == tail;
      } else {
        assert head + tail == head;
        assert t == g;
      }
    }
  }

  // ---------------------------------------------------------------------------
  // The payload guard
  // ---------------------------------------------------------------------------

  const MAX_PAYLOAD_BYTES := 256 * 1024
  const MAX_ENCODED_BYTES := MAX_PAYLOAD_BYTES / 3 * 4 + 4

  datatype Payload = TooLarge | NotBase64 | Bytes(value: seq<Byte>)

  /** `decode_base64`: the size is checked before anything is decoded. */
  function DecodePayload(encoded: seq<Byte>): Payload { Guarded(|encoded|, Decode(encoded)) }

  function Guarded(size: nat, decoded: Option<seq<Byte>>): Payload {
    if size > MAX_ENCODED_BYTES then TooLarge
    else if decoded.None? then NotBase64
    else Bytes(decoded.value)
  }

  /** An encoded byte string comes back whole exactly up to 262146 bytes, two more
      than the advertised limit, and is refused for its size otherwise. */
  lemma {:induction false} PayloadGuard(s: seq<Byte>)
    ensures DecodePayload(Encode(s)) == if |s| <= 262146 then Bytes(s) else TooLarge
  {
    RoundTrip(s);
    GuardOf(|Encode(s)|, s);
  }

  /** Two bytes over the advertised limit still pass. */
  lemma LimitIsExceeded(s: seq<Byte>)
    requires |s| == 256 * 1024 + 2
    ensures DecodePayload(Encode(s)) == Bytes(s)
  {
    PayloadGuard(s);
  }

  lemma GuardOf(size: nat, s: seq<Byte>)
    requires size == (|s| + 2) / 3 * 4
    ensures Guarded(size, Some(s)) == if |s| <= MAX_PAYLOAD_BYTES + 2 then Bytes(s) else TooLarge
  {
    GuardArithmetic(|s|);
  }

  lemma GuardArithmetic(n: nat)
    ensures (n + 2) / 3 * 4 <= MAX_ENCODED_BYTES <==> n <= MAX_PAYLOAD_BYTES + 2
  {
  }

  /** Nothing longer than that is ever returned, whatever was sent. */
  lemma {:induction false} PayloadBound(encoded: seq<Byte>)
    ensures DecodePayload(encoded).Bytes? ==>
              |DecodePayload(encoded).value| <= 262146 && encoded == Encode(DecodePayload(encoded).value)
  {
    if Decode(encoded).Some? {
      var s := Decode(encoded).value;
      assert encoded == Encode(s) by { Canonical(encoded); }
      GuardOf(|encoded|, s);
    }
  }
}
