/**
 DER encoding as `src/crypto/mod.rs` prints it, against a strict reader written
 from sections 8.1.3, 8.3 and 10.1 of ITU-T X.690.
 */
module Der {
  import opened Options
  import opened Bytes

  const INTEGER: Byte := 0x02
  const BIT_STRING: Byte := 0x03
  const NULL: Byte := 0x05
  const OID: Byte := 0x06
  const UTF8_STRING: Byte := 0x0C
  const PRINTABLE_STRING: Byte := 0x13
  const SEQUENCE: Byte := 0x30
  const SET: Byte := 0x31
  const CONTEXT_0: Byte := 0xA0

  /** The largest content whose length the encoder can write. */
  const MAX_LENGTH := 65535

  // ---------------------------------------------------------------------------
  // Length octets
  // ---------------------------------------------------------------------------

  /** Three forms; the last one keeps only the low sixteen bits. */
  function EncodeLength(len: nat): seq<Byte> {
    if len < 128 then [len]
    else if len < 256 then [0x81, len]
    else [0x82, len / 256 % 256, len % 256]
  }

  datatype Header = Header(len: nat, used: nat)

  /** Definite lengths in the fewest octets; the indefinite and the reserved first
      octet are refused. */
  function ReadLength(s: seq<Byte>): (h: Option<Header>)
    ensures h.Some? ==> 1 <= h.value.used <= |s|
  {
    if s == [] then None
    else if s[0] < 128 then Some(Header(s[0], 1))
    else
      var k := s[0] - 128;
      if k == 0 || k == 127 || |s| < 1 + k then None
      else
        var v := Value(s[1..1 + k]);
        if s[1] == 0 || v < 128 then None else Some(Header(v, 1 + k))
  }

  lemma Value1(s: seq<Byte>)
    requires |s| == 1
    ensures Value(s) == s[0]
  {
    assert s[..0] == [];
  }

  lemma Value2(s: seq<Byte>)
    requires |s| == 2
    ensures Value(s) == s[0] as int * 256 + s[1]
  {
    Value1(s[..1]);
  }

  /** The length form round-trips, whatever follows it, exactly up to 65535. */
  lemma LengthRoundTrip(len: nat, rest: seq<Byte>)
    ensures ReadLength(EncodeLength(len) + rest) == Some(Header(len, |EncodeLength(len)|)) <==> len <= MAX_LENGTH
  {
    var s := EncodeLength(len) + rest;
    if len >= 256 {
      assert s[1..3] == [len / 256 % 256, len % 256];
      Value2(s[1..3]);
      if len <= MAX_LENGTH { assert len / 256 % 256 == len / 256; }
    } else if len >= 128 {
      assert s[1..2] == [len];
      Value1(s[1..2]);
    }
  }

  /** The first length that does not fit is written as a padded zero. */
  lemma LengthFailsAt65536(rest: seq<Byte>)
    ensures EncodeLength(65536) == [0x82, 0x00, 0x00] && ReadLength(EncodeLength(65536) + rest) == None
  {
    var s := EncodeLength(65536) + rest;
    assert s[1] == 0;
  }

  /** The reader accepts one header per length, so a header it reads back is the
      shortest one. */
  lemma HeaderIsUnique(a: seq<Byte>, b: seq<Byte>)
    requires ReadLength(a).Some? && ReadLength(b).Some? && ReadLength(a).value.len == ReadLength(b).value.len
    ensures ReadLength(a).value.used == ReadLength(b).value.used
    ensures a[..ReadLength(a).value.used] == b[..ReadLength(b).value.used]
  {
    var h := ReadLength(a).value;
    if h.len >= 128 {
      DigitsOfValue(a[1..h.used]);
      DigitsOfValue(b[1..ReadLength(b).value.used]);
      assert a[..h.used] == [a[0]] + a[1..h.used];
      assert b[..ReadLength(b).value.used] == [b[0]] + b[1..ReadLength(b).value.used];
    }
  }

  // ---------------------------------------------------------------------------
  // Tag, length, value
  // ---------------------------------------------------------------------------

  datatype Item = Item(tag: Byte, content: seq<Byte>)

  function Tlv(tag: Byte, content: seq<Byte>): seq<Byte> {
    [tag] + EncodeLength(|content|) + content
  }

  function Encode(item: Item): seq<Byte> { Tlv(item.tag, item.content) }

  datatype Parsed = Parsed(item: Item, rest: seq<Byte>)

  /** Read the first element of a byte string. */
  function ReadTlv(s: seq<Byte>): (p: Option<Parsed>)
    ensures p.Some? ==> |p.value.rest| < |s|
  {
    if s == [] then None else
    var h := ReadLength(s[1..]);
    if h.None? then None else
    var start := 1 + h.value.used;
    if |s| < start + h.value.len then None
    else Some(Parsed(Item(s[0], s[start..start + h.value.len]), s[start + h.value.len..]))
  }

  /** Read a byte string that must be a list of whole elements. */
  function ReadAll(s: seq<Byte>): Option<seq<Item>>
    decreases |s|
  {
    if s == [] then Some([]) else
    var p := ReadTlv(s);
    if p.None? then None else
    var tail := ReadAll(p.value.rest);
    if tail.None? then None else Some([p.value.item] + tail.value)
  }

  lemma TlvShape(item: Item, rest: seq<Byte>)
    ensures var s := Encode(item) + rest; var n := |EncodeLength(|item.content|)|;
            && s[0] == item.tag
            && s[1..] == EncodeLength(|item.content|) + (item.content + rest)
            && s[1 + n..1 + n + |item.content|] == item.content
            && s[1 + n + |item.content|..] == rest
  {
  }

  lemma ReadTlvRoundTrip(item: Item, rest: seq<Byte>)
    requires |item.content| <= MAX_LENGTH
    ensures ReadTlv(Encode(item) + rest) == Some(Parsed(item, rest))
  {
    TlvShape(item, rest);
    LengthRoundTrip(|item.content|, item.content + rest);
  }

  /** An element whose content does not fit never reads as one whole element. */
  lemma TooLongIsNotOne(item: Item)
    requires |item.content| > MAX_LENGTH
    ensures var all := ReadAll(Encode(item)); all.None? || |all.value| != 1
  {
    TlvShape(item, []);
    assert Encode(item) + [] == Encode(item);
    var s := Encode(item);
    var h := ReadLength(s[1..]);
    if h.Some? {
      var p := ReadTlv(s);
      LengthRoundTrip(|item.content|, item.content + []);
      Value2(s[2..4]);
      assert s[1..][1..3] == s[2..4];
      assert h.value.len < |item.content| && p.value.rest != [];
    }
  }

  /** An element reads back as itself exactly when its content fits. */
  lemma TlvRoundTrip(item: Item)
    ensures ReadAll(Encode(item)) == Some([item]) <==> |item.content| <= MAX_LENGTH
  {
    if |item.content| <= MAX_LENGTH {
      assert Encode(item) + [] == Encode(item);
      ReadTlvRoundTrip(item, []);
      assert [item] + [] == [item];
    } else {
      TooLongIsNotOne(item);
    }
  }

  function EncodeAll(items: seq<Item>): seq<Byte> {
    if items == [] then [] else Encode(items[0]) + EncodeAll(items[1..])
  }

  /** A list of elements that fit reads back as that list. */
  lemma {:induction false} ReadAllRoundTrip(items: seq<Item>)
    requires forall i :: 0 <= i < |items| ==> |items[i].content| <= MAX_LENGTH
    ensures ReadAll(EncodeAll(items)) == Some(items)
  {
    if items != [] {
      ReadTlvRoundTrip(items[0], EncodeAll(items[1..]));
      ReadAllRoundTrip(items[1..]);
      assert items == [items[0]] + items[1..];
    }
  }

  /** The bytes of a list bound the content of each of its elements. */
  lemma {:induction false} EncodeAllBounds(items: seq<Item>, i: nat)
    requires i < |items|
    ensures |items[i].content| < |EncodeAll(items)|
  {
    if i > 0 { EncodeAllBounds(items[1..], i - 1); }
  }

  lemma ReadAllWithin(items: seq<Item>)
    requires |EncodeAll(items)| <= MAX_LENGTH
    ensures ReadAll(EncodeAll(items)) == Some(items)
  {
    forall i | 0 <= i < |items| ensures |items[i].content| <= MAX_LENGTH { EncodeAllBounds(items, i); }
    ReadAllRoundTrip(items);
  }

  // ---------------------------------------------------------------------------
  // The encoders that push bytes into vectors
  // ---------------------------------------------------------------------------

  method DerWrap(tag: Byte, content: seq<Byte>) returns (out: seq<Byte>)
    ensures out == Encode(Item(tag, content))
  {
    out := [tag];
    out := out + EncodeLength(|content|);
    out := out + content;
  }

  /** SEQUENCE and SET collect their parts in a loop and wrap them once. */
  method DerCollect(tag: Byte, items: seq<seq<Byte>>) returns (out: seq<Byte>)
    ensures out == Encode(Item(tag, Flatten(items)))
  {
    var content := [];
    for i := 0 to |items|
      invariant content == Flatten(items[..i])
    {
      FlattenAppend(items[..i], items[i]);
      assert items[..i + 1] == items[..i] + [items[i]];
      content := content + items[i];
    }
    assert items[..|items|] == items;
    out := DerWrap(tag, content);
  }

  method DerBitString(content: seq<Byte>) returns (out: seq<Byte>)
    ensures out == Encode(BitString(content))
  {
    var inner := [0x00];
    inner := inner + content;
    out := DerWrap(BIT_STRING, inner);
  }

  function BitString(content: seq<Byte>): Item { Item(BIT_STRING, [0x00] + content) }

  // ---------------------------------------------------------------------------
  // INTEGER
  // ---------------------------------------------------------------------------

  /** The content octets of a non-negative INTEGER: two's complement, shortest. */
  function IntegerBody(v: nat): seq<Byte> {
    var d := Digits(v);
    if d == [] then [0] else if d[0] >= 128 then [0] + d else d
  }

  function IntegerItem(v: nat): Item { Item(INTEGER, IntegerBody(v)) }

  /** Section 8.3.2: the first nine bits are not all equal; and the sign bit is clear. */
  predicate MinimalNonNegative(body: seq<Byte>) {
    body != [] && body[0] < 128 && (|body| > 1 && body[0] == 0 ==> body[1] >= 128)
  }

  lemma IntegerBodyFits(v: nat)
    ensures MinimalNonNegative(IntegerBody(v)) && Value(IntegerBody(v)) == v
  {
    LeadingZero(Digits(v));
    Value1([0]);
  }

  lemma IntegerBodyIsOnly(body: seq<Byte>)
    requires MinimalNonNegative(body)
    ensures body == IntegerBody(Value(body))
  {
    if body[0] == 0 {
      LeadingZeros(body, 1);
      DigitsOfValue(body[1..]);
      assert body == [0] + body[1..];
    } else {
      DigitsOfValue(body);
    }
  }

  /** The body has the right value and the right shape, and is the only one that does. */
  lemma IntegerBodyIsCanonical(v: nat, body: seq<Byte>)
    ensures MinimalNonNegative(IntegerBody(v)) && Value(IntegerBody(v)) == v
    ensures MinimalNonNegative(body) && Value(body) == v ==> body == IntegerBody(v)
  {
    IntegerBodyFits(v);
    if MinimalNonNegative(body) { IntegerBodyIsOnly(body); }
  }

  /** From the bytes without their leading zeros to the content octets. */
  lemma StrippedBody(bytes: seq<Byte>, start: nat)
    requires start < |bytes| && (forall i :: 0 <= i < start ==> bytes[i] == 0)
    requires bytes[start] != 0 || start == |bytes| - 1
    ensures var trimmed := bytes[start..];
            IntegerBody(Value(bytes)) == if trimmed[0] >= 0x80 then [0x00] + trimmed else trimmed
  {
    LeadingZeros(bytes, start);
    var trimmed := bytes[start..];
    if trimmed[0] != 0 {
      DigitsOfValue(trimmed);
    } else {
      assert trimmed == [0];
      Value1(trimmed);
    }
  }

  /** `der_encode_integer` on a big-endian unsigned number.  An empty slice makes the
      original panic, so it is a precondition. */
  method DerEncodeInteger(bytes: seq<Byte>) returns (out: seq<Byte>)
    requires bytes != []
    ensures out == Encode(IntegerItem(Value(bytes)))
  {
    var start := 0;
    while start < |bytes| && bytes[start] == 0
      invariant 0 <= start <= |bytes|
      invariant forall i :: 0 <= i < start ==> bytes[i] == 0
    {
      start := start + 1;
    }
    if start == |bytes| {
      start := |bytes| - 1;
    }
    StrippedBody(bytes, start);
    var trimmed := bytes[start..];
    var needsPad := trimmed != [] && trimmed[0] >= 0x80;
    var intLen := |trimmed| + if needsPad then 1 else 0;
    var encodedLen := EncodeLength(intLen);
    out := [INTEGER];
    out := out + encodedLen;
    if needsPad {
      out := out + [0x00];
    }
    out := out + trimmed;
    assert out == [INTEGER] + encodedLen + IntegerBody(Value(bytes));
  }

  function SmallInteger(val: Byte): seq<Byte> { [0x02, 0x01, val] }

  /** `der_small_integer` agrees with the general encoder exactly below 128; above,
      it writes a negative number. */
  lemma SmallIntegerIsCanonical(val: Byte)
    ensures SmallInteger(val) == Encode(IntegerItem(val)) <==> val < 128
  {
    if val != 0 {
      DigitsOfValue([val]);
      Value1([val]);
    }
    assert |Encode(IntegerItem(val))| == 3 <==> val < 128;
  }
}
