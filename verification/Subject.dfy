/** Distinguished names: from the subject string to a DER Name and back. */
module Subject {
  import opened Options
  import opened Bytes
  import opened Text
  import opened Der

  const COMMA: Byte := 44
  const EQUALS: Byte := 61

  const OID_CN: seq<Byte> := [0x55, 0x04, 0x03]
  const OID_O: seq<Byte> := [0x55, 0x04, 0x0A]
  const OID_OU: seq<Byte> := [0x55, 0x04, 0x0B]
  const OID_C: seq<Byte> := [0x55, 0x04, 0x06]
  const OID_ST: seq<Byte> := [0x55, 0x04, 0x08]
  const OID_L: seq<Byte> := [0x55, 0x04, 0x07]
  const OID_E: seq<Byte> := [0x2A, 0x86, 0x48, 0x86, 0xF7, 0x0D, 0x01, 0x09, 0x01]

  const KEY_CN: Text := [67, 78]
  const KEY_O: Text := [79]
  const KEY_OU: Text := [79, 85]
  const KEY_C: Text := [67]
  const KEY_ST: Text := [83, 84]
  const KEY_L: Text := [76]
  const KEY_E: Text := [69]
  const KEY_EMAIL: Text := [69, 77, 65, 73, 76]
  const KEY_EMAILADDRESS: Text := [69, 77, 65, 73, 76, 65, 68, 68, 82, 69, 83, 83]

  function Upper(s: Text): Text {
    seq(|s|, i requires 0 <= i < |s| => if 97 <= s[i] <= 122 then s[i] - 32 else s[i])
  }

  function OidOf(key: Text): Option<seq<Byte>> {
    if key == KEY_CN then Some(OID_CN)
    else if key == KEY_O then Some(OID_O)
    else if key == KEY_OU then Some(OID_OU)
    else if key == KEY_C then Some(OID_C)
    else if key == KEY_ST then Some(OID_ST)
    else if key == KEY_L then Some(OID_L)
    else if key == KEY_E || key == KEY_EMAIL || key == KEY_EMAILADDRESS then Some(OID_E)
    else None
  }

  /** One attribute of a Name. */
  datatype Attribute = Attribute(oid: seq<Byte>, stringTag: Byte, value: Text)

  // ---------------------------------------------------------------------------
  // What a subject string means
  // ---------------------------------------------------------------------------

  /** What key and value a fragment gives, independent of how it is cut up. */
  function Meaning(key: Text, value: Text): Option<Attribute> {
    var k := Upper(Trim(key));
    if OidOf(k).None? then None
    else Some(Attribute(OidOf(k).value, if k == KEY_C then PRINTABLE_STRING else UTF8_STRING, Trim(value)))
  }

  function Fragment(part: Text): Option<Attribute> {
    var pair := SplitOnce(part, EQUALS);
    if pair.None? then None else Meaning(pair.value.0, pair.value.1)
  }

  function Known(parts: seq<Text>): seq<Attribute> {
    if parts == [] then []
    else Known(parts[..|parts| - 1])
         + var a := Fragment(Trim(parts[|parts| - 1])); if a.None? then [] else [a.value]
  }

  function Attributes(subject: Text): seq<Attribute> { Known(Split(subject, COMMA)) }

  lemma KnownAppend(parts: seq<Text>, part: Text)
    ensures var a := Fragment(Trim(part));
            Known(parts + [part]) == Known(parts) + if a.None? then [] else [a.value]
  {
    assert (parts + [part])[..|parts|] == parts;
  }

  lemma {:induction false} KnownConcat(a: seq<Text>, b: seq<Text>)
    ensures Known(a + b) == Known(a) + Known(b)
  {
    if b == [] {
      assert a + b == a;
    } else {
      var front, last := b[..|b| - 1], b[|b| - 1];
      assert a + b == (a + front) + [last] && b == front + [last];
      KnownConcat(a, front);
      KnownAppend(a + front, last);
      KnownAppend(front, last);
    }
  }

  lemma KnownOne(part: Text)
    ensures Known([part]) == var a := Fragment(Trim(part)); if a.None? then [] else [a.value]
  {
    var parts: seq<Text> := [part];
    assert parts[..0] == [];
  }

  /** A fragment `k=v` is read as its trimmed key and value, whatever white space
      surrounds them and whatever the value contains besides commas. */
  lemma KeyValueFragment(key: Text, value: Text)
    requires EQUALS !in key && COMMA !in key && COMMA !in value
    ensures var a := Meaning(key, value);
            Attributes(key + [EQUALS] + value) == if a.None? then [] else [a.value]
  {
    var part := key + [EQUALS] + value;
    TrimAround(key, EQUALS, value);
    TrimStartKeepsAbsent(key, EQUALS);
    var k, v := TrimStart(key), TrimEnd(value);
    IndexOfConcat(k, EQUALS, v);
    assert (k + [EQUALS] + v)[..|k|] == k && (k + [EQUALS] + v)[|k| + 1..] == v;
    assert Split(part, COMMA) == [part];
    KnownOne(part);
  }

  /** A fragment without an equals sign contributes nothing. */
  lemma MalformedFragment(part: Text)
    requires EQUALS !in part && COMMA !in part
    ensures Attributes(part) == []
  {
    assert Split(part, COMMA) == [part];
    TrimStartKeepsAbsent(part, EQUALS);
    TrimEndKeepsAbsent(TrimStart(part), EQUALS);
    KnownOne(part);
  }

  lemma {:induction false} TrimEndKeepsAbsent(s: Text, b: Byte)
    requires b !in s
    ensures b !in TrimEnd(s)
  {
    if s != [] && IsSpace(s[|s| - 1]) { TrimEndKeepsAbsent(s[..|s| - 1], b); }
  }

  /** The attributes of a list are the attributes of its two halves, in order. */
  lemma AttributesConcat(a: Text, b: Text)
    ensures Attributes(a + [COMMA] + b) == Attributes(a) + Attributes(b)
  {
    SplitConcat(a, COMMA, b);
    KnownConcat(Split(a, COMMA), Split(b, COMMA));
  }

  // ---------------------------------------------------------------------------
  // The DER Name
  // ---------------------------------------------------------------------------

  function AttributeItem(a: Attribute): Item {
    Item(SEQUENCE, EncodeAll([Item(OID, a.oid), Item(a.stringTag, a.value)]))
  }

  function RdnItem(a: Attribute): Item { Item(SET, EncodeAll([AttributeItem(a)])) }

  function RdnItems(attrs: seq<Attribute>): seq<Item> {
    seq(|attrs|, i requires 0 <= i < |attrs| => RdnItem(attrs[i]))
  }

  function NameItem(attrs: seq<Attribute>): Item { Item(SEQUENCE, EncodeAll(RdnItems(attrs))) }

  lemma EncodeAllOne(x: Item)
    ensures EncodeAll([x]) == Encode(x)
  {
    assert [x][1..] == [];
  }

  lemma EncodeAllCons(x: Item, items: seq<Item>)
    ensures EncodeAll([x] + items) == Encode(x) + EncodeAll(items)
  {
    assert ([x] + items)[1..] == items;
  }

  lemma {:induction false} EncodeAllAppend(items: seq<Item>, x: Item)
    ensures EncodeAll(items + [x]) == EncodeAll(items) + Encode(x)
  {
    if items == [] {
      EncodeAllOne(x);
      assert items + [x] == [x];
    } else {
      var head, tail := items[0], items[1..];
      assert items + [x] == [head] + (tail + [x]);
      EncodeAllAppend(tail, x);
      EncodeAllCons(head, tail + [x]);
    }
  }

  lemma EncodeAllTwo(x: Item, y: Item)
    ensures EncodeAll([x, y]) == Encode(x) + Encode(y)
  {
    assert [x, y][1..] == [y];
    EncodeAllOne(y);
  }

  /** One relative distinguished name: SET { SEQUENCE { OID, string } }. */
  method EncodeRdn(oid: seq<Byte>, key: Text, val: Text) returns (rdn: seq<Byte>)
    ensures rdn == Encode(RdnItem(Attribute(oid, if key == KEY_C then PRINTABLE_STRING else UTF8_STRING, val)))
  {
    var valueDer: seq<Byte>;
    if key == KEY_C {
      valueDer := DerWrap(PRINTABLE_STRING, val);
    } else {
      valueDer := DerWrap(UTF8_STRING, val);
    }
    var oidDer := DerWrap(OID, oid);
    var attrTypeVal := DerCollect(SEQUENCE, [oidDer, valueDer]);
    rdn := DerCollect(SET, [attrTypeVal]);
    RdnBytes(Attribute(oid, if key == KEY_C then PRINTABLE_STRING else UTF8_STRING, val), oidDer, valueDer);
  }

  lemma KnownNext(parts: seq<Text>, n: nat)
    requires n < |parts|
    ensures var a := Fragment(Trim(parts[n]));
            Known(parts[..n + 1]) == Known(parts[..n]) + if a.None? then [] else [a.value]
  {
    assert parts[..n + 1][..n] == parts[..n];
  }

  lemma RdnPushed(rdns: seq<seq<Byte>>, rdn: seq<Byte>, attrs: seq<Attribute>, a: Attribute)
    requires Flatten(rdns) == EncodeAll(RdnItems(attrs)) && rdn == Encode(RdnItem(a))
    ensures Flatten(rdns + [rdn]) == EncodeAll(RdnItems(attrs + [a]))
  {
    FlattenAppend(rdns, rdn);
    EncodeAllAppend(RdnItems(attrs), RdnItem(a));
    assert RdnItems(attrs + [a]) == RdnItems(attrs) + [RdnItem(a)];
  }

  /** `build_subject_dn`: the fragment loop with its `continue` for unknown keys. */
  method BuildSubjectDn(subject: Text) returns (out: seq<Byte>)
    ensures out == Encode(NameItem(Attributes(subject)))
  {
    var parts := Split(subject, COMMA);
    var rdns: seq<seq<Byte>> := [];
    ghost var attrs: seq<Attribute> := [];
    for n := 0 to |parts|
      invariant attrs == Known(parts[..n])
      invariant Flatten(rdns) == EncodeAll(RdnItems(attrs))
    {
      KnownNext(parts, n);
      var part := Trim(parts[n]);
      var pair := SplitOnce(part, EQUALS);
      if pair.Some? {
        var key := Upper(Trim(pair.value.0));
        var oid := OidOf(key);
        if oid.None? { continue; }
        var rdn := EncodeRdn(oid.value, key, Trim(pair.value.1));
        ghost var a := Fragment(part).value;
        RdnPushed(rdns, rdn, attrs, a);
        rdns := rdns + [rdn];
        attrs := attrs + [a];
      }
    }
    assert parts[..|parts|] == parts;
    out := DerCollect(SEQUENCE, rdns);
  }

  lemma RdnBytes(a: Attribute, oidDer: seq<Byte>, valueDer: seq<Byte>)
    requires oidDer == Encode(Item(OID, a.oid)) && valueDer == Encode(Item(a.stringTag, a.value))
    ensures Encode(Item(SET, Flatten([Encode(Item(SEQUENCE, Flatten([oidDer, valueDer])))]))) == Encode(RdnItem(a))
  {
    FlattenTwo(oidDer, valueDer);
    EncodeAllTwo(Item(OID, a.oid), Item(a.stringTag, a.value));
    FlattenOne(Encode(AttributeItem(a)));
    EncodeAllOne(AttributeItem(a));
  }

  lemma FlattenOne(x: seq<Byte>)
    ensures Flatten([x]) == x
  {
    assert [x][..0] == [];
  }

  lemma FlattenTwo(x: seq<Byte>, y: seq<Byte>)
    ensures Flatten([x, y]) == x + y
  {
    assert [x, y][..1] == [x];
    FlattenOne(x);
  }

  // ---------------------------------------------------------------------------
  // Reading a Name back
  // ---------------------------------------------------------------------------

  /** The one element of an item with this tag. */
  function ReadOne(item: Item, tag: Byte): Option<Item> {
    var inner := ReadAll(item.content);
    if item.tag != tag || inner.None? || |inner.value| != 1 then None else Some(inner.value[0])
  }

  function ReadAttribute(rdn: Item): Option<Attribute> {
    var pair := ReadOne(rdn, SET);
    if pair.None? || pair.value.tag != SEQUENCE then None else
    var both := ReadAll(pair.value.content);
    if both.None? || |both.value| != 2 || both.value[0].tag != OID then None
    else Some(Attribute(both.value[0].content, both.value[1].tag, both.value[1].content))
  }

  function ReadAttributes(rdns: seq<Item>): Option<seq<Attribute>> {
    if rdns == [] then Some([]) else
    var a, tail := ReadAttribute(rdns[0]), ReadAttributes(rdns[1..]);
    if a.None? || tail.None? then None else Some([a.value] + tail.value)
  }

  function ReadName(name: Item): Option<seq<Attribute>> {
    var rdns := ReadAll(name.content);
    if name.tag != SEQUENCE || rdns.None? then None else ReadAttributes(rdns.value)
  }

  function DecodeName(s: seq<Byte>): Option<seq<Attribute>> {
    var all := ReadAll(s);
    if all.None? || |all.value| != 1 then None else ReadName(all.value[0])
  }

  lemma ReadAttributeBack(a: Attribute)
    requires |RdnItem(a).content| <= MAX_LENGTH
    ensures ReadAttribute(RdnItem(a)) == Some(a)
  {
    EncodeAllBounds([AttributeItem(a)], 0);
    ReadAllWithin([AttributeItem(a)]);
    ReadAllWithin([Item(OID, a.oid), Item(a.stringTag, a.value)]);
  }

  lemma ReadAttributesCons(rdn: Item, rdns: seq<Item>)
    requires ReadAttribute(rdn).Some? && ReadAttributes(rdns).Some?
    ensures ReadAttributes([rdn] + rdns) == Some([ReadAttribute(rdn).value] + ReadAttributes(rdns).value)
  {
    assert ([rdn] + rdns)[1..] == rdns;
  }

  lemma {:induction false} ReadAttributesBack(attrs: seq<Attribute>)
    requires forall i :: 0 <= i < |attrs| ==> |RdnItem(attrs[i]).content| <= MAX_LENGTH
    ensures ReadAttributes(RdnItems(attrs)) == Some(attrs)
  {
    if attrs != [] {
      var head, tail := attrs[0], attrs[1..];
      ReadAttributeBack(head);
      ReadAttributesBack(tail);
      assert RdnItems(attrs) == [RdnItem(head)] + RdnItems(tail);
      ReadAttributesCons(RdnItem(head), RdnItems(tail));
      assert attrs == [head] + tail;
    }
  }

  lemma ReadNameBack(attrs: seq<Attribute>)
    requires |NameItem(attrs).content| <= MAX_LENGTH
    ensures ReadName(NameItem(attrs)) == Some(attrs)
  {
    var items := RdnItems(attrs);
    ReadAllWithin(items);
    forall i | 0 <= i < |attrs| ensures |RdnItem(attrs[i]).content| <= MAX_LENGTH { EncodeAllBounds(items, i); }
    ReadAttributesBack(attrs);
  }

  /** The encoded Name of any subject string decodes to exactly its attributes, in
      order and with their string types, if and only if it fits in 65535 bytes. */
  lemma NameRoundTrip(subject: Text)
    ensures var attrs := Attributes(subject);
            DecodeName(Encode(NameItem(attrs))) == Some(attrs) <==> |NameItem(attrs).content| <= MAX_LENGTH
  {
    var attrs := Attributes(subject);
    if |NameItem(attrs).content| <= MAX_LENGTH {
      TlvRoundTrip(NameItem(attrs));
      ReadNameBack(attrs);
    } else {
      TooLongIsNotOne(NameItem(attrs));
    }
  }
}
