/**
 PKCS#10 requests: the key information, the signed part, the signature and their
 assembly, against a strict reader of section 4 of RFC 2986.
 */
module Csr {
  import opened Options
  import opened Bytes
  import opened Text
  import opened Der
  import opened Subject

  const OID_SM2: seq<Byte> := [0x2A, 0x81, 0x1C, 0xCF, 0x55, 0x01, 0x82, 0x2D]
  const OID_SM3_WITH_SM2: seq<Byte> := [0x2A, 0x81, 0x1C, 0xCF, 0x55, 0x01, 0x83, 0x75]
  const OID_EC_PUBLIC_KEY: seq<Byte> := [0x2A, 0x86, 0x48, 0xCE, 0x3D, 0x02, 0x01]
  const OID_RSA: seq<Byte> := [0x2A, 0x86, 0x48, 0x86, 0xF7, 0x0D, 0x01, 0x01, 0x01]
  const OID_SHA256_WITH_RSA: seq<Byte> := [0x2A, 0x86, 0x48, 0x86, 0xF7, 0x0D, 0x01, 0x01, 0x0B]
  const OID_SHA256: seq<Byte> := [0x60, 0x86, 0x48, 0x01, 0x65, 0x03, 0x04, 0x02, 0x01]

  // ---------------------------------------------------------------------------
  // The parts of a request
  // ---------------------------------------------------------------------------

  /** A public key as a reader of the request sees it. */
  datatype KeyInfo = Sm2Point(x: seq<Byte>, y: seq<Byte>) | RsaNumbers(n: nat, e: nat)

  datatype Request = Request(subject: seq<Attribute>, key: KeyInfo, algorithm: seq<Item>, signature: seq<Byte>)

  predicate PointOk(key: KeyInfo) { key.Sm2Point? ==> |key.x| == 32 && |key.y| == 32 }

  function Sequence(items: seq<Item>): Item { Item(SEQUENCE, EncodeAll(items)) }

  function NullItem(): Item { Item(NULL, []) }

  function KeyAlgorithm(key: KeyInfo): seq<Item> {
    if key.Sm2Point? then [Item(OID, OID_EC_PUBLIC_KEY), Item(OID, OID_SM2)]
    else [Item(OID, OID_RSA), NullItem()]
  }

  function KeyBits(key: KeyInfo): seq<Byte> {
    match key
    case Sm2Point(x, y) => [0x04] + x + y
    case RsaNumbers(n, e) => Encode(Sequence([IntegerItem(n), IntegerItem(e)]))
  }

  function SpkiItem(key: KeyInfo): Item {
    Sequence([Sequence(KeyAlgorithm(key)), BitString(KeyBits(key))])
  }

  function TbsItem(subject: seq<Attribute>, key: KeyInfo): Item {
    Sequence([IntegerItem(0), NameItem(subject), SpkiItem(key), Item(CONTEXT_0, [])])
  }

  function CsrItem(req: Request): Item {
    Sequence([TbsItem(req.subject, req.key), Sequence(req.algorithm), BitString(req.signature)])
  }

  function SignatureItem(r: nat, s: nat): Item { Sequence([IntegerItem(r), IntegerItem(s)]) }

  /** Section 4.1 of RFC 2986 in bytes: version 0, the name, the key, no attributes;
      then the algorithm and the signature as a BIT STRING. */
  lemma RequestLayout(req: Request)
    ensures TbsItem(req.subject, req.key).tag == 0x30
    ensures TbsItem(req.subject, req.key).content ==
              [0x02, 0x01, 0x00] + (Encode(NameItem(req.subject)) + (Encode(SpkiItem(req.key)) + [0xA0, 0x00]))
    ensures CsrItem(req).tag == 0x30
    ensures CsrItem(req).content ==
              Encode(TbsItem(req.subject, req.key))
              + (Encode(Item(0x30, EncodeAll(req.algorithm))) + Encode(Item(0x03, [0x00] + req.signature)))
  {
    var name, spki, none := NameItem(req.subject), SpkiItem(req.key), Item(0xA0, []);
    EncodeAllTwo(spki, none);
    EncodeAllCons(name, [spki, none]);
    assert [name] + [spki, none] == [name, spki, none];
    EncodeAllCons(IntegerItem(0), [name, spki, none]);
    assert [IntegerItem(0)] + [name, spki, none] == [IntegerItem(0), name, spki, none];
    SmallIntegerIsCanonical(0);
    assert Encode(none) == [0xA0, 0x00];
    var tbs, alg, sig := TbsItem(req.subject, req.key), Sequence(req.algorithm), BitString(req.signature);
    EncodeAllTwo(alg, sig);
    EncodeAllCons(tbs, [alg, sig]);
    assert [tbs] + [alg, sig] == [tbs, alg, sig];
  }

  const SM2_ALGORITHM: seq<Byte> :=
    [0x30, 0x13, 0x06, 0x07, 0x2A, 0x86, 0x48, 0xCE, 0x3D, 0x02, 0x01,
     0x06, 0x08, 0x2A, 0x81, 0x1C, 0xCF, 0x55, 0x01, 0x82, 0x2D]

  lemma Sm2AlgorithmBytes()
    ensures Encode(Sequence([Item(OID, OID_EC_PUBLIC_KEY), Item(OID, OID_SM2)])) == SM2_ALGORITHM
  {
    EncodeAllTwo(Item(OID, OID_EC_PUBLIC_KEY), Item(OID, OID_SM2));
  }

  lemma PointBytes(x: seq<Byte>, y: seq<Byte>)
    requires |x| == 32 && |y| == 32
    ensures Encode(BitString([0x04] + x + y)) == [0x03, 0x42, 0x00, 0x04] + (x + y)
  {}

  /** The key information of an SM2 point, byte for byte. */
  lemma Sm2KeyLayout(x: seq<Byte>, y: seq<Byte>)
    requires |x| == 32 && |y| == 32
    ensures Encode(SpkiItem(Sm2Point(x, y))) ==
              [0x30, 0x59] + (SM2_ALGORITHM + ([0x03, 0x42, 0x00, 0x04] + (x + y)))
  {
    var algorithm, bits := Sequence([Item(OID, OID_EC_PUBLIC_KEY), Item(OID, OID_SM2)]), BitString([0x04] + x + y);
    Sm2AlgorithmBytes();
    PointBytes(x, y);
    EncodeAllTwo(algorithm, bits);
    assert SpkiItem(Sm2Point(x, y)).content == Encode(algorithm) + Encode(bits);
  }

  /** The key information of an RSA key: modulus first, then exponent. */
  lemma RsaKeyLayout(n: nat, e: nat)
    ensures var numbers := Encode(Item(0x30, Encode(Item(0x02, IntegerBody(n))) + Encode(Item(0x02, IntegerBody(e)))));
            SpkiItem(RsaNumbers(n, e)).content ==
              [0x30, 0x0D, 0x06, 0x09, 0x2A, 0x86, 0x48, 0x86, 0xF7, 0x0D, 0x01, 0x01, 0x01, 0x05, 0x00]
              + Encode(Item(0x03, [0x00] + numbers))
  {
    EncodeAllTwo(IntegerItem(n), IntegerItem(e));
    RsaAlgorithmBytes();
    EncodeAllTwo(Sequence([Item(OID, OID_RSA), NullItem()]), BitString(KeyBits(RsaNumbers(n, e))));
  }

  lemma RsaAlgorithmBytes()
    ensures Encode(Sequence([Item(OID, OID_RSA), NullItem()])) ==
              [0x30, 0x0D, 0x06, 0x09, 0x2A, 0x86, 0x48, 0x86, 0xF7, 0x0D, 0x01, 0x01, 0x01, 0x05, 0x00]
  {
    EncodeAllTwo(Item(OID, OID_RSA), NullItem());
  }

  // ---------------------------------------------------------------------------
  // The reader
  // ---------------------------------------------------------------------------

  /** The elements of a SEQUENCE that must have exactly `n`. */
  function ReadSequence(item: Item, n: nat): (r: Option<seq<Item>>)
    ensures r.Some? ==> |r.value| == n
  {
    var all := ReadAll(item.content);
    if item.tag != SEQUENCE || all.None? || |all.value| != n then None else all
  }

  function ReadInteger(item: Item): Option<nat> {
    if item.tag == INTEGER && MinimalNonNegative(item.content) then Some(Value(item.content)) else None
  }

  /** A BIT STRING of whole bytes. */
  function ReadBits(item: Item): Option<seq<Byte>> {
    if item.tag == BIT_STRING && item.content != [] && item.content[0] == 0 then Some(item.content[1..]) else None
  }

  function ReadTwoIntegers(item: Item): Option<(nat, nat)> {
    var two := ReadSequence(item, 2);
    if two.None? then None else
    var a, b := ReadInteger(two.value[0]), ReadInteger(two.value[1]);
    if a.None? || b.None? then None else Some((a.value, b.value))
  }

  function ReadKeyBits(algorithm: seq<Item>, bits: seq<Byte>): Option<KeyInfo> {
    if algorithm == [Item(OID, OID_EC_PUBLIC_KEY), Item(OID, OID_SM2)] then
      if |bits| == 65 && bits[0] == 0x04 then Some(Sm2Point(bits[1..33], bits[33..])) else None
    else if algorithm == [Item(OID, OID_RSA), NullItem()] then
      var inner := ReadAll(bits);
      if inner.None? || |inner.value| != 1 then None else
      var pair := ReadTwoIntegers(inner.value[0]);
      if pair.None? then None else Some(RsaNumbers(pair.value.0, pair.value.1))
    else None
  }

  function ReadSpki(item: Item): Option<KeyInfo> {
    var two := ReadSequence(item, 2);
    if two.None? then None else
    var alg, bits := ReadSequence(two.value[0], 2), ReadBits(two.value[1]);
    if alg.None? || bits.None? then None else ReadKeyBits(alg.value, bits.value)
  }

  /** Version 0, a Name, a key, and empty attributes. */
  function ReadTbs(item: Item): Option<(seq<Attribute>, KeyInfo)> {
    var four := ReadSequence(item, 4);
    if four.None? then None else
    var version, name, key := ReadInteger(four.value[0]), ReadName(four.value[1]), ReadSpki(four.value[2]);
    if version != Some(0) || name.None? || key.None? || four.value[3] != Item(CONTEXT_0, []) then None
    else Some((name.value, key.value))
  }

  function ReadCsr(item: Item): Option<Request> {
    var three := ReadSequence(item, 3);
    if three.None? then None else
    var tbs, alg, sig := ReadTbs(three.value[0]), ReadAll(three.value[1].content), ReadBits(three.value[2]);
    if tbs.None? || three.value[1].tag != SEQUENCE || alg.None? || sig.None? then None
    else Some(Request(tbs.value.0, tbs.value.1, alg.value, sig.value))
  }

  function DecodeCsr(s: seq<Byte>): Option<Request> {
    var all := ReadAll(s);
    if all.None? || |all.value| != 1 then None else ReadCsr(all.value[0])
  }

  /** The bytes a verifier hashes: the first element of the outer SEQUENCE, raw. */
  function SignedBytes(s: seq<Byte>): Option<seq<Byte>> {
    var outer := ReadTlv(s);
    if outer.None? then None else
    var first := ReadTlv(outer.value.item.content);
    if first.None? then None
    else Some(outer.value.item.content[..|outer.value.item.content| - |first.value.rest|])
  }

  // ---------------------------------------------------------------------------
  // Reading back what was written
  // ---------------------------------------------------------------------------

  lemma ReadSequenceBack(items: seq<Item>)
    requires |EncodeAll(items)| <= MAX_LENGTH
    ensures ReadSequence(Sequence(items), |items|) == Some(items)
    ensures forall i :: 0 <= i < |items| ==> |items[i].content| <= MAX_LENGTH
  {
    ReadAllWithin(items);
    forall i | 0 <= i < |items| ensures |items[i].content| <= MAX_LENGTH { EncodeAllBounds(items, i); }
  }

  lemma ReadIntegerBack(v: nat)
    ensures ReadInteger(IntegerItem(v)) == Some(v)
  {
    IntegerBodyIsCanonical(v, []);
  }

  lemma ReadTwoIntegersBack(a: nat, b: nat)
    requires |SignatureItem(a, b).content| <= MAX_LENGTH
    ensures ReadTwoIntegers(SignatureItem(a, b)) == Some((a, b))
  {
    ReadSequenceBack([IntegerItem(a), IntegerItem(b)]);
    ReadIntegerBack(a);
    ReadIntegerBack(b);
  }

  lemma ReadSpkiBack(key: KeyInfo)
    requires PointOk(key) && |SpkiItem(key).content| <= MAX_LENGTH
    ensures ReadSpki(SpkiItem(key)) == Some(key)
  {
    ReadSequenceBack([Sequence(KeyAlgorithm(key)), BitString(KeyBits(key))]);
    assert |Sequence(KeyAlgorithm(key)).content| <= MAX_LENGTH && |BitString(KeyBits(key)).content| <= MAX_LENGTH;
    ReadSequenceBack(KeyAlgorithm(key));
    assert ReadBits(BitString(KeyBits(key))) == Some(KeyBits(key));
    match key
    case Sm2Point(x, y) =>
      assert KeyBits(key)[1..33] == x && KeyBits(key)[33..] == y;
    case RsaNumbers(n, e) =>
      assert KeyAlgorithm(key)[0] != Item(OID, OID_EC_PUBLIC_KEY) by { assert |OID_RSA| != |OID_EC_PUBLIC_KEY|; }
      TlvRoundTrip(SignatureItem(n, e));
      ReadTwoIntegersBack(n, e);
  }

  lemma ReadTbsBack(subject: seq<Attribute>, key: KeyInfo)
    requires PointOk(key) && |TbsItem(subject, key).content| <= MAX_LENGTH
    ensures ReadTbs(TbsItem(subject, key)) == Some((subject, key))
  {
    var items := [IntegerItem(0), NameItem(subject), SpkiItem(key), Item(CONTEXT_0, [])];
    ReadSequenceBack(items);
    assert |items[1].content| <= MAX_LENGTH && |items[2].content| <= MAX_LENGTH;
    ReadIntegerBack(0);
    ReadNameBack(subject);
    ReadSpkiBack(key);
  }

  lemma ReadCsrBack(req: Request)
    requires PointOk(req.key) && |CsrItem(req).content| <= MAX_LENGTH
    ensures ReadCsr(CsrItem(req)) == Some(req)
  {
    var items := [TbsItem(req.subject, req.key), Sequence(req.algorithm), BitString(req.signature)];
    ReadSequenceBack(items);
    assert |items[0].content| <= MAX_LENGTH && |items[1].content| <= MAX_LENGTH;
    ReadTbsBack(req.subject, req.key);
    ReadAllWithin(req.algorithm);
    assert ReadBits(BitString(req.signature)) == Some(req.signature);
  }

  /** A request decodes to exactly its parts if and only if it fits in 65535 bytes. */
  lemma {:induction false} CsrRoundTrip(req: Request)
    requires PointOk(req.key)
    ensures DecodeCsr(Encode(CsrItem(req))) == Some(req) <==> |CsrItem(req).content| <= MAX_LENGTH
  {
    if |CsrItem(req).content| <= MAX_LENGTH {
      TlvRoundTrip(CsrItem(req));
      ReadCsrBack(req);
    } else {
      TooLongIsNotOne(CsrItem(req));
    }
  }

  /** What a verifier will hash is byte for byte the encoded TBS. */
  lemma SignedBytesAreTbs(req: Request)
    requires |CsrItem(req).content| <= MAX_LENGTH
    ensures SignedBytes(Encode(CsrItem(req))) == Some(Encode(TbsItem(req.subject, req.key)))
  {
    var tbs := TbsItem(req.subject, req.key);
    var items := [tbs, Sequence(req.algorithm), BitString(req.signature)];
    ReadTlvRoundTrip(CsrItem(req), []);
    assert Encode(CsrItem(req)) + [] == Encode(CsrItem(req));
    EncodeAllBounds(items, 0);
    var rest := EncodeAll(items[1..]);
    assert EncodeAll(items) == Encode(tbs) + rest;
    ReadTlvRoundTrip(tbs, rest);
  }

  // ---------------------------------------------------------------------------
  // The builders
  // ---------------------------------------------------------------------------

  /** A key as the token returns it: 64-byte coordinates, or a modulus of 256 bytes
      of which `bitLen / 8` are used. */
  datatype PublicKey =
    | EccKey(x: seq<Byte>, y: seq<Byte>)
    | RsaKey(bitLen: nat, modulus: seq<Byte>, exponent: seq<Byte>)

  /** The sizes are those of the vendor's blobs; a modulus of no bytes panics. */
  predicate BlobOk(key: PublicKey) {
    match key
    case EccKey(x, y) => |x| == 64 && |y| == 64
    case RsaKey(bitLen, modulus, exponent) => |modulus| == 256 && |exponent| == 4 && 1 <= bitLen / 8 <= 256
  }

  /** The right-aligned half of each coordinate, or the two numbers. */
  function InfoOf(key: PublicKey): (info: KeyInfo)
    requires BlobOk(key)
    ensures PointOk(info)
  {
    match key
    case EccKey(x, y) => Sm2Point(x[32..64], y[32..64])
    case RsaKey(bitLen, modulus, exponent) => RsaNumbers(Value(modulus[..bitLen / 8]), Value(exponent))
  }

  lemma SequenceBytes2(x: Item, y: Item)
    ensures Encode(Item(SEQUENCE, Flatten([Encode(x), Encode(y)]))) == Encode(Sequence([x, y]))
  {
    FlattenTwo(Encode(x), Encode(y));
    EncodeAllTwo(x, y);
  }

  lemma SequenceBytes3(x: Item, y: Item, z: Item)
    ensures Flatten([Encode(x), Encode(y), Encode(z)]) == EncodeAll([x, y, z])
  {
    FlattenTwo(Encode(x), Encode(y));
    EncodeAllTwo(x, y);
    FlattenAppend([Encode(x), Encode(y)], Encode(z));
    EncodeAllAppend([x, y], z);
    assert [x, y] + [z] == [x, y, z];
    assert [Encode(x), Encode(y)] + [Encode(z)] == [Encode(x), Encode(y), Encode(z)];
  }

  lemma SequenceBytes4(w: Item, x: Item, y: Item, z: Item)
    ensures Flatten([Encode(w), Encode(x), Encode(y), Encode(z)]) == EncodeAll([w, x, y, z])
  {
    SequenceBytes3(w, x, y);
    FlattenAppend([Encode(w), Encode(x), Encode(y)], Encode(z));
    EncodeAllAppend([w, x, y], z);
    assert [w, x, y] + [z] == [w, x, y, z];
    assert [Encode(w), Encode(x), Encode(y)] + [Encode(z)] == [Encode(w), Encode(x), Encode(y), Encode(z)];
  }

  method BuildSm2Spki(key: PublicKey) returns (spki: seq<Byte>)
    requires BlobOk(key) && key.EccKey?
    ensures spki == Encode(SpkiItem(InfoOf(key)))
  {
    var ec := DerWrap(OID, OID_EC_PUBLIC_KEY);
    var sm2 := DerWrap(OID, OID_SM2);
    var alg := DerCollect(SEQUENCE, [ec, sm2]);
    SequenceBytes2(Item(OID, OID_EC_PUBLIC_KEY), Item(OID, OID_SM2));
    var point := [0x04];
    point := point + key.x[32..64];
    point := point + key.y[32..64];
    var bits := DerBitString(point);
    spki := DerCollect(SEQUENCE, [alg, bits]);
    SequenceBytes2(Sequence(KeyAlgorithm(InfoOf(key))), BitString(KeyBits(InfoOf(key))));
  }

  method BuildRsaSpki(key: PublicKey) returns (spki: seq<Byte>)
    requires BlobOk(key) && key.RsaKey?
    ensures spki == Encode(SpkiItem(InfoOf(key)))
  {
    var info := InfoOf(key);
    var rsa := DerWrap(OID, OID_RSA);
    assert [0x05, 0x00] == Encode(NullItem());
    var alg := DerCollect(SEQUENCE, [rsa, [0x05, 0x00]]);
    SequenceBytes2(Item(OID, OID_RSA), NullItem());
    var keyLen := key.bitLen / 8;
    var n := DerEncodeInteger(key.modulus[..keyLen]);
    var e := DerEncodeInteger(key.exponent);
    var rsaKey := DerCollect(SEQUENCE, [n, e]);
    SequenceBytes2(IntegerItem(info.n), IntegerItem(info.e));
    var bits := DerBitString(rsaKey);
    spki := DerCollect(SEQUENCE, [alg, bits]);
    SequenceBytes2(Sequence(KeyAlgorithm(info)), BitString(KeyBits(info)));
  }

  /** The part that is hashed on the token. */
  method BuildTbs(subject: Text, key: PublicKey) returns (tbs: seq<Byte>)
    requires BlobOk(key)
    ensures tbs == Encode(TbsItem(Attributes(subject), InfoOf(key)))
  {
    var spki: seq<Byte>;
    if key.EccKey? { spki := BuildSm2Spki(key); } else { spki := BuildRsaSpki(key); }
    var version := SmallInteger(0);
    SmallIntegerIsCanonical(0);
    var subjectDn := BuildSubjectDn(subject);
    var attributes := DerWrap(CONTEXT_0, []);
    tbs := DerCollect(SEQUENCE, [version, subjectDn, spki, attributes]);
    SequenceBytes4(IntegerItem(0), NameItem(Attributes(subject)), SpkiItem(InfoOf(key)), Item(CONTEXT_0, []));
  }

  /** `SEQUENCE { r, s }` over the right-aligned 32-byte halves of a token signature. */
  method SignatureBits(sig: seq<Byte>) returns (der: seq<Byte>)
    requires |sig| == 128
    ensures der == Encode(SignatureItem(Value(sig[32..64]), Value(sig[96..128])))
  {
    var r := DerEncodeInteger(sig[32..64]);
    var s := DerEncodeInteger(sig[96..128]);
    der := DerCollect(SEQUENCE, [r, s]);
    SequenceBytes2(IntegerItem(Value(sig[32..64])), IntegerItem(Value(sig[96..128])));
  }

  function AlgorithmOf(key: PublicKey): seq<Item> {
    if key.EccKey? then [Item(OID, OID_SM3_WITH_SM2)] else [Item(OID, OID_SHA256_WITH_RSA), NullItem()]
  }

  /** The final assembly around the TBS that was hashed and its signature. */
  method AssembleCsr(subject: Text, key: PublicKey, tbs: seq<Byte>, sigBits: seq<Byte>) returns (csr: seq<Byte>)
    requires BlobOk(key) && tbs == Encode(TbsItem(Attributes(subject), InfoOf(key)))
    ensures csr == Encode(CsrItem(Request(Attributes(subject), InfoOf(key), AlgorithmOf(key), sigBits)))
  {
    var sigAlg: seq<Byte>;
    if key.EccKey? {
      var oid := DerWrap(OID, OID_SM3_WITH_SM2);
      sigAlg := DerCollect(SEQUENCE, [oid]);
      FlattenOne(oid);
      EncodeAllOne(Item(OID, OID_SM3_WITH_SM2));
    } else {
      var oid := DerWrap(OID, OID_SHA256_WITH_RSA);
      assert [0x05, 0x00] == Encode(NullItem());
      sigAlg := DerCollect(SEQUENCE, [oid, [0x05, 0x00]]);
      SequenceBytes2(Item(OID, OID_SHA256_WITH_RSA), NullItem());
    }
    var bits := DerBitString(sigBits);
    csr := DerCollect(SEQUENCE, [tbs, sigAlg, bits]);
    SequenceBytes3(TbsItem(Attributes(subject), InfoOf(key)), Sequence(AlgorithmOf(key)), BitString(sigBits));
  }

  // ---------------------------------------------------------------------------
  // Two encoders of one signature
  // ---------------------------------------------------------------------------

  lemma {:induction false} DigitsBound(s: seq<Byte>)
    ensures |Digits(Value(s))| <= |s|
  {
    if s != [] {
      DigitsBound(s[..|s| - 1]);
      assert Value(s) / 256 == Value(s[..|s| - 1]);
    }
  }

  lemma SignatureShape(r: nat, s: nat)
    ensures var body := Encode(IntegerItem(r)) + Encode(IntegerItem(s));
            Encode(SignatureItem(r, s)) == [0x30] + EncodeLength(|body|) + body
  {
    EncodeAllTwo(IntegerItem(r), IntegerItem(s));
  }

  lemma IntegerFits(bytes: seq<Byte>)
    requires |bytes| <= 64
    ensures |Encode(IntegerItem(Value(bytes)))| <= 67
  {
    DigitsBound(bytes);
  }

  /** `SignData` keeps the whole 64-byte halves and writes the header by hand. */
  method SignDataDer(sig: seq<Byte>) returns (der: seq<Byte>)
    requires |sig| == 128
    ensures der == Encode(SignatureItem(Value(sig[0..64]), Value(sig[64..128])))
  {
    var r := DerEncodeInteger(sig[0..64]);
    var s := DerEncodeInteger(sig[64..128]);
    IntegerFits(sig[0..64]);
    IntegerFits(sig[64..128]);
    SignatureShape(Value(sig[0..64]), Value(sig[64..128]));
    der := HandBuiltSequence(r, s);
  }

  /** The header of `SignData` is right exactly for up to 255 bytes of content. */
  method HandBuiltSequence(r: seq<Byte>, s: seq<Byte>) returns (der: seq<Byte>)
    ensures der == Encode(Item(SEQUENCE, r + s)) <==> |r| + |s| < 256
  {
    var seqLen := |r| + |s|;
    der := [0x30];
    if seqLen < 128 {
      der := der + [seqLen];
    } else {
      der := der + [0x81];
      der := der + [seqLen % 256];
    }
    der := der + r;
    der := der + s;
    if seqLen < 256 {
      assert der == [0x30] + EncodeLength(seqLen) + (r + s);
    } else {
      assert der[1] == 0x81 && Encode(Item(SEQUENCE, r + s))[1] == 0x82;
    }
  }

  lemma SignatureIsInjective(r: nat, s: nat, r': nat, s': nat)
    requires Encode(SignatureItem(r, s)) == Encode(SignatureItem(r', s'))
    requires |SignatureItem(r, s).content| <= MAX_LENGTH && |SignatureItem(r', s').content| <= MAX_LENGTH
    ensures r == r' && s == s'
  {
    TlvRoundTrip(SignatureItem(r, s));
    TlvRoundTrip(SignatureItem(r', s'));
    assert [SignatureItem(r, s)][0] == [SignatureItem(r', s')][0];
    ReadTwoIntegersBack(r, s);
    ReadTwoIntegersBack(r', s');
  }

  lemma SignatureFits(a: seq<Byte>, b: seq<Byte>)
    requires |a| <= 64 && |b| <= 64
    ensures |SignatureItem(Value(a), Value(b)).content| <= MAX_LENGTH
  {
    IntegerFits(a);
    IntegerFits(b);
    EncodeAllTwo(IntegerItem(Value(a)), IntegerItem(Value(b)));
  }

  predicate AllZero(s: seq<Byte>) { forall i :: 0 <= i < |s| ==> s[i] == 0 }

  lemma HalvesAgree(hr: seq<Byte>, lr: seq<Byte>, hs: seq<Byte>, ls: seq<Byte>)
    requires |hr + lr| <= 64 && |hs + ls| <= 64
    ensures Encode(SignatureItem(Value(hr + lr), Value(hs + ls))) == Encode(SignatureItem(Value(lr), Value(ls)))
            <==> AllZero(hr) && AllZero(hs)
  {
    ValueZeroFront(hr, lr);
    ValueZeroFront(hs, ls);
    if Encode(SignatureItem(Value(hr + lr), Value(hs + ls))) == Encode(SignatureItem(Value(lr), Value(ls))) {
      SignatureFits(hr + lr, hs + ls);
      SignatureFits(lr, ls);
      SignatureIsInjective(Value(hr + lr), Value(hs + ls), Value(lr), Value(ls));
    }
  }

  /** The two handlers encode one token signature alike exactly when both halves are
      right-aligned, that is, when their first 32 bytes are zero. */
  lemma {:induction false} SignaturesAgree(sig: seq<Byte>)
    requires |sig| == 128
    ensures Encode(SignatureItem(Value(sig[0..64]), Value(sig[64..128])))
            == Encode(SignatureItem(Value(sig[32..64]), Value(sig[96..128])))
            <==> AllZero(sig[0..32]) && AllZero(sig[64..96])
  {
    HalvesAgree(sig[0..32], sig[32..64], sig[64..96], sig[96..128]);
    assert sig[0..64] == sig[0..32] + sig[32..64];
    assert sig[64..128] == sig[64..96] + sig[96..128];
  }

  /** One byte too far left, and the two encodings differ. */
  lemma SignaturesCanDiffer(sig: seq<Byte>)
    requires |sig| == 128 && sig[31] == 1
    ensures Encode(SignatureItem(Value(sig[0..64]), Value(sig[64..128])))
            != Encode(SignatureItem(Value(sig[32..64]), Value(sig[96..128])))
  {
    SignaturesAgree(sig);
    assert sig[0..32][31] == 1;
  }

  // ---------------------------------------------------------------------------
  // The DigestInfo signed for RSA
  // ---------------------------------------------------------------------------

  const SHA256_DIGEST_INFO_PREFIX: seq<Byte> :=
    [0x30, 0x31, 0x30, 0x0d, 0x06, 0x09, 0x60, 0x86, 0x48, 0x01, 0x65, 0x03, 0x04, 0x02, 0x01, 0x05, 0x00, 0x04, 0x20]

  /** Section 9.2 of RFC 8017, for SHA-256. */
  function DigestInfoItem(hash: seq<Byte>): Item {
    Sequence([Sequence([Item(OID, OID_SHA256), NullItem()]), Item(0x04, hash)])
  }

  const SHA256_ALGORITHM: seq<Byte> :=
    [0x30, 0x0d, 0x06, 0x09, 0x60, 0x86, 0x48, 0x01, 0x65, 0x03, 0x04, 0x02, 0x01, 0x05, 0x00]

  lemma Sha256AlgorithmBytes()
    ensures Encode(Sequence([Item(OID, OID_SHA256), NullItem()])) == SHA256_ALGORITHM
  {
    EncodeAllTwo(Item(OID, OID_SHA256), NullItem());
  }

  lemma DigestInfoShape(hash: seq<Byte>)
    ensures var octets := Encode(Item(0x04, hash));
            Encode(DigestInfoItem(hash)) == [0x30] + EncodeLength(15 + |octets|) + (SHA256_ALGORITHM + octets)
  {
    Sha256AlgorithmBytes();
    EncodeAllTwo(Sequence([Item(OID, OID_SHA256), NullItem()]), Item(0x04, hash));
  }

  /** The fixed prefix makes a DigestInfo exactly when the token returned 32 bytes. */
  lemma DigestInfoPrefix(hash: seq<Byte>)
    ensures SHA256_DIGEST_INFO_PREFIX + hash == Encode(DigestInfoItem(hash)) <==> |hash| == 32
  {
    DigestInfoShape(hash);
    var octets := Encode(Item(0x04, hash));
    var n := 15 + |octets|;
    assert (SHA256_DIGEST_INFO_PREFIX + hash)[1] == 0x31;
    assert ([0x30] + EncodeLength(n) + (SHA256_ALGORITHM + octets))[1] == EncodeLength(n)[0];
    if |hash| == 32 {
      assert octets == [0x04, 0x20] + hash;
      assert SHA256_DIGEST_INFO_PREFIX == [0x30, 0x31] + SHA256_ALGORITHM + [0x04, 0x20];
    }
  }
}
