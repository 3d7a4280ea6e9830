/** Fixed texts and bytes the program must read or print, with the inputs written out. */
module KnownAnswers {
  import opened Options
  import opened Resources
  import opened Bytes
  import opened Text
  import opened Der
  import opened Subject
  import Base64
  import Handles
  import Pem

  // ---------------------------------------------------------------------------
  // The nine keys of a subject, in either case
  // ---------------------------------------------------------------------------

  const UTF8: Byte := 0x0C
  const PRINTABLE: Byte := 0x13

  /** `key=value` is read as one attribute with this identifier and kind of string. */
  ghost predicate Reads(key: string, value: Text, oid: seq<Byte>, tag: Byte) {
    Attributes(Ascii(key) + [61] + value) == [Attribute(oid, tag, Trim(value))]
  }

  lemma NoSpaceToTrim(s: Text)
    requires s != [] && !IsSpace(s[0]) && !IsSpace(s[|s| - 1])
    ensures Trim(s) == s
  {}

  lemma KeyIsRead(key: Text, upper: Text, value: Text, oid: seq<Byte>, tag: Byte)
    requires key != [] && !IsSpace(key[0]) && !IsSpace(key[|key| - 1]) && 61 !in key && 44 !in key && 44 !in value
    requires Upper(key) == upper && OidOf(upper) == Some(oid)
    requires tag == if upper == KEY_C then PRINTABLE_STRING else UTF8_STRING
    ensures Attributes(key + [61] + value) == [Attribute(oid, tag, Trim(value))]
  {
    NoSpaceToTrim(key);
    KeyValueFragment(key, value);
  }

  lemma CommonName(value: Text)
    requires 44 !in value
    ensures Reads("CN", value, [0x55, 0x04, 0x03], UTF8) && Reads("cn", value, [0x55, 0x04, 0x03], UTF8)
  {
    assert Ascii("CN") == [67, 78] && Ascii("cn") == [99, 110];
    KeyIsRead([67, 78], [67, 78], value, [0x55, 0x04, 0x03], UTF8);
    KeyIsRead([99, 110], [67, 78], value, [0x55, 0x04, 0x03], UTF8);
  }

  lemma Organization(value: Text)
    requires 44 !in value
    ensures Reads("O", value, [0x55, 0x04, 0x0A], UTF8) && Reads("o", value, [0x55, 0x04, 0x0A], UTF8)
  {
    assert Ascii("O") == [79] && Ascii("o") == [111];
    KeyIsRead([79], [79], value, [0x55, 0x04, 0x0A], UTF8);
    KeyIsRead([111], [79], value, [0x55, 0x04, 0x0A], UTF8);
  }

  lemma OrganizationalUnit(value: Text)
    requires 44 !in value
    ensures Reads("OU", value, [0x55, 0x04, 0x0B], UTF8) && Reads("ou", value, [0x55, 0x04, 0x0B], UTF8)
  {
    assert Ascii("OU") == [79, 85] && Ascii("ou") == [111, 117];
    KeyIsRead([79, 85], [79, 85], value, [0x55, 0x04, 0x0B], UTF8);
    KeyIsRead([111, 117], [79, 85], value, [0x55, 0x04, 0x0B], UTF8);
  }

  /** The one attribute that is a PrintableString. */
  lemma Country(value: Text)
    requires 44 !in value
    ensures Reads("C", value, [0x55, 0x04, 0x06], PRINTABLE) && Reads("c", value, [0x55, 0x04, 0x06], PRINTABLE)
  {
    assert Ascii("C") == [67] && Ascii("c") == [99];
    KeyIsRead([67], [67], value, [0x55, 0x04, 0x06], PRINTABLE);
    KeyIsRead([99], [67], value, [0x55, 0x04, 0x06], PRINTABLE);
  }

  lemma StateOrProvince(value: Text)
    requires 44 !in value
    ensures Reads("ST", value, [0x55, 0x04, 0x08], UTF8) && Reads("st", value, [0x55, 0x04, 0x08], UTF8)
  {
    assert Ascii("ST") == [83, 84] && Ascii("st") == [115, 116];
    KeyIsRead([83, 84], [83, 84], value, [0x55, 0x04, 0x08], UTF8);
    KeyIsRead([115, 116], [83, 84], value, [0x55, 0x04, 0x08], UTF8);
  }

  lemma Locality(value: Text)
    requires 44 !in value
    ensures Reads("L", value, [0x55, 0x04, 0x07], UTF8) && Reads("l", value, [0x55, 0x04, 0x07], UTF8)
  {
    assert Ascii("L") == [76] && Ascii("l") == [108];
    KeyIsRead([76], [76], value, [0x55, 0x04, 0x07], UTF8);
    KeyIsRead([108], [76], value, [0x55, 0x04, 0x07], UTF8);
  }

  const EMAIL_OID: seq<Byte> := [0x2A, 0x86, 0x48, 0x86, 0xF7, 0x0D, 0x01, 0x09, 0x01]

  lemma Email(value: Text)
    requires 44 !in value
    ensures Reads("E", value, EMAIL_OID, UTF8) && Reads("e", value, EMAIL_OID, UTF8)
  {
    assert Ascii("E") == [69] && Ascii("e") == [101];
    KeyIsRead([69], [69], value, EMAIL_OID, UTF8);
    KeyIsRead([101], [69], value, EMAIL_OID, UTF8);
  }

  lemma EmailInFull(value: Text)
    requires 44 !in value
    ensures Reads("Email", value, EMAIL_OID, UTF8)
  {
    var key, upper := [69, 109, 97, 105, 108], [69, 77, 65, 73, 76];
    assert Ascii("Email") == key && Upper(key) == upper;
    KeyIsRead(key, upper, value, EMAIL_OID, UTF8);
  }

  lemma EmailAddress(value: Text)
    requires 44 !in value
    ensures Reads("emailAddress", value, EMAIL_OID, UTF8)
  {
    var key := [101, 109, 97, 105, 108, 65, 100, 100, 114, 101, 115, 115];
    var upper := [69, 77, 65, 73, 76, 65, 68, 68, 82, 69, 83, 83];
    assert Ascii("emailAddress") == key && Upper(key) == upper;
    KeyIsRead(key, upper, value, EMAIL_OID, UTF8);
  }

  /** White space around key and value goes, inside it stays, and the value may hold
      another equals sign: ` cn = a=b ` names `a=b`. */
  lemma SpacesAndEquals()
    ensures Attributes(Ascii(" cn = a=b ")) == [Attribute([0x55, 0x04, 0x03], UTF8, Ascii("a=b"))]
  {
    var key, value := [32, 99, 110, 32], [32, 97, 61, 98, 32];
    assert Ascii(" cn = a=b ") == key + [61] + value;
    assert Ascii("a=b") == [97, 61, 98];
    assert Trim(key) == [99, 110] by {
      assert key[1..] == [99, 110, 32] && TrimStart(key) == [99, 110, 32];
      assert [99, 110, 32][..2] == [99, 110];
    }
    assert Upper([99, 110]) == [67, 78];
    assert Trim(value) == [97, 61, 98] by {
      assert value[1..] == [97, 61, 98, 32] && TrimStart(value) == [97, 61, 98, 32];
      assert [97, 61, 98, 32][..3] == [97, 61, 98];
    }
    KeyValueFragment(key, value);
  }

  lemma CountryIsRead()
    ensures Attributes(Ascii("C=CN")) == [Attribute([0x55, 0x04, 0x06], PRINTABLE, [0x43, 0x4E])]
  {
    assert Ascii("C=CN") == Ascii("C") + [61] + [67, 78];
    Country([67, 78]);
    NoSpaceToTrim([67, 78]);
  }

  lemma CountryAttribute(a: Attribute)
    requires a == Attribute([0x55, 0x04, 0x06], PRINTABLE, [0x43, 0x4E])
    ensures Encode(AttributeItem(a)) == [0x30, 0x09, 0x06, 0x03, 0x55, 0x04, 0x06, 0x13, 0x02, 0x43, 0x4E]
  {
    EncodeAllTwo(Item(0x06, [0x55, 0x04, 0x06]), Item(0x13, [0x43, 0x4E]));
  }

  lemma CountryRdn(a: Attribute)
    requires a == Attribute([0x55, 0x04, 0x06], PRINTABLE, [0x43, 0x4E])
    ensures Encode(RdnItem(a)) == [0x31, 0x0B, 0x30, 0x09, 0x06, 0x03, 0x55, 0x04, 0x06, 0x13, 0x02, 0x43, 0x4E]
  {
    CountryAttribute(a);
    EncodeAllOne(AttributeItem(a));
  }

  lemma OneRdn(a: Attribute, rdn: seq<Byte>)
    requires Encode(RdnItem(a)) == rdn && |rdn| < 128
    ensures Encode(NameItem([a])) == [0x30, |rdn|] + rdn
  {
    assert RdnItems([a]) == [RdnItem(a)];
    EncodeAllOne(RdnItem(a));
  }

  /** The Name of `C=CN` in full. */
  lemma CountryName(a: Attribute)
    requires a == Attribute([0x55, 0x04, 0x06], PRINTABLE, [0x43, 0x4E])
    ensures Encode(NameItem([a])) ==
              [0x30, 0x0D, 0x31, 0x0B, 0x30, 0x09, 0x06, 0x03, 0x55, 0x04, 0x06, 0x13, 0x02, 0x43, 0x4E]
  {
    CountryRdn(a);
    OneRdn(a, [0x31, 0x0B, 0x30, 0x09, 0x06, 0x03, 0x55, 0x04, 0x06, 0x13, 0x02, 0x43, 0x4E]);
  }

  // ---------------------------------------------------------------------------
  // Lengths and integers
  // ---------------------------------------------------------------------------

  lemma LengthForms()
    ensures EncodeLength(0) == [0x00] && EncodeLength(127) == [0x7F] && EncodeLength(128) == [0x81, 0x80]
    ensures EncodeLength(255) == [0x81, 0xFF] && EncodeLength(256) == [0x82, 0x01, 0x00]
    ensures EncodeLength(300) == [0x82, 0x01, 0x2C] && EncodeLength(65535) == [0x82, 0xFF, 0xFF]
  {}

  lemma IntegerForms()
    ensures Value([0x01, 0x02]) == 258 && Value([0x00, 0x00, 0x2A]) == 42
    ensures Encode(IntegerItem(0)) == [0x02, 0x01, 0x00] && Encode(IntegerItem(42)) == [0x02, 0x01, 0x2A]
    ensures Encode(IntegerItem(128)) == [0x02, 0x02, 0x00, 0x80] && Encode(IntegerItem(258)) == [0x02, 0x02, 0x01, 0x02]
  {
    Value2([0x01, 0x02]);
    LeadingZeros([0x00, 0x00, 0x2A], 2);
    Value1([0x2A]);
    Value1([0x80]);
    assert [0x00, 0x00, 0x2A][2..] == [0x2A];
    IntegerBodyIsOnly([0x2A]);
    Value2([0x00, 0x80]);
    IntegerBodyIsOnly([0x00, 0x80]);
    IntegerBodyIsOnly([0x01, 0x02]);
  }

  // ---------------------------------------------------------------------------
  // Base64, handles, PEM
  // ---------------------------------------------------------------------------

  /** Table 1 of RFC 4648. */
  lemma Alphabet(v: nat)
    requires v < 64
    ensures v < 26 ==> Base64.ToSymbol(v) == 'A' as int + v
    ensures 26 <= v < 52 ==> Base64.ToSymbol(v) == 'a' as int + v - 26
    ensures 52 <= v < 62 ==> Base64.ToSymbol(v) == '0' as int + v - 52
    ensures Base64.ToSymbol(62) == '+' as int && Base64.ToSymbol(63) == '/' as int
  {}

  /** A full group and both padded ones: `Man`, `Ma`, `M`. */
  lemma ManInBase64()
    ensures Base64.Encode([77, 97, 110]) == Ascii("TWFu")
    ensures Base64.Encode([77, 97]) == Ascii("TWE=")
    ensures Base64.Encode([77]) == Ascii("TQ==")
  {
    assert Ascii("TWFu") == [84, 87, 70, 117] && Ascii("TWE=") == [84, 87, 69, 61] && Ascii("TQ==") == [84, 81, 61, 61];
    assert Base64.Group3(77, 97, 110) + [] == Base64.Group3(77, 97, 110);
  }

  /** The texts of handles. */
  lemma HandleTexts()
    ensures Handles.Mint(Device, 1) == Ascii("dev-1") && Handles.Mint(Application, 2) == Ascii("app-2")
    ensures Handles.Mint(Container, 3) == Ascii("cnt-3") && Handles.Mint(Digest, 10) == Ascii("hsh-10")
  {
    assert Handles.Decimal(10) == [49, 48];
    assert Handles.Mint(Device, 1) == [100, 101, 118, 45, 49] == Ascii("dev-1");
    assert Handles.Mint(Application, 2) == [97, 112, 112, 45, 50] == Ascii("app-2");
    assert Handles.Mint(Container, 3) == [99, 110, 116, 45, 51] == Ascii("cnt-3");
    assert Handles.Mint(Digest, 10) == [104, 115, 104, 45, 49, 48] == Ascii("hsh-10");
  }

  /** A digest handle of another session is unknown; a device handle, an old pointer in
      decimal or the empty text is of the wrong kind. */
  lemma ForeignHandles()
    ensures Handles.LedgerLookup([], Digest, Ascii("hsh-7")) == Handles.Unknown
    ensures Handles.LedgerLookup([], Digest, Ascii("dev-7")) == Handles.WrongKind
    ensures Handles.LedgerLookup([], Digest, Ascii("42")) == Handles.WrongKind
    ensures Handles.LedgerLookup([], Digest, []) == Handles.WrongKind
  {
    assert Ascii("hsh-7") == [104, 115, 104] + [45] + [55] && Ascii("dev-7") == [100, 101, 118] + [45] + [55];
    IndexOfConcat([104, 115, 104], 45, [55]);
    IndexOfConcat([100, 101, 118], 45, [55]);
    assert Ascii("hsh-7")[..3] == [104, 115, 104] && Ascii("dev-7")[..3] == [100, 101, 118];
    assert Ascii("42") == [52, 50];
    IndexOfAbsent([52, 50], 45);
  }

  /** A request of one line. */
  lemma OneLinePem()
    ensures Pem.PemText(Ascii("TQ==")) ==
              Ascii("-----BEGIN CERTIFICATE REQUEST-----") + [10] + Ascii("TQ==") + [10]
              + Ascii("-----END CERTIFICATE REQUEST-----")
  {
    var body := Ascii("TQ==");
    var lines: seq<Text> := [body];
    assert Pem.Chunks(body) == lines && lines[1..] == [];
    assert Pem.Unlines(lines) == body + [10] + [];
  }
}
