/** `CreatePKCS10` from subject and key to PEM, and what a reader makes of the result. */
module CreateRequest {
  import opened Options
  import opened Bytes
  import opened Text
  import opened Der
  import opened Subject
  import opened Csr
  import Base64
  import Pem

  /** What the token signs with: any function of the bytes it was given to hash. */
  type Signer = seq<Byte> -> seq<Byte>

  function SignatureIn(key: PublicKey, raw: seq<Byte>): seq<Byte>
    requires key.EccKey? ==> |raw| == 128
  {
    if key.EccKey? then Encode(SignatureItem(Value(raw[32..64]), Value(raw[96..128]))) else raw
  }

  /** The bytes inside a PEM text, as the issuing side takes them out. */
  function FromPem(pem: Text): Option<seq<Byte>> { Base64.Decode(Pem.StripPem(pem)) }

  function DecodePem(pem: Text): Option<Request> {
    var der := FromPem(pem);
    if der.None? then None else DecodeCsr(der.value)
  }

  function SignedBytesOfPem(pem: Text): Option<seq<Byte>> {
    var der := FromPem(pem);
    if der.None? then None else SignedBytes(der.value)
  }

  function RequestFor(subject: Text, key: PublicKey, raw: seq<Byte>): Request
    requires BlobOk(key) && (key.EccKey? ==> |raw| == 128)
  {
    Request(Attributes(subject), InfoOf(key), AlgorithmOf(key), SignatureIn(key, raw))
  }

  /** What a reader gets out of a request that was assembled and printed. */
  lemma PrintedIsRead(req: Request, pem: Text)
    requires PointOk(req.key) && pem == Pem.PemText(Base64.Encode(Encode(CsrItem(req))))
    ensures DecodePem(pem) == Some(req) <==> |CsrItem(req).content| <= MAX_LENGTH
    ensures |CsrItem(req).content| <= MAX_LENGTH ==>
              SignedBytesOfPem(pem) == Some(Encode(TbsItem(req.subject, req.key)))
  {
    var csr := Encode(CsrItem(req));
    Pem.RequestRoundTrip(csr);
    assert FromPem(pem) == Some(csr);
    CsrRoundTrip(req);
    if |CsrItem(req).content| <= MAX_LENGTH { SignedBytesAreTbs(req); }
  }

  lemma NoBreaks(csr: seq<Byte>)
    ensures NEWLINE !in Base64.Encode(csr)
  {
    Base64.EncodeIsSymbols(csr);
    assert !Base64.IsSymbol(NEWLINE);
  }

  /** What the printed request says, in the token's own bytes: the right-aligned point or
      the two RSA numbers, the algorithm by its identifier, and the signature. */
  ghost predicate Says(req: Request, subject: Text, key: PublicKey, raw: seq<Byte>) {
    && req.subject == Attributes(subject)
    && match key
       case EccKey(x, y) =>
         && |x| == 64 && |y| == 64 && |raw| == 128
         && req.key == Sm2Point(x[32..64], y[32..64])
         && req.algorithm == [Item(0x06, [0x2A, 0x81, 0x1C, 0xCF, 0x55, 0x01, 0x83, 0x75])]
         && ReadAll(req.signature) == Some([Item(0x30, PairBytes(Value(raw[32..64]), Value(raw[96..128])))])
       case RsaKey(bitLen, modulus, exponent) =>
         && bitLen / 8 <= |modulus|
         && req.key == RsaNumbers(Value(modulus[..bitLen / 8]), Value(exponent))
         && req.algorithm == [Item(0x06, [0x2A, 0x86, 0x48, 0x86, 0xF7, 0x0D, 0x01, 0x01, 0x0B]), Item(0x05, [])]
         && req.signature == raw
  }

  /** Two INTEGERs, the first one first. */
  function PairBytes(r: nat, s: nat): seq<Byte> {
    Encode(Item(0x02, IntegerBody(r))) + Encode(Item(0x02, IntegerBody(s)))
  }

  lemma RequestSays(subject: Text, key: PublicKey, raw: seq<Byte>)
    requires BlobOk(key) && (key.EccKey? ==> |raw| == 128)
    ensures Says(RequestFor(subject, key, raw), subject, key, raw)
  {
    if key.EccKey? {
      var r, s := Value(raw[32..64]), Value(raw[96..128]);
      EncodeAllTwo(IntegerItem(r), IntegerItem(s));
      SignatureFits(raw[32..64], raw[96..128]);
      TlvRoundTrip(SignatureItem(r, s));
    }
  }

  /** The printed request decodes to its subject, key, algorithm and signature if and only
      if it fits in 65535 bytes; then the bytes a reader finds signed are the very bytes
      the token hashed, and the signature is the token's over them. */
  method CreatePem(subject: Text, key: PublicKey, sign: Signer) returns (tbs: seq<Byte>, pem: Text)
    requires BlobOk(key) && (key.EccKey? ==> forall t :: |sign(t)| == 128)
    ensures var req := RequestFor(subject, key, sign(tbs));
            && (DecodePem(pem) == Some(req) <==> |CsrItem(req).content| <= MAX_LENGTH)
            && (|CsrItem(req).content| <= MAX_LENGTH ==>
                  && SignedBytesOfPem(pem) == Some(tbs)
                  && Says(DecodePem(pem).value, subject, key, sign(tbs)))
  {
    tbs := BuildTbs(subject, key);
    var raw := sign(tbs);
    var sigBits := raw;
    if key.EccKey? { sigBits := SignatureBits(raw); }
    var csr := AssembleCsr(subject, key, tbs, sigBits);
    NoBreaks(csr);
    pem := Pem.PrintPem(Base64.Encode(csr));
    PrintedIsRead(RequestFor(subject, key, raw), pem);
    RequestSays(subject, key, raw);
  }
}
