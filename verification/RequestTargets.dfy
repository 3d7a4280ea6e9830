/** Which provider, device and application each request is about, told from the names it
    carries; and that a PIN for three names opens exactly the requests on those names. */
module RequestTargets {
  import opened Options
  import opened Bytes
  import opened Text
  import opened CertKey
  import opened Handlers
  import opened Connection

  const SLASH_CODE: Byte := 47

  function Joined(a: Text, b: Text): Text { a + [SLASH_CODE] + b }

  /** The word `default`. */
  const DEFAULT_WORD: Text := [100, 101, 102, 97, 117, 108, 116]

  /** The methods that take a certificate key; `CheckPIN` with three parts or more, the
      others with a container after them. */
  predicate Keyed(m: Method) { m in {SignData, RsaSignData, EncryptData, DecryptData} }

  /** The methods that do not fold an empty or default alias. */
  predicate Verbatim(m: Method) { m in {DeleteContainer, ImportCertificate, GenEccKeyPair, GenRsaKeyPair} }

  /** The request carries provider `p`, device `d`, application `a`. */
  predicate Names(req: Request, p: Text, d: Text, a: Text, container: Text) {
    && req.wellFormed && req.kind != Other
    && SLASH_CODE !in p && SLASH_CODE !in d && SLASH_CODE !in a
    && if req.kind == CheckPin then req.certKey == Joined(p, Joined(d, a))
       else if Keyed(req.kind) then req.certKey == Joined(Joined(p, Joined(d, a)), container)
       else req.provider == Some(p) && req.device == d && req.application == a
  }

  /** The alias a method makes of `p`. */
  function AliasFor(m: Method, default: Text, p: Text): Text {
    if !Verbatim(m) && (p == [] || p == DEFAULT_WORD) then default else p
  }

  lemma ThreeParts(p: Text, d: Text, a: Text)
    requires SLASH !in p && SLASH !in d && SLASH !in a
    ensures SplitN(Joined(p, Joined(d, a)), 5, SLASH) == [p, d, a]
  {
    SplitNStep(p, 5, SLASH, Joined(d, a));
    SplitNStep(d, 4, SLASH, a);
    IndexOfAbsent(a, SLASH);
    assert SplitN(a, 3, SLASH) == [a];
    assert [d] + [a] == [d, a] && [p] + [d, a] == [p, d, a];
  }

  lemma PinKeyIs(default: Text, p: Text, d: Text, a: Text)
    requires SLASH !in p && SLASH !in d && SLASH !in a
    ensures KeyOf(default, Joined(p, Joined(d, a)), 3) ==
              Some(AuthKey(if p == [] || p == DEFAULT_WORD then default else p, d, a))
  {
    ThreeParts(p, d, a);
  }

  lemma TwoParts(p: Text, d: Text)
    requires SLASH !in p && SLASH !in d
    ensures SplitN(Joined(p, d), 5, SLASH) == [p, d]
  {
    SplitNStep(p, 5, SLASH, d);
    IndexOfAbsent(d, SLASH);
    assert SplitN(d, 4, SLASH) == [d];
  }

  lemma TooFewParts(default: Text, certKey: Text, min: nat)
    requires min >= 3 && |SplitN(certKey, 5, SLASH)| < min
    ensures KeyOf(default, certKey, min) == None
  {}

  /** Two parts are too few for a PIN, three too few for a key operation. */
  lemma ShortKeysAreRefused(default: Text, req: Request, p: Text, d: Text, a: Text)
    requires SLASH !in p && SLASH !in d && SLASH !in a
    ensures req.kind == CheckPin && req.certKey == Joined(p, d) ==> Target(default, req) == None
    ensures Keyed(req.kind) && req.certKey == Joined(p, Joined(d, a)) ==> Target(default, req) == None
  {
    if req.kind == CheckPin && req.certKey == Joined(p, d) {
      assert KeyOf(default, req.certKey, 3) == None by {
        TwoParts(p, d);
        TooFewParts(default, req.certKey, 3);
      }
    } else if Keyed(req.kind) && req.certKey == Joined(p, Joined(d, a)) {
      assert KeyOf(default, req.certKey, 4) == None by {
        ThreeParts(p, d, a);
        TooFewParts(default, req.certKey, 4);
      }
    }
  }

  /** Every method takes provider, device and application from the names it was given, in
      that order. */
  lemma TargetIsNamed(default: Text, req: Request, p: Text, d: Text, a: Text, container: Text)
    requires Names(req, p, d, a, container)
    ensures Target(default, req) == Some(AuthKey(AliasFor(req.kind, default, p), d, a))
  {
    PinKeyIs(default, p, d, a);
    if Keyed(req.kind) { PinKeyCoversExtensions(default, Joined(p, Joined(d, a)), container); }
  }

  /** Without an alias the default one is meant, except that the key generators ask for
      one. */
  lemma TargetWithoutAlias(default: Text, req: Request)
    requires req.wellFormed && req.provider == None
    requires req.kind in {CreateContainer, GetContainerType, CreatePkcs10, DeleteContainer,
                          ImportCertificate, GenEccKeyPair, GenRsaKeyPair}
    ensures Target(default, req) ==
              if req.kind == GenEccKeyPair || req.kind == GenRsaKeyPair then None
              else Some(AuthKey(default, req.device, req.application))
  {}

  /** A `CheckPIN` and a request on the same three names are about the same application,
      except when a method that takes the alias as it stands is given one that stands for
      another. */
  lemma SameNamesSameTarget(default: Text, pin: Request, req: Request, p: Text, d: Text, a: Text, container: Text)
    requires pin.kind == CheckPin && Names(pin, p, d, a, container) && Names(req, p, d, a, container)
    ensures !Verbatim(req.kind) ==> Target(default, pin) == Target(default, req)
    ensures Verbatim(req.kind) ==>
              (Target(default, pin) == Target(default, req) <==> (p == [] || p == DEFAULT_WORD ==> p == default))
  {
    TargetIsNamed(default, pin, p, d, a, container);
    TargetIsNamed(default, req, p, d, a, container);
  }

  /** A PIN, and then a gated request the provider grants within the lifetime: it succeeds
      if and only if it names that device and that application under that provider. */
  lemma PinOpensExactlyItsNames(default: Text, ttl: nat, reqs: seq<Request>, entry: Entry,
                                p: Text, d: Text, a: Text, p': Text, d': Text, a': Text, container: Text)
    requires |reqs| == 2 && ClockForward(reqs) && (forall r :: r in reqs ==> Lawful(r) && !r.timedOut)
    requires reqs[0].kind == CheckPin && Names(reqs[0], p, d, a, container) && ProviderWilling(reqs[0])
    requires Gated(reqs[1].kind) && Names(reqs[1], p', d', a', container) && ProviderWilling(reqs[1])
    requires reqs[1].now < reqs[0].now + ttl && Justified(default, ttl, reqs, 1, entry)
    ensures entry.outcome == Done || entry.outcome == Denied
    ensures entry.outcome == Done <==>
              && AliasFor(reqs[1].kind, default, p') == AliasFor(CheckPin, default, p)
              && d' == d && a' == a
  {
    TargetIsNamed(default, reqs[0], p, d, a, container);
    TargetIsNamed(default, reqs[1], p', d', a', container);
    var key := Target(default, reqs[1]).value;
    if Target(default, reqs[0]) == Some(key) { assert Backs(default, reqs, 0, 1, key); }
    assert Target(default, reqs[0]) != Some(key) ==> forall j: nat :: !Backs(default, reqs, j, 1, key);
  }

  /** A PIN, something in between, and a gated request on the same application that the
      provider grants. */
  ghost predicate Between(default: Text, reqs: seq<Request>, key: AuthKey) {
    && |reqs| == 3 && ClockForward(reqs) && (forall r :: r in reqs ==> Lawful(r))
    && VerifiesPin(default, reqs[0], key)
    && !reqs[2].timedOut && Gated(reqs[2].kind) && Target(default, reqs[2]) == Some(key) && ProviderWilling(reqs[2])
    && reqs[1].kind != CheckPin
  }

  /** Between the two a login ends by a timeout or a failed task, by a device of that name
      and provider that does not connect, or by age; and by nothing else a handler does,
      but for an application that does not open. */
  lemma WhatEndsALogin(default: Text, ttl: nat, reqs: seq<Request>, key: AuthKey, entry: Entry)
    requires Between(default, reqs, key) && Justified(default, ttl, reqs, 2, entry)
    ensures reqs[1].timedOut ==> entry.outcome == Denied
    ensures reqs[2].now >= reqs[0].now + ttl ==> entry.outcome == Denied
    ensures !reqs[1].timedOut && Target(default, reqs[1]).Some? && reqs[2].now < reqs[0].now + ttl ==>
              var other, a := Target(default, reqs[1]).value, reqs[1].answers;
              var lost := |a| > 0 && a[0] && !(|a| > 1 && a[1]);
              var closed := |a| > 1 && a[0] && a[1] && !(|a| > 2 && a[2]) && reqs[1].kind != CreatePkcs10;
              entry.outcome == if other.provider == key.provider && other.device == key.device && (lost || closed)
                               then Denied else Done
  {
    assert !VerifiesPin(default, reqs[1], key);
    assert Backs(default, reqs, 0, 2, key) <==> !Forgets(default, reqs[1], key);
    assert forall j: nat :: Backs(default, reqs, j, 2, key) ==> j == 0;
  }
}
