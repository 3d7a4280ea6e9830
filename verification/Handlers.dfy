/**
 The twelve domain handlers over one session: open device, open application,
 authorize, open container, operate, with an early return after every failure.  The
 vendor is an arbitrary list of answers; guards are dropped when a handler returns,
 last declared first.
 */
module Handlers {
  import opened Options
  import opened Resources
  import opened Text
  import opened CertKey
  import opened Auth

  datatype Method =
    | CheckPin | CreateContainer | DeleteContainer | GetContainerType | ImportCertificate
    | GenEccKeyPair | GenRsaKeyPair | SignData | RsaSignData | EncryptData | DecryptData | CreatePkcs10
    | Other   // every other branch: it may check and clear grants, never give one

  /** One request.  `wellFormed` stands for the parameter and base64 checks, `answers`
      for what the provider says to each call in turn, `now` for the one clock reading
      a handler makes, and `timedOut` for a request whose task was given up or failed. */
  datatype Request = Request(
    kind: Method,
    wellFormed: bool,
    certKey: Text,
    provider: Option<Text>,
    device: Text,
    application: Text,
    symKey: Option<nat>,        // decoded length of the optional SM4 key
    namedContainer: bool,
    isEcc: bool,
    containerType: nat,
    now: Time,
    timedOut: bool,
    answers: seq<bool>,
    noted: seq<AuthEvent>)      // what an `Other` request does to the grants

  datatype Outcome = Done | BadRequest | LoadFailed | Denied | Failed | TimedOut

  // ---------------------------------------------------------------------------
  // The provider of one request
  // ---------------------------------------------------------------------------

  datatype Operation =
    | VerifyPin | DeleteIt | QueryType | ImportIt | GenEcc | GenRsa | SignEcc | SignRsa
    | SetKey | Encrypt | Decrypt | Random | DigestUpdate | DigestFinal

  datatype Event = Opened(what: Kind) | Closed(what: Kind) | Did(op: Operation)

  /** The resource a call needs open. */
  function On(op: Operation): Kind {
    match op
    case VerifyPin => Application
    case DeleteIt => Application
    case Random => Device
    case DigestUpdate => Digest
    case DigestFinal => Digest
    case _ => Container
  }

  function ParentOf(r: Kind): Option<Kind> {
    match r
    case Device => None
    case Application => Some(Device)
    case Container => Some(Application)
    case Digest => Some(Device)
  }

  /** What a request did with the provider, in order. */
  datatype Trace = Start | Then(before: Trace, last: Event)

  /** The stack of open resources after a trace, `None` once an open lacks its parent,
      a call lacks its resource, or a close is not of the last one opened. */
  function Nesting(trace: Trace): Option<seq<Kind>> {
    match trace
    case Start => Some([])
    case Then(before, e) =>
      var n := Nesting(before);
      if n.None? then None else
      var open := n.value;
      match e
      case Opened(r) =>
        if r in open || (ParentOf(r).Some? && ParentOf(r).value !in open) then None else Some(open + [r])
      case Closed(r) =>
        if open == [] || open[|open| - 1] != r then None else Some(open[..|open| - 1])
      case Did(op) => if On(op) in open then n else None
  }

  /** The trace reaches a container, a key, a digest or a PIN. */
  predicate Touched(trace: Trace) {
    match trace
    case Start => false
    case Then(before, e) =>
      Touched(before) || e.Did? || (e.Opened? && (e.what == Container || e.what == Digest))
  }

  /** The trace without its closes: what was asked for and obtained, in order. */
  function Forward(trace: Trace): Trace {
    match trace
    case Start => Start
    case Then(before, e) => if e.Closed? then Forward(before) else Then(Forward(before), e)
  }

  function Answer(answers: seq<bool>, i: nat): bool { i < |answers| && answers[i] }

  class Provider {
    const answers: seq<bool>
    var pos: nat
    var trace: Trace
    var scope: seq<Kind>    // guards alive, in order of declaration
    ghost var forward: Trace

    ghost predicate Valid()
      reads this
    {
      Nesting(trace) == Some(scope) && forward == Forward(trace)
    }

    constructor (answers: seq<bool>)
      ensures Valid() && this.answers == answers && pos == 0 && trace == Start && scope == []
      ensures forward == Start
    {
      this.answers := answers;
      pos, trace, scope, forward := 0, Start, [], Start;
    }

    method Ask() returns (ok: bool)
      modifies this`pos
      ensures ok == Answer(answers, old(pos)) && pos == old(pos) + 1
    {
      ok := pos < |answers| && answers[pos];
      pos := pos + 1;
    }

    method Open(r: Kind) returns (ok: bool)
      requires Valid() && r !in scope && (ParentOf(r).Some? ==> ParentOf(r).value in scope)
      modifies this
      ensures Valid() && ok == Answer(answers, old(pos)) && pos == old(pos) + 1
      ensures trace == if ok then Then(old(trace), Opened(r)) else old(trace)
      ensures scope == if ok then old(scope) + [r] else old(scope)
      ensures forward == if ok then Then(old(forward), Opened(r)) else old(forward)
    {
      ok := Ask();
      if ok {
        trace := Then(trace, Opened(r));
        scope := scope + [r];
        forward := Then(forward, Opened(r));
      }
    }

    method Do(op: Operation) returns (ok: bool)
      requires Valid() && On(op) in scope
      modifies this`pos, this`trace, this`forward
      ensures Valid() && ok == Answer(answers, old(pos)) && pos == old(pos) + 1
      ensures trace == Then(old(trace), Did(op)) && forward == Then(old(forward), Did(op))
    {
      forward := Then(forward, Did(op));
      trace := Then(trace, Did(op));
      ok := Ask();
    }

    /** Drop the guard declared last. */
    method DropLast()
      requires Valid() && scope != []
      modifies this`trace, this`scope
      ensures Valid() && scope == old(scope)[..|old(scope)| - 1]
      ensures trace == Then(old(trace), Closed(old(scope)[|old(scope)| - 1]))
    {
      trace := Then(trace, Closed(scope[|scope| - 1]));
      scope := scope[..|scope| - 1];
    }

    /** What returning does: drop every guard in scope, last declared first. */
    method Unwind()
      requires Valid()
      modifies this`trace, this`scope
      ensures Valid() && scope == []
      ensures Touched(trace) == Touched(old(trace)) && forward == old(forward)
    {
      while scope != []
        invariant Valid()
        invariant Touched(trace) == Touched(old(trace))
        decreases |scope|
      {
        DropLast();
      }
    }
  }

  // ---------------------------------------------------------------------------
  // What a request asks for and what it needs
  // ---------------------------------------------------------------------------

  predicate Gated(m: Method) { m !in {CheckPin, DeleteContainer, GetContainerType, Other} }

  /** Outside the twelve handlers nothing grants, and checks use the request's clock. */
  ghost predicate Lawful(req: Request) {
    forall e :: e in req.noted ==> e.Invalidated? || (e.Checked? && e.at == req.now)
  }

  function OrElse(o: Option<Text>, default: Text): Text { if o.Some? then o.value else default }

  /** An absent or empty alias means the default one. */
  function Folded(default: Text, req: Request): AuthKey {
    AuthKey(NormalizeAlias(default, OrElse(req.provider, [])), req.device, req.application)
  }

  /** The provider, device and application a request is about, as its handler derives
      them; `None` when the handler rejects the request before any provider call. */
  function Target(default: Text, req: Request): Option<AuthKey> {
    if !req.wellFormed || req.kind == Other then None else
    match req.kind
    case CheckPin => KeyOf(default, req.certKey, 3)
    case SignData => KeyOf(default, req.certKey, 4)
    case RsaSignData => KeyOf(default, req.certKey, 4)
    case EncryptData => KeyOf(default, req.certKey, 4)
    case DecryptData => KeyOf(default, req.certKey, 4)
    case CreateContainer => Some(Folded(default, req))
    case GetContainerType => Some(Folded(default, req))
    case CreatePkcs10 => Some(Folded(default, req))
    case DeleteContainer => Some(AuthKey(OrElse(req.provider, default), req.device, req.application))
    case ImportCertificate => Some(AuthKey(OrElse(req.provider, default), req.device, req.application))
    case GenEccKeyPair =>
      if req.provider.None? then None else Some(AuthKey(req.provider.value, req.device, req.application))
    case GenRsaKeyPair =>
      if req.provider.None? then None else Some(AuthKey(req.provider.value, req.device, req.application))
  }

  predicate Both(req: Request, i: nat) { Answer(req.answers, i) && Answer(req.answers, i + 1) }

  /** Library resolved, device connected, application opened. */
  predicate Reached(req: Request) { Both(req, 0) && Answer(req.answers, 2) }

  /** The provider grants everything the handler cannot do without. */
  predicate ProviderWilling(req: Request) {
    && Reached(req)
    && match req.kind
       case CheckPin => Both(req, 3)
       case CreateContainer => Answer(req.answers, 3)
       case DeleteContainer => Answer(req.answers, 3)
       case GetContainerType => Both(req, 3)
       case SignData => Answer(req.answers, 3) && Answer(req.answers, 5)
       case EncryptData => CipherWilling(req)
       case DecryptData => CipherWilling(req)
       case CreatePkcs10 => RequestWilling(req)
       case _ => Both(req, 3)
  }

  predicate CipherWilling(req: Request) {
    && Answer(req.answers, 3)
    && if req.symKey.None? then Answer(req.answers, 4) else req.symKey.value == 16 && Both(req, 4)
  }

  predicate FiveMore(req: Request, i: nat) { Both(req, i) && Both(req, i + 2) && Answer(req.answers, i + 4) }

  /** A failed create is forgiven when the caller named an existing container; a
      failed random never matters. */
  predicate RequestWilling(req: Request) {
    var c := if req.namedContainer then 3 else 4;
    var g := if Answer(req.answers, c) then c + 1 else c + 2;
    && (Answer(req.answers, c) || (req.namedContainer && Answer(req.answers, c + 1)))
    && FiveMore(req, g)
  }

  function Opening(): Trace { Then(Then(Start, Opened(Device)), Opened(Application)) }

  function Inside(): Trace { Then(Opening(), Opened(Container)) }

  /** Everything a request that succeeds has asked of the provider. */
  function Plan(req: Request): Trace {
    match req.kind
    case CheckPin => Then(Opening(), Did(VerifyPin))
    case CreateContainer => Inside()
    case DeleteContainer => Then(Opening(), Did(DeleteIt))
    case GetContainerType => Then(Inside(), Did(QueryType))
    case ImportCertificate => Then(Inside(), Did(ImportIt))
    case GenEccKeyPair => Then(Inside(), Did(GenEcc))
    case GenRsaKeyPair => Then(Inside(), Did(GenRsa))
    case RsaSignData => Then(Inside(), Did(SignRsa))
    case SignData =>
      var ecc := Answer(req.answers, 4) && req.containerType == 2;
      Then(Then(Inside(), Did(QueryType)), Did(if ecc then SignEcc else SignRsa))
    case EncryptData => Then(Keyed(req), Did(Encrypt))
    case DecryptData => Then(Keyed(req), Did(Decrypt))
    case CreatePkcs10 =>
      var before := if req.namedContainer then Opening() else Then(Opening(), Did(Random));
      PkcsPlan(req, Then(before, Opened(Container)))
    case Other => Start
  }

  function Keyed(req: Request): Trace { if req.symKey.Some? then Then(Inside(), Did(SetKey)) else Inside() }

  /** A digest that is opened, fed and finished lies between the key and the signature. */
  function PkcsPlan(req: Request, inside: Trace): Trace {
    var generated := Then(inside, Did(if req.isEcc then GenEcc else GenRsa));
    var hashed := Then(Then(Then(generated, Opened(Digest)), Did(DigestUpdate)), Did(DigestFinal));
    Then(hashed, Did(if req.isEcc then SignEcc else SignRsa))
  }

  /** What the opening moves obtain. */
  function Chain(req: Request): Trace {
    if !Both(req, 0) then Start else if !Answer(req.answers, 2) then Then(Start, Opened(Device)) else Opening()
  }

  /** Everything a request asks of the provider and obtains before it stops, for every
      list of answers: nothing follows an open or a call whose failure is not forgiven. */
  function Ran(req: Request, authorized: bool): Trace {
    if !Reached(req) || (Gated(req.kind) && !authorized) then Chain(req) else
    match req.kind
    case CheckPin => Plan(req)
    case DeleteContainer => Plan(req)
    case EncryptData => CipherRan(req)
    case DecryptData => CipherRan(req)
    case CreatePkcs10 => RequestRan(req)
    case _ => if Answer(req.answers, 3) then Plan(req) else Opening()
  }

  /** The key length is checked in between, and a key that could not be set is not used. */
  function CipherRan(req: Request): Trace {
    if !Answer(req.answers, 3) then Opening()
    else if req.symKey.Some? && req.symKey.value != 16 then Inside()
    else if req.symKey.Some? && !Answer(req.answers, 4) then Keyed(req)
    else Plan(req)
  }

  function RequestRan(req: Request): Trace {
    var c := if req.namedContainer then 3 else 4;
    var before := if req.namedContainer then Opening() else Then(Opening(), Did(Random));
    if Answer(req.answers, c) then PkcsRan(req, Then(before, Opened(Container)), c + 1)
    else if req.namedContainer && Answer(req.answers, c + 1) then PkcsRan(req, Then(before, Opened(Container)), c + 2)
    else before
  }

  /** No digest without a key, no signature without a finished digest. */
  function PkcsRan(req: Request, inside: Trace, g: nat): Trace {
    var generated := Then(inside, Did(if req.isEcc then GenEcc else GenRsa));
    if !Both(req, g) then generated else
    var updated := Then(Then(generated, Opened(Digest)), Did(DigestUpdate));
    if !Answer(req.answers, g + 2) then updated else
    if !Answer(req.answers, g + 3) then Then(updated, Did(DigestFinal)) else
    PkcsPlan(req, inside)
  }

  predicate IsPrefix(t: Trace, whole: Trace) {
    t == whole || (whole.Then? && IsPrefix(t, whole.before))
  }

  /** However a request ends, it has done the beginning of what it does with a willing
      provider, and the whole of it when the provider is willing. */
  lemma RanIsPrefix(req: Request, authorized: bool)
    requires req.kind != Other
    ensures IsPrefix(Ran(req, authorized), Plan(req))
    ensures ProviderWilling(req) && (Gated(req.kind) ==> authorized) ==> Ran(req, authorized) == Plan(req)
  {}

  /** What a request does to the session's authorizations. */
  function Effects(req: Request, key: AuthKey): seq<AuthEvent> {
    if !Answer(req.answers, 0) then []
    else if !Answer(req.answers, 1) then [Invalidated(key.provider, key.device)]
    else if !Answer(req.answers, 2) then
      if req.kind == CreatePkcs10 then [] else [Invalidated(key.provider, key.device)]
    else if Gated(req.kind) then [Checked(key, req.now)]
    else if req.kind == CheckPin && Both(req, 3) then [Granted(key, req.now)]
    else []
  }

  function EffectsOf(default: Text, req: Request): seq<AuthEvent> {
    if req.kind == Other then req.noted
    else if Target(default, req).None? then []
    else Effects(req, Target(default, req).value)
  }

  /** The whole contract of a handler that got past its parameters. */
  ghost predicate Handled(req: Request, key: AuthKey, authorized: bool, o: Outcome,
                          before: seq<AuthEvent>, after: seq<AuthEvent>, trace: Trace) {
    && after == before + Effects(req, key)
    && (o == Done <==> ProviderWilling(req) && (Gated(req.kind) ==> authorized))
    && (o == Denied <==> Gated(req.kind) && Reached(req) && !authorized)
    && (o == LoadFailed <==> !Answer(req.answers, 0))
    && (Gated(req.kind) && Touched(trace) ==> Reached(req) && authorized)
    && Forward(trace) == Ran(req, authorized)
    && o != BadRequest && o != TimedOut
  }

  // ---------------------------------------------------------------------------
  // The handlers
  // ---------------------------------------------------------------------------

  /** This session holds a live grant, by its history. */
  predicate Holds(history: seq<AuthEvent>, ttl: nat, key: AuthKey, now: Time) {
    HistoryVerdict(history, ttl, key, now) == Authorized
  }

  ghost predicate Ready(req: Request, state: AuthTable, p: Provider)
    reads state, p
  {
    && state.Valid() && NotAfter(state.history, req.now)
    && p.Valid() && p.answers == req.answers && p.pos == 0 && p.trace == Start && p.scope == [] && p.forward == Start
  }

  /** The opening moves every handler shares.  A device that cannot be connected, or
      whose application cannot be opened, loses this session's grants; only
      `CreatePKCS10` keeps them in the second case. */
  method OpenChain(req: Request, key: AuthKey, state: AuthTable, p: Provider) returns (stop: Option<Outcome>)
    requires Ready(req, state, p)
    modifies state, p
    ensures state.Valid() && p.Valid() && p.pos <= 3
    ensures stop.None? <==> Reached(req)
    ensures stop.None? ==> state.history == old(state.history) && p.pos == 3 && p.scope == [Device, Application]
    ensures p.forward == Chain(req)
    ensures stop.Some? ==> state.history == old(state.history) + Effects(req, key)
    ensures stop.Some? ==> stop.value == if Answer(req.answers, 0) then Failed else LoadFailed
    ensures !Touched(p.trace)
  {
    var ok := p.Ask();
    if !ok { return Some(LoadFailed); }
    ok := p.Open(Device);
    if !ok {
      var _ := state.InvalidateDevice(key.provider, key.device);
      return Some(Failed);
    }
    ok := p.Open(Application);
    if !ok {
      if req.kind != CreatePkcs10 {
        var _ := state.InvalidateDevice(key.provider, key.device);
      }
      return Some(Failed);
    }
    return None;
  }

  /** The opening moves of a gated handler: the chain, then the authorization check. */
  method Enter(req: Request, key: AuthKey, state: AuthTable, p: Provider) returns (stop: Option<Outcome>)
    requires Ready(req, state, p) && Gated(req.kind)
    modifies state, p
    ensures state.Valid() && p.Valid() && state.history == old(state.history) + Effects(req, key)
    ensures stop.None? <==> Reached(req) && Holds(old(state.history), state.ttl, key, req.now)
    ensures stop.None? ==> p.pos == 3 && p.scope == [Device, Application]
    ensures p.forward == Chain(req)
    ensures stop.Some? ==> !Touched(p.trace)
    ensures stop.Some? ==>
              stop.value == if !Answer(req.answers, 0) then LoadFailed else if Reached(req) then Denied else Failed
  {
    stop := OpenChain(req, key, state, p);
    if stop.None? {
      var verdict := state.Check(key, req.now);
      stop := if verdict == Authorized then None else Some(Denied);
    }
  }

  /** The only source of grants: a verified PIN records a deadline. */
  method HandleCheckPin(req: Request, key: AuthKey, state: AuthTable, p: Provider) returns (o: Outcome)
    requires Ready(req, state, p) && (req.kind == CheckPin)
    modifies state, p
    ensures state.Valid() && p.Valid()
    ensures Handled(req, key, Holds(old(state.history), state.ttl, key, req.now), o,
                    old(state.history), state.history, p.trace)
  {
    var stop := OpenChain(req, key, state, p);
    if stop.Some? { return stop.value; }
    var ok := p.Do(VerifyPin);
    if !ok { return Failed; }
    var success := p.Ask();
    if success {
      state.Grant(key, req.now);
      return Done;
    }
    return Failed;
  }

  /** The created container is dropped on the spot. */
  method HandleCreateContainer(req: Request, key: AuthKey, state: AuthTable, p: Provider) returns (o: Outcome)
    requires Ready(req, state, p) && (req.kind == CreateContainer)
    modifies state, p
    ensures state.Valid() && p.Valid()
    ensures Handled(req, key, Holds(old(state.history), state.ttl, key, req.now), o,
                    old(state.history), state.history, p.trace)
  {
    var stop := Enter(req, key, state, p);
    if stop.Some? { return stop.value; }
    var ok := p.Open(Container);
    if ok { p.DropLast(); }
    return if ok then Done else Failed;
  }

  /** Deliberately without an authorization check. */
  method HandleDeleteContainer(req: Request, key: AuthKey, state: AuthTable, p: Provider) returns (o: Outcome)
    requires Ready(req, state, p) && (req.kind == DeleteContainer)
    modifies state, p
    ensures state.Valid() && p.Valid()
    ensures Handled(req, key, Holds(old(state.history), state.ttl, key, req.now), o,
                    old(state.history), state.history, p.trace)
  {
    var stop := OpenChain(req, key, state, p);
    if stop.Some? { return stop.value; }
    var ok := p.Do(DeleteIt);
    return if ok then Done else Failed;
  }

  /** Not gated either. */
  method HandleGetContainerType(req: Request, key: AuthKey, state: AuthTable, p: Provider) returns (o: Outcome)
    requires Ready(req, state, p) && (req.kind == GetContainerType)
    modifies state, p
    ensures state.Valid() && p.Valid()
    ensures Handled(req, key, Holds(old(state.history), state.ttl, key, req.now), o,
                    old(state.history), state.history, p.trace)
  {
    var stop := OpenChain(req, key, state, p);
    if stop.Some? { return stop.value; }
    var ok := p.Open(Container);
    if !ok { return Failed; }
    ok := p.Do(QueryType);
    return if ok then Done else Failed;
  }

  /** Store a certificate in an open container. */
  method HandleImportCertificate(req: Request, key: AuthKey, state: AuthTable, p: Provider) returns (o: Outcome)
    requires Ready(req, state, p) && (req.kind == ImportCertificate)
    modifies state, p
    ensures state.Valid() && p.Valid()
    ensures Handled(req, key, Holds(old(state.history), state.ttl, key, req.now), o,
                    old(state.history), state.history, p.trace)
  {
    var stop := Enter(req, key, state, p);
    if stop.Some? { return stop.value; }
    var ok := p.Open(Container);
    if !ok { return Failed; }
    ok := p.Do(ImportIt);
    return if ok then Done else Failed;
  }

  /** Both key generators share one shape. */
  method HandleGenKeyPair(req: Request, key: AuthKey, state: AuthTable, p: Provider) returns (o: Outcome)
    requires Ready(req, state, p) && (req.kind == GenEccKeyPair || req.kind == GenRsaKeyPair)
    modifies state, p
    ensures state.Valid() && p.Valid()
    ensures Handled(req, key, Holds(old(state.history), state.ttl, key, req.now), o,
                    old(state.history), state.history, p.trace)
  {
    var stop := Enter(req, key, state, p);
    if stop.Some? { return stop.value; }
    var ok := p.Open(Container);
    if !ok { return Failed; }
    if req.kind == GenEccKeyPair { ok := p.Do(GenEcc); } else { ok := p.Do(GenRsa); }
    return if ok then Done else Failed;
  }

  /** A failed type query falls back to RSA. */
  method HandleSignData(req: Request, key: AuthKey, state: AuthTable, p: Provider) returns (o: Outcome)
    requires Ready(req, state, p) && (req.kind == SignData)
    modifies state, p
    ensures state.Valid() && p.Valid()
    ensures Handled(req, key, Holds(old(state.history), state.ttl, key, req.now), o,
                    old(state.history), state.history, p.trace)
  {
    var stop := Enter(req, key, state, p);
    if stop.Some? { return stop.value; }
    var ok := p.Open(Container);
    if !ok { return Failed; }
    var typed := p.Do(QueryType);
    var containerType := if typed then req.containerType else 1;
    if containerType == 2 { ok := p.Do(SignEcc); } else { ok := p.Do(SignRsa); }
    return if ok then Done else Failed;
  }

  /** Sign with RSA whatever the container is. */
  method HandleRsaSignData(req: Request, key: AuthKey, state: AuthTable, p: Provider) returns (o: Outcome)
    requires Ready(req, state, p) && (req.kind == RsaSignData)
    modifies state, p
    ensures state.Valid() && p.Valid()
    ensures Handled(req, key, Holds(old(state.history), state.ttl, key, req.now), o,
                    old(state.history), state.history, p.trace)
  {
    var stop := Enter(req, key, state, p);
    if stop.Some? { return stop.value; }
    var ok := p.Open(Container);
    if !ok { return Failed; }
    ok := p.Do(SignRsa);
    return if ok then Done else Failed;
  }

  /** A given key must have 16 bytes and is set before use. */
  method HandleCipher(req: Request, key: AuthKey, state: AuthTable, p: Provider) returns (o: Outcome)
    requires Ready(req, state, p) && (req.kind == EncryptData || req.kind == DecryptData)
    modifies state, p
    ensures state.Valid() && p.Valid()
    ensures Handled(req, key, Holds(old(state.history), state.ttl, key, req.now), o,
                    old(state.history), state.history, p.trace)
  {
    var stop := Enter(req, key, state, p);
    if stop.Some? { return stop.value; }
    var ok := p.Open(Container);
    if !ok { return Failed; }
    if req.symKey.Some? {
      if req.symKey.value != 16 { return Failed; }
      ok := p.Do(SetKey);
      if !ok { return Failed; }
    }
    if req.kind == EncryptData { ok := p.Do(Encrypt); } else { ok := p.Do(Decrypt); }
    return if ok then Done else Failed;
  }

  /** Create or reuse a container, generate a key, hash the request on the token, sign. */
  method HandleCreatePkcs10(req: Request, key: AuthKey, state: AuthTable, p: Provider) returns (o: Outcome)
    requires Ready(req, state, p) && (req.kind == CreatePkcs10)
    modifies state, p
    ensures state.Valid() && p.Valid()
    ensures Handled(req, key, Holds(old(state.history), state.ttl, key, req.now), o,
                    old(state.history), state.history, p.trace)
  {
    var stop := Enter(req, key, state, p);
    if stop.Some? { return stop.value; }
    if !req.namedContainer {
      var _ := p.Do(Random);
    }
    var ok := p.Open(Container);
    if !ok {
      if !req.namedContainer { return Failed; }
      ok := p.Open(Container);
      if !ok { return Failed; }
    }
    o := FinishPkcs10(req, p);
  }

  method FinishPkcs10(req: Request, p: Provider) returns (o: Outcome)
    requires p.Valid() && p.answers == req.answers && p.scope == [Device, Application, Container]
    modifies p
    ensures p.Valid()
    ensures o == if FiveMore(req, old(p.pos)) then Done else Failed
    ensures p.forward == PkcsRan(req, old(p.forward), old(p.pos))
  {
    var ok;
    if req.isEcc { ok := p.Do(GenEcc); } else { ok := p.Do(GenRsa); }
    if !ok { return Failed; }
    ok := p.Open(Digest);
    if !ok { return Failed; }
    ok := p.Do(DigestUpdate);
    if !ok { return Failed; }
    ok := p.Do(DigestFinal);
    if !ok { return Failed; }
    if req.isEcc { ok := p.Do(SignEcc); } else { ok := p.Do(SignRsa); }
    return if ok then Done else Failed;
  }

  /** The branches that are not modelled one by one. */
  method HandleOther(req: Request, state: AuthTable)
    requires state.Valid() && NotAfter(state.history, req.now) && Lawful(req)
    modifies state
    ensures state.Valid() && state.history == old(state.history) + req.noted
  {
    for i := 0 to |req.noted|
      invariant state.Valid() && state.history == old(state.history) + req.noted[..i]
      invariant NotAfter(state.history, req.now)
    {
      var e := req.noted[i];
      assert e in req.noted;
      if e.Invalidated? {
        var _ := state.InvalidateDevice(e.provider, e.device);
      } else {
        var _ := state.Check(e.key, e.at);
      }
    }
  }

  /** One request on one session: whatever the provider answers, every guard opened is
      closed exactly once before the reply, the last opened first. */
  method Handle(default: Text, req: Request, state: AuthTable) returns (o: Outcome, trace: Trace)
    requires state.Valid() && NotAfter(state.history, req.now) && Lawful(req)
    modifies state
    ensures state.Valid() && Nesting(trace) == Some([])
    ensures state.history == old(state.history) + EffectsOf(default, req)
    ensures req.kind != Other && Target(default, req).None? ==> o == BadRequest && trace == Start
    ensures req.kind == Other ==> o == Done && trace == Start
    ensures Target(default, req).Some? ==>
              Handled(req, Target(default, req).value,
                      Holds(old(state.history), state.ttl, Target(default, req).value, req.now), o,
                      old(state.history), state.history, trace)
  {
    if req.kind == Other {
      HandleOther(req, state);
      return Done, Start;
    }
    var target := Target(default, req);
    if target.None? { return BadRequest, Start; }
    var p := new Provider(req.answers);
    var key := target.value;
    if req.kind == CheckPin { o := HandleCheckPin(req, key, state, p); }
    else if req.kind == CreateContainer { o := HandleCreateContainer(req, key, state, p); }
    else if req.kind == DeleteContainer { o := HandleDeleteContainer(req, key, state, p); }
    else if req.kind == GetContainerType { o := HandleGetContainerType(req, key, state, p); }
    else if req.kind == ImportCertificate { o := HandleImportCertificate(req, key, state, p); }
    else if req.kind == GenEccKeyPair || req.kind == GenRsaKeyPair { o := HandleGenKeyPair(req, key, state, p); }
    else if req.kind == SignData { o := HandleSignData(req, key, state, p); }
    else if req.kind == RsaSignData { o := HandleRsaSignData(req, key, state, p); }
    else if req.kind == EncryptData || req.kind == DecryptData { o := HandleCipher(req, key, state, p); }
    else { o := HandleCreatePkcs10(req, key, state, p); }
    p.Unwind();
    trace := p.trace;
  }
}
