/** What a request that succeeds has done and what it needed, method by method, with the
    operations and the provider's answers written out. */
module HandlerCalls {
  import opened Resources
  import opened Text
  import opened Handlers
  import opened Connection

  /** The calls of a trace in order, without opens and closes. */
  function Ops(trace: Trace): seq<Operation> {
    match trace
    case Start => []
    case Then(before, e) => Ops(before) + if e.Did? then [e.op] else []
  }

  /** The resources of a trace in the order they were opened. */
  function Gets(trace: Trace): seq<Kind> {
    match trace
    case Start => []
    case Then(before, e) => Gets(before) + if e.Opened? then [e.what] else []
  }

  lemma {:induction false} ClosesDoNotMatter(trace: Trace)
    ensures Ops(Forward(trace)) == Ops(trace) && Gets(Forward(trace)) == Gets(trace)
  {
    if trace.Then? { ClosesDoNotMatter(trace.before); }
  }

  predicate InContainer(m: Method) { m !in {CheckPin, DeleteContainer, Other} }

  /** The one operation each method is for, and what must come before it. */
  predicate DidItsWork(req: Request, trace: Trace) {
    && Gets(trace) == [Device, Application]
                      + (if InContainer(req.kind) then [Container] else [])
                      + (if req.kind == CreatePkcs10 then [Digest] else [])
    && match req.kind
       case CheckPin => Ops(trace) == [VerifyPin]
       case CreateContainer => Ops(trace) == []
       case DeleteContainer => Ops(trace) == [DeleteIt]
       case GetContainerType => Ops(trace) == [QueryType]
       case ImportCertificate => Ops(trace) == [ImportIt]
       case GenEccKeyPair => Ops(trace) == [GenEcc]
       case GenRsaKeyPair => Ops(trace) == [GenRsa]
       case RsaSignData => Ops(trace) == [SignRsa]
       case SignData =>
         Ops(trace) == if |req.answers| > 4 && req.answers[4] && req.containerType == 2 then [QueryType, SignEcc]
                       else [QueryType, SignRsa]
       case EncryptData => Ops(trace) == if req.symKey.None? then [Encrypt] else [SetKey, Encrypt]
       case DecryptData => Ops(trace) == if req.symKey.None? then [Decrypt] else [SetKey, Decrypt]
       case CreatePkcs10 =>
         Ops(trace) == (if req.namedContainer then [] else [Random])
                       + (if req.isEcc then [GenEcc, DigestUpdate, DigestFinal, SignEcc]
                          else [GenRsa, DigestUpdate, DigestFinal, SignRsa])
       case Other => true
  }

  lemma PkcsWork(req: Request, inside: Trace)
    ensures Ops(PkcsPlan(req, inside)) == Ops(inside) +
              (if req.isEcc then [GenEcc, DigestUpdate, DigestFinal, SignEcc]
               else [GenRsa, DigestUpdate, DigestFinal, SignRsa])
    ensures Gets(PkcsPlan(req, inside)) == Gets(inside) + [Digest]
  {
    var gen, sign := if req.isEcc then GenEcc else GenRsa, if req.isEcc then SignEcc else SignRsa;
    var generated := Then(inside, Did(gen));
    var digesting := Then(generated, Opened(Digest));
    var updated := Then(digesting, Did(DigestUpdate));
    var hashed := Then(updated, Did(DigestFinal));
    assert Ops(digesting) == Ops(inside) + [gen] && Gets(digesting) == Gets(inside) + [Digest];
    assert Ops(updated) == Ops(inside) + [gen, DigestUpdate] && Gets(updated) == Gets(digesting);
    assert Ops(hashed) == Ops(inside) + [gen, DigestUpdate, DigestFinal] && Gets(hashed) == Gets(digesting);
    assert Ops(Then(hashed, Did(sign))) == Ops(inside) + [gen, DigestUpdate, DigestFinal, sign];
    assert PkcsPlan(req, inside) == Then(hashed, Did(sign));
  }

  lemma OpeningWork()
    ensures Ops(Opening()) == [] && Gets(Opening()) == [Device, Application]
    ensures Ops(Inside()) == [] && Gets(Inside()) == [Device, Application, Container]
  {
    assert Gets(Then(Start, Opened(Device))) == [Device];
  }

  lemma PlanDoesTheWork(req: Request)
    requires req.kind != Other
    ensures DidItsWork(req, Plan(req))
  {
    OpeningWork();
    if req.kind == CreatePkcs10 {
      var before := if req.namedContainer then Opening() else Then(Opening(), Did(Random));
      var inside := Then(before, Opened(Container));
      assert Gets(before) == [Device, Application] && Gets(inside) == [Device, Application, Container];
      assert Ops(inside) == Ops(before);
      PkcsWork(req, inside);
    } else if req.kind == SignData {
      assert Ops(Then(Inside(), Did(QueryType))) == [QueryType];
    } else if req.kind == EncryptData || req.kind == DecryptData {
      assert Ops(Then(Inside(), Did(SetKey))) == [SetKey];
    }
  }

  /** Whatever the connection answered `Done` to has done its own work, and no other. */
  lemma DoneDidItsWork(default: Text, ttl: nat, reqs: seq<Request>, i: nat, entry: Entry)
    requires i < |reqs| && Justified(default, ttl, reqs, i, entry)
    requires entry.outcome == Done && Target(default, reqs[i]).Some?
    ensures DidItsWork(reqs[i], entry.trace)
  {
    var req := reqs[i];
    RanIsPrefix(req, LoggedIn(default, ttl, reqs, i, Target(default, req).value));
    PlanDoesTheWork(req);
    ClosesDoNotMatter(entry.trace);
  }

  // ---------------------------------------------------------------------------
  // What is needed
  // ---------------------------------------------------------------------------

  /** Answers `i` to `j - 1` were given, and were all good. */
  predicate Good(answers: seq<bool>, i: nat, j: nat) {
    j <= |answers| && forall k :: i <= k < j ==> answers[k]
  }

  /** Every call must succeed, but for a type query, a random number, and a create that a
      named container makes up for. */
  lemma WillingMeans(req: Request)
    ensures var a := req.answers;
            ProviderWilling(req) <==>
              match req.kind
              case CheckPin => Good(a, 0, 5)
              case CreateContainer => Good(a, 0, 4)
              case DeleteContainer => Good(a, 0, 4)
              case GetContainerType => Good(a, 0, 5)
              case ImportCertificate => Good(a, 0, 5)
              case GenEccKeyPair => Good(a, 0, 5)
              case GenRsaKeyPair => Good(a, 0, 5)
              case RsaSignData => Good(a, 0, 5)
              case SignData => Good(a, 0, 4) && Good(a, 5, 6)
              case EncryptData => if req.symKey.None? then Good(a, 0, 5) else req.symKey.value == 16 && Good(a, 0, 6)
              case DecryptData => if req.symKey.None? then Good(a, 0, 5) else req.symKey.value == 16 && Good(a, 0, 6)
              case CreatePkcs10 =>
                if req.namedContainer then Good(a, 0, 9) || (Good(a, 0, 3) && Good(a, 4, 10) && !a[3])
                else Good(a, 0, 3) && Good(a, 4, 10)
              case Other => Good(a, 0, 5)
  {}

  /** Without a PIN the nine methods that touch containers and keys are denied, and the
      other three are not. */
  lemma NoPinNoKeyOperation(default: Text, ttl: nat, reqs: seq<Request>, entry: Entry)
    requires |reqs| == 1 && !reqs[0].timedOut && Target(default, reqs[0]).Some? && ProviderWilling(reqs[0])
    requires Justified(default, ttl, reqs, 0, entry)
    ensures entry.outcome == if reqs[0].kind in {CheckPin, DeleteContainer, GetContainerType} then Done else Denied
  {
    var key := Target(default, reqs[0]).value;
    assert forall j: nat :: !Backs(default, reqs, j, 0, key);
  }

  // ---------------------------------------------------------------------------
  // What well nested means
  // ---------------------------------------------------------------------------

  function Count(trace: Trace, e: Event): nat {
    match trace
    case Start => 0
    case Then(before, last) => Count(before, e) + if last == e then 1 else 0
  }

  /** The resource a resource is opened on. */
  predicate Under(child: Kind, parent: Kind) {
    || (child == Application && parent == Device)
    || (child == Digest && parent == Device)
    || (child == Container && parent == Application)
  }

  /** No resource is open twice, and each lies above the one it was opened on. */
  ghost predicate Stacked(open: seq<Kind>) {
    && (forall i, j :: 0 <= i < j < |open| ==> open[i] != open[j])
    && (forall i, p :: 0 <= i < |open| && Under(open[i], p) ==> p in open[..i])
  }

  lemma {:induction false} NestingIsStacked(trace: Trace)
    requires Nesting(trace).Some?
    ensures Stacked(Nesting(trace).value)
  {
    if trace.Then? {
      NestingIsStacked(trace.before);
      var was, open := Nesting(trace.before).value, Nesting(trace).value;
      forall i, p | 0 <= i < |open| && Under(open[i], p) ensures p in open[..i] {
        if i < |was| { assert open[..i] == was[..i]; } else { assert open[..i] == was; }
      }
    }
  }

  /** What is open was opened once more than closed, and everything else as often. */
  lemma {:induction false} NestingCounts(trace: Trace, r: Kind)
    requires Nesting(trace).Some?
    ensures Count(trace, Opened(r)) == Count(trace, Closed(r)) + if r in Nesting(trace).value then 1 else 0
  {
    if trace.Then? {
      NestingCounts(trace.before, r);
      NestingIsStacked(trace.before);
      if trace.last.Closed? {
        var was := Nesting(trace.before).value;
        assert was == was[..|was| - 1] + [was[|was| - 1]];
        assert was[|was| - 1] !in was[..|was| - 1];
      }
    }
  }

  /** A close finds nothing open that was opened on it, and closes what is open. */
  lemma ClosedAfterChildren(trace: Trace, p: Kind)
    requires Nesting(Then(trace, Closed(p))).Some?
    ensures Nesting(trace).Some? && p in Nesting(trace).value
    ensures forall r :: Under(r, p) ==> r !in Nesting(trace).value
  {
    NestingIsStacked(trace);
  }

  /** Every reply leaves each kind of resource opened exactly as often as closed. */
  lemma EverythingIsClosed(default: Text, ttl: nat, reqs: seq<Request>, i: nat, entry: Entry, r: Kind)
    requires i < |reqs| && Justified(default, ttl, reqs, i, entry)
    ensures Count(entry.trace, Opened(r)) == Count(entry.trace, Closed(r))
  {
    NestingCounts(entry.trace, r);
  }
}
