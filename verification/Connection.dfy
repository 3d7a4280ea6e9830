/**
 A whole connection: one request after another on one session, where a timeout or a
 failed task leaves the connection with a fresh, empty state.  The authorization rule
 is stated over the requests alone, without the table.
 */
module Connection {
  import opened Options
  import opened Text
  import opened CertKey
  import opened Auth
  import opened Handlers

  datatype Entry = Entry(outcome: Outcome, trace: Trace)

  // ---------------------------------------------------------------------------
  // The rule, over the requests
  // ---------------------------------------------------------------------------

  /** The request verified a PIN for `key` and answered in time. */
  predicate VerifiesPin(default: Text, req: Request, key: AuthKey) {
    && !req.timedOut && req.kind == CheckPin && Target(default, req) == Some(key) && ProviderWilling(req)
  }

  /** The request found the device of `key` missing, or lost the whole session state. */
  predicate Forgets(default: Text, req: Request, key: AuthKey) {
    || req.timedOut
    || (req.kind == Other && exists e :: e in req.noted && Clears(e, key))
    || (&& Target(default, req).Some?
        && OnDevice(key, Target(default, req).value.provider, Target(default, req).value.device)
        && Answer(req.answers, 0)
        && (!Answer(req.answers, 1) || (!Answer(req.answers, 2) && req.kind != CreatePkcs10)))
  }

  /** Request `j` verified a PIN for `key`, and nothing from there to `i` forgot it. */
  ghost predicate Backs(default: Text, reqs: seq<Request>, j: nat, i: nat, key: AuthKey) {
    && j < i <= |reqs| && VerifiesPin(default, reqs[j], key)
    && forall k :: j < k < i ==> !Forgets(default, reqs[k], key)
  }

  /** Some earlier PIN of this session still counts at request `i`. */
  ghost predicate LoggedIn(default: Text, ttl: nat, reqs: seq<Request>, i: nat, key: AuthKey)
    requires i < |reqs|
  {
    exists j: nat :: Backs(default, reqs, j, i, key) && reqs[i].now < reqs[j].now + ttl
  }

  ghost predicate ClockForward(reqs: seq<Request>) {
    forall i, j :: 0 <= i < j < |reqs| ==> reqs[i].now <= reqs[j].now
  }

  /** What the reply to request `i` must be, and what its handler may have done. */
  ghost predicate Justified(default: Text, ttl: nat, reqs: seq<Request>, i: nat, entry: Entry)
    requires i < |reqs|
  {
    var req, target := reqs[i], Target(default, reqs[i]);
    && Nesting(entry.trace) == Some([])
    && (req.timedOut <==> entry.outcome == TimedOut)
    && (!req.timedOut && target.Some? && Gated(req.kind) ==>
          && (entry.outcome == Done <==> ProviderWilling(req) && LoggedIn(default, ttl, reqs, i, target.value))
          && (entry.outcome == Denied <==> Reached(req) && !LoggedIn(default, ttl, reqs, i, target.value))
          && (Touched(entry.trace) ==> LoggedIn(default, ttl, reqs, i, target.value)))
    && (!req.timedOut && target.None? && req.kind != Other ==> entry.outcome == BadRequest && entry.trace == Start)
    && (!req.timedOut && target.Some? && !Gated(req.kind) ==> (entry.outcome == Done <==> ProviderWilling(req)))
    && (!req.timedOut && target.Some? ==>
          Forward(entry.trace) == Ran(req, LoggedIn(default, ttl, reqs, i, target.value)))
  }

  // ---------------------------------------------------------------------------
  // The history of the current state, and its last grant
  // ---------------------------------------------------------------------------

  /** What the state the connection holds after `n` requests has been through. */
  function Events(default: Text, reqs: seq<Request>, n: nat): seq<AuthEvent>
    requires n <= |reqs|
  {
    if n == 0 || reqs[n - 1].timedOut then []
    else Events(default, reqs, n - 1) + EffectsOf(default, reqs[n - 1])
  }

  lemma {:induction false} LastGrantConcat(history: seq<AuthEvent>, more: seq<AuthEvent>, key: AuthKey)
    requires forall e :: e in more ==> !e.Granted?
    ensures LastGrant(history + more, key) ==
              if exists e :: e in more && Clears(e, key) then None else LastGrant(history, key)
  {
    if more == [] {
      assert history + more == history;
    } else {
      var front, e := more[..|more| - 1], more[|more| - 1];
      assert history + more == (history + front) + [e] && more == front + [e];
      assert (history + more)[..|history + more| - 1] == history + front;
      LastGrantConcat(history, front, key);
      assert e in more;
      assert forall x :: x in more <==> x in front || x == e;
    }
  }

  /** One request's effect on the last grant, read off the request. */
  lemma LastGrantStep(default: Text, req: Request, history: seq<AuthEvent>, key: AuthKey)
    requires Lawful(req) && !req.timedOut
    ensures LastGrant(history + EffectsOf(default, req), key) ==
              if VerifiesPin(default, req, key) then Some(req.now)
              else if Forgets(default, req, key) then None else LastGrant(history, key)
  {
    var effects := EffectsOf(default, req);
    if forall e :: e in effects ==> !e.Granted? {
      LastGrantConcat(history, effects, key);
      if effects != [] && req.kind != Other { assert effects == [effects[0]]; }
    } else {
      assert |effects| == 1;
      assert (history + effects)[..|history|] == history;
    }
  }

  lemma {:induction false} EventsInTime(default: Text, reqs: seq<Request>, n: nat, now: Time)
    requires n <= |reqs| && ClockForward(reqs) && (forall r :: r in reqs ==> Lawful(r))
    requires forall i :: 0 <= i < n ==> reqs[i].now <= now
    ensures NotAfter(Events(default, reqs, n), now)
  {
    if n > 0 && !reqs[n - 1].timedOut {
      EventsInTime(default, reqs, n - 1, now);
      var effects := EffectsOf(default, reqs[n - 1]);
      assert reqs[n - 1] in reqs;
      forall i | 0 <= i < |effects| && Timed(effects[i]) ensures effects[i].at <= now {
        assert effects[i] in effects;
      }
    }
  }

  /** When the last PIN that still counts was verified. */
  function LastPin(default: Text, reqs: seq<Request>, n: nat, key: AuthKey): Option<Time>
    requires n <= |reqs|
  {
    if n == 0 then None
    else if VerifiesPin(default, reqs[n - 1], key) then Some(reqs[n - 1].now)
    else if Forgets(default, reqs[n - 1], key) then None
    else LastPin(default, reqs, n - 1, key)
  }

  lemma {:induction false} LastGrantIsPin(default: Text, reqs: seq<Request>, n: nat, key: AuthKey)
    requires n <= |reqs| && (forall r :: r in reqs ==> Lawful(r))
    ensures LastGrant(Events(default, reqs, n), key) == LastPin(default, reqs, n, key)
  {
    if n > 0 {
      assert reqs[n - 1] in reqs;
      LastGrantIsPin(default, reqs, n - 1, key);
      if !reqs[n - 1].timedOut {
        LastGrantStep(default, reqs[n - 1], Events(default, reqs, n - 1), key);
      }
    }
  }

  lemma BacksStep(default: Text, reqs: seq<Request>, j: nat, n: nat, key: AuthKey)
    requires 0 < n <= |reqs| && j < n - 1
    ensures Backs(default, reqs, j, n, key) <==>
              Backs(default, reqs, j, n - 1, key) && !Forgets(default, reqs[n - 1], key)
  {}

  lemma {:induction false} LastPinIsBacked(default: Text, reqs: seq<Request>, n: nat, key: AuthKey)
    requires n <= |reqs|
    ensures var g := LastPin(default, reqs, n, key);
            g.Some? ==> exists j: nat :: Backs(default, reqs, j, n, key) && reqs[j].now == g.value
  {
    if n > 0 && VerifiesPin(default, reqs[n - 1], key) {
      assert Backs(default, reqs, n - 1, n, key);
    } else if n > 0 && !Forgets(default, reqs[n - 1], key) {
      LastPinIsBacked(default, reqs, n - 1, key);
      var g := LastPin(default, reqs, n, key);
      if g.Some? {
        var j: nat :| Backs(default, reqs, j, n - 1, key) && reqs[j].now == g.value;
        BacksStep(default, reqs, j, n, key);
      }
    }
  }

  lemma {:induction false} BackedIsNotLater(default: Text, reqs: seq<Request>, j: nat, n: nat, key: AuthKey)
    requires ClockForward(reqs) && Backs(default, reqs, j, n, key)
    ensures LastPin(default, reqs, n, key).Some? && reqs[j].now <= LastPin(default, reqs, n, key).value
    decreases n
  {
    if j < n - 1 {
      BacksStep(default, reqs, j, n, key);
      if !VerifiesPin(default, reqs[n - 1], key) { BackedIsNotLater(default, reqs, j, n - 1, key); }
    }
  }

  /** The verdict of the table at request `i` is the rule over the requests. */
  lemma HoldsIsLoggedIn(default: Text, ttl: nat, reqs: seq<Request>, i: nat, key: AuthKey)
    requires i < |reqs| && ClockForward(reqs) && (forall r :: r in reqs ==> Lawful(r))
    ensures Holds(Events(default, reqs, i), ttl, key, reqs[i].now) <==> LoggedIn(default, ttl, reqs, i, key)
  {
    LastGrantIsPin(default, reqs, i, key);
    LastPinIsBacked(default, reqs, i, key);
    forall j: nat | Backs(default, reqs, j, i, key)
      ensures LastPin(default, reqs, i, key).Some? && reqs[j].now <= LastPin(default, reqs, i, key).value {
      BackedIsNotLater(default, reqs, j, i, key);
    }
  }

  // ---------------------------------------------------------------------------
  // The connection
  // ---------------------------------------------------------------------------

  /** What one handler promises is what the rule over the requests asks for. */
  lemma HandledIsJustified(default: Text, ttl: nat, reqs: seq<Request>, i: nat,
                           before: seq<AuthEvent>, after: seq<AuthEvent>, o: Outcome, trace: Trace)
    requires i < |reqs| && ClockForward(reqs) && (forall r :: r in reqs ==> Lawful(r))
    requires !reqs[i].timedOut && before == Events(default, reqs, i) && Nesting(trace) == Some([])
    requires reqs[i].kind != Other && Target(default, reqs[i]).None? ==> o == BadRequest && trace == Start
    requires reqs[i].kind == Other ==> o == Done && trace == Start
    requires var target := Target(default, reqs[i]);
             target.Some? ==> Handled(reqs[i], target.value, Holds(before, ttl, target.value, reqs[i].now), o,
                                      before, after, trace)
    ensures Justified(default, ttl, reqs, i, Entry(o, trace))
  {
    var target := Target(default, reqs[i]);
    if target.Some? { HoldsIsLoggedIn(default, ttl, reqs, i, target.value); }
  }

  /** Over any requests, provider answers and timeouts, a gated request succeeds if and
      only if the provider does its part and a PIN for that very application was verified
      on the same state less than the lifetime ago and not forgotten since. */
  method RunConnection(default: Text, ttl: nat, reqs: seq<Request>) returns (log: seq<Entry>)
    requires ClockForward(reqs) && (forall r :: r in reqs ==> Lawful(r))
    ensures |log| == |reqs|
    ensures forall i :: 0 <= i < |reqs| ==> Justified(default, ttl, reqs, i, log[i])
  {
    var state := new AuthTable(ttl);
    log := [];
    for i := 0 to |reqs|
      invariant state.Valid() && state.ttl == ttl && fresh(state)
      invariant state.history == Events(default, reqs, i)
      invariant |log| == i && forall k :: 0 <= k < i ==> Justified(default, ttl, reqs, k, log[k])
    {
      var req := reqs[i];
      assert req in reqs;
      if req.timedOut {
        state := new AuthTable(ttl);
        log := log + [Entry(TimedOut, Start)];
      } else {
        EventsInTime(default, reqs, i, req.now);
        ghost var before := state.history;
        var o, trace := Handle(default, req, state);
        HandledIsJustified(default, ttl, reqs, i, before, state.history, o, trace);
        log := log + [Entry(o, trace)];
      }
    }
  }

  // ---------------------------------------------------------------------------
  // An application that does not open
  // ---------------------------------------------------------------------------

  /** After a PIN, one request on the same device finds no application, and then a gated
      request follows that the provider grants within the lifetime. */
  ghost predicate Interrupted(default: Text, ttl: nat, reqs: seq<Request>, key: AuthKey) {
    && |reqs| == 3 && ClockForward(reqs) && (forall r :: r in reqs ==> Lawful(r))
    && VerifiesPin(default, reqs[0], key)
    && !reqs[1].timedOut && Target(default, reqs[1]).Some?
    && OnDevice(key, Target(default, reqs[1]).value.provider, Target(default, reqs[1]).value.device)
    && Both(reqs[1], 0) && !Answer(reqs[1].answers, 2)
    && !reqs[2].timedOut && Gated(reqs[2].kind) && Target(default, reqs[2]) == Some(key)
    && ProviderWilling(reqs[2]) && reqs[2].now < reqs[0].now + ttl
  }

  /** The third request succeeds if and only if the second was a `CreatePKCS10`. */
  lemma OnlyCreatePkcs10Keeps(default: Text, ttl: nat, reqs: seq<Request>, key: AuthKey, entry: Entry)
    requires Interrupted(default, ttl, reqs, key) && Justified(default, ttl, reqs, 2, entry)
    ensures entry.outcome == Done <==> reqs[1].kind == CreatePkcs10
    ensures entry.outcome == Denied <==> reqs[1].kind != CreatePkcs10
  {}

  /** A request for the default provider and a device and an application of empty name. */
  function Sample(kind: Method, now: Time, answers: seq<bool>): Request {
    Request(kind, true, [SLASH, SLASH, SLASH], None, [], [], None, true, true, 2, now, false, answers, [])
  }

  /** A PIN at 10, a `CreatePKCS10` whose application fails, a signature at 30. */
  function SampleRun(): seq<Request> {
    [Sample(CheckPin, 10, [true, true, true, true, true]),
     Sample(CreatePkcs10, 20, [true, true, false]),
     Sample(SignData, 30, [true, true, true, true, true, true])]
  }

  lemma SampleParts()
    ensures SplitN([SLASH, SLASH, SLASH], 5, SLASH) == [[], [], [], []]
  {
    SplitNStep([], 3, SLASH, []);
    assert [] + [SLASH] + [] == [SLASH];
    SplitNStep([], 4, SLASH, [SLASH]);
    assert [] + [SLASH] + [SLASH] == [SLASH, SLASH];
    SplitNStep([], 5, SLASH, [SLASH, SLASH]);
    assert [] + [SLASH] + [SLASH, SLASH] == [SLASH, SLASH, SLASH];
  }

  lemma SampleTarget(default: Text, kind: Method, now: Time, answers: seq<bool>)
    requires kind == CheckPin || kind == CreatePkcs10 || kind == SignData
    ensures Target(default, Sample(kind, now, answers)) == Some(AuthKey(default, [], []))
  {
    SampleParts();
  }

  lemma SampleIsInterrupted(default: Text)
    ensures Interrupted(default, 300, SampleRun(), AuthKey(default, [], []))
  {
    var reqs := SampleRun();
    SampleTarget(default, CheckPin, reqs[0].now, reqs[0].answers);
    SampleTarget(default, CreatePkcs10, reqs[1].now, reqs[1].answers);
    SampleTarget(default, SignData, reqs[2].now, reqs[2].answers);
  }

  /** On that input the signature goes through. */
  lemma SampleRunSigns(default: Text, entry: Entry)
    requires Justified(default, 300, SampleRun(), 2, entry)
    ensures entry.outcome == Done
  {
    SampleIsInterrupted(default);
    OnlyCreatePkcs10Keeps(default, 300, SampleRun(), AuthKey(default, [], []), entry);
  }
}
