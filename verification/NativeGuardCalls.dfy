/** What each vendor call leaves behind: the guard it makes, the count it raises, the
    events the library sees; call by call and over whole method bodies. */
module NativeGuardCalls {
  import opened Options
  import opened Resources
  import opened NativeGuards
  import opened NativeGuardProofs
  import opened NativeGuardTheorems
  import opened NativeGuardQuiescence

  // ---------------------------------------------------------------------------
  // One call
  // ---------------------------------------------------------------------------

  /** `s'` is `s` with one more guard, under an id never used before. */
  ghost predicate Gains(s: State, s': State, id: Id, guards: map<Id, Guard>, g: Guard) {
    id !in s.guards && s'.guards == guards[id := g]
  }

  lemma NextIsUnused(s: State)
    requires Reachable(s)
    ensures s.next !in s.guards
  {
    ReachableInv(s);
  }

  /** A connect that succeeds makes a live device, owned by its thread and counted once;
      one that fails makes nothing. */
  lemma ConnectMakesDevice(s: State, t: Tid, answer: Option<nat>)
    requires Reachable(s) && Script(s, t) != [] && Script(s, t)[0] == Connect
    ensures Enabled(s, Step(t, answer))
    ensures var s' := Apply(s, Step(t, answer));
            match answer
            case None => s'.guards == s.guards && s'.trace == s.trace
            case Some(raw) =>
              exists id :: Gains(s, s', id, s.guards, Guard(Device, None, raw, 1, Some(t), Live))
                           && s'.trace == s.trace + [Opened(id, None, raw)]
  {
    ReachableInv(s);
    NextIsUnused(s);
    RunsUnlessBlocked(s, t, answer);
    var s' := Apply(s, Step(t, answer));
    if answer.Some? { assert Gains(s, s', s.next, s.guards, Guard(Device, None, answer.value, 1, Some(t), Live)); }
  }

  /** Opening a child uses the parent's handle, and on success makes a live guard that
      holds one more reference to its parent. */
  lemma OpenMakesChild(s: State, t: Tid, of: Id, kind: Kind, answer: Option<nat>)
    requires Reachable(s) && Script(s, t) != [] && Script(s, t)[0] == OpenChild(of, kind)
    ensures Enabled(s, Step(t, answer)) && Owns(s, t, of) && s.guards[of].phase == Live
    ensures var s', g := Apply(s, Step(t, answer)), s.guards[of];
            match answer
            case None => s'.guards == s.guards && s'.trace == s.trace + [Used(of)]
            case Some(raw) =>
              exists id :: Gains(s, s', id, s.guards[of := g.(strong := g.strong + 1)],
                                 Guard(kind, Some(of), raw, 1, Some(t), Live))
                           && s'.trace == s.trace + [Used(of), Opened(id, Some(of), raw)]
  {
    ReachableInv(s);
    NextIsUnused(s);
    HeadFacts(s, t);
    RunsUnlessBlocked(s, t, answer);
    OpenStep(s, t, of, kind, answer);
  }

  lemma OpenStep(s: State, t: Tid, of: Id, kind: Kind, answer: Option<nat>)
    requires Enabled(s, Step(t, answer)) && Script(s, t)[0] == OpenChild(of, kind) && s.next !in s.guards
    ensures var s', g := Apply(s, Step(t, answer)), s.guards[of];
            match answer
            case None => s'.guards == s.guards && s'.trace == s.trace + [Used(of)]
            case Some(raw) =>
              && Gains(s, s', s.next, s.guards[of := g.(strong := g.strong + 1)],
                       Guard(kind, Some(of), raw, 1, Some(t), Live))
              && s'.trace == s.trace + [Used(of), Opened(s.next, Some(of), raw)]
  {}

  /** Any other call uses the handle it is made on, and changes no guard. */
  lemma CallUsesHandle(s: State, t: Tid, on: Id, answer: Option<nat>)
    requires Reachable(s) && Script(s, t) != [] && Script(s, t)[0] == Call(on)
    ensures Enabled(s, Step(t, answer)) && Owns(s, t, on) && s.guards[on].phase == Live
    ensures var s' := Apply(s, Step(t, answer)); s'.guards == s.guards && s'.trace == s.trace + [Used(on)]
  {
    ReachableInv(s);
    HeadFacts(s, t);
    RunsUnlessBlocked(s, t, answer);
  }

  /** A guard's parent is of the one kind the library allows, and is not gone while it
      is there. */
  lemma ParentsFit(s: State, id: Id)
    requires Reachable(s) && id in s.guards
    ensures var g := s.guards[id];
            && (g.kind == Device <==> g.parent == None)
            && (g.parent.Some? ==>
                  && g.parent.value in s.guards
                  && s.guards[g.parent.value].kind == (if g.kind == Container then Application else Device)
                  && (g.phase != Gone ==> s.guards[g.parent.value].phase == Live))
  {
    ReachableInv(s);
    assert PlaceOk(s.guards, s.next, id);
    if s.guards[id].parent.Some? && s.guards[id].phase != Gone { ParentIsLive(s, id); }
  }

  /** A box that moves with its session has the new thread as its only holder. */
  lemma MoveHandsOver(s: State, t: Tid, id: Id, to: Tid)
    requires Enabled(s, Move(t, id, to))
    ensures var s' := Apply(s, Move(t, id, to));
            && Owns(s', to, id) && (t != to ==> !Owns(s', t, id))
            && s'.guards.Keys == s.guards.Keys && s'.scripts == s.scripts && s'.trace == s.trace && s'.gate == s.gate
            && (forall x :: x in s.guards && x != id ==> s'.guards[x] == s.guards[x])
            && s'.guards[id].strong == s.guards[id].strong && s'.guards[id].phase == s.guards[id].phase
  {}

  // ---------------------------------------------------------------------------
  // Whole method bodies
  // ---------------------------------------------------------------------------

  /** A gated method from its beginning to its return, alone on the gate. */
  function Body(begin: Action, t: Tid, answer: Option<nat>): seq<Action> {
    [begin, Step(t, None), Step(t, answer), Step(t, None)]
  }

  /** One enabled action that leads to `s'`. */
  predicate Does(s: State, a: Action, s': State) { Enabled(s, a) && Apply(s, a) == s' }

  lemma RunCons(s: State, a: Action, s': State, rest: seq<Action>)
    requires Does(s, a, s')
    ensures Run(s, [a] + rest) == Run(s', rest)
  {
    assert [a][..0] == [] && Run(s, [a]) == Some(s');
    RunConcat(s, [a], rest);
  }

  lemma RunFour(s: State, a: Action, s1: State, b: Action, s2: State, c: Action, s3: State, d: Action, s4: State)
    requires Does(s, a, s1) && Does(s1, b, s2) && Does(s2, c, s3) && Does(s3, d, s4)
    ensures Run(s, [a, b, c, d]) == Some(s4)
  {
    RunCons(s3, d, s4, []);
    assert [d] + [] == [d] && Run(s4, []) == Some(s4);
    RunCons(s2, c, s3, [d]);
    assert [c] + [d] == [c, d];
    RunCons(s1, b, s2, [c, d]);
    assert [b] + [c, d] == [b, c, d];
    RunCons(s, a, s1, [b, c, d]);
    assert [a] + [b, c, d] == [a, b, c, d];
  }

  /** The server with thread `t` at `script`, the gate as given. */
  function With(s: State, t: Tid, script: seq<Instr>, gate: Option<Tid>): State {
    s.(scripts := s.scripts[t := script], gate := gate)
  }

  lemma LockDoes(s: State, t: Tid, rest: seq<Instr>)
    ensures Does(With(s, t, [Lock] + rest, None), Step(t, None), With(s, t, rest, Some(t)))
  {
    var before := With(s, t, [Lock] + rest, None);
    assert Script(before, t) == [Lock] + rest && ([Lock] + rest)[1..] == rest;
    assert before.scripts[t := rest] == s.scripts[t := rest];
  }

  lemma UnlockDoes(s: State, t: Tid)
    ensures Does(With(s, t, [Unlock], Some(t)), Step(t, None), With(s, t, [], None))
  {
    var before := With(s, t, [Unlock], Some(t));
    assert Script(before, t) == [Unlock] && [Unlock][1..] == [];
    assert before.scripts[t := []] == s.scripts[t := []];
  }

  predicate Vendor(call: Instr) { call == Connect || call.Call? || call.OpenChild? || call == Query }

  /** The call under the gate changes neither scripts nor gate. */
  lemma CallDoes(s: State, t: Tid, call: Instr, answer: Option<nat>, done: State)
    requires Vendor(call) && (call.OpenChild? ==> call.of in s.guards) && done == Perform(s, t, call, answer)
    ensures done.scripts == s.scripts && done.gate == s.gate
    ensures Does(With(s, t, [call, Unlock], Some(t)), Step(t, answer), With(done, t, [Unlock], Some(t)))
  {
    var before := With(s, t, [call, Unlock], Some(t));
    assert Script(before, t) == [call, Unlock] && [call, Unlock][1..] == [Unlock];
    assert before.scripts[t := [Unlock]] == s.scripts[t := [Unlock]];
  }

  /** Lock, call, unlock: the call happens under the gate, and the gate is free after. */
  lemma BodyRuns(s: State, begin: Action, t: Tid, call: Instr, answer: Option<nat>, done: State)
    requires s.gate == None && Does(s, begin, With(s, t, [Lock, call, Unlock], None))
    requires Vendor(call) && (call.OpenChild? ==> call.of in s.guards) && done == Perform(s, t, call, answer)
    ensures Run(s, Body(begin, t, answer)) == Some(With(done, t, [], None))
  {
    LockDoes(s, t, [call, Unlock]);
    assert [Lock] + [call, Unlock] == [Lock, call, Unlock];
    CallDoes(s, t, call, answer, done);
    UnlockDoes(done, t);
    RunFour(s, begin, With(s, t, [Lock, call, Unlock], None), Step(t, None), With(s, t, [call, Unlock], Some(t)),
            Step(t, answer), With(done, t, [Unlock], Some(t)), Step(t, None), With(done, t, [], None));
  }

  /** The state after `t` connected a device. */
  function WithDevice(s: State, t: Tid, raw: nat): State {
    s.(guards := s.guards[s.next := Guard(Device, None, raw, 1, Some(t), Live)],
       next := s.next + 1,
       trace := s.trace + [Opened(s.next, None, raw)])
  }

  lemma ConnectRuns(s: State, t: Tid, raw: nat)
    requires s.gate == None && Script(s, t) == []
    ensures Run(s, Body(BeginConnect(t), t, Some(raw))) == Some(With(WithDevice(s, t, raw), t, [], None))
  {
    assert Does(s, BeginConnect(t), With(s, t, [Lock, Connect, Unlock], None));
    BodyRuns(s, BeginConnect(t), t, Connect, Some(raw), WithDevice(s, t, raw));
  }

  /** The state after `t` opened a child of `of`. */
  function WithChild(s: State, t: Tid, of: Id, kind: Kind, raw: nat): State
    requires of in s.guards
  {
    s.(guards := s.guards[of := s.guards[of].(strong := s.guards[of].strong + 1)]
                         [s.next := Guard(kind, Some(of), raw, 1, Some(t), Live)],
       next := s.next + 1,
       trace := s.trace + [Used(of)] + [Opened(s.next, Some(of), raw)])
  }

  lemma OpenPerforms(s: State, t: Tid, of: Id, kind: Kind, raw: nat)
    requires of in s.guards
    ensures Perform(s, t, OpenChild(of, kind), Some(raw)) == WithChild(s, t, of, kind, raw)
  {}

  lemma OpenRuns(s: State, t: Tid, of: Id, kind: Kind, raw: nat)
    requires s.gate == None && Script(s, t) == [] && Owns(s, t, of) && Nests(kind, s.guards[of].kind)
    ensures Run(s, Body(BeginOpen(t, of, kind), t, Some(raw)))
            == Some(With(WithChild(s, t, of, kind, raw), t, [], None))
  {
    OpenPerforms(s, t, of, kind, raw);
    assert Does(s, BeginOpen(t, of, kind), With(s, t, [Lock, OpenChild(of, kind), Unlock], None));
    BodyRuns(s, BeginOpen(t, of, kind), t, OpenChild(of, kind), Some(raw), WithChild(s, t, of, kind, raw));
  }

  lemma CallRuns(s: State, t: Tid, on: Id, answer: Option<nat>)
    requires s.gate == None && Script(s, t) == [] && Owns(s, t, on)
    ensures Run(s, Body(BeginCall(t, on), t, answer)) == Some(With(s.(trace := s.trace + [Used(on)]), t, [], None))
  {
    assert Does(s, BeginCall(t, on), With(s, t, [Lock, Call(on), Unlock], None));
    BodyRuns(s, BeginCall(t, on), t, Call(on), answer, s.(trace := s.trace + [Used(on)]));
  }

  /** A query takes the gate like any other call and leaves no trace. */
  lemma QueryRuns(s: State, t: Tid, answer: Option<nat>)
    requires s.gate == None && Script(s, t) == []
    ensures Run(s, Body(BeginQuery(t), t, answer)) == Some(With(s, t, [], None))
    ensures Script(Apply(s, BeginQuery(t)), t) == [Lock, Query, Unlock]
  {
    assert Does(s, BeginQuery(t), With(s, t, [Lock, Query, Unlock], None));
    BodyRuns(s, BeginQuery(t), t, Query, answer, s);
  }

  /** A wait parks without the gate, and a cancel from another thread ends it, whoever
      holds the gate. */
  lemma WaitParksAndCancelEndsIt(s: State, w: Tid, t: Tid)
    requires Reachable(s) && Script(s, w) == [] && Script(s, t) == [] && w != t && !s.signalled
    ensures var parked := Apply(s, BeginWait(w));
            && Enabled(s, BeginWait(w)) && Script(parked, w) == [Wait] && !Enabled(parked, Step(w, None))
            && parked.gate == s.gate
            && var woken := Run(parked, [BeginCancel(t), Step(t, None), Step(w, None)]);
               woken.Some? && Script(woken.value, w) == [] && woken.value.gate == s.gate
  {
    var parked := Apply(s, BeginWait(w));
    LeadsBy(s, BeginWait(w));
    LeadsThrough(INITIAL, s, parked);
    CancelWakesWait(parked, t, w);
  }

  /** The state and its books, apart from which threads have idled. */
  ghost predicate Idle(s: State, guards: map<Id, Guard>, next: Id, trace: seq<Event>) {
    && Leads(INITIAL, s) && s.gate == None && Script(s, 0) == []
    && s.guards == guards && s.next == next && s.trace == trace
  }

  lemma AfterConnect() returns (s: State)
    ensures Idle(s, map[0 := Guard(Device, None, 70, 1, Some(0), Live)], 1, [Opened(0, None, 70)])
  {
    ConnectRuns(INITIAL, 0, 70);
    s := Run(INITIAL, Body(BeginConnect(0), 0, Some(70))).value;
  }

  lemma AfterOpen(s: State, guards: map<Id, Guard>, next: Id, trace: seq<Event>, of: Id, kind: Kind, raw: nat)
    returns (s': State)
    requires Idle(s, guards, next, trace) && of in guards && guards[of].owner == Some(0) && Nests(kind, guards[of].kind)
    ensures Idle(s', guards[of := guards[of].(strong := guards[of].strong + 1)]
                           [next := Guard(kind, Some(of), raw, 1, Some(0), Live)],
                 next + 1, trace + [Used(of)] + [Opened(next, Some(of), raw)])
  {
    s' := With(WithChild(s, 0, of, kind, raw), 0, [], None);
    assert Leads(s, s') by { OpenRuns(s, 0, of, kind, raw); }
    assert Leads(INITIAL, s') by { LeadsThrough(INITIAL, s, s'); }
  }

  /** From nothing, one thread connects a device, opens an application and a digest on it
      and a container in the application, and owns all four. */
  lemma OneOfEach() returns (s: State)
    ensures Reachable(s) && s.gate == None && Script(s, 0) == []
    ensures s.guards == map[0 := Guard(Device, None, 70, 3, Some(0), Live),
                            1 := Guard(Application, Some(0), 71, 2, Some(0), Live),
                            2 := Guard(Container, Some(1), 72, 1, Some(0), Live),
                            3 := Guard(Digest, Some(0), 73, 1, Some(0), Live)]
    ensures s.trace == [Opened(0, None, 70), Used(0), Opened(1, Some(0), 71),
                        Used(1), Opened(2, Some(1), 72), Used(0), Opened(3, Some(0), 73)]
  {
    var s1 := AfterConnect();
    var s2 := AfterOpen(s1, s1.guards, 1, s1.trace, 0, Application, 71);
    assert s2.guards == map[0 := Guard(Device, None, 70, 2, Some(0), Live),
                            1 := Guard(Application, Some(0), 71, 1, Some(0), Live)];
    var s3 := AfterOpen(s2, s2.guards, 2, s2.trace, 1, Container, 72);
    assert s3.guards == map[0 := Guard(Device, None, 70, 2, Some(0), Live),
                            1 := Guard(Application, Some(0), 71, 2, Some(0), Live),
                            2 := Guard(Container, Some(1), 72, 1, Some(0), Live)];
    s := AfterOpen(s3, s3.guards, 3, s3.trace, 0, Digest, 73);
  }
}
