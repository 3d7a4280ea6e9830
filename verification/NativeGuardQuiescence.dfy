/** No drop order and no interleaving paints the native guards into a corner: from every
    reachable state some run releases everything. */
module NativeGuardQuiescence {
  import opened Options
  import opened Collections
  import opened NativeGuards
  import opened NativeGuardProofs
  import opened NativeGuardTheorems

  // ---------------------------------------------------------------------------
  // Runs
  // ---------------------------------------------------------------------------

  /** Some run takes `s` to `end`. */
  ghost predicate Leads(s: State, end: State) {
    exists actions: seq<Action> :: Run(s, actions) == Some(end)
  }

  lemma LeadsNowhere(s: State)
    ensures Leads(s, s)
  {
    assert Run(s, []) == Some(s);
  }

  lemma {:induction false} RunConcat(s: State, before: seq<Action>, after: seq<Action>)
    requires Run(s, before).Some?
    ensures Run(s, before + after) == Run(Run(s, before).value, after)
    decreases |after|
  {
    if after == [] {
      assert before + after == before;
    } else {
      var front := after[..|after| - 1];
      assert (before + after)[..|before + after| - 1] == before + front;
      RunConcat(s, before, front);
    }
  }

  lemma LeadsThrough(s: State, mid: State, end: State)
    requires Leads(s, mid) && Leads(mid, end)
    ensures Leads(s, end)
  {
    var before: seq<Action> :| Run(s, before) == Some(mid);
    var after: seq<Action> :| Run(mid, after) == Some(end);
    RunConcat(s, before, after);
  }

  lemma LeadsBy(s: State, a: Action)
    requires Enabled(s, a)
    ensures Leads(s, Apply(s, a))
  {
    assert [a][..0] == [] && Run(s, [a]) == Some(Apply(s, a));
  }

  // ---------------------------------------------------------------------------
  // What is left to do
  // ---------------------------------------------------------------------------

  function LiveIds(s: State): set<Id> { set id | id in s.guards && s.guards[id].phase == Live }

  function OwnedIds(s: State): set<Id> { set id | id in s.guards && s.guards[id].owner.Some? }

  /** One element for each instruction a thread has still to run. */
  function Work(s: State): set<(Tid, nat)> {
    set t, i | t in s.scripts && 0 <= i < |s.scripts[t]| :: (t, i)
  }

  /** Fewer live guards; or as many and fewer boxes; or as many of both and less work. */
  predicate Less(s': State, s: State) {
    || LiveIds(s') < LiveIds(s)
    || (LiveIds(s') == LiveIds(s) && OwnedIds(s') < OwnedIds(s))
    || (LiveIds(s') == LiveIds(s) && OwnedIds(s') == OwnedIds(s) && Work(s') < Work(s))
  }

  lemma WorkShrinks(s: State, s': State, t: Tid)
    requires Script(s, t) != [] && s'.scripts == s.scripts[t := Script(s, t)[1..]]
    ensures Work(s') < Work(s)
  {
    var last := (t, |Script(s, t)| - 1);
    assert last in Work(s) && last !in Work(s');
  }

  lemma SameGuardsLess(s: State, s': State, t: Tid)
    requires Script(s, t) != [] && s'.scripts == s.scripts[t := Script(s, t)[1..]] && s'.guards == s.guards
    ensures Less(s', s)
  {
    WorkShrinks(s, s', t);
  }

  /** Closing a handle moves a guard that is no longer live. */
  lemma CloseLess(s: State, t: Tid, id: Id)
    requires Enabled(s, Step(t, None)) && Script(s, t)[0] == Close(id) && s.guards[id].phase != Live
    ensures Less(Apply(s, Step(t, None)), s)
  {
    var s' := Apply(s, Step(t, None));
    WorkShrinks(s, s', t);
    assert LiveIds(s') == LiveIds(s) && OwnedIds(s') == OwnedIds(s);
  }

  /** Dropping the fields either ends there or takes the last reference of the parent. */
  lemma FieldsLess(s: State, t: Tid, id: Id)
    requires Enabled(s, Step(t, None)) && Script(s, t)[0] == DropFields(id) && s.guards[id].phase != Live
    requires var p := s.guards[id].parent; p.Some? ==> p.value != id && s.guards[p.value].phase == Live
    ensures Less(Apply(s, Step(t, None)), s)
  {
    var s', parent := Apply(s, Step(t, None)), s.guards[id].parent;
    assert OwnedIds(s') == OwnedIds(s);
    if parent.Some? && s.guards[parent.value].strong == 1 {
      assert parent.value in LiveIds(s) && parent.value !in LiveIds(s');
    } else {
      WorkShrinks(s, s', t);
      assert LiveIds(s') == LiveIds(s);
    }
  }

  /** Any step taken with a vendor that refuses leaves less to do. */
  lemma StepLess(s: State, t: Tid)
    requires Inv(s) && Enabled(s, Step(t, None))
    ensures Less(Apply(s, Step(t, None)), s)
  {
    HeadFacts(s, t);
    match Script(s, t)[0]
    case Close(id) => CloseLess(s, t, id);
    case DropFields(id) =>
      if s.guards[id].parent.Some? { ParentIsLive(s, id); }
      FieldsLess(s, t, id);
    case _ => SameGuardsLess(s, Apply(s, Step(t, None)), t);
  }

  lemma DropLess(s: State, t: Tid, id: Id)
    requires Enabled(s, BeginDrop(t, id)) && s.guards[id].phase == Live
    ensures Less(Apply(s, BeginDrop(t, id)), s)
  {
    var s' := Apply(s, BeginDrop(t, id));
    assert id in OwnedIds(s) && id !in OwnedIds(s');
    if s.guards[id].strong == 1 {
      assert id in LiveIds(s) && id !in LiveIds(s');
    } else {
      assert LiveIds(s') == LiveIds(s);
    }
  }

  // ---------------------------------------------------------------------------
  // There is always something to do
  // ---------------------------------------------------------------------------

  /** A run from `s` to a state with less left to do, extending the vendor trace. */
  ghost predicate Advances(s: State, s': State) {
    Leads(s, s') && Inv(s') && Less(s', s) && s.trace <= s'.trace
  }

  lemma TraceGrows(s: State, a: Action)
    requires Enabled(s, a)
    ensures s.trace <= Apply(s, a).trace
  {
    if a.Step? && Script(s, a.t)[0].OpenChild? {}
  }

  lemma StepAdvances(s: State, t: Tid)
    requires Inv(s) && Enabled(s, Step(t, None))
    ensures Advances(s, Apply(s, Step(t, None)))
  {
    KeepsInv(s, Step(t, None));
    LeadsBy(s, Step(t, None));
    StepLess(s, t);
    TraceGrows(s, Step(t, None));
  }

  /** A parked wait is woken by a device event and then returns. */
  lemma WaitAdvances(s: State, t: Tid) returns (s': State)
    requires Inv(s) && Script(s, t) != [] && Script(s, t)[0] == Wait
    ensures Advances(s, s')
  {
    var woken := Apply(s, DeviceEvent);
    KeepsInv(s, DeviceEvent);
    LeadsBy(s, DeviceEvent);
    RunsUnlessBlocked(woken, t, None);
    StepAdvances(woken, t);
    s' := Apply(woken, Step(t, None));
    LeadsThrough(s, woken, s');
    assert LiveIds(woken) == LiveIds(s) && OwnedIds(woken) == OwnedIds(s) && Work(woken) == Work(s);
  }

  lemma BusyAdvances(s: State, t: Tid) returns (s': State)
    requires Inv(s) && Script(s, t) != []
    ensures Advances(s, s')
  {
    var u := if s.gate.Some? then s.gate.value else t;
    assert s.gate == Some(u) ==> Critical(Script(s, u));
    if Script(s, u)[0] == Wait {
      s' := WaitAdvances(s, u);
    } else {
      RunsUnlessBlocked(s, u, None);
      StepAdvances(s, u);
      s' := Apply(s, Step(u, None));
    }
  }

  lemma BoxAdvances(s: State, id: Id) returns (s': State)
    requires Inv(s) && id in s.guards && s.guards[id].owner.Some? && Script(s, s.guards[id].owner.value) == []
    ensures Advances(s, s')
  {
    var t := s.guards[id].owner.value;
    OwnedIsLive(s, t, id);
    s' := Apply(s, BeginDrop(t, id));
    KeepsInv(s, BeginDrop(t, id));
    LeadsBy(s, BeginDrop(t, id));
    DropLess(s, t, id);
    TraceGrows(s, BeginDrop(t, id));
  }

  lemma {:induction false} DrainFrom(s: State) returns (end: State)
    requires Inv(s)
    ensures Leads(s, end) && Inv(end) && Quiet(end) && s.trace <= end.trace
    decreases |LiveIds(s)|, |OwnedIds(s)|, |Work(s)|
  {
    if Quiet(s) {
      end := s;
      LeadsNowhere(s);
    } else {
      var next := Advance(s);
      if LiveIds(next) < LiveIds(s) { StrictSubsetSize(LiveIds(next), LiveIds(s)); }
      else if OwnedIds(next) < OwnedIds(s) { StrictSubsetSize(OwnedIds(next), OwnedIds(s)); }
      else { StrictSubsetSize(Work(next), Work(s)); }
      end := DrainFrom(next);
      LeadsThrough(s, next, end);
    }
  }

  lemma Advance(s: State) returns (s': State)
    requires Inv(s) && !Quiet(s)
    ensures Advances(s, s')
  {
    if t: Tid :| Script(s, t) != [] {
      s' := BusyAdvances(s, t);
    } else {
      var id :| id in s.guards && s.guards[id].owner != None;
      s' := BoxAdvances(s, id);
    }
  }

  /** From every reachable state, whatever is open, half dropped, locked or waiting, some
      run ends with every thread idle and every box dropped, and then each handle opened
      so far has been closed exactly once. */
  lemma CanAlwaysRelease(s: State) returns (end: State)
    requires Reachable(s)
    ensures Leads(s, end) && Quiet(end) && s.trace <= end.trace
    ensures forall i, id :: OpenAt(s.trace, i, id) ==>
              exists j :: i < j && CloseAt(end.trace, j, id) && forall k :: CloseAt(end.trace, k, id) ==> k == j
  {
    ReachableInv(s);
    end := DrainFrom(s);
    LeadsThrough(INITIAL, s, end);
    forall i, id | OpenAt(s.trace, i, id)
      ensures exists j :: i < j && CloseAt(end.trace, j, id) && forall k :: CloseAt(end.trace, k, id) ==> k == j {
      assert OpenAt(end.trace, i, id);
      EverythingReleased(end, i, id);
    }
  }
}
