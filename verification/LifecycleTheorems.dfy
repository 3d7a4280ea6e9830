/** The main results about connections and sessions, for every reachable state. */
module LifecycleTheorems {
  import opened Options
  import opened Collections
  import opened Lifecycle
  import opened LifecycleProofs

  // ---------------------------------------------------------------------------
  // One place for every state
  // ---------------------------------------------------------------------------

  /** The state `id` is at `p`; `Nowhere` stands for dropped, once. */
  predicate IsAt(s: Server, id: SessionId, p: Place) {
    if p == Nowhere then s.gone[id] == 1 else SlotAt(s, p).Some? && SlotAt(s, p).value.id == id
  }

  /** Every state ever created is in exactly one place: one guard, one task, or dropped. */
  lemma ExactlyOnePlace(s: Server, id: SessionId)
    requires Reachable(s) && id in s.created
    ensures exists p :: IsAt(s, id, p) && forall q :: IsAt(s, id, q) ==> q == p
    ensures s.gone[id] <= 1
  {
    ReachableInv(s);
    var home, owner :| Placed(s, home) && Owned(s, home, owner);
    assert Settled(s, home[id], id) && IsAt(s, id, home[id]);
    forall q | IsAt(s, id, q) ensures q == home[id] {
      if q != Nowhere { assert SlotAt(s, q).Some?; }
    }
  }

  /** No two places share a resource, and none of them holds a released one. */
  lemma ResourcesNotShared(s: Server, p: Place, q: Place, r: Resource)
    requires Reachable(s) && Has(s, p, r) && Has(s, q, r)
    ensures p == q && r in s.issued && r !in s.released
  {
    ReachableInv(s);
    var home, owner :| Placed(s, home) && Owned(s, home, owner);
    assert home[SlotAt(s, p).value.id] == p && home[SlotAt(s, q).value.id] == q;
  }

  /** `take_state` never finds the slot empty. */
  lemma TakeAlwaysFinds(s: Server, c: ConnId, t: TaskId, exempt: bool)
    requires Reachable(s) && Enabled(s, Begin(c, t, exempt))
    ensures s.conns[c].guard.value.slot.Some? && !Apply(s, Begin(c, t, exempt)).crashed
  {
    ReachableInv(s);
    assert ConnOk(s, c);
  }

  /** `put_state` never overwrites a state: what it drops is nothing. */
  lemma PutNeverOverwrites(s: Server, c: ConnId)
    requires Reachable(s) && Waits(s, c)
    ensures s.conns[c].guard.value.slot.None?
  {
    ReachableInv(s);
    assert ConnOk(s, c);
  }

  // ---------------------------------------------------------------------------
  // Requests that do not come back
  // ---------------------------------------------------------------------------

  /** The connection is ready again, empty and in English. */
  predicate StartsOver(s: Server, c: ConnId, id: SessionId) {
    && At(s, c, Ready) && Guarded(s, c)
    && s.conns[c].guard.value.slot == Some(FreshSession(id)) && s.conns[c].guard.value.lang == EN
  }

  /** After a timeout the connection goes on with no grants, no handles and English,
      still registered under its first id; a running task keeps the old state and what
      it owns. */
  lemma TimeOutStartsOver(s: Server, c: ConnId, id: SessionId)
    requires Reachable(s) && Enabled(s, TimeOut(c, id))
    ensures var s', t := Apply(s, TimeOut(c, id)), s.conns[c].stage.task;
            && StartsOver(s', c, id) && s'.registry == s.registry && s'.crashed == s.crashed
            && s'.conns[c].guard.value.marker == s.conns[c].guard.value.marker
            && (s.tasks[t].status == Running ==>
                  && SlotAt(s', OnTask(t)) == SlotAt(s, OnTask(t)) && SlotAt(s', OnTask(t)).Some?
                  && s'.gone == s.gone && s'.released == s.released)
            && (s.tasks[t].status != Running ==> t !in s'.tasks)
  {
    ReachableInv(s);
    assert ConnOk(s, c);
    assert TaskOk(s, s.conns[c].stage.task);
  }

  /** A finished task gives its state and language back unchanged; a panicked one has
      dropped its state, once, and the connection starts over. */
  lemma JoinRestoresOrStartsOver(s: Server, c: ConnId, id: SessionId)
    requires Reachable(s) && Enabled(s, Join(c, id))
    ensures var s', task := Apply(s, Join(c, id)), s.tasks[s.conns[c].stage.task];
            && At(s', c, Ready) && s'.registry == s.registry && s.conns[c].stage.task !in s'.tasks
            && s'.gone == s.gone && s'.released == s.released
            && (task.status == Finished ==>
                  && SlotAt(s', InGuard(c)) == task.session && task.session.Some?
                  && s'.conns[c].guard.value.lang == task.lang)
            && (task.status == Panicked ==> StartsOver(s', c, id))
  {
    ReachableInv(s);
    assert ConnOk(s, c);
    assert TaskOk(s, s.conns[c].stage.task);
  }

  lemma ReachableStep(s: Server, a: Action)
    requires Reachable(s) && Enabled(s, a)
    ensures Reachable(Apply(s, a))
  {
    var actions: seq<Action> :| Run(INITIAL, actions) == Some(s);
    assert (actions + [a])[..|actions|] == actions;
    assert Run(INITIAL, actions + [a]) == Some(Apply(s, a));
  }

  /** State `id` is alone on the given-up task `t`, or dropped. */
  predicate GivenUp(s: Server, t: TaskId, id: SessionId) {
    || s.gone[id] >= 1
    || (t in s.tasks && s.tasks[t].abandoned && s.tasks[t].session.Some? && s.tasks[t].session.value.id == id)
  }

  lemma GivenUpStep(s: Server, a: Action, t: TaskId, id: SessionId)
    requires Structured(s) && Enabled(s, a) && GivenUp(s, t, id)
    ensures GivenUp(Apply(s, a), t, id)
  {
    if ByTask(a) { GivenUpByTask(s, a, t, id); }
    else if ByConn(a) { GivenUpByConn(s, a, t, id); }
  }

  lemma GivenUpByTask(s: Server, a: Action, t: TaskId, id: SessionId)
    requires Structured(s) && Enabled(s, a) && GivenUp(s, t, id) && ByTask(a)
    ensures GivenUp(Apply(s, a), t, id)
  {
    assert TaskOk(s, a.t);
    if a.Work? { WorkShape(s, a.t, a.effect); }
  }

  /** Connections only drop states and only touch tasks they wait for. */
  lemma GivenUpByConn(s: Server, a: Action, t: TaskId, id: SessionId)
    requires Structured(s) && Enabled(s, a) && GivenUp(s, t, id) && ByConn(a)
    ensures GivenUp(Apply(s, a), t, id)
  {
    if a.c in s.conns { assert ConnOk(s, a.c); }
    if a.Join? || a.TimeOut? || a.Abort? { GivenUpByWaiter(s, a, t, id); }
  }

  lemma GivenUpByWaiter(s: Server, a: Action, t: TaskId, id: SessionId)
    requires Enabled(s, a) && GivenUp(s, t, id) && (a.Join? || a.TimeOut? || a.Abort?) && ConnOk(s, a.c)
    ensures GivenUp(Apply(s, a), t, id)
  {
    if a.Join? { assert s.conns[a.c].stage.task != t || s.gone[id] >= 1; }
    else if a.TimeOut? { GivenUpDetach(s, s.conns[a.c].stage.task, t, id); }
    else if s.conns[a.c].stage.Awaiting? { GivenUpDetach(s, s.conns[a.c].stage.task, t, id); }
  }

  lemma GivenUpDetach(s: Server, u: TaskId, t: TaskId, id: SessionId)
    requires u in s.tasks && !s.tasks[u].abandoned && GivenUp(s, t, id)
    ensures GivenUp(Detach(s, u), t, id)
  {}

  /** A state given up by a timeout or an abort never comes back: in every continuation
      no guard holds it, whatever the task does later. */
  lemma {:induction false} AbandonedNeverReturns(s: Server, t: TaskId, actions: seq<Action>)
    requires Reachable(s) && t in s.tasks && s.tasks[t].abandoned && Run(s, actions).Some?
    ensures s.tasks[t].session.Some?
    ensures var s', id := Run(s, actions).value, s.tasks[t].session.value.id;
            Reachable(s') && GivenUp(s', t, id) && forall c :: !IsAt(s', id, InGuard(c))
    decreases |actions|
  {
    ReachableInv(s);
    assert TaskOk(s, t);
    var id := s.tasks[t].session.value.id;
    if actions != [] {
      var front, a := actions[..|actions| - 1], actions[|actions| - 1];
      AbandonedNeverReturns(s, t, front);
      var before := Run(s, front).value;
      ReachableInv(before);
      GivenUpStep(before, a, t, id);
      ReachableStep(before, a);
    }
    GivenUpIsAway(Run(s, actions).value, t, id);
  }

  lemma GivenUpIsAway(s: Server, t: TaskId, id: SessionId)
    requires Reachable(s) && GivenUp(s, t, id)
    ensures forall c :: !IsAt(s, id, InGuard(c))
  {
    ReachableInv(s);
    var home, owner :| Placed(s, home) && Owned(s, home, owner);
    assert SlotAt(s, OnTask(t)).Some? ==> home[SlotAt(s, OnTask(t)).value.id] == OnTask(t);
    assert id in home && Settled(s, home[id], id);
    forall c ensures !IsAt(s, id, InGuard(c)) {
      assert SlotAt(s, InGuard(c)).Some? ==> home[SlotAt(s, InGuard(c)).value.id] == InGuard(c);
    }
  }

  // ---------------------------------------------------------------------------
  // Registry and permits
  // ---------------------------------------------------------------------------

  ghost function Markers(s: Server): set<SessionId> {
    set c | c in s.conns && Alive(s, c) :: s.conns[c].guard.value.marker
  }

  function LiveConns(s: Server): set<ConnId> { set c | c in s.conns && Alive(s, c) }

  lemma {:induction false} KeysAreCounted(m: map<SessionId, ConnId>)
    requires forall a, b :: a in m && b in m && m[a] == m[b] ==> a == b
    ensures |m.Keys| == |m.Values|
    decreases |m|
  {
    if m.Keys != {} {
      var k :| k in m.Keys;
      var rest := m - {k};
      assert m.Keys == rest.Keys + {k};
      assert m.Values == rest.Values + {m[k]} && m[k] !in rest.Values;
      assert |rest| < |m| by { assert |m.Keys| == |rest.Keys| + 1; }
      KeysAreCounted(rest);
    }
  }

  /** The registry's keys are the markers of the live guards, one each, even after their
      states were replaced; pruning removes nothing; and sessions never outnumber the
      permits in use, which never outnumber 64. */
  lemma SessionsWithinPermits(s: Server)
    requires Reachable(s)
    ensures s.registry.Keys == Markers(s) && Pruned(s) == s.registry
    ensures |s.registry| == |LiveConns(s)| <= |s.conns| == MAX_CONNECTIONS - s.permits <= 64
  {
    ReachableInv(s);
    PruneRemovesNothing(s);
    KeysAreCounted(s.registry);
    forall c | c in LiveConns(s) ensures c in s.registry.Values {
      assert s.registry[s.conns[c].guard.value.marker] == c;
    }
    assert s.registry.Values == LiveConns(s);
    assert LiveConns(s) <= s.conns.Keys;
    SubsetSize(LiveConns(s), s.conns.Keys);
    assert |s.registry| == |s.registry.Keys| && |s.conns| == |s.conns.Keys|;
  }

  /** A new connection is turned away exactly when 64 are open, and then nothing changes. */
  lemma AdmittedIffRoom(s: Server, c: ConnId)
    requires Reachable(s) && Enabled(s, Accept(c))
    ensures c in Apply(s, Accept(c)).conns <==> |s.conns| < 64
    ensures |s.conns| == 64 <==> Apply(s, Accept(c)) == s
  {
    ReachableInv(s);
  }

  // ---------------------------------------------------------------------------
  // Everything is released
  // ---------------------------------------------------------------------------

  /** Once no task runs and every connection has closed, every state and every resource
      ever handed out has been dropped exactly once, and all permits are back. */
  lemma AllReleased(s: Server)
    requires Reachable(s) && s.tasks == map[] && s.conns == map[]
    ensures s.gone == multiset(s.created) && s.released == multiset(s.issued)
    ensures s.permits == 64 && s.registry == map[]
  {
    ReachableInv(s);
    var home, owner :| Placed(s, home) && Owned(s, home, owner);
    assert forall p :: SlotAt(s, p).None?;
    forall id ensures s.gone[id] == multiset(s.created)[id] {
      if id in s.created { assert Settled(s, home[id], id); }
    }
    forall r ensures s.released[r] == multiset(s.issued)[r] {
      if r in s.issued { assert Kept(s, home[owner[r]], r); }
    }
  }

  /** Some run of the server takes `s` to `end`. */
  ghost predicate Leads(s: Server, end: Server) {
    exists actions: seq<Action> :: Run(s, actions) == Some(end)
  }

  lemma LeadsNowhere(s: Server)
    ensures Leads(s, s)
  {
    assert Run(s, []) == Some(s);
  }

  lemma {:induction false} RunConcat(s: Server, before: seq<Action>, after: seq<Action>)
    requires Run(s, before).Some?
    ensures Run(s, before + after) == Run(Run(s, before).value, after)
    decreases |after|
  {
    if after == [] {
      assert before + after == before;
    } else {
      var front, a := after[..|after| - 1], after[|after| - 1];
      assert (before + after)[..|before + after| - 1] == before + front;
      RunConcat(s, before, front);
    }
  }

  lemma LeadsThrough(s: Server, mid: Server, end: Server)
    requires Leads(s, mid) && Leads(mid, end)
    ensures Leads(s, end)
  {
    var before: seq<Action> :| Run(s, before) == Some(mid);
    var after: seq<Action> :| Run(mid, after) == Some(end);
    RunConcat(s, before, after);
  }

  /** One enabled action, then a run. */
  lemma LeadsBy(s: Server, a: Action, end: Server)
    requires Enabled(s, a) && Leads(Apply(s, a), end)
    ensures Leads(s, end)
  {
    assert [a][..0] == [] && Run(s, [a]) == Some(Apply(s, a));
    LeadsThrough(s, Apply(s, a), end);
  }

  lemma LeadsReachable(s: Server, end: Server)
    requires Reachable(s) && Leads(s, end)
    ensures Reachable(end)
  {
    LeadsThrough(INITIAL, s, end);
  }

  /** Some run from `s` closes `c` and hands nothing new out. */
  ghost predicate ClosedFrom(s: Server, s': Server, c: ConnId) {
    Leads(s, s') && s'.conns == s.conns - {c} && s'.issued == s.issued && s'.created == s.created
  }

  lemma CloseBare(s: Server, c: ConnId) returns (s': Server)
    requires At(s, c, Bare)
    ensures ClosedFrom(s, s', c)
  {
    s' := Apply(s, ReleasePermit(c));
    LeadsNowhere(s');
    LeadsBy(s, ReleasePermit(c), s');
  }

  lemma CloseDeregistered(s: Server, c: ConnId) returns (s': Server)
    requires At(s, c, Deregistered) && Guarded(s, c)
    ensures ClosedFrom(s, s', c)
  {
    s' := CloseBare(Apply(s, ReleaseState(c)), c);
    LeadsBy(s, ReleaseState(c), s');
  }

  lemma CloseLeaving(s: Server, c: ConnId) returns (s': Server)
    requires At(s, c, Leaving) && Guarded(s, c)
    ensures ClosedFrom(s, s', c)
  {
    s' := CloseDeregistered(Apply(s, Deregister(c)), c);
    LeadsBy(s, Deregister(c), s');
  }

  /** Closing one connection from wherever it is. */
  lemma CloseConn(s: Server, c: ConnId) returns (s': Server)
    requires Reachable(s) && c in s.conns
    ensures ClosedFrom(s, s', c)
  {
    ReachableInv(s);
    assert ConnOk(s, c);
    if At(s, c, Bare) { s' := CloseBare(s, c); }
    else if At(s, c, Deregistered) { s' := CloseDeregistered(s, c); }
    else if At(s, c, Leaving) { s' := CloseLeaving(s, c); }
    else {
      AbortShape(s, c);
      if At(s, c, Upgrading) { s' := CloseBare(Apply(s, Abort(c)), c); }
      else { s' := CloseLeaving(Apply(s, Abort(c)), c); }
      LeadsBy(s, Abort(c), s');
    }
  }

  /** A task nobody waits for ends on its own. */
  lemma EndOneTask(s: Server, t: TaskId) returns (ended: Server)
    requires Reachable(s) && s.conns == map[] && t in s.tasks
    ensures Leads(s, ended) && ended.conns == map[] && |ended.tasks| < |s.tasks|
    ensures ended.issued == s.issued && ended.created == s.created
  {
    ReachableInv(s);
    assert TaskOk(s, t);
    ended := Apply(s, Finish(t));
    LeadsNowhere(ended);
    LeadsBy(s, Finish(t), ended);
    assert s.tasks.Keys == ended.tasks.Keys + {t} && t !in ended.tasks.Keys;
    assert |ended.tasks| == |ended.tasks.Keys| && |s.tasks| == |s.tasks.Keys|;
  }

  /** Nothing is ever stuck: from every reachable state some run closes the connections
      and ends the tasks, hands nothing new out, and leaves everything released, once. */
  lemma {:induction false} CanAlwaysDrain(s: Server) returns (end: Server)
    requires Reachable(s)
    ensures Leads(s, end) && end.tasks == map[] && end.conns == map[]
    ensures end.created == s.created && end.issued == s.issued
    ensures end.gone == multiset(s.created) && end.released == multiset(s.issued)
    ensures end.permits == MAX_CONNECTIONS && end.registry == map[]
    decreases |s.conns|, |s.tasks|
  {
    if s.conns != map[] {
      var c :| c in s.conns;
      var closed := CloseConn(s, c);
      assert s.conns.Keys == closed.conns.Keys + {c} && c !in closed.conns.Keys;
      assert |closed.conns| == |closed.conns.Keys| && |s.conns| == |s.conns.Keys|;
      LeadsReachable(s, closed);
      end := CanAlwaysDrain(closed);
      LeadsThrough(s, closed, end);
    } else if s.tasks != map[] {
      var t :| t in s.tasks;
      var ended := EndOneTask(s, t);
      LeadsReachable(s, ended);
      end := CanAlwaysDrain(ended);
      LeadsThrough(s, ended, end);
    } else {
      AllReleased(s);
      end := s;
      LeadsNowhere(s);
    }
  }
}
