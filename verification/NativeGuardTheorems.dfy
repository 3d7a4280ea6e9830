/** The main results about the native guards, stated for every reachable state. */
module NativeGuardTheorems {
  import opened Options
  import opened Resources
  import opened NativeGuards
  import opened NativeGuardProofs

  // ---------------------------------------------------------------------------
  // The gate
  // ---------------------------------------------------------------------------

  /** A gated vendor call is in progress on thread `t`. */
  predicate InVendorCall(s: State, t: Tid) {
    Script(s, t) != [] && (IsCall(Script(s, t)[0]) || Script(s, t)[0].Close?)
  }

  /** At most one gated vendor call is in progress, and its thread holds the gate. */
  lemma MutualExclusion(s: State, t: Tid, u: Tid)
    requires Reachable(s) && InVendorCall(s, t)
    ensures s.gate == Some(t)
    ensures InVendorCall(s, u) ==> t == u
  {
    ReachableInv(s);
    assert Critical(Script(s, t));
    assert InVendorCall(s, u) ==> Critical(Script(s, u));
  }

  /** No thread asks for the gate it already holds, drop cascades included. */
  lemma NeverReenters(s: State, t: Tid)
    requires Reachable(s) && Script(s, t) != [] && Script(s, t)[0] == Lock
    ensures s.gate != Some(t)
  {
    ReachableInv(s);
    assert !Critical(Script(s, t));
  }

  /** The next instruction of a busy thread always runs, except that a `Lock` may
      wait for another thread and a `Wait` for a signal. */
  lemma RunsUnlessBlocked(s: State, t: Tid, answer: Option<nat>)
    requires Inv(s) && Script(s, t) != []
    ensures Enabled(s, Step(t, answer)) <==>
              (Script(s, t)[0] == Lock ==> s.gate == None) && (Script(s, t)[0] == Wait ==> s.signalled)
  {
    HeadFacts(s, t);
    var i := Script(s, t)[0];
    if i.DropFields? && s.guards[i.id].parent.Some? { ParentIsLive(s, i.id); }
    HeadIsReady(s, t, answer);
  }

  lemma HeadIsReady(s: State, t: Tid, answer: Option<nat>)
    requires Script(s, t) != []
    requires var i := Script(s, t)[0];
             && (i.OpenChild? ==> i.of in s.guards)
             && (i.Close? ==> i.id in s.guards)
             && (i.DropFields? ==>
                   && i.id in s.guards
                   && var p := s.guards[i.id].parent;
                      p.Some? ==> p.value in s.guards && s.guards[p.value].strong > 0)
    ensures Enabled(s, Step(t, answer)) <==>
              (Script(s, t)[0] == Lock ==> s.gate == None) && (Script(s, t)[0] == Wait ==> s.signalled)
  {}

  /** The holder of the gate runs, and either frees it or is about to. */
  lemma HolderSteps(s: State, u: Tid, answer: Option<nat>)
    requires Inv(s) && s.gate == Some(u)
    ensures Enabled(s, Step(u, answer))
    ensures var s' := Apply(s, Step(u, answer));
            && Inv(s')
            && (s'.gate == None || (s'.gate == Some(u) && Script(s', u) != [] && Script(s', u)[0] == Unlock))
  {
    var sc := Script(s, u);
    assert Critical(sc) && Legal(sc);
    RunsUnlessBlocked(s, u, answer);
    StepControl(s, u, answer);
    KeepsInv(s, Step(u, answer));
    if sc[0] != Unlock { assert sc[1] == Unlock; }
  }

  /** A holder at its unlock frees the gate. */
  lemma UnlockFrees(s: State, u: Tid, answer: Option<nat>)
    requires Script(s, u) != [] && Script(s, u)[0] == Unlock
    ensures Enabled(s, Step(u, answer)) && Apply(s, Step(u, answer)).gate == None
  {}

  /** A thread kept waiting by the gate waits for a different thread that is never
      itself blocked and that frees the gate within two of its own instructions. */
  lemma GateIsHandedOver(s: State, t: Tid, u: Tid, answer: Option<nat>)
    requires Reachable(s) && Script(s, t) != [] && Script(s, t)[0] == Lock && s.gate == Some(u)
    ensures t != u
    ensures var one := Run(s, [Step(u, answer)]);
            var two := Run(s, [Step(u, answer), Step(u, answer)]);
            one.Some? && (one.value.gate == None || (two.Some? && two.value.gate == None))
  {
    NeverReenters(s, t);
    ReachableInv(s);
    HolderSteps(s, u, answer);
    var step := Step(u, answer);
    var s1 := Apply(s, step);
    assert [step][..0] == [] && Run(s, [step]) == Some(s1);
    if s1.gate != None {
      UnlockFrees(s1, u, answer);
      assert [step, step][..1] == [step];
    }
  }

  /** Cancel reaches a parked wait in three steps, without the gate and without any
      other thread moving, whoever holds the gate. */
  lemma CancelWakesWait(s: State, t: Tid, w: Tid)
    requires Reachable(s) && Script(s, t) == [] && Script(s, w) == [Wait]
    ensures var woken := Run(s, [BeginCancel(t), Step(t, None), Step(w, None)]);
            && woken.Some?
            && Script(woken.value, t) == [] && Script(woken.value, w) == []
            && woken.value.gate == s.gate && woken.value.guards == s.guards && woken.value.trace == s.trace
  {
    var a, b, c := BeginCancel(t), Step(t, None), Step(w, None);
    assert Run(s, [a][..0]) == Some(s);
    var s1 := Apply(s, a);
    assert Run(s, [a]) == Some(s1);
    assert [a, b][..1] == [a];
    assert Script(s1, t) == [Cancel];
    var s2 := Apply(s1, b);
    assert Run(s, [a, b]) == Some(s2);
    assert [a, b, c][..2] == [a, b];
    assert Script(s2, w) == [Wait] && s2.signalled;
  }

  // ---------------------------------------------------------------------------
  // The vendor trace
  // ---------------------------------------------------------------------------

  predicate OpenAt(trace: seq<Event>, i: int, id: Id) { 0 <= i < |trace| && trace[i].Opened? && trace[i].id == id }
  predicate UseAt(trace: seq<Event>, i: int, id: Id) { 0 <= i < |trace| && trace[i] == Used(id) }
  predicate CloseAt(trace: seq<Event>, i: int, id: Id) { 0 <= i < |trace| && trace[i].Closed? && trace[i].id == id }

  ghost predicate EverOpened(trace: seq<Event>, id: Id) { exists i :: OpenAt(trace, i, id) }
  ghost predicate EverClosed(trace: seq<Event>, id: Id) { exists i :: CloseAt(trace, i, id) }

  /** Handles are opened once and closed at most once, after they were opened. */
  ghost predicate ClosedOnce(trace: seq<Event>) {
    && (forall i, j, id :: OpenAt(trace, i, id) && OpenAt(trace, j, id) ==> i == j)
    && (forall i, j, id :: CloseAt(trace, i, id) && CloseAt(trace, j, id) ==> i == j)
    && (forall i, j, id :: OpenAt(trace, i, id) && CloseAt(trace, j, id) ==>
          i < j && trace[j].native == (trace[i].raw != 0))
    && (forall j, id :: CloseAt(trace, j, id) ==> EverOpened(trace, id))
  }

  /** A parent is closed only after each of its children was, and gets no child later. */
  ghost predicate ChildrenFirst(trace: seq<Event>) {
    forall i, j, c, p :: OpenAt(trace, i, c) && trace[i].parent == Some(p) && CloseAt(trace, j, p) ==>
      i < j && exists k :: i < k < j && CloseAt(trace, k, c)
  }

  /** A handle is used only while it is open. */
  ghost predicate UsedWhileOpen(trace: seq<Event>) {
    forall j, id :: UseAt(trace, j, id) ==>
      && (exists i :: i < j && OpenAt(trace, i, id))
      && (forall k :: CloseAt(trace, k, id) ==> j < k)
  }

  ghost predicate SafeTrace(trace: seq<Event>) {
    ClosedOnce(trace) && ChildrenFirst(trace) && UsedWhileOpen(trace)
  }

  /** The ledger says exactly what the trace says. */
  ghost predicate LedgerMeans(trace: seq<Event>, ledger: Ledger)
    requires ledger.Accepted?
  {
    && (forall id :: id in ledger.ever <==> EverOpened(trace, id))
    && (forall id :: id in ledger.open <==> EverOpened(trace, id) && !EverClosed(trace, id))
    && (forall i, id :: OpenAt(trace, i, id) && id in ledger.open ==>
          ledger.open[id] == (trace[i].parent, trace[i].raw))
  }

  lemma PrefixAt(trace: seq<Event>, e: Event)
    ensures forall i, id :: OpenAt(trace + [e], i, id) <==>
              OpenAt(trace, i, id) || (i == |trace| && e.Opened? && e.id == id)
    ensures forall i, id :: CloseAt(trace + [e], i, id) <==>
              CloseAt(trace, i, id) || (i == |trace| && e.Closed? && e.id == id)
    ensures forall i, id :: UseAt(trace + [e], i, id) <==> UseAt(trace, i, id) || (i == |trace| && e == Used(id))
  {
  }

  lemma MeaningAfter(trace: seq<Event>, e: Event)
    requires Replay(trace).Accepted? && LedgerMeans(trace, Replay(trace))
    requires Record(Replay(trace), e).Accepted?
    ensures LedgerMeans(trace + [e], Record(Replay(trace), e))
  {
    PrefixAt(trace, e);
    var after := trace + [e];
    forall id ensures EverOpened(after, id) <==> EverOpened(trace, id) || (e.Opened? && e.id == id) {
      if EverOpened(trace, id) { var i :| OpenAt(trace, i, id); assert OpenAt(after, i, id); }
      if e.Opened? && e.id == id { assert OpenAt(after, |trace|, id); }
    }
    forall id ensures EverClosed(after, id) <==> EverClosed(trace, id) || (e.Closed? && e.id == id) {
      if EverClosed(trace, id) { var i :| CloseAt(trace, i, id); assert CloseAt(after, i, id); }
      if e.Closed? && e.id == id { assert CloseAt(after, |trace|, id); }
    }
    forall id | e.Opened? && e.id == id ensures !EverClosed(trace, id) {
      assert id !in Replay(trace).ever;
      NeverOpenedNeverClosed(trace, id);
    }
  }

  lemma {:induction false} NeverOpenedNeverClosed(trace: seq<Event>, id: Id)
    requires Replay(trace).Accepted? && id !in Replay(trace).ever
    ensures !EverClosed(trace, id) && id !in Replay(trace).open
  {
    if trace != [] {
      var before, e := trace[..|trace| - 1], trace[|trace| - 1];
      assert trace == before + [e];
      NeverOpenedNeverClosed(before, id);
      PrefixAt(before, e);
    }
  }

  lemma {:induction false} LedgerMeaning(trace: seq<Event>)
    requires Replay(trace).Accepted?
    ensures LedgerMeans(trace, Replay(trace))
  {
    if trace != [] {
      var before, e := trace[..|trace| - 1], trace[|trace| - 1];
      assert trace == before + [e];
      LedgerMeaning(before);
      MeaningAfter(before, e);
    }
  }

  lemma ClosedOnceAfter(trace: seq<Event>, e: Event)
    requires ClosedOnce(trace) && Replay(trace).Accepted? && LedgerMeans(trace, Replay(trace))
    requires Record(Replay(trace), e).Accepted?
    ensures ClosedOnce(trace + [e])
  {
    PrefixAt(trace, e);
    forall id | EverOpened(trace, id) ensures EverOpened(trace + [e], id) {
      var i :| OpenAt(trace, i, id);
      assert OpenAt(trace + [e], i, id);
    }
    forall j, id | CloseAt(trace, j, id) ensures EverClosed(trace, id) {}
    forall i, id | OpenAt(trace, i, id) ensures EverOpened(trace, id) {}
  }

  lemma ChildrenFirstAfter(trace: seq<Event>, e: Event)
    requires ClosedOnce(trace) && ChildrenFirst(trace) && Replay(trace).Accepted? && LedgerMeans(trace, Replay(trace))
    requires Record(Replay(trace), e).Accepted?
    ensures ChildrenFirst(trace + [e])
  {
    PrefixAt(trace, e);
    var after, ledger := trace + [e], Replay(trace);
    forall i, j, c, p | OpenAt(after, i, c) && after[i].parent == Some(p) && CloseAt(after, j, p)
      ensures i < j && exists k :: i < k < j && CloseAt(after, k, c)
    {
      if j < |trace| {
        assert CloseAt(trace, j, p);
        assert EverClosed(trace, p) && p !in ledger.open;
        assert OpenAt(trace, i, c);
        var k :| i < k < j && CloseAt(trace, k, c);
        assert CloseAt(after, k, c);
      } else {
        assert OpenAt(trace, i, c);
        assert EverOpened(trace, c);
        assert !HasOpenChild(ledger.open, p);
        assert c !in ledger.open;
        var k :| CloseAt(trace, k, c);
        assert CloseAt(after, k, c);
      }
    }
  }

  lemma UsedWhileOpenAfter(trace: seq<Event>, e: Event)
    requires UsedWhileOpen(trace) && Replay(trace).Accepted? && LedgerMeans(trace, Replay(trace))
    requires Record(Replay(trace), e).Accepted?
    ensures UsedWhileOpen(trace + [e])
  {
    PrefixAt(trace, e);
    var after := trace + [e];
    forall j, id | UseAt(after, j, id)
      ensures (exists i :: i < j && OpenAt(after, i, id)) && (forall k :: CloseAt(after, k, id) ==> j < k)
    {
      if j < |trace| {
        assert UseAt(trace, j, id);
        var i :| i < j && OpenAt(trace, i, id);
        assert OpenAt(after, i, id);
      } else {
        assert id in Replay(trace).open;
        assert EverOpened(trace, id) && !EverClosed(trace, id);
        var i :| OpenAt(trace, i, id);
        assert OpenAt(after, i, id);
      }
    }
  }

  /** Whatever the ledger accepts is a safe trace. */
  lemma {:induction false} AcceptedIsSafe(trace: seq<Event>)
    requires Replay(trace).Accepted?
    ensures SafeTrace(trace)
  {
    if trace != [] {
      var before, e := trace[..|trace| - 1], trace[|trace| - 1];
      assert trace == before + [e];
      AcceptedIsSafe(before);
      LedgerMeaning(before);
      ClosedOnceAfter(before, e);
      ChildrenFirstAfter(before, e);
      UsedWhileOpenAfter(before, e);
    }
  }

  /** For every interleaving and every order of drops: each handle is closed at most
      once, no call uses a closed handle, and parents are closed after children. */
  lemma VendorTraceIsSafe(s: State)
    requires Reachable(s)
    ensures SafeTrace(s.trace)
  {
    ReachableInv(s);
    AcceptedIsSafe(s.trace);
  }

  /** A device is disconnected only after every application and digest on it, and
      every container of those applications, is closed. */
  lemma DisconnectedLast(s: State, i: int, j: int, k: int, dev: Id, app: Id, cont: Id)
    requires Reachable(s)
    requires CloseAt(s.trace, k, dev)
    requires OpenAt(s.trace, i, app) && s.trace[i].parent == Some(dev)
    requires OpenAt(s.trace, j, cont) && s.trace[j].parent == Some(app)
    ensures exists m, n :: j < m < n < k && CloseAt(s.trace, m, cont) && CloseAt(s.trace, n, app)
  {
    VendorTraceIsSafe(s);
    var n :| i < n < k && CloseAt(s.trace, n, app);
    var m :| j < m < n && CloseAt(s.trace, m, cont);
  }

  /** The table drops its devices first; a device is closed then and there exactly when
      none of its children is left, and otherwise stays open with no vendor call made. */
  lemma DropDefersToChildren(s: State, t: Tid, id: Id)
    requires Reachable(s) && Enabled(s, BeginDrop(t, id))
    ensures var s' := Apply(s, BeginDrop(t, id));
            var childless := forall c :: c in s.guards && s.guards[c].parent == Some(id) ==> s.guards[c].phase == Gone;
            && s'.trace == s.trace
            && (childless <==> Script(s', t) == DropBody(id))
            && (!childless <==> s'.guards[id].phase == Live && Script(s', t) == [])
  {
    ReachableInv(s);
    OwnedIsLive(s, t, id);
    assert CountOk(s.guards, id);
    assert forall c :: c in Kids(s.guards, id) <==>
             c in s.guards && s.guards[c].parent == Some(id) && s.guards[c].phase != Gone;
    assert |Kids(s.guards, id)| == 0 <==> Kids(s.guards, id) == {};
  }

  // ---------------------------------------------------------------------------
  // Nothing leaks
  // ---------------------------------------------------------------------------

  /** No boxed guard is held any more and no thread is inside a guard method. */
  ghost predicate Quiet(s: State) {
    && (forall id :: id in s.guards ==> s.guards[id].owner == None)
    && (forall t: Tid :: Script(s, t) == [])
  }

  lemma QuietGone(s: State, id: Id)
    requires Inv(s) && Quiet(s) && id in s.guards
    requires forall c :: c in s.guards && s.guards[c].parent == Some(id) ==> s.guards[c].phase == Gone
    ensures s.guards[id].phase == Gone
  {
    assert CountOk(s.guards, id);
    assert Kids(s.guards, id) == {};
  }

  lemma QuietAllGone(s: State, id: Id)
    requires Inv(s) && Quiet(s) && id in s.guards
    ensures s.guards[id].phase == Gone
    decreases match s.guards[id].kind case Device => 2 case Application => 1 case _ => 0
  {
    forall c | c in s.guards && s.guards[c].parent == Some(id) ensures s.guards[c].phase == Gone {
      assert PlaceOk(s.guards, s.next, c);
      QuietAllGone(s, c);
    }
    QuietGone(s, id);
  }

  /** Once every box is dropped and every thread is idle, each opened handle has been
      closed exactly once, by a vendor call exactly when it is not null. */
  lemma EverythingReleased(s: State, i: int, id: Id)
    requires Reachable(s) && Quiet(s) && OpenAt(s.trace, i, id)
    ensures exists j :: i < j && CloseAt(s.trace, j, id) && s.trace[j].native == (s.trace[i].raw != 0)
                        && forall k :: CloseAt(s.trace, k, id) ==> k == j
  {
    ReachableInv(s);
    VendorTraceIsSafe(s);
    LedgerMeaning(s.trace);
    assert EverOpened(s.trace, id);
    assert id in s.guards;
    QuietAllGone(s, id);
    assert id !in OpenView(s.guards);
    assert EverClosed(s.trace, id);
    var j :| CloseAt(s.trace, j, id);
  }
}
