/** What every step of the connection life cycle keeps. */
module LifecycleProofs {
  import opened Options
  import opened Lifecycle

  /** Where a session state can be. */
  datatype Place = InGuard(c: ConnId) | OnTask(t: TaskId) | Nowhere

  type Homes = map<SessionId, Place>
  type Owners = map<Resource, SessionId>

  function SlotAt(s: Server, p: Place): Option<Session> {
    match p
    case InGuard(c) => if Guarded(s, c) then s.conns[c].guard.value.slot else None
    case OnTask(t) => if t in s.tasks then s.tasks[t].session else None
    case Nowhere => None
  }

  predicate Has(s: Server, p: Place, r: Resource) {
    SlotAt(s, p).Some? && r in SlotAt(s, p).value.handles
  }

  // ---------------------------------------------------------------------------
  // The invariant
  // ---------------------------------------------------------------------------

  predicate Settled(s: Server, p: Place, id: SessionId) {
    if p == Nowhere then s.gone[id] == 1
    else s.gone[id] == 0 && SlotAt(s, p).Some? && SlotAt(s, p).value.id == id
  }

  /** Every state ever created is where `home` says and nowhere else. */
  ghost predicate Placed(s: Server, home: Homes) {
    && home.Keys == s.created
    && (forall p :: SlotAt(s, p).Some? ==> SlotAt(s, p).value.id in home && home[SlotAt(s, p).value.id] == p)
    && (forall id :: id in home ==> Settled(s, home[id], id))
    && (forall id :: id !in home ==> s.gone[id] == 0)
  }

  predicate Kept(s: Server, p: Place, r: Resource) {
    s.released[r] == 1 || (s.released[r] == 0 && Has(s, p, r))
  }

  /** Every resource ever issued is in the table of the state it was issued to, or has
      been released once. */
  ghost predicate Owned(s: Server, home: Homes, owner: Owners) {
    && owner.Keys == s.issued
    && (forall p, r :: Has(s, p, r) ==> r in owner && owner[r] == SlotAt(s, p).value.id && s.released[r] == 0)
    && (forall r :: r in owner ==> owner[r] in home && Kept(s, home[owner[r]], r))
    && (forall r :: r !in owner ==> s.released[r] == 0)
  }

  predicate ConnOk(s: Server, c: ConnId)
    requires c in s.conns
  {
    var conn := s.conns[c];
    && (conn.guard.None? <==> conn.stage == Upgrading || conn.stage == Bare)
    && (conn.stage == Ready ==> conn.guard.value.slot.Some?)
    && (conn.stage.Awaiting? ==>
          && conn.guard.value.slot.None?
          && conn.stage.task in s.tasks
          && s.tasks[conn.stage.task].conn == c
          && !s.tasks[conn.stage.task].abandoned)
  }

  predicate TaskOk(s: Server, t: TaskId)
    requires t in s.tasks
  {
    var task := s.tasks[t];
    && (task.session.None? <==> task.status == Panicked)
    && (task.abandoned ==> task.status == Running)
    && (!task.abandoned ==> At(s, task.conn, Awaiting(t)))
  }

  ghost predicate Structured(s: Server) {
    && !s.crashed
    && s.permits + |s.conns| == MAX_CONNECTIONS
    && (forall c :: c in s.conns ==> ConnOk(s, c))
    && (forall t :: t in s.tasks ==> TaskOk(s, t))
  }

  /** The registry knows exactly the guards that are alive, under their markers. */
  ghost predicate Registered(s: Server) {
    && (forall c :: Alive(s, c) ==>
          s.conns[c].guard.value.marker in s.registry && s.registry[s.conns[c].guard.value.marker] == c)
    && (forall id :: id in s.registry ==>
          id in s.created && Alive(s, s.registry[id]) && s.conns[s.registry[id]].guard.value.marker == id)
  }

  ghost predicate Sound(s: Server) {
    exists home, owner :: Placed(s, home) && Owned(s, home, owner)
  }

  ghost predicate Inv(s: Server) {
    Structured(s) && Registered(s) && Sound(s)
  }

  // ---------------------------------------------------------------------------
  // What can happen to the states, whatever else a step does
  // ---------------------------------------------------------------------------

  ghost predicate SameBooks(s: Server, s': Server) {
    s'.created == s.created && s'.gone == s.gone && s'.issued == s.issued && s'.released == s.released
  }

  /** Slots agree except at one place. */
  ghost predicate SameBut(s: Server, s': Server, q: Place) {
    forall p :: p != q ==> SlotAt(s', p) == SlotAt(s, p)
  }

  lemma StaysSound(s: Server, s': Server)
    requires Sound(s) && SameBooks(s, s') && (forall p :: SlotAt(s', p) == SlotAt(s, p))
    ensures Sound(s')
  {
    var home, owner :| Placed(s, home) && Owned(s, home, owner);
    StaysPlaced(s, s', home);
    OwnedStays(s, s', home, home, owner);
  }

  lemma StaysPlaced(s: Server, s': Server, home: Homes)
    requires Placed(s, home) && SameBooks(s, s') && (forall p :: SlotAt(s', p) == SlotAt(s, p))
    ensures Placed(s', home)
  {
    forall x | x in home ensures Settled(s', home[x], x) { assert Settled(s, home[x], x); }
  }

  /** Nothing held changes apart from one place that holds nothing before or after. */
  lemma OwnedStays(s: Server, s': Server, home: Homes, home': Homes, owner: Owners)
    requires Owned(s, home, owner) && s'.issued == s.issued && s'.released == s.released
    requires forall p, r :: Has(s', p, r) ==> Has(s, p, r) && SlotAt(s', p).value.id == SlotAt(s, p).value.id
    requires forall p, r :: Has(s, p, r) ==> Has(s', p, r)
    requires forall id :: id in home ==> id in home' && home'[id] == home[id]
    ensures Owned(s', home', owner)
  {
    forall r | r in owner ensures owner[r] in home' && Kept(s', home'[owner[r]], r) {
      assert Kept(s, home[owner[r]], r);
    }
  }

  /** A fresh, empty state appears at `q`. */
  lemma FreshIsSound(s: Server, s': Server, q: Place, id: SessionId)
    requires Sound(s) && q != Nowhere && SlotAt(s, q).None? && id !in s.created
    requires SameBooks(s.(created := s.created + {id}), s') && SameBut(s, s', q)
    requires SlotAt(s', q) == Some(FreshSession(id))
    ensures Sound(s')
  {
    var home, owner :| Placed(s, home) && Owned(s, home, owner);
    var home' := home[id := q];
    FreshIsPlaced(s, s', q, id, home);
    OwnedStays(s, s', home, home', owner);
  }

  lemma FreshIsPlaced(s: Server, s': Server, q: Place, id: SessionId, home: Homes)
    requires Placed(s, home) && q != Nowhere && SlotAt(s, q).None? && id !in s.created
    requires SameBooks(s.(created := s.created + {id}), s') && SameBut(s, s', q)
    requires SlotAt(s', q) == Some(FreshSession(id))
    ensures Placed(s', home[id := q])
  {
    var home' := home[id := q];
    forall x | x in home' ensures Settled(s', home'[x], x) {
      if x != id { assert Settled(s, home[x], x); }
    }
    forall p | SlotAt(s', p).Some? ensures SlotAt(s', p).value.id in home' && home'[SlotAt(s', p).value.id] == p {
      if p != q { assert SlotAt(s, p).Some?; }
    }
  }

  /** A state moves from `p` to `q`. */
  ghost predicate Moved(s: Server, s': Server, p: Place, q: Place) {
    && SameBooks(s, s') && p != q && q != Nowhere
    && SlotAt(s, p).Some? && SlotAt(s, q).None?
    && SlotAt(s', p).None? && SlotAt(s', q) == SlotAt(s, p)
    && forall x :: x != p && x != q ==> SlotAt(s', x) == SlotAt(s, x)
  }

  lemma MoveIsSound(s: Server, s': Server, p: Place, q: Place)
    requires Sound(s) && Moved(s, s', p, q)
    ensures Sound(s')
  {
    var home, owner :| Placed(s, home) && Owned(s, home, owner);
    MoveIsPlaced(s, s', p, q, home);
    MoveIsOwned(s, s', p, q, home, owner);
  }

  lemma MoveIsPlaced(s: Server, s': Server, p: Place, q: Place, home: Homes)
    requires Placed(s, home) && Moved(s, s', p, q)
    ensures Placed(s', home[SlotAt(s, p).value.id := q])
  {
    var home' := home[SlotAt(s, p).value.id := q];
    forall x | x in home' ensures Settled(s', home'[x], x) { assert Settled(s, home[x], x); }
    forall y | SlotAt(s', y).Some? ensures SlotAt(s', y).value.id in home' && home'[SlotAt(s', y).value.id] == y {
      if y != q { assert SlotAt(s, y) == SlotAt(s', y); }
    }
  }

  lemma MoveIsOwned(s: Server, s': Server, p: Place, q: Place, home: Homes, owner: Owners)
    requires Placed(s, home) && Owned(s, home, owner) && Moved(s, s', p, q)
    ensures Owned(s', home[SlotAt(s, p).value.id := q], owner)
  {
    var home' := home[SlotAt(s, p).value.id := q];
    forall y, r | Has(s', y, r) ensures r in owner && owner[r] == SlotAt(s', y).value.id && s'.released[r] == 0 {
      assert Has(s, if y == q then p else y, r);
    }
    forall r | r in owner ensures owner[r] in home' && Kept(s', home'[owner[r]], r) {
      assert Kept(s, home[owner[r]], r);
    }
  }

  /** The state at `p` is dropped with everything in its table. */
  lemma DropIsSound(s: Server, s': Server, p: Place)
    requires Sound(s) && SlotAt(s, p).Some? && SlotAt(s', p).None? && SameBut(s, s', p)
    requires SameBooks(Drop(s, SlotAt(s, p)), s')
    ensures Sound(s')
  {
    var home, owner :| Placed(s, home) && Owned(s, home, owner);
    DropIsPlaced(s, s', p, home);
    DropIsOwned(s, s', p, home, owner);
  }

  lemma DropIsPlaced(s: Server, s': Server, p: Place, home: Homes)
    requires Placed(s, home) && SlotAt(s, p).Some? && SlotAt(s', p).None? && SameBut(s, s', p)
    requires SameBooks(Drop(s, SlotAt(s, p)), s')
    ensures Placed(s', home[SlotAt(s, p).value.id := Nowhere])
  {
    var id := SlotAt(s, p).value.id;
    var home' := home[id := Nowhere];
    forall x | x in home' ensures Settled(s', home'[x], x) { assert Settled(s, home[x], x); }
    forall q | SlotAt(s', q).Some? ensures SlotAt(s', q).value.id in home' && home'[SlotAt(s', q).value.id] == q {
      assert SlotAt(s', q) == SlotAt(s, q);
    }
  }

  lemma DropIsOwned(s: Server, s': Server, p: Place, home: Homes, owner: Owners)
    requires Placed(s, home) && Owned(s, home, owner)
    requires SlotAt(s, p).Some? && SlotAt(s', p).None? && SameBut(s, s', p)
    requires SameBooks(Drop(s, SlotAt(s, p)), s')
    ensures Owned(s', home[SlotAt(s, p).value.id := Nowhere], owner)
  {
    var x := SlotAt(s, p).value;
    var home' := home[x.id := Nowhere];
    forall r ensures s'.released[r] == s.released[r] + if Has(s, p, r) then 1 else 0 {
      assert multiset(x.handles)[r] == if r in x.handles then 1 else 0;
    }
    forall q, r | Has(s', q, r) ensures r in owner && owner[r] == SlotAt(s', q).value.id && s'.released[r] == 0 {
      assert SlotAt(s', q) == SlotAt(s, q) && Has(s, q, r);
    }
    forall r | r in owner ensures owner[r] in home' && Kept(s', home'[owner[r]], r) {
      assert Kept(s, home[owner[r]], r);
    }
  }

  function WorkedOn(x: Session, effect: Effect): Session {
    match effect
    case Issue(r) => x.(handles := x.handles + {r})
    case Remove(r) => x.(handles := x.handles - {r})
    case Regrant(grants) => x.(grants := grants)
    case SetLanguage(_) => x
  }

  lemma WorkSlots(s: Server, t: TaskId, effect: Effect)
    requires Enabled(s, Work(t, effect))
    ensures var s', p := Worked(s, t, effect), OnTask(t);
            && SlotAt(s, p).Some? && SameBut(s, s', p) && SlotAt(s', p) == Some(WorkedOn(SlotAt(s, p).value, effect))
            && s'.created == s.created && s'.gone == s.gone
            && s'.issued == (if effect.Issue? then s.issued + {effect.r} else s.issued)
            && s'.released == if effect.Remove? then s.released + multiset{effect.r} else s.released
  {}

  lemma WorkIsSound(s: Server, t: TaskId, effect: Effect)
    requires Sound(s) && Enabled(s, Work(t, effect))
    ensures Sound(Worked(s, t, effect))
  {
    var home, owner :| Placed(s, home) && Owned(s, home, owner);
    WorkSlots(s, t, effect);
    WorkIsPlaced(s, Worked(s, t, effect), OnTask(t), home);
    WorkIsOwned(s, Worked(s, t, effect), t, effect, home, owner);
  }

  lemma WorkIsOwned(s: Server, s': Server, t: TaskId, effect: Effect, home: Homes, owner: Owners)
    requires Enabled(s, Work(t, effect)) && Placed(s, home) && Owned(s, home, owner) && SameBut(s, s', OnTask(t))
    requires SlotAt(s', OnTask(t)) == Some(WorkedOn(SlotAt(s, OnTask(t)).value, effect))
    requires s'.issued == (if effect.Issue? then s.issued + {effect.r} else s.issued)
    requires s'.released == if effect.Remove? then s.released + multiset{effect.r} else s.released
    ensures Owned(s', home, if effect.Issue? then owner[effect.r := SlotAt(s, OnTask(t)).value.id] else owner)
  {
    if effect.Issue? { IssueIsOwned(s, s', OnTask(t), effect.r, home, owner); }
    else if effect.Remove? { RemoveIsOwned(s, s', OnTask(t), effect.r, home, owner); }
    else { OwnedStays(s, s', home, home, owner); }
  }

  lemma WorkIsPlaced(s: Server, s': Server, p: Place, home: Homes)
    requires Placed(s, home) && SameBut(s, s', p) && s'.created == s.created && s'.gone == s.gone
    requires SlotAt(s, p).Some? && SlotAt(s', p).Some? && SlotAt(s', p).value.id == SlotAt(s, p).value.id
    ensures Placed(s', home)
  {
    forall x | x in home ensures Settled(s', home[x], x) { assert Settled(s, home[x], x); }
  }

  lemma IssueIsOwned(s: Server, s': Server, p: Place, made: Resource, home: Homes, owner: Owners)
    requires Placed(s, home) && Owned(s, home, owner) && SameBut(s, s', p) && SlotAt(s, p).Some? && made !in s.issued
    requires SlotAt(s', p) == Some(SlotAt(s, p).value.(handles := SlotAt(s, p).value.handles + {made}))
    requires s'.released == s.released && s'.issued == s.issued + {made}
    ensures Owned(s', home, owner[made := SlotAt(s, p).value.id])
  {
    var owner' := owner[made := SlotAt(s, p).value.id];
    forall q, r | Has(s', q, r) ensures r in owner' && owner'[r] == SlotAt(s', q).value.id && s'.released[r] == 0 {
      assert Has(s, q, r) || (q == p && r == made);
    }
    forall r | r in owner' ensures owner'[r] in home && Kept(s', home[owner'[r]], r) {
      if r != made { assert Kept(s, home[owner[r]], r); }
    }
  }

  lemma RemoveIsOwned(s: Server, s': Server, p: Place, spent: Resource, home: Homes, owner: Owners)
    requires Placed(s, home) && Owned(s, home, owner) && SameBut(s, s', p) && Has(s, p, spent)
    requires SlotAt(s', p) == Some(SlotAt(s, p).value.(handles := SlotAt(s, p).value.handles - {spent}))
    requires s'.released == s.released + multiset{spent} && s'.issued == s.issued
    ensures Owned(s', home, owner)
  {
    forall q, r | Has(s', q, r) ensures r in owner && owner[r] == SlotAt(s', q).value.id && s'.released[r] == 0 {
      assert Has(s, q, r);
    }
    forall r | r in owner ensures owner[r] in home && Kept(s', home[owner[r]], r) {
      assert Kept(s, home[owner[r]], r);
    }
  }

  // ---------------------------------------------------------------------------
  // Every step
  // ---------------------------------------------------------------------------

  predicate ByTask(a: Action) { a.Work? || a.Finish? || a.Panic? }

  predicate ByConn(a: Action) { !ByTask(a) && !a.Prune? }

  lemma EndTaskIsSound(s: Server, t: TaskId)
    requires Sound(s) && t in s.tasks
    ensures Sound(EndTask(s, t))
  {
    var s' := EndTask(s, t);
    if s.tasks[t].session.Some? { DropIsSound(s, s', OnTask(t)); } else { StaysSound(s, s'); }
  }

  lemma DetachIsSound(s: Server, t: TaskId)
    requires Sound(s) && t in s.tasks
    ensures Sound(Detach(s, t))
  {
    if s.tasks[t].status == Running { StaysSound(s, Detach(s, t)); } else { EndTaskIsSound(s, t); }
  }

  lemma PutFreshIsSound(s: Server, c: ConnId, id: SessionId)
    requires Sound(s) && Guarded(s, c) && s.conns[c].guard.value.slot.None? && id !in s.created
    ensures Sound(PutFresh(s, c, id))
  {
    FreshIsSound(s, PutFresh(s, c, id), InGuard(c), id);
  }

  lemma JoinIsSound(s: Server, c: ConnId, id: SessionId)
    requires Sound(s) && Structured(s) && Enabled(s, Join(c, id))
    ensures Sound(Apply(s, Join(c, id)))
  {
    assert ConnOk(s, c);
    var t := s.conns[c].stage.task;
    var s' := Apply(s, Join(c, id));
    if s.tasks[t].session.Some? {
      MoveIsSound(s, s', OnTask(t), InGuard(c));
    } else {
      StaysSound(s, s.(tasks := s.tasks - {t}));
      PutFreshIsSound(s.(tasks := s.tasks - {t}), c, id);
    }
  }

  lemma TaskStepIsSound(s: Server, a: Action)
    requires Sound(s) && Structured(s) && Enabled(s, a)
    requires ByTask(a)
    ensures Sound(Apply(s, a))
  {
    assert TaskOk(s, a.t);
    if a.Work? {
      WorkIsSound(s, a.t, a.effect);
    } else if s.tasks[a.t].abandoned {
      EndTaskIsSound(s, a.t);
    } else if a.Finish? {
      StaysSound(s, Apply(s, a));
    } else {
      DropIsSound(s, Apply(s, a), OnTask(a.t));
    }
  }

  /** A step that leaves every slot alone. */
  predicate Plain(a: Action) {
    a.Accept? || a.UpgradeFails? || a.Leave? || a.Deregister? || a.ReleasePermit? || a.Prune?
  }

  lemma PlainSlots(s: Server, a: Action)
    requires Enabled(s, a) && Plain(a) && (a.UpgradeFails? || a.ReleasePermit? ==> ConnOk(s, a.c))
    ensures SameBooks(s, Apply(s, a)) && forall p :: SlotAt(Apply(s, a), p) == SlotAt(s, p)
  {
    if a.Accept? {} else if a.UpgradeFails? {} else if a.Leave? {} else if a.Deregister? {} else {}
  }

  lemma PlainIsSound(s: Server, a: Action)
    requires Sound(s) && Structured(s) && Enabled(s, a) && Plain(a)
    ensures Sound(Apply(s, a))
  {
    if a.UpgradeFails? || a.ReleasePermit? { assert ConnOk(s, a.c); }
    PlainSlots(s, a);
    StaysSound(s, Apply(s, a));
  }

  lemma UpgradeIsSound(s: Server, a: Action)
    requires Sound(s) && Structured(s) && Enabled(s, a) && a.Upgrade?
    ensures Sound(Apply(s, a))
  {
    assert ConnOk(s, a.c);
    FreshIsSound(s, Apply(s, a), InGuard(a.c), a.id);
  }

  lemma BeginIsSound(s: Server, a: Action)
    requires Sound(s) && Structured(s) && Enabled(s, a) && a.Begin?
    ensures Sound(Apply(s, a))
  {
    assert ConnOk(s, a.c);
    MoveIsSound(s, Apply(s, a), InGuard(a.c), OnTask(a.t));
  }

  lemma AbortIsSound(s: Server, c: ConnId)
    requires Sound(s) && Structured(s) && Enabled(s, Abort(c))
    ensures Sound(Apply(s, Abort(c)))
  {
    assert ConnOk(s, c);
    if At(s, c, Upgrading) {
      StaysSound(s, WithConn(s, c, Conn(Bare, None)));
    } else if s.conns[c].stage.Awaiting? {
      DetachIsSound(s, s.conns[c].stage.task);
      LeaveIsSound(Detach(s, s.conns[c].stage.task), c);
    } else {
      LeaveIsSound(s, c);
    }
  }

  lemma LeaveIsSound(s: Server, c: ConnId)
    requires Sound(s) && c in s.conns
    ensures Sound(WithConn(s, c, s.conns[c].(stage := Leaving)))
  {
    StaysSound(s, WithConn(s, c, s.conns[c].(stage := Leaving)));
  }

  lemma TimeOutIsSound(s: Server, c: ConnId, id: SessionId)
    requires Sound(s) && Structured(s) && Enabled(s, TimeOut(c, id))
    ensures Sound(Apply(s, TimeOut(c, id)))
  {
    assert ConnOk(s, c);
    DetachIsSound(s, s.conns[c].stage.task);
    PutFreshIsSound(Detach(s, s.conns[c].stage.task), c, id);
  }

  lemma ReleaseStateIsSound(s: Server, c: ConnId)
    requires Sound(s) && Enabled(s, ReleaseState(c))
    ensures Sound(Apply(s, ReleaseState(c)))
  {
    var s' := Apply(s, ReleaseState(c));
    if s.conns[c].guard.value.slot.Some? { DropIsSound(s, s', InGuard(c)); } else { StaysSound(s, s'); }
  }

  lemma KeepsSound(s: Server, a: Action)
    requires Sound(s) && Structured(s) && Enabled(s, a)
    ensures Sound(Apply(s, a))
  {
    if ByTask(a) { TaskStepIsSound(s, a); }
    else if Plain(a) { PlainIsSound(s, a); }
    else if a.Upgrade? { UpgradeIsSound(s, a); }
    else if a.Begin? { BeginIsSound(s, a); }
    else if a.Join? { JoinIsSound(s, a.c, a.id); }
    else if a.TimeOut? { TimeOutIsSound(s, a.c, a.id); }
    else if a.Abort? { AbortIsSound(s, a.c); }
    else { ReleaseStateIsSound(s, a.c); }
  }

  // ---------------------------------------------------------------------------
  // Stages, tasks and permits
  // ---------------------------------------------------------------------------

  ghost predicate OnlyConn(s: Server, s': Server, c: ConnId) {
    && (forall d :: d != c ==> (d in s'.conns <==> d in s.conns))
    && (forall d :: d != c && d in s.conns ==> s'.conns[d] == s.conns[d])
  }

  ghost predicate OnlyTask(s: Server, s': Server, t: TaskId) {
    && (forall u :: u != t ==> (u in s'.tasks <==> u in s.tasks))
    && (forall u :: u != t && u in s.tasks ==> s'.tasks[u] == s.tasks[u])
  }

  ghost predicate Counted(s: Server) { !s.crashed && s.permits + |s.conns| == MAX_CONNECTIONS }

  /** Connection `c` changes and waits for nothing before or after. */
  lemma ConnAlone(s: Server, s': Server, c: ConnId)
    requires Structured(s) && OnlyConn(s, s', c) && s'.tasks == s.tasks && Counted(s')
    requires c in s.conns ==> !s.conns[c].stage.Awaiting?
    requires c in s'.conns ==> ConnOk(s', c)
    ensures Structured(s')
  {
    forall d | d in s'.conns ensures ConnOk(s', d) { if d != c { assert ConnOk(s, d); } }
    forall u | u in s'.tasks ensures TaskOk(s', u) { assert TaskOk(s, u); }
  }

  /** An abandoned task changes or ends. */
  lemma TaskAlone(s: Server, s': Server, t: TaskId)
    requires Structured(s) && OnlyTask(s, s', t) && s'.conns == s.conns && Counted(s')
    requires t in s.tasks && s.tasks[t].abandoned
    requires t in s'.tasks ==> s'.tasks[t].abandoned && TaskOk(s', t)
    ensures Structured(s')
  {
    forall d | d in s'.conns ensures ConnOk(s', d) { assert ConnOk(s, d); }
    forall u | u in s'.tasks ensures TaskOk(s', u) { assert TaskOk(s, u); }
  }

  /** A connection and the task it waits for, or is about to, change together. */
  lemma PairAlone(s: Server, s': Server, c: ConnId, t: TaskId)
    requires Structured(s) && OnlyConn(s, s', c) && OnlyTask(s, s', t) && Counted(s')
    requires c in s.conns && (s.conns[c].stage.Awaiting? ==> s.conns[c].stage.task == t)
    requires t in s.tasks ==> s.tasks[t].conn == c && !s.tasks[t].abandoned
    requires c in s'.conns ==> ConnOk(s', c)
    requires t in s'.tasks ==> TaskOk(s', t)
    ensures Structured(s')
  {
    forall d | d in s'.conns ensures ConnOk(s', d) { if d != c { assert ConnOk(s, d); } }
    forall u | u in s'.tasks ensures TaskOk(s', u) { if u != t { assert TaskOk(s, u); } }
  }

  lemma TaskKeepsStructured(s: Server, a: Action)
    requires Structured(s) && Enabled(s, a) && ByTask(a)
    ensures Structured(Apply(s, a))
  {
    assert TaskOk(s, a.t);
    var s' := Apply(s, a);
    TaskStepShape(s, a);
    if s.tasks[a.t].abandoned {
      TaskAlone(s, s', a.t);
    } else {
      assert ConnOk(s, s.tasks[a.t].conn);
      PairAlone(s, s', s.tasks[a.t].conn, a.t);
    }
  }

  /** What a step of a task does to it and to the connections. */
  lemma TaskStepShape(s: Server, a: Action)
    requires Enabled(s, a) && ByTask(a) && TaskOk(s, a.t)
    ensures var s' := Apply(s, a);
            && OnlyTask(s, s', a.t) && s'.conns == s.conns && s'.permits == s.permits && s'.crashed == s.crashed
            && (s.tasks[a.t].abandoned ==> (a.t in s'.tasks ==> s'.tasks[a.t].abandoned && TaskOk(s', a.t)))
            && (!s.tasks[a.t].abandoned ==>
                  && a.t in s'.tasks && TaskOk(s', a.t)
                  && !s'.tasks[a.t].abandoned && s'.tasks[a.t].conn == s.tasks[a.t].conn)
  {
    if a.Work? { WorkShape(s, a.t, a.effect); }
  }

  lemma WorkShape(s: Server, t: TaskId, effect: Effect)
    requires Enabled(s, Work(t, effect))
    ensures var s' := Worked(s, t, effect);
            && s'.conns == s.conns && s'.permits == s.permits && s'.crashed == s.crashed && s'.gone == s.gone
            && s'.registry == s.registry && s'.created == s.created
            && t in s'.tasks && s'.tasks == s.tasks[t := s'.tasks[t]] && s'.tasks[t].session.Some?
            && s'.tasks[t].session.value.id == s.tasks[t].session.value.id
            && s'.tasks[t].conn == s.tasks[t].conn && s'.tasks[t].status == s.tasks[t].status
            && s'.tasks[t].abandoned == s.tasks[t].abandoned
  {}

  predicate Waiting(a: Action) { a.Begin? || a.Join? || a.TimeOut? || a.Abort? }

  lemma ConnKeepsStructured(s: Server, a: Action)
    requires Structured(s) && Enabled(s, a) && ByConn(a) && !Waiting(a)
    ensures Structured(Apply(s, a))
  {
    if a.c in s.conns { assert ConnOk(s, a.c); }
    ConnAlone(s, Apply(s, a), a.c);
  }

  lemma BeginKeepsStructured(s: Server, a: Action)
    requires Structured(s) && Enabled(s, a) && a.Begin?
    ensures Structured(Apply(s, a))
  {
    assert ConnOk(s, a.c);
    PairAlone(s, Apply(s, a), a.c, a.t);
  }

  lemma JoinKeepsStructured(s: Server, a: Action)
    requires Structured(s) && Enabled(s, a) && a.Join?
    ensures Structured(Apply(s, a))
  {
    assert ConnOk(s, a.c);
    var t := s.conns[a.c].stage.task;
    assert TaskOk(s, t);
    PairAlone(s, Apply(s, a), a.c, t);
  }

  lemma DetachTask(s: Server, t: TaskId)
    requires t in s.tasks && TaskOk(s, t)
    ensures var s' := Detach(s, t);
            && OnlyTask(s, s', t) && s'.conns == s.conns && s'.permits == s.permits && s'.crashed == s.crashed
            && (t in s'.tasks ==> s'.tasks[t].abandoned && s'.tasks[t].status == Running && s'.tasks[t].session.Some?)
  {}

  lemma TimeOutKeepsStructured(s: Server, a: Action)
    requires Structured(s) && Enabled(s, a) && a.TimeOut?
    ensures Structured(Apply(s, a))
  {
    assert ConnOk(s, a.c);
    var t := s.conns[a.c].stage.task;
    assert TaskOk(s, t);
    DetachTask(s, t);
    PairAlone(s, Apply(s, a), a.c, t);
  }

  lemma AbortKeepsStructured(s: Server, a: Action)
    requires Structured(s) && Enabled(s, a) && a.Abort?
    ensures Structured(Apply(s, a))
  {
    assert ConnOk(s, a.c);
    if s.conns[a.c].stage.Awaiting? {
      var t := s.conns[a.c].stage.task;
      assert TaskOk(s, t);
      DetachTask(s, t);
      PairAlone(s, Apply(s, a), a.c, t);
    } else {
      ConnAlone(s, Apply(s, a), a.c);
    }
  }

  lemma KeepsStructured(s: Server, a: Action)
    requires Structured(s) && Enabled(s, a)
    ensures Structured(Apply(s, a))
  {
    if ByTask(a) { TaskKeepsStructured(s, a); }
    else if a.Prune? {
      forall c | c in s.conns ensures ConnOk(Apply(s, a), c) { assert ConnOk(s, c); }
      forall t | t in s.tasks ensures TaskOk(Apply(s, a), t) { assert TaskOk(s, t); }
    }
    else if a.Begin? { BeginKeepsStructured(s, a); }
    else if a.Join? { JoinKeepsStructured(s, a); }
    else if a.TimeOut? { TimeOutKeepsStructured(s, a); }
    else if a.Abort? { AbortKeepsStructured(s, a); }
    else { ConnKeepsStructured(s, a); }
  }

  // ---------------------------------------------------------------------------
  // The registry
  // ---------------------------------------------------------------------------

  /** Guards come and go nowhere and keep their markers. */
  lemma SameGuardsRegistered(s: Server, s': Server)
    requires Registered(s) && s'.registry == s.registry && s.created <= s'.created
    requires forall c :: Alive(s', c) <==> Alive(s, c)
    requires forall c :: Alive(s, c) && Alive(s', c) ==> s'.conns[c].guard.value.marker == s.conns[c].guard.value.marker
    ensures Registered(s')
  {}

  lemma UpgradeRegisters(s: Server, c: ConnId, id: SessionId)
    requires Structured(s) && Registered(s) && Enabled(s, Upgrade(c, id))
    ensures Registered(Apply(s, Upgrade(c, id)))
  {
    assert ConnOk(s, c);
  }

  lemma DeregisterDeregisters(s: Server, c: ConnId)
    requires Registered(s) && Enabled(s, Deregister(c))
    ensures Registered(Apply(s, Deregister(c)))
  {}

  lemma PruneRemovesNothing(s: Server)
    requires Registered(s)
    ensures Pruned(s) == s.registry
  {}

  lemma KeepsRegistered(s: Server, a: Action)
    requires Structured(s) && Registered(s) && Enabled(s, a)
    ensures Registered(Apply(s, a))
  {
    if ByTask(a) { TaskRegistered(s, a); }
    else if a.Upgrade? { UpgradeRegisters(s, a.c, a.id); }
    else if a.Deregister? { DeregisterDeregisters(s, a.c); }
    else if a.Prune? { PruneRemovesNothing(s); }
    else if Waiting(a) { WaitingRegistered(s, a); }
    else { OthersRegistered(s, a); }
  }

  lemma OneGuardRegistered(s: Server, s': Server, c: ConnId)
    requires Registered(s) && OnlyConn(s, s', c) && s'.registry == s.registry && s.created <= s'.created
    requires Alive(s', c) <==> Alive(s, c)
    requires Alive(s, c) && Alive(s', c) ==> s'.conns[c].guard.value.marker == s.conns[c].guard.value.marker
    ensures Registered(s')
  {
    SameGuardsRegistered(s, s');
  }

  lemma WaitingRegistered(s: Server, a: Action)
    requires Structured(s) && Registered(s) && Enabled(s, a) && Waiting(a)
    ensures Registered(Apply(s, a))
  {
    assert ConnOk(s, a.c);
    if a.Abort? { AbortShape(s, a.c); } else { WaitingShape(s, a); }
    OneGuardRegistered(s, Apply(s, a), a.c);
  }

  /** What the steps that involve waiting do to connections and to the books. */
  lemma DetachShape(s: Server, t: TaskId)
    requires t in s.tasks
    ensures var s' := Detach(s, t);
            s'.conns == s.conns && s'.registry == s.registry && s'.created == s.created && s'.issued == s.issued
  {}

  lemma AbortShape(s: Server, c: ConnId)
    requires Enabled(s, Abort(c))
    ensures var s' := Apply(s, Abort(c));
            && s'.conns == s.conns[c := if At(s, c, Upgrading) then Conn(Bare, None) else s.conns[c].(stage := Leaving)]
            && s'.registry == s.registry && s'.created == s.created && s'.issued == s.issued
  {
    if s.conns[c].stage.Awaiting? { DetachShape(s, s.conns[c].stage.task); }
  }

  /** Connection `c` alone changed; its guard is alive and has the marker it had. */
  ghost predicate SameMarker(s: Server, s': Server, c: ConnId)
    requires Guarded(s, c)
  {
    && c in s'.conns && s'.conns == s.conns[c := s'.conns[c]]
    && s'.registry == s.registry && s.created <= s'.created
    && Alive(s', c) && s'.conns[c].guard.value.marker == s.conns[c].guard.value.marker
  }

  lemma PutShape(s: Server, c: ConnId, x: Session, lang: Language)
    requires Guarded(s, c)
    ensures SameMarker(s, Put(s, c, x, lang), c)
  {}

  lemma WaitingShape(s: Server, a: Action)
    requires Enabled(s, a) && Waiting(a) && !a.Abort?
    ensures SameMarker(s, Apply(s, a), a.c)
  {
    if a.TimeOut? {
      var alone := Detach(s, s.conns[a.c].stage.task);
      DetachShape(s, s.conns[a.c].stage.task);
      PutShape(alone.(created := alone.created + {a.id}), a.c, FreshSession(a.id), EN);
    } else if a.Join? {
      var t := s.conns[a.c].stage.task;
      var ended := s.(tasks := s.tasks - {t});
      if s.tasks[t].session.Some? {
        PutShape(ended, a.c, s.tasks[t].session.value, s.tasks[t].lang);
      } else {
        PutShape(ended.(created := s.created + {a.id}), a.c, FreshSession(a.id), EN);
      }
    }
  }

  lemma TaskRegistered(s: Server, a: Action)
    requires Structured(s) && Registered(s) && Enabled(s, a) && ByTask(a)
    ensures Registered(Apply(s, a))
  {
    assert TaskOk(s, a.t);
    if a.Work? { WorkShape(s, a.t, a.effect); }
    SameGuardsRegistered(s, Apply(s, a));
  }

  lemma OthersRegistered(s: Server, a: Action)
    requires Structured(s) && Registered(s) && Enabled(s, a)
    requires a.Accept? || a.UpgradeFails? || a.Leave? || a.ReleaseState? || a.ReleasePermit?
    ensures Registered(Apply(s, a))
  {
    if a.c in s.conns { assert ConnOk(s, a.c); }
    OthersShape(s, a);
    OneGuardRegistered(s, Apply(s, a), a.c);
  }

  lemma OthersShape(s: Server, a: Action)
    requires Enabled(s, a) && (a.Accept? || a.UpgradeFails? || a.Leave? || a.ReleaseState? || a.ReleasePermit?)
    requires a.c in s.conns ==> ConnOk(s, a.c)
    ensures var s' := Apply(s, a);
            && OnlyConn(s, s', a.c) && s'.registry == s.registry && s'.created == s.created
            && (Alive(s', a.c) <==> Alive(s, a.c))
            && (Alive(s, a.c) && Alive(s', a.c) ==>
                  s'.conns[a.c].guard.value.marker == s.conns[a.c].guard.value.marker)
  {
    if a.Accept? {} else if a.UpgradeFails? {} else if a.Leave? {} else if a.ReleaseState? {} else {}
  }

  // ---------------------------------------------------------------------------
  // Runs
  // ---------------------------------------------------------------------------

  lemma KeepsInv(s: Server, a: Action)
    requires Inv(s) && Enabled(s, a)
    ensures Inv(Apply(s, a))
  {
    KeepsStructured(s, a);
    KeepsRegistered(s, a);
    KeepsSound(s, a);
  }

  lemma {:induction false} RunInv(actions: seq<Action>)
    requires Run(INITIAL, actions).Some?
    ensures Inv(Run(INITIAL, actions).value)
    decreases |actions|
  {
    if actions == [] {
      assert Placed(INITIAL, map[]) && Owned(INITIAL, map[], map[]);
    } else {
      RunInv(actions[..|actions| - 1]);
      KeepsInv(Run(INITIAL, actions[..|actions| - 1]).value, actions[|actions| - 1]);
    }
  }

  lemma ReachableInv(s: Server)
    requires Reachable(s)
    ensures Inv(s)
  {
    var actions: seq<Action> :| Run(INITIAL, actions) == Some(s);
    RunInv(actions);
  }
}
