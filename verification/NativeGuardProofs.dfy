/**
 What every interleaving of guard methods and drops keeps: the gate discipline, the
 reference counts, and a trace that an independent ledger of the vendor's handles
 accepts.
 */
module NativeGuardProofs {
  import opened Options
  import opened Resources
  import opened NativeGuards

  // ---------------------------------------------------------------------------
  // The vendor's own view: a ledger of open handles
  // ---------------------------------------------------------------------------

  /** `open` maps an open guard to its parent and native handle; `ever` is every
      guard opened so far. */
  datatype Ledger = Rejected | Accepted(open: map<Id, (Option<Id>, nat)>, ever: set<Id>)

  predicate HasOpenChild(open: map<Id, (Option<Id>, nat)>, id: Id) {
    exists c :: c in open && open[c].0 == Some(id)
  }

  /** An open needs an open parent and a fresh identity, a use needs an open handle,
      and a close needs an open handle without open children and reaches the vendor
      exactly when the handle is not null. */
  function Record(ledger: Ledger, e: Event): Ledger {
    if ledger.Rejected? then Rejected else
    match e
    case Opened(id, parent, raw) =>
      if id in ledger.ever || (parent.Some? && parent.value !in ledger.open) then Rejected
      else Accepted(ledger.open[id := (parent, raw)], ledger.ever + {id})
    case Used(id) => if id in ledger.open then ledger else Rejected
    case Closed(id, native) =>
      if id !in ledger.open || HasOpenChild(ledger.open, id) || native != (ledger.open[id].1 != 0) then Rejected
      else Accepted(ledger.open - {id}, ledger.ever)
  }

  function Replay(trace: seq<Event>): Ledger {
    if trace == [] then Accepted(map[], {})
    else Record(Replay(trace[..|trace| - 1]), trace[|trace| - 1])
  }

  lemma ReplayAppend(trace: seq<Event>, e: Event)
    ensures Replay(trace + [e]) == Record(Replay(trace), e)
  {
    assert (trace + [e])[..|trace|] == trace;
  }

  // ---------------------------------------------------------------------------
  // The invariant
  // ---------------------------------------------------------------------------

  predicate IsCall(i: Instr) { i.Connect? || i.OpenChild? || i.Call? || i.Query? }

  predicate IsDropRest(sc: seq<Instr>) {
    && 1 <= |sc| <= 4
    && sc[|sc| - 1].DropFields?
    && sc == DropBody(sc[|sc| - 1].id)[4 - |sc|..]
  }

  predicate IsCallRest(sc: seq<Instr>) {
    || (|sc| == 3 && sc[0] == Lock && IsCall(sc[1]) && sc[2] == Unlock)
    || (|sc| == 2 && IsCall(sc[0]) && sc[1] == Unlock)
    || sc == [Unlock]
  }

  predicate Legal(sc: seq<Instr>) {
    sc == [] || sc == [Wait] || sc == [Cancel] || IsCallRest(sc) || IsDropRest(sc)
  }

  /** The thread is between its `Lock` and its `Unlock`. */
  predicate Critical(sc: seq<Instr>) {
    sc != [] && (sc[0] == Unlock || IsCall(sc[0]) || sc[0].Close?)
  }

  ghost predicate Disciplined(s: State) {
    forall t: Tid :: Legal(Script(s, t)) && (s.gate == Some(t) <==> Critical(Script(s, t)))
  }

  /** The call a thread has started and not finished. */
  function Pending(sc: seq<Instr>): Option<Instr> {
    if |sc| == 3 && sc[0] == Lock then Some(sc[1])
    else if |sc| == 2 && sc[1] == Unlock then Some(sc[0])
    else None
  }

  /** A thread that is calling through a guard holds that guard. */
  predicate BorrowOk(s: State, t: Tid) {
    match Pending(Script(s, t))
    case Some(Call(on)) => Owns(s, t, on)
    case Some(OpenChild(of, kind)) => Owns(s, t, of) && Nests(kind, s.guards[of].kind)
    case _ => true
  }

  ghost predicate Borrows(s: State) { forall t: Tid :: BorrowOk(s, t) }

  predicate Drops(sc: seq<Instr>, id: Id) { sc != [] && sc[|sc| - 1] == DropFields(id) }

  function PhaseOf(sc: seq<Instr>, t: Tid): Phase { if |sc| >= 3 then Doomed(t) else Released(t) }

  /** A guard being dropped is being dropped by exactly one thread. */
  ghost predicate DropsOk(s: State) {
    && (forall t: Tid, id: Id :: Drops(Script(s, t), id) ==>
          id in s.guards && s.guards[id].phase == PhaseOf(Script(s, t), t))
    && (forall id :: id in s.guards && (s.guards[id].phase.Doomed? || s.guards[id].phase.Released?) ==>
          Drops(Script(s, s.guards[id].phase.thread), id))
  }

  function Kids(guards: map<Id, Guard>, id: Id): set<Id> {
    set c | c in guards && guards[c].parent == Some(id) && guards[c].phase != Gone
  }

  function Held(g: Guard): nat { if g.owner.Some? then 1 else 0 }

  predicate CountOk(guards: map<Id, Guard>, id: Id)
    requires id in guards
  {
    && guards[id].strong == Held(guards[id]) + |Kids(guards, id)|
    && (guards[id].phase.Live? <==> guards[id].strong > 0)
  }

  predicate PlaceOk(guards: map<Id, Guard>, next: Id, id: Id)
    requires id in guards
  {
    && id < next
    && (guards[id].kind.Device? <==> guards[id].parent.None?)
    && (guards[id].parent.Some? ==>
          && guards[id].parent.value in guards
          && guards[id].parent.value < id
          && Nests(guards[id].kind, guards[guards[id].parent.value].kind))
  }

  ghost predicate GuardsOk(guards: map<Id, Guard>, next: Id) {
    forall id :: id in guards ==> CountOk(guards, id) && PlaceOk(guards, next, id)
  }

  ghost predicate Counted(s: State) { GuardsOk(s.guards, s.next) }

  predicate IsOpen(g: Guard) { g.phase.Live? || g.phase.Doomed? }

  function OpenView(guards: map<Id, Guard>): map<Id, (Option<Id>, nat)> {
    map id | id in guards && IsOpen(guards[id]) :: (guards[id].parent, guards[id].raw)
  }

  ghost predicate Ledgered(s: State) {
    Replay(s.trace) == Accepted(OpenView(s.guards), s.guards.Keys)
  }

  ghost predicate Inv(s: State) {
    Disciplined(s) && Borrows(s) && DropsOk(s) && Counted(s) && Ledgered(s)
  }

  // ---------------------------------------------------------------------------
  // Preservation
  // ---------------------------------------------------------------------------

  function Actor(a: Action): Option<Tid> { if a.DeviceEvent? then None else Some(a.t) }

  lemma OnlyActorMoves(s: State, a: Action, u: Tid)
    requires Enabled(s, a) && Actor(a) != Some(u)
    ensures Script(Apply(s, a), u) == Script(s, u)
  {
  }

  lemma LegalTail(sc: seq<Instr>)
    requires Legal(sc) && sc != []
    ensures Legal(sc[1..])
    ensures Critical(sc[1..]) <==> sc[0] == Lock || IsCall(sc[0]) || sc[0].Close?
    ensures sc[0].DropFields? ==> |sc| == 1
  {
    if IsDropRest(sc) {
      var id := sc[|sc| - 1].id;
      assert sc[1..] == DropBody(id)[4 - |sc[1..]|..];
    }
  }

  /** The effect of one instruction on the scripts and the gate. */
  lemma StepControl(s: State, t: Tid, answer: Option<nat>)
    requires Enabled(s, Step(t, answer))
    ensures var sc := Script(s, t); var s' := Apply(s, Step(t, answer));
            && (Script(s', t) == sc[1..] || (sc[0].DropFields? && exists p :: Script(s', t) == DropBody(p)))
            && s'.gate == (if sc[0] == Lock then Some(t) else if sc[0] == Unlock then None else s.gate)
  {
    var sc := Script(s, t);
    var s1 := Start(s, t, sc[1..]);
    assert Script(s1, t) == sc[1..];
    match sc[0]
    case DropFields(id) =>
      var g := s.guards[id];
      if g.parent.Some? && s.guards[g.parent.value].strong == 1 {
        assert Script(Apply(s, Step(t, answer)), t) == DropBody(g.parent.value);
      }
    case _ =>
  }

  lemma DropBodyLegal(id: Id)
    ensures Legal(DropBody(id)) && !Critical(DropBody(id))
  {
    assert DropBody(id)[0..] == DropBody(id);
  }

  lemma ActorDisciplined(s: State, a: Action, t: Tid)
    requires Enabled(s, a) && Actor(a) == Some(t)
    requires Legal(Script(s, t)) && (s.gate == Some(t) <==> Critical(Script(s, t)))
    ensures var s' := Apply(s, a); Legal(Script(s', t)) && (s'.gate == Some(t) <==> Critical(Script(s', t)))
    ensures Apply(s, a).gate != s.gate ==> s.gate == Some(t) || s.gate == None
    ensures Apply(s, a).gate.Some? && Apply(s, a).gate != s.gate ==> Apply(s, a).gate == Some(t)
  {
    if a.Step? {
      LegalTail(Script(s, t));
      StepControl(s, t, a.answer);
      var s' := Apply(s, a);
      if Script(s', t) != Script(s, t)[1..] {
        var p :| Script(s', t) == DropBody(p);
        DropBodyLegal(p);
      }
    } else if a.BeginDrop? {
      DropBodyLegal(a.id);
    }
  }

  lemma KeepsDisciplined(s: State, a: Action)
    requires Disciplined(s) && Enabled(s, a)
    ensures Disciplined(Apply(s, a))
  {
    var s' := Apply(s, a);
    if a.DeviceEvent? {
      assert s'.gate == s.gate && forall t: Tid :: Script(s', t) == Script(s, t);
    } else {
      ActorDisciplined(s, a, a.t);
      forall t: Tid | t != a.t
        ensures Legal(Script(s', t)) && (s'.gate == Some(t) <==> Critical(Script(s', t)))
      {
        OnlyActorMoves(s, a, t);
      }
    }
  }

  // ---- reference counts -----------------------------------------------------

  /** One guard changed in place: the children of every guard stay what they were,
      unless the change makes it `Gone`. */
  lemma KidsAfterUpdate(guards: map<Id, Guard>, id: Id, g: Guard, p: Id)
    requires id in guards && g.parent == guards[id].parent
    ensures (g.phase == Gone) == (guards[id].phase == Gone) ==> Kids(guards[id := g], p) == Kids(guards, p)
    ensures g.phase == Gone && guards[id].phase != Gone ==>
              Kids(guards[id := g], p) == if g.parent == Some(p) then Kids(guards, p) - {id} else Kids(guards, p)
  {
    var g' := guards[id := g];
    assert forall c :: c in g' <==> c in guards;
    if (g.phase == Gone) == (guards[id].phase == Gone) {
      assert Kids(g', p) == Kids(guards, p);
    } else if g.phase == Gone {
      assert Kids(g', p) == if g.parent == Some(p) then Kids(guards, p) - {id} else Kids(guards, p);
    }
  }

  lemma KidsAfterInsert(guards: map<Id, Guard>, n: Id, g: Guard, p: Id)
    requires n !in guards && g.phase != Gone
    ensures Kids(guards[n := g], p) == if g.parent == Some(p) then Kids(guards, p) + {n} else Kids(guards, p)
  {
  }

  /** Swap the counted content of one guard, keeping its kind, parent and children. */
  lemma CountAfterUpdate(guards: map<Id, Guard>, next: Id, id: Id, g: Guard)
    requires GuardsOk(guards, next) && id in guards
    requires g.parent == guards[id].parent && g.kind == guards[id].kind
    requires (g.phase == Gone) == (guards[id].phase == Gone)
    requires g.strong - Held(g) == guards[id].strong - Held(guards[id])
    requires g.phase.Live? <==> g.strong > 0
    ensures GuardsOk(guards[id := g], next)
  {
    var guards' := guards[id := g];
    forall c | c in guards' ensures CountOk(guards', c) && PlaceOk(guards', next, c) {
      assert CountOk(guards, c) && PlaceOk(guards, next, c);
      KidsAfterUpdate(guards, id, g, c);
    }
  }

  lemma KidsAfterFields(guards: map<Id, Guard>, id: Id, g: Guard, p: Id, gp: Guard, c: Id)
    requires id in guards && p in guards && id != p
    requires guards[id].phase != Gone && g == guards[id].(phase := Gone) && g.parent == Some(p)
    requires gp.parent == guards[p].parent && gp.phase != Gone && guards[p].phase != Gone
    ensures c != p ==> Kids(guards[id := g][p := gp], c) == Kids(guards, c)
    ensures |Kids(guards[id := g][p := gp], p)| == |Kids(guards, p)| - 1
  {
    KidsAfterUpdate(guards, id, g, c);
    KidsAfterUpdate(guards, id, g, p);
    KidsAfterUpdate(guards[id := g], p, gp, c);
    KidsAfterUpdate(guards[id := g], p, gp, p);
    assert id in Kids(guards, p);
  }

  /** The last field of a guard goes: its parent loses one child and one count. */
  lemma CountAfterFields(guards: map<Id, Guard>, next: Id, id: Id, g: Guard, p: Id, gp: Guard)
    requires GuardsOk(guards, next) && id in guards && p in guards
    requires guards[id].phase.Released? && g == guards[id].(phase := Gone)
    requires g.parent == Some(p)
    requires gp.kind == guards[p].kind && gp.parent == guards[p].parent && gp.owner == guards[p].owner
    requires gp.phase != Gone && guards[p].phase.Live?
    requires gp.strong == guards[p].strong - 1
    requires gp.phase.Live? <==> gp.strong > 0
    ensures GuardsOk(guards[id := g][p := gp], next)
  {
    assert PlaceOk(guards, next, id);
    var guards' := guards[id := g][p := gp];
    forall c | c in guards' ensures CountOk(guards', c) && PlaceOk(guards', next, c) {
      assert CountOk(guards, c) && PlaceOk(guards, next, c);
      KidsAfterFields(guards, id, g, p, gp, c);
    }
  }

  lemma CountAfterRootGone(guards: map<Id, Guard>, next: Id, id: Id)
    requires GuardsOk(guards, next) && id in guards
    requires guards[id].phase.Released? && guards[id].parent == None
    ensures GuardsOk(guards[id := guards[id].(phase := Gone)], next)
  {
    var guards' := guards[id := guards[id].(phase := Gone)];
    forall c | c in guards' ensures CountOk(guards', c) && PlaceOk(guards', next, c) {
      assert CountOk(guards, c) && PlaceOk(guards, next, c);
      KidsAfterUpdate(guards, id, guards'[id], c);
    }
  }

  lemma CountAfterConnect(guards: map<Id, Guard>, next: Id, g: Guard)
    requires GuardsOk(guards, next)
    requires g.kind == Device && g.parent == None && g.strong == 1 && g.owner.Some? && g.phase == Live
    ensures GuardsOk(guards[next := g], next + 1)
  {
    var guards' := guards[next := g];
    assert next !in guards;
    forall c | c in guards' ensures CountOk(guards', c) && PlaceOk(guards', next + 1, c) {
      KidsAfterInsert(guards, next, g, c);
      if c != next {
        assert CountOk(guards, c) && PlaceOk(guards, next, c);
      } else {
        assert Kids(guards, next) == {} by { NoKidsYet(guards, next); }
      }
    }
  }

  lemma NoKidsYet(guards: map<Id, Guard>, next: Id)
    requires GuardsOk(guards, next)
    ensures Kids(guards, next) == {}
  {
    forall c | c in guards ensures guards[c].parent != Some(next) { assert PlaceOk(guards, next, c); }
  }

  lemma CountAfterOpen(guards: map<Id, Guard>, next: Id, p: Id, g: Guard)
    requires GuardsOk(guards, next) && p in guards
    requires g.parent == Some(p) && g.strong == 1 && g.owner.Some? && g.phase == Live
    requires Nests(g.kind, guards[p].kind) && guards[p].phase.Live?
    ensures GuardsOk(guards[p := guards[p].(strong := guards[p].strong + 1)][next := g], next + 1)
  {
    var gp := guards[p].(strong := guards[p].strong + 1);
    var mid := guards[p := gp];
    var guards' := mid[next := g];
    assert next !in guards;
    NoKidsYet(guards, next);
    forall c | c in guards' ensures CountOk(guards', c) && PlaceOk(guards', next + 1, c) {
      KidsAfterUpdate(guards, p, gp, c);
      KidsAfterInsert(mid, next, g, c);
      assert next !in Kids(guards, c);
      if c != next {
        assert CountOk(guards, c) && PlaceOk(guards, next, c);
      }
    }
  }

  lemma OwnedIsLive(s: State, t: Tid, id: Id)
    requires Counted(s) && Owns(s, t, id)
    ensures s.guards[id].phase == Live && s.guards[id].strong > 0
  {
    assert CountOk(s.guards, id);
  }

  lemma ParentIsLive(s: State, id: Id)
    requires Counted(s) && id in s.guards && s.guards[id].phase != Gone && s.guards[id].parent.Some?
    ensures var p := s.guards[id].parent.value;
            p in s.guards && p != id && s.guards[p].phase == Live && s.guards[p].strong > 0
  {
    assert PlaceOk(s.guards, s.next, id);
    var p := s.guards[id].parent.value;
    assert CountOk(s.guards, p);
    assert id in Kids(s.guards, p);
  }

  /** What a script's shape says about its first instruction. */
  lemma HeadShape(sc: seq<Instr>)
    requires Legal(sc) && sc != []
    ensures sc[0].OpenChild? || sc[0].Call? ==> Pending(sc) == Some(sc[0])
    ensures sc[0].Close? ==> Drops(sc, sc[0].id) && |sc| == 3
    ensures sc[0].DropFields? ==> Drops(sc, sc[0].id) && |sc| == 1
  {
  }

  /** What the next instruction of a thread may rely on. */
  lemma HeadFacts(s: State, t: Tid)
    requires Disciplined(s) && Borrows(s) && DropsOk(s) && Counted(s) && Script(s, t) != []
    ensures var i := Script(s, t)[0];
            && (i.OpenChild? ==> Owns(s, t, i.of) && Nests(i.kind, s.guards[i.of].kind) && s.guards[i.of].phase == Live)
            && (i.Call? ==> Owns(s, t, i.on) && s.guards[i.on].phase == Live)
            && (i.Close? ==> i.id in s.guards && s.guards[i.id].phase == Doomed(t))
            && (i.DropFields? ==> i.id in s.guards && s.guards[i.id].phase == Released(t))
  {
    var sc := Script(s, t);
    assert Legal(sc) && BorrowOk(s, t);
    HeadShape(sc);
    match sc[0]
    case OpenChild(of, _) => OwnedIsLive(s, t, of);
    case Call(on) => OwnedIsLive(s, t, on);
    case _ =>
  }

  lemma CountedDrop(s: State, t: Tid, id: Id)
    requires Counted(s) && Enabled(s, BeginDrop(t, id))
    ensures Counted(Apply(s, BeginDrop(t, id)))
  {
    var s' := Apply(s, BeginDrop(t, id));
    OwnedIsLive(s, t, id);
    assert CountOk(s.guards, id);
    CountAfterUpdate(s.guards, s.next, id, s'.guards[id]);
    assert s'.guards == s.guards[id := s'.guards[id]];
  }

  lemma KeepsCounted(s: State, a: Action)
    requires Disciplined(s) && Borrows(s) && DropsOk(s) && Counted(s) && Enabled(s, a)
    ensures Counted(Apply(s, a))
  {
    match a
    case BeginDrop(t, id) =>
      CountedDrop(s, t, id);
    case Move(t, id, to) =>
      assert CountOk(s.guards, id);
      CountAfterUpdate(s.guards, s.next, id, s.guards[id].(owner := Some(to)));
    case Step(t, answer) =>
      HeadFacts(s, t);
      CountedStep(s, t, answer);
    case _ =>
  }

  lemma CountedFields(s: State, t: Tid, answer: Option<nat>, id: Id)
    requires Enabled(s, Step(t, answer)) && Counted(s) && Script(s, t)[0] == DropFields(id)
    requires id in s.guards && s.guards[id].phase == Released(t)
    ensures Counted(Apply(s, Step(t, answer)))
  {
    var s', g := Apply(s, Step(t, answer)), s.guards[id];
    if g.parent.None? {
      CountAfterRootGone(s.guards, s.next, id);
    } else {
      var p := g.parent.value;
      ParentIsLive(s, id);
      assert s'.guards == s.guards[id := g.(phase := Gone)][p := s'.guards[p]];
      CountAfterFields(s.guards, s.next, id, g.(phase := Gone), p, s'.guards[p]);
    }
  }

  lemma CountedStep(s: State, t: Tid, answer: Option<nat>)
    requires Enabled(s, Step(t, answer)) && Counted(s)
    requires var i := Script(s, t)[0];
             && (i.OpenChild? ==>
                   Owns(s, t, i.of) && Nests(i.kind, s.guards[i.of].kind) && s.guards[i.of].phase == Live)
             && (i.Close? ==> i.id in s.guards && s.guards[i.id].phase == Doomed(t))
             && (i.DropFields? ==> i.id in s.guards && s.guards[i.id].phase == Released(t))
    ensures Counted(Apply(s, Step(t, answer)))
  {
    var s' := Apply(s, Step(t, answer));
    match Script(s, t)[0]
    case Connect =>
      if answer.Some? { CountAfterConnect(s.guards, s.next, Guard(Device, None, answer.value, 1, Some(t), Live)); }
    case OpenChild(of, kind) =>
      if answer.Some? { CountAfterOpen(s.guards, s.next, of, Guard(kind, Some(of), answer.value, 1, Some(t), Live)); }
    case Close(id) =>
      assert CountOk(s.guards, id);
      CountAfterUpdate(s.guards, s.next, id, s'.guards[id]);
    case DropFields(id) =>
      CountedFields(s, t, answer, id);
    case _ =>
  }

  // ---- borrows and drops ----------------------------------------------------

  ghost predicate Shape(s: State) { Disciplined(s) && Borrows(s) && DropsOk(s) && Counted(s) }

  /** What the invariant gives about the one guard and the one script an action
      touches, free of quantifiers. */
  predicate Local(s: State, a: Action)
    requires Enabled(s, a)
  {
    match a
    case BeginDrop(t, id) => s.guards[id].phase == Live
    case Step(t, _) =>
      var i := Script(s, t)[0];
      && s.next !in s.guards
      && Legal(Script(s, t))
      && (i.OpenChild? ==> Owns(s, t, i.of))
      && (i.Close? ==> s.guards[i.id].phase == Doomed(t))
      && (i.DropFields? ==>
            && s.guards[i.id].phase == Released(t)
            && (s.guards[i.id].parent.Some? ==>
                  s.guards[i.id].parent.value != i.id && s.guards[s.guards[i.id].parent.value].phase == Live))
    case _ => true
  }

  lemma ShapeIsLocal(s: State, a: Action)
    requires Shape(s) && Enabled(s, a)
    ensures Local(s, a)
  {
    match a
    case BeginDrop(t, id) => OwnedIsLive(s, t, id);
    case Step(t, _) =>
      assert Legal(Script(s, t));
      assert s.next !in s.guards;
      HeadFacts(s, t);
      var i := Script(s, t)[0];
      if i.DropFields? && s.guards[i.id].parent.Some? { ParentIsLive(s, i.id); }
    case _ =>
  }

  predicate Foreign(p: Phase, t: Tid) { (p.Doomed? || p.Released?) && p.thread != t }

  /** What one action by thread `t` cannot change about a guard. */
  lemma GuardFrame(s: State, a: Action, id: Id)
    requires Enabled(s, a) && Local(s, a) && a != DeviceEvent && id in s.guards
    ensures var s' := Apply(s, a);
            && id in s'.guards
            && s'.guards[id].kind == s.guards[id].kind
            && s'.guards[id].parent == s.guards[id].parent
            && s'.guards[id].raw == s.guards[id].raw
            && (s.guards[id].owner != Some(a.t) || a.Step? ==> s'.guards[id].owner == s.guards[id].owner)
            && (Foreign(s.guards[id].phase, a.t) || Foreign(s'.guards[id].phase, a.t) ==>
                  s'.guards[id].phase == s.guards[id].phase)
  {
  }

  lemma KeepsBorrows(s: State, a: Action)
    requires Shape(s) && Enabled(s, a)
    ensures Borrows(Apply(s, a))
  {
    ShapeIsLocal(s, a);
    var s' := Apply(s, a);
    forall u: Tid ensures BorrowOk(s', u) {
      assert Legal(Script(s, u)) && BorrowOk(s, u);
      if Actor(a) == Some(u) { ActorBorrows(s, a); } else { OtherBorrows(s, a, u); }
    }
  }

  lemma OtherBorrows(s: State, a: Action, u: Tid)
    requires Enabled(s, a) && Local(s, a) && Actor(a) != Some(u) && BorrowOk(s, u)
    ensures BorrowOk(Apply(s, a), u)
  {
    OnlyActorMoves(s, a, u);
    if a != DeviceEvent {
      match Pending(Script(s, u))
      case Some(Call(on)) => GuardFrame(s, a, on);
      case Some(OpenChild(of, _)) => GuardFrame(s, a, of);
      case _ =>
    }
  }

  lemma PendingTail(sc: seq<Instr>)
    requires Legal(sc) && sc != [] && Pending(sc[1..]).Some?
    ensures sc[0] == Lock && Pending(sc[1..]) == Pending(sc)
  {
  }

  lemma ActorBorrows(s: State, a: Action)
    requires Enabled(s, a) && Local(s, a) && a != DeviceEvent && BorrowOk(s, a.t)
    ensures BorrowOk(Apply(s, a), a.t)
  {
    var sc, s' := Script(s, a.t), Apply(s, a);
    if a.Step? {
      StepControl(s, a.t, a.answer);
      if Script(s', a.t) != sc[1..] {
        assert Pending(Script(s', a.t)).None?;
      } else if Pending(sc[1..]).Some? {
        PendingTail(sc);
        assert s'.guards == s.guards;
      }
    } else if a.BeginDrop? {
      assert Pending(Script(s', a.t)).None?;
    }
  }

  lemma KeepsDropsOk(s: State, a: Action)
    requires Enabled(s, a) && Local(s, a) && DropsOk(s)
    ensures DropsOk(Apply(s, a))
  {
    var s' := Apply(s, a);
    forall u: Tid, id: Id | Drops(Script(s', u), id)
      ensures id in s'.guards && s'.guards[id].phase == PhaseOf(Script(s', u), u)
    {
      DroppedHasPhase(s, a, u, id);
    }
    forall id | id in s'.guards && (s'.guards[id].phase.Doomed? || s'.guards[id].phase.Released?)
      ensures Drops(Script(s', s'.guards[id].phase.thread), id)
    {
      PhaseHasDropper(s, a, id);
    }
  }

  lemma DroppedHasPhase(s: State, a: Action, u: Tid, id: Id)
    requires Enabled(s, a) && Local(s, a) && Drops(Script(Apply(s, a), u), id)
    requires Drops(Script(s, u), id) ==> id in s.guards && s.guards[id].phase == PhaseOf(Script(s, u), u)
    ensures var s' := Apply(s, a); id in s'.guards && s'.guards[id].phase == PhaseOf(Script(s', u), u)
  {
    if Actor(a) == Some(u) {
      ActorDrops(s, a, id);
    } else {
      OnlyActorMoves(s, a, u);
      if a != DeviceEvent { GuardFrame(s, a, id); }
    }
  }

  lemma PhaseHasDropper(s: State, a: Action, id: Id)
    requires Enabled(s, a) && Local(s, a)
    requires var s' := Apply(s, a); id in s'.guards && (s'.guards[id].phase.Doomed? || s'.guards[id].phase.Released?)
    requires id in s.guards && (s.guards[id].phase.Doomed? || s.guards[id].phase.Released?) ==>
               Drops(Script(s, s.guards[id].phase.thread), id)
    ensures var s' := Apply(s, a); Drops(Script(s', s'.guards[id].phase.thread), id)
  {
    var u := Apply(s, a).guards[id].phase.thread;
    if Actor(a) == Some(u) {
      ActorDooms(s, a, id);
    } else {
      OnlyActorMoves(s, a, u);
      if a != DeviceEvent && id in s.guards { GuardFrame(s, a, id); }
    }
  }

  lemma DropRestShape(sc: seq<Instr>, id: Id)
    requires Legal(sc) && Drops(sc, id)
    ensures IsDropRest(sc)
    ensures |sc| == 3 <==> sc[0] == Close(id)
    ensures |sc| == 1 <==> sc[0] == DropFields(id)
    ensures sc[0].Close? ==> |sc| == 3
    ensures !IsCall(sc[0]) && sc[0] != Wait && sc[0] != Cancel
  {
  }

  lemma ActorDrops(s: State, a: Action, id: Id)
    requires Enabled(s, a) && Local(s, a) && a != DeviceEvent
    requires Drops(Script(Apply(s, a), a.t), id)
    requires a.Step? && Drops(Script(s, a.t), id) ==>
               id in s.guards && s.guards[id].phase == PhaseOf(Script(s, a.t), a.t)
    ensures var s' := Apply(s, a);
            id in s'.guards && s'.guards[id].phase == PhaseOf(Script(s', a.t), a.t)
  {
    var sc, s' := Script(s, a.t), Apply(s, a);
    if a.Step? {
      LegalTail(sc);
      StepControl(s, a.t, a.answer);
      if !sc[0].DropFields? {
        assert Drops(sc, id);
        DropRestShape(sc, id);
      }
    }
  }

  lemma ActorDooms(s: State, a: Action, id: Id)
    requires Enabled(s, a) && Local(s, a) && a != DeviceEvent
    requires var s' := Apply(s, a);
             id in s'.guards && (s'.guards[id].phase == Doomed(a.t) || s'.guards[id].phase == Released(a.t))
    requires id in s.guards && s.guards[id].phase == Apply(s, a).guards[id].phase ==> Drops(Script(s, a.t), id)
    ensures Drops(Script(Apply(s, a), a.t), id)
  {
    if a.Step? { StepDooms(s, a.t, a.answer, id); }
  }

  lemma StepDooms(s: State, t: Tid, answer: Option<nat>, id: Id)
    requires Enabled(s, Step(t, answer)) && Local(s, Step(t, answer))
    requires var s' := Apply(s, Step(t, answer));
             id in s'.guards && (s'.guards[id].phase == Doomed(t) || s'.guards[id].phase == Released(t))
    requires id in s.guards && s.guards[id].phase == Apply(s, Step(t, answer)).guards[id].phase ==>
               Drops(Script(s, t), id)
    ensures Drops(Script(Apply(s, Step(t, answer)), t), id)
  {
    var sc := Script(s, t);
    if sc[0].DropFields? {
      FieldsDoom(s, t, answer, id);
    } else {
      StepControl(s, t, answer);
      if Drops(sc, id) { DropRestShape(sc, id); } else { OnlyCloseDooms(s, t, answer, id); }
    }
  }

  /** Besides the last step of a drop, only a close puts a guard in a dropper's hands. */
  lemma OnlyCloseDooms(s: State, t: Tid, answer: Option<nat>, id: Id)
    requires Enabled(s, Step(t, answer)) && Local(s, Step(t, answer)) && !Script(s, t)[0].DropFields?
    requires var s' := Apply(s, Step(t, answer));
             id in s'.guards && (s'.guards[id].phase == Doomed(t) || s'.guards[id].phase == Released(t))
    requires !(id in s.guards && s.guards[id].phase == Apply(s, Step(t, answer)).guards[id].phase)
    ensures Drops(Script(s, t)[1..], id)
  {
    HeadShape(Script(s, t));
    match Script(s, t)[0]
    case Close(_) =>
    case Connect =>
    case OpenChild(_, _) =>
    case _ =>
  }

  lemma FieldsDoom(s: State, t: Tid, answer: Option<nat>, id: Id)
    requires Enabled(s, Step(t, answer)) && Local(s, Step(t, answer)) && Script(s, t)[0].DropFields?
    requires var s' := Apply(s, Step(t, answer));
             id in s'.guards && (s'.guards[id].phase == Doomed(t) || s'.guards[id].phase == Released(t))
    requires id in s.guards && s.guards[id].phase == Apply(s, Step(t, answer)).guards[id].phase ==>
               Drops(Script(s, t), id)
    ensures Drops(Script(Apply(s, Step(t, answer)), t), id)
  {
    var sc := Script(s, t);
    HeadShape(sc);
  }

  // ---- the ledger -----------------------------------------------------------

  lemma DoomedHasNoOpenChild(s: State, id: Id)
    requires Counted(s) && id in s.guards && s.guards[id].phase.Doomed?
    ensures !HasOpenChild(OpenView(s.guards), id)
  {
    assert CountOk(s.guards, id);
    assert Kids(s.guards, id) == {};
    forall c | c in OpenView(s.guards) ensures OpenView(s.guards)[c].0 != Some(id) {
      assert c !in Kids(s.guards, id);
    }
  }

  lemma LedgeredQuiet(s: State, a: Action)
    requires Enabled(s, a) && Local(s, a) && !a.Step?
    ensures Apply(s, a).trace == s.trace
    ensures OpenView(Apply(s, a).guards) == OpenView(s.guards) && Apply(s, a).guards.Keys == s.guards.Keys
  {
  }

  /** An update that neither opens nor closes a guard is invisible to the ledger. */
  lemma ViewAfterUpdate(guards: map<Id, Guard>, id: Id, g: Guard)
    requires id in guards && g.parent == guards[id].parent && g.raw == guards[id].raw
    ensures guards[id := g].Keys == guards.Keys
    ensures IsOpen(g) == IsOpen(guards[id]) ==> OpenView(guards[id := g]) == OpenView(guards)
    ensures !IsOpen(g) ==> OpenView(guards[id := g]) == OpenView(guards) - {id}
  {
    assert guards[id := g].Keys == guards.Keys;
    if IsOpen(g) == IsOpen(guards[id]) { assert OpenView(guards[id := g]) == OpenView(guards); }
    if !IsOpen(g) { assert OpenView(guards[id := g]) == OpenView(guards) - {id}; }
  }

  lemma ViewAfterInsert(guards: map<Id, Guard>, n: Id, g: Guard)
    requires n !in guards && IsOpen(g)
    ensures guards[n := g].Keys == guards.Keys + {n}
    ensures OpenView(guards[n := g]) == OpenView(guards)[n := (g.parent, g.raw)]
  {
    assert OpenView(guards[n := g]) == OpenView(guards)[n := (g.parent, g.raw)];
  }

  lemma LedgeredConnect(s: State, t: Tid, raw: nat)
    requires Enabled(s, Step(t, Some(raw))) && s.next !in s.guards && Ledgered(s)
    requires Script(s, t)[0].Connect?
    ensures Ledgered(Apply(s, Step(t, Some(raw))))
  {
    ReplayAppend(s.trace, Opened(s.next, None, raw));
    ViewAfterInsert(s.guards, s.next, Guard(Device, None, raw, 1, Some(t), Live));
  }

  lemma LedgeredOpens(s: State, t: Tid, raw: nat)
    requires Enabled(s, Step(t, Some(raw))) && s.next !in s.guards && Ledgered(s)
    requires var i := Script(s, t)[0]; i.OpenChild? && s.guards[i.of].phase == Live
    ensures Ledgered(Apply(s, Step(t, Some(raw))))
  {
    var i, s' := Script(s, t)[0], Apply(s, Step(t, Some(raw)));
    var gp := s.guards[i.of].(strong := s.guards[i.of].strong + 1);
    var g := Guard(i.kind, Some(i.of), raw, 1, Some(t), Live);
    assert s'.guards == s.guards[i.of := gp][s.next := g];
    assert s'.trace == s.trace + [Used(i.of)] + [Opened(s.next, Some(i.of), raw)];
    ReplayAppend(s.trace, Used(i.of));
    ReplayAppend(s.trace + [Used(i.of)], Opened(s.next, Some(i.of), raw));
    ViewAfterUpdate(s.guards, i.of, gp);
    ViewAfterInsert(s.guards[i.of := gp], s.next, g);
    assert i.of in OpenView(s.guards);
  }

  lemma LedgeredFields(s: State, t: Tid, answer: Option<nat>)
    requires Enabled(s, Step(t, answer)) && Local(s, Step(t, answer)) && Ledgered(s)
    requires Script(s, t)[0].DropFields?
    ensures Ledgered(Apply(s, Step(t, answer)))
  {
    var s' := Apply(s, Step(t, answer));
    var id := Script(s, t)[0].id;
    var freed := s.guards[id := s.guards[id].(phase := Gone)];
    ViewAfterUpdate(s.guards, id, freed[id]);
    if s.guards[id].parent.Some? {
      var p := s.guards[id].parent.value;
      assert s'.guards == freed[p := s'.guards[p]];
      ViewAfterUpdate(freed, p, s'.guards[p]);
    }
  }

  lemma LedgeredClose(s: State, t: Tid, answer: Option<nat>, id: Id)
    requires Enabled(s, Step(t, answer)) && Script(s, t)[0] == Close(id) && Ledgered(s)
    requires s.guards[id].phase == Doomed(t) && !HasOpenChild(OpenView(s.guards), id)
    ensures Ledgered(Apply(s, Step(t, answer)))
  {
    ReplayAppend(s.trace, Closed(id, s.guards[id].raw != 0));
    ViewAfterUpdate(s.guards, id, s.guards[id].(phase := Released(t)));
  }

  lemma LedgeredStep(s: State, t: Tid, answer: Option<nat>)
    requires Enabled(s, Step(t, answer)) && Local(s, Step(t, answer)) && Ledgered(s)
    requires var i := Script(s, t)[0];
             && (i.OpenChild? ==> s.guards[i.of].phase == Live)
             && (i.Call? ==> i.on in s.guards && s.guards[i.on].phase == Live)
             && (i.Close? ==> !HasOpenChild(OpenView(s.guards), i.id))
    ensures Ledgered(Apply(s, Step(t, answer)))
  {
    match Script(s, t)[0]
    case Connect =>
      if answer.Some? { LedgeredConnect(s, t, answer.value); }
    case OpenChild(of, _) =>
      if answer.Some? { LedgeredOpens(s, t, answer.value); } else { ReplayAppend(s.trace, Used(of)); }
    case DropFields(_) => LedgeredFields(s, t, answer);
    case Call(on) => ReplayAppend(s.trace, Used(on));
    case Close(id) => LedgeredClose(s, t, answer, id);
    case _ =>
  }

  lemma KeepsLedgered(s: State, a: Action)
    requires Shape(s) && Ledgered(s) && Enabled(s, a)
    ensures Ledgered(Apply(s, a))
  {
    ShapeIsLocal(s, a);
    if a.Step? {
      HeadFacts(s, a.t);
      var i := Script(s, a.t)[0];
      if i.Close? { DoomedHasNoOpenChild(s, i.id); }
      LedgeredStep(s, a.t, a.answer);
    } else {
      LedgeredQuiet(s, a);
    }
  }

  // ---------------------------------------------------------------------------
  // Every reachable state
  // ---------------------------------------------------------------------------

  lemma KeepsInv(s: State, a: Action)
    requires Inv(s) && Enabled(s, a)
    ensures Inv(Apply(s, a))
  {
    ShapeIsLocal(s, a);
    KeepsDisciplined(s, a);
    KeepsBorrows(s, a);
    KeepsDropsOk(s, a);
    KeepsCounted(s, a);
    KeepsLedgered(s, a);
  }

  lemma InitialInv()
    ensures Inv(INITIAL)
  {
    assert OpenView(INITIAL.guards) == map[];
  }

  /** The invariant holds after every run, whatever the interleaving, the vendor's
      answers and the order of drops. */
  lemma {:induction false} RunInv(actions: seq<Action>)
    requires Run(INITIAL, actions).Some?
    ensures Inv(Run(INITIAL, actions).value)
    decreases |actions|
  {
    InitialInv();
    if actions != [] {
      RunInv(actions[..|actions| - 1]);
      KeepsInv(Run(INITIAL, actions[..|actions| - 1]).value, actions[|actions| - 1]);
    }
  }

  lemma ReachableInv(s: State)
    requires Reachable(s)
    ensures Inv(s)
  {
    var actions: seq<Action> :| Run(INITIAL, actions) == Some(s);
    RunInv(actions);
  }
}
