/** One request from beginning to end: what travels onto the task and what comes back. */
module LifecycleRequests {
  import opened Options
  import opened Auth
  import opened Lifecycle
  import opened LifecycleProofs
  import opened LifecycleTheorems

  // ---------------------------------------------------------------------------
  // The beginning
  // ---------------------------------------------------------------------------

  /** A connection that was upgraded serves in English, with an empty state registered
      under that state's id. */
  lemma UpgradeStartsEmpty(s: Server, c: ConnId, id: SessionId)
    requires Enabled(s, Upgrade(c, id))
    ensures var s' := Apply(s, Upgrade(c, id));
            && At(s', c, Ready) && s'.conns[c].guard == Some(Guard(id, Some(Session(id, map[], {})), EN))
            && s'.registry == s.registry[id := c] && s'.created == s.created + {id}
            && s'.tasks == s.tasks && s'.permits == s.permits
            && forall d :: d in s.conns && d != c ==> d in s'.conns && s'.conns[d] == s.conns[d]
  {}

  /** A request takes the session's state and its language along, and leaves the guard
      empty; nothing else moves. */
  lemma BeginTakesSession(s: Server, c: ConnId, t: TaskId, exempt: bool)
    requires Reachable(s) && Enabled(s, Begin(c, t, exempt))
    ensures var s', g := Apply(s, Begin(c, t, exempt)), s.conns[c].guard.value;
            && g.slot.Some?
            && s'.tasks == s.tasks[t := Task(c, g.slot, g.lang, exempt, Running, false)]
            && s'.conns == s.conns[c := Conn(Awaiting(t), Some(Guard(g.marker, None, EN)))]
            && s' == s.(conns := s'.conns, tasks := s'.tasks)
  {
    ReachableInv(s);
    assert ConnOk(s, c);
  }

  /** The wait methods are never timed out, and every other request can be. */
  lemma TimedOutUnlessExempt(s: Server, c: ConnId, id: SessionId)
    requires Reachable(s) && c in s.conns && s.conns[c].stage.Awaiting? && id !in s.created
    ensures s.conns[c].stage.task in s.tasks
    ensures Enabled(s, TimeOut(c, id)) <==> !s.tasks[s.conns[c].stage.task].exempt
  {
    ReachableInv(s);
    assert ConnOk(s, c);
  }

  // ---------------------------------------------------------------------------
  // Whole requests
  // ---------------------------------------------------------------------------

  /** One enabled action that leads to `s'`. */
  predicate Does(s: Server, a: Action, s': Server) { Enabled(s, a) && Apply(s, a) == s' }

  lemma RunCons(s: Server, a: Action, s': Server, rest: seq<Action>)
    requires Does(s, a, s')
    ensures Run(s, [a] + rest) == Run(s', rest)
  {
    assert [a][..0] == [] && Run(s, [a]) == Some(s');
    RunConcat(s, [a], rest);
  }

  lemma RunTwo(s: Server, a: Action, s1: Server, b: Action, s2: Server)
    requires Does(s, a, s1) && Does(s1, b, s2)
    ensures Run(s, [a, b]) == Some(s2)
  {
    RunCons(s1, b, s2, []);
    assert [b] + [] == [b] && Run(s2, []) == Some(s2);
    RunCons(s, a, s1, [b]);
    assert [a] + [b] == [a, b];
  }

  /** The server with `c` waiting for task `t`, which has the session `x`. */
  function Busy(s: Server, c: ConnId, t: TaskId, x: Session, lang: Language, exempt: bool, status: Status): Server
    requires Guarded(s, c)
  {
    s.(conns := s.conns[c := Conn(Awaiting(t), Some(s.conns[c].guard.value.(slot := None, lang := EN)))],
       tasks := s.tasks[t := Task(c, Some(x), lang, exempt, status, false)])
  }

  /** The server with `c` ready and holding `x`. */
  function Holding(s: Server, c: ConnId, x: Session, lang: Language): Server
    requires Guarded(s, c)
  {
    s.(conns := s.conns[c := Conn(Ready, Some(s.conns[c].guard.value.(slot := Some(x), lang := lang)))])
  }

  lemma FinishAndJoin(s: Server, c: ConnId, t: TaskId, x: Session, lang: Language, exempt: bool, id: SessionId)
    requires Guarded(s, c) && t !in s.tasks && id !in s.created
    ensures Run(Busy(s, c, t, x, lang, exempt, Running), [Finish(t), Join(c, id)]) == Some(Holding(s, c, x, lang))
  {
    var running, finished := Busy(s, c, t, x, lang, exempt, Running), Busy(s, c, t, x, lang, exempt, Finished);
    assert running.tasks[t := running.tasks[t].(status := Finished)] == finished.tasks;
    assert finished.tasks - {t} == s.tasks;
    JoinPuts(s, c, t, x, lang, exempt, id);
    RunTwo(running, Finish(t), finished, Join(c, id), Holding(s, c, x, lang));
  }

  lemma JoinPuts(s: Server, c: ConnId, t: TaskId, x: Session, lang: Language, exempt: bool, id: SessionId)
    requires Guarded(s, c) && t !in s.tasks && id !in s.created
    ensures Does(Busy(s, c, t, x, lang, exempt, Finished), Join(c, id), Holding(s, c, x, lang))
  {
    var finished := Busy(s, c, t, x, lang, exempt, Finished);
    assert finished.tasks - {t} == s.tasks;
    var after := Apply(finished, Join(c, id));
    assert after.conns == Holding(s, c, x, lang).conns;
  }

  lemma BeginDoes(s: Server, c: ConnId, t: TaskId, exempt: bool)
    requires Reachable(s) && Enabled(s, Begin(c, t, exempt))
    ensures var g := s.conns[c].guard.value;
            && g.slot.Some? && Does(s, Begin(c, t, exempt), Busy(s, c, t, g.slot.value, g.lang, exempt, Running))
            && Holding(s, c, g.slot.value, g.lang) == s
  {
    ReachableInv(s);
    assert ConnOk(s, c);
    var g := s.conns[c].guard.value;
    assert g.(slot := Some(g.slot.value), lang := g.lang) == g;
    assert s.conns[c := s.conns[c]] == s.conns;
  }

  /** A request that does nothing leaves the whole server as it was: state, language,
      grants, handles, registry and all. */
  lemma IdleRequestChangesNothing(s: Server, c: ConnId, t: TaskId, exempt: bool, id: SessionId)
    requires Reachable(s) && Enabled(s, Begin(c, t, exempt)) && id !in s.created
    ensures Run(s, [Begin(c, t, exempt), Finish(t), Join(c, id)]) == Some(s)
  {
    var g := s.conns[c].guard.value;
    BeginDoes(s, c, t, exempt);
    FinishAndJoin(s, c, t, g.slot.value, g.lang, exempt, id);
    RunCons(s, Begin(c, t, exempt), Busy(s, c, t, g.slot.value, g.lang, exempt, Running), [Finish(t), Join(c, id)]);
    assert [Begin(c, t, exempt)] + [Finish(t), Join(c, id)] == [Begin(c, t, exempt), Finish(t), Join(c, id)];
  }

  /** A request that does one thing leaves the server as it was but for that. */
  lemma WorkedRequest(s: Server, c: ConnId, t: TaskId, exempt: bool, effect: Effect, id: SessionId,
                      base: Server, x: Session, lang: Language)
    requires Reachable(s) && Enabled(s, Begin(c, t, exempt)) && s.conns[c].guard.value.slot.Some?
    requires base.conns == s.conns && base.tasks == s.tasks && id !in base.created
    requires var g := s.conns[c].guard.value;
             Does(Busy(s, c, t, g.slot.value, g.lang, exempt, Running), Work(t, effect),
                  Busy(base, c, t, x, lang, exempt, Running))
    ensures Run(s, [Begin(c, t, exempt), Work(t, effect), Finish(t), Join(c, id)]) == Some(Holding(base, c, x, lang))
  {
    var g := s.conns[c].guard.value;
    BeginDoes(s, c, t, exempt);
    FinishAndJoin(base, c, t, x, lang, exempt, id);
    var begun := Busy(s, c, t, g.slot.value, g.lang, exempt, Running);
    var worked := Busy(base, c, t, x, lang, exempt, Running);
    var a, b, rest := Begin(c, t, exempt), Work(t, effect), [Finish(t), Join(c, id)];
    RunCons(begun, b, worked, rest);
    assert [b] + rest == [b, Finish(t), Join(c, id)];
    RunCons(s, a, begun, [b, Finish(t), Join(c, id)]);
    assert [a] + [b, Finish(t), Join(c, id)] == [a, b, Finish(t), Join(c, id)];
  }

  /** `SetLanguage` lasts beyond its request. */
  lemma LanguageLasts(s: Server, c: ConnId, t: TaskId, lang: Language, id: SessionId)
    requires Reachable(s) && Enabled(s, Begin(c, t, false)) && id !in s.created
    ensures s.conns[c].guard.value.slot.Some?
    ensures Run(s, [Begin(c, t, false), Work(t, SetLanguage(lang)), Finish(t), Join(c, id)])
            == Some(Holding(s, c, s.conns[c].guard.value.slot.value, lang))
  {
    BeginDoes(s, c, t, false);
    var g := s.conns[c].guard.value;
    var begun := Busy(s, c, t, g.slot.value, g.lang, false, Running);
    var worked := Busy(s, c, t, g.slot.value, lang, false, Running);
    assert begun.tasks[t := begun.tasks[t].(lang := lang)] == worked.tasks;
    WorkedRequest(s, c, t, false, SetLanguage(lang), id, s, g.slot.value, lang);
  }

  /** So do the grants a request made or cleared. */
  lemma GrantsLast(s: Server, c: ConnId, t: TaskId, grants: Grants, id: SessionId)
    requires Reachable(s) && Enabled(s, Begin(c, t, false)) && id !in s.created
    ensures s.conns[c].guard.value.slot.Some?
    ensures var g := s.conns[c].guard.value;
            Run(s, [Begin(c, t, false), Work(t, Regrant(grants)), Finish(t), Join(c, id)])
            == Some(Holding(s, c, g.slot.value.(grants := grants), g.lang))
  {
    BeginDoes(s, c, t, false);
    var g := s.conns[c].guard.value;
    var x := g.slot.value.(grants := grants);
    var begun, worked := Busy(s, c, t, g.slot.value, g.lang, false, Running), Busy(s, c, t, x, g.lang, false, Running);
    assert begun.tasks[t := begun.tasks[t].(session := Some(x))] == worked.tasks;
    WorkedRequest(s, c, t, false, Regrant(grants), id, s, x, g.lang);
  }

  /** A resource issued by a request is in the session's table after it, and counted as
      issued. */
  lemma IssuedStays(s: Server, c: ConnId, t: TaskId, r: Resource, id: SessionId)
    requires Reachable(s) && Enabled(s, Begin(c, t, false)) && id !in s.created && r !in s.issued
    ensures s.conns[c].guard.value.slot.Some?
    ensures var g := s.conns[c].guard.value;
            Run(s, [Begin(c, t, false), Work(t, Issue(r)), Finish(t), Join(c, id)])
            == Some(Holding(s.(issued := s.issued + {r}), c,
                            g.slot.value.(handles := g.slot.value.handles + {r}), g.lang))
  {
    BeginDoes(s, c, t, false);
    var g, base := s.conns[c].guard.value, s.(issued := s.issued + {r});
    var x := g.slot.value.(handles := g.slot.value.handles + {r});
    var begun := Busy(s, c, t, g.slot.value, g.lang, false, Running);
    var worked := Busy(base, c, t, x, g.lang, false, Running);
    assert begun.tasks[t := begun.tasks[t].(session := Some(x))] == worked.tasks;
    WorkedRequest(s, c, t, false, Issue(r), id, base, x, g.lang);
  }

  /** A resource removed by a request is released then and gone from the table. */
  lemma RemovedIsReleased(s: Server, c: ConnId, t: TaskId, r: Resource, id: SessionId)
    requires Reachable(s) && Enabled(s, Begin(c, t, false)) && id !in s.created
    requires s.conns[c].guard.value.slot.Some? && r in s.conns[c].guard.value.slot.value.handles
    ensures var g := s.conns[c].guard.value;
            Run(s, [Begin(c, t, false), Work(t, Remove(r)), Finish(t), Join(c, id)])
            == Some(Holding(s.(released := s.released + multiset{r}), c,
                            g.slot.value.(handles := g.slot.value.handles - {r}), g.lang))
  {
    BeginDoes(s, c, t, false);
    var g, base := s.conns[c].guard.value, s.(released := s.released + multiset{r});
    var x := g.slot.value.(handles := g.slot.value.handles - {r});
    var begun := Busy(s, c, t, g.slot.value, g.lang, false, Running);
    var worked := Busy(base, c, t, x, g.lang, false, Running);
    assert begun.tasks[t := begun.tasks[t].(session := Some(x))] == worked.tasks;
    WorkedRequest(s, c, t, false, Remove(r), id, base, x, g.lang);
  }
}
