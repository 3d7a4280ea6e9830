/**
 The life of connections, sessions and request tasks as a transition system.  A
 connection holds a permit and, once upgraded, a guard registered under the id of its
 first state.  Each request moves the state onto a blocking task; a timeout, a panic or
 an abort leaves the task alone with it.  Tasks, connections, failures and the registry
 interleave in any order.
 */
module Lifecycle {
  import opened Options
  import opened Auth

  type ConnId = nat
  type TaskId = nat
  type SessionId = nat
  type Resource = nat

  const MAX_CONNECTIONS: nat := 64

  datatype Language = EN | CN

  /** What one session owns: its grants and its native resources. */
  datatype Session = Session(id: SessionId, grants: Grants, handles: set<Resource>)

  /** A registered guard: the marker keeps the id it was registered under, `slot` is
      empty while a request has the state. */
  datatype Guard = Guard(marker: SessionId, slot: Option<Session>, lang: Language)

  /** Where a connection is.  Its locals are dropped one by one: the guard deregisters,
      its state goes, and the permit goes last. */
  datatype Stage = Upgrading | Ready | Awaiting(task: TaskId) | Leaving | Deregistered | Bare

  datatype Conn = Conn(stage: Stage, guard: Option<Guard>)

  datatype Status = Running | Finished | Panicked

  datatype Task = Task(conn: ConnId, session: Option<Session>, lang: Language,
                       exempt: bool, status: Status, abandoned: bool)

  datatype Server = Server(
    permits: nat,
    conns: map<ConnId, Conn>,
    tasks: map<TaskId, Task>,
    registry: map<SessionId, ConnId>,   // id to the connection whose marker it watches
    created: set<SessionId>,
    gone: multiset<SessionId>,          // states dropped so far
    issued: set<Resource>,
    released: multiset<Resource>,       // resources dropped so far
    crashed: bool)                      // some `take_state` found the slot empty

  datatype Effect = Issue(r: Resource) | Remove(r: Resource) | Regrant(grants: Grants) | SetLanguage(lang: Language)

  datatype Action =
    | Accept(c: ConnId)
    | Upgrade(c: ConnId, id: SessionId)
    | UpgradeFails(c: ConnId)
    | Begin(c: ConnId, t: TaskId, exempt: bool)
    | Work(t: TaskId, effect: Effect)
    | Finish(t: TaskId)
    | Panic(t: TaskId)
    | Join(c: ConnId, id: SessionId)       // the id a fresh state gets, if one is needed
    | TimeOut(c: ConnId, id: SessionId)
    | Leave(c: ConnId)
    | Abort(c: ConnId)
    | Deregister(c: ConnId)
    | ReleaseState(c: ConnId)
    | ReleasePermit(c: ConnId)
    | Prune

  const INITIAL: Server := Server(MAX_CONNECTIONS, map[], map[], map[], {}, multiset{}, {}, multiset{}, false)

  function FreshSession(id: SessionId): Session { Session(id, map[], {}) }

  predicate At(s: Server, c: ConnId, stage: Stage) { c in s.conns && s.conns[c].stage == stage }

  predicate Guarded(s: Server, c: ConnId) { c in s.conns && s.conns[c].guard.Some? }

  /** The guard of `c` is held by its connection: its `Drop` has not begun. */
  predicate Alive(s: Server, c: ConnId) {
    Guarded(s, c) && (s.conns[c].stage.Ready? || s.conns[c].stage.Awaiting? || s.conns[c].stage.Leaving?)
  }

  /** `c` awaits a task that is still known to the runtime. */
  predicate Waits(s: Server, c: ConnId) {
    Guarded(s, c) && s.conns[c].stage.Awaiting? && s.conns[c].stage.task in s.tasks
  }

  // ---------------------------------------------------------------------------
  // Pieces of steps
  // ---------------------------------------------------------------------------

  /** Dropping a state drops its handle table, hence every guard in it. */
  function Drop(s: Server, x: Option<Session>): Server {
    if x.None? then s
    else s.(gone := s.gone + multiset{x.value.id}, released := s.released + multiset(x.value.handles))
  }

  function WithConn(s: Server, c: ConnId, conn: Conn): Server { s.(conns := s.conns[c := conn]) }

  /** `put_state`: the slot is overwritten, so anything in it would be dropped. */
  function Put(s: Server, c: ConnId, x: Session, lang: Language): Server
    requires Guarded(s, c)
  {
    var g := s.conns[c].guard.value;
    WithConn(Drop(s, g.slot), c, Conn(Ready, Some(g.(slot := Some(x), lang := lang))))
  }

  function PutFresh(s: Server, c: ConnId, id: SessionId): Server
    requires Guarded(s, c)
  {
    Put(s.(created := s.created + {id}), c, FreshSession(id), EN)
  }

  /** The task ends for good; a state it still has is dropped on its thread. */
  function EndTask(s: Server, t: TaskId): Server
    requires t in s.tasks
  {
    Drop(s, s.tasks[t].session).(tasks := s.tasks - {t})
  }

  /** Nobody waits any more: a running task goes on alone, a result is dropped. */
  function Detach(s: Server, t: TaskId): Server
    requires t in s.tasks
  {
    if s.tasks[t].status == Running then s.(tasks := s.tasks[t := s.tasks[t].(abandoned := true)])
    else EndTask(s, t)
  }

  function Worked(s: Server, t: TaskId, effect: Effect): Server
    requires t in s.tasks && s.tasks[t].session.Some?
  {
    var task, x := s.tasks[t], s.tasks[t].session.value;
    match effect
    case Issue(r) =>
      s.(tasks := s.tasks[t := task.(session := Some(x.(handles := x.handles + {r})))], issued := s.issued + {r})
    case Remove(r) =>
      s.(tasks := s.tasks[t := task.(session := Some(x.(handles := x.handles - {r})))],
         released := s.released + multiset{r})
    case Regrant(grants) => s.(tasks := s.tasks[t := task.(session := Some(x.(grants := grants)))])
    case SetLanguage(lang) => s.(tasks := s.tasks[t := task.(lang := lang)])
  }

  // ---------------------------------------------------------------------------
  // Steps
  // ---------------------------------------------------------------------------

  /** Session ids and resources are new when they are made; a task only removes what
      its own table has. */
  predicate Enabled(s: Server, a: Action) {
    match a
    case Accept(c) => c !in s.conns
    case Upgrade(c, id) => At(s, c, Upgrading) && id !in s.created
    case UpgradeFails(c) => At(s, c, Upgrading)
    case Begin(c, t, _) => At(s, c, Ready) && Guarded(s, c) && t !in s.tasks
    case Work(t, effect) =>
      && t in s.tasks && s.tasks[t].status == Running && s.tasks[t].session.Some?
      && (effect.Issue? ==> effect.r !in s.issued)
      && (effect.Remove? ==> effect.r in s.tasks[t].session.value.handles)
    case Finish(t) => t in s.tasks && s.tasks[t].status == Running
    case Panic(t) => t in s.tasks && s.tasks[t].status == Running
    case Join(c, id) =>
      Waits(s, c) && s.tasks[s.conns[c].stage.task].status != Running && id !in s.created
    case TimeOut(c, id) =>
      Waits(s, c) && !s.tasks[s.conns[c].stage.task].exempt && id !in s.created
    case Leave(c) => At(s, c, Ready)
    case Abort(c) => At(s, c, Upgrading) || At(s, c, Ready) || Waits(s, c)
    case Deregister(c) => At(s, c, Leaving) && Guarded(s, c)
    case ReleaseState(c) => At(s, c, Deregistered) && Guarded(s, c)
    case ReleasePermit(c) => At(s, c, Bare)
    case Prune => true
  }

  function Apply(s: Server, a: Action): Server
    requires Enabled(s, a)
  {
    match a
    case Accept(c) =>
      if s.permits == 0 then s
      else WithConn(s, c, Conn(Upgrading, None)).(permits := s.permits - 1)
    case Upgrade(c, id) =>
      WithConn(s, c, Conn(Ready, Some(Guard(id, Some(FreshSession(id)), EN))))
      .(created := s.created + {id}, registry := s.registry[id := c])
    case UpgradeFails(c) => WithConn(s, c, Conn(Bare, None))
    case Begin(c, t, exempt) =>
      var g := s.conns[c].guard.value;
      if g.slot.None? then s.(crashed := true)
      else WithConn(s, c, Conn(Awaiting(t), Some(g.(slot := None, lang := EN))))
           .(tasks := s.tasks[t := Task(c, g.slot, g.lang, exempt, Running, false)])
    case Work(t, effect) => Worked(s, t, effect)
    case Finish(t) =>
      if s.tasks[t].abandoned then EndTask(s, t)
      else s.(tasks := s.tasks[t := s.tasks[t].(status := Finished)])
    case Panic(t) =>
      if s.tasks[t].abandoned then EndTask(s, t)
      else
        var dropped := Drop(s, s.tasks[t].session);
        dropped.(tasks := s.tasks[t := s.tasks[t].(status := Panicked, session := None)])
    case Join(c, id) =>
      var t := s.conns[c].stage.task;
      var task, ended := s.tasks[t], s.(tasks := s.tasks - {t});
      if task.session.Some? then Put(ended, c, task.session.value, task.lang) else PutFresh(ended, c, id)
    case TimeOut(c, id) => PutFresh(Detach(s, s.conns[c].stage.task), c, id)
    case Leave(c) => WithConn(s, c, s.conns[c].(stage := Leaving))
    case Abort(c) =>
      if At(s, c, Upgrading) then WithConn(s, c, Conn(Bare, None))
      else
        var alone := if s.conns[c].stage.Awaiting? then Detach(s, s.conns[c].stage.task) else s;
        WithConn(alone, c, s.conns[c].(stage := Leaving))
    case Deregister(c) =>
      WithConn(s, c, s.conns[c].(stage := Deregistered))
      .(registry := s.registry - {s.conns[c].guard.value.marker})
    case ReleaseState(c) => WithConn(Drop(s, s.conns[c].guard.value.slot), c, Conn(Bare, None))
    case ReleasePermit(c) => s.(conns := s.conns - {c}, permits := s.permits + 1)
    case Prune => s.(registry := Pruned(s))
  }

  /** `session_count` keeps the entries whose marker is still alive. */
  function Pruned(s: Server): map<SessionId, ConnId> {
    map id | id in s.registry && Guarded(s, s.registry[id]) && s.conns[s.registry[id]].guard.value.marker == id
      :: s.registry[id]
  }

  function Run(s: Server, actions: seq<Action>): (r: Option<Server>)
    decreases |actions|
  {
    if actions == [] then Some(s)
    else
      var before := Run(s, actions[..|actions| - 1]);
      var a := actions[|actions| - 1];
      if before.Some? && Enabled(before.value, a) then Some(Apply(before.value, a)) else None
  }

  ghost predicate Reachable(s: Server) {
    exists actions: seq<Action> :: Run(INITIAL, actions) == Some(s)
  }
}
