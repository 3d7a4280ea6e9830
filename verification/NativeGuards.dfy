/**
 Native device, application, container and digest guards: `Arc` counts, `Drop`
 bodies, the per-provider gate, and the wait/cancel pair, as one transition system.

 Every method of a guard and every `Drop` body is a short script of instructions
 run by a thread, and the scripts of different threads interleave one instruction
 at a time.  Guards may be dropped in any order, by any thread, and every vendor
 call may fail.
 */
module NativeGuards {
  import opened Options
  import opened Resources

  type Id = nat    // one native guard allocation
  type Tid = nat   // one thread of the blocking pool

  /** `Live` while the strong count is positive; `Doomed` once it reached zero and
      the `Drop` body has not run; `Released` once it ran and the guard's own `Arc`
      to its parent is still held; `Gone` after that field was dropped as well. */
  datatype Phase = Live | Doomed(thread: Tid) | Released(thread: Tid) | Gone

  /** `raw` is the vendor's handle, 0 when the vendor answered success with a null
      handle.  `owner` is the thread holding the boxed guard, if it still exists. */
  datatype Guard = Guard(kind: Kind, parent: Option<Id>, raw: nat,
                         strong: nat, owner: Option<Tid>, phase: Phase)

  datatype Instr =
    | Lock | Unlock
    | Connect                        // connect_dev
    | OpenChild(of: Id, kind: Kind)  // open_application, open/create_container, digest_init
    | Call(on: Id)                   // any other call on an open handle
    | Query                          // enum_dev, get_dev_state
    | Close(id: Id)                  // the body of Drop
    | DropFields(id: Id)             // the compiler's drop of the fields after it
    | Wait | Cancel                  // the two calls that bypass the gate

  /** What the vendor library sees. */
  datatype Event =
    | Opened(id: Id, parent: Option<Id>, raw: nat)
    | Used(id: Id)
    | Closed(id: Id, native: bool)   // native: the close function was really called

  datatype State = State(
    guards: map<Id, Guard>,
    next: Id,
    scripts: map<Tid, seq<Instr>>,
    gate: Option<Tid>,
    signalled: bool,                 // an event or a cancel is waiting for a parked wait
    trace: seq<Event>)

  datatype Action =
    | BeginConnect(t: Tid)
    | BeginOpen(t: Tid, of: Id, kind: Kind)
    | BeginCall(t: Tid, on: Id)
    | BeginQuery(t: Tid)
    | BeginWait(t: Tid)
    | BeginCancel(t: Tid)
    | BeginDrop(t: Tid, id: Id)
    | Move(t: Tid, id: Id, to: Tid)       // the box travels with its session state
    | Step(t: Tid, answer: Option<nat>)   // run one instruction; the vendor's answer
    | DeviceEvent

  // ---------------------------------------------------------------------------
  // Steps
  // ---------------------------------------------------------------------------

  const INITIAL: State := State(map[], 0, map[], None, false, [])

  function Script(s: State, t: Tid): seq<Instr> {
    if t in s.scripts then s.scripts[t] else []
  }

  predicate Nests(child: Kind, parent: Kind) {
    || (child == Application && parent == Device)
    || (child == Digest && parent == Device)
    || (child == Container && parent == Application)
  }

  function Gated(call: Instr): seq<Instr> { [Lock, call, Unlock] }

  /** `Drop` takes the gate, closes the handle, lets the gate go, and only then are
      the fields of the guard dropped. */
  function DropBody(id: Id): seq<Instr> { [Lock, Close(id), Unlock, DropFields(id)] }

  predicate Owns(s: State, t: Tid, id: Id) {
    id in s.guards && s.guards[id].owner == Some(t)
  }

  predicate Enabled(s: State, a: Action) {
    match a
    case BeginConnect(t) => Script(s, t) == []
    case BeginOpen(t, of, kind) => Script(s, t) == [] && Owns(s, t, of) && Nests(kind, s.guards[of].kind)
    case BeginCall(t, on) => Script(s, t) == [] && Owns(s, t, on)
    case BeginQuery(t) => Script(s, t) == []
    case BeginWait(t) => Script(s, t) == []
    case BeginCancel(t) => Script(s, t) == []
    case BeginDrop(t, id) => Script(s, t) == [] && Owns(s, t, id) && s.guards[id].strong > 0
    case Move(t, id, to) => Script(s, t) == [] && Owns(s, t, id)
    case Step(t, _) =>
      && Script(s, t) != []
      && (Script(s, t)[0] == Lock ==> s.gate == None)
      && (Script(s, t)[0] == Wait ==> s.signalled)
      && (Script(s, t)[0].OpenChild? ==> Script(s, t)[0].of in s.guards)
      && (Script(s, t)[0].Close? ==> Script(s, t)[0].id in s.guards)
      && (Script(s, t)[0].DropFields? ==>
            && Script(s, t)[0].id in s.guards
            && var p := s.guards[Script(s, t)[0].id].parent;
               p.Some? ==> p.value in s.guards && s.guards[p.value].strong > 0)
    case DeviceEvent => true
  }

  function Start(s: State, t: Tid, script: seq<Instr>): State {
    s.(scripts := s.scripts[t := script])
  }

  /** Drop one strong reference to `id` on thread `t`; the last one runs `Drop`. */
  function Decrement(s: State, t: Tid, id: Id): State
    requires id in s.guards && s.guards[id].strong > 0
  {
    var g := s.guards[id];
    if g.strong > 1 then
      s.(guards := s.guards[id := g.(strong := g.strong - 1)])
    else
      Start(s, t, DropBody(id)).(guards := s.guards[id := g.(strong := 0, phase := Doomed(t))])
  }

  function Allocate(s: State, t: Tid, kind: Kind, parent: Option<Id>, raw: nat): State {
    s.(guards := s.guards[s.next := Guard(kind, parent, raw, 1, Some(t), Live)],
       next := s.next + 1,
       trace := s.trace + [Opened(s.next, parent, raw)])
  }

  function Perform(s: State, t: Tid, instr: Instr, answer: Option<nat>): State
    requires instr.OpenChild? ==> instr.of in s.guards
    requires instr.Close? ==> instr.id in s.guards
    requires instr.DropFields? ==>
               && instr.id in s.guards
               && var p := s.guards[instr.id].parent;
                  p.Some? ==> p.value in s.guards && s.guards[p.value].strong > 0
  {
    match instr
    case Lock => s.(gate := Some(t))
    case Unlock => s.(gate := None)
    case Query => s
    case Wait => s.(signalled := false)
    case Cancel => s.(signalled := true)
    case Call(on) => s.(trace := s.trace + [Used(on)])
    case Connect =>
      if answer.None? then s else Allocate(s, t, Device, None, answer.value)
    case OpenChild(of, kind) =>
      var used := s.(trace := s.trace + [Used(of)]);
      if answer.None? then used else
      var g := s.guards[of];
      Allocate(used.(guards := s.guards[of := g.(strong := g.strong + 1)]), t, kind, Some(of), answer.value)
    case Close(id) =>
      var g := s.guards[id];
      s.(guards := s.guards[id := g.(phase := Released(t))],
         trace := s.trace + [Closed(id, g.raw != 0)])
    case DropFields(id) =>
      var g := s.guards[id];
      var freed := s.(guards := s.guards[id := g.(phase := Gone)]);
      if g.parent.None? then freed else Decrement(freed, t, g.parent.value)
  }

  function Apply(s: State, a: Action): State
    requires Enabled(s, a)
  {
    match a
    case BeginConnect(t) => Start(s, t, Gated(Connect))
    case BeginOpen(t, of, kind) => Start(s, t, Gated(OpenChild(of, kind)))
    case BeginCall(t, on) => Start(s, t, Gated(Call(on)))
    case BeginQuery(t) => Start(s, t, Gated(Query))
    case BeginWait(t) => Start(s, t, [Wait])
    case BeginCancel(t) => Start(s, t, [Cancel])
    case BeginDrop(t, id) => Decrement(s.(guards := s.guards[id := s.guards[id].(owner := None)]), t, id)
    case Move(t, id, to) => s.(guards := s.guards[id := s.guards[id].(owner := Some(to))])
    case Step(t, answer) =>
      var script := Script(s, t);
      Perform(Start(s, t, script[1..]), t, script[0], answer)
    case DeviceEvent => s.(signalled := true)
  }

  /** The state after a run, `None` when some action was not enabled. */
  function Run(s: State, actions: seq<Action>): (r: Option<State>)
    decreases |actions|
  {
    if actions == [] then Some(s)
    else
      var before := Run(s, actions[..|actions| - 1]);
      var a := actions[|actions| - 1];
      if before.Some? && Enabled(before.value, a) then Some(Apply(before.value, a)) else None
  }

  ghost predicate Reachable(s: State) {
    exists actions: seq<Action> :: Run(INITIAL, actions) == Some(s)
  }
}
