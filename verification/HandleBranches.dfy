/**
 The request branches that work on a session's handles: `ConnectDev`, `DisConnectDev`
 and the digest family.  What a client may still use is told from the transcript of
 requests and replies alone.
 */
module HandleBranches {
  import opened Resources
  import opened Text
  import opened Handles

  /** The provider's answers travel with the request.  Of a `DigestInit` for another
      provider than the default one only the refusal is modelled. */
  datatype Command =
    | ConnectDev(ok: bool)
    | DisConnectDev(handle: Text)
    | DigestInit(isDefault: bool, connected: bool, begun: bool)
    | DigestUpdate(handle: Text, ok: bool)
    | DigestFinal(handle: Text, ok: bool)
    | CloseHash(handle: Text)

  datatype Reply = NewHandle(handle: Text) | Success | Failure | InvalidHandle

  datatype Exchange = Exchange(command: Command, reply: Reply)

  // ---------------------------------------------------------------------------
  // The rule, over the transcript
  // ---------------------------------------------------------------------------

  /** The device entry a `DigestInit` that replied `handle` leaves behind: the next
      number, never sent to the client. */
  ghost predicate Companion(handle: Text, device: Text) {
    exists n: nat :: IsCompanion(n, handle, device)
  }

  predicate IsCompanion(n: nat, handle: Text, device: Text) {
    handle == Mint(Digest, n) && device == Mint(Device, n + 1)
  }

  predicate GivesDigest(e: Exchange, h: Text) { e.command.DigestInit? && e.reply == NewHandle(h) }

  ghost predicate GivesDevice(e: Exchange, h: Text) {
    || (e.command.ConnectDev? && e.reply == NewHandle(h))
    || (e.command.DigestInit? && e.reply.NewHandle? && Companion(e.reply.handle, h))
  }

  predicate EndsDigest(e: Exchange, h: Text) {
    (e.command.DigestFinal? || e.command.CloseHash?) && e.command.handle == h
  }

  predicate EndsDevice(e: Exchange, h: Text) { e.command == DisConnectDev(h) }

  /** Exchange `i` gave the digest, and none since ended it. */
  ghost predicate DigestFrom(log: seq<Exchange>, i: int, h: Text) {
    0 <= i < |log| && GivesDigest(log[i], h) && forall j :: i < j < |log| ==> !EndsDigest(log[j], h)
  }

  ghost predicate DeviceFrom(log: seq<Exchange>, i: int, h: Text) {
    0 <= i < |log| && GivesDevice(log[i], h) && forall j :: i < j < |log| ==> !EndsDevice(log[j], h)
  }

  ghost predicate DigestLive(log: seq<Exchange>, h: Text) { exists i :: DigestFrom(log, i, h) }
  ghost predicate DeviceLive(log: seq<Exchange>, h: Text) { exists i :: DeviceFrom(log, i, h) }

  /** How many handles an exchange uses up: a `DigestInit` takes a second one for the
      device it stores. */
  function Mints(e: Exchange): nat {
    if !e.reply.NewHandle? then 0 else if e.command.DigestInit? then 2 else 1
  }

  function Minted(log: seq<Exchange>): nat {
    if log == [] then 0 else Minted(log[..|log| - 1]) + Mints(log[|log| - 1])
  }

  /** What the next reply is: a new handle carries the next number of the session, and a
      handle is accepted exactly while it is live. */
  ghost predicate ReplyOk(before: seq<Exchange>, e: Exchange) {
    match e.command
    case ConnectDev(ok) => e.reply == if ok then NewHandle(Mint(Device, Minted(before) + 1)) else Failure
    case DisConnectDev(h) => e.reply == if DeviceLive(before, h) then Success else InvalidHandle
    case DigestInit(isDefault, connected, begun) =>
      e.reply == if isDefault && connected && begun then NewHandle(Mint(Digest, Minted(before) + 1)) else Failure
    case DigestUpdate(h, ok) =>
      e.reply == if !DigestLive(before, h) then InvalidHandle else if ok then Success else Failure
    case DigestFinal(h, ok) =>
      e.reply == if !DigestLive(before, h) then InvalidHandle else if ok then Success else Failure
    case CloseHash(h) => e.reply == if DigestLive(before, h) then Success else InvalidHandle
  }

  /** A `DigestInit` adds two entries and the end of its digest takes back one. */
  function Change(e: Exchange): int {
    match e.command
    case ConnectDev(_) => if e.reply.NewHandle? then 1 else 0
    case DigestInit(_, _, _) => if e.reply.NewHandle? then 2 else 0
    case DigestUpdate(_, _) => 0
    case DigestFinal(_, _) => if e.reply == InvalidHandle then 0 else -1
    case _ => if e.reply == Success then -1 else 0
  }

  function Balance(log: seq<Exchange>): int {
    if log == [] then 0 else Balance(log[..|log| - 1]) + Change(log[|log| - 1])
  }

  lemma DigestLiveAppend(log: seq<Exchange>, e: Exchange, h: Text)
    ensures DigestLive(log + [e], h) <==> GivesDigest(e, h) || (DigestLive(log, h) && !EndsDigest(e, h))
  {
    var after := log + [e];
    forall i ensures DigestFrom(after, i, h) <==>
        (i == |log| && GivesDigest(e, h)) || (DigestFrom(log, i, h) && !EndsDigest(e, h)) {
      if DigestFrom(log, i, h) && !EndsDigest(e, h) {
        assert forall j :: i < j < |after| ==> !EndsDigest(after[j], h);
      }
      if DigestFrom(after, i, h) && i < |log| {
        assert after[|log|] == e;
        assert forall j :: i < j < |log| ==> after[j] == log[j];
      }
    }
    if GivesDigest(e, h) { assert DigestFrom(after, |log|, h); }
    if DigestLive(log, h) && !EndsDigest(e, h) {
      var i :| DigestFrom(log, i, h);
      assert DigestFrom(after, i, h);
    }
  }

  lemma DeviceLiveAppend(log: seq<Exchange>, e: Exchange, h: Text)
    ensures DeviceLive(log + [e], h) <==> GivesDevice(e, h) || (DeviceLive(log, h) && !EndsDevice(e, h))
  {
    var after := log + [e];
    forall i ensures DeviceFrom(after, i, h) <==>
        (i == |log| && GivesDevice(e, h)) || (DeviceFrom(log, i, h) && !EndsDevice(e, h)) {
      if DeviceFrom(log, i, h) && !EndsDevice(e, h) {
        assert forall j :: i < j < |after| ==> !EndsDevice(after[j], h);
      }
      if DeviceFrom(after, i, h) && i < |log| {
        assert after[|log|] == e;
        assert forall j :: i < j < |log| ==> after[j] == log[j];
      }
    }
    if GivesDevice(e, h) { assert DeviceFrom(after, |log|, h); }
    if DeviceLive(log, h) && !EndsDevice(e, h) {
      var i :| DeviceFrom(log, i, h);
      assert DeviceFrom(after, i, h);
    }
  }

  // ---------------------------------------------------------------------------
  // The branches
  // ---------------------------------------------------------------------------

  predicate HeldAs(ledger: seq<Entry>, kind: Kind, h: Text) { h in Held(ledger) && Held(ledger)[h].0 == kind }

  /** The table holds what the transcript says a client was given and has not ended. */
  ghost predicate Agrees(ledger: seq<Entry>, log: seq<Exchange>) {
    && (forall h :: HeldAs(ledger, Digest, h) <==> DigestLive(log, h))
    && (forall h :: HeldAs(ledger, Device, h) <==> DeviceLive(log, h))
    && |Held(ledger)| == Balance(log) && CountIssued(ledger) == Minted(log)
  }

  lemma HeldAfterIssue(ledger: seq<Entry>, e: Entry)
    requires Lawful(ledger) && EntryOk(ledger, e) && e.Issued?
    ensures Lawful(ledger + [e]) && |Held(ledger + [e])| == |Held(ledger)| + 1
    ensures forall k, h :: HeldAs(ledger + [e], k, h) <==> HeldAs(ledger, k, h) || (k == e.kind && h == e.handle)
  {
    LawfulAppend(ledger, e);
    HeldMeaning(ledger);
    FreshHandle(ledger, e.kind);
    NotedFresh(ledger, e);
  }

  lemma NotedFresh(ledger: seq<Entry>, e: Entry)
    requires e.Issued? && e.handle !in Held(ledger)
    ensures |Held(ledger + [e])| == |Held(ledger)| + 1
    ensures forall k, h :: HeldAs(ledger + [e], k, h) <==> HeldAs(ledger, k, h) || (k == e.kind && h == e.handle)
  {
    HeldAppend(ledger, e);
    NotedSize(Held(ledger), e);
  }

  lemma HeldAfterRemoval(ledger: seq<Entry>, h: Text)
    requires h in Held(ledger)
    ensures |Held(ledger + [Removed(h)])| == |Held(ledger)| - 1
    ensures forall k, x :: HeldAs(ledger + [Removed(h)], k, x) <==> HeldAs(ledger, k, x) && x != h
  {
    HeldAppend(ledger, Removed(h));
    NotedSize(Held(ledger), Removed(h));
  }

  lemma BalanceAppend(log: seq<Exchange>, e: Exchange)
    ensures Balance(log + [e]) == Balance(log) + Change(e) && Minted(log + [e]) == Minted(log) + Mints(e)
  {
    assert (log + [e])[..|log|] == log;
  }

  /** Live handles after one exchange, for all handles at once. */
  lemma LiveAppend(log: seq<Exchange>, e: Exchange)
    ensures Balance(log + [e]) == Balance(log) + Change(e) && Minted(log + [e]) == Minted(log) + Mints(e)
    ensures forall h :: DigestLive(log + [e], h) <==> GivesDigest(e, h) || (DigestLive(log, h) && !EndsDigest(e, h))
    ensures forall h :: DeviceLive(log + [e], h) <==> GivesDevice(e, h) || (DeviceLive(log, h) && !EndsDevice(e, h))
  {
    BalanceAppend(log, e);
    forall h ensures DigestLive(log + [e], h) <==> GivesDigest(e, h) || (DigestLive(log, h) && !EndsDigest(e, h)) {
      DigestLiveAppend(log, e, h);
    }
    forall h ensures DeviceLive(log + [e], h) <==> GivesDevice(e, h) || (DeviceLive(log, h) && !EndsDevice(e, h)) {
      DeviceLiveAppend(log, e, h);
    }
  }

  lemma AgreesConnect(ledger: seq<Entry>, log: seq<Exchange>, entry: Entry, e: Exchange)
    requires Lawful(ledger) && Agrees(ledger, log) && EntryOk(ledger, entry) && entry.Issued? && entry.kind == Device
    requires e.command.ConnectDev? && e.reply == NewHandle(entry.handle)
    ensures Agrees(ledger + [entry], log + [e])
  {
    HeldAppend(ledger, entry);
    HeldAfterIssue(ledger, entry);
    LiveAppend(log, e);
  }

  lemma CompanionIsUnique(n: nat, device: Text)
    ensures Companion(Mint(Digest, n), device) <==> device == Mint(Device, n + 1)
  {
    if device == Mint(Device, n + 1) { assert IsCompanion(n, Mint(Digest, n), device); }
    if Companion(Mint(Digest, n), device) {
      var m: nat :| IsCompanion(m, Mint(Digest, n), device);
      MintInjective(Digest, n, Digest, m);
    }
  }

  lemma HeldAfterTwo(ledger: seq<Entry>, digest: Entry, device: Entry)
    requires Lawful(ledger) && EntryOk(ledger, digest) && EntryOk(ledger + [digest], device)
    requires digest.Issued? && device.Issued?
    ensures var after := ledger + [digest] + [device];
            && |Held(after)| == |Held(ledger)| + 2
            && device.handle == Mint(device.kind, CountIssued(ledger) + 2)
            && CountIssued(after) == CountIssued(ledger) + 2
            && forall k, h :: HeldAs(after, k, h) <==>
                 || HeldAs(ledger, k, h)
                 || (k == digest.kind && h == digest.handle)
                 || (k == device.kind && h == device.handle)
  {
    HeldAfterIssue(ledger, digest);
    HeldAppend(ledger, digest);
    HeldAfterIssue(ledger + [digest], device);
    HeldAppend(ledger + [digest], device);
  }

  lemma DigestGives(n: nat, e: Exchange)
    requires e.command.DigestInit? && e.reply == NewHandle(Mint(Digest, n))
    ensures forall h :: GivesDevice(e, h) <==> h == Mint(Device, n + 1)
    ensures forall h :: GivesDigest(e, h) <==> h == Mint(Digest, n)
  {
    forall h ensures GivesDevice(e, h) <==> h == Mint(Device, n + 1) {
      CompanionIsUnique(n, h);
    }
  }

  lemma AgreesDigest(ledger: seq<Entry>, log: seq<Exchange>, digest: Entry, device: Entry, e: Exchange)
    requires Lawful(ledger) && Agrees(ledger, log)
    requires digest.Issued? && digest.kind == Digest && digest.handle == Mint(Digest, CountIssued(ledger) + 1)
    requires device.Issued? && device.kind == Device
    requires device.handle == Mint(Device, CountIssued(ledger + [digest]) + 1)
    requires e.command.DigestInit? && e.reply == NewHandle(digest.handle)
    ensures Agrees(ledger + [digest] + [device], log + [e])
  {
    var after := ledger + [digest] + [device];
    HeldAfterTwo(ledger, digest, device);
    DigestGives(CountIssued(ledger) + 1, e);
    forall h ensures HeldAs(after, Digest, h) <==> DigestLive(log + [e], h) { DigestLiveAppend(log, e, h); }
    forall h ensures HeldAs(after, Device, h) <==> DeviceLive(log + [e], h) { DeviceLiveAppend(log, e, h); }
    BalanceAppend(log, e);
  }

  lemma AgreesEnded(ledger: seq<Entry>, log: seq<Exchange>, kind: Kind, h: Text, e: Exchange)
    requires Lawful(ledger) && Agrees(ledger, log) && HeldAs(ledger, kind, h)
    requires (kind == Device || kind == Digest) && !e.reply.NewHandle?
    requires kind == Device ==> e == Exchange(DisConnectDev(h), Success)
    requires kind == Digest ==>
               EndsDigest(e, h) && e.reply != InvalidHandle && (e.command.CloseHash? ==> e.reply == Success)
    ensures Agrees(ledger + [Removed(h)], log + [e])
  {
    HeldAppend(ledger, Removed(h));
    HeldAfterRemoval(ledger, h);
    LiveAppend(log, e);
  }

  /** An exchange that neither gives nor takes. */
  lemma AgreesSame(ledger: seq<Entry>, log: seq<Exchange>, e: Exchange)
    requires Agrees(ledger, log)
    requires !e.reply.NewHandle? && (e.command.ConnectDev? || e.command.DigestInit? ==> e.reply == Failure)
    requires e.command.DisConnectDev? ==> !DeviceLive(log, e.command.handle) && e.reply == InvalidHandle
    requires e.command.DigestFinal? || e.command.CloseHash? ==>
               !DigestLive(log, e.command.handle) && e.reply == InvalidHandle
    ensures Agrees(ledger, log + [e])
  {
    LiveAppend(log, e);
  }

  /** Every branch of the handle family, on one table. */
  method Serve(table: HandleTable, command: Command, device: Guard, digest: Guard, ghost log: seq<Exchange>)
    returns (reply: Reply)
    requires table.Valid() && Agrees(table.ledger, log)
    modifies table
    ensures table.Valid() && ReplyOk(log, Exchange(command, reply))
    ensures Agrees(table.ledger, log + [Exchange(command, reply)])
  {
    match command {
      case ConnectDev(ok) => reply := ServeConnect(table, ok, device, log);
      case DisConnectDev(handle) => reply := ServeRemoval(table, Device, handle, command, true, log);
      case DigestInit(isDefault, connected, begun) =>
        if isDefault && connected && begun {
          reply := ServeInit(table, command, device, digest, log);
        } else {
          reply := Failure;
          AgreesSame(table.ledger, log, Exchange(command, reply));
        }
      case DigestUpdate(handle, ok) =>
        FoundIsHeld(table.ledger, Digest, handle);
        var found := table.Borrow(Digest, handle);
        reply := if !found.Found? then InvalidHandle else if ok then Success else Failure;
        AgreesSame(table.ledger, log, Exchange(command, reply));
      case DigestFinal(handle, ok) => reply := ServeRemoval(table, Digest, handle, command, ok, log);
      case CloseHash(handle) => reply := ServeRemoval(table, Digest, handle, command, true, log);
    }
  }

  method ServeConnect(table: HandleTable, ok: bool, device: Guard, ghost log: seq<Exchange>) returns (reply: Reply)
    requires table.Valid() && Agrees(table.ledger, log)
    modifies table
    ensures table.Valid() && reply == if ok then NewHandle(Mint(Device, Minted(log) + 1)) else Failure
    ensures Agrees(table.ledger, log + [Exchange(ConnectDev(ok), reply)])
  {
    ghost var before := table.ledger;
    if !ok {
      AgreesSame(before, log, Exchange(ConnectDev(ok), Failure));
      return Failure;
    }
    var handle := table.Issue(Device, device);
    reply := NewHandle(handle);
    AgreesConnect(before, log, Issued(Device, handle, device), Exchange(ConnectDev(ok), reply));
  }

  /** The digest comes first; the device it needs is stored under a handle that is
      thrown away. */
  method ServeInit(table: HandleTable, command: Command, device: Guard, digest: Guard, ghost log: seq<Exchange>)
    returns (reply: Reply)
    requires table.Valid() && Agrees(table.ledger, log) && command.DigestInit?
    modifies table
    ensures table.Valid() && reply == NewHandle(Mint(Digest, Minted(log) + 1))
    ensures Agrees(table.ledger, log + [Exchange(command, reply)])
  {
    ghost var before := table.ledger;
    assert CountIssued(before) == Minted(log);
    var handle := table.Issue(Digest, digest);
    var dropped := table.Issue(Device, device);
    reply := NewHandle(handle);
    AgreesDigest(before, log, Issued(Digest, handle, digest), Issued(Device, dropped, device),
                 Exchange(command, reply));
  }

  /** Take a guard out of the table; it is dropped whether or not the last call on it
      succeeds. */
  method ServeRemoval(table: HandleTable, kind: Kind, handle: Text, command: Command, ok: bool,
                      ghost log: seq<Exchange>)
    returns (reply: Reply)
    requires table.Valid() && Agrees(table.ledger, log)
    requires || (kind == Device && ok && command == DisConnectDev(handle))
             || (kind == Digest && (command == DigestFinal(handle, ok) || (ok && command == CloseHash(handle))))
    modifies table
    ensures table.Valid()
    ensures var live := if kind == Device then DeviceLive(log, handle) else DigestLive(log, handle);
            reply == if !live then InvalidHandle else if ok then Success else Failure
    ensures Agrees(table.ledger, log + [Exchange(command, reply)])
  {
    ghost var before := table.ledger;
    FoundIsHeld(before, kind, handle);
    var found := table.Remove(kind, handle);
    if !found.Found? {
      AgreesSame(before, log, Exchange(command, InvalidHandle));
      return InvalidHandle;
    }
    reply := if ok then Success else Failure;
    AgreesEnded(before, log, kind, handle, Exchange(command, reply));
  }

  // ---------------------------------------------------------------------------
  // Whole sessions
  // ---------------------------------------------------------------------------

  /** Every reply is the one the transcript before it justifies. */
  ghost predicate Fair(log: seq<Exchange>) {
    log != [] ==> Fair(log[..|log| - 1]) && ReplyOk(log[..|log| - 1], log[|log| - 1])
  }

  /** The transcript of these commands. */
  ghost predicate Justified(commands: seq<Command>, log: seq<Exchange>) {
    && |log| <= |commands| && Fair(log)
    && forall k :: 0 <= k < |log| ==> log[k].command == commands[k]
  }

  lemma JustifiedAppend(commands: seq<Command>, log: seq<Exchange>, reply: Reply)
    requires Justified(commands, log) && |log| < |commands|
    requires ReplyOk(log, Exchange(commands[|log|], reply))
    ensures Justified(commands, log + [Exchange(commands[|log|], reply)])
  {
    assert (log + [Exchange(commands[|log|], reply)])[..|log|] == log;
  }

  /** A whole session: a digest handle works exactly from the reply that gave it to the
      request that ends it; a device handle likewise, except that each `DigestInit` also
      leaves a device under the next number, which stays until that number is
      disconnected.  The table's size is the balance of the transcript. */
  method RunSession(commands: seq<Command>) returns (log: seq<Exchange>, size: nat)
    ensures |log| == |commands| && Justified(commands, log) && size == Balance(log)
  {
    var table := new HandleTable();
    log := [];
    for i := 0 to |commands|
      invariant fresh(table) && table.Valid() && Agrees(table.ledger, log)
      invariant |log| == i && Justified(commands, log)
    {
      var reply := Serve(table, commands[i], 2 * i, 2 * i + 1, log);
      JustifiedAppend(commands, log, reply);
      log := log + [Exchange(commands[i], reply)];
    }
    HeldMeaning(table.ledger);
    size := table.Len();
  }
}
