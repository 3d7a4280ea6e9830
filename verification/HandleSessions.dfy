/** Whole handle sessions: no handle is told twice, and what a tidy client leaves in the
    table. */
module HandleSessions {
  import opened Resources
  import opened Text
  import opened Handles
  import opened HandleBranches

  lemma {:induction false} FairAt(log: seq<Exchange>, i: nat)
    requires Fair(log) && i < |log|
    ensures Fair(log[..i]) && ReplyOk(log[..i], log[i])
  {
    if i < |log| - 1 {
      var front := log[..|log| - 1];
      FairAt(front, i);
      assert front[..i] == log[..i];
    }
  }

  lemma {:induction false} MintedGrows(log: seq<Exchange>, i: nat, j: nat)
    requires i <= j <= |log|
    ensures Minted(log[..i]) <= Minted(log[..j])
    ensures i < j ==> Minted(log[..i]) + Mints(log[i]) <= Minted(log[..j])
    decreases j
  {
    if i < j {
      MintedGrows(log, i, j - 1);
      assert log[..j][..j - 1] == log[..j - 1];
    }
  }

  /** No handle is told twice in one session, not even after its end. */
  lemma NeverToldTwice(log: seq<Exchange>, i: nat, j: nat)
    requires Fair(log) && i < j < |log| && log[i].reply.NewHandle? && log[j].reply.NewHandle?
    ensures log[i].reply.handle != log[j].reply.handle
  {
    FairAt(log, i);
    FairAt(log, j);
    MintedGrows(log, i, j);
    var m, n := Minted(log[..i]) + 1, Minted(log[..j]) + 1;
    if log[i].reply.handle == log[j].reply.handle {
      MintInjective(if log[i].command.DigestInit? then Digest else Device, m,
                    if log[j].command.DigestInit? then Digest else Device, n);
    }
  }

  /** The numbers an exchange uses up. */
  lemma GiverNumber(log: seq<Exchange>, g: nat, h: Text, kind: Kind) returns (n: nat)
    requires Fair(log) && g < |log| && (kind == Device || kind == Digest)
    requires if kind == Device then GivesDevice(log[g], h) else GivesDigest(log[g], h)
    ensures h == Mint(kind, n) && Minted(log[..g]) < n <= Minted(log[..g + 1])
  {
    FairAt(log, g);
    assert log[..g + 1] == log[..g] + [log[g]];
    BalanceAppend(log[..g], log[g]);
    n := Minted(log[..g]) + 1;
    if kind == Device && log[g].command.DigestInit? {
      CompanionIsUnique(n, h);
      n := n + 1;
    }
  }

  /** A handle is given by one exchange only, told or not. */
  lemma GivenOnce(log: seq<Exchange>, i: nat, j: nat, h: Text, kind: Kind)
    requires Fair(log) && i < |log| && j < |log| && (kind == Device || kind == Digest)
    requires if kind == Device then GivesDevice(log[i], h) else GivesDigest(log[i], h)
    requires if kind == Device then GivesDevice(log[j], h) else GivesDigest(log[j], h)
    ensures i == j
  {
    var m := GiverNumber(log, i, h, kind);
    var n := GiverNumber(log, j, h, kind);
    MintInjective(kind, m, kind, n);
    if i < j { MintedGrows(log, i + 1, j); }
    if j < i { MintedGrows(log, j + 1, i); }
  }

  /** Once a digest was finished or closed, even if finishing it failed, its handle is
      refused for ever. */
  lemma EndedDigestIsRefused(log: seq<Exchange>, i: nat, j: nat, h: Text)
    requires Fair(log) && i < j < |log| && log[i].reply != InvalidHandle
    requires (log[i].command.DigestFinal? || log[i].command.CloseHash?) && log[i].command.handle == h
    requires log[j].command.DigestUpdate? || log[j].command.DigestFinal? || log[j].command.CloseHash?
    requires log[j].command.handle == h
    ensures log[j].reply == InvalidHandle
  {
    FairAt(log, i);
    FairAt(log, j);
    var g :| DigestFrom(log[..i], g, h);
    assert log[..i][g] == log[g];
    if DigestLive(log[..j], h) {
      var k :| DigestFrom(log[..j], k, h);
      assert log[..j][k] == log[k] && log[..j][i] == log[i];
      GivenOnce(log, g, k, h, Digest);
    }
  }

  /** Once a device was disconnected its handle is refused for ever. */
  lemma DisconnectedIsRefused(log: seq<Exchange>, i: nat, j: nat, h: Text)
    requires Fair(log) && i < j < |log| && log[i] == Exchange(DisConnectDev(h), Success)
    requires log[j].command == DisConnectDev(h)
    ensures log[j].reply == InvalidHandle
  {
    FairAt(log, i);
    FairAt(log, j);
    var g :| DeviceFrom(log[..i], g, h);
    assert log[..i][g] == log[g];
    if DeviceLive(log[..j], h) {
      var k :| DeviceFrom(log[..j], k, h);
      assert log[..j][k] == log[k] && log[..j][i] == log[i];
      GivenOnce(log, g, k, h, Device);
    }
  }

  // ---------------------------------------------------------------------------
  // What a tidy client leaves behind
  // ---------------------------------------------------------------------------

  predicate Starts(e: Exchange) { e.command.DigestInit? && e.reply.NewHandle? }

  function Inits(log: seq<Exchange>): nat {
    if log == [] then 0 else Inits(log[..|log| - 1]) + if Starts(log[|log| - 1]) then 1 else 0
  }

  /** The devices a client was told of, ever. */
  function Told(log: seq<Exchange>): set<Text> {
    if log == [] then {} else
    var e := log[|log| - 1];
    Told(log[..|log| - 1]) + if e.command.ConnectDev? && e.reply.NewHandle? then {e.reply.handle} else {}
  }

  /** Those it has not disconnected. */
  function Connected(log: seq<Exchange>): set<Text> {
    if log == [] then {} else
    var before, e := Connected(log[..|log| - 1]), log[|log| - 1];
    if e.command.ConnectDev? && e.reply.NewHandle? then before + {e.reply.handle}
    else if e.command.DisConnectDev? then before - {e.command.handle} else before
  }

  /** The digests it has not ended. */
  function Digesting(log: seq<Exchange>): set<Text> {
    if log == [] then {} else
    var before, e := Digesting(log[..|log| - 1]), log[|log| - 1];
    if Starts(e) then before + {e.reply.handle}
    else if e.command.DigestFinal? || e.command.CloseHash? then before - {e.command.handle} else before
  }

  /** The devices stored for digests, under handles nobody was told. */
  function Companions(log: seq<Exchange>): set<Text> {
    if log == [] then {} else
    var front := log[..|log| - 1];
    Companions(front) + if Starts(log[|log| - 1]) then {Mint(Device, Minted(front) + 2)} else {}
  }

  /** Only devices the client was told of are disconnected. */
  predicate OnlyTold(log: seq<Exchange>) {
    log != [] ==>
      && OnlyTold(log[..|log| - 1])
      && var c := log[|log| - 1].command;
         c.DisConnectDev? ==> c.handle in Told(log[..|log| - 1])
  }

  /** Every handle that was told was ended later. */
  ghost predicate AllEnded(log: seq<Exchange>) {
    forall i :: 0 <= i < |log| && log[i].reply.NewHandle? ==>
      && !DigestFrom(log, i, log[i].reply.handle)
      && (log[i].command.ConnectDev? ==> !DeviceFrom(log, i, log[i].reply.handle))
  }

  ghost predicate Numbered(h: Text, kind: Kind, n: nat) { exists m :: 1 <= m <= n && h == Mint(kind, m) }

  /** All handles of a kind carry numbers that were used up. */
  ghost predicate Below(handles: set<Text>, kind: Kind, n: nat) {
    forall h :: h in handles ==> Numbered(h, kind, n)
  }

  lemma NextIsNew(handles: set<Text>, kind: Kind, n: nat, m: nat)
    requires Below(handles, kind, n) && m > n
    ensures Mint(kind, m) !in handles
  {
    if Mint(kind, m) in handles {
      assert Numbered(Mint(kind, m), kind, n);
      var k :| 1 <= k <= n && Mint(kind, m) == Mint(kind, k);
      MintInjective(kind, m, kind, k);
    }
  }

  lemma BelowGrows(handles: set<Text>, kind: Kind, n: nat, m: nat)
    requires Below(handles, kind, n) && n <= m
    ensures Below(handles, kind, m)
  {
    forall h | h in handles ensures Numbered(h, kind, m) {
      assert Numbered(h, kind, n);
      var k :| 1 <= k <= n && h == Mint(kind, k);
    }
  }

  lemma BelowWith(handles: set<Text>, kind: Kind, n: nat, m: nat)
    requires Below(handles, kind, n) && 1 <= m && n <= m
    ensures Below(handles + {Mint(kind, m)}, kind, m)
  {
    BelowGrows(handles, kind, n, m);
    assert Numbered(Mint(kind, m), kind, m);
  }

  /** The sets hold exactly what is live. */
  ghost predicate Tracked(log: seq<Exchange>) {
    && (forall h :: DeviceLive(log, h) <==> h in Connected(log) || h in Companions(log))
    && (forall h :: DigestLive(log, h) <==> h in Digesting(log))
  }

  /** Told handles and companions are kept apart by their numbers. */
  ghost predicate Apart(log: seq<Exchange>) {
    && Connected(log) <= Told(log) && Told(log) !! Companions(log)
    && Below(Told(log), Device, Minted(log)) && Below(Companions(log), Device, Minted(log))
    && Below(Digesting(log), Digest, Minted(log))
  }

  /** The table's size, set by set. */
  predicate Weighed(log: seq<Exchange>) {
    && |Companions(log)| == Inits(log)
    && Balance(log) == |Connected(log)| + |Digesting(log)| + |Companions(log)|
  }

  ghost predicate Sorted(log: seq<Exchange>) { Tracked(log) && Apart(log) && Weighed(log) }

  /** What one exchange does to the sets. */
  lemma SetsAppend(log: seq<Exchange>, e: Exchange)
    ensures var after := log + [e];
            && Told(after) == Told(log) + (if e.command.ConnectDev? && e.reply.NewHandle? then {e.reply.handle} else {})
            && Connected(after) ==
                 (if e.command.ConnectDev? && e.reply.NewHandle? then Connected(log) + {e.reply.handle}
                  else if e.command.DisConnectDev? then Connected(log) - {e.command.handle}
                  else Connected(log))
            && Digesting(after) ==
                 (if Starts(e) then Digesting(log) + {e.reply.handle}
                  else if e.command.DigestFinal? || e.command.CloseHash? then Digesting(log) - {e.command.handle}
                  else Digesting(log))
            && Companions(after) == Companions(log) + (if Starts(e) then {Mint(Device, Minted(log) + 2)} else {})
            && Inits(after) == Inits(log) + if Starts(e) then 1 else 0
  {
    assert (log + [e])[..|log|] == log;
  }

  lemma ApartConnect(log: seq<Exchange>, e: Exchange)
    requires Apart(log) && ReplyOk(log, e) && e.command.ConnectDev? && e.reply.NewHandle?
    ensures Apart(log + [e]) && e.reply.handle !in Told(log) && e.reply.handle !in Companions(log)
  {
    var n := Minted(log);
    SetsAppend(log, e);
    BalanceAppend(log, e);
    NextIsNew(Told(log), Device, n, n + 1);
    NextIsNew(Companions(log), Device, n, n + 1);
    BelowWith(Told(log), Device, n, n + 1);
    BelowGrows(Companions(log), Device, n, n + 1);
    BelowGrows(Digesting(log), Digest, n, n + 1);
  }

  lemma SortedConnect(log: seq<Exchange>, e: Exchange)
    requires Sorted(log) && ReplyOk(log, e) && e.command.ConnectDev? && e.reply.NewHandle?
    ensures Sorted(log + [e])
  {
    ApartConnect(log, e);
    SetsAppend(log, e);
    LiveAppend(log, e);
  }

  lemma ApartInit(log: seq<Exchange>, e: Exchange)
    requires Apart(log) && ReplyOk(log, e) && Starts(e)
    ensures Apart(log + [e]) && e.reply == NewHandle(Mint(Digest, Minted(log) + 1))
    ensures e.reply.handle !in Digesting(log) && Mint(Device, Minted(log) + 2) !in Companions(log)
  {
    var n := Minted(log);
    SetsAppend(log, e);
    BalanceAppend(log, e);
    NextIsNew(Digesting(log), Digest, n, n + 1);
    NextIsNew(Told(log), Device, n, n + 2);
    NextIsNew(Companions(log), Device, n, n + 2);
    BelowGrows(Told(log), Device, n, n + 2);
    BelowWith(Companions(log), Device, n, n + 2);
    BelowWith(Digesting(log), Digest, n, n + 1);
    BelowGrows(Digesting(log) + {Mint(Digest, n + 1)}, Digest, n + 1, n + 2);
  }

  lemma TrackedInit(log: seq<Exchange>, e: Exchange)
    requires Tracked(log) && Starts(e) && e.reply == NewHandle(Mint(Digest, Minted(log) + 1))
    ensures Tracked(log + [e])
  {
    SetsAppend(log, e);
    DigestGives(Minted(log) + 1, e);
    forall h ensures DeviceLive(log + [e], h) <==> h in Connected(log + [e]) || h in Companions(log + [e]) {
      DeviceLiveAppend(log, e, h);
    }
    forall h ensures DigestLive(log + [e], h) <==> h in Digesting(log + [e]) {
      DigestLiveAppend(log, e, h);
    }
  }

  lemma SortedInit(log: seq<Exchange>, e: Exchange)
    requires Sorted(log) && ReplyOk(log, e) && Starts(e)
    ensures Sorted(log + [e])
  {
    ApartInit(log, e);
    TrackedInit(log, e);
    WeighedInit(log, e);
  }

  lemma WeighedInit(log: seq<Exchange>, e: Exchange)
    requires Weighed(log) && Starts(e)
    requires e.reply.handle !in Digesting(log) && Mint(Device, Minted(log) + 2) !in Companions(log)
    ensures Weighed(log + [e])
  {
    SetsAppend(log, e);
    BalanceAppend(log, e);
  }

  lemma TrackedDisconnect(log: seq<Exchange>, e: Exchange)
    requires Tracked(log) && !e.reply.NewHandle? && e.command.DisConnectDev?
    requires e.command.handle !in Companions(log)
    ensures Tracked(log + [e])
  {
    SetsAppend(log, e);
    LiveAppend(log, e);
  }

  lemma WeighedDisconnect(log: seq<Exchange>, e: Exchange)
    requires Weighed(log) && e.command.DisConnectDev?
    requires e.reply == if e.command.handle in Connected(log) then Success else InvalidHandle
    ensures Weighed(log + [e])
  {
    SetsAppend(log, e);
    BalanceAppend(log, e);
  }

  lemma SortedDisconnect(log: seq<Exchange>, e: Exchange)
    requires Sorted(log) && ReplyOk(log, e) && e.command.DisConnectDev? && e.command.handle in Told(log)
    ensures Sorted(log + [e])
  {
    assert e.command.handle !in Companions(log);
    assert DeviceLive(log, e.command.handle) <==> e.command.handle in Connected(log);
    ApartSame(log, e);
    TrackedDisconnect(log, e);
    WeighedDisconnect(log, e);
  }

  lemma ApartSame(log: seq<Exchange>, e: Exchange)
    requires Apart(log) && !e.reply.NewHandle?
    ensures Apart(log + [e])
  {
    SetsAppend(log, e);
    BalanceAppend(log, e);
  }

  lemma TrackedEnd(log: seq<Exchange>, e: Exchange)
    requires Tracked(log) && !e.reply.NewHandle? && (e.command.DigestFinal? || e.command.CloseHash?)
    ensures Tracked(log + [e])
  {
    SetsAppend(log, e);
    LiveAppend(log, e);
  }

  lemma WeighedEnd(log: seq<Exchange>, e: Exchange)
    requires Weighed(log) && !e.reply.NewHandle? && (e.command.DigestFinal? || e.command.CloseHash?)
    requires e.reply == InvalidHandle <==> e.command.handle !in Digesting(log)
    requires e.command.CloseHash? ==> e.reply == InvalidHandle || e.reply == Success
    ensures Weighed(log + [e])
  {
    SetsAppend(log, e);
    BalanceAppend(log, e);
  }

  lemma SortedEnd(log: seq<Exchange>, e: Exchange)
    requires Sorted(log) && ReplyOk(log, e) && (e.command.DigestFinal? || e.command.CloseHash?)
    ensures Sorted(log + [e])
  {
    assert DigestLive(log, e.command.handle) <==> e.command.handle in Digesting(log);
    ApartSame(log, e);
    TrackedEnd(log, e);
    WeighedEnd(log, e);
  }

  lemma SortedSame(log: seq<Exchange>, e: Exchange)
    requires Sorted(log) && ReplyOk(log, e) && !e.reply.NewHandle?
    requires e.command.ConnectDev? || e.command.DigestInit? || e.command.DigestUpdate?
    ensures Sorted(log + [e])
  {
    SetsAppend(log, e);
    LiveAppend(log, e);
  }

  lemma SortedAppend(log: seq<Exchange>, e: Exchange)
    requires Sorted(log) && ReplyOk(log, e) && (e.command.DisConnectDev? ==> e.command.handle in Told(log))
    ensures Sorted(log + [e])
  {
    if Starts(e) { SortedInit(log, e); }
    else if e.command.ConnectDev? && e.reply.NewHandle? { SortedConnect(log, e); }
    else if e.command.DisConnectDev? { SortedDisconnect(log, e); }
    else if e.command.DigestFinal? || e.command.CloseHash? { SortedEnd(log, e); }
    else { SortedSame(log, e); }
  }

  lemma NothingIsSorted()
    ensures Sorted([])
  {}

  lemma {:induction false} FairIsSorted(log: seq<Exchange>)
    requires Fair(log) && OnlyTold(log)
    ensures Sorted(log)
  {
    if log == [] {
      NothingIsSorted();
    } else {
      var front, e := log[..|log| - 1], log[|log| - 1];
      assert log == front + [e];
      FairIsSorted(front);
      SortedAppend(front, e);
    }
  }

  /** A device that is still connected was told and not disconnected since. */
  lemma {:induction false} ConnectedFrom(log: seq<Exchange>, h: Text)
    requires h in Connected(log)
    ensures exists i :: DeviceFrom(log, i, h) && log[i].command.ConnectDev? && log[i].reply == NewHandle(h)
  {
    var front, last := log[..|log| - 1], |log| - 1;
    if log[last].command.ConnectDev? && log[last].reply == NewHandle(h) {
      assert DeviceFrom(log, last, h);
    } else {
      ConnectedFrom(front, h);
      var i :| DeviceFrom(front, i, h) && front[i].command.ConnectDev? && front[i].reply == NewHandle(h);
      assert DeviceFrom(log, i, h) && log[i] == front[i];
    }
  }

  lemma {:induction false} InitsZero(log: seq<Exchange>)
    ensures Inits(log) == 0 <==> forall i :: 0 <= i < |log| ==> !Starts(log[i])
  {
    if log != [] {
      var front := log[..|log| - 1];
      InitsZero(front);
      assert forall i :: 0 <= i < |front| ==> front[i] == log[i];
      assert Starts(log[|log| - 1]) || forall i :: 0 <= i < |log| && i != |log| - 1 ==> log[i] == front[i];
    }
  }

  /** A client that ends every handle it was told, and disconnects no other, leaves
      exactly one device for each digest it started; so it leaves the table empty if and
      only if it started none. */
  lemma TidyClientLeaves(log: seq<Exchange>)
    requires Fair(log) && OnlyTold(log) && AllEnded(log)
    ensures Balance(log) == Inits(log)
    ensures Balance(log) == 0 <==> forall i :: 0 <= i < |log| ==> !Starts(log[i])
  {
    FairIsSorted(log);
    forall h ensures h !in Connected(log) {
      if h in Connected(log) { ConnectedFrom(log, h); }
    }
    forall h ensures !DigestLive(log, h) {}
    assert Connected(log) == {} && Digesting(log) == {};
    InitsZero(log);
  }

  lemma FirstDigest(log: seq<Exchange>)
    requires Fair(log) && |log| > 0 && log[0].command == DigestInit(true, true, true)
    ensures log[0].reply == NewHandle(Mint(Digest, 1)) && Balance(log[..1]) == 2
    ensures DigestLive(log[..1], Mint(Digest, 1))
  {
    FairAt(log, 0);
    var first := log[..1];
    assert log[..0] == [] && first[..0] == [] && first == [log[0]];
    assert DigestFrom(first, 0, Mint(Digest, 1));
  }

  /** The shortest such session: one digest, started and closed, and one device left. */
  lemma OneDigestLeavesADevice(log: seq<Exchange>)
    requires |log| == 2 && Justified([DigestInit(true, true, true), CloseHash(Mint(Digest, 1))], log)
    ensures log[0].reply == NewHandle(Mint(Digest, 1)) && log[1].reply == Success
    ensures Balance(log) == 1 && DeviceLive(log, Mint(Device, 2))
  {
    FirstDigest(log);
    FairAt(log, 1);
    CompanionIsUnique(1, Mint(Device, 2));
    assert DeviceFrom(log, 0, Mint(Device, 2));
  }
}
