/** Opaque, typed, session-owned handles, against a ledger of what was issued and
    removed. */
module Handles {
  import opened Options
  import opened Resources
  import opened Bytes
  import opened Text

  type Guard = nat   // the identity of a boxed guard

  function Prefix(kind: Kind): Text {
    match kind
    case Device => [100, 101, 118]        // dev
    case Application => [97, 112, 112]    // app
    case Container => [99, 110, 116]      // cnt
    case Digest => [104, 115, 104]        // hsh
  }

  function PrefixOf(handle: Text): Option<Text> {
    var pair := SplitOnce(handle, DASH);
    if pair.None? then None else Some(pair.value.0)
  }

  function FromPrefix(prefix: Text): Option<Kind> {
    if prefix == Prefix(Device) then Some(Device)
    else if prefix == Prefix(Application) then Some(Application)
    else if prefix == Prefix(Container) then Some(Container)
    else if prefix == Prefix(Digest) then Some(Digest)
    else None
  }

  /** The kind check in front of every lookup. */
  predicate RightKind(handle: Text, expected: Kind) {
    var prefix := PrefixOf(handle);
    prefix.Some? && FromPrefix(prefix.value) == Some(expected)
  }

  /** It compares the text before the first dash with one prefix. */
  lemma {:induction false} RightKindIsPrefix(handle: Text, expected: Kind)
    ensures RightKind(handle, expected) <==> PrefixOf(handle) == Some(Prefix(expected))
  {
    assert Prefix(Device)[0] == 100 && Prefix(Application)[0] == 97;
    assert Prefix(Container)[0] == 99 && Prefix(Digest)[0] == 104;
  }

  // ---------------------------------------------------------------------------
  // Minting
  // ---------------------------------------------------------------------------

  function Decimal(n: nat): Text {
    if n < 10 then [48 + n] else Decimal(n / 10) + [48 + n % 10]
  }

  lemma {:induction false} DecimalInjective(m: nat, n: nat)
    requires Decimal(m) == Decimal(n)
    ensures m == n
    decreases m
  {
    var d, e := Decimal(m), Decimal(n);
    assert d[|d| - 1] == 48 + m % 10 && e[|e| - 1] == 48 + n % 10;
    DecimalLength(m);
    DecimalLength(n);
    if m >= 10 && n >= 10 {
      assert d[..|d| - 1] == Decimal(m / 10) && e[..|e| - 1] == Decimal(n / 10);
      DecimalInjective(m / 10, n / 10);
    }
  }

  lemma DecimalLength(n: nat)
    ensures n >= 10 ==> |Decimal(n)| > 1
  {
    if n >= 10 { assert |Decimal(n / 10)| >= 1; }
  }

  function Mint(kind: Kind, n: nat): Text { Prefix(kind) + [DASH] + Decimal(n) }

  lemma MintedPrefix(kind: Kind, n: nat)
    ensures PrefixOf(Mint(kind, n)) == Some(Prefix(kind))
    ensures SplitOnce(Mint(kind, n), DASH) == Some((Prefix(kind), Decimal(n)))
  {
    IndexOfConcat(Prefix(kind), DASH, Decimal(n));
    var h := Mint(kind, n);
    assert h[..3] == Prefix(kind) && h[4..] == Decimal(n);
  }

  /** Two handles are equal only when kind and number are. */
  lemma MintInjective(k1: Kind, m: nat, k2: Kind, n: nat)
    requires Mint(k1, m) == Mint(k2, n)
    ensures k1 == k2 && m == n
  {
    MintedPrefix(k1, m);
    MintedPrefix(k2, n);
    DecimalInjective(m, n);
    RightKindIsPrefix(Mint(k1, m), k1);
    RightKindIsPrefix(Mint(k1, m), k2);
  }

  // ---------------------------------------------------------------------------
  // The ledger
  // ---------------------------------------------------------------------------

  datatype Entry = Issued(kind: Kind, handle: Text, guard: Guard) | Removed(handle: Text)

  datatype Lookup = Found(guard: Guard) | Unknown | WrongKind

  function CountIssued(ledger: seq<Entry>): (n: nat)
    ensures n <= |ledger|
  {
    if ledger == [] then 0
    else CountIssued(ledger[..|ledger| - 1]) + if ledger[|ledger| - 1].Issued? then 1 else 0
  }

  function Noted(held: map<Text, (Kind, Guard)>, e: Entry): map<Text, (Kind, Guard)> {
    if e.Issued? then held[e.handle := (e.kind, e.guard)] else held - {e.handle}
  }

  /** What has been issued and not removed. */
  function Held(ledger: seq<Entry>): map<Text, (Kind, Guard)> {
    if ledger == [] then map[] else Noted(Held(ledger[..|ledger| - 1]), ledger[|ledger| - 1])
  }

  lemma HeldAppend(ledger: seq<Entry>, e: Entry)
    ensures Held(ledger + [e]) == Noted(Held(ledger), e)
    ensures CountIssued(ledger + [e]) == CountIssued(ledger) + if e.Issued? then 1 else 0
  {
    assert (ledger + [e])[..|ledger|] == ledger;
  }

  /** Handles carry the number of their issue, and only held handles are removed. */
  predicate Lawful(ledger: seq<Entry>) {
    ledger != [] ==> Lawful(ledger[..|ledger| - 1]) && EntryOk(ledger[..|ledger| - 1], ledger[|ledger| - 1])
  }

  predicate EntryOk(before: seq<Entry>, e: Entry) {
    if e.Issued? then e.handle == Mint(e.kind, CountIssued(before) + 1) else e.handle in Held(before)
  }

  lemma LawfulAppend(ledger: seq<Entry>, e: Entry)
    requires Lawful(ledger) && EntryOk(ledger, e)
    ensures Lawful(ledger + [e])
  {
    assert (ledger + [e])[..|ledger|] == ledger;
  }

  lemma {:induction false} LawfulAt(ledger: seq<Entry>, i: nat)
    requires Lawful(ledger) && i < |ledger|
    ensures EntryOk(ledger[..i], ledger[i])
  {
    if i < |ledger| - 1 {
      var front := ledger[..|ledger| - 1];
      LawfulAt(front, i);
      assert front[..i] == ledger[..i];
    }
  }

  lemma {:induction false} CountGrows(ledger: seq<Entry>, i: nat, j: nat)
    requires i <= j <= |ledger|
    ensures CountIssued(ledger[..i]) <= CountIssued(ledger[..j])
    ensures i < j && ledger[i].Issued? ==> CountIssued(ledger[..i]) < CountIssued(ledger[..j])
    decreases j - i
  {
    if i < j {
      assert ledger[..i + 1][..i] == ledger[..i];
      CountGrows(ledger, i + 1, j);
    }
  }

  /** No handle is ever issued twice by one table, not even after its removal and not
      even for another kind. */
  lemma NeverReissued(ledger: seq<Entry>, i: nat, j: nat)
    requires Lawful(ledger) && i < j < |ledger| && ledger[i].Issued? && ledger[j].Issued?
    ensures ledger[i].handle != ledger[j].handle
  {
    LawfulAt(ledger, i);
    LawfulAt(ledger, j);
    CountGrows(ledger, i, j);
    if ledger[i].handle == ledger[j].handle {
      MintInjective(ledger[i].kind, CountIssued(ledger[..i]) + 1, ledger[j].kind, CountIssued(ledger[..j]) + 1);
    }
  }

  ghost predicate HeldMinted(ledger: seq<Entry>) {
    forall h :: h in Held(ledger) ==> MintedBy(h, Held(ledger)[h].0, CountIssued(ledger))
  }

  lemma FreshHandle(ledger: seq<Entry>, kind: Kind)
    requires HeldMinted(ledger)
    ensures Mint(kind, CountIssued(ledger) + 1) !in Held(ledger)
  {
    var n := CountIssued(ledger);
    var handle := Mint(kind, n + 1);
    if handle in Held(ledger) {
      var k := Held(ledger)[handle].0;
      var m :| 1 <= m <= n && handle == Mint(k, m);
      MintInjective(k, m, kind, n + 1);
    }
  }

  lemma HeldMintedAppend(ledger: seq<Entry>, e: Entry)
    requires HeldMinted(ledger) && EntryOk(ledger, e)
    ensures HeldMinted(ledger + [e])
  {
    HeldAppend(ledger, e);
    var after := ledger + [e];
    forall h | h in Held(after) ensures MintedBy(h, Held(after)[h].0, CountIssued(after)) {
      if e.Issued? && h == e.handle {
        assert h == Mint(e.kind, CountIssued(after));
      } else {
        var k := Held(ledger)[h].0;
        assert MintedBy(h, k, CountIssued(ledger));
        var m :| 1 <= m <= CountIssued(ledger) && h == Mint(k, m);
        assert 1 <= m <= CountIssued(after);
      }
    }
  }

  lemma NotedSize(held: map<Text, (Kind, Guard)>, e: Entry)
    requires e.Issued? <==> e.handle !in held
    ensures |Noted(held, e)| == |held| + if e.Issued? then 1 else -1
  {
    var noted := Noted(held, e);
    assert noted.Keys == if e.Issued? then held.Keys + {e.handle} else held.Keys - {e.handle};
    assert |noted| == |noted.Keys| && |held| == |held.Keys|;
  }

  /** The invariant behind `HeldMeaning`, as one fact. */
  ghost predicate Tallied(ledger: seq<Entry>) {
    HeldMinted(ledger) && |Held(ledger)| == CountIssued(ledger) - (|ledger| - CountIssued(ledger))
  }

  lemma TalliedAppend(ledger: seq<Entry>, e: Entry)
    requires Tallied(ledger) && EntryOk(ledger, e)
    ensures Tallied(ledger + [e])
  {
    HeldMintedAppend(ledger, e);
    if e.Issued? { FreshHandle(ledger, e.kind); }
    NotedSize(Held(ledger), e);
    HeldAppend(ledger, e);
  }

  lemma {:induction false} LawfulIsTallied(ledger: seq<Entry>)
    requires Lawful(ledger)
    ensures Tallied(ledger)
  {
    if ledger != [] {
      var front, e := ledger[..|ledger| - 1], ledger[|ledger| - 1];
      assert ledger == front + [e];
      LawfulIsTallied(front);
      TalliedAppend(front, e);
    }
  }

  /** Held handles were minted for their kind, and their number is what was issued
      minus what was removed. */
  lemma {:induction false} HeldMeaning(ledger: seq<Entry>)
    requires Lawful(ledger)
    ensures HeldMinted(ledger)
    ensures |Held(ledger)| == CountIssued(ledger) - (|ledger| - CountIssued(ledger))
  {
    LawfulIsTallied(ledger);
  }

  ghost predicate MintedBy(handle: Text, kind: Kind, count: nat) {
    exists m :: 1 <= m <= count && handle == Mint(kind, m)
  }

  /** What a lookup must answer, from the ledger alone. */
  function LedgerLookup(ledger: seq<Entry>, kind: Kind, handle: Text): Lookup {
    if PrefixOf(handle) != Some(Prefix(kind)) then WrongKind
    else if handle in Held(ledger) then Found(Held(ledger)[handle].1)
    else Unknown
  }

  /** Entry `i` issued this guard, and nothing since removed it. */
  ghost predicate Outstanding(ledger: seq<Entry>, i: int, kind: Kind, handle: Text, guard: Guard) {
    && 0 <= i < |ledger| && ledger[i] == Issued(kind, handle, guard)
    && forall j :: i < j < |ledger| ==> ledger[j] != Removed(handle)
  }

  ghost predicate OutstandingSome(ledger: seq<Entry>, kind: Kind, handle: Text, guard: Guard) {
    exists i :: Outstanding(ledger, i, kind, handle, guard)
  }

  lemma OutstandingSkip(ledger: seq<Entry>, e: Entry, kind: Kind, handle: Text, guard: Guard)
    requires e.handle != handle
    ensures OutstandingSome(ledger + [e], kind, handle, guard) <==> OutstandingSome(ledger, kind, handle, guard)
  {
    var after := ledger + [e];
    if OutstandingSome(after, kind, handle, guard) {
      var i :| Outstanding(after, i, kind, handle, guard);
      assert i < |ledger| && ledger[i] == after[i];
      assert forall j :: i < j < |ledger| ==> after[j] == ledger[j];
      assert Outstanding(ledger, i, kind, handle, guard);
    }
    if OutstandingSome(ledger, kind, handle, guard) {
      var i :| Outstanding(ledger, i, kind, handle, guard);
      assert Outstanding(after, i, kind, handle, guard);
    }
  }

  lemma OutstandingLast(ledger: seq<Entry>, e: Entry, kind: Kind, handle: Text, guard: Guard)
    requires Lawful(ledger + [e]) && e.handle == handle
    ensures OutstandingSome(ledger + [e], kind, handle, guard) <==> e == Issued(kind, handle, guard)
  {
    var after := ledger + [e];
    assert after[|ledger|] == e;
    if e == Issued(kind, handle, guard) { assert Outstanding(after, |ledger|, kind, handle, guard); }
    if OutstandingSome(after, kind, handle, guard) {
      var i :| Outstanding(after, i, kind, handle, guard);
      if i < |ledger| && e.Issued? { NeverReissued(after, i, |ledger|); }
    }
  }

  lemma {:induction false} HeldIsOutstanding(ledger: seq<Entry>, kind: Kind, handle: Text, guard: Guard)
    requires Lawful(ledger)
    ensures (handle in Held(ledger) && Held(ledger)[handle] == (kind, guard)) <==>
              OutstandingSome(ledger, kind, handle, guard)
  {
    if ledger != [] {
      var front, e := ledger[..|ledger| - 1], ledger[|ledger| - 1];
      assert ledger == front + [e];
      HeldIsOutstanding(front, kind, handle, guard);
      if e.handle != handle { OutstandingSkip(front, e, kind, handle, guard); }
      else { OutstandingLast(front, e, kind, handle, guard); }
    }
  }

  lemma FoundIsHeld(ledger: seq<Entry>, kind: Kind, handle: Text)
    requires Lawful(ledger)
    ensures LedgerLookup(ledger, kind, handle).Found? <==> handle in Held(ledger) && Held(ledger)[handle].0 == kind
  {
    HeldMeaning(ledger);
    if handle in Held(ledger) {
      var k := Held(ledger)[handle].0;
      assert MintedBy(handle, k, CountIssued(ledger));
      var m :| 1 <= m <= CountIssued(ledger) && handle == Mint(k, m);
      MintedPrefix(k, m);
      RightKindIsPrefix(handle, k);
      RightKindIsPrefix(handle, kind);
    }
  }

  /** A lookup finds a guard exactly when that guard was issued under that very string
      and kind and was not removed since. */
  lemma FoundIffOutstanding(ledger: seq<Entry>, kind: Kind, handle: Text, guard: Guard)
    requires Lawful(ledger)
    ensures LedgerLookup(ledger, kind, handle) == Found(guard) <==> OutstandingSome(ledger, kind, handle, guard)
  {
    FoundIsHeld(ledger, kind, handle);
    HeldIsOutstanding(ledger, kind, handle, guard);
  }

  /** The kind is told from the text before the first dash alone; only after that does it
      matter whether the handle is held. */
  lemma LookupReasons(ledger: seq<Entry>, kind: Kind, handle: Text)
    ensures LedgerLookup(ledger, kind, handle) == WrongKind <==> PrefixOf(handle) != Some(Prefix(kind))
    ensures LedgerLookup(ledger, kind, handle) == Unknown <==>
              PrefixOf(handle) == Some(Prefix(kind)) && handle !in Held(ledger)
  {}

  // ---------------------------------------------------------------------------
  // The table
  // ---------------------------------------------------------------------------

  /** The part of the held handles that one of the four maps stores. */
  function OfKind(held: map<Text, (Kind, Guard)>, kind: Kind): map<Text, Guard> {
    map h | h in held && held[h].0 == kind :: held[h].1
  }

  predicate Stores(held: map<Text, (Kind, Guard)>, d: map<Text, Guard>, a: map<Text, Guard>,
                   c: map<Text, Guard>, h: map<Text, Guard>)
  {
    && d == OfKind(held, Device) && a == OfKind(held, Application)
    && c == OfKind(held, Container) && h == OfKind(held, Digest)
  }

  lemma OfKindNoted(held: map<Text, (Kind, Guard)>, e: Entry)
    requires e.Issued? && e.handle !in held
    ensures forall k: Kind {:trigger OfKind(Noted(held, e), k)} :: OfKind(Noted(held, e), k)
              == if k == e.kind then OfKind(held, k)[e.handle := e.guard] else OfKind(held, k)
  {
    forall k: Kind ensures OfKind(Noted(held, e), k)
              == if k == e.kind then OfKind(held, k)[e.handle := e.guard] else OfKind(held, k)
    {
      if k == e.kind {
        assert OfKind(Noted(held, e), k) == OfKind(held, k)[e.handle := e.guard];
      } else {
        assert OfKind(Noted(held, e), k) == OfKind(held, k);
      }
    }
  }

  lemma OfKindRemoved(held: map<Text, (Kind, Guard)>, handle: Text, kind: Kind)
    requires handle in held && held[handle].0 == kind
    ensures forall k: Kind {:trigger OfKind(Noted(held, Removed(handle)), k)} :: OfKind(Noted(held, Removed(handle)), k)
              == if k == kind then OfKind(held, k) - {handle} else OfKind(held, k)
  {
    forall k: Kind ensures OfKind(Noted(held, Removed(handle)), k)
              == if k == kind then OfKind(held, k) - {handle} else OfKind(held, k)
    {
      if k == kind {
        assert OfKind(Noted(held, Removed(handle)), k) == OfKind(held, k) - {handle};
      } else {
        assert OfKind(Noted(held, Removed(handle)), k) == OfKind(held, k);
      }
    }
  }

  lemma OfKindCover(held: map<Text, (Kind, Guard)>)
    ensures held.Keys == OfKind(held, Device).Keys + OfKind(held, Application).Keys
                         + OfKind(held, Container).Keys + OfKind(held, Digest).Keys
    ensures forall j, k: Kind :: j != k ==> OfKind(held, j).Keys !! OfKind(held, k).Keys
  {
    forall h | h in held.Keys ensures h in OfKind(held, held[h].0).Keys {}
  }

  lemma DisjointSizes(d: set<Text>, a: set<Text>, c: set<Text>, h: set<Text>)
    requires d !! a && d !! c && d !! h && a !! c && a !! h && c !! h
    ensures |d + a + c + h| == |d| + |a| + |c| + |h|
  {
    assert |d + a| == |d| + |a|;
    assert |d + a + c| == |d + a| + |c|;
  }

  /** The four key sets are disjoint and together hold every handle. */
  lemma OfKindSizes(held: map<Text, (Kind, Guard)>)
    ensures forall j, k: Kind :: j != k ==> OfKind(held, j).Keys !! OfKind(held, k).Keys
    ensures |held| == |OfKind(held, Device)| + |OfKind(held, Application)|
                      + |OfKind(held, Container)| + |OfKind(held, Digest)|
  {
    OfKindCover(held);
    DisjointSizes(OfKind(held, Device).Keys, OfKind(held, Application).Keys,
                  OfKind(held, Container).Keys, OfKind(held, Digest).Keys);
    assert |held| == |held.Keys|;
    assert forall k: Kind :: |OfKind(held, k)| == |OfKind(held, k).Keys|;
  }

  function Put(kind: Kind, into: Kind, m: map<Text, Guard>, handle: Text, guard: Guard): map<Text, Guard> {
    if kind == into then m[handle := guard] else m
  }

  lemma IssueIsLawful(ledger: seq<Entry>, e: Entry, next: seq<Entry>, d: map<Text, Guard>, a: map<Text, Guard>,
                      c: map<Text, Guard>, h: map<Text, Guard>)
    requires Lawful(ledger) && e.Issued? && e.handle == Mint(e.kind, CountIssued(ledger) + 1) && next == ledger + [e]
    requires Stores(Held(ledger), d, a, c, h)
    ensures Lawful(next) && CountIssued(next) == CountIssued(ledger) + 1
    ensures Stores(Held(next),
                   Put(Device, e.kind, d, e.handle, e.guard), Put(Application, e.kind, a, e.handle, e.guard),
                   Put(Container, e.kind, c, e.handle, e.guard), Put(Digest, e.kind, h, e.handle, e.guard))
  {
    HeldMeaning(ledger);
    FreshHandle(ledger, e.kind);
    LawfulAppend(ledger, e);
    HeldAppend(ledger, e);
    OfKindNoted(Held(ledger), e);
  }

  function Take(kind: Kind, from: Kind, m: map<Text, Guard>, handle: Text): map<Text, Guard> {
    if kind == from then m - {handle} else m
  }

  lemma RemovalIsLawful(ledger: seq<Entry>, handle: Text, kind: Kind, d: map<Text, Guard>, a: map<Text, Guard>,
                        c: map<Text, Guard>, h: map<Text, Guard>)
    requires Lawful(ledger) && handle in Held(ledger) && Held(ledger)[handle].0 == kind
    requires Stores(Held(ledger), d, a, c, h)
    ensures var next := ledger + [Removed(handle)];
            && Lawful(next) && CountIssued(next) == CountIssued(ledger)
            && Stores(Held(next), Take(Device, kind, d, handle), Take(Application, kind, a, handle),
                      Take(Container, kind, c, handle), Take(Digest, kind, h, handle))
  {
    LawfulAppend(ledger, Removed(handle));
    HeldAppend(ledger, Removed(handle));
    OfKindRemoved(Held(ledger), handle, kind);
  }

  class HandleTable {
    var nextId: nat
    var devices: map<Text, Guard>
    var applications: map<Text, Guard>
    var containers: map<Text, Guard>
    var digests: map<Text, Guard>
    ghost var ledger: seq<Entry>

    function Of(kind: Kind): map<Text, Guard>
      reads this
    {
      match kind
      case Device => devices
      case Application => applications
      case Container => containers
      case Digest => digests
    }

    ghost predicate Valid()
      reads this
    {
      && Lawful(ledger)
      && nextId == CountIssued(ledger)
      && Stores(Held(ledger), devices, applications, containers, digests)
    }

    constructor ()
      ensures Valid() && ledger == []
    {
      nextId := 0;
      devices, applications, containers, digests := map[], map[], map[], map[];
      ledger := [];
    }

    /** Take ownership of a guard under a handle that was never issued before. */
    method Issue(kind: Kind, guard: Guard) returns (handle: Text)
      requires Valid()
      modifies this
      ensures Valid() && ledger == old(ledger) + [Issued(kind, handle, guard)]
      ensures handle == Mint(kind, CountIssued(old(ledger)) + 1)
    {
      nextId := nextId + 1;
      handle := Mint(kind, nextId);
      ghost var next := ledger + [Issued(kind, handle, guard)];
      IssueIsLawful(ledger, Issued(kind, handle, guard), next, devices, applications, containers, digests);
      devices := Put(Device, kind, devices, handle, guard);
      applications := Put(Application, kind, applications, handle, guard);
      containers := Put(Container, kind, containers, handle, guard);
      digests := Put(Digest, kind, digests, handle, guard);
      ledger := next;
    }

    lemma HandleKind(handle: Text, kind: Kind)
      requires Valid() && PrefixOf(handle) == Some(Prefix(kind)) && handle in Held(ledger)
      ensures handle in Of(kind) && Of(kind)[handle] == Held(ledger)[handle].1
    {
      HeldMeaning(ledger);
      var k := Held(ledger)[handle].0;
      var m :| 1 <= m <= CountIssued(ledger) && handle == Mint(k, m);
      MintedPrefix(k, m);
      RightKindIsPrefix(handle, k);
      RightKindIsPrefix(handle, kind);
    }

    /** Borrow a guard: the answer is the ledger's. */
    method Borrow(kind: Kind, handle: Text) returns (r: Lookup)
      requires Valid()
      ensures r == LedgerLookup(ledger, kind, handle)
    {
      RightKindIsPrefix(handle, kind);
      if !RightKind(handle, kind) { return WrongKind; }
      if handle in Held(ledger) { HandleKind(handle, kind); }
      if handle !in Of(kind) { return Unknown; }
      return Found(Of(kind)[handle]);
    }

    /** Hand the guard back to the caller; nothing changes unless it was found. */
    method Remove(kind: Kind, handle: Text) returns (r: Lookup)
      requires Valid()
      modifies this
      ensures Valid() && r == LedgerLookup(old(ledger), kind, handle)
      ensures ledger == if r.Found? then old(ledger) + [Removed(handle)] else old(ledger)
    {
      r := Borrow(kind, handle);
      if r.Found? {
        FoundIsHeld(ledger, kind, handle);
        RemovalIsLawful(ledger, handle, kind, devices, applications, containers, digests);
        devices := Take(Device, kind, devices, handle);
        applications := Take(Application, kind, applications, handle);
        containers := Take(Container, kind, containers, handle);
        digests := Take(Digest, kind, digests, handle);
        ledger := ledger + [Removed(handle)];
      }
    }

    /** The number of guards held: issued minus removed. */
    method Len() returns (n: nat)
      requires Valid()
      ensures n == CountIssued(ledger) - (|ledger| - CountIssued(ledger))
    {
      n := |devices| + |applications| + |containers| + |digests|;
      HeldMeaning(ledger);
      OfKindSizes(Held(ledger));
    }
  }
}
