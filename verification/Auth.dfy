/** Per-session authorization deadlines, and what they mean in terms of everything
    that happened to the session. */
module Auth {
  import opened Options
  import opened Text
  import opened CertKey

  type Time = nat
  type Grants = map<AuthKey, Time>   // key to deadline

  datatype Verdict = Authorized | NotAuthorized | Expired

  /** What can happen to a table, with the clock reading it used. */
  datatype AuthEvent =
    | Granted(key: AuthKey, at: Time)
    | Checked(key: AuthKey, at: Time)
    | Invalidated(provider: Text, device: Text)

  predicate OnDevice(key: AuthKey, provider: Text, device: Text) {
    key.provider == provider && key.device == device
  }

  // ---------------------------------------------------------------------------
  // The table
  // ---------------------------------------------------------------------------

  function Decide(grants: Grants, key: AuthKey, now: Time): Verdict {
    if key !in grants then NotAuthorized else if grants[key] <= now then Expired else Authorized
  }

  function After(grants: Grants, ttl: nat, e: AuthEvent): Grants {
    match e
    case Granted(key, at) => grants[key := at + ttl]
    case Checked(key, at) => if Decide(grants, key, at) == Expired then grants - {key} else grants
    case Invalidated(provider, device) => map k | k in grants && !OnDevice(k, provider, device) :: grants[k]
  }

  /** The table after a history, starting empty. */
  function Table(history: seq<AuthEvent>, ttl: nat): Grants {
    if history == [] then map[] else After(Table(history[..|history| - 1], ttl), ttl, history[|history| - 1])
  }

  lemma TableAppend(history: seq<AuthEvent>, ttl: nat, e: AuthEvent)
    ensures Table(history + [e], ttl) == After(Table(history, ttl), ttl, e)
  {
    assert (history + [e])[..|history|] == history;
  }

  // ---------------------------------------------------------------------------
  // The history on its own
  // ---------------------------------------------------------------------------

  predicate Timed(e: AuthEvent) { e.Granted? || e.Checked? }

  /** The clock never goes back. */
  ghost predicate Monotone(history: seq<AuthEvent>) {
    forall i, j :: 0 <= i < j < |history| && Timed(history[i]) && Timed(history[j]) ==> history[i].at <= history[j].at
  }

  ghost predicate NotAfter(history: seq<AuthEvent>, now: Time) {
    forall i :: 0 <= i < |history| && Timed(history[i]) ==> history[i].at <= now
  }

  predicate Clears(e: AuthEvent, key: AuthKey) { e.Invalidated? && OnDevice(key, e.provider, e.device) }

  /** The last grant of `key` that no later invalidation of its device undid. */
  function LastGrant(history: seq<AuthEvent>, key: AuthKey): Option<Time> {
    if history == [] then None else
    var e := history[|history| - 1];
    if e.Granted? && e.key == key then Some(e.at)
    else if Clears(e, key) then None
    else LastGrant(history[..|history| - 1], key)
  }

  /** A check made since that grant already found it expired. */
  function Noticed(history: seq<AuthEvent>, ttl: nat, key: AuthKey): bool {
    if history == [] then false else
    var e, before := history[|history| - 1], history[..|history| - 1];
    if (e.Granted? && e.key == key) || Clears(e, key) then false
    else
      || (e.Checked? && e.key == key && LastGrant(before, key).Some? && LastGrant(before, key).value + ttl <= e.at)
      || Noticed(before, ttl, key)
  }

  /** Each entry is the deadline of the last surviving grant, and an entry is missing
      only because there is none or because a check saw it expired. */
  lemma {:induction false} TableMeaning(history: seq<AuthEvent>, ttl: nat, key: AuthKey)
    ensures key in Table(history, ttl) <==> LastGrant(history, key).Some? && !Noticed(history, ttl, key)
    ensures key in Table(history, ttl) ==> Table(history, ttl)[key] == LastGrant(history, key).value + ttl
    ensures Noticed(history, ttl, key) ==> LastGrant(history, key).Some?
  {
    if history != [] { TableMeaning(history[..|history| - 1], ttl, key); }
  }

  lemma {:induction false} NoticedIsPast(history: seq<AuthEvent>, ttl: nat, key: AuthKey, now: Time)
    requires NotAfter(history, now) && Noticed(history, ttl, key)
    ensures LastGrant(history, key).Some? && LastGrant(history, key).value + ttl <= now
  {
    var e, before := history[|history| - 1], history[..|history| - 1];
    assert NotAfter(before, now);
    if Noticed(before, ttl, key) { NoticedIsPast(before, ttl, key, now); }
  }

  function HistoryVerdict(history: seq<AuthEvent>, ttl: nat, key: AuthKey, now: Time): Verdict {
    var g := LastGrant(history, key);
    if g.None? then NotAuthorized
    else if now < g.value + ttl then Authorized
    else if Noticed(history, ttl, key) then NotAuthorized else Expired
  }

  /** With a clock that does not go back, the table with deletion on expiry answers
      exactly as the history does. */
  lemma CheckIsHistory(history: seq<AuthEvent>, ttl: nat, key: AuthKey, now: Time)
    requires NotAfter(history, now)
    ensures Decide(Table(history, ttl), key, now) == HistoryVerdict(history, ttl, key, now)
  {
    TableMeaning(history, ttl, key);
    if Noticed(history, ttl, key) { NoticedIsPast(history, ttl, key, now); }
  }

  lemma CheckStep(grants: Grants, history: seq<AuthEvent>, ttl: nat, key: AuthKey, now: Time)
    requires grants == Table(history, ttl) && NotAfter(history, now)
    ensures Decide(grants, key, now) == HistoryVerdict(history, ttl, key, now)
    ensures Table(history + [Checked(key, now)], ttl)
            == if key in grants && grants[key] <= now then grants - {key} else grants
  {
    CheckIsHistory(history, ttl, key, now);
    TableAppend(history, ttl, Checked(key, now));
  }

  /** Grant number `i` of `key` survives to the end of the history. */
  ghost predicate Survives(history: seq<AuthEvent>, i: int, key: AuthKey) {
    && 0 <= i < |history| && history[i].Granted? && history[i].key == key
    && forall j :: i < j < |history| ==> !Clears(history[j], key)
  }

  lemma {:induction false} LastGrantIndex(history: seq<AuthEvent>, key: AuthKey)
    ensures LastGrant(history, key).Some? ==>
              exists i :: Survives(history, i, key) && history[i].at == LastGrant(history, key).value
    ensures Monotone(history) ==> forall i :: Survives(history, i, key) ==>
              LastGrant(history, key).Some? && history[i].at <= LastGrant(history, key).value
  {
    if history != [] {
      var e, before := history[|history| - 1], history[..|history| - 1];
      LastGrantIndex(before, key);
      if e.Granted? && e.key == key {
        assert Survives(history, |history| - 1, key);
      } else if !Clears(e, key) {
        if LastGrant(before, key).Some? {
          var i :| Survives(before, i, key) && before[i].at == LastGrant(before, key).value;
          assert Survives(history, i, key);
        }
        forall i | Survives(history, i, key) ensures Survives(before, i, key) {}
        assert Monotone(history) ==> Monotone(before);
      } else {
        assert Clears(history[|history| - 1], key);
        assert forall i :: !Survives(history, i, key);
      }
    }
  }

  /** A check succeeds if and only if some grant of that key, never cleared since, is
      younger than the lifetime. */
  lemma {:induction false} AuthorizedIffGranted(history: seq<AuthEvent>, ttl: nat, key: AuthKey, now: Time)
    requires Monotone(history) && NotAfter(history, now)
    ensures Decide(Table(history, ttl), key, now) == Authorized <==>
              exists i :: Survives(history, i, key) && now < history[i].at + ttl
  {
    CheckIsHistory(history, ttl, key, now);
    LastGrantIndex(history, key);
  }

  /** Losing a device takes the grants of that device of that provider, whatever the
      application, and no others. */
  lemma InvalidationIsExact(history: seq<AuthEvent>, ttl: nat, provider: Text, device: Text, key: AuthKey, now: Time)
    ensures var after := history + [Invalidated(provider, device)];
            HistoryVerdict(after, ttl, key, now) ==
              if key.provider == provider && key.device == device then NotAuthorized
              else HistoryVerdict(history, ttl, key, now)
  {
    assert (history + [Invalidated(provider, device)])[..|history|] == history;
  }

  /** A grant is good for its own key until its deadline, and changes no other key. */
  lemma GrantIsExact(history: seq<AuthEvent>, ttl: nat, granted: AuthKey, at: Time, key: AuthKey, now: Time)
    ensures var after := history + [Granted(granted, at)];
            HistoryVerdict(after, ttl, key, now) ==
              if key == granted then (if now < at + ttl then Authorized else Expired)
              else HistoryVerdict(history, ttl, key, now)
  {
    assert (history + [Granted(granted, at)])[..|history|] == history;
  }

  // ---------------------------------------------------------------------------
  // The class
  // ---------------------------------------------------------------------------

  class AuthTable {
    var grants: Grants
    const ttl: nat
    ghost var history: seq<AuthEvent>

    ghost predicate Valid()
      reads this
    {
      grants == Table(history, ttl)
    }

    constructor (ttl: nat)
      ensures Valid() && this.ttl == ttl && grants == map[] && history == []
    {
      this.ttl := ttl;
      grants := map[];
      history := [];
    }

    method Grant(key: AuthKey, now: Time)
      requires Valid()
      modifies this
      ensures Valid() && history == old(history) + [Granted(key, now)]
    {
      TableAppend(history, ttl, Granted(key, now));
      grants := grants[key := now + ttl];
      history := history + [Granted(key, now)];
    }

    /** The verdict is the one the history gives; an expired entry is removed. */
    method Check(key: AuthKey, now: Time) returns (verdict: Verdict)
      requires Valid() && NotAfter(history, now)
      modifies this
      ensures Valid() && history == old(history) + [Checked(key, now)]
      ensures verdict == HistoryVerdict(old(history), ttl, key, now)
      ensures verdict == Expired ==> key !in grants
    {
      CheckStep(grants, history, ttl, key, now);
      history := history + [Checked(key, now)];
      if key !in grants {
        return NotAuthorized;
      }
      if grants[key] <= now {
        grants := grants - {key};
        return Expired;
      }
      return Authorized;
    }

    /** Drop every grant for one device and report how many there were. */
    method InvalidateDevice(provider: Text, device: Text) returns (removed: nat)
      requires Valid()
      modifies this
      ensures Valid() && history == old(history) + [Invalidated(provider, device)]
      ensures removed == |set k | k in old(grants) && OnDevice(k, provider, device)|
    {
      TableAppend(history, ttl, Invalidated(provider, device));
      var before := |grants|;
      ghost var was := grants.Keys;
      ghost var gone := set k | k in grants && OnDevice(k, provider, device);
      grants := map k | k in grants && !OnDevice(k, provider, device) :: grants[k];
      history := history + [Invalidated(provider, device)];
      assert was == gone + grants.Keys && gone !! grants.Keys;
      assert before == |was| == |gone| + |grants.Keys| && |grants| == |grants.Keys|;
      removed := before - |grants|;
    }
  }
}
