/** `%VAR%` expansion of configured library paths. */
module EnvExpand {
  import opened Bytes
  import opened Text

  const PERCENT: Byte := 37

  type Env = map<Text, Text>

  /** What stands for a closed pair of percent signs around `name`. */
  function Closed(name: Text, env: Env): Text {
    if name == [] then [PERCENT]
    else if name in env then env[name]
    else [PERCENT] + name + [PERCENT]
  }

  /** The first thing a non-empty text holds. */
  datatype Unit =
    | Plain(c: Byte, rest: Text)
    | Reference(name: Text, rest: Text)
    | Unclosed(name: Text)

  function Written(u: Unit): Text {
    match u
    case Plain(c, rest) => [c] + rest
    case Reference(name, rest) => [PERCENT] + (name + [PERCENT] + rest)
    case Unclosed(name) => [PERCENT] + name
  }

  predicate UnitOk(u: Unit) {
    if u.Plain? then u.c != PERCENT else PERCENT !in u.name
  }

  function First(s: Text): (u: Unit)
    requires s != []
    ensures UnitOk(u) && Written(u) == s
  {
    if s[0] != PERCENT then Plain(s[0], s[1..])
    else
      var j := IndexOf(s[1..], PERCENT);
      if j == |s| - 1 then
        assert s[1..][..j] == s[1..];
        Unclosed(s[1..])
      else
        Reference(s[1..][..j], s[1..][j + 1..])
  }

  /** A text is read in one way only. */
  lemma FirstIsUnique(u: Unit)
    requires UnitOk(u)
    ensures First(Written(u)) == u
  {
    var s := Written(u);
    match u
    case Plain(c, rest) => assert s[1..] == rest;
    case Reference(name, rest) =>
      assert s[1..] == name + [PERCENT] + rest;
      IndexOfConcat(name, PERCENT, rest);
    case Unclosed(name) =>
      assert s[1..] == name;
      IndexOfAbsent(name, PERCENT);
  }

  /** One pass from left to right. */
  function Expand(s: Text, env: Env): Text
    decreases |s|
  {
    if s == [] then [] else
    match First(s)
    case Plain(c, rest) => [c] + Expand(rest, env)
    case Reference(name, rest) => Closed(name, env) + Expand(rest, env)
    case Unclosed(_) => s
  }

  function Emitted(u: Unit, env: Env): Text {
    match u
    case Plain(c, _) => [c]
    case Reference(name, _) => Closed(name, env)
    case Unclosed(name) => [PERCENT] + name
  }

  function Rest(u: Unit): Text { if u.Unclosed? then [] else u.rest }

  /** Expansion goes unit by unit. */
  lemma ExpandUnit(u: Unit, env: Env)
    requires UnitOk(u)
    ensures Expand(Written(u), env) == Emitted(u, env) + Expand(Rest(u), env)
  {
    FirstIsUnique(u);
  }

  /** The inner loop of `expand_env_vars`: read up to the closing sign. */
  method ReadName(path: Text, start: nat) returns (name: Text, closed: bool, i: nat)
    requires start <= |path|
    ensures start <= i <= |path| && PERCENT !in name
    ensures path[start..] == if closed then name + [PERCENT] + path[i..] else name
    ensures !closed ==> i == |path|
  {
    name := [];
    closed := false;
    i := start;
    while i < |path|
      invariant start <= i <= |path|
      invariant PERCENT !in name
      invariant name == path[start..i]
    {
      if path[i] == PERCENT {
        i := i + 1;
        closed := true;
        break;
      }
      name := name + [path[i]];
      i := i + 1;
    }
  }

  lemma Emit(before: Text, left: Text, u: Unit, env: Env, after: Text)
    requires UnitOk(u) && left == Written(u) && after == before + Emitted(u, env)
    ensures before + Expand(left, env) == after + Expand(Rest(u), env)
  {
    ExpandUnit(u, env);
    Reassociate(before, Emitted(u, env), Expand(Rest(u), env));
  }

  /** What is pushed for a name that was read. */
  method Resolve(name: Text, closed: bool, env: Env) returns (text: Text)
    ensures text == if closed then Closed(name, env) else [PERCENT] + name
  {
    if closed && name != [] {
      if name in env {
        text := env[name];
      } else {
        text := [PERCENT] + name + [PERCENT];
      }
    } else {
      text := [PERCENT] + name;
    }
  }

  /** One turn of the outer loop: what is read at `start` and what is pushed for it. */
  method ScanUnit(path: Text, start: nat, env: Env) returns (text: Text, i: nat, ghost u: Unit)
    requires start < |path|
    ensures start < i <= |path|
    ensures UnitOk(u) && path[start..] == Written(u) && path[i..] == Rest(u) && text == Emitted(u, env)
  {
    var c := path[start];
    i := start + 1;
    assert path[start..] == [c] + path[i..];
    if c == PERCENT {
      var name, closed;
      name, closed, i := ReadName(path, i);
      u := if closed then Reference(name, path[i..]) else Unclosed(name);
      text := Resolve(name, closed, env);
    } else {
      u := Plain(c, path[i..]);
      text := [c];
    }
  }

  /** The outer loop. */
  method ExpandEnvVars(path: Text, env: Env) returns (result: Text)
    ensures result == Expand(path, env)
  {
    result := [];
    var i := 0;
    assert path[0..] == path;
    while i < |path|
      invariant 0 <= i <= |path|
      invariant result + Expand(path[i..], env) == Expand(path, env)
    {
      var text, next;
      ghost var u;
      text, next, u := ScanUnit(path, i, env);
      Emit(result, path[i..], u, env, result + text);
      result := result + text;
      i := next;
    }
    assert path[i..] == [];
  }

  // ---------------------------------------------------------------------------
  // A second definition, by splitting at every percent sign
  // ---------------------------------------------------------------------------

  /** Text and names alternate; a name without its closing sign is text again. */
  function Combine(pieces: seq<Text>, env: Env): Text
    requires pieces != []
  {
    if |pieces| == 1 then pieces[0]
    else if |pieces| == 2 then pieces[0] + [PERCENT] + pieces[1]
    else pieces[0] + Closed(pieces[1], env) + Combine(pieces[2..], env)
  }

  lemma SplitPlain(c: Byte, rest: Text)
    requires c != PERCENT
    ensures Split([c] + rest, PERCENT) == [[c] + Split(rest, PERCENT)[0]] + Split(rest, PERCENT)[1..]
  {
    var s := [c] + rest;
    assert s[1..] == rest;
    var i := IndexOf(s, PERCENT);
    assert i == IndexOf(rest, PERCENT) + 1;
    if i < |s| {
      assert s[..i] == [c] + rest[..i - 1];
      assert s[i + 1..] == rest[i..];
    }
  }

  lemma CombineHead(a: Text, pieces: seq<Text>, env: Env)
    requires pieces != []
    ensures Combine([a + pieces[0]] + pieces[1..], env) == a + Combine(pieces, env)
  {
    var moved := [a + pieces[0]] + pieces[1..];
    assert moved[0] == a + pieces[0];
    if |pieces| == 1 {
    } else if |pieces| == 2 {
      assert moved[1] == pieces[1];
      Reassociate(a, pieces[0], [PERCENT] + pieces[1]);
      Reassociate(a + pieces[0], [PERCENT], pieces[1]);
      Reassociate(pieces[0], [PERCENT], pieces[1]);
    } else {
      assert moved[1] == pieces[1] && moved[2..] == pieces[2..];
      var c, rest := Closed(pieces[1], env), Combine(pieces[2..], env);
      Reassociate(a, pieces[0], c + rest);
      Reassociate(a + pieces[0], c, rest);
      Reassociate(pieces[0], c, rest);
    }
  }

  /** The scanner and the splitter agree on every text. */
  lemma {:induction false} ExpandIsCombine(s: Text, env: Env)
    ensures Expand(s, env) == Combine(Split(s, PERCENT), env)
    decreases |s|
  {
    if s == [] {
    } else {
      var u := First(s);
      ExpandUnit(u, env);
      ExpandIsCombine(Rest(u), env);
      SplitUnit(u, env);
    }
  }

  lemma SplitReference(name: Text, rest: Text)
    requires PERCENT !in name
    ensures Split([PERCENT] + (name + [PERCENT] + rest), PERCENT) == [[], name] + Split(rest, PERCENT)
  {
    var tail := name + [PERCENT] + rest;
    assert [PERCENT] + tail == [] + [PERCENT] + tail;
    SplitStep([], PERCENT, tail);
    SplitStep(name, PERCENT, rest);
  }

  lemma CombineReference(name: Text, pieces: seq<Text>, env: Env)
    requires pieces != []
    ensures Combine([[], name] + pieces, env) == Closed(name, env) + Combine(pieces, env)
  {
    var all := [[], name] + pieces;
    assert all[2..] == pieces;
    assert [] + Closed(name, env) == Closed(name, env);
  }

  lemma CombineUnclosed(name: Text, env: Env)
    requires PERCENT !in name
    ensures Combine(Split([PERCENT] + name, PERCENT), env) == [PERCENT] + name
  {
    SplitStep([], PERCENT, name);
    SplitStep(name, PERCENT, []);
    assert [PERCENT] + name == [] + [PERCENT] + name;
    assert Split([PERCENT] + name, PERCENT) == [[], name];
  }

  lemma SplitUnit(u: Unit, env: Env)
    requires UnitOk(u)
    ensures Combine(Split(Written(u), PERCENT), env) == Emitted(u, env) + Combine(Split(Rest(u), PERCENT), env)
  {
    match u
    case Plain(c, rest) =>
      SplitPlain(c, rest);
      CombineHead([c], Split(rest, PERCENT), env);
    case Reference(name, rest) =>
      SplitReference(name, rest);
      CombineReference(name, Split(rest, PERCENT), env);
    case Unclosed(name) =>
      CombineUnclosed(name, env);
      assert Split([], PERCENT) == [[]];
  }

  // ---------------------------------------------------------------------------
  // Properties
  // ---------------------------------------------------------------------------

  /** The text holds an even number of percent signs. */
  predicate Even(s: Text) {
    if s == [] then true else if s[0] == PERCENT then !Even(s[1..]) else Even(s[1..])
  }

  lemma {:induction false} EvenSkip(a: Text, s: Text)
    requires PERCENT !in a
    ensures Even(a + s) == Even(s)
  {
    if a == [] {
      assert a + s == s;
    } else {
      assert (a + s)[1..] == a[1..] + s;
      EvenSkip(a[1..], s);
    }
  }

  lemma EvenUnit(u: Unit)
    requires UnitOk(u)
    ensures Even(Written(u)) <==> !u.Unclosed? && Even(u.rest)
  {
    var s := Written(u);
    match u
    case Plain(c, rest) => assert s[1..] == rest;
    case Reference(name, rest) =>
      assert s[1..] == name + ([PERCENT] + rest);
      EvenSkip(name, [PERCENT] + rest);
      assert ([PERCENT] + rest)[1..] == rest;
    case Unclosed(name) =>
      assert s[1..] == name + [];
      EvenSkip(name, []);
  }

  /** Text with only complete references expands independently of what follows. */
  lemma {:induction false} ExpandConcat(a: Text, b: Text, env: Env)
    requires Even(a)
    ensures Expand(a + b, env) == Expand(a, env) + Expand(b, env)
    decreases |a|
  {
    if a == [] {
      assert a + b == b;
    } else {
      var u := First(a);
      EvenUnit(u);
      ExpandConcat(u.rest, b, env);
      ExpandUnitConcat(u, b, env);
    }
  }

  lemma ExpandUnitConcat(u: Unit, b: Text, env: Env)
    requires UnitOk(u) && !u.Unclosed?
    requires Expand(u.rest + b, env) == Expand(u.rest, env) + Expand(b, env)
    ensures Expand(Written(u) + b, env) == Expand(Written(u), env) + Expand(b, env)
  {
    var longer := u.(rest := u.rest + b);
    WrittenConcat(u, b);
    ExpandUnit(u, env);
    ExpandUnit(longer, env);
    Reassociate(Emitted(u, env), Expand(u.rest, env), Expand(b, env));
  }

  lemma WrittenConcat(u: Unit, b: Text)
    requires !u.Unclosed?
    ensures Written(u.(rest := u.rest + b)) == Written(u) + b
  {
  }

  lemma Reassociate(x: Text, y: Text, z: Text)
    ensures x + (y + z) == x + y + z
  {
  }

  /** A reference stands for the variable's value, or for itself when there is none; an
      empty pair stands for one percent sign. */
  lemma ReferenceExpands(a: Text, name: Text, b: Text, env: Env)
    requires Even(a) && PERCENT !in name
    ensures Expand(a + ([PERCENT] + (name + [PERCENT] + b)), env) ==
              Expand(a, env)
              + (if name == [] then [PERCENT] else if name in env then env[name] else [PERCENT] + name + [PERCENT])
              + Expand(b, env)
  {
    ExpandConcat(a, [PERCENT] + (name + [PERCENT] + b), env);
    ExpandUnit(Reference(name, b), env);
  }

  /** Text without a percent sign is left alone. */
  lemma {:induction false} PlainTextStays(s: Text, env: Env)
    requires PERCENT !in s
    ensures Expand(s, env) == s
  {
    if s != [] {
      PlainTextStays(s[1..], env);
      ExpandUnit(Plain(s[0], s[1..]), env);
      assert s == [s[0]] + s[1..];
    }
  }

  /** An unclosed reference is copied as it stands. */
  lemma UnclosedTail(a: Text, name: Text, env: Env)
    requires Even(a) && PERCENT !in name
    ensures Expand(a + ([PERCENT] + name), env) == Expand(a, env) + [PERCENT] + name
  {
    ExpandConcat(a, [PERCENT] + name, env);
    ExpandUnit(Unclosed(name), env);
  }

  /** How many pairs of percent signs with nothing between them are scanned. */
  function EmptyPairs(s: Text): nat
    decreases |s|
  {
    if s == [] then 0 else
    match First(s)
    case Plain(_, rest) => EmptyPairs(rest)
    case Reference(name, rest) => (if name == [] then 1 else 0) + EmptyPairs(rest)
    case Unclosed(_) => 0
  }

  lemma EmptyPairsUnit(u: Unit)
    requires UnitOk(u)
    ensures EmptyPairs(Written(u)) == (if u.Reference? && u.name == [] then 1 else 0) + EmptyPairs(Rest(u))
  {
    FirstIsUnique(u);
  }

  lemma SamePrefix(p: Text, x: Text, y: Text)
    ensures p + x == p + y <==> x == y
  {
    if p + x == p + y {
      assert x == (p + x)[|p|..] && y == (p + y)[|p|..];
    }
  }

  lemma UnitWithoutVariables(u: Unit)
    requires UnitOk(u)
    ensures u.Reference? && u.name == [] ==> |Emitted(u, map[])| + 1 + |Rest(u)| == |Written(u)|
    ensures !(u.Reference? && u.name == []) ==> Emitted(u, map[]) + Rest(u) == Written(u)
  {}

  /** Without variables only empty pairs shrink, by one sign each; everything else,
      unknown names included, stays. */
  lemma {:induction false} ExpandWithoutVariables(s: Text)
    ensures |Expand(s, map[])| + EmptyPairs(s) == |s|
    ensures Expand(s, map[]) == s <==> EmptyPairs(s) == 0
    decreases |s|
  {
    if s != [] {
      var u := First(s);
      ExpandWithoutVariables(Rest(u));
      ExpandUnit(u, map[]);
      EmptyPairsUnit(u);
      UnitWithoutVariables(u);
      SamePrefix(Emitted(u, map[]), Expand(Rest(u), map[]), Rest(u));
    }
  }
}
