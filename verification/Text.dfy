/** The string operations the service uses, on byte strings: `split`, `splitn`,
    `split_once`, `trim` (ASCII white space) and joining. */
module Text {
  import opened Options
  import opened Bytes

  type Text = seq<Byte>

  /** The bytes of an ASCII literal. */
  function Ascii(s: string): (t: Text)
    ensures |t| == |s|
  {
    seq(|s|, i requires 0 <= i < |s| => s[i] as int % 256)
  }

  /** Position of the first `b`, or the length when there is none. */
  function IndexOf(s: Text, b: Byte): (i: nat)
    ensures i <= |s| && b !in s[..i] && (i < |s| ==> s[i] == b)
  {
    if s == [] then 0 else if s[0] == b then 0 else
    var i := IndexOf(s[1..], b) + 1;
    assert s[..i] == [s[0]] + s[1..][..i - 1];
    i
  }

  lemma IndexOfConcat(a: Text, b: Byte, rest: Text)
    requires b !in a
    ensures IndexOf(a + [b] + rest, b) == |a|
  {
    var i := IndexOf(a + [b] + rest, b);
    assert (a + [b] + rest)[|a|] == b;
  }

  lemma IndexOfAbsent(s: Text, b: Byte)
    requires b !in s
    ensures IndexOf(s, b) == |s|
  {
  }

  function SplitOnce(s: Text, b: Byte): Option<(Text, Text)> {
    var i := IndexOf(s, b);
    if i == |s| then None else Some((s[..i], s[i + 1..]))
  }

  function Split(s: Text, b: Byte): (parts: seq<Text>)
    ensures parts != []
    decreases |s|
  {
    var i := IndexOf(s, b);
    if i == |s| then [s] else [s[..i]] + Split(s[i + 1..], b)
  }

  /** At most `n` parts; the last one keeps the rest, separators included. */
  function SplitN(s: Text, n: nat, b: Byte): (parts: seq<Text>)
    requires n > 0
    ensures 1 <= |parts| <= n
  {
    var i := IndexOf(s, b);
    if n == 1 || i == |s| then [s] else [s[..i]] + SplitN(s[i + 1..], n - 1, b)
  }

  lemma SplitStep(a: Text, b: Byte, rest: Text)
    requires b !in a
    ensures Split(a, b) == [a]
    ensures Split(a + [b] + rest, b) == [a] + Split(rest, b)
  {
    var s := a + [b] + rest;
    IndexOfAbsent(a, b);
    IndexOfConcat(a, b, rest);
    assert s[..|a|] == a && s[|a| + 1..] == rest;
  }

  lemma Regroup(head: Text, x: seq<Text>, y: seq<Text>)
    ensures [head] + (x + y) == [head] + x + y
  {}

  lemma {:induction false} SplitConcat(a: Text, b: Byte, rest: Text)
    ensures Split(a + [b] + rest, b) == Split(a, b) + Split(rest, b)
    decreases |a|
  {
    var i := IndexOf(a, b);
    if i == |a| {
      assert a[..i] == a;
      SplitStep(a, b, rest);
    } else {
      var head, tail := a[..i], a[i + 1..];
      assert a == head + [b] + tail;
      assert a + [b] + rest == head + [b] + (tail + [b] + rest);
      SplitStep(head, b, tail);
      SplitStep(head, b, tail + [b] + rest);
      SplitConcat(tail, b, rest);
      Regroup(head, Split(tail, b), Split(rest, b));
    }
  }

  lemma SplitNStep(a: Text, n: nat, b: Byte, rest: Text)
    requires n > 1 && b !in a
    ensures SplitN(a + [b] + rest, n, b) == [a] + SplitN(rest, n - 1, b)
  {
    IndexOfConcat(a, b, rest);
    var s := a + [b] + rest;
    assert s[..|a|] == a && s[|a| + 1..] == rest;
  }

  // ---- trimming ---------------------------------------------------------------

  predicate IsSpace(b: Byte) { b == 32 || 9 <= b <= 13 }

  function TrimStart(s: Text): (t: Text)
    ensures t != [] ==> !IsSpace(t[0])
  {
    if s != [] && IsSpace(s[0]) then TrimStart(s[1..]) else s
  }

  function TrimEnd(s: Text): (t: Text)
    ensures t != [] ==> !IsSpace(t[|t| - 1])
  {
    if s != [] && IsSpace(s[|s| - 1]) then TrimEnd(s[..|s| - 1]) else s
  }

  function Trim(s: Text): Text { TrimEnd(TrimStart(s)) }

  lemma {:induction false} TrimStartKeepsAbsent(s: Text, b: Byte)
    requires b !in s
    ensures b !in TrimStart(s)
  {
    if s != [] && IsSpace(s[0]) { TrimStartKeepsAbsent(s[1..], b); }
  }

  lemma {:induction false} TrimStartConcat(a: Text, c: Byte, b: Text)
    requires !IsSpace(c)
    ensures TrimStart(a + [c] + b) == TrimStart(a) + [c] + b
  {
    if a != [] && IsSpace(a[0]) {
      assert (a + [c] + b)[1..] == a[1..] + [c] + b;
      TrimStartConcat(a[1..], c, b);
    } else if a == [] {
      assert a + [c] + b == [c] + b;
    }
  }

  lemma {:induction false} TrimEndConcat(a: Text, c: Byte, b: Text)
    requires !IsSpace(c)
    ensures TrimEnd(a + [c] + b) == a + [c] + TrimEnd(b)
  {
    var s := a + [c] + b;
    if b != [] && IsSpace(b[|b| - 1]) {
      assert s[..|s| - 1] == a + [c] + b[..|b| - 1];
      TrimEndConcat(a, c, b[..|b| - 1]);
    } else if b == [] {
      assert s == a + [c];
    }
  }

  /** The two ends are trimmed independently. */
  lemma {:induction false} TrimCommutes(s: Text)
    ensures TrimEnd(TrimStart(s)) == TrimStart(TrimEnd(s))
  {
    if s == [] || !IsSpace(s[0]) {
      if s != [] {
        assert s == [] + [s[0]] + s[1..];
        TrimEndConcat([], s[0], s[1..]);
      }
    } else {
      TrimCommutes(s[1..]);
      TrimEndOfSpace(s);
    }
  }

  lemma {:induction false} TrimEndOfSpace(s: Text)
    requires s != [] && IsSpace(s[0])
    ensures TrimStart(TrimEnd(s)) == TrimStart(TrimEnd(s[1..]))
  {
    if IsSpace(s[|s| - 1]) {
      if |s| > 1 {
        TrimEndOfSpace(s[..|s| - 1]);
        assert s[..|s| - 1][1..] == s[1..][..|s| - 2];
      }
    } else {
      assert TrimEnd(s) == s && TrimEnd(s[1..]) == s[1..];
    }
  }

  /** Trimming the whole of `k=v` first changes nothing once both sides are trimmed. */
  lemma TrimAround(k: Text, c: Byte, v: Text)
    requires !IsSpace(c)
    ensures Trim(k + [c] + v) == TrimStart(k) + [c] + TrimEnd(v)
    ensures Trim(TrimStart(k)) == Trim(k) && Trim(TrimEnd(v)) == Trim(v)
  {
    TrimStartConcat(k, c, v);
    TrimEndConcat(TrimStart(k), c, v);
    TrimCommutes(v);
    TrimCommutes(TrimEnd(v));
  }
}
