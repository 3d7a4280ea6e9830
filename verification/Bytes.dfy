/** Byte strings and their big-endian values. */
module Bytes {
  type Byte = n: int | 0 <= n < 256

  function Value(s: seq<Byte>): nat {
    if s == [] then 0 else Value(s[..|s| - 1]) * 256 + s[|s| - 1]
  }

  /** The big-endian base-256 digits of a number, none for zero. */
  function Digits(v: nat): (d: seq<Byte>)
    ensures Value(d) == v
    ensures d != [] ==> d[0] != 0
  {
    if v == 0 then [] else
    var d := Digits(v / 256) + [v % 256];
    assert d[..|d| - 1] == Digits(v / 256);
    d
  }

  lemma {:induction false} LeadingZero(s: seq<Byte>)
    ensures Value([0] + s) == Value(s)
  {
    if s != [] {
      LeadingZero(s[..|s| - 1]);
      assert ([0] + s)[..|s|] == [0] + s[..|s| - 1];
    }
  }

  lemma {:induction false} LeadingZeros(s: seq<Byte>, k: nat)
    requires k <= |s| && forall i :: 0 <= i < k ==> s[i] == 0
    ensures Value(s[k..]) == Value(s)
  {
    if k == 0 {
      assert s[0..] == s;
    } else {
      LeadingZeros(s, k - 1);
      assert s[k - 1..] == [0] + s[k..];
      LeadingZero(s[k..]);
    }
  }

  /** Without a leading zero, the digits are determined by the value. */
  lemma {:induction false} DigitsOfValue(s: seq<Byte>)
    requires s != [] ==> s[0] != 0
    ensures Digits(Value(s)) == s
  {
    if s != [] {
      var front := s[..|s| - 1];
      DigitsOfValue(front);
      assert Value(s) / 256 == Value(front) && Value(s) % 256 == s[|s| - 1];
      if front == [] { assert s == [s[0]]; } else { assert Value(front) != 0; }
      assert s == front + [s[|s| - 1]];
    }
  }

  /** Appending `b` shifts the value of the front by one byte per byte of `b`. */
  lemma {:induction false} ValueZeroFront(a: seq<Byte>, b: seq<Byte>)
    ensures Value(a + b) == Value(b) <==> forall i :: 0 <= i < |a| ==> a[i] == 0
  {
    ValueConcat(a, b);
    PowPositive(|b|);
    if forall i :: 0 <= i < |a| ==> a[i] == 0 {
      LeadingZeros(a + b, |a|);
      assert (a + b)[|a|..] == b;
    } else {
      NonzeroValue(a);
      assert Value(a) * Pow256(|b|) > 0;
    }
  }

  function Pow256(n: nat): nat { if n == 0 then 1 else 256 * Pow256(n - 1) }

  lemma {:induction false} PowPositive(n: nat)
    ensures Pow256(n) > 0
  {
    if n > 0 { PowPositive(n - 1); }
  }

  lemma {:induction false} ValueConcat(a: seq<Byte>, b: seq<Byte>)
    ensures Value(a + b) == Value(a) * Pow256(|b|) + Value(b)
  {
    if b == [] {
      assert a + b == a;
    } else {
      var front := b[..|b| - 1];
      ValueConcat(a, front);
      assert (a + b)[..|a + b| - 1] == a + front;
      assert Value(a + b) == (Value(a) * Pow256(|front|) + Value(front)) * 256 + b[|b| - 1];
      assert Value(a) * Pow256(|b|) == Value(a) * Pow256(|front|) * 256;
    }
  }

  lemma {:induction false} NonzeroValue(s: seq<Byte>)
    requires exists i :: 0 <= i < |s| && s[i] != 0
    ensures Value(s) > 0
  {
    if s[|s| - 1] == 0 {
      var i :| 0 <= i < |s| && s[i] != 0;
      assert s[..|s| - 1][i] != 0;
      NonzeroValue(s[..|s| - 1]);
    }
  }

  // The ASCII codes more than one format uses.
  const NEWLINE: Byte := 10
  const DASH: Byte := 45

  /** Concatenate a list of byte strings. */
  function Flatten(parts: seq<seq<Byte>>): seq<Byte> {
    if parts == [] then [] else Flatten(parts[..|parts| - 1]) + parts[|parts| - 1]
  }

  lemma FlattenAppend(parts: seq<seq<Byte>>, last: seq<Byte>)
    ensures Flatten(parts + [last]) == Flatten(parts) + last
  {
    assert (parts + [last])[..|parts|] == parts;
  }

  lemma {:induction false} FlattenCons(first: seq<Byte>, parts: seq<seq<Byte>>)
    ensures Flatten([first] + parts) == first + Flatten(parts)
  {
    if parts == [] {
      FlattenAppend([], first);
      assert [first] + parts == [] + [first];
    } else {
      var front, last := parts[..|parts| - 1], parts[|parts| - 1];
      assert [first] + parts == ([first] + front) + [last];
      assert parts == front + [last];
      FlattenCons(first, front);
      FlattenAppend([first] + front, last);
    }
  }
}
