/** The PEM armour of a request (section 2 of RFC 7468) and its removal. */
module Pem {
  import opened Options
  import opened Bytes
  import opened Text
  import Base64

  const RETURN: Byte := 13
  const COLUMNS := 64

  function Begin(): Text { Ascii("-----BEGIN CERTIFICATE REQUEST-----") }
  function End(): Text { Ascii("-----END CERTIFICATE REQUEST-----") }
  function BeginNew(): Text { Ascii("-----BEGIN NEW CERTIFICATE REQUEST-----") }
  function EndNew(): Text { Ascii("-----END NEW CERTIFICATE REQUEST-----") }

  // ---------------------------------------------------------------------------
  // Printing
  // ---------------------------------------------------------------------------

  /** Lines of 64 columns; only the last may be shorter. */
  function Chunks(b: Text): seq<Text> {
    if b == [] then [] else if |b| <= COLUMNS then [b] else [b[..COLUMNS]] + Chunks(b[COLUMNS..])
  }

  function Unlines(lines: seq<Text>): Text {
    if lines == [] then [] else lines[0] + [NEWLINE] + Unlines(lines[1..])
  }

  function PemText(b: Text): Text { Begin() + [NEWLINE] + Unlines(Chunks(b)) + End() }

  /** The lines have the widths the format asks for and hold the whole body. */
  lemma {:induction false} ChunkWidths(b: Text)
    ensures Flatten(Chunks(b)) == b
    ensures forall i :: 0 <= i < |Chunks(b)| ==> 0 < |Chunks(b)[i]| <= 64
    ensures forall i :: 0 <= i < |Chunks(b)| - 1 ==> |Chunks(b)[i]| == 64
  {
    if |b| > COLUMNS {
      ChunkWidths(b[COLUMNS..]);
      FlattenCons(b[..COLUMNS], Chunks(b[COLUMNS..]));
      assert b == b[..COLUMNS] + b[COLUMNS..];
    } else if b != [] {
      FlattenCons(b, []);
      assert [b] + [] == [b] && b + [] == b;
    }
  }

  lemma {:induction false} ChunksAppend(a: Text, c: Text)
    requires |a| % COLUMNS == 0 && 0 < |c| <= COLUMNS
    ensures Chunks(a + c) == Chunks(a) + [c]
  {
    if a == [] {
      assert a + c == c;
    } else if |a| <= COLUMNS {
      assert |a| == COLUMNS;
      assert (a + c)[..COLUMNS] == a && (a + c)[COLUMNS..] == c;
    } else {
      ChunksAppend(a[COLUMNS..], c);
      assert (a + c)[..COLUMNS] == a[..COLUMNS] && (a + c)[COLUMNS..] == a[COLUMNS..] + c;
      assert [a[..COLUMNS]] + (Chunks(a[COLUMNS..]) + [c]) == [a[..COLUMNS]] + Chunks(a[COLUMNS..]) + [c];
    }
  }

  lemma {:induction false} UnlinesAppend(lines: seq<Text>, c: Text)
    ensures Unlines(lines + [c]) == Unlines(lines) + c + [NEWLINE]
  {
    if lines == [] {
      assert lines + [c] == [c];
      assert [c][1..] == [];
    } else {
      UnlinesAppend(lines[1..], c);
      assert (lines + [c])[1..] == lines[1..] + [c];
    }
  }

  lemma FullLine(b: Text, k: nat, i: nat)
    requires k % COLUMNS == 0 && k < i <= k + COLUMNS && i <= |b|
    ensures Unlines(Chunks(b[..i])) == Unlines(Chunks(b[..k])) + b[k..i] + [NEWLINE]
  {
    assert b[..i] == b[..k] + b[k..i];
    ChunksAppend(b[..k], b[k..i]);
    UnlinesAppend(Chunks(b[..k]), b[k..i]);
  }

  lemma NextLine(b: Text, k: nat, i: nat, header: Text, done: Text) returns (next: Text)
    requires k % COLUMNS == 0 && k < i <= k + COLUMNS && i <= |b|
    requires done == header + Unlines(Chunks(b[..k]))
    ensures next == header + Unlines(Chunks(b[..i])) && next == done + b[k..i] + [NEWLINE]
    ensures next != [] && next[|next| - 1] == NEWLINE
  {
    FullLine(b, k, i);
    next := done + b[k..i] + [NEWLINE];
  }

  lemma EndsLine(done: Text, rest: Text)
    requires done != [] && done[|done| - 1] == NEWLINE && NEWLINE !in rest
    ensures (done + rest)[|done + rest| - 1] == NEWLINE <==> rest == []
  {
    if rest != [] { assert (done + rest)[|done + rest| - 1] == rest[|rest| - 1]; }
  }

  /** The character loop of `CreatePKCS10`: a break after every 64th character, and
      one more at the end unless the text already ends with one. */
  method PrintPem(b: Text) returns (pem: Text)
    requires NEWLINE !in b
    ensures pem == PemText(b)
  {
    var header := Begin() + [NEWLINE];
    pem := header;
    ghost var k, done := 0, header;    // whole lines so far
    for i := 0 to |b|
      invariant 0 <= k <= i < k + COLUMNS && k % COLUMNS == 0
      invariant done != [] && done[|done| - 1] == NEWLINE
      invariant done == header + Unlines(Chunks(b[..k]))
      invariant pem == done + b[k..i]
    {
      assert b[k..i] + [b[i]] == b[k..i + 1];
      pem := pem + [b[i]];
      if (i + 1) % 64 == 0 {
        done := NextLine(b, k, i + 1, header, done);
        pem := pem + [NEWLINE];
        k := i + 1;
      }
    }
    EndsLine(done, b[k..]);
    if pem[|pem| - 1] != NEWLINE {
      done := NextLine(b, k, |b|, header, done);
      pem := pem + [NEWLINE];
    }
    assert b[..|b|] == b;
    pem := pem + End();
  }

  // ---------------------------------------------------------------------------
  // Stripping
  // ---------------------------------------------------------------------------

  /** `str::replace(pattern, "")`: every occurrence, left to right. */
  function RemoveAll(s: Text, pattern: Text): Text
    requires pattern != []
    decreases |s|
  {
    if s == [] then []
    else if pattern <= s then RemoveAll(s[|pattern|..], pattern)
    else [s[0]] + RemoveAll(s[1..], pattern)
  }

  function StripPem(s: Text): Text {
    var a := RemoveAll(s, Begin());
    var b := RemoveAll(a, End());
    var c := RemoveAll(b, BeginNew());
    var d := RemoveAll(c, EndNew());
    RemoveAll(RemoveAll(d, [NEWLINE]), [RETURN])
  }

  lemma {:induction false} RemoveSkips(a: Text, s: Text, pattern: Text)
    requires pattern != [] && pattern[0] !in a
    ensures RemoveAll(a + s, pattern) == a + RemoveAll(s, pattern)
  {
    if a == [] {
      assert a + s == s;
    } else {
      assert (a + s)[0] == a[0] && (a + s)[1..] == a[1..] + s;
      RemoveSkips(a[1..], s, pattern);
    }
  }

  lemma RemoveNothing(a: Text, pattern: Text)
    requires pattern != [] && pattern[0] !in a
    ensures RemoveAll(a, pattern) == a
  {
    RemoveSkips(a, [], pattern);
    assert a + [] == a;
  }

  lemma {:induction false} RemoveShort(s: Text, pattern: Text)
    requires |s| < |pattern|
    ensures RemoveAll(s, pattern) == s
  {
    if s != [] { RemoveShort(s[1..], pattern); }
  }

  lemma RemoveHead(pattern: Text, s: Text)
    requires pattern != []
    ensures RemoveAll(pattern + s, pattern) == RemoveAll(s, pattern)
  {
    assert (pattern + s)[|pattern|..] == s;
  }

  lemma {:induction false} RemoveBreaks(lines: seq<Text>)
    requires forall i :: 0 <= i < |lines| ==> NEWLINE !in lines[i]
    ensures RemoveAll(Unlines(lines), [NEWLINE]) == Flatten(lines)
  {
    if lines != [] {
      RemoveBreaks(lines[1..]);
      var rest := Unlines(lines[1..]);
      assert Unlines(lines) == lines[0] + ([NEWLINE] + rest);
      RemoveSkips(lines[0], [NEWLINE] + rest, [NEWLINE]);
      RemoveHead([NEWLINE], rest);
      FlattenCons(lines[0], lines[1..]);
      assert lines == [lines[0]] + lines[1..];
    }
  }

  lemma {:induction false} ChunksKeepAbsent(b: Text, x: Byte)
    requires x !in b
    ensures forall i :: 0 <= i < |Chunks(b)| ==> x !in Chunks(b)[i]
    ensures x != NEWLINE ==> x !in Unlines(Chunks(b))
  {
    if |b| > COLUMNS {
      ChunksKeepAbsent(b[COLUMNS..], x);
      assert Chunks(b)[1..] == Chunks(b[COLUMNS..]);
    } else if b != [] {
      assert Chunks(b)[1..] == [];
    }
  }

  lemma MarkersStartWithDash()
    ensures Begin()[0] == DASH && End()[0] == DASH && BeginNew()[0] == DASH && EndNew()[0] == DASH
    ensures |Begin()| == 35 && |End()| == 33
  {
  }

  /** Stripping a printed request gives back its body, for every body without line
      breaks and dashes, base64 in particular. */
  lemma StripUndoesPrint(b: Text)
    requires DASH !in b && NEWLINE !in b && RETURN !in b
    ensures StripPem(PemText(b)) == b
  {
    MarkersStartWithDash();
    ChunksKeepAbsent(b, DASH);
    ChunksKeepAbsent(b, NEWLINE);
    ChunkWidths(b);
    var lines := Unlines(Chunks(b));
    var middle := [NEWLINE] + lines;
    assert PemText(b) == Begin() + (middle + End());
    RemoveHead(Begin(), middle + End());
    RemoveSkips(middle, End(), Begin());
    RemoveShort(End(), Begin());
    RemoveSkips(middle, End(), End());
    RemoveHead(End(), []);
    assert End() + [] == End() && middle + [] == middle;
    RemoveNothing(middle, BeginNew());
    RemoveNothing(middle, EndNew());
    RemoveHead([NEWLINE], lines);
    RemoveBreaks(Chunks(b));
    RemoveNothing(b, [RETURN]);
  }

  /** A request printed by one handler is decoded whole by the other. */
  lemma RequestRoundTrip(csr: seq<Byte>)
    ensures Base64.Decode(StripPem(PemText(Base64.Encode(csr)))) == Some(csr)
  {
    var b := Base64.Encode(csr);
    Base64.EncodeIsSymbols(csr);
    assert !Base64.IsSymbol(DASH) && !Base64.IsSymbol(NEWLINE) && !Base64.IsSymbol(RETURN);
    StripUndoesPrint(b);
    Base64.RoundTrip(csr);
  }
}
