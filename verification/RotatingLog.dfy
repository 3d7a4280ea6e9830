/**
 The size-rotated log, on a directory that never fails.  A file is the list of the
 records written to it; one record is one line with its line feed, or whatever an
 existing file held when it was opened.
 */
module RotatingLog {
  import opened Options
  import opened Bytes
  import opened Collections

  datatype Name = Active | Numbered(i: nat)

  type Record = seq<Byte>
  type Files = map<Name, seq<Record>>

  function Size(records: seq<Record>): nat {
    if records == [] then 0 else Size(records[..|records| - 1]) + |records[|records| - 1]|
  }

  lemma SizeAppend(records: seq<Record>, r: Record)
    ensures Size(records + [r]) == Size(records) + |r|
  {
    assert (records + [r])[..|records|] == records;
  }

  function Lookup(files: Files, n: Name): Option<seq<Record>> {
    if n in files then Some(files[n]) else None
  }

  // ---------------------------------------------------------------------------
  // What one rotation does to the directory
  // ---------------------------------------------------------------------------

  /** Where the content found under `n` after a rotation comes from. */
  function AfterRotation(files: Files, keep: nat, n: Name): Option<seq<Record>> {
    match n
    case Active => Some([])
    case Numbered(i) =>
      if i == 1 then Lookup(files, Active)
      else if 2 <= i <= keep then Lookup(files, Numbered(i - 1))
      else if i == 0 && keep == 0 then None
      else Lookup(files, n)
  }

  /** What the shifting loop has done when files above `.i` were moved. */
  function DuringRotation(files: Files, keep: nat, i: int, n: Name): Option<seq<Record>> {
    match n
    case Active => Lookup(files, n)
    case Numbered(j) =>
      if i + 2 <= j <= keep && j >= 2 then Lookup(files, Numbered(j - 1))
      else if j <= keep && j == i + 1 then None
      else Lookup(files, n)
  }

  function Renamed(files: Files, from: Name, to: Name): Files {
    if from in files then files[to := files[from]] - {from} else files
  }

  lemma ShiftOne(original: Files, files: Files, keep: nat, i: nat, n: Name)
    requires 1 <= i < keep
    requires forall m: Name :: Lookup(files, m) == DuringRotation(original, keep, i, m)
    ensures Lookup(Renamed(files, Numbered(i), Numbered(i + 1)), n) == DuringRotation(original, keep, i - 1, n)
  {
    assert Lookup(files, n) == DuringRotation(original, keep, i, n);
    assert Lookup(files, Numbered(i)) == DuringRotation(original, keep, i, Numbered(i));
    assert Lookup(files, Numbered(i + 1)) == DuringRotation(original, keep, i, Numbered(i + 1));
  }

  function NamesUpTo(n: nat): set<Name> {
    if n == 0 then {Active} else NamesUpTo(n - 1) + {Numbered(n)}
  }

  function Rotated(files: Files, keep: nat): Files {
    map n | n in files.Keys + NamesUpTo(keep + 1) && AfterRotation(files, keep, n).Some?
      :: AfterRotation(files, keep, n).value
  }

  lemma {:induction false} InNamesUpTo(k: nat, n: Name)
    ensures n in NamesUpTo(k) <==> n == Active || (n.Numbered? && 1 <= n.i <= k)
  {
    if k > 0 { InNamesUpTo(k - 1, n); }
  }

  lemma {:induction false} NamesUpToCount(k: nat)
    ensures |NamesUpTo(k)| == k + 1
  {
    if k > 0 {
      NamesUpToCount(k - 1);
      InNamesUpTo(k - 1, Numbered(k));
    }
  }

  lemma RotatedLookup(files: Files, keep: nat, n: Name)
    ensures Lookup(Rotated(files, keep), n) == AfterRotation(files, keep, n)
  {
    InNamesUpTo(keep + 1, n);
  }

  // ---------------------------------------------------------------------------
  // What is retained
  // ---------------------------------------------------------------------------

  function Content(files: Files, n: Name): seq<Record> { if n in files then files[n] else [] }

  /** The numbered files from `.k` down to `.1`, oldest records first. */
  function Stack(files: Files, k: nat): seq<Record> {
    if k == 0 then [] else Content(files, Numbered(k)) + Stack(files, k - 1)
  }

  function Retained(files: Files, keep: nat): seq<Record> { Stack(files, keep) + Content(files, Active) }

  ghost predicate IsSuffix(s: seq<Record>, whole: seq<Record>) {
    |s| <= |whole| && s == whole[|whole| - |s|..]
  }

  lemma {:induction false} StackRotated(files: Files, keep: nat, k: nat)
    requires 1 <= k <= keep
    ensures Stack(Rotated(files, keep), k) == Stack(files, k - 1) + Content(files, Active)
  {
    RotatedLookup(files, keep, Numbered(k));
    if k > 1 {
      StackRotated(files, keep, k - 1);
      assert Content(Rotated(files, keep), Numbered(k)) == Content(files, Numbered(k - 1));
    } else {
      assert Stack(Rotated(files, keep), 0) == [];
    }
  }

  /** A rotation forgets exactly the oldest numbered file. */
  lemma RotationDropsOldest(files: Files, keep: nat)
    requires keep >= 1
    ensures Retained(files, keep) == Content(files, Numbered(keep)) + Retained(Rotated(files, keep), keep)
  {
    StackRotated(files, keep, keep);
    RotatedLookup(files, keep, Active);
    var rest := Stack(files, keep - 1) + Content(files, Active);
    assert Retained(Rotated(files, keep), keep) == rest + [];
  }

  /** The directory stays within the active file and `keep` numbered ones exactly
      when `keep` is at least one; with zero a rotation leaves a stray `.1`. */
  lemma {:induction false} RotationBoundsFiles(files: Files, keep: nat)
    requires Active in files && files.Keys <= NamesUpTo(keep)
    ensures Rotated(files, keep).Keys <= NamesUpTo(keep) <==> keep >= 1
  {
    var after := Rotated(files, keep);
    RotatedLookup(files, keep, Numbered(1));
    InNamesUpTo(keep, Numbered(1));
    if keep >= 1 {
      forall n | n in after ensures n in NamesUpTo(keep) {
        RotatedLookup(files, keep, n);
        InNamesUpTo(keep, n);
      }
    } else {
      assert Numbered(1) in after;
    }
  }

  lemma {:induction false} StackAfterWrite(files: Files, records: seq<Record>, k: nat)
    ensures Stack(files[Active := records], k) == Stack(files, k)
  {
    if k > 0 { StackAfterWrite(files, records, k - 1); }
  }

  /** The directory once the active file was opened or created. */
  function Opened(directory: Files): Files {
    if Active in directory then directory else directory[Active := []]
  }

  /** The files a line is written into: rotated when it would not fit. */
  function BaseFor(files: Files, maxBytes: nat, keep: nat, line: seq<Byte>): (base: Files)
    requires Active in files
    ensures Active in base
    ensures || (base == files && Size(base[Active]) + |line| + 1 <= maxBytes)
            || (base == Rotated(files, keep) && base[Active] == [])
  {
    RotatedLookup(files, keep, Active);
    if Size(files[Active]) + |line| + 1 > maxBytes then Rotated(files, keep) else files
  }

  function AfterLog(files: Files, maxBytes: nat, keep: nat, line: seq<Byte>): (after: Files)
    requires Active in files
    ensures Active in after
  {
    var base := BaseFor(files, maxBytes, keep, line);
    base[Active := base[Active] + [line + [NEWLINE]]]
  }

  function AfterAll(files: Files, maxBytes: nat, keep: nat, lines: seq<seq<Byte>>): (after: Files)
    requires Active in files
    ensures Active in after
  {
    if lines == [] then files
    else AfterLog(AfterAll(files, maxBytes, keep, lines[..|lines| - 1]), maxBytes, keep, lines[|lines| - 1])
  }

  // ---------------------------------------------------------------------------
  // The logger
  // ---------------------------------------------------------------------------

  class RotatingFileLogger {
    const maxBytes: nat
    const keep: nat
    var files: Files
    var written: nat

    ghost predicate Valid()
      reads this
    {
      Active in files && written == Size(files[Active])
    }

    /** Open or create the active file and continue its size count. */
    constructor (directory: Files, maxBytes: nat, keep: nat)
      ensures Valid() && this.maxBytes == maxBytes && this.keep == keep
      ensures files == Opened(directory)
    {
      this.maxBytes := maxBytes;
      this.keep := keep;
      var found := Opened(directory);
      this.files := found;
      new;
      written := MeasureSize(found[Active]);
    }

    method RenameIfExists(from: Name, to: Name)
      requires from != to
      modifies this`files
      ensures files == Renamed(old(files), from, to)
    {
      if from in files {
        files := files[to := files[from]] - {from};
      }
    }

    /** Remove `.keep`, shift the others up from the highest, move the active file to
        `.1`, and open a new one. */
    method Rotate()
      requires Valid()
      modifies this
      ensures Valid() && written == 0
      ensures files == Rotated(old(files), keep)
    {
      files := files - {Numbered(keep)};
      var i := keep - 1;
      while i >= 1
        invariant i <= keep - 1 && i >= (if keep >= 1 then 0 else -1)
        invariant keep >= 1 ==> Numbered(i + 1) !in files
        invariant forall n: Name :: Lookup(files, n) == DuringRotation(old(files), keep, i, n)
        decreases i
      {
        ghost var before := files;
        RenameIfExists(Numbered(i), Numbered(i + 1));
        forall n: Name ensures Lookup(files, n) == DuringRotation(old(files), keep, i - 1, n) {
          ShiftOne(old(files), before, keep, i, n);
        }
        i := i - 1;
      }
      ghost var shifted := files;
      RenameIfExists(Active, Numbered(1));
      files := files[Active := []];
      written := 0;
      forall n: Name ensures Lookup(files, n) == Lookup(Rotated(old(files), keep), n) {
        RotatedLookup(old(files), keep, n);
        assert Lookup(shifted, n) == DuringRotation(old(files), keep, i, n);
        assert Lookup(shifted, Active) == DuringRotation(old(files), keep, i, Active);
      }
      SameFiles(files, Rotated(old(files), keep));
    }

    /** Write one line, rotating first when it would not fit. */
    method Log(line: seq<Byte>)
      requires Valid()
      modifies this
      ensures Valid()
      ensures files == AfterLog(old(files), maxBytes, keep, line)
    {
      if written + |line| + 1 > maxBytes {
        RotatedLookup(files, keep, Active);
        Rotate();
      }
      SizeAppend(files[Active], line + [NEWLINE]);
      files := files[Active := files[Active] + [line + [NEWLINE]]];
      written := written + |line| + 1;
    }
  }

  lemma SameFiles(a: Files, b: Files)
    requires forall n: Name :: Lookup(a, n) == Lookup(b, n)
    ensures a == b
  {
    forall n: Name ensures n in a <==> n in b { assert Lookup(a, n) == Lookup(b, n); }
    forall n: Name | n in a ensures a[n] == b[n] { assert Lookup(a, n) == Lookup(b, n); }
  }

  /** The length the operating system reports for an opened file. */
  method MeasureSize(records: seq<Record>) returns (n: nat)
    ensures n == Size(records)
  {
    n := 0;
    for i := 0 to |records|
      invariant n == Size(records[..i])
    {
      assert records[..i + 1][..i] == records[..i];
      n := n + |records[i]|;
    }
    assert records[..|records|] == records;
  }

  // ---------------------------------------------------------------------------
  // Any number of calls
  // ---------------------------------------------------------------------------

  function Logged(lines: seq<seq<Byte>>): seq<Record> {
    seq(|lines|, i requires 0 <= i < |lines| => lines[i] + [NEWLINE])
  }

  function Max(a: nat, b: nat): nat { if a > b then a else b }

  /** With no numbered files to shift, a rotation forgets the active one. */
  lemma RotationKeepsSuffix(files: Files, keep: nat)
    ensures IsSuffix(Retained(Rotated(files, keep), keep), Retained(files, keep))
  {
    if keep >= 1 { RotationDropsOldest(files, keep); } else { RotatedLookup(files, keep, Active); }
  }

  lemma SuffixAfterLog(before: Files, base: Files, whole: seq<Record>, r: Record, keep: nat)
    requires Active in base && (base == before || base == Rotated(before, keep))
    requires IsSuffix(Retained(before, keep), whole)
    ensures IsSuffix(Retained(base[Active := base[Active] + [r]], keep), whole + [r])
  {
    RotationKeepsSuffix(before, keep);
    assert IsSuffix(Retained(base, keep), whole);
    StackAfterWrite(base, base[Active] + [r], keep);
    assert Retained(base[Active := base[Active] + [r]], keep) == Retained(base, keep) + [r];
  }

  lemma OneMoreLine(before: Files, base: Files, whole: seq<Record>, line: seq<Byte>, keep: nat)
    requires Active in before && Active in base && (base == before || base == Rotated(before, keep))
    requires IsSuffix(Retained(before, keep), whole)
    ensures var after := base[Active := base[Active] + [line + [NEWLINE]]];
            && IsSuffix(Retained(after, keep), whole + [line + [NEWLINE]])
            && Size(after[Active]) == Size(base[Active]) + |line| + 1
            && (keep >= 1 && before.Keys <= NamesUpTo(keep) ==> after.Keys <= NamesUpTo(keep))
  {
    SuffixAfterLog(before, base, whole, line + [NEWLINE], keep);
    SizeAppend(base[Active], line + [NEWLINE]);
    if before.Keys <= NamesUpTo(keep) {
      RotationBoundsFiles(before, keep);
      InNamesUpTo(keep, Active);
    }
  }

  /** What holds of the directory after `lines` were logged. */
  ghost predicate WellKept(directory: Files, files: Files, maxBytes: nat, keep: nat, lines: seq<seq<Byte>>) {
    && IsSuffix(Retained(files, keep), Retained(directory, keep) + Logged(lines))
    && (keep >= 1 && directory.Keys <= NamesUpTo(keep) ==> files.Keys <= NamesUpTo(keep) && |files| <= keep + 1)
    && Active in files
    && (lines != [] ==>
          && files[Active] != []
          && files[Active][|files[Active]| - 1] == lines[|lines| - 1] + [NEWLINE]
          && Size(files[Active]) <= Max(maxBytes, |lines[|lines| - 1]| + 1))
  }

  lemma WellKeptAtStart(directory: Files, files: Files, maxBytes: nat, keep: nat)
    requires files == Opened(directory)
    ensures WellKept(directory, files, maxBytes, keep, [])
  {
    StackAfterWrite(directory, [], keep);
    assert Retained(files, keep) == Retained(directory, keep);
    assert Retained(directory, keep) + Logged([]) == Retained(directory, keep);
    InNamesUpTo(keep, Active);
    if files.Keys <= NamesUpTo(keep) { FewFiles(files, keep); }
  }

  lemma WellKeptNext(directory: Files, before: Files, base: Files, maxBytes: nat, keep: nat,
                     lines: seq<seq<Byte>>, line: seq<Byte>)
    requires WellKept(directory, before, maxBytes, keep, lines)
    requires Active in base
    requires (base == before && Size(base[Active]) + |line| + 1 <= maxBytes)
          || (base == Rotated(before, keep) && base[Active] == [])
    ensures WellKept(directory, base[Active := base[Active] + [line + [NEWLINE]]], maxBytes, keep, lines + [line])
  {
    var after := base[Active := base[Active] + [line + [NEWLINE]]];
    OneMoreLine(before, base, Retained(directory, keep) + Logged(lines), line, keep);
    LoggedAppend(Retained(directory, keep), lines, line);
    if after.Keys <= NamesUpTo(keep) { FewFiles(after, keep); }
    assert (lines + [line])[|lines + [line]| - 1] == line;
    assert after[Active] == base[Active] + [line + [NEWLINE]];
  }

  lemma LoggedAppend(found: seq<Record>, lines: seq<seq<Byte>>, line: seq<Byte>)
    ensures found + Logged(lines + [line]) == found + Logged(lines) + [line + [NEWLINE]]
  {
    assert Logged(lines + [line]) == Logged(lines) + [line + [NEWLINE]];
  }

  lemma AfterAllAppend(files: Files, maxBytes: nat, keep: nat, lines: seq<seq<Byte>>, line: seq<Byte>)
    requires Active in files
    ensures AfterAll(files, maxBytes, keep, lines + [line])
            == AfterLog(AfterAll(files, maxBytes, keep, lines), maxBytes, keep, line)
  {
    assert (lines + [line])[..|lines|] == lines;
  }

  lemma WellKeptOneMore(directory: Files, maxBytes: nat, keep: nat, lines: seq<seq<Byte>>, line: seq<Byte>)
    requires WellKept(directory, AfterAll(Opened(directory), maxBytes, keep, lines), maxBytes, keep, lines)
    ensures WellKept(directory, AfterAll(Opened(directory), maxBytes, keep, lines + [line]),
                     maxBytes, keep, lines + [line])
  {
    var before := AfterAll(Opened(directory), maxBytes, keep, lines);
    AfterAllAppend(Opened(directory), maxBytes, keep, lines, line);
    WellKeptNext(directory, before, BaseFor(before, maxBytes, keep, line), maxBytes, keep, lines, line);
  }

  /** What the files hold, oldest first, is always the end of everything ever written;
      with `keep` at least one there are never more than `keep + 1` of them; and the
      active file is over the limit only by a line too long for any file. */
  lemma {:induction false} AlwaysWellKept(directory: Files, maxBytes: nat, keep: nat, lines: seq<seq<Byte>>)
    ensures WellKept(directory, AfterAll(Opened(directory), maxBytes, keep, lines), maxBytes, keep, lines)
  {
    if lines == [] {
      WellKeptAtStart(directory, Opened(directory), maxBytes, keep);
    } else {
      var front, line := lines[..|lines| - 1], lines[|lines| - 1];
      assert lines == front + [line];
      AlwaysWellKept(directory, maxBytes, keep, front);
      WellKeptOneMore(directory, maxBytes, keep, front, line);
    }
  }

  // ---------------------------------------------------------------------------
  // How long a line is kept
  // ---------------------------------------------------------------------------

  /** The next line does not fit into the active file. */
  predicate Rotates(files: Files, maxBytes: nat, line: seq<Byte>)
    requires Active in files
  {
    Size(files[Active]) + |line| + 1 > maxBytes
  }

  function Rotations(files: Files, maxBytes: nat, keep: nat, lines: seq<seq<Byte>>): nat
    requires Active in files
  {
    if lines == [] then 0 else
    var front := lines[..|lines| - 1];
    Rotations(files, maxBytes, keep, front)
    + if Rotates(AfterAll(files, maxBytes, keep, front), maxBytes, lines[|lines| - 1]) then 1 else 0
  }

  /** A line that fits is added to the active file and nothing else changes; one that
      does not fit starts a new active file, the old one becoming `.1`. */
  lemma LogIsExact(files: Files, maxBytes: nat, keep: nat, line: seq<Byte>)
    requires Active in files
    ensures var after := AfterLog(files, maxBytes, keep, line);
            if Size(files[Active]) + |line| + 1 <= maxBytes then
              after == files[Active := files[Active] + [line + [10]]]
            else
              after[Active] == [line + [10]] && Numbered(1) in after && after[Numbered(1)] == files[Active]
  {
    RotatedLookup(files, keep, Active);
    RotatedLookup(files, keep, Numbered(1));
  }

  /** What `r` rotations have pushed out of the active file and what is in it now. */
  function Recent(files: Files, r: nat): seq<Record> { Stack(files, r) + Content(files, Active) }

  lemma RecentAfterLog(before: Files, maxBytes: nat, keep: nat, r: nat, line: seq<Byte>)
    requires Active in before && r + (if Rotates(before, maxBytes, line) then 1 else 0) <= keep
    ensures Recent(AfterLog(before, maxBytes, keep, line), r + if Rotates(before, maxBytes, line) then 1 else 0)
            == Recent(before, r) + [line + [NEWLINE]]
  {
    var base, r' := BaseFor(before, maxBytes, keep, line), r + if Rotates(before, maxBytes, line) then 1 else 0;
    if r' > r { StackRotated(before, keep, r'); }
    assert Stack(base, r') + base[Active] == Recent(before, r);
    StackAfterWrite(base, base[Active] + [line + [NEWLINE]], r');
  }

  /** The last `r` files that left the active name, and the active file, hold exactly what
      it held at first and every line since. */
  predicate AllThere(first: seq<Record>, files: Files, r: nat, lines: seq<seq<Byte>>) {
    Recent(files, r) == first + Logged(lines)
  }

  lemma AllThereNext(first: seq<Record>, before: Files, r: nat, maxBytes: nat, keep: nat,
                     lines: seq<seq<Byte>>, line: seq<Byte>)
    requires Active in before && AllThere(first, before, r, lines)
    requires r + (if Rotates(before, maxBytes, line) then 1 else 0) <= keep
    ensures AllThere(first, AfterLog(before, maxBytes, keep, line),
                     r + if Rotates(before, maxBytes, line) then 1 else 0, lines + [line])
  {
    RecentAfterLog(before, maxBytes, keep, r, line);
    LoggedAppend(first, lines, line);
  }

  lemma AllThereOneMore(files: Files, maxBytes: nat, keep: nat, lines: seq<seq<Byte>>, line: seq<Byte>)
    requires Active in files && Rotations(files, maxBytes, keep, lines + [line]) <= keep
    requires AllThere(files[Active], AfterAll(files, maxBytes, keep, lines),
                      Rotations(files, maxBytes, keep, lines), lines)
    ensures AllThere(files[Active], AfterAll(files, maxBytes, keep, lines + [line]),
                     Rotations(files, maxBytes, keep, lines + [line]), lines + [line])
  {
    assert (lines + [line])[..|lines|] == lines;
    AllThereNext(files[Active], AfterAll(files, maxBytes, keep, lines),
                 Rotations(files, maxBytes, keep, lines), maxBytes, keep, lines, line);
  }

  /** Up to `keep` rotations nothing is lost. */
  lemma {:induction false} NothingLostYet(files: Files, maxBytes: nat, keep: nat, lines: seq<seq<Byte>>)
    requires Active in files && Rotations(files, maxBytes, keep, lines) <= keep
    ensures AllThere(files[Active], AfterAll(files, maxBytes, keep, lines),
                     Rotations(files, maxBytes, keep, lines), lines)
  {
    if lines == [] {
      assert files[Active] + Logged([]) == files[Active];
    } else {
      var front, line := lines[..|lines| - 1], lines[|lines| - 1];
      assert lines == front + [line];
      NothingLostYet(files, maxBytes, keep, front);
      AllThereOneMore(files, maxBytes, keep, front, line);
    }
  }

  lemma {:induction false} StackPart(files: Files, k: nat, n: nat)
    requires k <= n
    ensures IsSuffix(Stack(files, k), Stack(files, n))
  {
    if k < n { StackPart(files, k, n - 1); }
  }

  lemma {:induction false} AfterAllConcat(files: Files, maxBytes: nat, keep: nat, a: seq<seq<Byte>>, b: seq<seq<Byte>>)
    requires Active in files
    ensures AfterAll(files, maxBytes, keep, a + b) == AfterAll(AfterAll(files, maxBytes, keep, a), maxBytes, keep, b)
  {
    if b == [] {
      assert a + b == a;
    } else {
      var front := b[..|b| - 1];
      assert (a + b)[..|a + b| - 1] == a + front;
      AfterAllConcat(files, maxBytes, keep, a, front);
    }
  }

  /** A line stays in the files until `keep + 1` rotations have come after it: the last
      lines, as long as they caused at most `keep`, are all still there. */
  lemma RecentLinesAreKept(directory: Files, maxBytes: nat, keep: nat, earlier: seq<seq<Byte>>, recent: seq<seq<Byte>>)
    requires Rotations(AfterAll(Opened(directory), maxBytes, keep, earlier), maxBytes, keep, recent) <= keep
    ensures IsSuffix(Logged(recent), Retained(AfterAll(Opened(directory), maxBytes, keep, earlier + recent), keep))
  {
    var middle := AfterAll(Opened(directory), maxBytes, keep, earlier);
    var files := AfterAll(middle, maxBytes, keep, recent);
    var r := Rotations(middle, maxBytes, keep, recent);
    AfterAllConcat(Opened(directory), maxBytes, keep, earlier, recent);
    NothingLostYet(middle, maxBytes, keep, recent);
    StackPart(files, r, keep);
    SuffixThen(Stack(files, r), Stack(files, keep), Content(files, Active));
    SuffixOf(middle[Active], Logged(recent), Retained(files, keep));
  }

  lemma SuffixThen(s: seq<Record>, whole: seq<Record>, more: seq<Record>)
    requires IsSuffix(s, whole)
    ensures IsSuffix(s + more, whole + more)
  {}

  lemma SuffixOf(x: seq<Record>, y: seq<Record>, whole: seq<Record>)
    requires IsSuffix(x + y, whole)
    ensures IsSuffix(y, whole)
  {
    assert y == (x + y)[|x|..];
  }

  /** Log any lines into any directory. */
  method LogAll(directory: Files, maxBytes: nat, keep: nat, lines: seq<seq<Byte>>) returns (files: Files)
    ensures files == AfterAll(Opened(directory), maxBytes, keep, lines)
    ensures WellKept(directory, files, maxBytes, keep, lines)
  {
    var logger := new RotatingFileLogger(directory, maxBytes, keep);
    for k := 0 to |lines|
      invariant logger.Valid() && logger.maxBytes == maxBytes && logger.keep == keep
      invariant logger.files == AfterAll(Opened(directory), maxBytes, keep, lines[..k])
    {
      assert lines[..k + 1][..k] == lines[..k];
      logger.Log(lines[k]);
    }
    assert lines[..|lines|] == lines;
    files := logger.files;
    AlwaysWellKept(directory, maxBytes, keep, lines);
  }

  lemma FewFiles(files: Files, keep: nat)
    requires files.Keys <= NamesUpTo(keep)
    ensures |files| <= keep + 1
  {
    NamesUpToCount(keep);
    SubsetSize(files.Keys, NamesUpTo(keep));
    assert |files| == |files.Keys|;
  }
}
