/**
 * `deterministicWorkspaceArchive` and `octal` of packages/eval-analyzer/src/reproduction-bundle.ts, up to
 * the zstd compression: the units are sorted, checked one by one and written in place into 512-byte
 * headers and one tar buffer.
 *
 * The order of `localeCompare` is the parameter `compare`; it is only taken to be a total preorder, so
 * different paths may compare equal.
 */
module WorkspaceArchive {
  import opened Common
  import opened Ustar

  // ---------------------------------------------------------------------------------
  // Writing into a buffer.

  function Splice(target: bytes, source: bytes, offset: nat): (r: bytes)
    requires offset + |source| <= |target|
    ensures |r| == |target|
  {
    target[..offset] + source + target[offset + |source|..]
  }

  /** `target.set(source, offset)`. */
  method SetBytes(target: array<byte>, source: bytes, offset: nat)
    requires offset + |source| <= target.Length
    modifies target
    ensures target[..] == Splice(old(target[..]), source, offset)
  {
    for i := 0 to |source|
      invariant target[offset..offset + i] == source[..i]
      invariant forall k :: 0 <= k < offset || offset + i <= k < target.Length ==> target[k] == old(target[k])
    {
      target[offset + i] := source[i];
      assert target[offset..offset + i + 1] == target[offset..offset + i] + [source[i]];
    }
    assert source[..|source|] == source;
    assert target[..] == target[..offset] + target[offset..offset + |source|] + target[offset + |source|..];
  }

  method Octal(target: array<byte>, offset: nat, width: nat, value: nat)
    requires width >= 1 && offset + |OctalField(value, width)| <= target.Length
    modifies target
    ensures target[..] == Splice(old(target[..]), OctalField(value, width), offset)
  {
    var encoded := PadStart(Digits(value), width - 1) + [0];
    SetBytes(target, encoded, offset);
  }

  /** The byte sum of a buffer. */
  method Reduce(target: array<byte>) returns (sum: nat)
    ensures sum == Sum(target[..])
  {
    sum := 0;
    for i := 0 to target.Length
      invariant sum == Sum(target[..i])
    {
      sum := sum + target[i];
      assert target[..i + 1][..i] == target[..i];
    }
    assert target[..target.Length] == target[..];
  }

  /** A header that is written up to some point and zero from there. */
  function Partial(written: bytes): (r: bytes)
    requires |written| <= BLOCK
    ensures |r| == BLOCK
  {
    written + Zeros(BLOCK - |written|)
  }

  /** Writing some bytes after the written part extends it, over a gap that stays zero. */
  lemma {:induction false} SpliceNext(written: bytes, gap: nat, source: bytes, next: bytes)
    requires next == written + Zeros(gap) + source && |next| <= BLOCK
    ensures Splice(Partial(written), source, |written| + gap) == Partial(next)
  {
    var before, after := Splice(Partial(written), source, |written| + gap), Partial(next);
    assert forall i :: 0 <= i < BLOCK ==> before[i] == after[i];
  }

  lemma {:induction false} SpliceAdjacent(written: bytes, source: bytes)
    requires |written + source| <= BLOCK
    ensures Splice(Partial(written), source, |written|) == Partial(written + source)
  {
    assert written + Zeros(0) + source == written + source;
    SpliceNext(written, 0, source, written + source);
  }

  lemma {:induction false} SpliceMiddle(a: bytes, b: bytes, c: bytes, source: bytes)
    requires |b| == |source|
    ensures Splice(a + b + c, source, |a|) == a + source + c
  {
  }

  lemma {:induction false} SpliceTwice(target: bytes, a: bytes, b: bytes, offset: nat)
    requires offset + |a| + |b| <= |target|
    ensures Splice(Splice(target, a, offset), b, offset + |a|) == Splice(target, a + b, offset)
  {
  }

  lemma {:induction false} SpliceOne(target: bytes, b: byte, offset: nat)
    requires offset < |target|
    ensures target[offset := b] == Splice(target, [b], offset)
  {
  }

  /** The fields of a header before its checksum. */
  method WriteFront(header: array<byte>, name: bytes, size: nat)
    requires header.Length == BLOCK && header[..] == Partial([])
    requires |name| <= 100 && size < Power8(11)
    modifies header
    ensures |Front(name, size)| == 148 && header[..] == Partial(Front(name, size))
  {
    FieldSizes(name, size);
    ghost var w0 := name + Zeros(100 - |name|);
    ghost var w1 := w0 + OctalField(0x1A4, 8);
    ghost var w2 := w1 + OctalField(0, 8);
    ghost var w3 := w2 + OctalField(0, 8);
    ghost var w4 := w3 + OctalField(size, 12);
    ghost var w5 := w4 + OctalField(0, 12);
    assert w5 == Front(name, size);
    hide *;
    SetBytes(header, name, 0);
    SpliceNext([], 0, name, name);
    Octal(header, 100, 8, 0x1A4);
    SpliceNext(name, 100 - |name|, OctalField(0x1A4, 8), w1);
    Octal(header, 108, 8, 0);
    SpliceAdjacent(w1, OctalField(0, 8));
    Octal(header, 116, 8, 0);
    SpliceAdjacent(w2, OctalField(0, 8));
    Octal(header, 124, 12, size);
    SpliceAdjacent(w3, OctalField(size, 12));
    Octal(header, 136, 12, 0);
    SpliceAdjacent(w4, OctalField(0, 12));
  }

  /** The checksum field taken as spaces, and the fields after it. */
  method WriteBack(header: array<byte>, ghost front: bytes)
    requires header.Length == BLOCK && |front| == 148 && header[..] == Partial(front)
    modifies header
    ensures header[..] == front + Spaces(8) + Back()
  {
    ghost var w1 := front + Spaces(8);
    ghost var w2 := w1 + [0x30];
    ghost var w3 := w2 + Zeros(100) + USTAR;
    ghost var w4 := w3 + VERSION;
    assert Partial(w4) == front + Spaces(8) + Back();
    assert |USTAR| == 6 && |VERSION| == 2;
    hide *;
    SetBytes(header, Spaces(8), 148);
    SpliceAdjacent(front, Spaces(8));
    ghost var before := header[..];
    header[156] := 0x30;
    assert header[..] == before[156 := 0x30];
    SpliceOne(before, 0x30, 156);
    SpliceAdjacent(w1, [0x30]);
    SetBytes(header, USTAR, 257);
    SpliceNext(w2, 100, USTAR, w3);
    SetBytes(header, VERSION, 263);
    SpliceAdjacent(w3, VERSION);
  }

  /** The checksum digits and their terminator over the spaces. */
  method WriteChecksum(header: array<byte>, checksum: nat, ghost front: bytes, ghost back: bytes)
    requires header.Length == BLOCK && |front| == 148 && header[..] == front + Spaces(8) + back
    requires checksum < Power8(6)
    modifies header
    ensures header[..] == front + ChecksumField(checksum) + back
  {
    PaddedOctal(checksum, 6);
    var encoded := PadStart(Digits(checksum), 6);
    assert ChecksumField(checksum) == encoded + [0] + [0x20];
    hide *;
    ghost var spaced := header[..];
    SetBytes(header, encoded, 148);
    ghost var digits := header[..];
    header[154] := 0;
    ghost var ended := header[..];
    header[155] := 0x20;
    SpliceOne(digits, 0, 154);
    SpliceOne(ended, 0x20, 155);
    assert ended == digits[154 := 0];
    assert header[..] == ended[155 := 0x20];
    SpliceTwice(spaced, encoded, [0], 148);
    SpliceTwice(spaced, encoded + [0], [0x20], 148);
    SpliceMiddle(front, Spaces(8), back, ChecksumField(checksum));
  }

  /** The 512 bytes in front of the body of one unit. */
  method WriteHeader(name: bytes, size: nat) returns (header: array<byte>)
    requires |name| <= 100 && size < Power8(11)
    ensures fresh(header) && header[..] == Header(name, size)
  {
    FieldSizes(name, size);
    header := new byte[BLOCK](_ => 0);
    assert header[..] == Partial([]);
    hide Power8, Partial, Front, Back, Sum, Spaces, ChecksumField;
    WriteFront(header, name, size);
    WriteBack(header, Front(name, size));
    var checksum := Reduce(header);
    WriteChecksum(header, checksum, Front(name, size), Back());
  }

  // ---------------------------------------------------------------------------------
  // The checks on a unit.

  predicate IsPrefix(prefix: bytes, path: bytes) {
    |prefix| <= |path| && path[..|prefix|] == prefix
  }

  predicate Includes(path: bytes, part: bytes) {
    exists i :: 0 <= i <= |path| && IsPrefix(part, path[i..])
  }

  const SLASH: byte := 0x2F
  const DOT: byte := 0x2E

  /** The check on a path, as it is; module ArchivePaths says where the paths it allows lead. */
  predicate PathAllowed(path: bytes) {
    && path != []
    && !IsPrefix([SLASH], path)
    && path != [DOT, DOT]
    && !IsPrefix([DOT, DOT, SLASH], path)
    && !Includes(path, [SLASH, DOT, DOT, SLASH])
    && 0 !in path
  }

  const NOT_CONTAINED := "reproduction unit path must be relative and contained"
  const NOT_UNIQUE := "reproduction unit paths must be unique"
  const TOO_LONG := "reproduction unit path exceeds deterministic ustar name limit"

  /** What is wrong with unit k of a list, given the units before it. */
  function Problem(units: seq<Entry>, k: nat): Option<string>
    requires k < |units|
  {
    var path := units[k].path;
    if !PathAllowed(path) then Some(NOT_CONTAINED)
    else if exists j :: 0 <= j < k && units[j].path == path then Some(NOT_UNIQUE)
    else if |path| > 100 then Some(TOO_LONG)
    else None
  }

  predicate Acceptable(units: seq<Entry>) {
    && (forall i :: 0 <= i < |units| ==> PathAllowed(units[i].path) && |units[i].path| <= 100)
    && (forall i, j :: 0 <= i < j < |units| ==> units[i].path != units[j].path)
  }

  lemma {:induction false} TwoIndices(s: seq<Entry>, e: Entry) returns (i: nat, j: nat)
    requires multiset(s)[e] >= 2
    ensures i < j < |s| && s[i] == s[j] == e
  {
    var n := |s| - 1;
    assert s == s[..n] + [s[n]];
    if multiset(s[..n])[e] >= 2 {
      i, j := TwoIndices(s[..n], e);
    } else {
      assert e in multiset(s[..n]);
      i, j :| 0 <= i < n && s[i] == e && j == n;
    }
  }

  lemma {:induction false} TwiceCounted(s: seq<Entry>, i: nat, j: nat)
    requires i < j < |s| && s[i] == s[j]
    ensures multiset(s)[s[i]] >= 2
  {
    assert s == s[..j] + s[j..];
    assert s[i] in s[..j] && s[j..][0] == s[i];
  }

  /** Whether a list is acceptable does not depend on its order. */
  lemma {:induction false} AcceptablePermutes(a: seq<Entry>, b: seq<Entry>)
    requires multiset(a) == multiset(b) && Acceptable(a)
    ensures Acceptable(b)
  {
    hide PathAllowed;
    forall i | 0 <= i < |b|
      ensures PathAllowed(b[i].path) && |b[i].path| <= 100
    {
      assert b[i] in multiset(a);
    }
    forall i, j | 0 <= i < j < |b|
      ensures b[i].path != b[j].path
    {
      assert b[i] in multiset(a) && b[j] in multiset(a);
      if b[i] == b[j] {
        TwiceCounted(b, i, j);
        var k, l := TwoIndices(a, b[i]);
      }
    }
  }

  /** A list is acceptable when no unit of it has a problem. */
  lemma {:induction false} AcceptableIff(units: seq<Entry>)
    ensures Acceptable(units) <==> SoundTo(units, |units|)
  {
    hide PathAllowed;
    if SoundTo(units, |units|) {
      forall j | 0 <= j < |units|
        ensures PathAllowed(units[j].path) && |units[j].path| <= 100
        ensures forall i :: 0 <= i < j ==> units[i].path != units[j].path
      {
        assert Problem(units, j).None?;
      }
    }
  }

  // ---------------------------------------------------------------------------------
  // Sorting.

  /** The comparator never contradicts itself; different paths may still compare equal. */
  ghost predicate Preorder(compare: (bytes, bytes) -> int) {
    && (forall a, b :: compare(a, b) <= 0 <==> compare(b, a) >= 0)
    && (forall a, b, c :: compare(a, b) <= 0 && compare(b, c) <= 0 ==> compare(a, c) <= 0)
  }

  /** After every unit of a sorted list that is not greater. */
  function Insert(sorted: seq<Entry>, e: Entry, compare: (bytes, bytes) -> int): seq<Entry> {
    if sorted == [] || compare(sorted[|sorted| - 1].path, e.path) <= 0 then sorted + [e]
    else Insert(sorted[..|sorted| - 1], e, compare) + [sorted[|sorted| - 1]]
  }

  /** The stable sort of the units by path. */
  function Sort(units: seq<Entry>, compare: (bytes, bytes) -> int): seq<Entry> {
    if units == [] then [] else Insert(Sort(units[..|units| - 1], compare), units[|units| - 1], compare)
  }

  predicate IsSorted(s: seq<Entry>, compare: (bytes, bytes) -> int) {
    forall i, j :: 0 <= i < j < |s| ==> compare(s[i].path, s[j].path) <= 0
  }

  /** The units whose path compares equal to a given one. */
  function Tied(s: seq<Entry>, path: bytes, compare: (bytes, bytes) -> int): seq<Entry> {
    if s == [] then []
    else
      var n := |s| - 1;
      if compare(path, s[n].path) == 0 then Tied(s[..n], path, compare) + [s[n]] else Tied(s[..n], path, compare)
  }

  lemma {:induction false} Flips(compare: (bytes, bytes) -> int, a: bytes, b: bytes)
    requires Preorder(compare)
    ensures compare(a, b) <= 0 <==> compare(b, a) >= 0
    ensures compare(b, a) <= 0 <==> compare(a, b) >= 0
  {
  }

  lemma {:induction false} Transits(compare: (bytes, bytes) -> int, a: bytes, b: bytes, c: bytes)
    requires Preorder(compare) && compare(a, b) <= 0 && compare(b, c) <= 0
    ensures compare(a, c) <= 0
  {
  }

  lemma {:induction false} InsertCounts(sorted: seq<Entry>, e: Entry, compare: (bytes, bytes) -> int)
    ensures multiset(Insert(sorted, e, compare)) == multiset(sorted) + multiset{e}
  {
    var n := |sorted| - 1;
    if !(sorted == [] || compare(sorted[n].path, e.path) <= 0) {
      InsertCounts(sorted[..n], e, compare);
      assert sorted == sorted[..n] + [sorted[n]];
    }
  }

  lemma {:induction false} SortedSnoc(s: seq<Entry>, e: Entry, compare: (bytes, bytes) -> int)
    requires IsSorted(s, compare) && forall x :: x in multiset(s) ==> compare(x.path, e.path) <= 0
    ensures IsSorted(s + [e], compare)
  {
    forall i | 0 <= i < |s|
      ensures compare(s[i].path, e.path) <= 0
    {
      assert s[i] in multiset(s);
    }
  }

  lemma {:induction false} SortedLast(s: seq<Entry>, compare: (bytes, bytes) -> int)
    requires IsSorted(s, compare) && s != []
    ensures IsSorted(s[..|s| - 1], compare)
    ensures forall x :: x in multiset(s[..|s| - 1]) ==> compare(x.path, s[|s| - 1].path) <= 0
    ensures multiset(s) == multiset(s[..|s| - 1]) + multiset{s[|s| - 1]}
  {
    assert s == s[..|s| - 1] + [s[|s| - 1]];
    forall x | x in multiset(s[..|s| - 1])
      ensures compare(x.path, s[|s| - 1].path) <= 0
    {
      var i :| 0 <= i < |s| - 1 && s[i] == x;
    }
  }

  lemma {:induction false} InsertSorted(sorted: seq<Entry>, e: Entry, compare: (bytes, bytes) -> int)
    requires Preorder(compare) && IsSorted(sorted, compare)
    ensures IsSorted(Insert(sorted, e, compare), compare)
  {
    if sorted == [] { return; }
    hide Preorder, IsSorted;
    var n := |sorted| - 1;
    var last := sorted[n];
    SortedLast(sorted, compare);
    Flips(compare, last.path, e.path);
    if compare(last.path, e.path) <= 0 {
      forall x | x in multiset(sorted)
        ensures compare(x.path, e.path) <= 0
      {
        if x != last { Transits(compare, x.path, last.path, e.path); }
      }
      SortedSnoc(sorted, e, compare);
    } else {
      InsertSorted(sorted[..n], e, compare);
      InsertCounts(sorted[..n], e, compare);
      SortedSnoc(Insert(sorted[..n], e, compare), last, compare);
    }
  }

  lemma {:induction false} SortSorted(units: seq<Entry>, compare: (bytes, bytes) -> int)
    requires Preorder(compare)
    ensures IsSorted(Sort(units, compare), compare) && multiset(Sort(units, compare)) == multiset(units)
  {
    if units == [] { return; }
    hide Insert, Preorder, IsSorted;
    var n := |units| - 1;
    SortSorted(units[..n], compare);
    InsertSorted(Sort(units[..n], compare), units[n], compare);
    InsertCounts(Sort(units[..n], compare), units[n], compare);
    assert units == units[..n] + [units[n]];
  }

  lemma {:induction false} TiedSnoc(s: seq<Entry>, e: Entry, path: bytes, compare: (bytes, bytes) -> int)
    ensures Tied(s + [e], path, compare)
         == if compare(path, e.path) == 0 then Tied(s, path, compare) + [e] else Tied(s, path, compare)
  {
    assert (s + [e])[..|s|] == s;
  }

  lemma {:induction false} InsertStable(sorted: seq<Entry>, e: Entry, path: bytes, compare: (bytes, bytes) -> int)
    requires Preorder(compare)
    ensures Tied(Insert(sorted, e, compare), path, compare) == Tied(sorted + [e], path, compare)
  {
    var n := |sorted| - 1;
    if sorted == [] || compare(sorted[n].path, e.path) <= 0 { return; }
    hide Preorder, Tied;
    var last := sorted[n];
    if compare(path, last.path) == 0 && compare(path, e.path) == 0 {
      Flips(compare, path, last.path);
      Transits(compare, last.path, path, e.path);
    }
    assert sorted == sorted[..n] + [last];
    InsertStable(sorted[..n], e, path, compare);
    TiedSnoc(Insert(sorted[..n], e, compare), last, path, compare);
    TiedSnoc(sorted[..n], e, path, compare);
    TiedSnoc(sorted[..n], last, path, compare);
    TiedSnoc(sorted, e, path, compare);
  }

  /** Units whose paths compare equal keep the order in which they were given. */
  lemma {:induction false} SortStable(units: seq<Entry>, path: bytes, compare: (bytes, bytes) -> int)
    requires Preorder(compare)
    ensures Tied(Sort(units, compare), path, compare) == Tied(units, path, compare)
  {
    if units == [] { return; }
    var n := |units| - 1;
    var first, last := units[..n], units[n];
    assert Sort(units, compare) == Insert(Sort(first, compare), last, compare);
    assert units == first + [last];
    hide *;
    SortStable(first, path, compare);
    InsertStable(Sort(first, compare), last, path, compare);
    TiedSnoc(Sort(first, compare), last, path, compare);
    TiedSnoc(first, last, path, compare);
  }

  /** Different units of the list never compare equal. */
  ghost predicate NoTies(units: multiset<Entry>, compare: (bytes, bytes) -> int) {
    forall x, y :: x in units && y in units && compare(x.path, y.path) == 0 ==> x == y
  }

  lemma {:induction false} LastUnique(a: seq<Entry>, b: seq<Entry>, compare: (bytes, bytes) -> int)
    requires Preorder(compare) && NoTies(multiset(a), compare)
    requires a != [] && b != []
    requires IsSorted(a, compare) && IsSorted(b, compare) && multiset(a) == multiset(b)
    ensures a[|a| - 1] == b[|b| - 1]
  {
    hide Preorder, IsSorted;
    SortedLast(a, compare);
    SortedLast(b, compare);
    var x, y := a[|a| - 1], b[|b| - 1];
    assert x in multiset(b) && y in multiset(a);
    Flips(compare, x.path, y.path);
  }

  lemma {:induction false} NoTiesFewer(a: multiset<Entry>, b: multiset<Entry>, compare: (bytes, bytes) -> int)
    requires NoTies(b, compare) && a <= b
    ensures NoTies(a, compare)
  {
  }

  lemma {:induction false} SortedUnique(a: seq<Entry>, b: seq<Entry>, compare: (bytes, bytes) -> int)
    requires Preorder(compare) && NoTies(multiset(a), compare)
    requires IsSorted(a, compare) && IsSorted(b, compare) && multiset(a) == multiset(b)
    ensures a == b
  {
    hide *;
    assert |a| == |multiset(a)| == |multiset(b)| == |b|;
    if a == [] { return; }
    var n := |a| - 1;
    LastUnique(a, b, compare);
    SortedLast(a, compare);
    SortedLast(b, compare);
    var first, other := a[..n], b[..n];
    assert multiset(first) == multiset(a) - multiset{a[n]} == multiset(other);
    NoTiesFewer(multiset(first), multiset(a), compare);
    SortedUnique(first, other, compare);
    SameEnds(a, b, n);
  }

  lemma {:induction false} SameEnds(a: seq<Entry>, b: seq<Entry>, n: nat)
    requires |a| == |b| == n + 1 && a[..n] == b[..n] && a[n] == b[n]
    ensures a == b
  {
    assert a == a[..n] + [a[n]] && b == b[..n] + [b[n]];
  }

  lemma {:induction false} TiedConcat(a: seq<Entry>, b: seq<Entry>, path: bytes, compare: (bytes, bytes) -> int)
    ensures Tied(a + b, path, compare) == Tied(a, path, compare) + Tied(b, path, compare)
  {
    if b == [] {
      assert a + b == a;
      return;
    }
    hide *;
    var n := |b| - 1;
    var first, last := b[..n], b[n];
    assert b == first + [last];
    assert a + b == (a + first) + [last];
    TiedConcat(a, first, path, compare);
    TiedSnoc(a + first, last, path, compare);
    TiedSnoc(first, last, path, compare);
  }

  lemma {:induction false} TiedAt(a: seq<Entry>, e: Entry, b: seq<Entry>, path: bytes, compare: (bytes, bytes) -> int)
    requires compare(path, e.path) == 0
    ensures |Tied(a + [e] + b, path, compare)| > |Tied(a, path, compare)|
    ensures Tied(a + [e] + b, path, compare)[|Tied(a, path, compare)|] == e
  {
    hide Tied;
    TiedConcat(a + [e], b, path, compare);
    TiedSnoc(a, e, path, compare);
  }

  /** The list with two of its units exchanged. */
  function Swapped(units: seq<Entry>, i: nat, j: nat): seq<Entry>
    requires i < j < |units|
  {
    units[i := units[j]][j := units[i]]
  }

  lemma {:induction false} SwappedParts(units: seq<Entry>, i: nat, j: nat)
    requires i < j < |units|
    ensures units == units[..i] + [units[i]] + units[i + 1..]
    ensures Swapped(units, i, j) == units[..i] + [units[j]] + Swapped(units, i, j)[i + 1..]
  {
    SplitAt(units, i);
    SplitAt(Swapped(units, i, j), i);
    assert Swapped(units, i, j)[..i] == units[..i];
  }

  lemma {:induction false} SplitAt(s: seq<Entry>, i: nat)
    requires i < |s|
    ensures s == s[..i] + [s[i]] + s[i + 1..]
  {
  }

  lemma {:induction false} SwappedCounts(units: seq<Entry>, i: nat, j: nat)
    requires i < j < |units|
    ensures multiset(Swapped(units, i, j)) == multiset(units)
  {
  }

  /** Exchanging two different units that compare equal changes the sorted list. */
  lemma {:induction false} TieShows(units: seq<Entry>, i: nat, j: nat, compare: (bytes, bytes) -> int)
    requires Preorder(compare) && i < j < |units|
    requires units[i] != units[j] && compare(units[i].path, units[j].path) == 0
    ensures multiset(Swapped(units, i, j)) == multiset(units)
    ensures Sort(Swapped(units, i, j), compare) != Sort(units, compare)
  {
    hide *;
    SwappedParts(units, i, j);
    SwappedCounts(units, i, j);
    var path, other := units[i].path, Swapped(units, i, j);
    Flips(compare, path, path);
    SortStable(units, path, compare);
    SortStable(other, path, compare);
    TiedAt(units[..i], units[i], units[i + 1..], path, compare);
    TiedAt(units[..i], units[j], other[i + 1..], path, compare);
  }

  /** No order of the units changes the sorted list exactly when different units never compare equal. */
  lemma {:induction false} SortOrderIff(units: seq<Entry>, compare: (bytes, bytes) -> int)
    requires Preorder(compare)
    ensures (forall other :: multiset(other) == multiset(units) ==> Sort(other, compare) == Sort(units, compare))
       <==> NoTies(multiset(units), compare)
  {
    hide Preorder, Sort;
    if NoTies(multiset(units), compare) {
      forall other | multiset(other) == multiset(units)
        ensures Sort(other, compare) == Sort(units, compare)
      {
        SortSorted(units, compare);
        SortSorted(other, compare);
        SortedUnique(Sort(units, compare), Sort(other, compare), compare);
      }
    } else {
      var x, y :| x in multiset(units) && y in multiset(units) && compare(x.path, y.path) == 0 && x != y;
      var i :| 0 <= i < |units| && units[i] == x;
      var j :| 0 <= j < |units| && units[j] == y;
      Flips(compare, x.path, y.path);
      if i < j { TieShows(units, i, j, compare); } else { TieShows(units, j, i, compare); }
    }
  }

  // ---------------------------------------------------------------------------------
  // The archive.

  /** Every content is far shorter than any string the runtime can hold. */
  predicate Sized(units: seq<Entry>) {
    forall i :: 0 <= i < |units| ==> |units[i].content| < Power8(11)
  }

  function Concat(chunks: seq<bytes>): bytes {
    if chunks == [] then [] else Concat(chunks[..|chunks| - 1]) + chunks[|chunks| - 1]
  }

  lemma {:induction false} ConcatSnoc(chunks: seq<bytes>, chunk: bytes)
    ensures Concat(chunks + [chunk]) == Concat(chunks) + chunk
  {
    assert (chunks + [chunk])[..|chunks|] == chunks;
  }

  /** All chunks copied one after the other into one buffer. */
  method Join(chunks: seq<bytes>) returns (tar: array<byte>)
    ensures fresh(tar) && tar[..] == Concat(chunks)
  {
    var size := 0;
    for i := 0 to |chunks|
      invariant size == |Concat(chunks[..i])|
    {
      size := size + |chunks[i]|;
      assert chunks[..i + 1] == chunks[..i] + [chunks[i]];
      ConcatSnoc(chunks[..i], chunks[i]);
    }
    assert chunks[..|chunks|] == chunks;
    tar := new byte[size](_ => 0);
    var offset := 0;
    for i := 0 to |chunks|
      invariant offset == |Concat(chunks[..i])| <= size
      invariant tar[..offset] == Concat(chunks[..i])
      invariant fresh(tar) && tar.Length == size
    {
      assert chunks[..i + 1] == chunks[..i] + [chunks[i]];
      ConcatSnoc(chunks[..i], chunks[i]);
      ConcatGrows(chunks, i + 1);
      SetBytes(tar, chunks[i], offset);
      offset := offset + |chunks[i]|;
    }
  }

  lemma {:induction false} ConcatGrows(chunks: seq<bytes>, i: nat)
    requires i <= |chunks|
    ensures |Concat(chunks[..i])| <= |Concat(chunks)|
    decreases |chunks| - i
  {
    if i == |chunks| {
      assert chunks[..i] == chunks;
    } else {
      assert chunks[..i + 1] == chunks[..i] + [chunks[i]];
      ConcatSnoc(chunks[..i], chunks[i]);
      ConcatGrows(chunks, i + 1);
    }
  }

  function Files(entries: seq<Entry>): bytes
    requires AllFit(entries)
  {
    if entries == [] then [] else FileBytes(entries[0]) + Files(entries[1..])
  }

  lemma {:induction false} FilesSnoc(entries: seq<Entry>, e: Entry)
    requires AllFit(entries) && Fits(e)
    ensures Files(entries + [e]) == Files(entries) + FileBytes(e)
  {
    hide Fits, FileBytes;
    var more := entries + [e];
    if entries == [] {
      assert more[1..] == [];
      return;
    }
    FilesSnoc(entries[1..], e);
    assert more[1..] == entries[1..] + [e];
    assert Files(more) == FileBytes(more[0]) + Files(more[1..]);
  }

  lemma {:induction false} TarFiles(entries: seq<Entry>)
    requires AllFit(entries)
    ensures TarBytes(entries) == Files(entries) + Zeros(2 * BLOCK)
  {
    hide Fits, FileBytes, Zeros;
    if entries == [] { return; }
    TarFiles(entries[1..]);
  }

  /** The first k units of the list have no problem. */
  predicate SoundTo(units: seq<Entry>, k: nat)
    requires k <= |units|
  {
    forall j :: 0 <= j < k ==> Problem(units, j).None?
  }

  /** The first problem of the list is this one. */
  ghost predicate Refused(units: seq<Entry>, message: string) {
    exists k :: 0 <= k < |units| && SoundTo(units, k) && Problem(units, k) == Some(message)
  }

  /** `paths` holds the paths of the first k units. */
  ghost predicate Seen(paths: set<bytes>, units: seq<Entry>, k: nat)
    requires k <= |units|
  {
    forall path :: path in paths <==> exists j :: 0 <= j < k && units[j].path == path
  }

  lemma {:induction false} SeenProblem(paths: set<bytes>, units: seq<Entry>, k: nat)
    requires k < |units| && Seen(paths, units, k)
    ensures Problem(units, k).None? <==>
              PathAllowed(units[k].path) && units[k].path !in paths && |units[k].path| <= 100
    ensures !PathAllowed(units[k].path) ==> Problem(units, k) == Some(NOT_CONTAINED)
    ensures PathAllowed(units[k].path) && units[k].path in paths ==> Problem(units, k) == Some(NOT_UNIQUE)
    ensures PathAllowed(units[k].path) && units[k].path !in paths && |units[k].path| > 100
        ==> Problem(units, k) == Some(TOO_LONG)
    ensures Seen(paths + {units[k].path}, units, k + 1)
  {
    hide PathAllowed;
  }

  lemma {:induction false} FileParts(e: Entry)
    requires Fits(e)
    ensures |e.path| <= 100 && |e.content| < Power8(11)
    ensures FileBytes(e) == Header(e.path, |e.content|) + e.content + Zeros((512 - |e.content| % 512) % 512)
  {
    hide Header, Power8;
  }

  /** One checked unit: its header, its body and its padding. */
  method PushUnit(chunks: seq<bytes>, unit: Entry) returns (r: seq<bytes>)
    requires Fits(unit)
    ensures Concat(r) == Concat(chunks) + FileBytes(unit)
  {
    hide *;
    FileParts(unit);
    var name, body := unit.path, unit.content;
    var header := WriteHeader(name, |body|);
    ConcatSnoc(chunks, header[..]);
    r := chunks + [header[..]];
    ConcatSnoc(r, body);
    r := r + [body];
    var padding := (512 - |body| % 512) % 512;
    if padding != 0 {
      ConcatSnoc(r, Zeros(padding));
      r := r + [Zeros(padding)];
    }
  }

  /**
   * The tar bytes of the sorted units when every unit is acceptable, and otherwise what is wrong with the
   * first unit in sorted order that is not.
   */
  method DeterministicWorkspaceArchive(units: seq<Entry>, compare: (bytes, bytes) -> int) returns (r: Result<bytes>)
    requires Preorder(compare) && Sized(units)
    ensures r.Ok? <==> Acceptable(units)
    ensures r.Ok? ==> AllFit(Sort(units, compare)) && r.value == TarBytes(Sort(units, compare))
    ensures r.Err? ==> Refused(Sort(units, compare), r.message)
  {
    var sorted := Sort(units, compare);
    SortSorted(units, compare);
    SortSized(units, sorted);
    SortAcceptable(units, sorted);
    hide *;
    var chunks: seq<bytes> := [];
    var paths: set<bytes> := {};
    StartOfArchive(sorted);
    for k := 0 to |sorted|
      invariant AllFit(sorted[..k]) && Files(sorted[..k]) == Concat(chunks)
      invariant Seen(paths, sorted, k)
      invariant SoundTo(sorted, k)
    {
      var unit := sorted[k];
      SeenProblem(paths, sorted, k);
      if !PathAllowed(unit.path) {
        FirstProblem(sorted, k, NOT_CONTAINED);
        return Err(NOT_CONTAINED);
      }
      if unit.path in paths {
        FirstProblem(sorted, k, NOT_UNIQUE);
        return Err(NOT_UNIQUE);
      }
      paths := paths + {unit.path};
      if |unit.path| > 100 {
        FirstProblem(sorted, k, TOO_LONG);
        return Err(TOO_LONG);
      }
      NextUnit(sorted, k);
      chunks := PushUnit(chunks, unit);
    }
    assert sorted[..|sorted|] == sorted;
    TarFiles(sorted);
    ConcatSnoc(chunks, Zeros(2 * BLOCK));
    chunks := chunks + [Zeros(2 * BLOCK)];
    var tar := Join(chunks);
    r := Ok(tar[..]);
  }

  lemma {:induction false} FirstProblem(units: seq<Entry>, k: nat, message: string)
    requires k < |units| && Problem(units, k) == Some(message) && SoundTo(units, k)
    ensures Refused(units, message) && !SoundTo(units, |units|)
  {
    hide Problem;
    assert Problem(units, k).Some?;
  }

  lemma {:induction false} StartOfArchive(units: seq<Entry>)
    ensures AllFit(units[..0]) && Files(units[..0]) == Concat([])
    ensures Seen({}, units, 0) && SoundTo(units, 0)
  {
  }

  lemma {:induction false} NextUnit(units: seq<Entry>, k: nat)
    requires k < |units| && Sized(units) && AllFit(units[..k]) && SoundTo(units, k) && Problem(units, k).None?
    ensures SoundTo(units, k + 1) && Fits(units[k]) && AllFit(units[..k + 1])
    ensures Files(units[..k + 1]) == Files(units[..k]) + FileBytes(units[k])
  {
    hide Power8, Files, FileBytes, Includes, IsPrefix;
    FilesSnoc(units[..k], units[k]);
    assert units[..k + 1] == units[..k] + [units[k]];
  }

  lemma {:induction false} SortSized(units: seq<Entry>, sorted: seq<Entry>)
    requires Sized(units) && multiset(units) == multiset(sorted)
    ensures Sized(sorted)
  {
    hide Power8;
    forall i | 0 <= i < |sorted|
      ensures |sorted[i].content| < Power8(11)
    {
      assert sorted[i] in multiset(units);
    }
  }

  lemma {:induction false} SortAcceptable(units: seq<Entry>, sorted: seq<Entry>)
    requires multiset(units) == multiset(sorted)
    ensures Acceptable(units) <==> SoundTo(sorted, |sorted|)
  {
    hide Acceptable, Problem;
    AcceptableIff(sorted);
    if Acceptable(units) { AcceptablePermutes(units, sorted); }
    if Acceptable(sorted) { AcceptablePermutes(sorted, units); }
  }

  lemma {:induction false} SortedFits(units: seq<Entry>, compare: (bytes, bytes) -> int)
    requires Preorder(compare) && Sized(units) && Acceptable(units)
    ensures AllFit(Sort(units, compare))
  {
    var sorted := Sort(units, compare);
    SortSorted(units, compare);
    SortSized(units, sorted);
    AcceptablePermutes(units, sorted);
    hide Power8, Sort, Preorder, Includes, IsPrefix;
  }

  /** Every accepted archive reads back as the sorted units, checksums and all. */
  lemma {:induction false} ArchiveReads(units: seq<Entry>, compare: (bytes, bytes) -> int)
    requires Preorder(compare) && Sized(units) && Acceptable(units)
    ensures AllFit(Sort(units, compare))
    ensures ReadArchive(TarBytes(Sort(units, compare))) == Ok(Sort(units, compare))
    ensures IsSorted(Sort(units, compare), compare) && multiset(Sort(units, compare)) == multiset(units)
    ensures |TarBytes(Sort(units, compare))| % BLOCK == 0 && |TarBytes(Sort(units, compare))| >= 2 * BLOCK
    ensures var tar := TarBytes(Sort(units, compare)); tar[|tar| - 2 * BLOCK..] == Zeros(2 * BLOCK)
  {
    hide *;
    SortedFits(units, compare);
    SortSorted(units, compare);
    RoundTrip(Sort(units, compare));
    TarLength(Sort(units, compare));
  }

  /** Two lists of units have the same archive. */
  predicate SameArchive(a: seq<Entry>, b: seq<Entry>, compare: (bytes, bytes) -> int) {
    && AllFit(Sort(a, compare)) && AllFit(Sort(b, compare))
    && TarBytes(Sort(a, compare)) == TarBytes(Sort(b, compare))
  }

  lemma {:induction false} SameArchiveIff(a: seq<Entry>, b: seq<Entry>, compare: (bytes, bytes) -> int)
    requires Preorder(compare) && Sized(a) && Acceptable(a) && multiset(b) == multiset(a)
    ensures SameArchive(a, b, compare) <==> Sort(a, compare) == Sort(b, compare)
  {
    hide Preorder, Sort, Sized, Acceptable, AllFit, TarBytes;
    SortSized(a, b);
    AcceptablePermutes(a, b);
    SortedFits(a, compare);
    SortedFits(b, compare);
    if SameArchive(a, b, compare) { TarInjective(Sort(a, compare), Sort(b, compare)); }
  }

  /** The archive does not depend on the order of the units exactly when no two of them compare equal. */
  lemma {:induction false} ArchiveOrderIff(units: seq<Entry>, compare: (bytes, bytes) -> int)
    requires Preorder(compare) && Sized(units) && Acceptable(units)
    ensures (forall other :: multiset(other) == multiset(units) ==> SameArchive(units, other, compare))
       <==> NoTies(multiset(units), compare)
  {
    hide *;
    SortOrderIff(units, compare);
    if NoTies(multiset(units), compare) {
      forall other | multiset(other) == multiset(units)
        ensures SameArchive(units, other, compare)
      {
        SameArchiveIff(units, other, compare);
      }
    } else {
      var other :| multiset(other) == multiset(units) && Sort(other, compare) != Sort(units, compare);
      SameArchiveIff(units, other, compare);
    }
  }
}
