/**
 * The tar bytes of packages/eval-analyzer/src/reproduction-bundle.ts as a function of the files, and a
 * reader written from the "ustar Interchange Format" section of the pax utility in IEEE Std 1003.1
 * (POSIX.1). Module WorkspaceArchive proves that the in-place writer produces these bytes.
 *
 * Paths and contents are the UTF-8 bytes that `TextEncoder` produces.
 */
module Ustar {
  import opened Common

  type byte = x: int | 0 <= x < 256

  type bytes = seq<byte>

  datatype Entry = Entry(path: bytes, content: bytes)

  const BLOCK := 512
  const USTAR: bytes := [0x75, 0x73, 0x74, 0x61, 0x72, 0]
  const VERSION: bytes := [0x30, 0x30]

  function Zeros(n: nat): (r: bytes)
    ensures |r| == n && forall i :: 0 <= i < n ==> r[i] == 0
  {
    seq(n, _ => 0)
  }

  function Spaces(n: nat): (r: bytes)
    ensures |r| == n && forall i :: 0 <= i < n ==> r[i] == 0x20
  {
    seq(n, _ => 0x20)
  }

  // ---------------------------------------------------------------------------------
  // Octal numbers.

  function Power8(n: nat): nat {
    if n == 0 then 1 else 8 * Power8(n - 1)
  }

  predicate IsOctal(b: byte) {
    0x30 <= b <= 0x37
  }

  predicate AllOctal(s: bytes) {
    forall i :: 0 <= i < |s| ==> IsOctal(s[i])
  }

  /** `value.toString(8)`. */
  function Digits(n: nat): (r: bytes)
    ensures r != [] && AllOctal(r)
  {
    if n < 8 then [0x30 + n] else Digits(n / 8) + [0x30 + n % 8]
  }

  /** `padStart(width, '0')`. */
  function PadStart(s: bytes, width: nat): bytes {
    if |s| >= width then s else seq(width - |s|, _ => 0x30) + s
  }

  function OctalValue(s: bytes): nat
    requires AllOctal(s)
  {
    if s == [] then 0 else 8 * OctalValue(s[..|s| - 1]) + (s[|s| - 1] - 0x30)
  }

  lemma {:induction false} DigitsValue(n: nat)
    ensures OctalValue(Digits(n)) == n
  {
    if n >= 8 {
      var s := Digits(n);
      assert s[..|s| - 1] == Digits(n / 8);
      DigitsValue(n / 8);
    }
  }

  lemma {:induction false} DigitsShort(n: nat, width: nat)
    requires n < Power8(width) && width >= 1
    ensures |Digits(n)| <= width
  {
    if n >= 8 { DigitsShort(n / 8, width - 1); }
  }

  lemma {:induction false} LeadingZeros(k: nat, s: bytes)
    requires AllOctal(s)
    ensures AllOctal(seq(k, _ => 0x30) + s) && OctalValue(seq(k, _ => 0x30) + s) == OctalValue(s)
  {
    var zeros: bytes := seq(k, _ => 0x30);
    var all := zeros + s;
    if s == [] {
      assert all == zeros;
      if k > 0 {
        assert all[..k - 1] == seq(k - 1, _ => 0x30) + s;
        LeadingZeros(k - 1, s);
      }
    } else {
      assert all[..|all| - 1] == zeros + s[..|s| - 1];
      LeadingZeros(k, s[..|s| - 1]);
    }
  }

  /** Padded octal of a number that fits is exactly as wide as asked and reads back. */
  lemma {:induction false} PaddedOctal(n: nat, width: nat)
    requires n < Power8(width) && width >= 1
    ensures |PadStart(Digits(n), width)| == width
    ensures AllOctal(PadStart(Digits(n), width)) && OctalValue(PadStart(Digits(n), width)) == n
  {
    DigitsShort(n, width);
    DigitsValue(n);
    LeadingZeros(width - |Digits(n)|, Digits(n));
  }

  /** The leading octal digits of a field. */
  function DigitCount(s: bytes): (k: nat)
    ensures k <= |s| && AllOctal(s[..k]) && (k < |s| ==> !IsOctal(s[k]))
  {
    if s == [] || !IsOctal(s[0]) then 0
    else
      assert forall i :: 1 <= i < 1 + DigitCount(s[1..]) ==> s[i] == s[1..][i - 1];
      1 + DigitCount(s[1..])
  }

  /** A numeric header field: octal digits ended by a NUL or a space. */
  function ReadOctal(field: bytes): Option<nat> {
    var k := DigitCount(field);
    if k == 0 || k == |field| || field[k] !in {0, 0x20} then None else Some(OctalValue(field[..k]))
  }

  lemma {:induction false} DigitCountExact(digits: bytes, stop: byte, rest: bytes)
    requires AllOctal(digits) && !IsOctal(stop)
    ensures DigitCount(digits + [stop] + rest) == |digits|
  {
    var s := digits + [stop] + rest;
    if digits != [] {
      assert s[1..] == digits[1..] + [stop] + rest;
      DigitCountExact(digits[1..], stop, rest);
    }
  }

  lemma {:induction false} ReadOctalField(digits: bytes, stop: byte, rest: bytes)
    requires AllOctal(digits) && digits != [] && stop in {0, 0x20}
    ensures ReadOctal(digits + [stop] + rest) == Some(OctalValue(digits))
  {
    DigitCountExact(digits, stop, rest);
    assert (digits + [stop] + rest)[..|digits|] == digits;
  }

  // ---------------------------------------------------------------------------------
  // Headers.

  function Sum(s: bytes): nat {
    if s == [] then 0 else Sum(s[..|s| - 1]) + s[|s| - 1]
  }

  lemma {:induction false} SumBound(s: bytes)
    ensures Sum(s) <= 255 * |s|
  {
    if s != [] { SumBound(s[..|s| - 1]); }
  }

  /** An octal field of the writer: padded digits and a NUL. */
  function OctalField(value: nat, width: nat): bytes
    requires width >= 1
  {
    PadStart(Digits(value), width - 1) + [0]
  }

  function Front(name: bytes, size: nat): bytes
    requires |name| <= 100
  {
    (name + Zeros(100 - |name|)) + OctalField(0x1A4, 8) + OctalField(0, 8) + OctalField(0, 8)
    + OctalField(size, 12) + OctalField(0, 12)
  }

  function Back(): bytes {
    [0x30] + Zeros(100) + USTAR + VERSION + Zeros(247)
  }

  /** The checksum of a header counts its own field as spaces. */
  function Checksum(name: bytes, size: nat): nat
    requires |name| <= 100
  {
    Sum(Front(name, size) + Spaces(8) + Back())
  }

  function ChecksumField(sum: nat): bytes {
    PadStart(Digits(sum), 6) + [0, 0x20]
  }

  function Header(name: bytes, size: nat): bytes
    requires |name| <= 100
  {
    Front(name, size) + ChecksumField(Checksum(name, size)) + Back()
  }

  lemma {:induction false} FieldSizes(name: bytes, size: nat)
    requires |name| <= 100 && size < Power8(11)
    ensures |OctalField(0x1A4, 8)| == |OctalField(0, 8)| == 8
    ensures |OctalField(size, 12)| == |OctalField(0, 12)| == 12
    ensures |Front(name, size)| == 148 && |Back()| == 356
    ensures Checksum(name, size) < Power8(6)
    ensures |ChecksumField(Checksum(name, size))| == 8
    ensures |Header(name, size)| == BLOCK
  {
    Powers();
    PaddedOctal(0x1A4, 7);
    PaddedOctal(0, 7);
    PaddedOctal(size, 11);
    PaddedOctal(0, 11);
    SumBound(Front(name, size) + Spaces(8) + Back());
    PaddedOctal(Checksum(name, size), 6);
  }

  lemma {:induction false} Powers()
    ensures Power8(6) == 0x40000 && Power8(7) == 0x200000 && Power8(11) == 0x200000000
  {
    assert Power8(3) == 512;
    assert Power8(6) == 512 * 512;
    assert Power8(9) == 512 * 512 * 512;
  }

  // ---------------------------------------------------------------------------------
  // The reader.

  /** A NUL-terminated string field. */
  function CString(field: bytes): bytes {
    if field == [] || field[0] == 0 then [] else [field[0]] + CString(field[1..])
  }

  /** Path and size of a regular file, or None for a header that is not a sound one. */
  function ReadHeader(h: bytes): Option<(bytes, nat)>
    requires |h| == BLOCK
  {
    var name, prefix := CString(h[..100]), CString(h[345..500]);
    if h[257..263] != USTAR || h[263..265] != VERSION || h[156] != 0x30 then None
    else
      match (ReadOctal(h[148..156]), ReadOctal(h[124..136]))
      case (Some(sum), Some(size)) =>
        if sum != Sum(h[..148] + Spaces(8) + h[156..]) then None
        else Some((if prefix == [] then name else prefix + [0x2F] + name, size))
      case _ => None
  }

  function Padding(n: nat): (k: nat)
    ensures k < BLOCK && (n + k) % BLOCK == 0
  {
    (BLOCK - n % BLOCK) % BLOCK
  }

  /** Every file up to the two zero blocks that end an archive. */
  function ReadArchive(tar: bytes): Result<seq<Entry>>
    decreases |tar|
  {
    if |tar| < 2 * BLOCK then Err("missing end of archive")
    else if tar[..2 * BLOCK] == Zeros(2 * BLOCK) then Ok([])
    else
      match ReadHeader(tar[..BLOCK])
      case None => Err("bad header")
      case Some((path, size)) =>
        var next := BLOCK + size + Padding(size);
        if |tar| < next then Err("truncated file")
        else
          match ReadArchive(tar[next..])
          case Err(message) => Err(message)
          case Ok(rest) => Ok([Entry(path, tar[BLOCK..BLOCK + size])] + rest)
  }

  // ---------------------------------------------------------------------------------
  // The archive and its round trip.

  predicate Fits(e: Entry) {
    e.path != [] && 0 !in e.path && |e.path| <= 100 && |e.content| < Power8(11)
  }

  predicate AllFit(entries: seq<Entry>) {
    forall i :: 0 <= i < |entries| ==> Fits(entries[i])
  }

  function FileBytes(e: Entry): bytes
    requires Fits(e)
  {
    Header(e.path, |e.content|) + e.content + Zeros(Padding(|e.content|))
  }

  function TarBytes(entries: seq<Entry>): bytes
    requires AllFit(entries)
  {
    if entries == [] then Zeros(2 * BLOCK) else FileBytes(entries[0]) + TarBytes(entries[1..])
  }

  lemma {:induction false} CStringRead(name: bytes, k: nat)
    requires 0 !in name
    ensures CString(name + Zeros(k)) == name
  {
    if name != [] {
      assert (name + Zeros(k))[1..] == name[1..] + Zeros(k);
      CStringRead(name[1..], k);
    }
  }

  /** Where the fields of a written header stand. */
  lemma {:induction false} Layout(name: bytes, size: nat)
    requires |name| <= 100 && size < Power8(11)
    ensures |Header(name, size)| == BLOCK
    ensures Header(name, size)[..100] == name + Zeros(100 - |name|)
    ensures Header(name, size)[124..136] == OctalField(size, 12)
    ensures Header(name, size)[..148] == Front(name, size)
    ensures Header(name, size)[148..156] == ChecksumField(Checksum(name, size))
    ensures Header(name, size)[156..] == Back()
    ensures Header(name, size)[156] == 0x30
    ensures Header(name, size)[257..263] == USTAR && Header(name, size)[263..265] == VERSION
    ensures Header(name, size)[345..500] == Zeros(155)
  {
    FieldSizes(name, size);
    hide Checksum, ChecksumField, OctalField;
    var front, chk, back := Front(name, size), ChecksumField(Checksum(name, size)), Back();
    var h := Header(name, size);
    assert h == front + chk + back;
    assert h[..148] == front;
    assert h[148..156] == chk;
    assert h[156..] == back;
    assert h[..100] == front[..100] == name + Zeros(100 - |name|);
    assert h[124..136] == front[124..136] == OctalField(size, 12);
    assert h[257..263] == h[156..][101..107] == back[101..107] == USTAR;
    assert h[263..265] == h[156..][107..109] == back[107..109] == VERSION;
    assert h[345..500] == h[156..][189..344] == back[189..344] == Zeros(155);
    assert h[156] == h[156..][0] == back[0];
  }

  lemma {:induction false} NumbersRead(name: bytes, size: nat)
    requires |name| <= 100 && size < Power8(11)
    ensures ReadOctal(OctalField(size, 12)) == Some(size)
    ensures ReadOctal(ChecksumField(Checksum(name, size))) == Some(Checksum(name, size))
  {
    FieldSizes(name, size);
    var sum := Checksum(name, size);
    PaddedOctal(size, 11);
    PaddedOctal(sum, 6);
    var digits, check := PadStart(Digits(size), 11), PadStart(Digits(sum), 6);
    hide Digits, PadStart, Checksum, Power8, ReadOctal;
    ReadOctalField(digits, 0, []);
    assert digits + [0] + [] == OctalField(size, 12);
    ReadOctalField(check, 0, [0x20]);
    assert check + [0] + [0x20] == ChecksumField(sum);
  }

  lemma {:induction false} ChecksumCovers(name: bytes, size: nat)
    requires |name| <= 100 && size < Power8(11)
    ensures |Header(name, size)| == BLOCK
    ensures Checksum(name, size) == Sum(Header(name, size)[..148] + Spaces(8) + Header(name, size)[156..])
  {
    Layout(name, size);
    hide Header, Front, Back, Sum, Spaces;
  }

  lemma {:induction false} SoundHeader(h: bytes, size: nat)
    requires |h| == BLOCK && h[156] == 0x30 && h[257..263] == USTAR && h[263..265] == VERSION
    requires CString(h[345..500]) == [] && ReadOctal(h[124..136]) == Some(size)
    requires ReadOctal(h[148..156]) == Some(Sum(h[..148] + Spaces(8) + h[156..]))
    ensures ReadHeader(h) == Some((CString(h[..100]), size))
  {
    hide CString, ReadOctal, Sum, Spaces;
  }

  /** A written header passes every check of the reader and gives back the name and the size. */
  lemma {:induction false} HeaderReads(name: bytes, size: nat)
    requires 0 !in name && |name| <= 100 && size < Power8(11)
    ensures |Header(name, size)| == BLOCK
    ensures ReadHeader(Header(name, size)) == Some((name, size))
  {
    hide *;
    CStringRead([], 155);
    assert [] + Zeros(155) == Zeros(155);
    Layout(name, size);
    ChecksumCovers(name, size);
    NumbersRead(name, size);
    CStringRead(name, 100 - |name|);
    SoundHeader(Header(name, size), size);
  }

  lemma {:induction false} FileLength(e: Entry)
    requires Fits(e)
    ensures |FileBytes(e)| == BLOCK + |e.content| + Padding(|e.content|)
    ensures |FileBytes(e)| % BLOCK == 0
  {
    FieldSizes(e.path, |e.content|);
  }

  lemma {:induction false} Suffix(a: bytes, b: bytes, n: nat)
    requires n <= |b|
    ensures (a + b)[|a + b| - n..] == b[|b| - n..]
  {
  }

  /** An archive is whole blocks and ends in two zero blocks. */
  lemma {:induction false} TarLength(entries: seq<Entry>)
    requires AllFit(entries)
    ensures |TarBytes(entries)| >= 2 * BLOCK && |TarBytes(entries)| % BLOCK == 0
    ensures TarBytes(entries)[|TarBytes(entries)| - 2 * BLOCK..] == Zeros(2 * BLOCK)
  {
    hide FileBytes, Zeros, Fits;
    if entries == [] { return; }
    FileLength(entries[0]);
    TarLength(entries[1..]);
    var file, rest := FileBytes(entries[0]), TarBytes(entries[1..]);
    assert TarBytes(entries) == file + rest;
    Suffix(file, rest, 2 * BLOCK);
  }

  lemma {:induction false} Parts(a: bytes, b: bytes, c: bytes, d: bytes)
    ensures (a + b + c + d)[..|a|] == a
    ensures (a + b + c + d)[|a|..|a| + |b|] == b
    ensures (a + b + c + d)[|a| + |b| + |c|..] == d
  {
  }

  /** The first file of an archive is read and the reader goes on where the next one starts. */
  lemma {:induction false} FileReads(e: Entry, rest: bytes)
    requires Fits(e) && |rest| >= 2 * BLOCK
    ensures ReadArchive(FileBytes(e) + rest)
         == match ReadArchive(rest) { case Err(message) => Err(message) case Ok(es) => Ok([e] + es) }
  {
    var header, size := Header(e.path, |e.content|), |e.content|;
    var pad := Zeros(Padding(size));
    var tar := FileBytes(e) + rest;
    assert tar == header + e.content + pad + rest;
    HeaderReads(e.path, |e.content|);
    Layout(e.path, |e.content|);
    hide Header, ReadHeader, Checksum, ChecksumField, OctalField, Front, Back, Power8, FileBytes, Padding, Fits;
    Parts(header, e.content, pad, rest);
    assert tar[..2 * BLOCK][156] == tar[..BLOCK][156] != 0;
    assert tar[..2 * BLOCK] != Zeros(2 * BLOCK);
  }

  /** The reader gives back exactly what was archived. */
  lemma {:induction false} RoundTrip(entries: seq<Entry>)
    requires AllFit(entries)
    ensures ReadArchive(TarBytes(entries)) == Ok(entries)
  {
    hide FileBytes, Fits, Zeros, ReadHeader;
    if entries == [] {
      assert Zeros(2 * BLOCK)[..2 * BLOCK] == Zeros(2 * BLOCK);
      return;
    }
    hide ReadArchive;
    var e, tail := entries[0], entries[1..];
    RoundTrip(tail);
    TarLength(tail);
    FileReads(e, TarBytes(tail));
    assert entries == [e] + tail;
  }

  /** Different lists of files have different archives. */
  lemma {:induction false} TarInjective(a: seq<Entry>, b: seq<Entry>)
    requires AllFit(a)
    requires AllFit(b)
    requires TarBytes(a) == TarBytes(b)
    ensures a == b
  {
    RoundTrip(a);
    RoundTrip(b);
  }
}
