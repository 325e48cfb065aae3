/**
 * What the path check of packages/eval-analyzer/src/reproduction-bundle.ts, line 86, means for the segments of
 * a path, and when an allowed path stays inside the directory it is relative to, as its message promises.
 */
module ArchivePaths {
  import opened Common
  import opened Ustar
  import opened WorkspaceArchive

  const UP: bytes := [DOT, DOT]

  /** Where the first slash stands, or the length when there is none. */
  function FirstSlash(path: bytes): (c: nat)
    ensures c <= |path| && (c < |path| ==> path[c] == SLASH)
    ensures forall i :: 0 <= i < c ==> path[i] != SLASH
  {
    if path == [] || path[0] == SLASH then 0
    else
      var c := FirstSlash(path[1..]);
      assert forall i :: 1 <= i < c + 1 ==> path[i] == path[1..][i - 1];
      1 + c
  }

  /** `path.split('/')`. */
  function Segments(path: bytes): (r: seq<bytes>)
    ensures r != []
  {
    var c := FirstSlash(path);
    if c == |path| then [path] else [path[..c]] + Segments(path[c + 1..])
  }

  /** The path starts with "../". */
  lemma {:induction false} LeadingUp(path: bytes)
    ensures IsPrefix(UP + [SLASH], path) <==> Segments(path)[0] == UP && |Segments(path)| > 1
    ensures path == UP <==> Segments(path) == [UP]
    ensures IsPrefix([SLASH], path) <==> Segments(path)[0] == [] && |Segments(path)| > 1
    ensures path == [] <==> Segments(path) == [[]]
  {
    var c := FirstSlash(path);
    if IsPrefix(UP + [SLASH], path) {
      assert path[0] == (UP + [SLASH])[0] && path[1] == (UP + [SLASH])[1] && path[2] == (UP + [SLASH])[2];
      assert c == 2;
    }
    if c < |path| && path[..c] == UP { assert path[..3] == UP + [SLASH]; }
    if c < |path| && path[..c] == [] { assert path[..1] == [SLASH]; }
  }

  /** Some ".." stands between two slashes. */
  predicate InnerUp(segments: seq<bytes>) {
    exists k :: 1 <= k < |segments| - 1 && segments[k] == UP
  }

  const INNER: bytes := [SLASH, DOT, DOT, SLASH]

  lemma {:induction false} IncludesUp(path: bytes)
    ensures Includes(path, INNER) <==> InnerUp(Segments(path))
    decreases |path|
  {
    var c, segments := FirstSlash(path), Segments(path);
    if c == |path| {
      NoSlashNoInner(path);
      return;
    }
    var rest := path[c + 1..];
    var tail := Segments(rest);
    assert segments == [path[..c]] + tail;
    hide *;
    IncludesUp(rest);
    LeadingUp(rest);
    InnerAt(path, c);
    InnerCons(path[..c], tail);
  }

  lemma {:induction false} InnerCons(first: bytes, tail: seq<bytes>)
    requires tail != []
    ensures InnerUp([first] + tail) <==> (tail[0] == UP && |tail| > 1) || InnerUp(tail)
  {
    var segments := [first] + tail;
    if k :| 1 <= k < |segments| - 1 && segments[k] == UP { assert tail[k - 1] == UP; }
    if k :| 1 <= k < |tail| - 1 && tail[k] == UP { assert segments[k + 1] == UP; }
    if tail[0] == UP && |tail| > 1 { assert segments[1] == UP; }
  }

  lemma {:induction false} NoSlashNoInner(path: bytes)
    requires FirstSlash(path) == |path|
    ensures !Includes(path, INNER)
  {
    IncludesHere(path);
    hide Includes;
  }

  predicate InnerHere(path: bytes, i: nat) {
    i + 4 <= |path| && path[i] == SLASH && path[i + 1] == DOT && path[i + 2] == DOT && path[i + 3] == SLASH
  }

  lemma {:induction false} IncludesHere(path: bytes)
    ensures Includes(path, INNER) <==> exists i :: 0 <= i <= |path| && InnerHere(path, i)
    ensures IsPrefix(UP + [SLASH], path) <==> 3 <= |path| && path[0] == DOT && path[1] == DOT && path[2] == SLASH
  {
    forall i | 0 <= i <= |path|
      ensures IsPrefix(INNER, path[i..]) <==> InnerHere(path, i)
    {
      if InnerHere(path, i) { assert path[i..][..4] == INNER; }
      if IsPrefix(INNER, path[i..]) {
        var part := path[i..][..4];
        assert part[0] == SLASH && part[1] == DOT && part[2] == DOT && part[3] == SLASH;
      }
    }
    if 3 <= |path| && path[0] == DOT && path[1] == DOT && path[2] == SLASH { assert path[..3] == UP + [SLASH]; }
    if IsPrefix(UP + [SLASH], path) {
      var part := path[..3];
      assert part[0] == DOT && part[1] == DOT && part[2] == SLASH;
    }
  }

  /** A slash-enclosed ".." starts at the first slash or comes after it. */
  lemma {:induction false} InnerAt(path: bytes, c: nat)
    requires c == FirstSlash(path) < |path|
    ensures Includes(path, INNER) <==> IsPrefix(UP + [SLASH], path[c + 1..]) || Includes(path[c + 1..], INNER)
  {
    var rest := path[c + 1..];
    IncludesHere(path);
    IncludesHere(rest);
    hide Includes, IsPrefix, FirstSlash;
    forall i | 0 <= i <= |rest|
      ensures InnerHere(rest, i) <==> InnerHere(path, c + 1 + i)
    {
    }
    if i :| 0 <= i <= |path| && InnerHere(path, i) {
      if i > c { assert InnerHere(rest, i - c - 1); }
    }
    if 3 <= |rest| && rest[0] == DOT && rest[1] == DOT && rest[2] == SLASH { assert InnerHere(path, c); }
  }

  /**
   * The check, segment by segment: it allows exactly the paths without a NUL that are not empty, do not start
   * with a slash, and have no ".." but possibly as the last of several segments.
   */
  lemma {:induction false} AllowedIff(path: bytes)
    ensures PathAllowed(path) <==>
      && 0 !in path && path != []
      && (|Segments(path)| > 1 ==> Segments(path)[0] != [])
      && forall k :: 0 <= k < |Segments(path)| && Segments(path)[k] == UP ==> 0 < k == |Segments(path)| - 1
  {
    LeadingUp(path);
    IncludesUp(path);
    assert UP + [SLASH] == [DOT, DOT, SLASH];
    hide Segments, Includes, IsPrefix;
  }

  // ---------------------------------------------------------------------------------
  // Where a path leads.

  /** An empty segment and "." stay where they are. */
  predicate Stays(segment: bytes) {
    segment == [] || segment == [DOT]
  }

  /** How deep below the start these segments lead; ".." goes up, and any other name goes down. */
  function Depth(segments: seq<bytes>): int {
    if segments == [] then 0
    else
      var n := |segments| - 1;
      Depth(segments[..n]) + if Stays(segments[n]) then 0 else if segments[n] == UP then -1 else 1
  }

  /** No part of the path leads above the start. */
  predicate Inside(path: bytes) {
    forall n :: 0 <= n <= |Segments(path)| ==> Depth(Segments(path)[..n]) >= 0
  }

  lemma {:induction false} DepthWithoutUp(segments: seq<bytes>, n: nat)
    requires n <= |segments| && forall k :: 0 <= k < n ==> segments[k] != UP
    ensures Depth(segments[..n]) >= 0
    ensures Depth(segments[..n]) == 0 <==> forall k :: 0 <= k < n ==> Stays(segments[k])
  {
    if n > 0 {
      assert segments[..n][..n - 1] == segments[..n - 1];
      DepthWithoutUp(segments, n - 1);
    }
  }

  /** An allowed path stays inside, except when it goes nowhere and then up. */
  lemma {:induction false} InsideIff(path: bytes)
    requires PathAllowed(path)
    ensures
      var segments := Segments(path);
      var last := |segments| - 1;
      Inside(path) <==> !(segments[last] == UP && forall k :: 0 <= k < last ==> Stays(segments[k]))
  {
    AllowedIff(path);
    var segments := Segments(path);
    var last := |segments| - 1;
    hide Segments, PathAllowed;
    forall n | 0 <= n <= last
      ensures Depth(segments[..n]) >= 0
    {
      DepthWithoutUp(segments, n);
    }
    DepthWithoutUp(segments, last);
    assert segments[..last + 1] == segments && segments[..last + 1][..last] == segments[..last];
  }

  /** The shortest such path, "./..". */
  lemma {:induction false} DotUpIsAllowed()
    ensures PathAllowed([DOT, SLASH, DOT, DOT]) && !Inside([DOT, SLASH, DOT, DOT])
  {
    var path: bytes := [DOT, SLASH, DOT, DOT];
    assert path[0] != SLASH && path[1] == SLASH && FirstSlash(path) == 1;
    assert path[2..] == UP && path[..1] == [DOT];
    assert FirstSlash(UP) == 2 by { assert UP[0] != SLASH && UP[1] != SLASH; }
    assert Segments(path) == [[DOT], UP];
    AllowedIff(path);
    hide Segments;
    var segments := [[DOT], UP];
    assert segments[..2] == segments && segments[..1] == [[DOT]] && [[DOT]][..0] == [];
    assert |UP| == 2 && Depth([[DOT]]) == 0 && Depth(segments) == -1;
  }
}
