/**
 * The in-memory session view cache of packages/dashboard/src/session-view-cache.ts.
 *
 * The insertion-ordered map is a sequence of entries with distinct ids. `state` and `timeline` are
 * references to objects that are never mutated, compared by identity, so their JSON size is a function of
 * the reference; the sizes and the clock are parameters. `rest` stands for all other fields of a view.
 */
module ViewCache {
  import opened Common

  datatype Parts = Parts(staticBytes: nat, stateBytes: nat, timelineBytes: nat) {
    function Sum(): nat {
      staticBytes + stateBytes + timelineBytes
    }
  }

  datatype Entry<R, T, X> = Entry(
    id: string, rest: X, state: R, timeline: T, cachedAt: int, estimatedBytes: nat, parts: Parts)

  datatype Input<R, T, X> = Input(rest: X, state: R, timeline: T, cachedAt: Option<int>)

  datatype Patch<R, T, X> = Patch(rest: Option<X>, state: Option<R>, timeline: Option<T>, cachedAt: Option<int>)

  /** `estimateJsonBytes` of the three parts of a view. */
  datatype Sizer<!R, !T, !X> = Sizer(fixed: (string, X) -> nat, state: R -> nat, timeline: T -> nat)

  function Full<R, T, X>(z: Sizer<R, T, X>, e: Entry<R, T, X>): Parts {
    Parts(z.fixed(e.id, e.rest), z.state(e.state), z.timeline(e.timeline))
  }

  /** The estimate of an entry is what a full recomputation gives. */
  predicate Exact<R, T, X>(z: Sizer<R, T, X>, e: Entry<R, T, X>) {
    e.parts == Full(z, e) && e.estimatedBytes == e.parts.Sum()
  }

  function EstimateParts<R(==), T(==), X>(
    z: Sizer<R, T, X>, id: string, input: Input<R, T, X>, previous: Option<Entry<R, T, X>>): Parts
  {
    Parts(
      z.fixed(id, input.rest),
      if previous.Some? && input.state == previous.value.state then previous.value.parts.stateBytes
      else z.state(input.state),
      if previous.Some? && input.timeline == previous.value.timeline then previous.value.parts.timelineBytes
      else z.timeline(input.timeline))
  }

  function Normalize<R(==), T(==), X>(
    z: Sizer<R, T, X>, id: string, input: Input<R, T, X>, now: int, previous: Option<Entry<R, T, X>>)
    : (e: Entry<R, T, X>)
    ensures e.id == id && (previous.Some? && Exact(z, previous.value) ==> Exact(z, e))
    ensures previous.None? ==> Exact(z, e)
  {
    var parts := EstimateParts(z, id, input, previous);
    Entry(id, input.rest, input.state, input.timeline,
          if input.cachedAt.Some? then input.cachedAt.value else now, parts.Sum(), parts)
  }

  // ---------------------------------------------------------------------------------
  // Entries in insertion order.

  predicate Distinct<R, T, X>(es: seq<Entry<R, T, X>>) {
    forall i, j :: 0 <= i < j < |es| ==> es[i].id != es[j].id
  }

  function Total<R, T, X>(es: seq<Entry<R, T, X>>): nat {
    if es == [] then 0 else es[0].estimatedBytes + Total(es[1..])
  }

  /** Where an id stands, or the length when it is absent. */
  function IndexOf<R, T, X>(es: seq<Entry<R, T, X>>, id: string): (k: nat)
    ensures k <= |es| && (k < |es| ==> es[k].id == id)
    ensures forall i :: 0 <= i < k ==> es[i].id != id
  {
    if es == [] || es[0].id == id then 0
    else
      var k := IndexOf(es[1..], id);
      assert forall i :: 1 <= i < k + 1 ==> es[i] == es[1..][i - 1];
      1 + k
  }

  function Lookup<R, T, X>(es: seq<Entry<R, T, X>>, id: string): Option<Entry<R, T, X>> {
    var k := IndexOf(es, id);
    if k < |es| then Some(es[k]) else None
  }

  function Without<R, T, X>(es: seq<Entry<R, T, X>>, k: nat): seq<Entry<R, T, X>> {
    if k < |es| then es[..k] + es[k + 1..] else es
  }

  /** A known id keeps its place, a new one goes last. */
  function With<R, T, X>(es: seq<Entry<R, T, X>>, e: Entry<R, T, X>): seq<Entry<R, T, X>> {
    var k := IndexOf(es, e.id);
    if k < |es| then es[k := e] else es + [e]
  }

  lemma {:induction false} TotalConcat<R, T, X>(a: seq<Entry<R, T, X>>, b: seq<Entry<R, T, X>>)
    ensures Total(a + b) == Total(a) + Total(b)
  {
    if a == [] {
      assert a + b == b;
    } else {
      assert (a + b)[1..] == a[1..] + b;
      TotalConcat(a[1..], b);
    }
  }

  lemma {:induction false} TotalWithout<R, T, X>(es: seq<Entry<R, T, X>>, k: nat)
    requires k < |es|
    ensures Total(es) == Total(Without(es, k)) + es[k].estimatedBytes
  {
    assert es == es[..k] + es[k..];
    TotalConcat(es[..k], es[k..]);
    TotalConcat(es[..k], es[k + 1..]);
    assert es[k..][1..] == es[k + 1..];
  }

  lemma {:induction false} TotalWith<R, T, X>(es: seq<Entry<R, T, X>>, e: Entry<R, T, X>)
    ensures var old' := Lookup(es, e.id);
      Total(With(es, e)) == Total(es) - (if old'.Some? then old'.value.estimatedBytes else 0) + e.estimatedBytes
  {
    var k := IndexOf(es, e.id);
    if k < |es| {
      TotalWithout(es, k);
      TotalWithout(es[k := e], k);
      assert Without(es[k := e], k) == Without(es, k);
    } else {
      TotalConcat(es, [e]);
    }
  }

  // ---------------------------------------------------------------------------------
  // Eviction.

  /** The entry that is evicted first: the least time, and the first of these in insertion order. */
  predicate IsOldest<R, T, X>(es: seq<Entry<R, T, X>>, k: nat) {
    && k < |es|
    && (forall i :: 0 <= i < |es| ==> es[k].cachedAt <= es[i].cachedAt)
    && (forall i :: 0 <= i < k ==> es[k].cachedAt < es[i].cachedAt)
  }

  function OldestIndex<R, T, X>(es: seq<Entry<R, T, X>>): (k: nat)
    requires es != []
    ensures IsOldest(es, k)
  {
    if |es| == 1 then 0
    else
      var n := |es| - 1;
      var k := OldestIndex(es[..n]);
      assert forall i :: 0 <= i < n ==> es[i] == es[..n][i];
      if es[n].cachedAt < es[k].cachedAt then n else k
  }

  function Evict<R, T, X>(es: seq<Entry<R, T, X>>, maxBytes: nat): seq<Entry<R, T, X>>
    decreases |es|
  {
    if Total(es) <= maxBytes || es == [] then es else Evict(Without(es, OldestIndex(es)), maxBytes)
  }

  /** What enforcing a limit leaves; no limit above zero leaves nothing. */
  function Enforced<R, T, X>(es: seq<Entry<R, T, X>>, maxBytes: nat): seq<Entry<R, T, X>> {
    if maxBytes == 0 then [] else Evict(es, maxBytes)
  }

  /** The youngest evicted entry would not have fitted beside those that are kept. */
  predicate LastEvicted<R(==), T(==), X(==)>(
    es: seq<Entry<R, T, X>>, kept: seq<Entry<R, T, X>>, x: Entry<R, T, X>, maxBytes: nat)
  {
    && x in es && x !in kept && Total(kept) + x.estimatedBytes > maxBytes
    && forall y :: y in es && y !in kept ==> y.cachedAt <= x.cachedAt
  }

  lemma {:induction false} WithoutMembers<R, T, X>(es: seq<Entry<R, T, X>>, k: nat)
    requires Distinct(es) && k < |es|
    ensures Distinct(Without(es, k)) && es[k] !in Without(es, k)
    ensures forall x :: x in es <==> x in Without(es, k) || x == es[k]
  {
    var rest := Without(es, k);
    forall x
      ensures x in es <==> x in rest || x == es[k]
    {
      if x in es && x != es[k] {
        var i :| 0 <= i < |es| && es[i] == x;
        assert rest[if i < k then i else i - 1] == x;
      }
    }
  }

  /** Eviction goes strictly by age and stops as soon as the rest fits. */
  lemma {:induction false} EvictPolicy<R, T, X>(es: seq<Entry<R, T, X>>, maxBytes: nat)
    requires Distinct(es)
    ensures Distinct(Evict(es, maxBytes)) && Total(Evict(es, maxBytes)) <= maxBytes
    ensures forall x :: x in Evict(es, maxBytes) ==> x in es
    ensures forall x, y :: x in es && x !in Evict(es, maxBytes) && y in Evict(es, maxBytes) ==> x.cachedAt <= y.cachedAt
    ensures Evict(es, maxBytes) == es || exists x :: LastEvicted(es, Evict(es, maxBytes), x, maxBytes)
    decreases |es|
  {
    if Total(es) <= maxBytes || es == [] { return; }
    var k := OldestIndex(es);
    var rest, kept := Without(es, k), Evict(es, maxBytes);
    assert kept == Evict(rest, maxBytes);
    WithoutMembers(es, k);
    TotalWithout(es, k);
    EvictPolicy(rest, maxBytes);
    forall y | y in es
      ensures es[k].cachedAt <= y.cachedAt
    {
    }
    hide Evict, Without, Distinct, Total;
    if kept == rest {
      assert LastEvicted(es, kept, es[k], maxBytes);
    } else {
      var x :| LastEvicted(rest, kept, x, maxBytes);
      assert LastEvicted(es, kept, x, maxBytes);
    }
  }

  /** The bytes of the entries younger than `time`, or not older. */
  function Weight<R, T, X>(es: seq<Entry<R, T, X>>, time: int, younger: bool): nat {
    if es == [] then 0
    else
      (if es[0].cachedAt > time || (!younger && es[0].cachedAt == time) then es[0].estimatedBytes else 0)
      + Weight(es[1..], time, younger)
  }

  /** The bytes of entry `i` and of those that are evicted after it: the younger ones, and later ones of its time. */
  function BytesFrom<R, T, X>(es: seq<Entry<R, T, X>>, i: nat): nat
    requires i < |es|
  {
    Weight(es[..i], es[i].cachedAt, true) + Weight(es[i..], es[i].cachedAt, false)
  }

  lemma {:induction false} WeightConcat<R, T, X>(
    a: seq<Entry<R, T, X>>, b: seq<Entry<R, T, X>>, time: int, younger: bool)
    ensures Weight(a + b, time, younger) == Weight(a, time, younger) + Weight(b, time, younger)
  {
    if a == [] {
      assert a + b == b;
    } else {
      assert (a + b)[1..] == a[1..] + b;
      WeightConcat(a[1..], b, time, younger);
    }
  }

  /** Dropping an entry that does not count changes nothing. */
  lemma {:induction false} WeightWithout<R, T, X>(es: seq<Entry<R, T, X>>, k: nat, time: int, younger: bool)
    requires k < |es| && !(es[k].cachedAt > time || (!younger && es[k].cachedAt == time))
    ensures Weight(es[..k] + es[k + 1..], time, younger) == Weight(es, time, younger)
  {
    assert es == es[..k] + es[k..] && es[k..][1..] == es[k + 1..];
    WeightConcat(es[..k], es[k..], time, younger);
    WeightConcat(es[..k], es[k + 1..], time, younger);
  }

  lemma {:induction false} WeightAll<R, T, X>(es: seq<Entry<R, T, X>>, time: int, younger: bool)
    ensures Weight(es, time, younger) <= Total(es)
    ensures !younger && (forall i :: 0 <= i < |es| ==> time <= es[i].cachedAt) ==>
              Weight(es, time, younger) == Total(es)
    ensures younger && (forall i :: 0 <= i < |es| ==> time < es[i].cachedAt) ==>
              Weight(es, time, younger) == Total(es)
  {
    if es != [] {
      assert forall i :: 0 <= i < |es[1..]| ==> es[1..][i] == es[i + 1];
      WeightAll(es[1..], time, younger);
    }
  }

  /** Evicting the oldest entry leaves what counts for any other one. */
  lemma {:induction false} BytesFromWithout<R, T, X>(es: seq<Entry<R, T, X>>, k: nat, i: nat)
    requires IsOldest(es, k) && i < |es| && i != k
    ensures
      var j := if i < k then i else i - 1;
      && Without(es, k)[j] == es[i] && BytesFrom(Without(es, k), j) == BytesFrom(es, i)
  {
    var rest, j, time := Without(es, k), if i < k then i else i - 1, es[i].cachedAt;
    if i < k {
      assert rest[..j] == es[..i];
      assert rest[j..] == es[i..][..k - i] + es[i..][k - i + 1..];
      WeightWithout(es[i..], k - i, time, false);
    } else {
      assert rest[j..] == es[i..];
      assert rest[..j] == es[..i][..k] + es[..i][k + 1..];
      WeightWithout(es[..i], k, time, true);
    }
  }

  /**
   * Eviction, exactly: an entry stays if and only if it fits the limit together with all entries that are evicted
   * after it.
   */
  lemma {:induction false} EvictKeepsIff<R, T, X>(es: seq<Entry<R, T, X>>, maxBytes: nat, i: nat)
    requires Distinct(es) && i < |es|
    ensures es[i] in Evict(es, maxBytes) <==> BytesFrom(es, i) <= maxBytes
    decreases |es|
  {
    TotalConcat(es[..i], es[i..]);
    assert es[..i] + es[i..] == es;
    WeightAll(es[..i], es[i].cachedAt, true);
    WeightAll(es[i..], es[i].cachedAt, false);
    if Total(es) <= maxBytes { return; }
    var k := OldestIndex(es);
    var rest := Without(es, k);
    WithoutMembers(es, k);
    if i == k {
      EvictPolicy(rest, maxBytes);
      hide Evict, Without, Weight;
    } else {
      BytesFromWithout(es, k, i);
      EvictKeepsIff(rest, maxBytes, if i < k then i else i - 1);
      hide Without, Weight, IsOldest;
    }
  }

  /** The view fits the cache beside the entries that are evicted after it. */
  predicate HasRoom<R, T, X>(es: seq<Entry<R, T, X>>, id: string, maxBytes: nat) {
    IndexOf(es, id) < |es| && maxBytes > 0 && BytesFrom(es, IndexOf(es, id)) <= maxBytes
  }

  /** A put keeps the view exactly if there is room for it, and each other view exactly if there is room for that. */
  lemma {:induction false} PutKeepsIff<R, T, X>(es: seq<Entry<R, T, X>>, e: Entry<R, T, X>, maxBytes: nat)
    requires Distinct(es) && Distinct(With(es, e))
    ensures Lookup(With(es, e), e.id) == Some(e)
    ensures Lookup(Stored(es, e, maxBytes), e.id) == if HasRoom(With(es, e), e.id, maxBytes) then Some(e) else None
    ensures maxBytes > 0 && e.estimatedBytes <= maxBytes ==>
              forall x :: x in With(es, e) ==>
                (x in Stored(es, e, maxBytes) <==> HasRoom(With(es, e), x.id, maxBytes))
    ensures maxBytes == 0 || e.estimatedBytes > maxBytes ==>
              forall x :: x in Stored(es, e, maxBytes) <==> x in es && x.id != e.id
  {
    var all, kept := With(es, e), Stored(es, e, maxBytes);
    WithHolds(es, e);
    StoredViews(es, e, maxBytes);
    OwnBytes(all, IndexOf(all, e.id));
    forall x | x in all
      ensures IndexOf(all, x.id) < |all| && all[IndexOf(all, x.id)] == x
      ensures x in Evict(all, maxBytes) <==> BytesFrom(all, IndexOf(all, x.id)) <= maxBytes
    {
      IndexOfMember(all, x);
      EvictKeepsIff(all, maxBytes, IndexOf(all, x.id));
    }
    if e in kept { IndexOfMember(kept, e); }
    AbsentLookup(kept, e);
    hide Evict, BytesFrom, Total, With;
    if maxBytes == 0 || e.estimatedBytes > maxBytes {
      var k := IndexOf(es, e.id);
      if k < |es| { WithoutMembers(es, k); OthersStay(es, k); }
    }
  }

  lemma {:induction false} OthersStay<R, T, X>(es: seq<Entry<R, T, X>>, k: nat)
    requires Distinct(es) && k < |es|
    ensures forall x :: x in es && x.id != es[k].id <==> x in es && x != es[k]
  {
  }

  lemma {:induction false} WithHolds<R, T, X>(es: seq<Entry<R, T, X>>, e: Entry<R, T, X>)
    requires Distinct(With(es, e))
    ensures e in With(es, e) && Lookup(With(es, e), e.id) == Some(e)
  {
    var k := IndexOf(es, e.id);
    assert With(es, e)[k] == e;
    IndexOfMember(With(es, e), e);
  }

  lemma {:induction false} IndexOfMember<R, T, X>(es: seq<Entry<R, T, X>>, x: Entry<R, T, X>)
    requires Distinct(es) && x in es
    ensures IndexOf(es, x.id) < |es| && es[IndexOf(es, x.id)] == x
  {
    var i :| 0 <= i < |es| && es[i] == x;
  }

  lemma {:induction false} AbsentLookup<R, T, X>(es: seq<Entry<R, T, X>>, e: Entry<R, T, X>)
    requires forall x :: x in es ==> x == e || x.id != e.id
    ensures e !in es ==> Lookup(es, e.id).None?
  {
    var k := IndexOf(es, e.id);
    if k < |es| { assert es[k] in es; }
  }

  /** An entry counts for itself. */
  lemma {:induction false} OwnBytes<R, T, X>(es: seq<Entry<R, T, X>>, i: nat)
    requires i < |es|
    ensures BytesFrom(es, i) >= es[i].estimatedBytes
  {
  }

  predicate AllExact<R, T, X>(z: Sizer<R, T, X>, es: seq<Entry<R, T, X>>) {
    forall i :: 0 <= i < |es| ==> Exact(z, es[i])
  }

  /** What `put` makes of the entries: too big for the cache is not kept at all. */
  function Stored<R, T, X>(es: seq<Entry<R, T, X>>, e: Entry<R, T, X>, maxBytes: nat): seq<Entry<R, T, X>> {
    if maxBytes == 0 || e.estimatedBytes > maxBytes then Without(es, IndexOf(es, e.id))
    else Evict(With(es, e), maxBytes)
  }

  /** After a put the id holds the new view or nothing, and every other view is one that was there. */
  lemma {:induction false} StoredViews<R, T, X>(es: seq<Entry<R, T, X>>, e: Entry<R, T, X>, maxBytes: nat)
    requires Distinct(es) && Distinct(With(es, e))
    ensures forall x :: x in Stored(es, e, maxBytes) ==> x == e || (x in es && x.id != e.id)
    ensures Distinct(Stored(es, e, maxBytes))
  {
    var k := IndexOf(es, e.id);
    if k < |es| { WithoutMembers(es, k); }
    EvictPolicy(With(es, e), maxBytes);
    hide Evict, Total;
    forall x | x in With(es, e) && x != e
      ensures x in es && x.id != e.id
    {
      var i :| 0 <= i < |With(es, e)| && With(es, e)[i] == x;
      assert x == es[i];
    }
  }

  lemma {:induction false} WithDistinct<R, T, X>(z: Sizer<R, T, X>, es: seq<Entry<R, T, X>>, e: Entry<R, T, X>)
    requires Distinct(es) && AllExact(z, es) && Exact(z, e)
    ensures Distinct(With(es, e)) && AllExact(z, With(es, e))
  {
    hide Exact;
    var k := IndexOf(es, e.id);
    if k < |es| {
      forall i | 0 <= i < |es| && i != k
        ensures es[i].id != e.id
      {
        assert es[k].id == e.id;
      }
    }
  }

  lemma {:induction false} NoRoom<R, T, X>(
    z: Sizer<R, T, X>, es: seq<Entry<R, T, X>>, e: Entry<R, T, X>, maxBytes: nat)
    requires Distinct(es) && AllExact(z, es) && Exact(z, e)
    ensures maxBytes == 0 || e.estimatedBytes > maxBytes ==> !HasRoom(With(es, e), e.id, maxBytes)
  {
    hide Exact;
    WithDistinct(z, es, e);
    WithHolds(es, e);
    OwnBytes(With(es, e), IndexOf(With(es, e), e.id));
    hide BytesFrom, With;
  }

  lemma {:induction false} WithoutExact<R, T, X>(z: Sizer<R, T, X>, es: seq<Entry<R, T, X>>, k: nat)
    requires Distinct(es) && AllExact(z, es)
    ensures Distinct(Without(es, k)) && AllExact(z, Without(es, k))
  {
    hide Exact;
    if k < |es| { WithoutMembers(es, k); }
  }

  /** The entry has exactly these fields. */
  predicate HasFields<R(==), T(==), X(==)>(e: Entry<R, T, X>, id: string, rest: X, state: R, timeline: T) {
    e.id == id && e.rest == rest && e.state == state && e.timeline == timeline
  }

  // ---------------------------------------------------------------------------------
  // The cache.

  class Cache<R(==), T(==), X> {
    const z: Sizer<R, T, X>
    var entries: seq<Entry<R, T, X>>
    var estimatedBytes: int
    var maxBytes: nat

    /** The running count is the true sum, and every estimate is what a full recomputation gives. */
    ghost predicate Counted()
      reads this
    {
      Distinct(entries) && AllExact(z, entries) && estimatedBytes == Total(entries)
    }

    ghost predicate Valid()
      reads this
    {
      Counted() && estimatedBytes <= maxBytes
    }

    constructor (z: Sizer<R, T, X>, maxBytes: int)
      ensures Valid() && entries == [] && this.maxBytes == Max(0, maxBytes) && this.z == z
    {
      this.z := z;
      this.maxBytes := Max(0, maxBytes);
      entries := [];
      estimatedBytes := 0;
    }

    /** The scan for the oldest entry. */
    method FindOldest() returns (k: nat)
      requires entries != []
      ensures k < |entries| && k == OldestIndex(entries)
    {
      k := 0;
      for i := 1 to |entries|
        invariant k < i && k == OldestIndex(entries[..i])
      {
        assert entries[..i + 1][..i] == entries[..i];
        if entries[i].cachedAt < entries[k].cachedAt { k := i; }
      }
      assert entries[..|entries|] == entries;
    }

    method EnforceLimit()
      requires Counted()
      modifies this`entries, this`estimatedBytes
      ensures Valid() && entries == Enforced(old(entries), maxBytes)
    {
      if maxBytes <= 0 {
        entries := [];
        estimatedBytes := 0;
        return;
      }
      while estimatedBytes > maxBytes && |entries| > 0
        invariant Counted() && Evict(entries, maxBytes) == Evict(old(entries), maxBytes)
        decreases |entries|
      {
        var k := FindOldest();
        TotalWithout(entries, k);
        WithoutExact(z, entries, k);
        estimatedBytes := estimatedBytes - entries[k].estimatedBytes;
        entries := Without(entries, k);
      }
    }

    method Put(id: string, input: Input<R, T, X>, now: int) returns (r: Option<Entry<R, T, X>>)
      requires Valid()
      modifies this`entries, this`estimatedBytes
      ensures Valid()
      ensures var e := Normalize(z, id, input, now, Lookup(old(entries), id));
              && Exact(z, e) && entries == Stored(old(entries), e, maxBytes)
              && r == if HasRoom(With(old(entries), e), id, maxBytes) then Some(e) else None
      ensures r == Lookup(entries, id)
      ensures r.Some? ==> HasFields(r.value, id, input.rest, input.state, input.timeline)
      ensures r.Some? ==> r.value.cachedAt == if input.cachedAt.Some? then input.cachedAt.value else now
    {
      var k := IndexOf(entries, id);
      var previous := Lookup(entries, id);
      var e := Normalize(z, id, input, now, previous);
      if k < |entries| {
        TotalWithout(entries, k);
        estimatedBytes := estimatedBytes - entries[k].estimatedBytes;
      }
      WithoutExact(z, entries, k);
      WithoutAbsent(entries, id);
      NoRoom(z, entries, e, maxBytes);
      if maxBytes <= 0 || e.estimatedBytes > maxBytes {
        entries := Without(entries, k);
        return None;
      }
      WithDistinct(z, entries, e);
      PutKeepsIff(entries, e, maxBytes);
      TotalWith(entries, e);
      estimatedBytes := estimatedBytes + e.estimatedBytes;
      entries := With(entries, e);
      EnforceLimit();
      r := Lookup(entries, id);
    }

    /** A view that is read becomes the youngest; nothing else changes. */
    method Get(id: string, now: int) returns (r: Option<Entry<R, T, X>>)
      requires Valid()
      modifies this`entries
      ensures Valid() && r.Some? == Lookup(old(entries), id).Some?
      ensures r.Some? ==> r.value == Lookup(old(entries), id).value.(cachedAt := now)
      ensures entries == if r.Some? then With(old(entries), r.value) else old(entries)
    {
      var found := Lookup(entries, id);
      if found.None? { return None; }
      var refreshed := found.value.(cachedAt := now);
      WithDistinct(z, entries, refreshed);
      TotalWith(entries, refreshed);
      entries := With(entries, refreshed);
      r := Some(refreshed);
    }

    method Apply(id: string, patch: Patch<R, T, X>, now: int) returns (r: Option<Entry<R, T, X>>)
      requires Valid()
      modifies this`entries, this`estimatedBytes
      ensures Valid() && r == if Lookup(old(entries), id).None? then None else Lookup(entries, id)
      ensures Lookup(old(entries), id).None? ==> entries == old(entries)
      ensures Lookup(old(entries), id).Some? ==>
                var current := Lookup(old(entries), id);
                var e := Normalize(z, id, Patched(current.value, patch), now, current);
                && Exact(z, e) && entries == Stored(old(entries), e, maxBytes)
                && r == if HasRoom(With(old(entries), e), id, maxBytes) then Some(e) else None
      ensures r.Some? ==>
                var was := Lookup(old(entries), id).value;
                && (patch.rest.Some? ==> r.value.rest == patch.rest.value)
                && (patch.rest.None? ==> r.value.rest == was.rest)
                && (patch.state.Some? ==> r.value.state == patch.state.value)
                && (patch.state.None? ==> r.value.state == was.state)
                && (patch.timeline.Some? ==> r.value.timeline == patch.timeline.value)
                && (patch.timeline.None? ==> r.value.timeline == was.timeline)
                && r.value.cachedAt == if patch.cachedAt.Some? then patch.cachedAt.value else was.cachedAt
    {
      var current := Lookup(entries, id);
      if current.None? { return None; }
      r := Put(id, Patched(current.value, patch), now);
    }

    method Delete(id: string)
      requires Valid()
      modifies this`entries, this`estimatedBytes
      ensures Valid() && entries == Without(old(entries), IndexOf(old(entries), id)) && Lookup(entries, id).None?
    {
      var k := IndexOf(entries, id);
      WithoutAbsent(entries, id);
      if k == |entries| { return; }
      TotalWithout(entries, k);
      WithoutExact(z, entries, k);
      estimatedBytes := estimatedBytes - entries[k].estimatedBytes;
      entries := Without(entries, k);
    }

    method Clear()
      modifies this`entries, this`estimatedBytes
      ensures Valid() && entries == []
    {
      entries := [];
      estimatedBytes := 0;
    }

    method SetMaxBytes(next: int)
      requires Valid()
      modifies this
      ensures Valid() && maxBytes == Max(0, next) && entries == Enforced(old(entries), maxBytes)
    {
      maxBytes := Max(0, next);
      EnforceLimit();
    }
  }

  datatype Call<R, T, X> =
    | Puts(id: string, input: Input<R, T, X>)
    | Gets(id: string)
    | Patches(id: string, patch: Patch<R, T, X>)
    | Deletes(id: string)
    | Clears
    | Limits(maxBytes: int)

  /** The limit after some calls: the last one set. */
  function LimitAfter<R, T, X>(limit: int, calls: seq<(Call<R, T, X>, int)>): nat {
    if calls == [] then Max(0, limit)
    else
      var n := |calls| - 1;
      if calls[n].0.Limits? then Max(0, calls[n].0.maxBytes) else LimitAfter(limit, calls[..n])
  }

  function NextEntries<R(==), T(==), X>(
    z: Sizer<R, T, X>, es: seq<Entry<R, T, X>>, maxBytes: nat, call: Call<R, T, X>, now: int): seq<Entry<R, T, X>>
  {
    match call
    case Puts(id, input) => Stored(es, Normalize(z, id, input, now, Lookup(es, id)), maxBytes)
    case Gets(id) =>
      var found := Lookup(es, id);
      if found.None? then es else With(es, found.value.(cachedAt := now))
    case Patches(id, patch) =>
      var current := Lookup(es, id);
      if current.None? then es
      else Stored(es, Normalize(z, id, Patched(current.value, patch), now, current), maxBytes)
    case Deletes(id) => Without(es, IndexOf(es, id))
    case Clears => []
    case Limits(next) => Enforced(es, Max(0, next))
  }

  /** What the calls, made at these times, leave in an empty cache. */
  function EntriesAfter<R(==), T(==), X>(
    z: Sizer<R, T, X>, limit: int, calls: seq<(Call<R, T, X>, int)>): seq<Entry<R, T, X>>
  {
    if calls == [] then []
    else
      var n := |calls| - 1;
      NextEntries(z, EntriesAfter(z, limit, calls[..n]), LimitAfter(limit, calls[..n]), calls[n].0, calls[n].1)
  }

  /**
   * Any run of calls at any times: the entries are what the calls leave, the running count is the sum over
   * them and within the limit, no id is stored twice, and every incrementally reused estimate is what a full
   * recomputation gives.
   */
  method RunCache<R(==), T(==), X>(z: Sizer<R, T, X>, limit: int, calls: seq<(Call<R, T, X>, int)>)
    returns (entries: seq<Entry<R, T, X>>, count: int)
    ensures entries == EntriesAfter(z, limit, calls)
    ensures count == Total(entries) <= LimitAfter(limit, calls) && Distinct(entries) && AllExact(z, entries)
  {
    var c := new Cache(z, limit);
    for i := 0 to |calls|
      invariant c.Valid() && fresh(c) && c.z == z && c.maxBytes == LimitAfter(limit, calls[..i])
      invariant c.entries == EntriesAfter(z, limit, calls[..i])
    {
      hide *;
      CallsSnoc(z, limit, calls, i);
      Serve(c, calls[i].0, calls[i].1);
    }
    assert calls[..|calls|] == calls;
    entries, count := c.entries, c.estimatedBytes;
  }

  lemma {:induction false} CallsSnoc<R, T, X>(z: Sizer<R, T, X>, limit: int, calls: seq<(Call<R, T, X>, int)>, i: nat)
    requires i < |calls|
    ensures EntriesAfter(z, limit, calls[..i + 1])
         == NextEntries(z, EntriesAfter(z, limit, calls[..i]), LimitAfter(limit, calls[..i]), calls[i].0, calls[i].1)
    ensures LimitAfter(limit, calls[..i + 1])
         == if calls[i].0.Limits? then Max(0, calls[i].0.maxBytes) else LimitAfter(limit, calls[..i])
  {
    hide NextEntries;
    assert calls[..i + 1][..i] == calls[..i];
  }

  method Serve<R(==), T(==), X>(c: Cache<R, T, X>, call: Call<R, T, X>, now: int)
    requires c.Valid()
    modifies c
    ensures c.Valid() && c.entries == NextEntries(c.z, old(c.entries), old(c.maxBytes), call, now)
    ensures c.maxBytes == if call.Limits? then Max(0, call.maxBytes) else old(c.maxBytes)
  {
    hide Distinct, AllExact, Total, Normalize, Stored, With, Without, Enforced, Lookup, Patched;
    match call
    case Puts(id, input) => var stored := c.Put(id, input, now);
    case Gets(id) => var found := c.Get(id, now);
    case Patches(id, patch) => var stored := c.Apply(id, patch, now);
    case Deletes(id) => c.Delete(id);
    case Clears => c.Clear();
    case Limits(next) => c.SetMaxBytes(next);
  }

  lemma {:induction false} WithoutAbsent<R, T, X>(es: seq<Entry<R, T, X>>, id: string)
    requires Distinct(es)
    ensures Lookup(Without(es, IndexOf(es, id)), id).None?
  {
  }

  /** The fields of a patch over those of the current view, its time included. */
  function Patched<R, T, X>(current: Entry<R, T, X>, patch: Patch<R, T, X>): Input<R, T, X> {
    Input(
      if patch.rest.Some? then patch.rest.value else current.rest,
      if patch.state.Some? then patch.state.value else current.state,
      if patch.timeline.Some? then patch.timeline.value else current.timeline,
      Some(if patch.cachedAt.Some? then patch.cachedAt.value else current.cachedAt))
  }

  // ---------------------------------------------------------------------------------
  // The durable layer applies the same policy to its entries sorted by time.

  predicate ByTime<R, T, X>(es: seq<Entry<R, T, X>>) {
    forall i, j :: 0 <= i < j < |es| ==> es[i].cachedAt <= es[j].cachedAt
  }

  function InsertByTime<R, T, X>(es: seq<Entry<R, T, X>>, e: Entry<R, T, X>): seq<Entry<R, T, X>> {
    var n := |es| - 1;
    if es == [] || es[n].cachedAt <= e.cachedAt then es + [e] else InsertByTime(es[..n], e) + [es[n]]
  }

  /** The stable sort by time. */
  function SortByTime<R, T, X>(es: seq<Entry<R, T, X>>): seq<Entry<R, T, X>> {
    if es == [] then [] else InsertByTime(SortByTime(es[..|es| - 1]), es[|es| - 1])
  }

  lemma {:induction false} InsertCounts<R, T, X>(es: seq<Entry<R, T, X>>, e: Entry<R, T, X>)
    ensures multiset(InsertByTime(es, e)) == multiset(es) + multiset{e}
  {
    var n := |es| - 1;
    if es != [] && es[n].cachedAt > e.cachedAt {
      InsertCounts(es[..n], e);
      assert es == es[..n] + [es[n]];
    }
  }

  lemma {:induction false} InsertedByTime<R, T, X>(es: seq<Entry<R, T, X>>, e: Entry<R, T, X>)
    requires ByTime(es)
    ensures ByTime(InsertByTime(es, e))
  {
    var n := |es| - 1;
    if es != [] && es[n].cachedAt > e.cachedAt {
      var rest := InsertByTime(es[..n], e);
      InsertedByTime(es[..n], e);
      InsertCounts(es[..n], e);
      forall i | 0 <= i < |rest|
        ensures rest[i].cachedAt <= es[n].cachedAt
      {
        assert rest[i] in multiset(es[..n]) + multiset{e};
      }
    }
  }

  lemma {:induction false} SortedByTime<R, T, X>(es: seq<Entry<R, T, X>>)
    ensures ByTime(SortByTime(es)) && multiset(SortByTime(es)) == multiset(es)
  {
    if es == [] { return; }
    hide InsertByTime;
    var n := |es| - 1;
    SortedByTime(es[..n]);
    InsertedByTime(SortByTime(es[..n]), es[n]);
    InsertCounts(SortByTime(es[..n]), es[n]);
    assert es == es[..n] + [es[n]];
  }

  /** The durable entries that stay: what the same eviction leaves of the entries in time order. */
  method EnforceDurableLimit<R, T, X>(stored: seq<Entry<R, T, X>>, maxBytes: nat) returns (kept: seq<Entry<R, T, X>>)
    ensures kept == Enforced(SortByTime(stored), maxBytes)
  {
    var es := SortByTime(stored);
    SortedByTime(stored);
    assert Total(es[..0]) == 0;
    hide SortByTime, ByTime, Enforced, Total;
    var total := 0;
    for i := 0 to |es|
      invariant total == Total(es[..i])
    {
      TotalSnoc(es, i);
      total := total + es[i].estimatedBytes;
    }
    var k := 0;
    assert es[..|es|] == es && es[0..] == es;
    while k < |es| && !(total <= maxBytes && maxBytes > 0)
      invariant k <= |es| && total == Total(es[k..])
      invariant Enforced(es[k..], maxBytes) == Enforced(es, maxBytes)
    {
      DropFirst(es, k, maxBytes);
      total := total - es[k].estimatedBytes;
      k := k + 1;
    }
    kept := es[k..];
    EnforcedDone(es, k, maxBytes);
  }

  lemma {:induction false} TotalSnoc<R, T, X>(es: seq<Entry<R, T, X>>, i: nat)
    requires i < |es|
    ensures Total(es[..i + 1]) == Total(es[..i]) + es[i].estimatedBytes
  {
    assert es[..i + 1] == es[..i] + [es[i]];
    TotalConcat(es[..i], [es[i]]);
  }

  lemma {:induction false} DropFirst<R, T, X>(es: seq<Entry<R, T, X>>, k: nat, maxBytes: nat)
    requires ByTime(es) && k < |es| && !(Total(es[k..]) <= maxBytes && maxBytes > 0)
    ensures Total(es[k..]) == es[k].estimatedBytes + Total(es[k + 1..])
    ensures Enforced(es[k + 1..], maxBytes) == Enforced(es[k..], maxBytes)
  {
    FirstIsOldest(es[k..]);
    assert es[k..][1..] == es[k + 1..];
    assert Without(es[k..], 0) == es[k + 1..];
  }

  lemma {:induction false} EnforcedDone<R, T, X>(es: seq<Entry<R, T, X>>, k: nat, maxBytes: nat)
    requires k <= |es| && (k == |es| || (Total(es[k..]) <= maxBytes && maxBytes > 0))
    ensures Enforced(es[k..], maxBytes) == es[k..]
  {
  }

  lemma {:induction false} FirstIsOldest<R, T, X>(es: seq<Entry<R, T, X>>)
    requires ByTime(es) && es != []
    ensures OldestIndex(es) == 0
  {
    var k := OldestIndex(es);
    var first := es[0];
    assert first.cachedAt <= es[k].cachedAt;
  }
}
