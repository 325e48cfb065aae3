/**
 * The timeline merge of packages/dashboard/src/session-projection.ts: entries arrive as live deltas,
 * history pages and replays, may repeat and come out of order, and are merged by sequence number,
 * with a fast path for plain appends.
 */
module Timeline {
  import opened Common

  /** A JSON value the timeline only carries around. */
  type Blob = int

  datatype AgentEvent = AgentEvent(kind: string, callId: Option<string>, body: Blob)

  /** The fields of an entry that may be absent. */
  datatype Extra = HasEffectsArtifact | HasLlmTraceArtifact | LlmTrace | Model | Timing | CompactionMetadata

  datatype Entry = Entry(seqNo: int, ts: string, event: AgentEvent, effects: Blob, extras: map<Extra, Blob>)

  /** `sameTimelineEvent`. */
  predicate SameEvent(a: Entry, b: Entry) {
    if a.event.kind != b.event.kind then false
    else if a.event.callId.Some? || b.event.callId.Some? then
      a.event.callId.Some? && b.event.callId.Some? && a.event.callId.value == b.event.callId.value
    else true
  }

  /** `{ ...existing, ...entry }`: the later entry wins, absent fields fall back to the earlier one. */
  function Enrich(existing: Entry, entry: Entry): Entry {
    entry.(extras := existing.extras + entry.extras)
  }

  predicate StrictlyIncreasing(t: seq<Entry>) {
    forall i, j :: 0 <= i < j < |t| ==> t[i].seqNo < t[j].seqNo
  }

  type BySeq = map<int, Entry>

  /** Every entry is stored under its own sequence number. */
  predicate Keyed(m: BySeq) {
    forall k :: k in m ==> m[k].seqNo == k
  }

  /** The sequence numbers of a timeline. */
  function SeqNos(t: seq<Entry>): (r: set<int>)
    ensures forall i :: 0 <= i < |t| ==> t[i].seqNo in r
  {
    if t == [] then {} else SeqNos(t[..|t| - 1]) + {t[|t| - 1].seqNo}
  }

  lemma {:induction false} SeqNosBounded(t: seq<Entry>, bound: int)
    requires forall i :: 0 <= i < |t| ==> t[i].seqNo < bound
    ensures forall k :: k in SeqNos(t) ==> k < bound
  {
    if t != [] { SeqNosBounded(t[..|t| - 1], bound); }
  }

  /** `for (const entry of prev) map.set(entry.seq, entry)`. */
  function Index(t: seq<Entry>): (m: BySeq)
    ensures Keyed(m)
    ensures m.Keys == SeqNos(t)
  {
    if t == [] then map[] else Index(t[..|t| - 1])[t[|t| - 1].seqNo := t[|t| - 1]]
  }

  /** One pass of the merge loop. */
  function Insert(m: BySeq, entry: Entry): (r: BySeq)
    ensures Keyed(m) ==> Keyed(r)
    ensures r.Keys == m.Keys + {entry.seqNo}
  {
    var k := entry.seqNo;
    if k !in m then m[k := entry]
    else if SameEvent(m[k], entry) then m[k := Enrich(m[k], entry)]
    else m
  }

  function InsertAll(m: BySeq, add: seq<Entry>): (r: BySeq)
    ensures Keyed(m) ==> Keyed(r)
  {
    if add == [] then m else Insert(InsertAll(m, add[..|add| - 1]), add[|add| - 1])
  }

  lemma {:induction false} InsertAllKeys(m: BySeq, add: seq<Entry>)
    ensures InsertAll(m, add).Keys == m.Keys + SeqNos(add)
  {
    if add != [] { InsertAllKeys(m, add[..|add| - 1]); }
  }

  // ---------------------------------------------------------------------------------
  // Sorting the merged entries.

  predicate IsGreatest(s: set<int>, k: int) {
    k in s && forall x :: x in s ==> x <= k
  }

  lemma {:induction false} HasGreatest(s: set<int>)
    requires s != {}
    ensures exists k :: IsGreatest(s, k)
  {
    var y := Member(s);
    var rest := s - {y};
    if rest == {} {
      assert forall x :: x in s ==> x == y || x in rest;
      assert IsGreatest(s, y);
    } else {
      HasGreatest(rest);
      var k :| IsGreatest(rest, k);
      assert forall x :: x in s ==> x == y || x in rest;
      assert IsGreatest(s, if y > k then y else k);
    }
  }

  function Greatest(s: set<int>): (k: int)
    requires s != {}
    ensures IsGreatest(s, k)
  {
    HasGreatest(s);
    var k :| IsGreatest(s, k);
    k
  }

  /** `[...map.values()].sort((a, b) => a.seq - b.seq)`. */
  function Sorted(m: BySeq): (t: seq<Entry>)
    requires Keyed(m)
    ensures StrictlyIncreasing(t)
    ensures Index(t) == m
    decreases m.Keys
  {
    if m.Keys == {} then []
    else
      var k := Greatest(m.Keys);
      SortedStep(Sorted(m - {k}), m, k);
      Sorted(m - {k}) + [m[k]]
  }

  lemma {:induction false} SortedStep(smaller: seq<Entry>, m: BySeq, k: int)
    requires Keyed(m) && IsGreatest(m.Keys, k)
    requires StrictlyIncreasing(smaller) && Index(smaller) == m - {k}
    ensures StrictlyIncreasing(smaller + [m[k]]) && Index(smaller + [m[k]]) == m
  {
    IndexSnoc(smaller, m[k]);
    forall i | 0 <= i < |smaller| ensures smaller[i].seqNo < k {
      assert smaller[i].seqNo in SeqNos(smaller);
      assert smaller[i].seqNo in (m - {k}).Keys;
    }
    hide Index, SeqNos;
    assert (m - {k})[k := m[k]] == m;
  }

  lemma {:induction false} IndexSnoc(t: seq<Entry>, entry: Entry)
    ensures Index(t + [entry]) == Index(t)[entry.seqNo := entry]
  {
    assert (t + [entry])[..|t|] == t;
  }

  /** A strictly increasing timeline is determined by its entries. */
  lemma {:induction false} SortedUnique(t: seq<Entry>)
    requires StrictlyIncreasing(t)
    ensures Sorted(Index(t)) == t
  {
    if t == [] {
      assert Index(t) == map[];
    } else {
      var n := |t| - 1;
      LastIsGreatest(t);
      SortedUnique(t[..n]);
      assert t == t[..n] + [t[n]];
    }
  }

  lemma {:induction false} LastIsGreatest(t: seq<Entry>)
    requires t != [] && StrictlyIncreasing(t)
    ensures IsGreatest(Index(t).Keys, t[|t| - 1].seqNo)
    ensures Greatest(Index(t).Keys) == t[|t| - 1].seqNo
    ensures Index(t)[t[|t| - 1].seqNo] == t[|t| - 1]
    ensures Index(t) - {t[|t| - 1].seqNo} == Index(t[..|t| - 1])
  {
    SeqNosBounded(t[..|t| - 1], t[|t| - 1].seqNo);
  }

  // ---------------------------------------------------------------------------------
  // The merge.

  predicate IncreasingAfter(entries: seq<Entry>, previous: Option<int>) {
    && StrictlyIncreasing(entries)
    && (entries != [] && previous.Some? ==> entries[0].seqNo > previous.value)
  }

  function LastSeq(t: seq<Entry>): Option<int> {
    if t == [] then None else Some(t[|t| - 1].seqNo)
  }

  /** The map-and-sort path alone. */
  function SlowMerge(prev: seq<Entry>, add: seq<Entry>): seq<Entry> {
    Sorted(InsertAll(Index(prev), add))
  }

  function MergeBySeq(prev: seq<Entry>, add: seq<Entry>): seq<Entry> {
    if add == [] then prev
    else if IncreasingAfter(add, LastSeq(prev)) then prev + add
    else SlowMerge(prev, add)
  }

  /** Entries with fresh sequence numbers are simply stored. */
  lemma {:induction false} AppendInserts(prev: seq<Entry>, add: seq<Entry>)
    requires StrictlyIncreasing(prev + add)
    ensures InsertAll(Index(prev), add) == Index(prev + add)
  {
    if add == [] {
      assert prev + add == prev;
    } else {
      var n := |add| - 1;
      var both := prev + add;
      assert both == (prev + add[..n]) + [add[n]];
      assert forall i :: 0 <= i < |both| - 1 ==> (prev + add[..n])[i] == both[i];
      AppendInserts(prev, add[..n]);
      IndexSnoc(prev + add[..n], add[n]);
      SeqNosBounded(prev + add[..n], add[n].seqNo);
    }
  }

  /** On a strictly increasing timeline the fast path computes what the map-and-sort path computes. */
  lemma {:induction false} FastIsSlow(prev: seq<Entry>, add: seq<Entry>)
    requires StrictlyIncreasing(prev)
    ensures MergeBySeq(prev, add) == SlowMerge(prev, add)
  {
    if add == [] {
      SortedUnique(prev);
    } else if IncreasingAfter(add, LastSeq(prev)) {
      IncreasingAppend(prev, add);
      AppendInserts(prev, add);
      SortedUnique(prev + add);
    }
  }

  lemma IncreasingAppend(prev: seq<Entry>, add: seq<Entry>)
    requires StrictlyIncreasing(prev) && add != [] && IncreasingAfter(add, LastSeq(prev))
    ensures StrictlyIncreasing(prev + add)
  {
    var both := prev + add;
    forall i, j | 0 <= i < j < |both| ensures both[i].seqNo < both[j].seqNo {
      if i < |prev| <= j {
        assert both[i].seqNo <= prev[|prev| - 1].seqNo < add[0].seqNo <= both[j].seqNo;
      }
    }
  }

  /** The merge keeps the timeline strictly increasing and holds exactly the union of sequence numbers. */
  lemma {:induction false} MergeUnion(prev: seq<Entry>, add: seq<Entry>)
    requires StrictlyIncreasing(prev)
    ensures StrictlyIncreasing(MergeBySeq(prev, add))
    ensures Index(MergeBySeq(prev, add)) == InsertAll(Index(prev), add)
    ensures SeqNos(MergeBySeq(prev, add)) == SeqNos(prev) + SeqNos(add)
  {
    FastIsSlow(prev, add);
    InsertAllKeys(Index(prev), add);
  }

  lemma {:induction false} InsertAllSnoc(m: BySeq, add: seq<Entry>, entry: Entry)
    ensures InsertAll(m, add + [entry]) == Insert(InsertAll(m, add), entry)
  {
    assert (add + [entry])[..|add|] == add;
  }

  lemma {:induction false} InsertAllAppend(m: BySeq, a: seq<Entry>, b: seq<Entry>)
    ensures InsertAll(m, a + b) == InsertAll(InsertAll(m, a), b)
  {
    if b == [] {
      assert a + b == a;
    } else {
      var n := |b| - 1;
      assert a + b == (a + b[..n]) + [b[n]] && b == b[..n] + [b[n]];
      InsertAllAppend(m, a, b[..n]);
      InsertAllSnoc(m, a + b[..n], b[n]);
      InsertAllSnoc(InsertAll(m, a), b[..n], b[n]);
    }
  }

  /** Grouping does not matter: merging two batches equals merging them as one. */
  lemma {:induction false} MergeGrouping(prev: seq<Entry>, a: seq<Entry>, b: seq<Entry>)
    requires StrictlyIncreasing(prev)
    ensures MergeBySeq(MergeBySeq(prev, a), b) == MergeBySeq(prev, a + b)
  {
    MergeUnion(prev, a);
    FastIsSlow(MergeBySeq(prev, a), b);
    FastIsSlow(prev, a + b);
    InsertAllAppend(Index(prev), a, b);
  }

  // ---------------------------------------------------------------------------------
  // What one sequence number sees of a batch.

  function At(m: BySeq, k: int): Option<Entry> {
    if k in m then Some(m[k]) else None
  }

  function FoldOne(slot: Option<Entry>, entry: Entry): Option<Entry> {
    if slot.None? then Some(entry)
    else if SameEvent(slot.value, entry) then Some(Enrich(slot.value, entry))
    else slot
  }

  function FoldAt(slot: Option<Entry>, add: seq<Entry>, k: int): Option<Entry> {
    if add == [] then slot else
      var before := FoldAt(slot, add[..|add| - 1], k);
      if add[|add| - 1].seqNo != k then before else FoldOne(before, add[|add| - 1])
  }

  lemma {:induction false} InsertAllAt(m: BySeq, add: seq<Entry>, k: int)
    ensures At(InsertAll(m, add), k) == FoldAt(At(m, k), add, k)
  {
    if add != [] { InsertAllAt(m, add[..|add| - 1], k); }
  }

  /** The extras that entries for `k` with the same event as `like` contribute, later ones winning. */
  function ExtrasAt(add: seq<Entry>, k: int, like: Entry): map<Extra, Blob> {
    if add == [] then map[] else
      var e := add[|add| - 1];
      ExtrasAt(add[..|add| - 1], k, like) + if e.seqNo == k && SameEvent(like, e) then e.extras else map[]
  }

  /** The last of those entries, or `like` itself. */
  function LastAt(add: seq<Entry>, k: int, like: Entry): (r: Entry)
    ensures SameEvent(like, r)
  {
    if add == [] then like else
      var e := add[|add| - 1];
      if e.seqNo == k && SameEvent(like, e) then e else LastAt(add[..|add| - 1], k, like)
  }

  lemma {:induction false} FoldFilled(slot: Entry, add: seq<Entry>, k: int)
    ensures FoldAt(Some(slot), add, k)
         == Some(LastAt(add, k, slot).(extras := slot.extras + ExtrasAt(add, k, slot)))
  {
    if add == [] {
      assert slot.extras + map[] == slot.extras;
    } else {
      FoldFilled(slot, add[..|add| - 1], k);
      var e := add[|add| - 1];
      var x := ExtrasAt(add[..|add| - 1], k, slot);
      assert slot.extras + (x + e.extras) == (slot.extras + x) + e.extras;
      assert x + map[] == x;
    }
  }

  lemma {:induction false} FoldEmpty(add: seq<Entry>, k: int)
    requires FoldAt(None, add, k).Some?
    ensures
      var r := FoldAt(None, add, k).value;
      && LastAt(add, k, r).(extras := r.extras) == r
      && ExtrasAt(add, k, r) == r.extras
  {
    var n := |add| - 1;
    var e := add[n];
    var r := FoldAt(None, add, k).value;
    var before := FoldAt(None, add[..n], k);
    if before.None? {
      NoneAt(add[..n], k, r);
    } else {
      FoldEmpty(add[..n], k);
      LikeOnly(add[..n], k, before.value, r);
      assert before.value.extras + map[] == before.value.extras;
    }
  }

  /** A slot that stays empty saw no entry at all. */
  lemma {:induction false} NoneAt(add: seq<Entry>, k: int, like: Entry)
    requires FoldAt(None, add, k).None?
    ensures ExtrasAt(add, k, like) == map[]
    ensures LastAt(add, k, like) == like
  {
    if add != [] {
      NoneAt(add[..|add| - 1], k, like);
      var none: map<Extra, Blob> := map[];
      assert none + none == none;
    }
  }

  /** The entries are for the same event: the same kind and, if there is one, the same call. */
  predicate Alike(a: Entry, b: Entry) {
    a.event.kind == b.event.kind && a.event.callId == b.event.callId
  }

  /** `add[i]` is the last entry for `k` that is for the same event as `like`; none if `i` is -1. */
  predicate LastAlike(add: seq<Entry>, k: int, like: Entry, i: int) {
    && -1 <= i < |add| && (i >= 0 ==> add[i].seqNo == k && Alike(like, add[i]))
    && forall j :: i < j < |add| ==> !(add[j].seqNo == k && Alike(like, add[j]))
  }

  lemma {:induction false} LastAtMeans(add: seq<Entry>, k: int, like: Entry, i: int)
    requires LastAlike(add, k, like, i)
    ensures LastAt(add, k, like) == if i >= 0 then add[i] else like
  {
    if add != [] && i < |add| - 1 {
      assert forall j :: 0 <= j < |add| - 1 ==> add[..|add| - 1][j] == add[j];
      LastAtMeans(add[..|add| - 1], k, like, i);
    }
  }

  /** The last of those entries that has the optional field `f`; none if `i` is -1. */
  predicate LastWith(add: seq<Entry>, k: int, like: Entry, f: Extra, i: int) {
    && -1 <= i < |add| && (i >= 0 ==> add[i].seqNo == k && Alike(like, add[i]) && f in add[i].extras)
    && forall j :: i < j < |add| ==> !(add[j].seqNo == k && Alike(like, add[j]) && f in add[j].extras)
  }

  lemma {:induction false} ExtrasAtMeans(add: seq<Entry>, k: int, like: Entry, f: Extra, i: int)
    requires LastWith(add, k, like, f, i)
    ensures f in ExtrasAt(add, k, like) <==> i >= 0
    ensures i >= 0 ==> ExtrasAt(add, k, like)[f] == add[i].extras[f]
  {
    if add != [] && i < |add| - 1 {
      assert forall j :: 0 <= j < |add| - 1 ==> add[..|add| - 1][j] == add[j];
      ExtrasAtMeans(add[..|add| - 1], k, like, f, i);
    }
  }

  /**
   * What merging leaves under a sequence number that was taken: entries for another event change nothing there; of
   * those for the same event the last one counts, and each optional field comes from the last one that has it.
   */
  lemma {:induction false} MergeSlot(prev: seq<Entry>, add: seq<Entry>, k: int, i: int, f: Extra, j: int)
    requires StrictlyIncreasing(prev) && k in Index(prev)
    requires LastAlike(add, k, Index(prev)[k], i) && LastWith(add, k, Index(prev)[k], f, j)
    ensures k in Index(MergeBySeq(prev, add))
    ensures
      var was, now := Index(prev)[k], Index(MergeBySeq(prev, add))[k];
      var from := if i >= 0 then add[i] else was;
      && now.seqNo == k && now.ts == from.ts && now.event == from.event && now.effects == from.effects
      && (f in now.extras <==> j >= 0 || f in was.extras)
      && (f in now.extras ==> now.extras[f] == if j >= 0 then add[j].extras[f] else was.extras[f])
  {
    var was := Index(prev)[k];
    hide MergeBySeq, Index, InsertAll, StrictlyIncreasing;
    MergeUnion(prev, add);
    InsertAllAt(Index(prev), add, k);
    FoldFilled(was, add, k);
    LastAtMeans(add, k, was, i);
    ExtrasAtMeans(add, k, was, f, j);
  }

  /** Entries for the same event select the same entries of a batch. */
  lemma {:induction false} LikeOnly(add: seq<Entry>, k: int, a: Entry, b: Entry)
    requires SameEvent(a, b)
    ensures ExtrasAt(add, k, a) == ExtrasAt(add, k, b)
    ensures LastAt(add, k, a) == LastAt(add, k, b) || (LastAt(add, k, a) == a && LastAt(add, k, b) == b)
  {
    if add != [] { LikeOnly(add[..|add| - 1], k, a, b); }
  }

  lemma {:induction false} FoldTwice(slot: Option<Entry>, add: seq<Entry>, k: int)
    ensures FoldAt(FoldAt(slot, add, k), add, k) == FoldAt(slot, add, k)
  {
    if slot.Some? {
      FoldFilled(slot.value, add, k);
      var r := FoldAt(slot, add, k).value;
      FoldFilled(r, add, k);
      LikeOnly(add, k, slot.value, r);
      var s, x := slot.value.extras, ExtrasAt(add, k, r);
      assert (s + x) + x == s + x;
    } else if FoldAt(slot, add, k).Some? {
      var r := FoldAt(slot, add, k).value;
      FoldFilled(r, add, k);
      FoldEmpty(add, k);
      assert r.extras + r.extras == r.extras;
    }
  }

  /** Merging is idempotent: a replayed batch changes nothing, whatever the batch contains. */
  lemma {:induction false} MergeIdempotent(prev: seq<Entry>, add: seq<Entry>)
    requires StrictlyIncreasing(prev)
    ensures MergeBySeq(MergeBySeq(prev, add), add) == MergeBySeq(prev, add)
  {
    var m := InsertAll(Index(prev), add);
    MergeUnion(prev, add);
    FastIsSlow(MergeBySeq(prev, add), add);
    forall k ensures At(InsertAll(m, add), k) == At(m, k) {
      InsertAllAt(Index(prev), add, k);
      InsertAllAt(m, add, k);
      FoldTwice(At(Index(prev), k), add, k);
    }
    SameSlots(InsertAll(m, add), m);
    SortedUnique(MergeBySeq(prev, add));
  }

  lemma SameSlots(m: BySeq, n: BySeq)
    requires forall k :: At(m, k) == At(n, k)
    ensures m == n
  {
    forall k ensures k in m <==> k in n {
      assert At(m, k) == At(n, k);
    }
    forall k | k in m ensures m[k] == n[k] {
      assert At(m, k) == At(n, k);
    }
  }

  // ---------------------------------------------------------------------------------
  // Truthful entries: every delivered entry is a view of the Host's entry, possibly without some
  // of its optional fields.

  predicate ViewOf(entry: Entry, full: Entry) {
    && entry.(extras := full.extras) == full
    && (forall f :: f in entry.extras ==> f in full.extras && entry.extras[f] == full.extras[f])
  }

  predicate TruthfulEntry(host: BySeq, entry: Entry) {
    entry.seqNo in host && ViewOf(entry, host[entry.seqNo])
  }

  predicate Truthful(host: BySeq, entries: seq<Entry>) {
    forall i :: 0 <= i < |entries| ==> TruthfulEntry(host, entries[i])
  }

  /** Some delivered view of entry `k` carried field `f`. */
  ghost predicate Shown(seen: set<Entry>, k: int, f: Extra) {
    exists e :: e in seen && e.seqNo == k && f in e.extras
  }

  ghost predicate Delivered(seen: set<Entry>, k: int) {
    exists e :: e in seen && e.seqNo == k
  }

  /** What a client may know of the Host's log after seeing a set of views: no order, no grouping. */
  ghost function Canonical(host: BySeq, seen: set<Entry>): BySeq {
    map k | k in host && Delivered(seen, k) ::
      host[k].(extras := Revealed(host[k], seen, k))
  }

  lemma {:induction false} DeliveredStep(seen: set<Entry>, entry: Entry, k: int)
    ensures Delivered(seen + {entry}, k) <==> Delivered(seen, k) || k == entry.seqNo
  {
    if Delivered(seen, k) {
      var e :| e in seen && e.seqNo == k;
      assert e in seen + {entry};
    }
    assert entry in seen + {entry};
  }

  lemma {:induction false} ShownStep(seen: set<Entry>, entry: Entry, k: int, f: Extra)
    ensures Shown(seen + {entry}, k, f) <==> Shown(seen, k, f) || (k == entry.seqNo && f in entry.extras)
    ensures Shown(seen, k, f) ==> Delivered(seen, k)
  {
    if Shown(seen, k, f) {
      var e :| e in seen && e.seqNo == k && f in e.extras;
      assert e in seen + {entry};
    }
    assert entry in seen + {entry};
  }

  /** The fields of entry `k` that the seen views reveal. */
  ghost function Revealed(full: Entry, seen: set<Entry>, k: int): map<Extra, Blob> {
    map f | f in full.extras && Shown(seen, k, f) :: full.extras[f]
  }

  lemma {:induction false} RevealedStep(full: Entry, seen: set<Entry>, entry: Entry, k: int)
    requires k == entry.seqNo ==> ViewOf(entry, full)
    ensures Revealed(full, seen + {entry}, k)
         == if k != entry.seqNo then Revealed(full, seen, k) else Revealed(full, seen, k) + entry.extras
    ensures !Delivered(seen, k) ==> Revealed(full, seen, k) == map[]
  {
    forall f ensures Shown(seen + {entry}, k, f) <==> Shown(seen, k, f) || (k == entry.seqNo && f in entry.extras) {
      ShownStep(seen, entry, k, f);
    }
    if !Delivered(seen, k) {
      forall f ensures !Shown(seen, k, f) { ShownStep(seen, entry, k, f); }
    }
  }

  lemma {:induction false} CanonicalStepAt(host: BySeq, seen: set<Entry>, entry: Entry, k: int)
    requires TruthfulEntry(host, entry)
    ensures At(Insert(Canonical(host, seen), entry), k) == At(Canonical(host, seen + {entry}), k)
  {
    DeliveredStep(seen, entry, k);
    if k in host { RevealedStep(host[k], seen, entry, k); }
    hide Shown, Delivered, Revealed;
    if k == entry.seqNo { assert map[] + entry.extras == entry.extras; }
  }

  lemma {:induction false} CanonicalStep(host: BySeq, seen: set<Entry>, entry: Entry)
    requires TruthfulEntry(host, entry)
    ensures Insert(Canonical(host, seen), entry) == Canonical(host, seen + {entry})
  {
    forall k ensures At(Insert(Canonical(host, seen), entry), k) == At(Canonical(host, seen + {entry}), k) {
      CanonicalStepAt(host, seen, entry, k);
    }
    SameSlots(Insert(Canonical(host, seen), entry), Canonical(host, seen + {entry}));
  }

  function Members(t: seq<Entry>): set<Entry> {
    if t == [] then {} else Members(t[..|t| - 1]) + {t[|t| - 1]}
  }

  lemma {:induction false} InsertAllCanonical(host: BySeq, seen: set<Entry>, add: seq<Entry>)
    requires Truthful(host, add)
    ensures InsertAll(Canonical(host, seen), add) == Canonical(host, seen + Members(add))
  {
    hide Canonical, Insert;
    if add == [] {
      assert seen + Members(add) == seen;
    } else {
      var n := |add| - 1;
      InsertAllCanonical(host, seen, add[..n]);
      CanonicalStep(host, seen + Members(add[..n]), add[n]);
      assert seen + Members(add) == seen + Members(add[..n]) + {add[n]};
    }
  }

  /** Deliver batches of entries one after the other. */
  function MergeBatches(prev: seq<Entry>, batches: seq<seq<Entry>>): seq<Entry> {
    if batches == [] then prev
    else MergeBySeq(MergeBatches(prev, batches[..|batches| - 1]), batches[|batches| - 1])
  }

  ghost function AllMembers(batches: seq<seq<Entry>>): set<Entry> {
    if batches == [] then {} else AllMembers(batches[..|batches| - 1]) + Members(batches[|batches| - 1])
  }

  /**
   * Convergence: however truthful views are ordered, grouped into batches and repeated, the timeline
   * is the one determined by the set of views alone.
   */
  lemma {:induction false} MergeConverges(host: BySeq, batches: seq<seq<Entry>>)
    requires forall i :: 0 <= i < |batches| ==> Truthful(host, batches[i])
    ensures StrictlyIncreasing(MergeBatches([], batches))
    ensures Index(MergeBatches([], batches)) == Canonical(host, AllMembers(batches))
  {
    if batches == [] {
      assert Canonical(host, {}) == map[];
    } else {
      var n := |batches| - 1;
      MergeConverges(host, batches[..n]);
      MergeUnion(MergeBatches([], batches[..n]), batches[n]);
      InsertAllCanonical(host, AllMembers(batches[..n]), batches[n]);
    }
  }

  /** Two delivery histories of the same views end in the same timeline. */
  lemma {:induction false} MergeOrderIndependent(host: BySeq, a: seq<seq<Entry>>, b: seq<seq<Entry>>)
    requires forall i :: 0 <= i < |a| ==> Truthful(host, a[i])
    requires forall i :: 0 <= i < |b| ==> Truthful(host, b[i])
    requires AllMembers(a) == AllMembers(b)
    ensures MergeBatches([], a) == MergeBatches([], b)
  {
    MergeConverges(host, a);
    MergeConverges(host, b);
    SortedUnique(MergeBatches([], a));
    SortedUnique(MergeBatches([], b));
  }

  // ---------------------------------------------------------------------------------
  // The loops of the source.

  method IsStrictlyIncreasingAfter(entries: seq<Entry>, previous: Option<int>) returns (ok: bool)
    ensures ok <==> IncreasingAfter(entries, previous)
  {
    var last := previous;
    for i := 0 to |entries|
      invariant last == if i == 0 then previous else Some(entries[i - 1].seqNo)
      invariant StrictlyIncreasing(entries[..i])
      invariant i > 0 && previous.Some? ==> entries[0].seqNo > previous.value
    {
      if last.Some? && entries[i].seqNo <= last.value {
        if i > 0 { assert entries[i - 1].seqNo >= entries[i].seqNo; }
        return false;
      }
      last := Some(entries[i].seqNo);
      assert forall j :: 0 <= j < i ==> entries[..i + 1][j] == entries[..i][j];
      assert i > 0 ==> entries[..i][i - 1].seqNo < entries[i].seqNo;
    }
    assert entries[..|entries|] == entries;
    return true;
  }

  method MergeBySeqLoop(prev: seq<Entry>, add: seq<Entry>) returns (merged: seq<Entry>)
    ensures merged == MergeBySeq(prev, add)
  {
    assert Index([]) == map[] && InsertAll(Index(prev), []) == Index(prev);
    hide Index, InsertAll, StrictlyIncreasing;
    if add == [] { return prev; }
    var fast := IsStrictlyIncreasingAfter(add, LastSeq(prev));
    if fast { return prev + add; }
    var bySeq: BySeq := map[];
    for i := 0 to |prev|
      invariant bySeq == Index(prev[..i])
    {
      IndexSnoc(prev[..i], prev[i]);
      assert prev[..i + 1] == prev[..i] + [prev[i]];
      bySeq := bySeq[prev[i].seqNo := prev[i]];
    }
    assert prev[..|prev|] == prev;
    for i := 0 to |add|
      invariant bySeq == InsertAll(Index(prev), add[..i])
    {
      InsertAllSnoc(Index(prev), add[..i], add[i]);
      assert add[..i + 1] == add[..i] + [add[i]];
      var entry := add[i];
      if entry.seqNo !in bySeq {
        bySeq := bySeq[entry.seqNo := entry];
      } else if SameEvent(bySeq[entry.seqNo], entry) {
        bySeq := bySeq[entry.seqNo := Enrich(bySeq[entry.seqNo], entry)];
      }
    }
    assert add[..|add|] == add;
    return Sorted(bySeq);
  }

  /** `k` first occurs in `entries` at position `i`. */
  predicate FirstAt(entries: seq<Entry>, i: int) {
    0 <= i < |entries| && forall j :: 0 <= j < i ==> entries[j].seqNo != entries[i].seqNo
  }

  function FirstWins(entries: seq<Entry>): (m: BySeq)
    ensures Keyed(m)
  {
    if entries == [] then map[] else
      var m, e := FirstWins(entries[..|entries| - 1]), entries[|entries| - 1];
      if e.seqNo in m then m else m[e.seqNo := e]
  }

  /** An authoritative replay holds, for every sequence number, exactly its first entry. */
  lemma {:induction false} FirstWinsExact(entries: seq<Entry>)
    ensures FirstWins(entries).Keys == SeqNos(entries)
    ensures forall i :: FirstAt(entries, i) ==> FirstWins(entries)[entries[i].seqNo] == entries[i]
  {
    if entries != [] {
      var n := |entries| - 1;
      var init := entries[..n];
      FirstWinsExact(init);
      forall i | FirstAt(entries, i) ensures FirstWins(entries)[entries[i].seqNo] == entries[i] {
        if i < n {
          assert FirstAt(init, i) && init[i] == entries[i];
        } else {
          SeqNosMember(init, entries[n].seqNo);
        }
      }
    }
  }

  lemma {:induction false} SeqNosMember(t: seq<Entry>, k: int)
    ensures k in SeqNos(t) <==> exists i :: 0 <= i < |t| && t[i].seqNo == k
  {
    if t != [] {
      var n := |t| - 1;
      SeqNosMember(t[..n], k);
      if i :| 0 <= i < n && t[..n][i].seqNo == k { assert t[i].seqNo == k; }
      if i :| 0 <= i < |t| && t[i].seqNo == k { assert i < n ==> t[..n][i].seqNo == k; }
    }
  }

  function AuthoritativeTimeline(entries: seq<Entry>): seq<Entry> {
    Sorted(FirstWins(entries))
  }

  method AuthoritativeTimelineLoop(entries: seq<Entry>) returns (t: seq<Entry>)
    ensures t == AuthoritativeTimeline(entries)
  {
    var bySeq: BySeq := map[];
    for i := 0 to |entries|
      invariant bySeq == FirstWins(entries[..i])
    {
      assert entries[..i + 1][..i] == entries[..i];
      if entries[i].seqNo !in bySeq { bySeq := bySeq[entries[i].seqNo := entries[i]]; }
    }
    assert entries[..|entries|] == entries;
    return Sorted(bySeq);
  }
}
