/**
 * The delta-debugging minimiser of packages/eval-analyzer/src/minimize.ts.
 *
 * The failure test is an arbitrary, possibly flaky oracle: its answer may depend on the number of
 * the attempt.  A deterministic oracle is the special case that ignores it.
 */
module Minimize {
  import opened Common

  /** The answer of attempt number `n` on a candidate. */
  type Oracle<!T> = (nat, seq<T>) -> bool

  /** How many of the attempts `from, .., from + count - 1` on the candidate preserve the failure. */
  function Successes<T>(oracle: Oracle<T>, from: nat, count: nat, candidate: seq<T>): (r: nat)
    ensures r <= count
  {
    if count == 0 then 0
    else Successes(oracle, from, count - 1, candidate) + if oracle(from + count - 1, candidate) then 1 else 0
  }

  datatype Config = Config(repetitions: nat, required: nat) {
    predicate Valid() { 1 <= required <= repetitions }
  }

  /** The vote the documentation describes: all repetitions, counted against the threshold. */
  predicate Vote<T>(oracle: Oracle<T>, cfg: Config, from: nat, candidate: seq<T>) {
    Successes(oracle, from, cfg.repetitions, candidate) >= cfg.required
  }

  lemma {:induction false} SuccessesMonotone<T>(oracle: Oracle<T>, from: nat, few: nat, many: nat, candidate: seq<T>)
    requires few <= many
    ensures Successes(oracle, from, few, candidate) <= Successes(oracle, from, many, candidate)
    ensures Successes(oracle, from, many, candidate) <= Successes(oracle, from, few, candidate) + (many - few)
    decreases many
  {
    if few < many { SuccessesMonotone(oracle, from, few, many - 1, candidate); }
  }

  /** After `count` attempts the vote could still go either way. */
  predicate Undecided<T>(oracle: Oracle<T>, cfg: Config, from: nat, count: nat, candidate: seq<T>)
    requires count <= cfg.repetitions
  {
    var s := Successes(oracle, from, count, candidate);
    s < cfg.required <= s + (cfg.repetitions - count)
  }

  /** The early-exit vote equals the full vote, and stops as soon as the outcome is settled. */
  method Preserves<T>(oracle: Oracle<T>, cfg: Config, attempts: nat, candidate: seq<T>)
    returns (ok: bool, attempts': nat)
    requires cfg.Valid()
    ensures ok <==> Vote(oracle, cfg, attempts, candidate)
    ensures attempts < attempts' <= attempts + cfg.repetitions
    ensures forall k :: 0 <= k < attempts' - attempts ==> Undecided(oracle, cfg, attempts, k, candidate)
    ensures !Undecided(oracle, cfg, attempts, attempts' - attempts, candidate)
  {
    var preserved := 0;
    attempts' := attempts;
    for run := 0 to cfg.repetitions
      invariant attempts' == attempts + run
      invariant preserved == Successes(oracle, attempts, run, candidate)
      invariant run < cfg.repetitions ==> Undecided(oracle, cfg, attempts, run, candidate)
      invariant preserved < cfg.required
      invariant forall k :: 0 <= k < run ==> Undecided(oracle, cfg, attempts, k, candidate)
    {
      attempts' := attempts' + 1;
      if oracle(attempts + run, candidate) { preserved := preserved + 1; }
      SuccessesMonotone(oracle, attempts, run + 1, cfg.repetitions, candidate);
      if preserved >= cfg.required { return true, attempts'; }
      if preserved + cfg.repetitions - run - 1 < cfg.required { return false, attempts'; }
    }
    return false, attempts';
  }

  // ---------------------------------------------------------------------------------
  // What a minimisation result means.

  /** The elements of `items` at the positions `keep`. */
  function Pick<T>(items: seq<T>, keep: seq<nat>): (r: seq<T>)
    requires forall i :: 0 <= i < |keep| ==> keep[i] < |items|
    ensures |r| == |keep|
    ensures forall i :: 0 <= i < |r| ==> r[i] == items[keep[i]]
  {
    seq(|keep|, i requires 0 <= i < |keep| => items[keep[i]])
  }

  /** `keep` lists positions of `items` in order, without repetition: `Pick` is then a subsequence. */
  predicate Positions(keep: seq<nat>, size: nat) {
    && (forall i :: 0 <= i < |keep| ==> keep[i] < size)
    && (forall i, j :: 0 <= i < j < |keep| ==> keep[i] < keep[j])
  }

  ghost predicate IsSubsequence<T>(part: seq<T>, whole: seq<T>) {
    exists keep: seq<nat> :: Positions(keep, |whole|) && part == Pick(whole, keep)
  }

  /** `current.slice(0, start).concat(current.slice(start + size))`. */
  function Cut<T>(s: seq<T>, start: nat, size: nat): (r: seq<T>)
    requires start <= |s|
    ensures |r| == |s| - if start + size <= |s| then size else |s| - start
  {
    s[..start] + if start + size <= |s| then s[start + size..] else []
  }

  lemma {:induction false} CutSubsequence<T>(s: seq<T>, start: nat, size: nat, whole: seq<T>)
    requires start <= |s| && IsSubsequence(s, whole)
    ensures IsSubsequence(Cut(s, start, size), whole)
  {
    var keep: seq<nat> :| Positions(keep, |whole|) && s == Pick(whole, keep);
    assert Positions(Cut(keep, start, size), |whole|) && Cut(s, start, size) == Pick(whole, Cut(keep, start, size));
  }

  lemma {:induction false} WholeSubsequence<T>(whole: seq<T>)
    ensures IsSubsequence(whole, whole)
  {
    var keep: seq<nat> := seq(|whole|, i => i);
    assert Positions(keep, |whole|) && whole == Pick(whole, keep);
  }

  /** A vote of the run: the attempts `from, .., from + used - 1` were spent on the candidate. */
  datatype Ballot<T> = Ballot(from: nat, used: nat, candidate: seq<T>, ok: bool)

  /**
   * The votes of a run, in order: every attempt before `attempts` belongs to exactly one of them, each took
   * exactly the attempts that settle it, and each came out as all repetitions would have.
   */
  ghost predicate Cast<T>(oracle: Oracle<T>, cfg: Config, ballots: seq<Ballot<T>>, attempts: nat) {
    if ballots == [] then attempts == 0
    else
      var b := ballots[|ballots| - 1];
      && b.from + b.used == attempts && 1 <= b.used <= cfg.repetitions
      && (b.ok <==> Vote(oracle, cfg, b.from, b.candidate))
      && (forall k :: 0 <= k < b.used ==> Undecided(oracle, cfg, b.from, k, b.candidate))
      && !Undecided(oracle, cfg, b.from, b.used, b.candidate)
      && Cast(oracle, cfg, ballots[..|ballots| - 1], b.from)
  }

  lemma {:induction false} CastSnoc<T>(oracle: Oracle<T>, cfg: Config, ballots: seq<Ballot<T>>, b: Ballot<T>)
    requires Cast(oracle, cfg, ballots, b.from) && 1 <= b.used <= cfg.repetitions
    requires b.ok <==> Vote(oracle, cfg, b.from, b.candidate)
    requires forall k :: 0 <= k < b.used ==> Undecided(oracle, cfg, b.from, k, b.candidate)
    requires !Undecided(oracle, cfg, b.from, b.used, b.candidate)
    ensures Cast(oracle, cfg, ballots + [b], b.from + b.used)
  {
    assert (ballots + [b])[..|ballots|] == ballots;
  }

  lemma {:induction false} CastVote<T>(oracle: Oracle<T>, cfg: Config, ballots: seq<Ballot<T>>, attempts: nat, k: nat)
    requires Cast(oracle, cfg, ballots, attempts) && k < |ballots|
    ensures ballots[k].from + ballots[k].used <= attempts
    ensures ballots[k].ok <==> Vote(oracle, cfg, ballots[k].from, ballots[k].candidate)
  {
    hide Vote, Undecided;
    if k < |ballots| - 1 { CastVote(oracle, cfg, ballots[..|ballots| - 1], ballots[|ballots| - 1].from, k); }
  }

  lemma {:induction false} CastCost<T>(oracle: Oracle<T>, cfg: Config, ballots: seq<Ballot<T>>, attempts: nat)
    requires Cast(oracle, cfg, ballots, attempts)
    ensures |ballots| <= attempts <= cfg.repetitions * |ballots|
  {
    hide Vote, Undecided;
    if ballots != [] {
      var n := |ballots| - 1;
      CastCost(oracle, cfg, ballots[..n], ballots[n].from);
      MulAdd(cfg.repetitions, n, 1);
    }
  }

  /** Some vote of the run found that the candidate preserves the failure. */
  predicate Accepted<T(==)>(ballots: seq<Ballot<T>>, candidate: seq<T>) {
    exists k :: 0 <= k < |ballots| && ballots[k].candidate == candidate && ballots[k].ok
  }

  /** Some vote of the run found that the candidate loses the failure. */
  predicate Refuted<T(==)>(ballots: seq<Ballot<T>>, candidate: seq<T>) {
    exists k :: 0 <= k < |ballots| && ballots[k].candidate == candidate && !ballots[k].ok
  }

  lemma {:induction false} VotesStay<T>(few: seq<Ballot<T>>, many: seq<Ballot<T>>, candidate: seq<T>)
    requires few <= many
    ensures Accepted(few, candidate) ==> Accepted(many, candidate)
    ensures Refuted(few, candidate) ==> Refuted(many, candidate)
  {
    assert forall k :: 0 <= k < |few| ==> many[k] == few[k];
  }

  lemma {:induction false} VoteCounts<T>(ballots: seq<Ballot<T>>, b: Ballot<T>)
    ensures if b.ok then Accepted(ballots + [b], b.candidate) else Refuted(ballots + [b], b.candidate)
  {
    assert (ballots + [b])[|ballots|] == b;
  }

  /** The deletions at the first positions were voted on and lost the failure. */
  predicate Tried<T(==)>(ballots: seq<Ballot<T>>, s: seq<T>, upto: nat) {
    forall i :: 0 <= i < upto && i < |s| ==> Refuted(ballots, Cut(s, i, 1))
  }

  /** Every single deletion that leaves something was voted on and lost the failure. */
  predicate OneMinimal<T(==)>(ballots: seq<Ballot<T>>, s: seq<T>) {
    |s| >= 2 ==> Tried(ballots, s, |s|)
  }

  lemma {:induction false} TriedMore<T>(few: seq<Ballot<T>>, many: seq<Ballot<T>>, s: seq<T>, upto: nat)
    requires few <= many && Tried(few, s, upto)
    ensures Tried(many, s, upto)
    ensures upto < |s| && Refuted(many, Cut(s, upto, 1)) ==> Tried(many, s, upto + 1)
  {
    hide Refuted, Cut;
    forall i | 0 <= i < upto && i < |s|
      ensures Refuted(many, Cut(s, i, 1))
    {
      VotesStay(few, many, Cut(s, i, 1));
    }
  }

  ghost predicate Deterministic<T(!new)>(oracle: Oracle<T>) {
    forall k: nat, l: nat, c :: oracle(k, c) == oracle(l, c)
  }

  /** For a deterministic oracle every vote is the oracle's answer, whatever the threshold. */
  lemma {:induction false} DeterministicVote<T(!new)>(oracle: Oracle<T>, cfg: Config, from: nat, candidate: seq<T>)
    requires Deterministic(oracle) && cfg.Valid()
    ensures Vote(oracle, cfg, from, candidate) <==> oracle(0, candidate)
  {
    DeterministicSuccesses(oracle, from, cfg.repetitions, candidate);
  }

  lemma {:induction false} DeterministicSuccesses<T(!new)>(oracle: Oracle<T>, from: nat, count: nat, candidate: seq<T>)
    requires Deterministic(oracle)
    ensures Successes(oracle, from, count, candidate) == if oracle(0, candidate) then count else 0
  {
    if count > 0 {
      DeterministicSuccesses(oracle, from, count - 1, candidate);
      assert oracle(from + count - 1, candidate) == oracle(0, candidate);
    }
  }

  lemma {:induction false} VotedDeterministic<T(!new)>(
    oracle: Oracle<T>, cfg: Config, ballots: seq<Ballot<T>>, attempts: nat, candidate: seq<T>)
    requires Deterministic(oracle) && cfg.Valid() && Cast(oracle, cfg, ballots, attempts)
    ensures Refuted(ballots, candidate) ==> !oracle(0, candidate)
    ensures Accepted(ballots, candidate) ==> oracle(0, candidate)
  {
    hide Cast, Vote;
    forall k | 0 <= k < |ballots| && ballots[k].candidate == candidate
      ensures ballots[k].ok <==> oracle(0, candidate)
    {
      CastVote(oracle, cfg, ballots, attempts, k);
      DeterministicVote(oracle, cfg, ballots[k].from, candidate);
    }
  }

  // ---------------------------------------------------------------------------------
  // Cost: a vote budget that pays for every pass at every size.

  /** 1 + 2 + .. + n */
  function Triangle(n: nat): nat {
    if n == 0 then 0 else n + Triangle(n - 1)
  }

  lemma {:induction false} TriangleClosed(n: nat)
    ensures 2 * Triangle(n) == n * (n + 1)
  {
    if n > 0 { TriangleClosed(n - 1); }
  }

  lemma {:induction false} TriangleSteps(small: nat, large: nat)
    requires small < large
    ensures Triangle(small) + large <= Triangle(large)
    decreases large
  {
    if small < large - 1 { TriangleSteps(small, large - 1); }
  }

  /** The votes that a run on `n` items can cost. */
  function Budget(n: nat): nat
    requires n >= 1
  {
    3 * Triangle(n) - 1
  }

  /** The budget is within the quadratic bound 4n^2 + 1 (and about 3/2 n^2). */
  lemma {:induction false} BudgetQuadratic(n: nat)
    requires n >= 1
    ensures 2 * Budget(n) == 3 * n * (n + 1) - 2
    ensures Budget(n) <= 4 * n * n + 1
  {
    TriangleClosed(n);
    assert 3 * n * (n + 1) == 3 * n * n + 3 * n;
    assert n <= n * n;
  }

  /** The votes that rounds at this list size can still cost: the granularity doubles up to the size. */
  function LevelBudget(size: nat, granularity: nat): int {
    if granularity >= size then size else 3 * size - granularity
  }

  /** The votes that remain for a list of this size, all smaller sizes included. */
  function Remaining(size: nat, granularity: nat): int
    requires size >= 1
  {
    LevelBudget(size, granularity) + 3 * Triangle(size - 1)
  }

  lemma {:induction false} RemainingInitially(size: nat)
    requires size >= 1
    ensures 1 + Remaining(size, 2) <= Budget(size)
  {
    if size == 2 { assert Triangle(1) == 1 && Triangle(2) == 3; }
  }

  lemma {:induction false} RemainingReduced(size: nat, granularity: nat, spent: nat, size': nat, granularity': nat)
    requires 2 <= granularity <= size && spent <= granularity && 1 <= size' < size
    ensures spent + Remaining(size', granularity') <= Remaining(size, granularity)
  {
    if size' < size - 1 { TriangleSteps(size', size - 1); }
    assert Triangle(size') == size' + Triangle(size' - 1);
  }

  lemma {:induction false} RemainingRefined(size: nat, granularity: nat, spent: nat)
    requires 2 <= granularity <= size && spent <= granularity
    ensures granularity < size ==>
              spent + Remaining(size, if size <= granularity * 2 then size else granularity * 2)
              <= Remaining(size, granularity)
    ensures granularity == size ==> spent + Triangle(size) <= Remaining(size, granularity)
  {
    TriangleSteps(0, size - 1);
    assert Triangle(size) == size + Triangle(size - 1);
  }

  /** `Math.ceil(length / granularity)`. */
  function ChunkSize(length: nat, granularity: nat): nat
    requires granularity >= 1
  {
    (length + granularity - 1) / granularity
  }

  lemma {:induction false} ChunkBounds(length: nat, granularity: nat)
    requires 2 <= granularity <= length
    ensures
      var chunk := ChunkSize(length, granularity);
      && 1 <= chunk && chunk * granularity >= length
      && length - chunk >= granularity - 1
      && (granularity == length ==> chunk == 1)
  {
    var chunk := ChunkSize(length, granularity);
    assert chunk * granularity <= length + granularity - 1 < (chunk + 1) * granularity;
    assert chunk >= 1;
    if length - chunk < granularity - 1 {
      var over := length - granularity + 2;
      MulMonotone(over, chunk, granularity);
      assert over * granularity == length + granularity + (length - granularity) * (granularity - 1);
      MulMonotone(0, length - granularity, granularity - 1);
      assert false;
    }
    if granularity == length {
      if chunk >= 2 { MulMonotone(2, chunk, granularity); }
    }
  }

  lemma {:induction false} ChunkRest(length: nat, granularity: nat)
    requires 2 <= granularity <= length
    ensures length - ChunkSize(length, granularity) >= granularity - 1
  {
    ChunkBounds(length, granularity);
  }

  lemma {:induction false} MulMonotone(a: int, b: int, c: int)
    requires a <= b && 0 <= c
    ensures a * c <= b * c
  {
  }

  /** A pass over the chunks makes at most `granularity` votes. */
  lemma {:induction false} ChunkCount(passed: nat, chunk: nat, granularity: nat, length: nat)
    requires chunk * granularity >= length && passed * chunk < length
    ensures passed < granularity && (passed + 1) * chunk == passed * chunk + chunk
  {
    if passed >= granularity { MulMonotone(granularity, passed, chunk); }
  }

  // ---------------------------------------------------------------------------------
  // The algorithm.

  lemma {:induction false} NothingTried<T>(ballots: seq<Ballot<T>>, s: seq<T>)
    ensures Tried(ballots, s, 0)
  {
  }

  /** One vote, entered in the list of votes. */
  method Ask<T>(oracle: Oracle<T>, cfg: Config, attempts: nat, candidate: seq<T>, ghost ballots: seq<Ballot<T>>)
    returns (ok: bool, attempts': nat, ghost ballots': seq<Ballot<T>>)
    requires cfg.Valid() && Cast(oracle, cfg, ballots, attempts)
    ensures Cast(oracle, cfg, ballots', attempts') && attempts < attempts'
    ensures ballots' == ballots + [Ballot(attempts, attempts' - attempts, candidate, ok)]
    ensures if ok then Accepted(ballots', candidate) else Refuted(ballots', candidate)
    ensures ok <==> Vote(oracle, cfg, attempts, candidate)
  {
    ok, attempts' := Preserves(oracle, cfg, attempts, candidate);
    ghost var b := Ballot(attempts, attempts' - attempts, candidate, ok);
    ballots' := ballots + [b];
    hide Vote, Undecided, Cast, Accepted, Refuted;
    CastSnoc(oracle, cfg, ballots, b);
    VoteCounts(ballots, b);
  }

  /** One pass of lines 32-38: try each chunk's complement, stop at the first that still fails. */
  method TryChunks<T>(
    oracle: Oracle<T>, cfg: Config, attempts: nat, current: seq<T>, granularity: nat, ghost ballots: seq<Ballot<T>>)
    returns (reduced: bool, next: seq<T>, attempts': nat, ghost ballots': seq<Ballot<T>>)
    requires cfg.Valid() && 2 <= granularity <= |current| && Cast(oracle, cfg, ballots, attempts)
    ensures Cast(oracle, cfg, ballots', attempts') && ballots <= ballots' && |ballots'| <= |ballots| + granularity
    ensures reduced ==>
              && next != [] && |current| > |next| >= |current| - ChunkSize(|current|, granularity)
              && Accepted(ballots', next)
              && exists start :: 0 <= start < |current|
                   && next == Cut(current, start, ChunkSize(|current|, granularity))
    ensures !reduced ==> next == current
    ensures !reduced && granularity == |current| ==> OneMinimal(ballots', current)
  {
    var chunk := ChunkSize(|current|, granularity);
    ChunkBounds(|current|, granularity);
    hide ChunkSize, Vote, Cast, Accepted, Refuted, Tried, Undecided;
    assert Tried(ballots, current, 0) by { NothingTried(ballots, current); }
    reduced, next, attempts', ballots' := false, current, attempts, ballots;
    var start := 0;
    ghost var passed := 0;
    while start < |current|
      invariant start == passed * chunk && passed <= granularity
      invariant Cast(oracle, cfg, ballots', attempts') && ballots <= ballots' && |ballots'| <= |ballots| + passed
      invariant chunk == 1 ==> Tried(ballots', current, start)
    {
      var candidate := Cut(current, start, chunk);
      ghost var before := ballots';
      ChunkCount(passed, chunk, granularity, |current|);
      if candidate != [] {
        var ok, used;
        ok, used, ballots' := Ask(oracle, cfg, attempts', candidate, ballots');
        if ok { return true, candidate, used, ballots'; }
        attempts' := used;
        if chunk == 1 { TriedMore(before, ballots', current, start); }
      }
      passed := passed + 1;
      start := start + chunk;
    }
  }

  /** What the run knows about its current list, given the votes cast so far. */
  ghost predicate Known<T>(items: seq<T>, ballots: seq<Ballot<T>>, current: seq<T>) {
    current != [] && IsSubsequence(current, items) && Accepted(ballots, current)
  }

  /** The loop of lines 29-42.  It ends because each round shrinks the list or, at equal size, the chunks. */
  method Ddmin<T>(items: seq<T>, oracle: Oracle<T>, cfg: Config, attempts: nat, ghost ballots: seq<Ballot<T>>)
    returns (current: seq<T>, attempts': nat, ghost ballots': seq<Ballot<T>>)
    requires cfg.Valid() && items != [] && Accepted(ballots, items)
    requires Cast(oracle, cfg, ballots, attempts) && |ballots| == 1
    ensures Cast(oracle, cfg, ballots', attempts') && ballots <= ballots'
    ensures current != [] && IsSubsequence(current, items)
    ensures Known(items, ballots', current) && OneMinimal(ballots', current)
    ensures |ballots'| + Triangle(|current|) <= Budget(|items|)
  {
    WholeSubsequence(items);
    RemainingInitially(|items|);
    assert Triangle(1) == 1 && Remaining(1, 2) == 1;
    hide ChunkSize, Vote, Undecided, Cast, Triangle, Remaining, Budget, IsSubsequence, Accepted, Refuted, Tried, Cut;
    current, attempts', ballots' := items, attempts, ballots;
    var granularity := 2;
    while |current| >= 2
      invariant Cast(oracle, cfg, ballots', attempts') && ballots <= ballots'
      invariant Known(items, ballots', current)
      invariant granularity >= 2 && (|current| >= 2 ==> granularity <= |current|)
      invariant |ballots'| + Remaining(|current|, granularity) <= Budget(|items|)
      decreases |current|, |current| - granularity
    {
      ghost var size := |current|;
      ghost var before := ballots';
      var reduced, next, used;
      reduced, next, used, ballots' := TryChunks(oracle, cfg, attempts', current, granularity, ballots');
      ghost var spent := |ballots'| - |before|;
      ChunkRest(size, granularity);
      attempts' := used;
      if reduced {
        ghost var start :| 0 <= start < size && next == Cut(current, start, ChunkSize(size, granularity));
        CutSubsequence(current, start, ChunkSize(size, granularity), items);
        RemainingReduced(size, granularity, spent, |next|, Max(2, granularity - 1));
        current := next;
        granularity := Max(2, granularity - 1);
        continue;
      }
      RemainingRefined(size, granularity, spent);
      VotesStay(before, ballots', current);
      if granularity >= |current| { return; }
      granularity := if |current| <= granularity * 2 then |current| else granularity * 2;
    }
  }

  lemma {:induction false} MulAdd(a: int, b: int, c: int)
    ensures a * (b + c) == a * b + a * c
  {
  }

  /** The deletion pass of lines 43-46, restarted after every deletion. */
  method FinalPass<T(!new)>(
    items: seq<T>, oracle: Oracle<T>, cfg: Config, start: seq<T>, attempts: nat, ghost ballots: seq<Ballot<T>>)
    returns (current: seq<T>, attempts': nat, ghost ballots': seq<Ballot<T>>)
    requires cfg.Valid() && items != [] && Cast(oracle, cfg, ballots, attempts)
    requires Known(items, ballots, start) && |ballots| + Triangle(|start|) <= Budget(|items|)
    ensures Cast(oracle, cfg, ballots', attempts') && ballots <= ballots' && |ballots'| <= Budget(|items|)
    ensures current != [] && IsSubsequence(current, items)
    ensures Known(items, ballots', current) && OneMinimal(ballots', current)
    ensures Deterministic(oracle) && OneMinimal(ballots, start) ==> current == start
  {
    hide Vote, Undecided, Cast, Triangle, Budget, IsSubsequence, Accepted, Refuted, Deterministic;
    current, attempts', ballots' := start, attempts, ballots;
    var index := 0;
    while index < |current|
      invariant index <= |current|
      invariant Cast(oracle, cfg, ballots', attempts') && ballots <= ballots'
      invariant Known(items, ballots', current)
      invariant |current| >= 2 ==> Tried(ballots', current, index)
      invariant |ballots'| + Triangle(|current|) - index <= Budget(|items|)
      invariant Deterministic(oracle) && OneMinimal(ballots, start) ==> current == start
      decreases |current|, |current| - index
    {
      var candidate := Cut(current, index, 1);
      if candidate == [] {
        index := index + 1;
        continue;
      }
      ghost var before := ballots';
      var ok, used;
      ok, used, ballots' := Ask(oracle, cfg, attempts', candidate, ballots');
      attempts' := used;
      if ok {
        if Deterministic(oracle) {
          VotedDeterministic(oracle, cfg, ballots', attempts', candidate);
          VotesStay(ballots, ballots', candidate);
        }
        CutSubsequence(current, index, 1, items);
        TriangleSteps(|candidate|, |current|);
        current := candidate;
        index := 0;
      } else {
        if |current| >= 2 { TriedMore(before, ballots', current, index); }
        VotesStay(before, ballots', current);
        index := index + 1;
      }
    }
    TriangleSteps(0, |current|);
  }

  datatype Minimization<T> = Minimization(originalSize: nat, minimized: seq<T>, attempts: nat, cfg: Config)

  const MAX_SAFE_INTEGER := 0x1F_FFFF_FFFF_FFFF

  function Requested(repetitions: Option<int>, required: Option<int>): (int, int) {
    var r := if repetitions.Some? then repetitions.value else 1;
    (r, if required.Some? then required.value else r)
  }

  predicate Acceptable(repetitions: int, required: int) {
    1 <= required <= repetitions <= MAX_SAFE_INTEGER
  }

  /**
   * `minimizeFailure`.  For every oracle: it fails exactly on an empty list, a bad threshold, or an
   * original that does not pass its vote; otherwise it terminates with a non-empty subsequence that passed a
   * vote of this run and whose single deletions each failed one, within `Budget(n)` votes and `repetitions`
   * times as many attempts.  For a deterministic oracle that is 1-minimality outright, and the final pass
   * removes nothing.
   */
  method MinimizeFailure<T(!new)>(items: seq<T>, oracle: Oracle<T>, repetitions: Option<int>, required: Option<int>)
    returns (r: Result<Minimization<T>>, ghost afterDdmin: seq<T>, ghost ballots: seq<Ballot<T>>)
    ensures r.Ok? <==>
            && items != []
            && Acceptable(Requested(repetitions, required).0, Requested(repetitions, required).1)
            && Vote(oracle, Config(Requested(repetitions, required).0, Requested(repetitions, required).1), 0, items)
    ensures r.Ok? ==>
            var m := r.value;
            && m.originalSize == |items|
            && (m.cfg.repetitions, m.cfg.required) == Requested(repetitions, required)
            && m.minimized != [] && IsSubsequence(m.minimized, items)
            && Cast(oracle, m.cfg, ballots, m.attempts) && |ballots| <= Budget(|items|)
            && Accepted(ballots, m.minimized) && OneMinimal(ballots, m.minimized)
            && m.attempts <= m.cfg.repetitions * Budget(|items|)
    ensures r.Ok? && Deterministic(oracle) ==>
            && oracle(0, r.value.minimized)
            && (forall i :: 0 <= i < |r.value.minimized| && |r.value.minimized| >= 2 ==>
                  !oracle(0, Cut(r.value.minimized, i, 1)))
            && r.value.minimized == afterDdmin
  {
    afterDdmin, ballots := items, [];
    if items == [] { return Err("cannot minimize an empty reproduction"), items, []; }
    var requested := Requested(repetitions, required);
    if !Acceptable(requested.0, requested.1) {
      return Err("invalid minimization repetition threshold"), items, [];
    }
    var cfg := Config(requested.0, requested.1);
    var ok, attempts;
    ok, attempts, ballots := Ask(oracle, cfg, 0, items, []);
    if !ok { return Err("original reproduction does not preserve the target failure"), items, ballots; }
    hide Vote, Cast, Accepted, Refuted, Budget, IsSubsequence;
    var current, used;
    current, used, ballots := Ddmin(items, oracle, cfg, attempts, ballots);
    afterDdmin := current;
    var minimized, total;
    minimized, total, ballots := FinalPass(items, oracle, cfg, current, used, ballots);
    CastCost(oracle, cfg, ballots, total);
    MulMonotone(|ballots|, Budget(|items|), cfg.repetitions);
    if Deterministic(oracle) {
      VotedDeterministic(oracle, cfg, ballots, total, minimized);
      forall i | 0 <= i < |minimized| && |minimized| >= 2 ensures !oracle(0, Cut(minimized, i, 1)) {
        VotedDeterministic(oracle, cfg, ballots, total, Cut(minimized, i, 1));
      }
    }
    r := Ok(Minimization(|items|, minimized, total, cfg));
  }
}
