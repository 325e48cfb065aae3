/**
 * The trajectory sample builder of integrations/slime_agent_kernel/sample_builder.py:
 * it merges the token captures of the turns of a rollout into training samples by
 * extending the accumulated tokens, realigning them after drift, or forking a new sample.
 *
 * `Builder` is the object the source mutates.  Its fields are specified by functions of
 * the turns merged so far (`SegmentTokens`, `Overlay`), and what the source promises of
 * the samples is proved about those functions.
 */
module SampleBuilder {
  import opened Common

  const SCHEMA_VERSION := "agent.policy_token_capture.v1"

  /** The optional field of a capture: missing, present but null or a scalar, or a list. */
  datatype LogProbs = Missing | NotAList | Given(values: seq<real>)

  /** A token capture as loaded from JSON; `None` is a field that is missing or not a list. */
  datatype Capture = Capture(
    schemaVersion: string,
    promptIds: Option<seq<int>>,
    outputIds: Option<seq<int>>,
    responseMask: Option<seq<int>>,
    outputLogProbs: LogProbs)

  /** A capture that passed validation. */
  datatype Turn = Turn(prompt: seq<int>, output: seq<int>, mask: seq<int>, logProbs: seq<real>) {
    function Tokens(): seq<int> { prompt + output }

    predicate Valid(requireLogProbs: bool) {
      && prompt != [] && output != []
      && |mask| == |output|
      && (requireLogProbs ==> |logProbs| == |output|)
    }
  }

  function Validate(capture: Capture, requireLogProbs: bool): (r: Result<Turn>)
    ensures r.Ok? ==> r.value.Valid(requireLogProbs)
    ensures r.Ok? <==>
            && capture.schemaVersion == SCHEMA_VERSION
            && capture.promptIds.Some? && capture.outputIds.Some? && capture.responseMask.Some?
            && (requireLogProbs ==> capture.outputLogProbs.Given?)
            && TurnOf(capture).Valid(requireLogProbs)
    ensures r.Ok? ==> r.value == TurnOf(capture)
  {
    if capture.schemaVersion != SCHEMA_VERSION then Err("invalid token capture schemaVersion")
    else if capture.promptIds.None? || capture.promptIds.value == [] then Err("promptIds must be non-empty")
    else if capture.outputIds.None? || capture.outputIds.value == [] then Err("outputIds must be non-empty")
    else if capture.responseMask.None? || |capture.responseMask.value| != |capture.outputIds.value| then
      Err("responseMask length does not match outputIds")
    else if requireLogProbs &&
            (!capture.outputLogProbs.Given? || |capture.outputLogProbs.values| != |capture.outputIds.value|) then
      Err("outputLogProbs are required and must align with outputIds")
    else Ok(TurnOf(capture))
  }

  function OrEmpty<T>(s: Option<seq<T>>): seq<T> {
    if s.Some? then s.value else []
  }

  /** The fields `append` reads; a missing log-probability list is read as the empty one. */
  function TurnOf(capture: Capture): Turn {
    Turn(OrEmpty(capture.promptIds), OrEmpty(capture.outputIds),
         OrEmpty(capture.responseMask), if capture.outputLogProbs.Given? then capture.outputLogProbs.values else [])
  }

  /**
   * A capture as the build loop takes it: validated, and then read by `append`, which cannot extend its list by
   * a log-probability field that is present but no list.
   */
  function Admit(capture: Capture, requireLogProbs: bool): (r: Result<Turn>)
    ensures r.Ok? <==> Validate(capture, requireLogProbs).Ok? && !capture.outputLogProbs.NotAList?
    ensures r.Ok? ==> r.value == TurnOf(capture)
  {
    if Validate(capture, requireLogProbs).Ok? && capture.outputLogProbs.NotAList? then Err("object is not iterable")
    else Validate(capture, requireLogProbs)
  }

  // ---------------------------------------------------------------------------------
  // Segments: runs of turns that share one sample.

  /** Turn `next` continues the sample that ends in turn `last`: it extends it, or realigns it. */
  predicate Linked(last: Turn, next: Turn, threshold: int) {
    || last.Tokens() <= next.prompt
    || (last.prompt <= next.prompt && |next.output| < threshold)
  }

  predicate IsSegment(turns: seq<Turn>, threshold: int) {
    forall j :: 0 <= j < |turns| - 1 ==> Linked(turns[j], turns[j + 1], threshold)
  }

  predicate AllValid(turns: seq<Turn>, requireLogProbs: bool) {
    forall j :: 0 <= j < |turns| ==> turns[j].Valid(requireLogProbs)
  }

  function SegmentTokens(turns: seq<Turn>): seq<int> {
    if turns == [] then [] else turns[|turns| - 1].Tokens()
  }

  /** `count` copies of `zero`: the mask and log-probability written for prompt tokens. */
  function Zeros<T>(count: nat, zero: T): (r: seq<T>)
    ensures |r| == count && forall i :: 0 <= i < count ==> r[i] == zero
  {
    seq(count, _ => zero)
  }

  /** Python's `s[:n]`, which clamps to the length of `s`. */
  function Take<T>(s: seq<T>, n: nat): seq<T> {
    if n <= |s| then s[..n] else s
  }

  /** A per-token array (mask or log-probabilities) after the turns were appended in order. */
  function Overlay<T>(turns: seq<Turn>, marks: Turn -> seq<T>, zero: T): seq<T> {
    if turns == [] then []
    else OverlayNext(turns[..|turns| - 1], Overlay(turns[..|turns| - 1], marks, zero),
                     turns[|turns| - 1], marks, zero)
  }

  /** Reaching the next prompt: extend with the prompt tail, or cut back to the last response and refill. */
  function OverlayPrompt<T>(before: seq<Turn>, marked: seq<T>, next: Turn, zero: T): seq<T> {
    var tokens := SegmentTokens(before);
    if before == [] || tokens <= next.prompt then
      marked + Zeros(Max(0, |next.prompt| - |tokens|), zero)
    else
      var start := |before[|before| - 1].prompt|;
      Take(marked, start) + Zeros(Max(0, |next.prompt| - start), zero)
  }

  function OverlayNext<T>(before: seq<Turn>, marked: seq<T>, next: Turn, marks: Turn -> seq<T>, zero: T): seq<T> {
    OverlayPrompt(before, marked, next, zero) + marks(next)
  }

  lemma {:induction false} OverlayAppend<T>(before: seq<Turn>, next: Turn, marks: Turn -> seq<T>, zero: T)
    ensures Overlay(before + [next], marks, zero)
         == OverlayNext(before, Overlay(before, marks, zero), next, marks, zero)
  {
    assert (before + [next])[..|before|] == before;
  }

  function MaskOf(): Turn -> seq<int> { (t: Turn) => t.mask }

  function LogProbsOf(): Turn -> seq<real> { (t: Turn) => t.logProbs }

  function LogArray(turns: seq<Turn>): seq<real> {
    Overlay(turns, LogProbsOf(), 0.0)
  }

  /** Turn `j` keeps its response: it is the last turn, or the next prompt contains it verbatim. */
  predicate Survives(turns: seq<Turn>, j: int)
    requires 0 <= j < |turns|
  {
    j == |turns| - 1 || turns[j].Tokens() <= turns[j + 1].prompt
  }

  /** Position `i` lies in the response of a surviving turn `j`. */
  predicate Covers(turns: seq<Turn>, j: int, i: int) {
    && 0 <= j < |turns|
    && Survives(turns, j)
    && |turns[j].prompt| <= i < |turns[j].Tokens()|
  }

  predicate MarksAlign<T>(turns: seq<Turn>, marks: Turn -> seq<T>) {
    forall j :: 0 <= j < |turns| ==> |marks(turns[j])| == |turns[j].output|
  }

  /** The exact content of `Overlay`, without its recursion. */
  ghost predicate Laid<T(!new)>(turns: seq<Turn>, marked: seq<T>, marks: Turn -> seq<T>, zero: T)
    requires MarksAlign(turns, marks)
  {
    && |marked| == |SegmentTokens(turns)|
    && (forall j, i :: Covers(turns, j, i) && i < |marked| ==> marked[i] == marks(turns[j])[i - |turns[j].prompt|])
    && (forall i :: 0 <= i < |marked| && (forall j :: !Covers(turns, j, i)) ==> marked[i] == zero)
  }

  /** Prompts only grow along a segment, and a surviving turn stays a prefix of every later prompt. */
  lemma {:induction false} SegmentPrefixes(turns: seq<Turn>, threshold: int, j: int, k: int)
    requires IsSegment(turns, threshold)
    requires 0 <= j <= k < |turns|
    ensures turns[j].prompt <= turns[k].prompt
    ensures j < k && Survives(turns, j) ==> turns[j].Tokens() <= turns[k].prompt
    ensures Survives(turns, j) ==> turns[j].Tokens() <= turns[k].Tokens()
    decreases k - j
  {
    if j < k {
      SegmentPrefixes(turns, threshold, j, k - 1);
      assert Linked(turns[k - 1], turns[k], threshold);
      assert turns[k - 1].prompt <= turns[k].prompt;
    }
  }

  lemma {:induction false} CoversStable(turns: seq<Turn>, next: Turn, j: int, i: int)
    requires turns != []
    ensures Covers(turns + [next], j, i) <==>
            || (j < |turns| - 1 && Covers(turns, j, i))
            || (j == |turns| - 1 && turns[j].Tokens() <= next.prompt && Covers(turns, j, i))
            || (j == |turns| && |next.prompt| <= i < |next.Tokens()|)
  {
    var both := turns + [next];
    assert forall m :: 0 <= m < |turns| ==> both[m] == turns[m];
  }

  /** In a segment, every covered position of an earlier turn lies before the later turn's prompt ends. */
  lemma {:induction false} CoveredBefore(turns: seq<Turn>, threshold: int, j: int, k: int, i: int)
    requires IsSegment(turns, threshold)
    requires 0 <= j < k < |turns| && Covers(turns, j, i)
    ensures i < |turns[k].prompt|
  {
    SegmentPrefixes(turns, threshold, j, k);
  }

  lemma {:induction false} OverlayLaid<T(!new)>(turns: seq<Turn>, threshold: int, marks: Turn -> seq<T>, zero: T)
    requires IsSegment(turns, threshold)
    requires MarksAlign(turns, marks)
    ensures Laid(turns, Overlay(turns, marks, zero), marks, zero)
  {
    if turns != [] {
      var n := |turns| - 1;
      var before, next := turns[..n], turns[n];
      assert turns == before + [next];
      OverlayLaid(before, threshold, marks, zero);
      if before == [] {
        LaidFirst(next, marks, zero);
      } else {
        assert Linked(turns[n - 1], turns[n], threshold);
        LaidNext(before, threshold, Overlay(before, marks, zero), next, marks, zero);
      }
    }
  }

  lemma {:induction false} LaidFirst<T(!new)>(next: Turn, marks: Turn -> seq<T>, zero: T)
    requires |marks(next)| == |next.output|
    ensures Laid([next], OverlayNext([], [], next, marks, zero), marks, zero)
  {
    var marked := OverlayNext([], [], next, marks, zero);
    forall i | 0 <= i < |marked| && (forall j :: !Covers([next], j, i)) ensures marked[i] == zero {
      assert !Covers([next], 0, i);
    }
  }

  /** How much of a segment's arrays survives the next prompt. */
  function Kept(last: Turn, next: Turn): nat {
    if last.Tokens() <= next.prompt then |last.Tokens()| else |last.prompt|
  }

  lemma {:induction false} OverlayKept<T>(
    before: seq<Turn>, marked: seq<T>, next: Turn, marks: Turn -> seq<T>, zero: T, threshold: int)
    requires before != [] && Linked(before[|before| - 1], next, threshold)
    requires |marked| == |SegmentTokens(before)|
    ensures Kept(before[|before| - 1], next) <= |marked| && Kept(before[|before| - 1], next) <= |next.prompt|
    ensures OverlayNext(before, marked, next, marks, zero)
         == marked[..Kept(before[|before| - 1], next)]
          + Zeros(|next.prompt| - Kept(before[|before| - 1], next), zero) + marks(next)
  {
    var last := before[|before| - 1];
    if last.Tokens() <= next.prompt {
      assert marked[..|last.Tokens()|] == marked;
    } else {
      assert last.prompt <= next.prompt;
    }
  }

  lemma {:induction false} LaidNext<T(!new)>(before: seq<Turn>, threshold: int, marked: seq<T>, next: Turn,
                                             marks: Turn -> seq<T>, zero: T)
    requires before != []
    requires IsSegment(before, threshold) && Linked(before[|before| - 1], next, threshold)
    requires MarksAlign(before + [next], marks) && MarksAlign(before, marks)
    requires Laid(before, marked, marks, zero)
    ensures Laid(before + [next], OverlayNext(before, marked, next, marks, zero), marks, zero)
  {
    hide *;
    var kept := Kept(before[|before| - 1], next);
    LaidLength(before, marked, marks, zero);
    OverlayKept(before, marked, next, marks, zero, threshold);
    var result := marked[..kept] + Zeros(|next.prompt| - kept, zero) + marks(next);
    NextLength(before, next, marks);
    UncoveredZero(before, threshold, marked, next, marks, zero, kept);
    forall j, i | Covers(before + [next], j, i) && i < |result| ensures MarkAt(before + [next], result, marks, j, i) {
      CoveredValue(before, threshold, marked, next, marks, zero, kept, j, i);
    }
    LaidFrom(before + [next], result, marks, zero);
  }

  lemma {:induction false} LaidLength<T(!new)>(turns: seq<Turn>, marked: seq<T>, marks: Turn -> seq<T>, zero: T)
    requires MarksAlign(turns, marks) && Laid(turns, marked, marks, zero)
    ensures |marked| == |SegmentTokens(turns)|
  {
    hide Covers;
  }

  lemma {:induction false} NextLength<T>(before: seq<Turn>, next: Turn, marks: Turn -> seq<T>)
    requires MarksAlign(before + [next], marks)
    ensures |SegmentTokens(before + [next])| == |next.prompt| + |marks(next)|
  {
    assert (before + [next])[|before|] == next;
  }

  /** Position `i` has the mark that turn `j` gives it. */
  predicate MarkAt<T(==)>(turns: seq<Turn>, marked: seq<T>, marks: Turn -> seq<T>, j: int, i: int) {
    && 0 <= j < |turns| && 0 <= i - |turns[j].prompt| < |marks(turns[j])| && i < |marked|
    && marked[i] == marks(turns[j])[i - |turns[j].prompt|]
  }

  lemma {:induction false} LaidFrom<T(!new)>(turns: seq<Turn>, marked: seq<T>, marks: Turn -> seq<T>, zero: T)
    requires MarksAlign(turns, marks) && |marked| == |SegmentTokens(turns)|
    requires forall j, i :: Covers(turns, j, i) && i < |marked| ==> MarkAt(turns, marked, marks, j, i)
    requires forall i :: 0 <= i < |marked| && (forall j :: !Covers(turns, j, i)) ==> marked[i] == zero
    ensures Laid(turns, marked, marks, zero)
  {
    hide SegmentTokens, Survives;
  }

  lemma {:induction false} CoveredValue<T(!new)>(
    before: seq<Turn>, threshold: int, marked: seq<T>, next: Turn, marks: Turn -> seq<T>, zero: T, kept: nat,
    j: int, i: int)
    requires before != [] && IsSegment(before, threshold)
    requires kept == Kept(before[|before| - 1], next) && kept <= |marked| && kept <= |next.prompt|
    requires MarksAlign(before + [next], marks) && MarksAlign(before, marks) && Laid(before, marked, marks, zero)
    requires Covers(before + [next], j, i) && i < |next.prompt| + |marks(next)|
    ensures MarkAt(before + [next], marked[..kept] + Zeros(|next.prompt| - kept, zero) + marks(next), marks, j, i)
  {
    hide Linked, IsSegment, Survives;
    assert (before + [next])[|before|] == next;
    if j < |before| { KeptCovered(before, threshold, next, j, i); }
  }

  lemma {:induction false} UncoveredZero<T(!new)>(
    before: seq<Turn>, threshold: int, marked: seq<T>, next: Turn, marks: Turn -> seq<T>, zero: T, kept: nat)
    requires before != [] && kept == Kept(before[|before| - 1], next) && kept <= |marked| && kept <= |next.prompt|
    requires MarksAlign(before + [next], marks) && MarksAlign(before, marks) && Laid(before, marked, marks, zero)
    ensures
      var result := marked[..kept] + Zeros(|next.prompt| - kept, zero) + marks(next);
      forall i :: 0 <= i < |result| && (forall j :: !Covers(before + [next], j, i)) ==> result[i] == zero
  {
    assert (before + [next])[|before|] == next;
    var result := marked[..kept] + Zeros(|next.prompt| - kept, zero) + marks(next);
    forall i | 0 <= i < |result| && (forall j :: !Covers(before + [next], j, i)) ensures result[i] == zero {
      assert !Covers(before + [next], |before|, i);
      if i < kept { UncoveredBefore(before, threshold, next, i); }
    }
  }

  /** A position an earlier turn covers after the append was covered before, and is kept. */
  lemma {:induction false} KeptCovered(before: seq<Turn>, threshold: int, next: Turn, j: int, i: int)
    requires before != [] && IsSegment(before, threshold)
    requires j < |before| && Covers(before + [next], j, i)
    ensures Covers(before, j, i) && (before + [next])[j] == before[j]
    ensures i < Kept(before[|before| - 1], next)
  {
    CoversStable(before, next, j, i);
    if j < |before| - 1 { CoveredBefore(before, threshold, j, |before| - 1, i); }
  }

  /** A kept position no turn covers afterwards was not covered before either. */
  lemma {:induction false} UncoveredBefore(before: seq<Turn>, threshold: int, next: Turn, i: int)
    requires before != []
    requires i < Kept(before[|before| - 1], next)
    requires forall j :: !Covers(before + [next], j, i)
    ensures forall j :: !Covers(before, j, i)
  {
    forall j ensures !Covers(before, j, i) {
      CoversStable(before, next, j, i);
      assert !Covers(before + [next], j, i);
    }
  }

  /** Position `i` is trained exactly as turn `j` sampled it: same context, token, mask and log-probability. */
  predicate OnPolicy(turns: seq<Turn>, tokens: seq<int>, mask: seq<int>, logProbs: seq<real>, j: int, i: int) {
    && Covers(turns, j, i)
    && i < |tokens| && i < |mask| && i < |logProbs|
    && turns[j].Tokens()[..i + 1] == tokens[..i + 1]
    && |turns[j].mask| == |turns[j].output| == |turns[j].logProbs|
    && mask[i] == turns[j].mask[i - |turns[j].prompt|]
    && logProbs[i] == turns[j].logProbs[i - |turns[j].prompt|]
  }

  /** A surviving turn's response stands in the segment's tokens under its own context. */
  lemma {:induction false} CoveredContext(turns: seq<Turn>, threshold: int, j: int, i: int)
    requires IsSegment(turns, threshold)
    requires Covers(turns, j, i)
    ensures i < |SegmentTokens(turns)| && turns[j].Tokens()[..i + 1] == SegmentTokens(turns)[..i + 1]
  {
    SegmentPrefixes(turns, threshold, j, |turns| - 1);
  }

  /** A non-zero mark can only come from a surviving turn. */
  lemma {:induction false} MarkedCovered<T(!new)>(
    turns: seq<Turn>, marked: seq<T>, marks: Turn -> seq<T>, zero: T, i: int)
    returns (j: int)
    requires MarksAlign(turns, marks) && Laid(turns, marked, marks, zero)
    requires 0 <= i < |marked| && marked[i] != zero
    ensures Covers(turns, j, i)
  {
    j :| Covers(turns, j, i);
  }

  /** Every position of a surviving turn is trained with that turn's context, mask and log-probability. */
  lemma {:induction false} CoveredOnPolicy(turns: seq<Turn>, threshold: int, j: int, i: int)
    requires IsSegment(turns, threshold) && AllValid(turns, true)
    requires Covers(turns, j, i)
    ensures OnPolicy(turns, SegmentTokens(turns), Overlay(turns, MaskOf(), 0), Overlay(turns, LogProbsOf(), 0.0), j, i)
  {
    CoveredContext(turns, threshold, j, i);
    OverlayLaid(turns, threshold, MaskOf(), 0);
    OverlayLaid(turns, threshold, LogProbsOf(), 0.0);
  }

  /**
   * On-policy training: every position with a non-zero loss mask was sampled by a turn of this
   * segment under exactly the context it is trained with.  (`CoveredOnPolicy` is the converse.)
   */
  lemma {:induction false} TrainedOnPolicy(turns: seq<Turn>, threshold: int, i: int) returns (j: int)
    requires IsSegment(turns, threshold) && AllValid(turns, true)
    requires 0 <= i < |Overlay(turns, MaskOf(), 0)| && Overlay(turns, MaskOf(), 0)[i] != 0
    ensures OnPolicy(turns, SegmentTokens(turns), Overlay(turns, MaskOf(), 0), Overlay(turns, LogProbsOf(), 0.0), j, i)
  {
    OverlayLaid(turns, threshold, MaskOf(), 0);
    j := MarkedCovered(turns, Overlay(turns, MaskOf(), 0), MaskOf(), 0, i);
    CoveredOnPolicy(turns, threshold, j, i);
  }

  /** The token and mask half of the claim holds without log-probabilities too. */
  lemma {:induction false} MaskedOnContext(turns: seq<Turn>, threshold: int, i: int) returns (j: int)
    requires IsSegment(turns, threshold) && AllValid(turns, false)
    requires 0 <= i < |Overlay(turns, MaskOf(), 0)| && Overlay(turns, MaskOf(), 0)[i] != 0
    ensures Covers(turns, j, i)
    ensures i < |SegmentTokens(turns)| && turns[j].Tokens()[..i + 1] == SegmentTokens(turns)[..i + 1]
  {
    OverlayLaid(turns, threshold, MaskOf(), 0);
    j := MarkedCovered(turns, Overlay(turns, MaskOf(), 0), MaskOf(), 0, i);
    CoveredContext(turns, threshold, j, i);
  }

  // ---------------------------------------------------------------------------------
  // The split of a rollout into segments.

  /** The greedy split: a turn joins the current segment exactly when it is linked to its last turn. */
  function Segments(turns: seq<Turn>, threshold: int): (r: seq<seq<Turn>>)
    ensures r == [] <==> turns == []
    ensures forall k :: 0 <= k < |r| ==> r[k] != []
    ensures turns != [] ==> r[|r| - 1][|r[|r| - 1]| - 1] == turns[|turns| - 1]
  {
    if turns == [] then [] else
      var n, t := |turns| - 1, turns[|turns| - 1];
      var before := Segments(turns[..n], threshold);
      if before != [] && Linked(turns[n - 1], t, threshold) then
        before[..|before| - 1] + [before[|before| - 1] + [t]]
      else before + [[t]]
  }

  function Flatten<T>(parts: seq<seq<T>>): seq<T> {
    if parts == [] then [] else Flatten(parts[..|parts| - 1]) + parts[|parts| - 1]
  }

  /** `segments` are consecutive, cover all turns, and break exactly between turns that are not linked. */
  predicate IsSplit(turns: seq<Turn>, segments: seq<seq<Turn>>, threshold: int) {
    && Flatten(segments) == turns
    && (forall k :: 0 <= k < |segments| ==> segments[k] != [] && IsSegment(segments[k], threshold))
    && (forall k :: 0 <= k < |segments| - 1 && segments[k] != [] && segments[k + 1] != [] ==>
          !Linked(segments[k][|segments[k]| - 1], segments[k + 1][0], threshold))
  }

  /** Appending a linked turn to the last segment keeps the split. */
  lemma {:induction false} SplitJoin(turns: seq<Turn>, segments: seq<seq<Turn>>, t: Turn, threshold: int)
    requires IsSplit(turns, segments, threshold)
    requires segments != [] && Linked(segments[|segments| - 1][|segments[|segments| - 1]| - 1], t, threshold)
    ensures IsSplit(turns + [t], segments[..|segments| - 1] + [segments[|segments| - 1] + [t]], threshold)
  {
    var k := |segments| - 1;
    var last := segments[k];
    var all := segments[..k] + [last + [t]];
    assert all[..k] == segments[..k];
    assert Flatten(all) == turns + [t];
    assert IsSegment(last + [t], threshold);
    assert (last + [t])[0] == last[0];
  }

  /** A turn that is not linked to the last segment starts a new one. */
  lemma {:induction false} SplitStart(turns: seq<Turn>, segments: seq<seq<Turn>>, t: Turn, threshold: int)
    requires IsSplit(turns, segments, threshold)
    requires segments != [] ==> !Linked(segments[|segments| - 1][|segments[|segments| - 1]| - 1], t, threshold)
    ensures IsSplit(turns + [t], segments + [[t]], threshold)
  {
    var all := segments + [[t]];
    assert all[..|segments|] == segments;
    assert Flatten(all) == turns + [t];
  }

  lemma {:induction false} SegmentsSplit(turns: seq<Turn>, threshold: int)
    ensures IsSplit(turns, Segments(turns, threshold), threshold)
  {
    if turns == [] { return; }
    hide Linked, IsSplit, Flatten;
    var n, t := |turns| - 1, turns[|turns| - 1];
    var first := turns[..n];
    assert turns == first + [t];
    var before := Segments(first, threshold);
    SegmentsSplit(first, threshold);
    if before != [] && Linked(turns[n - 1], t, threshold) {
      assert first[|first| - 1] == turns[n - 1];
      SplitJoin(first, before, t, threshold);
    } else {
      SplitStart(first, before, t, threshold);
    }
  }

  /** Python's `any` on a list of integers. */
  predicate AnyNonZero(s: seq<int>) {
    exists i :: 0 <= i < |s| && s[i] != 0
  }

  /** The segment has a non-zero mask after its leading prompt. */
  predicate Trainable(turns: seq<Turn>) {
    turns != [] && AnyNonZero(Drop(Overlay(turns, MaskOf(), 0), |turns[0].prompt|))
  }

  function TrainableOnly(segments: seq<seq<Turn>>): (r: seq<seq<Turn>>)
    ensures |r| <= |segments|
  {
    if segments == [] then []
    else KeepTrainable(TrainableOnly(segments[..|segments| - 1]), segments[|segments| - 1])
  }

  function KeepTrainable(kept: seq<seq<Turn>>, s: seq<Turn>): seq<seq<Turn>> {
    if Trainable(s) then kept + [s] else kept
  }

  /** Kept segments are trainable pieces of the split. */
  lemma {:induction false} TrainableOnlyMembers(segments: seq<seq<Turn>>, s: seq<Turn>)
    ensures s in TrainableOnly(segments) <==> s in segments && Trainable(s)
  {
    if segments != [] {
      var n := |segments| - 1;
      assert segments == segments[..n] + [segments[n]];
      TrainableOnlyMembers(segments[..n], s);
    }
  }

  /** `kept` are exactly the trainable ones of these segments, each once and in order. */
  predicate InOrder(segments: seq<seq<Turn>>, kept: seq<seq<Turn>>, at: seq<nat>) {
    && |at| == |kept|
    && (forall k :: 0 <= k < |at| ==> at[k] < |segments| && kept[k] == segments[at[k]])
    && (forall k, l :: 0 <= k < l < |at| ==> at[k] < at[l])
    && (forall m :: 0 <= m < |segments| ==> (Trainable(segments[m]) <==> m in at))
  }

  lemma {:induction false} KeptInOrder(segments: seq<seq<Turn>>) returns (at: seq<nat>)
    ensures InOrder(segments, TrainableOnly(segments), at)
  {
    at := [];
    if segments != [] {
      hide Trainable, InOrder;
      var n := |segments| - 1;
      at := KeptInOrder(segments[..n]);
      assert segments == segments[..n] + [segments[n]];
      InOrderStep(segments[..n], TrainableOnly(segments[..n]), at, segments[n]);
      if Trainable(segments[n]) { at := at + [n]; }
    }
  }

  lemma {:induction false} InOrderStep(segments: seq<seq<Turn>>, kept: seq<seq<Turn>>, at: seq<nat>, s: seq<Turn>)
    requires InOrder(segments, kept, at)
    ensures if Trainable(s) then InOrder(segments + [s], kept + [s], at + [|segments|])
            else InOrder(segments + [s], kept, at)
  {
    hide Trainable;
    forall m | 0 <= m < |segments + [s]|
      ensures Trainable((segments + [s])[m]) <==> m in at || (Trainable(s) && m == |segments|)
    {
      if m < |segments| { assert (segments + [s])[m] == segments[m]; }
    }
  }

  lemma {:induction false} SplitValid(turns: seq<Turn>, threshold: int, requireLogProbs: bool, s: seq<Turn>)
    requires AllValid(turns, requireLogProbs) && s in Segments(turns, threshold)
    ensures AllValid(s, requireLogProbs) && IsSegment(s, threshold)
  {
    SegmentsSplit(turns, threshold);
    FlattenMember(Segments(turns, threshold), s);
    forall j | 0 <= j < |s| ensures s[j].Valid(requireLogProbs) {
      assert s[j] in turns;
    }
  }

  lemma {:induction false} FlattenMember<T>(parts: seq<seq<T>>, part: seq<T>)
    requires part in parts
    ensures forall x :: x in part ==> x in Flatten(parts)
  {
    var n := |parts| - 1;
    assert parts == parts[..n] + [parts[n]];
    if part in parts[..n] { FlattenMember(parts[..n], part); }
  }

  // ---------------------------------------------------------------------------------
  // Samples.

  datatype Sample = Sample(
    tokens: seq<int>, responseLength: int, lossMask: seq<int>, logProbs: seq<real>,
    reward: real, forkIndex: nat, forkCount: nat)

  function Share(reward: real, forkCount: nat): real {
    if forkCount > 1 then reward / forkCount as real else reward
  }

  /** Python's `s[n:]`, which clamps to the length of `s`. */
  function Drop<T>(s: seq<T>, n: nat): seq<T> {
    if n <= |s| then s[n..] else []
  }

  function SampleOf(turns: seq<Turn>, reward: real, forkIndex: nat, forkCount: nat): Sample
    requires turns != []
  {
    var tokens, lead := SegmentTokens(turns), |turns[0].prompt|;
    Sample(tokens, |tokens| - lead, Drop(Overlay(turns, MaskOf(), 0), lead),
           Drop(Overlay(turns, LogProbsOf(), 0.0), lead), Share(reward, forkCount), forkIndex, forkCount)
  }

  /** The log-probabilities ended up as long as the tokens; automatic when they are required. */
  predicate LogProbsFit(turns: seq<Turn>) {
    |Overlay(turns, LogProbsOf(), 0.0)| == |SegmentTokens(turns)|
  }

  lemma {:induction false} RequiredLogProbsFit(turns: seq<Turn>, threshold: int)
    requires IsSegment(turns, threshold) && AllValid(turns, true)
    ensures LogProbsFit(turns)
  {
    OverlayLaid(turns, threshold, LogProbsOf(), 0.0);
  }

  lemma {:induction false} MaskLength(turns: seq<Turn>, threshold: int)
    requires IsSegment(turns, threshold) && AllValid(turns, false)
    ensures |Overlay(turns, MaskOf(), 0)| == |SegmentTokens(turns)|
  {
    OverlayLaid(turns, threshold, MaskOf(), 0);
  }

  /**
   * What a sample of these turns has to be.  Its tokens are the last turn's prompt and output, and the response is
   * what follows the first prompt.  Each output token of a surviving turn has that turn's mask there (and its
   * log-probability, if `logged`) and stands in its context; every other response position is untrained.
   */
  ghost predicate Carries(turns: seq<Turn>, sample: Sample, logged: bool) {
    && turns != []
    && var lead, last := |turns[0].prompt|, turns[|turns| - 1];
       && sample.tokens == last.prompt + last.output
       && lead + sample.responseLength == |sample.tokens|
       && |sample.lossMask| == |sample.logProbs| == sample.responseLength
       && (forall j, i :: Covers(turns, j, i) ==> CarriesAt(turns, sample, logged, j, i))
       && (forall k :: 0 <= k < |sample.lossMask| && Untrained(turns, lead + k) ==>
             sample.lossMask[k] == 0 && (logged ==> sample.logProbs[k] == 0.0))
  }

  /** No surviving turn has an output token there. */
  ghost predicate Untrained(turns: seq<Turn>, i: int) {
    forall j :: !Covers(turns, j, i)
  }

  predicate CarriesAt(turns: seq<Turn>, sample: Sample, logged: bool, j: int, i: int)
    requires Covers(turns, j, i)
  {
    var lead, turn := |turns[0].prompt|, turns[j];
    var o := i - |turn.prompt|;
    && lead <= i < |sample.tokens| && sample.tokens[..i + 1] == turn.prompt + turn.output[..o + 1]
    && i - lead < |sample.lossMask| && o < |turn.mask| && sample.lossMask[i - lead] == turn.mask[o]
    && (logged ==>
          i - lead < |sample.logProbs| && o < |turn.logProbs| && sample.logProbs[i - lead] == turn.logProbs[o])
  }

  /** The sample of a segment is what it has to be, with log-probabilities if the turns have to have them. */
  lemma {:induction false} SampleCarries(
    turns: seq<Turn>, threshold: int, logged: bool, reward: real, forkIndex: nat, forkCount: nat)
    requires turns != [] && IsSegment(turns, threshold) && AllValid(turns, logged) && LogProbsFit(turns)
    ensures Carries(turns, SampleOf(turns, reward, forkIndex, forkCount), logged)
  {
    hide *;
    var sample := SampleOf(turns, reward, forkIndex, forkCount);
    ValidAnyway(turns, logged);
    MaskLength(turns, threshold);
    ArraysLaid(turns, threshold, logged);
    SampleShape(turns, reward, forkIndex, forkCount, threshold);
    forall j, i | Covers(turns, j, i) ensures CarriesAt(turns, sample, logged, j, i) {
      CoveredCarries(turns, threshold, logged, sample, j, i);
    }
    SampleFits(turns, sample, logged);
  }

  lemma {:induction false} ValidAnyway(turns: seq<Turn>, logged: bool)
    requires AllValid(turns, logged)
    ensures AllValid(turns, false)
  {
  }

  /** The parts of a sample are the arrays of the segment without the leading prompt. */
  predicate Cut(turns: seq<Turn>, sample: Sample) {
    && turns != [] && |turns[0].prompt| <= |SegmentTokens(turns)|
    && sample.tokens == SegmentTokens(turns) && sample.responseLength == |sample.tokens| - |turns[0].prompt|
    && |Overlay(turns, MaskOf(), 0)| == |LogArray(turns)| == |SegmentTokens(turns)|
    && sample.lossMask == Overlay(turns, MaskOf(), 0)[|turns[0].prompt|..]
    && sample.logProbs == LogArray(turns)[|turns[0].prompt|..]
  }

  /** The arrays hold the marks of the surviving turns. */
  ghost predicate ArraysHold(turns: seq<Turn>, logged: bool) {
    && MarksAlign(turns, MaskOf()) && Laid(turns, Overlay(turns, MaskOf(), 0), MaskOf(), 0)
    && (logged ==> MarksAlign(turns, LogProbsOf()) && Laid(turns, LogArray(turns), LogProbsOf(), 0.0))
  }

  lemma {:induction false} ArraysLaid(turns: seq<Turn>, threshold: int, logged: bool)
    requires IsSegment(turns, threshold) && AllValid(turns, logged)
    ensures ArraysHold(turns, logged)
  {
    hide Laid, Overlay, Linked;
    OverlayLaid(turns, threshold, MaskOf(), 0);
    if logged { OverlayLaid(turns, threshold, LogProbsOf(), 0.0); }
  }

  lemma {:induction false} SampleShape(turns: seq<Turn>, reward: real, forkIndex: nat, forkCount: nat, threshold: int)
    requires turns != [] && IsSegment(turns, threshold) && LogProbsFit(turns)
    requires |Overlay(turns, MaskOf(), 0)| == |SegmentTokens(turns)|
    ensures Cut(turns, SampleOf(turns, reward, forkIndex, forkCount))
  {
    hide Overlay, Linked, IsSegment;
    SegmentPrefixes(turns, threshold, 0, |turns| - 1);
  }

  lemma {:induction false} CoveredCarries(
    turns: seq<Turn>, threshold: int, logged: bool, sample: Sample, j: int, i: int)
    requires IsSegment(turns, threshold) && AllValid(turns, logged) && ArraysHold(turns, logged) && Cut(turns, sample)
    requires Covers(turns, j, i)
    ensures CarriesAt(turns, sample, logged, j, i)
  {
    hide Overlay, LogArray, Linked, IsSegment, Survives;
    CoveredContext(turns, threshold, j, i);
    SegmentPrefixes(turns, threshold, 0, j);
    assert turns[j].Tokens()[..i + 1] == turns[j].prompt + turns[j].output[..i - |turns[j].prompt| + 1];
    hide SegmentTokens;
  }

  lemma {:induction false} SampleFits(turns: seq<Turn>, sample: Sample, logged: bool)
    requires ArraysHold(turns, logged) && Cut(turns, sample)
    requires forall j, i :: Covers(turns, j, i) ==> CarriesAt(turns, sample, logged, j, i)
    ensures Carries(turns, sample, logged)
  {
    hide Overlay, LogArray, Covers, CarriesAt, MarksAlign;
    SegmentEnd(turns);
    forall k | 0 <= k < |sample.lossMask| && Untrained(turns, |turns[0].prompt| + k)
      ensures sample.lossMask[k] == 0 && (logged ==> sample.logProbs[k] == 0.0)
    {
      assert sample.lossMask[k] == Overlay(turns, MaskOf(), 0)[|turns[0].prompt| + k];
      assert sample.logProbs[k] == LogArray(turns)[|turns[0].prompt| + k];
    }
  }

  lemma {:induction false} SegmentEnd(turns: seq<Turn>)
    requires turns != []
    ensures SegmentTokens(turns) == turns[|turns| - 1].prompt + turns[|turns| - 1].output
  {
  }

  /** Appending an accepted turn to a segment gives a segment. */
  lemma {:induction false} SegmentAppend(turns: seq<Turn>, next: Turn, threshold: int)
    requires IsSegment(turns, threshold) && AllValid(turns, false) && next.Valid(false)
    requires turns == [] || Linked(turns[|turns| - 1], next, threshold)
    ensures IsSegment(turns + [next], threshold) && AllValid(turns + [next], false)
  {
  }

  function TotalReward(samples: seq<Sample>): real {
    if samples == [] then 0.0 else TotalReward(samples[..|samples| - 1]) + samples[|samples| - 1].reward
  }

  lemma {:induction false} EqualShares(samples: seq<Sample>, share: real)
    requires forall i :: 0 <= i < |samples| ==> samples[i].reward == share
    ensures TotalReward(samples) == |samples| as real * share
  {
    if samples != [] {
      EqualShares(samples[..|samples| - 1], share);
    }
  }

  /** The rewards of the forks of one rollout add up to the reward of the rollout. */
  lemma {:induction false} RewardConserved(samples: seq<Sample>, reward: real)
    requires samples != []
    requires forall i :: 0 <= i < |samples| ==> samples[i].reward == Share(reward, |samples|)
    ensures TotalReward(samples) == reward
  {
    EqualShares(samples, Share(reward, |samples|));
    var n := |samples| as real;
    assert n * (reward / n) == reward;
  }

  // ---------------------------------------------------------------------------------
  // The mutable builder and the build loop.

  method CommonPrefixLen(left: seq<int>, right: seq<int>) returns (common: nat)
    ensures common <= |left| && common <= |right|
    ensures left[..common] == right[..common]
    ensures common < |left| && common < |right| ==> left[common] != right[common]
  {
    var limit := if |left| < |right| then |left| else |right|;
    for index := 0 to limit
      invariant left[..index] == right[..index]
    {
      if left[index] != right[index] { return index; }
    }
    return limit;
  }

  class Builder {
    const threshold: int
    var tokens: seq<int>
    var lossMask: seq<int>
    var logProbs: seq<real>
    var leadingPromptLen: Option<nat>
    var lastResponseStart: Option<nat>
    /** The turns appended so far. */
    ghost var turns: seq<Turn>

    ghost predicate Valid()
      reads this
    {
      && ValidShape()
      && lossMask == Overlay(turns, MaskOf(), 0)
      && logProbs == Overlay(turns, LogProbsOf(), 0.0)
    }

    ghost predicate ValidShape()
      reads this
    {
      && AllValid(turns, false)
      && IsSegment(turns, threshold)
      && tokens == SegmentTokens(turns)
      && leadingPromptLen == (if turns == [] then None else Some(|turns[0].prompt|))
      && lastResponseStart == (if turns == [] then None else Some(|turns[|turns| - 1].prompt|))
    }

    ghost predicate Accepts(turn: Turn)
      reads this
    {
      Joins(turns, turn, threshold)
    }

    constructor (threshold: int)
      ensures Valid() && turns == [] && this.threshold == threshold
    {
      this.threshold := threshold;
      tokens, lossMask, logProbs := [], [], [];
      leadingPromptLen, lastResponseStart := None, None;
      turns := [];
    }

    /** `_can_realign`: the prompt agrees up to the last response, and the new output is short. */
    method CanRealign(common: nat, turn: Turn) returns (ok: bool)
      requires ValidShape()
      ensures ok <==> turns != [] && common >= |turns[|turns| - 1].prompt| && |turn.output| < threshold
    {
      return lastResponseStart.Some? && common >= lastResponseStart.value && |turn.output| < threshold;
    }

    method CanAppend(turn: Turn) returns (ok: bool)
      requires ValidShape()
      ensures ok <==> Accepts(turn)
      ensures ok <==>
              || turns == [] || turns[|turns| - 1].prompt + turns[|turns| - 1].output <= turn.prompt
              || (turns[|turns| - 1].prompt <= turn.prompt && |turn.output| < threshold)
    {
      if tokens == [] { return true; }
      var common := CommonPrefixLen(tokens, turn.prompt);
      CommonDecides(turns[|turns| - 1], turn, common);
      if common == |tokens| { return true; }
      ok := CanRealign(common, turn);
    }

    method Append(turn: Turn) returns (r: Result<()>)
      requires Valid() && turn.Valid(false)
      modifies this
      ensures Valid()
      ensures r.Ok? <==> old(Accepts(turn))
      ensures turns == if r.Ok? then old(turns) + [turn] else old(turns)
      ensures r.Ok? ==> tokens == turn.prompt + turn.output
    {
      hide Overlay, OverlayPrompt, Linked, IsSegment, AllValid;
      var aligned := AlignToPrompt(turn);
      if !aligned {
        return Err("token capture prompt does not extend the accumulated trajectory prefix");
      }
      if leadingPromptLen.None? { leadingPromptLen := Some(|turn.prompt|); }
      lastResponseStart := Some(|tokens|);
      tokens := tokens + turn.output;
      lossMask := lossMask + turn.mask;
      logProbs := logProbs + turn.logProbs;
      SegmentAppend(turns, turn, threshold);
      OverlayAppend(turns, turn, MaskOf(), 0);
      OverlayAppend(turns, turn, LogProbsOf(), 0.0);
      turns := turns + [turn];
      return Ok(());
    }

    /** The first half of `append`: bring the arrays to the new prompt, or refuse. */
    method AlignToPrompt(turn: Turn) returns (ok: bool)
      requires ValidShape()
      modifies this`tokens, this`lossMask, this`logProbs
      ensures ok <==> Accepts(turn)
      ensures ok ==> tokens == turn.prompt
      ensures ok ==> lossMask == OverlayPrompt(turns, old(lossMask), turn, 0)
      ensures ok ==> logProbs == OverlayPrompt(turns, old(logProbs), turn, 0.0)
      ensures !ok ==> tokens == old(tokens) && lossMask == old(lossMask) && logProbs == old(logProbs)
    {
      var common := CommonPrefixLen(tokens, turn.prompt);
      ok := CanRealign(common, turn);
      if turns != [] { CommonDecides(turns[|turns| - 1], turn, common); }
      if common == |tokens| {
        AppendPromptTail(turn.prompt[common..]);
        return true;
      }
      if ok { RealignToPrompt(turn.prompt); }
    }

    method AppendPromptTail(ids: seq<int>)
      modifies this`tokens, this`lossMask, this`logProbs
      ensures tokens == old(tokens) + ids
      ensures lossMask == old(lossMask) + Zeros(|ids|, 0)
      ensures logProbs == old(logProbs) + Zeros(|ids|, 0.0)
    {
      tokens := tokens + ids;
      lossMask := lossMask + Zeros(|ids|, 0);
      logProbs := logProbs + Zeros(|ids|, 0.0);
    }

    /** Replaces everything from the last response on by the rest of the prompt, untrained. */
    method RealignToPrompt(prompt: seq<int>)
      requires lastResponseStart.Some? && lastResponseStart.value <= |prompt|
      modifies this`tokens, this`lossMask, this`logProbs
      ensures tokens == Take(old(tokens), lastResponseStart.value) + prompt[lastResponseStart.value..]
      ensures lossMask == Take(old(lossMask), lastResponseStart.value) + Zeros(|prompt| - lastResponseStart.value, 0)
      ensures logProbs == Take(old(logProbs), lastResponseStart.value) + Zeros(|prompt| - lastResponseStart.value, 0.0)
    {
      var start := lastResponseStart.value;
      tokens := Take(tokens, start) + prompt[start..];
      lossMask := Take(lossMask, start) + Zeros(|prompt| - start, 0);
      logProbs := Take(logProbs, start) + Zeros(|prompt| - start, 0.0);
    }

    method HasTrainableResponse() returns (ok: bool)
      requires Valid()
      ensures ok <==> Trainable(turns)
    {
      if leadingPromptLen.None? { return false; }
      ok := AnyNonZero(Drop(lossMask, leadingPromptLen.value));
    }

    method ToSample(reward: real, forkIndex: nat, forkCount: nat) returns (r: Result<Sample>)
      requires Valid()
      ensures r.Ok? <==> Trainable(turns) && LogProbsFit(turns)
      ensures r.Ok? ==> r.value == SampleOf(turns, reward, forkIndex, forkCount)
      ensures r.Ok? ==> Carries(turns, r.value, false)
      ensures r.Ok? ==> r.value.forkIndex == forkIndex && r.value.forkCount == forkCount
    {
      if leadingPromptLen.None? { return Err("slime sample requires at least one token capture"); }
      var lead := leadingPromptLen.value;
      SegmentPrefixes(turns, threshold, 0, |turns| - 1);
      MaskLength(turns, threshold);
      var responseLength := |tokens| - lead;
      var responseMask := Drop(lossMask, lead);
      var responseLogProbs := Drop(logProbs, lead);
      if responseLength <= 0 { return Err("slime sample requires non-empty response tokens"); }
      if |responseMask| != responseLength { return Err("loss_mask length does not match response_length"); }
      if |responseLogProbs| != responseLength {
        return Err("rollout_log_probs length does not match response_length");
      }
      if !AnyNonZero(responseMask) {
        return Err("slime sample requires at least one trainable token");
      }
      SampleCarries(turns, threshold, false, reward, forkIndex, forkCount);
      hide Carries;
      return Ok(Sample(tokens, responseLength, responseMask, responseLogProbs,
                       Share(reward, forkCount), forkIndex, forkCount));
    }
  }

  /** The common prefix length decides, between two turns, what `Linked` says. */
  lemma {:induction false} CommonDecides(last: Turn, turn: Turn, common: nat)
    requires common <= |last.Tokens()| && common <= |turn.prompt|
    requires last.Tokens()[..common] == turn.prompt[..common]
    requires common < |last.Tokens()| && common < |turn.prompt| ==> last.Tokens()[common] != turn.prompt[common]
    ensures common == |last.Tokens()| <==> last.Tokens() <= turn.prompt
    ensures common >= |last.prompt| <==> last.prompt <= turn.prompt
    ensures last.Tokens()[..|last.prompt|] == last.prompt
  {
    var tokens := last.Tokens();
    assert forall i :: 0 <= i < common ==>
        tokens[i] == tokens[..common][i] == turn.prompt[..common][i] == turn.prompt[i];
    if common < |last.prompt| && common < |turn.prompt| {
      assert tokens[common] == last.prompt[common];
    }
    if common >= |last.prompt| {
      assert forall i :: 0 <= i < |last.prompt| ==> last.prompt[i] == tokens[i] == turn.prompt[i];
    }
  }

  /** All captures are admitted, and these are their turns. */
  predicate Validated(captures: seq<Capture>, requireLogProbs: bool, turns: seq<Turn>) {
    && |turns| == |captures|
    && forall i :: 0 <= i < |captures| ==> Admit(captures[i], requireLogProbs) == Ok(turns[i])
  }

  function TurnsOf(captures: seq<Capture>): (r: seq<Turn>)
    ensures |r| == |captures|
    ensures forall i :: 0 <= i < |r| ==> r[i] == TurnOf(captures[i])
  {
    seq(|captures|, i requires 0 <= i < |captures| => TurnOf(captures[i]))
  }

  /** The segments that become samples. */
  function KeptSegments(turns: seq<Turn>, threshold: int): seq<seq<Turn>> {
    TrainableOnly(Segments(turns, threshold))
  }

  ghost predicate BuildersHold(builders: seq<Builder>, segments: seq<seq<Turn>>, threshold: int)
    reads builders
  {
    && |builders| == |segments|
    && forall i :: 0 <= i < |builders| ==>
         builders[i].Valid() && builders[i].turns == segments[i] && builders[i].threshold == threshold
  }

  /** `if current.has_trainable_response(): builders.append(current)`. */
  method KeepIfTrainable(builders: seq<Builder>, current: Builder, ghost kept: seq<seq<Turn>>)
    returns (builders': seq<Builder>, ghost kept': seq<seq<Turn>>)
    requires current.Valid() && BuildersHold(builders, kept, current.threshold)
    ensures BuildersHold(builders', kept', current.threshold)
    ensures kept' == KeepTrainable(kept, current.turns)
    ensures forall b :: b in builders' ==> b in builders || b == current
  {
    hide Overlay, Trainable, SegmentTokens, IsSegment, Linked;
    var trainable := current.HasTrainableResponse();
    builders', kept' := builders, kept;
    if trainable { builders', kept' := builders + [current], kept + [current.turns]; }
  }

  /** One pass of the loop of lines 41-50: append to the current builder, or close it and fork. */
  method AddTurn(builders: seq<Builder>, current: Builder, turn: Turn, ghost kept: seq<seq<Turn>>)
    returns (builders': seq<Builder>, current': Builder, ghost kept': seq<seq<Turn>>)
    requires current.Valid() && turn.Valid(false) && current !in builders
    requires BuildersHold(builders, kept, current.threshold)
    modifies current
    ensures current'.Valid() && current'.threshold == current.threshold && current' !in builders'
    ensures current' == current || fresh(current')
    ensures BuildersHold(builders', kept', current.threshold)
    ensures current'.turns == if old(current.Accepts(turn)) then old(current.turns) + [turn] else [turn]
    ensures kept' == if old(current.Accepts(turn)) then kept else KeepTrainable(kept, old(current.turns))
  {
    hide Overlay, Trainable, SegmentTokens, IsSegment, Linked;
    var canAppend := current.CanAppend(turn);
    if canAppend {
      var _ := current.Append(turn);
      return builders, current, kept;
    }
    builders', kept' := KeepIfTrainable(builders, current, kept);
    current' := new Builder(current.threshold);
    var _ := current'.Append(turn);
  }

  /** One more turn changes the split as the loop does. */
  lemma {:induction false} SegmentsStep(
    turns: seq<Turn>, index: nat, closed: seq<seq<Turn>>, current: seq<Turn>, threshold: int)
    requires index < |turns|
    requires index == 0 ==> closed == [] && current == []
    requires index > 0 ==> current != [] && current[|current| - 1] == turns[index - 1]
    requires Segments(turns[..index], threshold) == closed + if index == 0 then [] else [current]
    ensures Segments(turns[..index + 1], threshold)
         == if index == 0 || Linked(current[|current| - 1], turns[index], threshold)
            then closed + [current + [turns[index]]]
            else closed + [current] + [[turns[index]]]
  {
    var t := turns[index];
    assert turns[..index + 1][..index] == turns[..index] && turns[..index + 1][index] == t;
    if index > 0 {
      assert turns[..index + 1][index - 1] == current[|current| - 1];
      assert (closed + [current])[..|closed|] == closed;
    } else {
      assert current + [t] == [t];
    }
  }

  lemma {:induction false} TrainableOnlyStep(segments: seq<seq<Turn>>, s: seq<Turn>)
    ensures TrainableOnly(segments + [s]) == KeepTrainable(TrainableOnly(segments), s)
  {
    assert (segments + [s])[..|segments|] == segments;
  }

  /** Where the build loop stands before capture `index`: closed segments, the current one, the kept ones. */
  predicate Progress(captures: seq<Capture>, requireLogProbs: bool, threshold: int, index: nat,
                     closed: seq<seq<Turn>>, current: seq<Turn>, kept: seq<seq<Turn>>)
  {
    && index <= |captures|
    && var turns := TurnsOf(captures);
       && Validated(captures[..index], requireLogProbs, turns[..index])
       && kept == TrainableOnly(closed)
       && (index == 0 ==> closed == [] && current == [])
       && (index > 0 ==> current != [] && current[|current| - 1] == turns[index - 1])
       && Segments(turns[..index], threshold) == closed + if index == 0 then [] else [current]
  }

  predicate Joins(current: seq<Turn>, turn: Turn, threshold: int) {
    current == [] || Linked(current[|current| - 1], turn, threshold)
  }

  lemma {:induction false} ValidatedStep(captures: seq<Capture>, requireLogProbs: bool, index: nat)
    requires index < |captures| && Validated(captures[..index], requireLogProbs, TurnsOf(captures)[..index])
    ensures
      if Admit(captures[index], requireLogProbs).Ok?
      then Validated(captures[..index + 1], requireLogProbs, TurnsOf(captures)[..index + 1])
           && Admit(captures[index], requireLogProbs).value == TurnsOf(captures)[index]
      else !Validated(captures, requireLogProbs, TurnsOf(captures))
  {
    hide Admit;
  }

  lemma {:induction false} ProgressStep(captures: seq<Capture>, requireLogProbs: bool, threshold: int, index: nat,
                     closed: seq<seq<Turn>>, current: seq<Turn>, kept: seq<seq<Turn>>)
    requires index < |captures|
    requires Progress(captures, requireLogProbs, threshold, index, closed, current, kept)
    ensures Admit(captures[index], requireLogProbs).Err? ==>
              !Validated(captures, requireLogProbs, TurnsOf(captures))
    ensures Admit(captures[index], requireLogProbs).Ok? ==>
              var turn := Admit(captures[index], requireLogProbs).value;
              if Joins(current, turn, threshold)
              then Progress(captures, requireLogProbs, threshold, index + 1, closed, current + [turn], kept)
              else Progress(captures, requireLogProbs, threshold, index + 1, closed + [current], [turn],
                            KeepTrainable(kept, current))
  {
    ValidatedStep(captures, requireLogProbs, index);
    hide KeepTrainable, Linked, TrainableOnly, Segments, Admit, Validated, Validate;
    SegmentsStep(TurnsOf(captures), index, closed, current, threshold);
    TrainableOnlyStep(closed, current);
  }

  lemma {:induction false} ProgressEnd(captures: seq<Capture>, requireLogProbs: bool, threshold: int,
                    closed: seq<seq<Turn>>, current: seq<Turn>, kept: seq<seq<Turn>>)
    requires Progress(captures, requireLogProbs, threshold, |captures|, closed, current, kept)
    ensures Validated(captures, requireLogProbs, TurnsOf(captures))
    ensures AllValid(TurnsOf(captures), requireLogProbs)
    ensures KeptSegments(TurnsOf(captures), threshold) == KeepTrainable(kept, current)
  {
    hide Linked, Segments, Overlay;
    assert captures[..|captures|] == captures && TurnsOf(captures)[..|captures|] == TurnsOf(captures);
    TrainableOnlyStep(closed, current);
  }

  /** The loop of lines 39-52: validate, append or fork, and collect the trainable builders. */
  method CollectBuilders(captures: seq<Capture>, requireLogProbs: bool, threshold: int)
    returns (r: Result<seq<Builder>>)
    ensures r.Ok? <==> Validated(captures, requireLogProbs, TurnsOf(captures))
    ensures r.Ok? ==> AllValid(TurnsOf(captures), requireLogProbs)
    ensures r.Ok? ==> BuildersHold(r.value, KeptSegments(TurnsOf(captures), threshold), threshold)
  {
    assert BuildersHold([], [], threshold) && Progress(captures, requireLogProbs, threshold, 0, [], [], []);
    hide BuildersHold, Builder.Valid, Progress, KeepTrainable, Linked, Validated, KeptSegments;
    var builders: seq<Builder> := [];
    var current := new Builder(threshold);
    ghost var closed: seq<seq<Turn>> := [];
    ghost var kept: seq<seq<Turn>> := [];
    for index := 0 to |captures|
      invariant fresh(current) && current.Valid() && current.threshold == threshold && current !in builders
      invariant BuildersHold(builders, kept, threshold)
      invariant Progress(captures, requireLogProbs, threshold, index, closed, current.turns, kept)
    {
      var checked := Admit(captures[index], requireLogProbs);
      ProgressStep(captures, requireLogProbs, threshold, index, closed, current.turns, kept);
      if checked.Err? { return Err(checked.message); }
      if !Joins(current.turns, checked.value, threshold) { closed := closed + [current.turns]; }
      builders, current, kept := AddTurn(builders, current, checked.value, kept);
    }
    ProgressEnd(captures, requireLogProbs, threshold, closed, current.turns, kept);
    builders, kept := KeepIfTrainable(builders, current, kept);
    return Ok(builders);
  }

  /**
   * `build_samples_from_artifacts` on loaded artifacts.  It succeeds exactly when every capture
   * is admitted, some segment is trainable, and every trainable segment's log-probabilities fit; the
   * samples are those segments in order, and their rewards add up to the raw reward.
   */
  method BuildSamples(captures: seq<Capture>, reward: real, requireLogProbs: bool, threshold: int)
    returns (r: Result<seq<Sample>>)
    ensures r.Ok? <==>
            && Validated(captures, requireLogProbs, TurnsOf(captures))
            && KeptSegments(TurnsOf(captures), threshold) != []
            && forall s :: s in KeptSegments(TurnsOf(captures), threshold) ==> LogProbsFit(s)
    ensures r.Ok? ==> |r.value| == |KeptSegments(TurnsOf(captures), threshold)|
    ensures r.Ok? ==> forall i :: 0 <= i < |r.value| ==>
              && KeptSegments(TurnsOf(captures), threshold)[i] != []
              && r.value[i] == SampleOf(KeptSegments(TurnsOf(captures), threshold)[i], reward, i, |r.value|)
    ensures r.Ok? ==> forall i :: 0 <= i < |r.value| ==>
              && r.value[i].forkIndex == i && r.value[i].forkCount == |r.value|
              && Carries(KeptSegments(TurnsOf(captures), threshold)[i], r.value[i], requireLogProbs)
    ensures r.Ok? ==> TotalReward(r.value) == reward
    ensures requireLogProbs && Validated(captures, true, TurnsOf(captures)) ==>
              (r.Ok? <==> KeptSegments(TurnsOf(captures), threshold) != [])
  {
    var collected := CollectBuilders(captures, requireLogProbs, threshold);
    if collected.Err? { return Err(collected.message); }
    ghost var kept := KeptSegments(TurnsOf(captures), threshold);
    KeptFit(TurnsOf(captures), threshold, requireLogProbs);
    var samples := EmitSamples(collected.value, kept, reward, threshold);
    if samples.Err? { return samples; }
    if samples.value == [] { return Err("slime sample requires at least one trainable segment"); }
    RewardConserved(samples.value, reward);
    hide SampleOf, Carries, LogProbsFit, Validated, KeptSegments;
    forall i | 0 <= i < |samples.value| ensures Carries(kept[i], samples.value[i], requireLogProbs) {
      assert kept[i] in kept;
      KeptValid(TurnsOf(captures), threshold, requireLogProbs, kept[i]);
      SampleCarries(kept[i], threshold, requireLogProbs, reward, i, |kept|);
    }
    return samples;
  }

  /** The comprehension of lines 54-65: one sample per collected builder, or the first error. */
  method EmitSamples(builders: seq<Builder>, ghost segments: seq<seq<Turn>>, reward: real, threshold: int)
    returns (r: Result<seq<Sample>>)
    requires BuildersHold(builders, segments, threshold)
    requires forall s :: s in segments ==> Trainable(s)
    ensures r.Ok? <==> forall s :: s in segments ==> LogProbsFit(s)
    ensures r.Ok? ==> |r.value| == |segments|
    ensures r.Ok? ==> forall i :: 0 <= i < |r.value| ==>
              segments[i] != [] && r.value[i] == SampleOf(segments[i], reward, i, |segments|)
    ensures r.Ok? ==> forall i :: 0 <= i < |r.value| ==>
              r.value[i].forkIndex == i && r.value[i].forkCount == |segments| && Carries(segments[i], r.value[i], false)
  {
    hide Builder.Valid, Carries, Overlay, SegmentTokens, SampleOf, LogProbsFit;
    var samples: seq<Sample> := [];
    for index := 0 to |builders|
      invariant |samples| == index
      invariant forall s :: s in segments[..index] ==> LogProbsFit(s)
      invariant forall i :: 0 <= i < index ==>
                  segments[i] != [] && samples[i] == SampleOf(segments[i], reward, i, |segments|)
      invariant forall i :: 0 <= i < index ==>
                  samples[i].forkIndex == i && samples[i].forkCount == |segments|
                  && Carries(segments[i], samples[i], false)
    {
      assert segments[index] in segments;
      assert segments[..index + 1] == segments[..index] + [segments[index]];
      var sample := builders[index].ToSample(reward, index, |builders|);
      if sample.Err? { return Err(sample.message); }
      samples := samples + [sample.value];
    }
    assert segments[..|segments|] == segments;
    return Ok(samples);
  }

  /** A kept segment is a trainable run of the validated turns; required log-probabilities fit. */
  lemma {:induction false} KeptValid(turns: seq<Turn>, threshold: int, requireLogProbs: bool, s: seq<Turn>)
    requires AllValid(turns, requireLogProbs) && s in KeptSegments(turns, threshold)
    ensures Trainable(s) && IsSegment(s, threshold) && AllValid(s, requireLogProbs)
    ensures forall t :: t in s ==> t in turns
    ensures requireLogProbs ==> LogProbsFit(s)
  {
    TrainableOnlyMembers(Segments(turns, threshold), s);
    SegmentsSplit(turns, threshold);
    hide Overlay, Linked, Segments;
    FlattenMember(Segments(turns, threshold), s);
    SplitValid(turns, threshold, requireLogProbs, s);
    if requireLogProbs { RequiredLogProbsFit(s, threshold); }
  }

  lemma {:induction false} KeptFit(turns: seq<Turn>, threshold: int, requireLogProbs: bool)
    requires AllValid(turns, requireLogProbs)
    ensures forall s :: s in KeptSegments(turns, threshold) ==> Trainable(s)
    ensures requireLogProbs ==> forall s :: s in KeptSegments(turns, threshold) ==> LogProbsFit(s)
  {
    hide Trainable, LogProbsFit, KeptSegments, IsSegment, AllValid;
    forall s | s in KeptSegments(turns, threshold) ensures Trainable(s) && (requireLogProbs ==> LogProbsFit(s)) {
      KeptValid(turns, threshold, requireLogProbs, s);
    }
  }

  /**
   * The on-policy claim on an emitted sample: response position `k`, if trained at all, carries the
   * mask and log-probability that some turn `j` of the sample gave its output token `o`, and the
   * sample's tokens up to that position are exactly that turn's prompt and output up to `o`.
   */
  lemma {:induction false} SampleOnPolicy(segment: seq<Turn>, threshold: int, rawReward: real, sample: Sample, k: nat)
    returns (j: nat, o: nat)
    requires segment != [] && IsSegment(segment, threshold) && AllValid(segment, true)
    requires sample == SampleOf(segment, rawReward, sample.forkIndex, sample.forkCount)
    requires k < |sample.lossMask| && sample.lossMask[k] != 0
    ensures j < |segment| && o < |segment[j].output|
    ensures |segment[j].mask| == |segment[j].logProbs| == |segment[j].output|
    ensures |segment[0].prompt| + k < |sample.tokens| && k < |sample.logProbs|
    ensures sample.tokens[..|segment[0].prompt| + k + 1] == segment[j].prompt + segment[j].output[..o + 1]
    ensures sample.lossMask[k] == segment[j].mask[o]
    ensures sample.logProbs[k] == segment[j].logProbs[o]
  {
    hide OnPolicy, Overlay, SegmentTokens, IsSegment, AllValid, Share;
    var i := |segment[0].prompt| + k;
    var turn := TrainedOnPolicy(segment, threshold, i);
    OnPolicyResponse(segment, SegmentTokens(segment), Overlay(segment, MaskOf(), 0),
                     Overlay(segment, LogProbsOf(), 0.0), turn, i, |segment[0].prompt|);
    j, o := turn, i - |segment[turn].prompt|;
  }

  lemma {:induction false} OnPolicyResponse(turns: seq<Turn>, tokens: seq<int>, mask: seq<int>, logProbs: seq<real>,
                                            j: int, i: nat, lead: nat)
    requires OnPolicy(turns, tokens, mask, logProbs, j, i) && lead <= i
    ensures 0 <= j < |turns| && 0 <= i - |turns[j].prompt| < |turns[j].output|
    ensures |turns[j].mask| == |turns[j].logProbs| == |turns[j].output|
    ensures i < |tokens| && i - lead < |Drop(mask, lead)| && i - lead < |Drop(logProbs, lead)|
    ensures tokens[..i + 1] == turns[j].prompt + turns[j].output[..i - |turns[j].prompt| + 1]
    ensures Drop(mask, lead)[i - lead] == turns[j].mask[i - |turns[j].prompt|]
    ensures Drop(logProbs, lead)[i - lead] == turns[j].logProbs[i - |turns[j].prompt|]
  {
    hide Survives;
    assert turns[j].Tokens()[..i + 1] == turns[j].prompt + turns[j].output[..i - |turns[j].prompt| + 1];
  }

  /**
   * Without `require_logprobs` the guarantee on log-probabilities is lost although a sample is built:
   * a missing list in one turn and a surplus in the next cancel in length, so the first turn's trained
   * token gets a log-probability no turn sampled it with.
   */
  lemma {:induction false} LogProbsMayShift()
    ensures
      var turns := [Turn([1], [2], [1], []), Turn([1, 2, 3], [4], [1], [-0.5, -0.25])];
      && AllValid(turns, false) && IsSegment(turns, 1024) && Trainable(turns) && LogProbsFit(turns)
      && Overlay(turns, MaskOf(), 0) == [0, 1, 0, 1]
      && Overlay(turns, LogProbsOf(), 0.0) == [0.0, 0.0, -0.5, -0.25]
  {
    var first, second := Turn([1], [2], [1], []), Turn([1, 2, 3], [4], [1], [-0.5, -0.25]);
    var turns := [first, second];
    assert turns == [first] + [second] && [first] == [] + [first];
    OverlayAppend([], first, MaskOf(), 0);
    OverlayAppend([], first, LogProbsOf(), 0.0);
    OverlayAppend([first], second, MaskOf(), 0);
    OverlayAppend([first], second, LogProbsOf(), 0.0);
    assert first.Tokens() == [1, 2] && first.Tokens() <= second.prompt;
    assert Overlay([first], MaskOf(), 0) == [0, 1];
    assert Overlay([first], LogProbsOf(), 0.0) == [0.0];
    assert Overlay(turns, MaskOf(), 0)[1] != 0;
  }

  // ---------------------------------------------------------------------------------
  // When log-probabilities are on policy without being required.

  /** The length of the log-probability array after these turns. */
  function ArrayLength(turns: seq<Turn>): nat
    decreases |turns|, 0
  {
    if turns == [] then 0
    else ListStart(turns[..|turns| - 1], turns[|turns| - 1]) + |turns[|turns| - 1].logProbs|
  }

  /** Where the list of the next turn starts in that array. */
  function ListStart(before: seq<Turn>, next: Turn): nat
    decreases |before|, 1
  {
    var tokens := SegmentTokens(before);
    if before == [] || tokens <= next.prompt then ArrayLength(before) + Max(0, |next.prompt| - |tokens|)
    else
      var start := |before[|before| - 1].prompt|;
      (if start <= ArrayLength(before) then start else ArrayLength(before)) + Max(0, |next.prompt| - start)
  }

  lemma {:induction false} ArrayLengthExact(turns: seq<Turn>)
    ensures |Overlay(turns, LogProbsOf(), 0.0)| == ArrayLength(turns)
  {
    if turns != [] { ArrayLengthExact(turns[..|turns| - 1]); }
  }

  /** Position `i` carries the log-probability that turn `j` gave its token there. */
  predicate HasOwn(turns: seq<Turn>, j: int, i: int) {
    && Covers(turns, j, i)
    && i - |turns[j].prompt| < |turns[j].logProbs| && i < |LogArray(turns)|
    && LogArray(turns)[i] == turns[j].logProbs[i - |turns[j].prompt|]
  }

  predicate Trained(turns: seq<Turn>, i: int) {
    0 <= i < |Overlay(turns, MaskOf(), 0)| && Overlay(turns, MaskOf(), 0)[i] != 0
  }

  ghost predicate SampledSo(turns: seq<Turn>, i: int) {
    exists j :: HasOwn(turns, j, i)
  }

  /** The same turns with other log-probabilities in lists of the same lengths. */
  predicate SameShape(turns: seq<Turn>, other: seq<Turn>) {
    && |turns| == |other|
    && forall k :: 0 <= k < |turns| ==>
         && other[k] == turns[k].(logProbs := other[k].logProbs)
         && |other[k].logProbs| == |turns[k].logProbs|
  }

  /**
   * Every surviving turn that trains a token has its list start where its output does, and reach the token.
   * All of it can be read off the captures before the build.
   */
  predicate InPlace(turns: seq<Turn>) {
    forall j, o :: 0 <= j < |turns| && Survives(turns, j) && 0 <= o < |turns[j].mask| && turns[j].mask[o] != 0 ==>
      ListStart(turns[..j], turns[j]) == |turns[j].prompt| && o < |turns[j].logProbs|
  }

  lemma {:induction false} SameShapeKeeps(turns: seq<Turn>, other: seq<Turn>, threshold: int)
    requires SameShape(turns, other)
    ensures IsSegment(turns, threshold) ==> IsSegment(other, threshold)
    ensures AllValid(turns, false) ==> AllValid(other, false)
    ensures SegmentTokens(other) == SegmentTokens(turns)
    ensures forall j, i :: Covers(turns, j, i) <==> Covers(other, j, i)
  {
  }

  lemma {:induction false} SameShapeLengths(turns: seq<Turn>, other: seq<Turn>)
    requires SameShape(turns, other)
    ensures ArrayLength(other) == ArrayLength(turns)
  {
    if turns != [] {
      var n := |turns| - 1;
      SameShapeLengths(turns[..n], other[..n]);
      SameShapeStart(turns, other, n);
    }
  }

  lemma {:induction false} SameShapeStart(turns: seq<Turn>, other: seq<Turn>, j: nat)
    requires SameShape(turns, other) && j < |turns|
    requires ArrayLength(other[..j]) == ArrayLength(turns[..j])
    ensures ListStart(other[..j], other[j]) == ListStart(turns[..j], turns[j])
  {
    hide ArrayLength;
    SameShapeKeeps(turns[..j], other[..j], 0);
  }

  lemma {:induction false} SameShapeInPlace(turns: seq<Turn>, other: seq<Turn>)
    requires SameShape(turns, other) && InPlace(turns)
    ensures InPlace(other)
  {
    hide ListStart;
    forall j | 0 <= j < |turns|
      ensures ListStart(other[..j], other[j]) == ListStart(turns[..j], turns[j])
    {
      SameShapeLengths(turns[..j], other[..j]);
      SameShapeStart(turns, other, j);
    }
  }

  lemma {:induction false} CoversPrefix(turns: seq<Turn>, threshold: int, j: nat, i: nat)
    requires IsSegment(turns, threshold) && Covers(turns, j, i) && j < |turns| - 1
    ensures
      var n := |turns| - 1;
      && IsSegment(turns[..n], threshold) && Covers(turns[..n], j, i)
      && (SegmentTokens(turns[..n]) <= turns[n].prompt || i < |turns[n - 1].prompt|)
  {
    hide Linked;
    var n := |turns| - 1;
    if j < n - 1 { CoveredBefore(turns, threshold, j, n - 1, i); }
  }

  /** What a surviving turn put into the array below the end of its output is never overwritten. */
  lemma {:induction false} OwnStays(turns: seq<Turn>, threshold: int, j: nat, i: nat)
    requires IsSegment(turns, threshold) && Covers(turns, j, i) && j < |turns|
    requires i < |LogArray(turns[..j + 1])|
    ensures i < |LogArray(turns)| && LogArray(turns)[i] == LogArray(turns[..j + 1])[i]
  {
    hide *;
    var n := |turns| - 1;
    if j == n {
      assert turns[..j + 1] == turns;
      return;
    }
    var before, next := turns[..n], turns[n];
    assert turns == before + [next] && before[..j + 1] == turns[..j + 1] && before[|before| - 1] == turns[n - 1];
    CoversPrefix(turns, threshold, j, i);
    OwnStays(before, threshold, j, i);
    PrefixStays(before, next, i);
  }

  lemma {:induction false} PrefixStays(before: seq<Turn>, next: Turn, i: nat)
    requires before != [] && i < |LogArray(before)|
    requires SegmentTokens(before) <= next.prompt || i < |before[|before| - 1].prompt|
    ensures i < |LogArray(before + [next])| && LogArray(before + [next])[i] == LogArray(before)[i]
  {
    hide Overlay, SegmentTokens;
    OverlayAppend(before, next, LogProbsOf(), 0.0);
  }

  /** A turn whose list is in place is trained on its own log-probabilities. */
  lemma {:induction false} OwnInPlace(turns: seq<Turn>, threshold: int, j: nat, i: nat)
    requires IsSegment(turns, threshold) && Covers(turns, j, i)
    requires ListStart(turns[..j], turns[j]) == |turns[j].prompt| && i - |turns[j].prompt| < |turns[j].logProbs|
    ensures HasOwn(turns, j, i)
  {
    hide Linked, IsSegment, Survives, ListStart, ArrayLength, Overlay, SegmentTokens;
    var before, next := turns[..j], turns[j];
    assert turns[..j + 1] == before + [next];
    OwnList(before, next, i);
    OwnStays(turns, threshold, j, i);
  }

  /** Where the list of the last turn lies in the array. */
  lemma {:induction false} OwnList(before: seq<Turn>, next: Turn, i: nat)
    requires |next.prompt| <= i && i - |next.prompt| < |next.logProbs| && ListStart(before, next) == |next.prompt|
    ensures i < |LogArray(before + [next])|
    ensures LogArray(before + [next])[i] == next.logProbs[i - |next.prompt|]
  {
    hide Linked, Overlay;
    OverlayAppend(before, next, LogProbsOf(), 0.0);
    ArrayLengthExact(before);
  }

  /** The turns with log-probability 1 at one place and 0 everywhere else. */
  function Probe(turns: seq<Turn>, j: nat, o: nat): (r: seq<Turn>)
    ensures SameShape(turns, r) && IsProbe(r, j, o)
  {
    seq(|turns|, k requires 0 <= k < |turns| =>
      turns[k].(logProbs := seq(|turns[k].logProbs|, x => if k == j && x == o then 1.0 else 0.0)))
  }

  predicate IsProbe(turns: seq<Turn>, j: nat, o: nat) {
    forall k, x :: 0 <= k < |turns| && 0 <= x < |turns[k].logProbs| ==>
      turns[k].logProbs[x] == if k == j && x == o then 1.0 else 0.0
  }

  lemma {:induction false} ProbeBefore(turns: seq<Turn>, j: nat, o: nat)
    requires IsProbe(turns, j, o) && turns != []
    ensures IsProbe(turns[..|turns| - 1], j, o)
  {
  }

  lemma {:induction false} ProbeList(turns: seq<Turn>, j: nat, o: nat, k: nat, y: nat)
    requires IsProbe(turns, j, o) && k < |turns| && y < |turns[k].logProbs| && turns[k].logProbs[y] != 0.0
    ensures k == j && y == o
  {
  }

  /** The array after one more turn, position by position. */
  lemma {:induction false} ArraySnoc(before: seq<Turn>, next: Turn, x: nat)
    requires x < |LogArray(before + [next])|
    ensures |LogArray(before + [next])| == ListStart(before, next) + |next.logProbs|
    ensures x >= ListStart(before, next) ==> LogArray(before + [next])[x] == next.logProbs[x - ListStart(before, next)]
    ensures x < ListStart(before, next) && LogArray(before + [next])[x] != 0.0 ==>
              x < |LogArray(before)| && LogArray(before)[x] == LogArray(before + [next])[x]
  {
    ArrayLengthExact(before);
    OverlayAppend(before, next, LogProbsOf(), 0.0);
    hide Overlay;
  }

  /** The probe shows up nowhere but at its own place. */
  lemma {:induction false} ProbeAlone(turns: seq<Turn>, j: nat, o: nat, x: nat)
    requires IsProbe(turns, j, o) && x < |LogArray(turns)| && LogArray(turns)[x] != 0.0
    ensures j < |turns| && x == ListStart(turns[..j], turns[j]) + o
  {
    if turns == [] { return; }
    hide *;
    var n := |turns| - 1;
    var before, next := turns[..n], turns[n];
    assert turns == before + [next];
    ArraySnoc(before, next, x);
    if x < ListStart(before, next) {
      ProbeBefore(turns, j, o);
      ProbeAlone(before, j, o, x);
      assert before[..j] == turns[..j];
    } else {
      ProbeList(turns, j, o, n, x - ListStart(before, next));
    }
  }

  /** At most one turn covers a position. */
  lemma {:induction false} CoversOnce(turns: seq<Turn>, threshold: int, j: int, k: int, i: int)
    requires IsSegment(turns, threshold) && Covers(turns, j, i) && Covers(turns, k, i)
    ensures j == k
  {
    if j < k { CoveredBefore(turns, threshold, j, k, i); }
    if k < j { CoveredBefore(turns, threshold, k, j, i); }
  }

  lemma {:induction false} MaskTrains(turns: seq<Turn>, threshold: int, j: nat, o: nat)
    requires IsSegment(turns, threshold) && AllValid(turns, false)
    requires j < |turns| && Survives(turns, j) && o < |turns[j].mask| && turns[j].mask[o] != 0
    ensures Trained(turns, |turns[j].prompt| + o)
  {
    hide Overlay, Linked, Survives;
    OverlayLaid(turns, threshold, MaskOf(), 0);
    assert Covers(turns, j, |turns[j].prompt| + o);
    CoveredContext(turns, threshold, j, |turns[j].prompt| + o);
  }

  lemma {:induction false} ShapeOf(turns: seq<Turn>, other: seq<Turn>, threshold: int, j: nat, o: nat)
    requires SameShape(turns, other) && IsSegment(turns, threshold) && AllValid(turns, false)
    requires j < |turns| && Survives(turns, j) && o < |turns[j].mask|
    ensures IsSegment(other, threshold) && AllValid(other, false)
    ensures j < |other| && Survives(other, j) && other[j].mask == turns[j].mask && other[j].prompt == turns[j].prompt
    ensures Covers(other, j, |turns[j].prompt| + o) && |other[j].logProbs| == |turns[j].logProbs|
    ensures SameShape(turns[..j], other[..j])
  {
    hide Linked;
    SameShapeKeeps(turns, other, threshold);
  }

  /** A list that is not in place trains some token on a foreign log-probability, for some values. */
  lemma {:induction false} OutOfPlaceShows(turns: seq<Turn>, threshold: int, j: nat, o: nat)
    requires IsSegment(turns, threshold) && AllValid(turns, false)
    requires j < |turns| && Survives(turns, j) && o < |turns[j].mask| && turns[j].mask[o] != 0
    requires !(ListStart(turns[..j], turns[j]) == |turns[j].prompt| && o < |turns[j].logProbs|)
    ensures
      var other := Probe(turns, j, o);
      SameShape(turns, other) && Trained(other, |turns[j].prompt| + o) && !SampledSo(other, |turns[j].prompt| + o)
  {
    hide *;
    var other, i := Probe(turns, j, o), |turns[j].prompt| + o;
    ShapeOf(turns, other, threshold, j, o);
    MaskTrains(other, threshold, j, o);
    SameShapeLengths(turns[..j], other[..j]);
    SameShapeStart(turns, other, j);
    if SampledSo(other, i) {
      var k := Sampler(other, i);
      ProbeSampled(other, threshold, j, o, k);
    }
  }

  lemma {:induction false} Sampler(turns: seq<Turn>, i: int) returns (k: int)
    requires SampledSo(turns, i)
    ensures HasOwn(turns, k, i)
  {
    hide HasOwn;
    k :| HasOwn(turns, k, i);
  }

  lemma {:induction false} ProbeSampled(turns: seq<Turn>, threshold: int, j: nat, o: nat, k: int)
    requires IsSegment(turns, threshold) && j < |turns| && Covers(turns, j, |turns[j].prompt| + o)
    requires IsProbe(turns, j, o) && HasOwn(turns, k, |turns[j].prompt| + o)
    ensures ListStart(turns[..j], turns[j]) == |turns[j].prompt| && o < |turns[j].logProbs|
  {
    hide IsSegment, Survives, ListStart, LogArray;
    CoversOnce(turns, threshold, j, k, |turns[j].prompt| + o);
    ProbeAlone(turns, j, o, |turns[j].prompt| + o);
  }

  /**
   * Of one rollout segment: whatever values its log-probability lists hold, every trained token is trained with
   * the log-probability its own turn gave it, if and only if the lists of the turns that train are in place.
   */
  lemma {:induction false} OnPolicyIff(turns: seq<Turn>, threshold: int)
    requires IsSegment(turns, threshold) && AllValid(turns, false)
    ensures (forall other, i :: SameShape(turns, other) && Trained(other, i) ==> SampledSo(other, i))
       <==> InPlace(turns)
  {
    hide Overlay, IsSegment, AllValid, ListStart, Linked;
    if InPlace(turns) {
      forall other, i | SameShape(turns, other) && Trained(other, i)
        ensures SampledSo(other, i)
      {
        SameShapeKeeps(turns, other, threshold);
        SameShapeInPlace(turns, other);
        TrainedInPlace(other, threshold, i);
      }
    } else {
      var j, o :| 0 <= j < |turns| && Survives(turns, j) && 0 <= o < |turns[j].mask| && turns[j].mask[o] != 0
        && !(ListStart(turns[..j], turns[j]) == |turns[j].prompt| && o < |turns[j].logProbs|);
      OutOfPlaceShows(turns, threshold, j, o);
      var other := Probe(turns, j, o);
      assert SameShape(turns, other) && Trained(other, |turns[j].prompt| + o);
    }
  }

  lemma {:induction false} TrainedInPlace(turns: seq<Turn>, threshold: int, i: int)
    requires IsSegment(turns, threshold) && AllValid(turns, false) && InPlace(turns) && Trained(turns, i)
    ensures SampledSo(turns, i)
  {
    hide Overlay, IsSegment, ListStart, Linked;
    OverlayLaid(turns, threshold, MaskOf(), 0);
    var j := MarkedCovered(turns, Overlay(turns, MaskOf(), 0), MaskOf(), 0, i);
    assert turns[j].mask[i - |turns[j].prompt|] != 0;
    OwnInPlace(turns, threshold, j, i);
  }

  /** Required log-probabilities are in place. */
  lemma {:induction false} RequiredInPlace(turns: seq<Turn>, threshold: int)
    requires IsSegment(turns, threshold) && AllValid(turns, true)
    ensures InPlace(turns)
  {
    forall j | 0 <= j < |turns|
      ensures ListStart(turns[..j], turns[j]) == |turns[j].prompt|
    {
      var before := turns[..j];
      assert IsSegment(before, threshold) && AllValid(before, true);
      RequiredLogProbsFit(before, threshold);
      ArrayLengthExact(before);
      if j > 0 { assert Linked(turns[j - 1], turns[j], threshold); }
    }
  }
}
