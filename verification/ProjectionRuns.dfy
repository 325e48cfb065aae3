/**
 * What each field of the session projection holds after any run of messages between two baselines, as the
 * messages decide it.
 */
module ProjectionRuns {
  import opened Common
  import opened Timeline
  import opened Projection

  /** The projection shows this session. */
  predicate Shows(p: Projection, scope: Scope) {
    p.generation == scope.generation && p.sessionId == Some(scope.sessionId)
  }

  predicate AllDeltas(events: seq<Event>) {
    forall i :: 0 <= i < |events| ==> Delta(events[i])
  }

  lemma {:induction false} DeltaScope(env: Env, p: Projection, e: Event, scope: Scope)
    requires Shows(p, scope) && Delta(e)
    ensures Shows(Reduce(env, p, e), scope) && (InScope(p, e) <==> e.scope == scope)
  {
    hide MergeBySeq, AuthoritativeTimeline;
  }

  // ---------------------------------------------------------------------------------
  // The timeline.

  /** The event starts the timeline afresh. */
  predicate Resets(e: Event, scope: Scope) {
    !e.Select? && e.scope == scope && ((e.History? && e.reset) || e.ResetTimeline?)
  }

  /** The entries that a message brings. */
  function Brought(e: Event, scope: Scope): seq<Entry> {
    if e.Appended? && e.scope == scope then [e.entry]
    else if e.History? && e.scope == scope then e.entries
    else []
  }

  /** The entries of all messages, in order. */
  function AllBrought(events: seq<Event>, scope: Scope): seq<Entry> {
    if events == [] then []
    else AllBrought(events[..|events| - 1], scope) + Brought(events[|events| - 1], scope)
  }

  predicate NoReset(events: seq<Event>, scope: Scope) {
    forall i :: 0 <= i < |events| ==> !Resets(events[i], scope)
  }

  lemma {:induction false} TimelineStep(env: Env, p: Projection, e: Event, scope: Scope)
    requires Shows(p, scope) && Delta(e)
    ensures
      var t := Reduce(env, p, e).timeline;
      if Resets(e, scope) then t == (if e.History? then AuthoritativeTimeline(e.entries) else [])
      else t == MergeBySeq(p.timeline, Brought(e, scope))
  {
    DeltaScope(env, p, e, scope);
    hide AuthoritativeTimeline;
  }

  /** Until it is reset, the timeline is what it was, merged with every entry that was delivered since. */
  lemma {:induction false} TimelineGrows(env: Env, p: Projection, events: seq<Event>, scope: Scope)
    requires Shows(p, scope) && AllDeltas(events) && NoReset(events, scope) && StrictlyIncreasing(p.timeline)
    ensures Shows(ReduceAll(env, p, events), scope)
    ensures ReduceAll(env, p, events).timeline == MergeBySeq(p.timeline, AllBrought(events, scope))
    ensures SeqNos(ReduceAll(env, p, events).timeline) == SeqNos(p.timeline) + SeqNos(AllBrought(events, scope))
    ensures StrictlyIncreasing(ReduceAll(env, p, events).timeline)
  {
    hide Reduce, MergeBySeq, Resets, Brought, StrictlyIncreasing, SeqNos;
    MergeUnion(p.timeline, AllBrought(events, scope));
    if events == [] {
      MergeNothing(p.timeline);
      return;
    }
    var n := |events| - 1;
    TimelineGrows(env, p, events[..n], scope);
    var q := ReduceAll(env, p, events[..n]);
    DeltaScope(env, q, events[n], scope);
    TimelineStep(env, q, events[n], scope);
    MergeGrouping(p.timeline, AllBrought(events[..n], scope), Brought(events[n], scope));
  }

  lemma {:induction false} MergeNothing(t: seq<Entry>)
    ensures MergeBySeq(t, []) == t
  {
  }

  /**
   * After a reset the timeline is decided by the messages alone, whatever the projection was: the first entry of
   * each sequence number of a history reply, or nothing, merged with every entry delivered since.
   */
  lemma {:induction false} TimelineAfterReset(
    env: Env, p: Projection, before: seq<Event>, e: Event, events: seq<Event>, scope: Scope)
    requires Shows(p, scope) && AllDeltas(before) && AllDeltas(events) && Delta(e)
    requires Resets(e, scope) && NoReset(events, scope)
    ensures
      var entries := if e.History? then e.entries else [];
      var t := ReduceAll(env, p, before + [e] + events).timeline;
      && t == MergeBySeq(AuthoritativeTimeline(entries), AllBrought(events, scope))
      && StrictlyIncreasing(t) && SeqNos(t) == SeqNos(entries) + SeqNos(AllBrought(events, scope))
  {
    hide Reduce, MergeBySeq, Resets, StrictlyIncreasing, SeqNos, AllBrought;
    var entries := if e.History? then e.entries else [];
    ShowsRun(env, p, before, scope);
    var q := ReduceAll(env, p, before);
    ReduceOne(env, q, e);
    ReduceAllAppend(env, p, before, [e]);
    ReduceAllAppend(env, p, before + [e], events);
    DeltaScope(env, q, e, scope);
    TimelineStep(env, q, e, scope);
    ResetsTo(e, scope);
    FirstOfEach(entries);
    TimelineGrows(env, Reduce(env, q, e), events, scope);
  }

  lemma {:induction false} ReduceOne(env: Env, p: Projection, e: Event)
    ensures ReduceAll(env, p, [e]) == Reduce(env, p, e)
  {
    hide Reduce;
    assert [e][..0] == [];
    assert ReduceAll(env, p, []) == p;
  }

  lemma {:induction false} ResetsTo(e: Event, scope: Scope)
    requires Resets(e, scope)
    ensures !e.History? ==> AuthoritativeTimeline([]) == []
  {
  }

  lemma {:induction false} ShowsRun(env: Env, p: Projection, events: seq<Event>, scope: Scope)
    requires Shows(p, scope) && AllDeltas(events)
    ensures Shows(ReduceAll(env, p, events), scope)
  {
    hide Reduce;
    if events != [] {
      var n := |events| - 1;
      ShowsRun(env, p, events[..n], scope);
      DeltaScope(env, ReduceAll(env, p, events[..n]), events[n], scope);
    }
  }

  /** A reply that resets leaves exactly the first entry of each of its sequence numbers, in order. */
  lemma {:induction false} FirstOfEach(entries: seq<Entry>)
    ensures StrictlyIncreasing(AuthoritativeTimeline(entries))
    ensures SeqNos(AuthoritativeTimeline(entries)) == SeqNos(entries)
    ensures forall i :: FirstAt(entries, i) ==> entries[i] in AuthoritativeTimeline(entries)
    ensures forall x :: x in AuthoritativeTimeline(entries) ==> exists i :: FirstAt(entries, i) && entries[i] == x
  {
    FirstWinsExact(entries);
    var t := AuthoritativeTimeline(entries);
    forall i | FirstAt(entries, i) ensures entries[i] in t {
      KeyHeld(t, entries[i].seqNo);
    }
    forall x | x in t ensures exists i :: FirstAt(entries, i) && entries[i] == x {
      var j :| 0 <= j < |t| && t[j] == x;
      IndexHolds(t, j);
      var i := FirstOf(entries, x.seqNo);
    }
  }

  lemma {:induction false} KeyHeld(t: seq<Entry>, k: int)
    requires k in SeqNos(t)
    ensures Index(t)[k] in t
  {
    if t[|t| - 1].seqNo != k { KeyHeld(t[..|t| - 1], k); }
  }

  lemma {:induction false} FirstOf(entries: seq<Entry>, k: int) returns (i: int)
    requires k in SeqNos(entries)
    ensures FirstAt(entries, i) && entries[i].seqNo == k
  {
    var n := |entries| - 1;
    if k in SeqNos(entries[..n]) {
      i := FirstOf(entries[..n], k);
      assert forall j :: 0 <= j < n ==> entries[..n][j] == entries[j];
    } else {
      i := n;
      SeqNosMember(entries[..n], k);
      assert forall j :: 0 <= j < n ==> entries[..n][j] == entries[j];
    }
  }

  // ---------------------------------------------------------------------------------
  // Fields that a message sets outright.

  datatype Kind = Queues | Models | Statuses | Compacts | Errors | Loads

  /** The message decides that field: a subagent's compaction does not, and an append clears the last error. */
  predicate Decides(e: Event, kind: Kind, scope: Scope) {
    && !e.Select? && e.scope == scope
    && match kind
       case Queues => e.Queue?
       case Models => e.SelectModel?
       case Statuses => e.StatusChange?
       case Compacts => e.Compact? && !e.compactStatus.subagent
       case Errors => e.Error? || e.Appended?
       case Loads => e.History? || e.ResetTimeline?
  }

  /** The field has the value that the message gives it. */
  predicate Holds(p: Projection, e: Event, kind: Kind, scope: Scope)
    requires Decides(e, kind, scope)
  {
    match kind
    case Queues => p.queuedMessages == e.items
    case Models => p.selectedModel == e.selectedModel
    case Statuses => p.status == e.status
    case Compacts => p.compactStatus == Some(e.compactStatus)
    case Errors => p.lastError == if e.Error? then Some(e.error) else None
    case Loads => p.historyLoadedSessionId == if e.History? then Some(scope.sessionId) else None
  }

  predicate SameField(p: Projection, q: Projection, kind: Kind) {
    match kind
    case Queues => q.queuedMessages == p.queuedMessages
    case Models => q.selectedModel == p.selectedModel
    case Statuses => q.status == p.status
    case Compacts => q.compactStatus == p.compactStatus
    case Errors => q.lastError == p.lastError
    case Loads => q.historyLoadedSessionId == p.historyLoadedSessionId
  }

  lemma {:induction false} FieldStep(env: Env, p: Projection, e: Event, kind: Kind, scope: Scope)
    requires Shows(p, scope) && Delta(e)
    ensures if Decides(e, kind, scope) then Holds(Reduce(env, p, e), e, kind, scope)
            else SameField(p, Reduce(env, p, e), kind)
  {
    hide MergeBySeq, AuthoritativeTimeline, Folds;
  }

  predicate NoneDecides(events: seq<Event>, kind: Kind, scope: Scope) {
    forall i :: 0 <= i < |events| ==> !Decides(events[i], kind, scope)
  }

  lemma {:induction false} SameFieldTwice(p: Projection, q: Projection, r: Projection, kind: Kind)
    requires SameField(p, q, kind) && SameField(q, r, kind)
    ensures SameField(p, r, kind)
  {
  }

  lemma {:induction false} FieldKept(env: Env, p: Projection, events: seq<Event>, kind: Kind, scope: Scope)
    requires Shows(p, scope) && AllDeltas(events) && NoneDecides(events, kind, scope)
    ensures SameField(p, ReduceAll(env, p, events), kind)
  {
    hide Reduce, Decides;
    if events != [] {
      hide SameField;
      var n := |events| - 1;
      FieldKept(env, p, events[..n], kind, scope);
      ShowsRun(env, p, events[..n], scope);
      FieldStep(env, ReduceAll(env, p, events[..n]), events[n], kind, scope);
      SameFieldTwice(p, ReduceAll(env, p, events[..n]), ReduceAll(env, p, events), kind);
    }
  }

  lemma {:induction false} HoldsOn(p: Projection, q: Projection, e: Event, kind: Kind, scope: Scope)
    requires Decides(e, kind, scope) && Holds(p, e, kind, scope) && SameField(p, q, kind)
    ensures Holds(q, e, kind, scope)
  {
  }

  /** Each of these fields holds what the last message that decides it gave it. */
  lemma {:induction false} FieldLatest(
    env: Env, p: Projection, before: seq<Event>, e: Event, events: seq<Event>, kind: Kind, scope: Scope)
    requires Shows(p, scope) && AllDeltas(before) && AllDeltas(events) && Delta(e)
    requires Decides(e, kind, scope) && NoneDecides(events, kind, scope)
    ensures Holds(ReduceAll(env, p, before + [e] + events), e, kind, scope)
  {
    hide *;
    ShowsRun(env, p, before, scope);
    var q := ReduceAll(env, p, before);
    ReduceOne(env, q, e);
    ReduceAllAppend(env, p, before, [e]);
    ReduceAllAppend(env, p, before + [e], events);
    DeltaScope(env, q, e, scope);
    FieldStep(env, q, e, kind, scope);
    FieldKept(env, Reduce(env, q, e), events, kind, scope);
    HoldsOn(Reduce(env, q, e), ReduceAll(env, p, before + [e] + events), e, kind, scope);
  }

  // ---------------------------------------------------------------------------------
  // State, context and turn start.

  /** The message moves the local state on: an authoritative one that is not older, or the next event. */
  predicate MovesState(p: Projection, e: Event, scope: Scope) {
    && !e.Select? && e.scope == scope
    && ((e.Authoritative? && !(p.state.Some? && e.change.cursor < p.state.value.cursor))
        || (e.Appended? && p.agentRuntime == "kernel" && p.state.Some? && p.config.Some?
            && e.entry.seqNo == p.state.value.cursor + 1))
  }

  /** It also tells when the turn started, and not for a turn before the known one. */
  predicate MovesTurn(p: Projection, e: Event, scope: Scope) {
    && MovesState(p, e, scope) && e.Authoritative? && e.change.turnStartedAt.Some?
    && !(p.turnStartedAtCursor.Some? && e.change.cursor < p.turnStartedAtCursor.value)
  }

  /** State, context and turn start after one message, and what a message never changes. */
  lemma {:induction false} StateStep(env: Env, p: Projection, e: Event, scope: Scope)
    requires Shows(p, scope) && Delta(e)
    ensures
      var q := Reduce(env, p, e);
      && (if !MovesState(p, e, scope) then q.state == p.state && q.contextSnapshot == p.contextSnapshot
          else if e.Authoritative? then
            q.state == Some(e.change.state) && q.contextSnapshot == e.change.contextSnapshot
          else
            var next := env.step(p.state.value, e.entry.event, p.config.value);
            q.state == Some(next)
            && q.contextSnapshot == Some(env.reproject(p.config.value, next, p.contextSnapshot)))
      && (if MovesTurn(p, e, scope) then
            q.turnStartedAt == e.change.turnStartedAt && q.turnStartedAtCursor == Some(e.change.cursor)
          else q.turnStartedAt == p.turnStartedAt && q.turnStartedAtCursor == p.turnStartedAtCursor)
      && Fixed(p, q)
  {
    hide MergeBySeq, AuthoritativeTimeline;
  }

  /** What only a baseline sets. */
  predicate Fixed(p: Projection, q: Projection) {
    && q.agentRuntime == p.agentRuntime && q.executionMode == p.executionMode && q.config == p.config
    && q.compactionPolicy == p.compactionPolicy && q.parentSessionId == p.parentSessionId
    && q.parentCursor == p.parentCursor && q.hydratedSessionId == p.hydratedSessionId
  }

  /** Message `k` of the run moves the turn start on (`turn`), or the state. */
  predicate MovesAt(env: Env, p: Projection, events: seq<Event>, scope: Scope, turn: bool, k: int)
    requires 0 <= k < |events|
  {
    var q := ReduceAll(env, p, events[..k]);
    if turn then MovesTurn(q, events[k], scope) else MovesState(q, events[k], scope)
  }

  predicate QuietFrom(env: Env, p: Projection, events: seq<Event>, scope: Scope, turn: bool, k: nat) {
    forall i :: k <= i < |events| ==> !MovesAt(env, p, events, scope, turn, i)
  }

  predicate SameMoved(p: Projection, q: Projection, turn: bool) {
    if turn then q.turnStartedAt == p.turnStartedAt && q.turnStartedAtCursor == p.turnStartedAtCursor
    else q.state == p.state && q.contextSnapshot == p.contextSnapshot
  }

  lemma {:induction false} SameTwice(p: Projection, q: Projection, r: Projection, turn: bool)
    ensures SameMoved(p, q, turn) && SameMoved(q, r, turn) ==> SameMoved(p, r, turn)
    ensures Fixed(p, q) && Fixed(q, r) ==> Fixed(p, r)
    ensures SameMoved(p, p, turn) && Fixed(p, p)
  {
  }

  lemma {:induction false} QuietStep(env: Env, p: Projection, e: Event, scope: Scope, turn: bool)
    requires Shows(p, scope) && Delta(e)
    ensures Fixed(p, Reduce(env, p, e))
    ensures (if turn then !MovesTurn(p, e, scope) else !MovesState(p, e, scope)) ==>
              SameMoved(p, Reduce(env, p, e), turn)
  {
    StateStep(env, p, e, scope);
    hide Reduce, MovesState, MovesTurn;
  }

  lemma {:induction false} QuietPrefix(
    env: Env, p: Projection, events: seq<Event>, scope: Scope, turn: bool, k: nat)
    requires k < |events| && QuietFrom(env, p, events, scope, turn, k)
    ensures QuietFrom(env, p, events[..|events| - 1], scope, turn, k)
    ensures
      var q, e := ReduceAll(env, p, events[..|events| - 1]), events[|events| - 1];
      if turn then !MovesTurn(q, e, scope) else !MovesState(q, e, scope)
  {
    hide ReduceAll, MovesState, MovesTurn;
    var n := |events| - 1;
    forall i | k <= i < n ensures !MovesAt(env, p, events[..n], scope, turn, i) {
      assert events[..n][..i] == events[..i];
      assert !MovesAt(env, p, events, scope, turn, i);
    }
    assert !MovesAt(env, p, events, scope, turn, n);
  }

  /** What no message moves stays, and so does what only a baseline sets. */
  lemma {:induction false} MovedStays(
    env: Env, p: Projection, events: seq<Event>, scope: Scope, turn: bool, k: nat)
    requires Shows(p, scope) && AllDeltas(events) && k <= |events| && QuietFrom(env, p, events, scope, turn, k)
    ensures SameMoved(ReduceAll(env, p, events[..k]), ReduceAll(env, p, events), turn)
    ensures Fixed(ReduceAll(env, p, events[..k]), ReduceAll(env, p, events))
    decreases |events|
  {
    var q := ReduceAll(env, p, events[..k]);
    SameTwice(q, q, q, turn);
    hide Reduce, MovesState, MovesTurn, Shows, Delta, SameMoved, Fixed, ReduceAll, QuietFrom;
    if k == |events| {
      assert events[..k] == events;
      return;
    }
    var n := |events| - 1;
    assert events[..n][..k] == events[..k];
    QuietPrefix(env, p, events, scope, turn, k);
    MovedStays(env, p, events[..n], scope, turn, k);
    ShowsRun(env, p, events[..n], scope);
    QuietStep(env, ReduceAll(env, p, events[..n]), events[n], scope, turn);
    ReduceAllLast(env, p, events);
    SameTwice(q, ReduceAll(env, p, events[..n]), ReduceAll(env, p, events), turn);
  }

  lemma {:induction false} ReduceAllLast(env: Env, p: Projection, events: seq<Event>)
    requires events != []
    ensures ReduceAll(env, p, events)
         == Reduce(env, ReduceAll(env, p, events[..|events| - 1]), events[|events| - 1])
  {
    hide Reduce;
  }

  /** What the message gives the state and the context, or the turn start, from the projection before it. */
  predicate Moved(env: Env, q: Projection, e: Event, r: Projection, turn: bool) {
    if e.Authoritative? then
      if turn then r.turnStartedAt == e.change.turnStartedAt && r.turnStartedAtCursor == Some(e.change.cursor)
      else r.state == Some(e.change.state) && r.contextSnapshot == e.change.contextSnapshot
    else
      && !turn && e.Appended? && q.state.Some? && q.config.Some?
      && var next := env.step(q.state.value, e.entry.event, q.config.value);
         r.state == Some(next) && r.contextSnapshot == Some(env.reproject(q.config.value, next, q.contextSnapshot))
  }

  /**
   * Over every run between baselines: the state and the context snapshot are those of the last message that moved
   * the state on, and the turn start is that of the last accepted message that told one.
   */
  lemma {:induction false} MovedLatest(
    env: Env, p: Projection, events: seq<Event>, scope: Scope, turn: bool, k: nat)
    requires Shows(p, scope) && AllDeltas(events) && k < |events|
    requires MovesAt(env, p, events, scope, turn, k) && QuietFrom(env, p, events, scope, turn, k + 1)
    ensures Moved(env, ReduceAll(env, p, events[..k]), events[k], ReduceAll(env, p, events), turn)
  {
    hide Reduce, Shows, Delta, ReduceAll, QuietFrom;
    var first := events[..k + 1];
    assert first[..k] == events[..k] && first[k] == events[k];
    ReduceAllLast(env, p, first);
    ShowsRun(env, p, events[..k], scope);
    StateStep(env, ReduceAll(env, p, events[..k]), events[k], scope);
    MovedStays(env, p, events, scope, turn, k + 1);
  }

  // ---------------------------------------------------------------------------------
  // Baselines.

  /**
   * A ready message of this session decides the projection but for timeline, queued messages and history marker,
   * which it leaves: state, configuration and context are the Host's, the error is gone, and the session is live
   * and hydrated.
   */
  lemma {:induction false} ReadyDecides(env: Env, p: Projection, e: Event, scope: Scope)
    requires Shows(p, scope) && e.Ready? && e.scope == scope
    ensures
      var q, r := Reduce(env, p, e), e.ready;
      && q.timeline == p.timeline && q.queuedMessages == p.queuedMessages
      && q.historyLoadedSessionId == p.historyLoadedSessionId && Shows(q, scope)
      && q.state == Some(r.state) && q.config == Some(r.config) && q.contextSnapshot == r.contextSnapshot
      && q.status.Live? && q.lastError.None? && q.hydratedSessionId == Some(r.sessionId)
      && q.selectedModel == r.selectedModel && q.parentSessionId == r.parentSessionId
      && q.parentCursor == r.parentCursor && q.turnStartedAt == r.turnStartedAt
      && (q.turnStartedAtCursor.Some? <==> r.turnStartedAt.Some? && r.turnStartedAt.value != "")
      && (q.turnStartedAtCursor.Some? ==> q.turnStartedAtCursor.value == r.cursor)
      && (q.compactStatus.Some? ==> q.compactStatus == r.compactStatus && !r.compactStatus.value.subagent)
      && (r.compactStatus.Some? && !r.compactStatus.value.subagent ==> q.compactStatus.Some?)
      && (r.agentRuntime.Some? ==> q.agentRuntime == r.agentRuntime.value)
      && (r.agentRuntime.None? ==> q.agentRuntime == "kernel")
      && (r.executionMode.Some? ==> q.executionMode == r.executionMode.value)
      && (r.executionMode.None? ==> q.executionMode == "chat")
      && (r.compactionPolicy.Some? ==> q.compactionPolicy == r.compactionPolicy.value)
      && (r.compactionPolicy.None? ==>
            q.compactionPolicy == if r.agentRuntime == Some("copilot") then env.copilotPolicy
                                  else env.kernelPolicy(Some(r.config)))
  {
  }

  /** The fields that a cached view carries are its own afterwards. */
  predicate FromView(env: Env, q: Projection, c: Cached) {
    && q.state == c.state && q.config == c.config && q.contextSnapshot == c.contextSnapshot
    && q.timeline == c.timeline && q.queuedMessages == c.queuedMessages && q.lastError == c.lastError
    && q.turnStartedAt == c.turnStartedAt && q.turnStartedAtCursor == c.turnStartedAtCursor
    && q.parentSessionId == c.parentSessionId && q.parentCursor == c.parentCursor
    && q.selectedModel == c.selectedModel && q.historyLoadedSessionId == Some(c.sessionId)
    && (c.agentRuntime.Some? ==> q.agentRuntime == c.agentRuntime.value)
    && (c.agentRuntime.None? ==> q.agentRuntime == "kernel")
    && (c.executionMode.Some? ==> q.executionMode == c.executionMode.value)
    && (c.executionMode.None? ==> q.executionMode == "chat")
    && (c.compactionPolicy.Some? ==> q.compactionPolicy == c.compactionPolicy.value)
    && (c.compactionPolicy.None? ==> q.compactionPolicy == env.kernelPolicy(c.config))
  }

  /**
   * A cached view, selected or hydrated, is taken over as it is, but the session then still waits for its
   * connection and is not hydrated: only a ready message makes it so.
   */
  lemma {:induction false} ViewTaken(env: Env, p: Projection, e: Event)
    requires
      || (e.Hydrate? && InScope(p, e))
      || (e.Select? && e.selected.Some? && e.cached.Some?)
    ensures
      var q := Reduce(env, p, e);
      && FromView(env, q, if e.Hydrate? then e.view else e.cached.value)
      && q.status.Connecting? && q.hydratedSessionId.None?
      && (if e.Hydrate? then Shows(q, e.scope) && q.compactStatus == p.compactStatus
          else q.generation == e.generation && q.sessionId == e.selected && q.compactStatus.None?)
  {
  }

  /** A selection without a cached view starts from nothing. */
  lemma {:induction false} SelectedBlank(env: Env, p: Projection, e: Event)
    requires e.Select? && (e.selected.None? || e.cached.None?)
    ensures
      var q := Reduce(env, p, e);
      && q.generation == e.generation && q.sessionId == e.selected
      && q.status == (if e.selected.None? then Idle else Connecting)
      && q.timeline == [] && q.queuedMessages == [] && q.state.None? && q.config.None? && q.contextSnapshot.None?
      && q.lastError.None? && q.hydratedSessionId.None? && q.historyLoadedSessionId.None? && q.selectedModel.None?
      && q.turnStartedAt.None? && q.turnStartedAtCursor.None? && q.compactStatus.None?
      && q.parentSessionId.None? && q.parentCursor.None?
  {
  }

  /** The session counts as hydrated only while the ready message that made it so is the latest baseline. */
  predicate ReadySince(env: Env, p: Projection, events: seq<Event>, k: int) {
    && 0 <= k < |events| && events[k].Ready? && InScope(ReduceAll(env, p, events[..k]), events[k])
    && forall i :: k < i < |events| && IsBaseline(events[i]) ==>
         events[i].Ready? || (events[i].Hydrate? && !InScope(ReduceAll(env, p, events[..i]), events[i]))
  }

  lemma {:induction false} HydratedByReady(env: Env, p: Projection, events: seq<Event>) returns (k: nat)
    requires p.hydratedSessionId.None? && ReduceAll(env, p, events).hydratedSessionId.Some?
    ensures ReadySince(env, p, events, k)
    ensures ReduceAll(env, p, events).hydratedSessionId == Some(events[k].ready.sessionId)
  {
    hide Reduce, InScope;
    assert ReduceAll(env, p, []) == p;
    assert events != [];
    var n := |events| - 1;
    var q, e := ReduceAll(env, p, events[..n]), events[n];
    HydratedStep(env, q, e);
    if e.Ready? && InScope(q, e) {
      k := n;
    } else {
      k := HydratedByReady(env, p, events[..n]);
      ReadySinceSnoc(env, p, events[..n], k, e);
      assert events == events[..n] + [e];
    }
  }

  lemma {:induction false} HydratedStep(env: Env, q: Projection, e: Event)
    ensures
      var r := Reduce(env, q, e);
      && (e.Ready? && InScope(q, e) ==> r.hydratedSessionId == Some(e.ready.sessionId))
      && (e.Select? || (e.Hydrate? && InScope(q, e)) ==> r.hydratedSessionId.None?)
      && (!e.Select? && (!IsBaseline(e) || !InScope(q, e)) ==> r.hydratedSessionId == q.hydratedSessionId)
  {
    hide MergeBySeq, AuthoritativeTimeline;
  }

  lemma {:induction false} ReadySinceSnoc(env: Env, p: Projection, events: seq<Event>, k: nat, e: Event)
    requires ReadySince(env, p, events, k)
    requires !IsBaseline(e) || e.Ready? || (e.Hydrate? && !InScope(ReduceAll(env, p, events), e))
    ensures ReadySince(env, p, events + [e], k)
  {
    hide ReduceAll, InScope;
    var all := events + [e];
    assert all[..|events|] == events;
    assert forall i :: 0 <= i < |events| ==> all[..i] == events[..i] && all[i] == events[i];
  }
}
