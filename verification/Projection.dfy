/**
 * The session projection of packages/dashboard/src/session-projection.ts: a reducer that mirrors the
 * Host's event log in the browser from messages that may be duplicated, reordered or lost.
 *
 * The kernel's `step`, the context estimator and the default compaction policies are parameters
 * (`Env`); the wall-clock `updatedAt` of a re-projected context snapshot is not modelled.
 */
module Projection {
  import opened Common
  import opened Timeline

  datatype AgentState = AgentState(cursor: int, body: Blob)

  datatype Env = Env(
    step: (AgentState, AgentEvent, Blob) -> AgentState,
    reproject: (Blob, AgentState, Option<Blob>) -> Blob,
    kernelPolicy: Option<Blob> -> Blob,
    copilotPolicy: Blob)

  datatype Status = Idle | Connecting | Live | Failed | Disconnected

  datatype CompactStatus = CompactStatus(subagent: bool, body: Blob)

  datatype Projection = Projection(
    generation: int, sessionId: Option<string>, agentRuntime: string, executionMode: string, status: Status,
    state: Option<AgentState>, config: Option<Blob>, contextSnapshot: Option<Blob>, compactionPolicy: Blob,
    turnStartedAt: Option<string>, turnStartedAtCursor: Option<int>, compactStatus: Option<CompactStatus>,
    timeline: seq<Entry>, queuedMessages: seq<Blob>, lastError: Option<Blob>,
    parentSessionId: Option<string>, parentCursor: Option<int>, selectedModel: Option<string>,
    hydratedSessionId: Option<string>, historyLoadedSessionId: Option<string>)

  datatype Cached = Cached(
    sessionId: string, agentRuntime: Option<string>, executionMode: Option<string>,
    state: Option<AgentState>, config: Option<Blob>, contextSnapshot: Option<Blob>, compactionPolicy: Option<Blob>,
    turnStartedAt: Option<string>, turnStartedAtCursor: Option<int>,
    timeline: seq<Entry>, queuedMessages: seq<Blob>, lastError: Option<Blob>,
    parentSessionId: Option<string>, parentCursor: Option<int>, selectedModel: Option<string>)

  datatype ReadyPayload = ReadyPayload(
    sessionId: string, agentRuntime: Option<string>, executionMode: Option<string>,
    cursor: int, state: AgentState, config: Blob, contextSnapshot: Option<Blob>, compactionPolicy: Option<Blob>,
    compactStatus: Option<CompactStatus>, turnStartedAt: Option<string>,
    parentSessionId: Option<string>, parentCursor: Option<int>, selectedModel: Option<string>)

  datatype StateChanged = StateChanged(
    cursor: int, state: AgentState, contextSnapshot: Option<Blob>, turnStartedAt: Option<string>)

  datatype Scope = Scope(generation: int, sessionId: string)

  datatype Event =
    | Select(generation: int, selected: Option<string>, cached: Option<Cached>)
    | Hydrate(scope: Scope, view: Cached)
    | Ready(scope: Scope, ready: ReadyPayload)
    | History(scope: Scope, entries: seq<Entry>, reset: bool)
    | Authoritative(scope: Scope, change: StateChanged)
    | Appended(scope: Scope, entry: Entry)
    | Queue(scope: Scope, items: seq<Blob>)
    | Error(scope: Scope, error: Blob)
    | StatusChange(scope: Scope, status: Status)
    | Compact(scope: Scope, compactStatus: CompactStatus)
    | SelectModel(scope: Scope, selectedModel: Option<string>)
    | ResetTimeline(scope: Scope)

  function Or<T>(o: Option<T>, default: T): T {
    if o.Some? then o.value else default
  }

  function Empty(env: Env, generation: int): Projection {
    Projection(generation, None, "kernel", "chat", Idle, None, None, None, env.kernelPolicy(None),
               None, None, None, [], [], None, None, None, None, None, None)
  }

  /** `projectionFromCache`, laid over `p`. */
  function FromCache(env: Env, p: Projection, c: Cached): Projection {
    p.(agentRuntime := Or(c.agentRuntime, "kernel"), executionMode := Or(c.executionMode, "chat"),
       state := c.state, config := c.config, contextSnapshot := c.contextSnapshot,
       compactionPolicy := Or(c.compactionPolicy, env.kernelPolicy(c.config)),
       turnStartedAt := c.turnStartedAt, turnStartedAtCursor := c.turnStartedAtCursor,
       timeline := c.timeline, queuedMessages := c.queuedMessages, lastError := c.lastError,
       parentSessionId := c.parentSessionId, parentCursor := c.parentCursor,
       selectedModel := c.selectedModel, hydratedSessionId := None, historyLoadedSessionId := Some(c.sessionId))
  }

  predicate InScope(p: Projection, e: Event) {
    e.Select? || (e.scope.generation == p.generation && p.sessionId == Some(e.scope.sessionId))
  }

  function OnReady(env: Env, p: Projection, r: ReadyPayload): Projection {
    p.(status := Live, agentRuntime := Or(r.agentRuntime, "kernel"), executionMode := Or(r.executionMode, "chat"),
       state := Some(r.state), config := Some(r.config), contextSnapshot := r.contextSnapshot,
       compactionPolicy := Or(r.compactionPolicy,
                              if r.agentRuntime == Some("copilot") then env.copilotPolicy
                              else env.kernelPolicy(Some(r.config))),
       compactStatus := if r.compactStatus.Some? && r.compactStatus.value.subagent then None else r.compactStatus,
       turnStartedAt := r.turnStartedAt,
       turnStartedAtCursor := if r.turnStartedAt.Some? && r.turnStartedAt.value != "" then Some(r.cursor) else None,
       parentSessionId := r.parentSessionId, parentCursor := r.parentCursor, selectedModel := r.selectedModel,
       hydratedSessionId := Some(r.sessionId), lastError := None)
  }

  function OnAuthoritative(p: Projection, c: StateChanged): Projection {
    if p.state.Some? && c.cursor < p.state.value.cursor then p
    else
      var accepts := c.turnStartedAt.Some? && (p.turnStartedAtCursor.None? || c.cursor >= p.turnStartedAtCursor.value);
      p.(state := Some(c.state), contextSnapshot := c.contextSnapshot,
         turnStartedAt := if accepts then c.turnStartedAt else p.turnStartedAt,
         turnStartedAtCursor := if accepts then Some(c.cursor) else p.turnStartedAtCursor)
  }

  /** A live event is folded locally only when it is the next one for a kernel session. */
  predicate Folds(p: Projection, entry: Entry) {
    p.agentRuntime == "kernel" && p.state.Some? && p.config.Some? && entry.seqNo == p.state.value.cursor + 1
  }

  function OnAppended(env: Env, p: Projection, entry: Entry): Projection {
    var q := p.(lastError := None, timeline := MergeBySeq(p.timeline, [entry]));
    if Folds(p, entry) then
      var next := env.step(p.state.value, entry.event, p.config.value);
      q.(state := Some(next), contextSnapshot := Some(env.reproject(p.config.value, next, p.contextSnapshot)))
    else q
  }

  function Reduce(env: Env, p: Projection, e: Event): Projection {
    if e.Select? then
      if e.selected.None? then Empty(env, e.generation)
      else
        var blank := Empty(env, e.generation).(sessionId := e.selected, status := Connecting);
        if e.cached.Some? then FromCache(env, blank, e.cached.value) else blank
    else if !InScope(p, e) then p
    else match e
      case Hydrate(_, view) => FromCache(env, p, view).(status := Connecting)
      case Ready(_, ready) => OnReady(env, p, ready)
      case History(scope, entries, reset) =>
        p.(timeline := if reset then AuthoritativeTimeline(entries) else MergeBySeq(p.timeline, entries),
           historyLoadedSessionId := Some(scope.sessionId))
      case Authoritative(_, change) => OnAuthoritative(p, change)
      case Appended(_, entry) => OnAppended(env, p, entry)
      case Queue(_, items) => p.(queuedMessages := items)
      case Error(_, error) => p.(lastError := Some(error))
      case StatusChange(_, status) => p.(status := status)
      case Compact(_, compactStatus) => if compactStatus.subagent then p else p.(compactStatus := Some(compactStatus))
      case SelectModel(_, selectedModel) => p.(selectedModel := selectedModel)
      case ResetTimeline(_) => p.(timeline := [], historyLoadedSessionId := None)
  }

  /** `reduceSessionProjectionBatch`. */
  function ReduceAll(env: Env, p: Projection, events: seq<Event>): Projection {
    if events == [] then p else Reduce(env, ReduceAll(env, p, events[..|events| - 1]), events[|events| - 1])
  }

  method ReduceBatch(env: Env, current: Projection, events: seq<Event>) returns (next: Projection)
    ensures next == ReduceAll(env, current, events)
  {
    next := current;
    for i := 0 to |events|
      invariant next == ReduceAll(env, current, events[..i])
    {
      assert events[..i + 1][..i] == events[..i];
      next := Reduce(env, next, events[i]);
    }
    assert events[..|events|] == events;
  }

  lemma {:induction false} ReduceAllAppend(env: Env, p: Projection, a: seq<Event>, b: seq<Event>)
    ensures ReduceAll(env, p, a + b) == ReduceAll(env, ReduceAll(env, p, a), b)
  {
    if b == [] {
      assert a + b == a;
    } else {
      var n := |b| - 1;
      assert (a + b)[..|a + b| - 1] == a + b[..n];
      ReduceAllAppend(env, p, a, b[..n]);
    }
  }

  // ---------------------------------------------------------------------------------
  // The Host, and messages that are truthful about it.

  /** The Host's session: its fixed config, the state before any event, and its event log. */
  datatype Host = Host(config: Blob, initial: AgentState, log: seq<AgentEvent>)

  /** What `step` guarantees: the cursor counts events. */
  ghost predicate CountsEvents(env: Env) {
    forall s, e, c :: env.step(s, e, c).cursor == s.cursor + 1
  }

  /** `fold` of packages/kernel/src/fold.ts over the first `n` events. */
  function StateAt(env: Env, host: Host, n: nat): AgentState
    requires n <= |host.log|
  {
    if n == 0 then host.initial else env.step(StateAt(env, host, n - 1), host.log[n - 1], host.config)
  }

  lemma {:induction false} CursorCounts(env: Env, host: Host, n: nat)
    requires CountsEvents(env) && host.initial.cursor == 0 && n <= |host.log|
    ensures StateAt(env, host, n).cursor == n
  {
    if n > 0 { CursorCounts(env, host, n - 1); }
  }

  predicate TrueState(env: Env, host: Host, s: AgentState) {
    0 <= s.cursor <= |host.log| && s == StateAt(env, host, s.cursor)
  }

  predicate TrueEntry(host: Host, entry: Entry) {
    1 <= entry.seqNo <= |host.log| && entry.event == host.log[entry.seqNo - 1]
  }

  predicate TrueEntries(host: Host, entries: seq<Entry>) {
    forall i :: 0 <= i < |entries| ==> TrueEntry(host, entries[i])
  }

  predicate TrueView(env: Env, host: Host, c: Cached) {
    && (c.state.Some? ==> TrueState(env, host, c.state.value))
    && (c.config.Some? ==> c.config.value == host.config)
    && StrictlyIncreasing(c.timeline) && TrueEntries(host, c.timeline)
  }

  /** The message is truthful about the Host's log; it may still be old, repeated or out of order. */
  predicate TrueEvent(env: Env, host: Host, e: Event) {
    match e
    case Select(_, _, cached) => cached.Some? ==> TrueView(env, host, cached.value)
    case Hydrate(_, view) => TrueView(env, host, view)
    case Ready(_, r) => TrueState(env, host, r.state) && r.cursor == r.state.cursor && r.config == host.config
    case Authoritative(_, c) => TrueState(env, host, c.state) && c.cursor == c.state.cursor
    case Appended(_, entry) => TrueEntry(host, entry)
    case History(_, entries, _) => TrueEntries(host, entries)
    case _ => true
  }

  /** The local projection is a faithful copy of some prefix of the Host's run. */
  predicate Replica(env: Env, host: Host, p: Projection) {
    && (p.state.Some? ==> TrueState(env, host, p.state.value))
    && (p.config.Some? ==> p.config.value == host.config)
    && StrictlyIncreasing(p.timeline) && TrueEntries(host, p.timeline)
  }

  lemma {:induction false} IndexHolds(t: seq<Entry>, i: int)
    requires StrictlyIncreasing(t) && 0 <= i < |t|
    ensures t[i].seqNo in Index(t) && Index(t)[t[i].seqNo] == t[i]
  {
    var n := |t| - 1;
    if i < n { IndexHolds(t[..n], i); }
  }

  predicate TrueMap(host: Host, m: BySeq) {
    forall k :: k in m ==> TrueEntry(host, m[k])
  }

  lemma {:induction false} IndexTrue(host: Host, t: seq<Entry>)
    requires TrueEntries(host, t)
    ensures TrueMap(host, Index(t))
  {
    if t != [] { IndexTrue(host, t[..|t| - 1]); }
  }

  lemma {:induction false} InsertAllTrue(host: Host, m: BySeq, add: seq<Entry>)
    requires TrueMap(host, m) && TrueEntries(host, add)
    ensures TrueMap(host, InsertAll(m, add))
  {
    if add != [] { InsertAllTrue(host, m, add[..|add| - 1]); }
  }

  lemma {:induction false} FirstWinsTrue(host: Host, entries: seq<Entry>)
    requires TrueEntries(host, entries)
    ensures TrueMap(host, FirstWins(entries))
  {
    if entries != [] { FirstWinsTrue(host, entries[..|entries| - 1]); }
  }

  lemma {:induction false} SortedTrue(host: Host, m: BySeq)
    requires Keyed(m) && TrueMap(host, m)
    ensures StrictlyIncreasing(Sorted(m)) && TrueEntries(host, Sorted(m))
  {
    var t := Sorted(m);
    forall i | 0 <= i < |t| ensures TrueEntry(host, t[i]) {
      IndexHolds(t, i);
    }
  }

  lemma {:induction false} MergeTrue(host: Host, t: seq<Entry>, add: seq<Entry>)
    requires StrictlyIncreasing(t) && TrueEntries(host, t) && TrueEntries(host, add)
    ensures StrictlyIncreasing(MergeBySeq(t, add)) && TrueEntries(host, MergeBySeq(t, add))
  {
    FastIsSlow(t, add);
    IndexTrue(host, t);
    InsertAllTrue(host, Index(t), add);
    SortedTrue(host, InsertAll(Index(t), add));
  }

  /** One truthful message keeps the replica truthful, whatever its age or order. */
  lemma {:induction false} ReplicaStep(env: Env, host: Host, p: Projection, e: Event)
    requires CountsEvents(env) && host.initial.cursor == 0
    requires Replica(env, host, p) && TrueEvent(env, host, e)
    ensures Replica(env, host, Reduce(env, p, e))
  {
    hide MergeBySeq, AuthoritativeTimeline;
    if e.History? {
      MergeTrue(host, p.timeline, e.entries);
      AuthoritativeTrue(host, e.entries);
    } else if e.Appended? {
      MergeTrue(host, p.timeline, [e.entry]);
      if InScope(p, e) && Folds(p, e.entry) {
        CursorCounts(env, host, e.entry.seqNo);
      }
    }
  }

  lemma {:induction false} AuthoritativeTrue(host: Host, entries: seq<Entry>)
    requires TrueEntries(host, entries)
    ensures StrictlyIncreasing(AuthoritativeTimeline(entries)) && TrueEntries(host, AuthoritativeTimeline(entries))
  {
    FirstWinsTrue(host, entries);
    SortedTrue(host, FirstWins(entries));
  }

  predicate AllTrue(env: Env, host: Host, events: seq<Event>) {
    forall i :: 0 <= i < |events| ==> TrueEvent(env, host, events[i])
  }

  /**
   * Replica correctness: after any duplicated, reordered or lossy run of truthful messages, the local
   * state is `step` folded over the Host's log up to the local cursor, and the timeline lists Host
   * entries in order.
   */
  lemma {:induction false} ReplicaRun(env: Env, host: Host, p: Projection, events: seq<Event>)
    requires CountsEvents(env) && host.initial.cursor == 0
    requires Replica(env, host, p) && AllTrue(env, host, events)
    ensures Replica(env, host, ReduceAll(env, p, events))
  {
    if events != [] {
      var n := |events| - 1;
      ReplicaRun(env, host, p, events[..n]);
      ReplicaStep(env, host, ReduceAll(env, p, events[..n]), events[n]);
    }
  }

  // ---------------------------------------------------------------------------------
  // Progress between baselines.

  predicate IsBaseline(e: Event) {
    e.Select? || e.Hydrate? || e.Ready?
  }

  /** The only thing that decides the local state: a cursor that follows the next event or a newer state. */
  function Reached(cursor: int, kernel: bool, scope: Scope, e: Event): int {
    if e.Appended? && e.scope == scope && kernel && e.entry.seqNo == cursor + 1 then cursor + 1
    else if e.Authoritative? && e.scope == scope && e.change.cursor >= cursor then e.change.cursor
    else cursor
  }

  function ReachedAll(cursor: int, kernel: bool, scope: Scope, events: seq<Event>): int {
    if events == [] then cursor
    else Reached(ReachedAll(cursor, kernel, scope, events[..|events| - 1]), kernel, scope, events[|events| - 1])
  }

  /** A projection of this session with a baseline. */
  predicate Based(p: Projection, scope: Scope) {
    p.generation == scope.generation && p.sessionId == Some(scope.sessionId) && p.state.Some? && p.config.Some?
  }

  predicate Delta(e: Event) {
    !IsBaseline(e)
  }

  predicate NotBefore(a: Option<int>, b: Option<int>) {
    a.Some? ==> b.Some? && a.value <= b.value
  }

  lemma {:induction false} CursorStep(env: Env, host: Host, p: Projection, scope: Scope, e: Event)
    requires CountsEvents(env) && host.initial.cursor == 0
    requires Replica(env, host, p) && Based(p, scope) && TrueEvent(env, host, e) && Delta(e)
    ensures
      var q := Reduce(env, p, e);
      && Based(q, scope) && q.agentRuntime == p.agentRuntime
      && q.state.value.cursor == Reached(p.state.value.cursor, p.agentRuntime == "kernel", scope, e)
      && q.state.value.cursor >= p.state.value.cursor
      && NotBefore(p.turnStartedAtCursor, q.turnStartedAtCursor)
  {
    hide MergeBySeq, AuthoritativeTimeline, TrueEntries, StrictlyIncreasing;
  }

  /**
   * Between baselines the replica is exact: the local state is the Host's state at a cursor that a
   * plain counter over the messages predicts, and neither cursor ever decreases.
   */
  lemma {:induction false} CursorRun(env: Env, host: Host, p: Projection, scope: Scope, events: seq<Event>)
    requires CountsEvents(env) && host.initial.cursor == 0
    requires Replica(env, host, p) && Based(p, scope) && AllTrue(env, host, events)
    requires forall i :: 0 <= i < |events| ==> Delta(events[i])
    ensures
      var q := ReduceAll(env, p, events);
      var cursor := ReachedAll(p.state.value.cursor, p.agentRuntime == "kernel", scope, events);
      && Based(q, scope) && q.agentRuntime == p.agentRuntime
      && 0 <= cursor <= |host.log|
      && q.state.value.cursor == cursor && q.state.value == StateAt(env, host, cursor)
      && p.state.value.cursor <= cursor
      && NotBefore(p.turnStartedAtCursor, q.turnStartedAtCursor)
  {
    if events != [] {
      var n := |events| - 1;
      CursorRun(env, host, p, scope, events[..n]);
      ReplicaRun(env, host, p, events[..n]);
      ReplicaRun(env, host, p, events);
      hide TrueEvent, Reduce, Reached, TrueEntries, StrictlyIncreasing;
      CursorStep(env, host, ReduceAll(env, p, events[..n]), scope, events[n]);
    }
  }

  /** Message `at[i]` delivers the event that follows `cursor + i`. */
  predicate DeliversNext(events: seq<Event>, scope: Scope, cursor: int, at: seq<nat>) {
    && (forall i, j :: 0 <= i < j < |at| ==> at[i] < at[j])
    && (forall i :: 0 <= i < |at| ==>
          && at[i] < |events| && events[at[i]].Appended?
          && events[at[i]].scope == scope && events[at[i]].entry.seqNo == cursor + i + 1)
  }

  lemma {:induction false} CounterReaches(cursor: int, scope: Scope, events: seq<Event>, at: seq<nat>)
    requires DeliversNext(events, scope, cursor, at)
    ensures ReachedAll(cursor, true, scope, events) >= cursor + |at|
    decreases |events|
  {
    if events != [] {
      var n := |events| - 1;
      if at != [] && at[|at| - 1] == n {
        CounterReaches(cursor, scope, events[..n], at[..|at| - 1]);
      } else {
        assert forall i :: 0 <= i < |at| - 1 ==> at[i] < at[|at| - 1];
        CounterReaches(cursor, scope, events[..n], at);
      }
    }
  }

  /**
   * Catching up: if some missing events arrive in order, interleaved with any other truthful messages, the
   * replica reaches them; if all of them do, it is in the Host's latest state.
   */
  lemma {:induction false} CatchesUp(
    env: Env, host: Host, p: Projection, scope: Scope, events: seq<Event>, at: seq<nat>)
    requires CountsEvents(env) && host.initial.cursor == 0
    requires Replica(env, host, p) && Based(p, scope) && AllTrue(env, host, events)
    requires forall i :: 0 <= i < |events| ==> Delta(events[i])
    requires p.agentRuntime == "kernel" && DeliversNext(events, scope, p.state.value.cursor, at)
    ensures
      var q := ReduceAll(env, p, events);
      && Based(q, scope) && p.state.value.cursor + |at| <= q.state.value.cursor <= |host.log|
      && q.state.value == StateAt(env, host, q.state.value.cursor)
      && (p.state.value.cursor + |at| == |host.log| ==> q.state.value == StateAt(env, host, |host.log|))
  {
    CursorRun(env, host, p, scope, events);
    CounterReaches(p.state.value.cursor, scope, events, at);
    hide ReduceAll, ReachedAll, Replica, AllTrue, DeliversNext;
  }
}
