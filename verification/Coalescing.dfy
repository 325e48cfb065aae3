/**
 * The frame-coalesced dispatch of packages/dashboard/src/session.ts: the two high-frequency channels
 * are buffered and flushed once per frame, order-sensitive messages flush first, and a few messages
 * bypass the buffer.
 */
module Coalescing {
  import opened Common
  import opened Timeline
  import opened Projection
  import ProjectionRuns

  /** What the message handlers of one session subscription receive. */
  datatype Message =
    | ReadyMsg(ready: ReadyPayload, resetsTimeline: bool)
    | HistoryMsg(entries: seq<Entry>, reset: bool)
    | StateChangedMsg(change: StateChanged, replacesDraft: bool)
    | AppendedMsg(entry: Entry)
    | QueueMsg(items: seq<Blob>)
    | SessionErrorMsg(error: Blob, historyPending: bool)
    // A failed subscription, or a history request that timed out: dispatched without a flush.
    | UnflushedErrorMsg(error: Blob, timedOut: bool)
    | ModelMsg(selectedModel: Option<string>)
    | StatusMsg(status: Status)
    | CompactMsg(compactStatus: CompactStatus)
    // The cached view of the session has been read; too late once a ready message was received.
    | HydratedMsg(view: Cached)
    | Frame

  predicate EndsResponse(entry: Entry) {
    entry.event.kind == "llm_response" || entry.event.kind == "llm_error"
  }

  /** A ready message was among them. */
  predicate Live(messages: seq<Message>) {
    exists i :: 0 <= i < |messages| && messages[i].ReadyMsg?
  }

  /** The projection events a message stands for: what dispatching it at once would do. */
  function Meaning(scope: Scope, live: bool, m: Message): seq<Event> {
    match m
    case ReadyMsg(ready, resets) =>
      [Ready(scope, ready)] +
      (if Or(ready.agentRuntime, "kernel") != "kernel" then [History(scope, [], true)]
       else if resets then [ResetTimeline(scope)] else [])
    case HistoryMsg(entries, reset) => [History(scope, entries, reset)]
    case StateChangedMsg(change, _) => [Authoritative(scope, change)]
    case AppendedMsg(entry) => [Appended(scope, entry)]
    case QueueMsg(items) => [Queue(scope, items)]
    case SessionErrorMsg(error, pending) =>
      (if pending then [History(scope, [], false)] else []) + [Error(scope, error)]
    case UnflushedErrorMsg(error, timedOut) =>
      (if timedOut then [History(scope, [], false)] else []) + [Error(scope, error)]
    case ModelMsg(model) => [SelectModel(scope, model)]
    case StatusMsg(status) => [StatusChange(scope, status)]
    case CompactMsg(status) => [Compact(scope, status)]
    case HydratedMsg(view) => if live then [] else [Hydrate(scope, view)]
    case Frame => []
  }

  /** What a message, dispatched at once, makes of the projection of its session. */
  ghost predicate Makes(env: Env, p: Projection, live: bool, m: Message, q: Projection) {
    match m
    case ReadyMsg(r, resets) =>
      && q.status.Live? && q.state == Some(r.state) && q.hydratedSessionId == Some(r.sessionId) && q.lastError.None?
      && (if resets || (r.agentRuntime.Some? && r.agentRuntime.value != "kernel") then q.timeline == []
          else q.timeline == p.timeline)
    case HistoryMsg(entries, reset) =>
      && SeqNos(q.timeline) == (if reset then {} else SeqNos(p.timeline)) + SeqNos(entries)
      && q.historyLoadedSessionId == p.sessionId && q.state == p.state
    case StateChangedMsg(change, _) =>
      && q.timeline == p.timeline
      && (if p.state.Some? && change.cursor < p.state.value.cursor then q == p else q.state == Some(change.state))
    case AppendedMsg(entry) => SeqNos(q.timeline) == SeqNos(p.timeline) + {entry.seqNo} && q.lastError.None?
    case QueueMsg(items) => q == p.(queuedMessages := items)
    case SessionErrorMsg(error, pending) => IsError(p, error, pending, q)
    case UnflushedErrorMsg(error, timedOut) => IsError(p, error, timedOut, q)
    case ModelMsg(model) => q == p.(selectedModel := model)
    case StatusMsg(status) => q == p.(status := status)
    case CompactMsg(status) => if status.subagent then q == p else q == p.(compactStatus := Some(status))
    case HydratedMsg(view) =>
      if live then q == p
      else ProjectionRuns.FromView(env, q, view) && q.status.Connecting? && q.hydratedSessionId.None?
    case Frame => q == p
  }

  /** The error is shown, and a history that was waited for counts as loaded. */
  predicate IsError(p: Projection, error: Blob, loaded: bool, q: Projection) {
    && q.lastError == Some(error) && q.timeline == p.timeline && q.state == p.state && q.status == p.status
    && q.historyLoadedSessionId == if loaded then p.sessionId else p.historyLoadedSessionId
  }

  lemma {:induction false} MeaningMakes(env: Env, p: Projection, scope: Scope, live: bool, m: Message)
    requires ProjectionRuns.Shows(p, scope) && StrictlyIncreasing(p.timeline)
    ensures Makes(env, p, live, m, ReduceAll(env, p, Meaning(scope, live, m)))
  {
    hide *;
    var events := Meaning(scope, live, m);
    MeaningShort(scope, live, m);
    PlayedIs(env, p, events);
    if m.ReadyMsg? {
      ReadyMakes(env, p, scope, live, m);
    } else if m.SessionErrorMsg? || m.UnflushedErrorMsg? {
      ErrorMakes(env, p, scope, live, m);
    } else {
      OneMakes(env, p, scope, live, m);
    }
  }

  /** At most two events, one after the other. */
  function Played(env: Env, p: Projection, events: seq<Event>): Projection
    requires |events| <= 2
  {
    if events == [] then p
    else if |events| == 1 then Reduce(env, p, events[0])
    else Reduce(env, Reduce(env, p, events[0]), events[1])
  }

  lemma {:induction false} MeaningShort(scope: Scope, live: bool, m: Message)
    ensures |Meaning(scope, live, m)| <= 2
  {
  }

  lemma {:induction false} PlayedIs(env: Env, p: Projection, events: seq<Event>)
    requires |events| <= 2
    ensures ReduceAll(env, p, events) == Played(env, p, events)
  {
    hide Reduce;
    assert ReduceAll(env, p, []) == p;
    if |events| == 1 { assert events[..0] == []; }
    if |events| == 2 { assert events[..1][..0] == [] && events[..1][0] == events[0]; }
  }

  lemma {:induction false} ReadyMakes(env: Env, p: Projection, scope: Scope, live: bool, m: Message)
    requires m.ReadyMsg? && ProjectionRuns.Shows(p, scope) && |Meaning(scope, live, m)| <= 2
    ensures Makes(env, p, live, m, Played(env, p, Meaning(scope, live, m)))
  {
    ProjectionRuns.ResetsTo(ResetTimeline(scope), scope);
    hide MergeBySeq, AuthoritativeTimeline;
  }

  lemma {:induction false} ErrorMakes(env: Env, p: Projection, scope: Scope, live: bool, m: Message)
    requires m.SessionErrorMsg? || m.UnflushedErrorMsg?
    requires ProjectionRuns.Shows(p, scope) && |Meaning(scope, live, m)| <= 2
    ensures Makes(env, p, live, m, Played(env, p, Meaning(scope, live, m)))
  {
    assert MergeBySeq(p.timeline, []) == p.timeline;
    hide MergeBySeq, AuthoritativeTimeline;
  }

  lemma {:induction false} OneMakes(env: Env, p: Projection, scope: Scope, live: bool, m: Message)
    requires !m.ReadyMsg? && !m.SessionErrorMsg? && !m.UnflushedErrorMsg?
    requires ProjectionRuns.Shows(p, scope) && StrictlyIncreasing(p.timeline) && |Meaning(scope, live, m)| <= 2
    ensures Makes(env, p, live, m, Played(env, p, Meaning(scope, live, m)))
  {
    hide MergeBySeq, AuthoritativeTimeline, StrictlyIncreasing, SeqNos, OnReady, Empty, Folds;
    match m
    case HistoryMsg(entries, _) =>
      MergeUnion(p.timeline, entries);
      ProjectionRuns.FirstOfEach(entries);
    case AppendedMsg(entry) =>
      MergeUnion(p.timeline, [entry]);
      OneSeqNo(entry);
    case _ =>
  }

  lemma {:induction false} OneSeqNo(entry: Entry)
    ensures SeqNos([entry]) == {entry.seqNo}
  {
    assert [entry][..0] == [];
  }

  /** The events that wait in the buffer. */
  predicate Bufferable(e: Event) {
    e.Appended? || e.Authoritative?
  }

  /** The events dispatched past a non-empty buffer. */
  predicate Bypasses(e: Event) {
    e.SelectModel? || e.StatusChange? || e.Compact? || (e.History? && e.entries == [] && !e.reset)
  }

  predicate AllBufferable(queue: seq<Event>) {
    forall i :: 0 <= i < |queue| ==> Bufferable(queue[i])
  }

  /** The only fields a bypassing event writes. */
  datatype Side = Side(model: Option<string>, status: Status, compact: Option<CompactStatus>, loaded: Option<string>)

  function SideOf(p: Projection): Side {
    Side(p.selectedModel, p.status, p.compactStatus, p.historyLoadedSessionId)
  }

  function WithSide(p: Projection, s: Side): Projection {
    p.(selectedModel := s.model, status := s.status, compactStatus := s.compact, historyLoadedSessionId := s.loaded)
  }

  function BypassSide(p: Projection, e: Event): Side
    requires Bypasses(e)
  {
    var s := SideOf(p);
    if !InScope(p, e) then s
    else match e
      case SelectModel(_, model) => s.(model := model)
      case StatusChange(_, status) => s.(status := status)
      case Compact(_, status) => if status.subagent then s else s.(compact := Some(status))
      case History(scope, _, _) => s.(loaded := Some(scope.sessionId))
  }

  lemma {:induction false} BypassWrites(env: Env, p: Projection, e: Event)
    requires Bypasses(e)
    ensures Reduce(env, p, e) == WithSide(p, BypassSide(p, e))
  {
    assert MergeBySeq(p.timeline, []) == p.timeline;
    hide MergeBySeq, AuthoritativeTimeline, Empty, FromCache, OnReady, OnAppended, OnAuthoritative;
  }

  /** A buffered event neither reads nor writes those fields. */
  lemma {:induction false} BufferedKeepsSide(env: Env, p: Projection, b: Event, s: Side)
    requires Bufferable(b)
    ensures Reduce(env, WithSide(p, s), b) == WithSide(Reduce(env, p, b), s)
    ensures SideOf(Reduce(env, p, b)) == SideOf(p)
    ensures Reduce(env, p, b).generation == p.generation && Reduce(env, p, b).sessionId == p.sessionId
  {
    hide MergeBySeq, AuthoritativeTimeline, Empty, FromCache, OnReady;
  }

  lemma {:induction false} BypassCommutes(env: Env, p: Projection, b: Event, e: Event)
    requires Bufferable(b) && Bypasses(e)
    ensures Reduce(env, Reduce(env, p, b), e) == Reduce(env, Reduce(env, p, e), b)
  {
    hide Reduce;
    BypassWrites(env, p, e);
    BypassWrites(env, Reduce(env, p, b), e);
    BufferedKeepsSide(env, p, b, BypassSide(p, e));
  }

  /** A bypassing event may be dispatched before the whole buffer without changing the outcome. */
  lemma {:induction false} BypassQueue(env: Env, p: Projection, queue: seq<Event>, e: Event)
    requires AllBufferable(queue) && Bypasses(e)
    ensures ReduceAll(env, Reduce(env, p, e), queue) == Reduce(env, ReduceAll(env, p, queue), e)
  {
    if queue != [] {
      var n := |queue| - 1;
      BypassQueue(env, p, queue[..n], e);
      BypassCommutes(env, ReduceAll(env, p, queue[..n]), queue[n], e);
    }
  }

  lemma {:induction false} ReduceAllSnoc(env: Env, p: Projection, events: seq<Event>, e: Event)
    ensures ReduceAll(env, p, events + [e]) == Reduce(env, ReduceAll(env, p, events), e)
  {
    assert (events + [e])[..|events|] == events;
  }

  // ---------------------------------------------------------------------------------
  // Why an error may not bypass the buffer.

  predicate HasLiveAppend(p: Projection, queue: seq<Event>) {
    exists i :: 0 <= i < |queue| && queue[i].Appended? && InScope(p, queue[i])
  }

  lemma {:induction false} LiveAppendStep(p: Projection, queue: seq<Event>, last: Event)
    ensures HasLiveAppend(p, queue + [last]) <==> HasLiveAppend(p, queue) || (last.Appended? && InScope(p, last))
  {
    var all := queue + [last];
    if i :| 0 <= i < |all| && all[i].Appended? && InScope(p, all[i]) {
      assert i < |queue| ==> queue[i] == all[i];
    }
    if i :| 0 <= i < |queue| && queue[i].Appended? && InScope(p, queue[i]) {
      assert all[i] == queue[i];
    }
    assert all[|queue|] == last;
  }

  /** Only a live append touches the last error; nothing buffered reads it. */
  lemma {:induction false} BufferedError(env: Env, p: Projection, b: Event, error: Option<Blob>)
    requires Bufferable(b)
    ensures Reduce(env, p.(lastError := error), b)
         == Reduce(env, p, b).(lastError := if b.Appended? && InScope(p, b) then None else error)
    ensures Reduce(env, p, b).generation == p.generation && Reduce(env, p, b).sessionId == p.sessionId
  {
    hide MergeBySeq, AuthoritativeTimeline, Empty, FromCache, OnReady;
  }

  lemma {:induction false} ErrorThenQueue(env: Env, p: Projection, queue: seq<Event>, e: Event)
    requires AllBufferable(queue) && e.Error? && InScope(p, e)
    ensures ReduceAll(env, p, queue).generation == p.generation && ReduceAll(env, p, queue).sessionId == p.sessionId
    ensures ReduceAll(env, Reduce(env, p, e), queue)
         == ReduceAll(env, p, queue).(lastError := if HasLiveAppend(p, queue) then None else Some(e.error))
  {
    assert Reduce(env, p, e) == p.(lastError := Some(e.error));
    hide Reduce;
    if queue != [] {
      var n := |queue| - 1;
      assert queue == queue[..n] + [queue[n]];
      LiveAppendStep(p, queue[..n], queue[n]);
      ErrorThenQueue(env, p, queue[..n], e);
      hide HasLiveAppend;
      BufferedError(env, ReduceAll(env, p, queue[..n]), queue[n],
                    if HasLiveAppend(p, queue[..n]) then None else Some(e.error));
    }
  }

  /**
   * The history-timeout and subscription-failure handlers dispatch an error without flushing.  That
   * agrees with direct dispatch exactly when no live append waits in the buffer: a buffered append
   * would clear the newer error.
   */
  lemma {:induction false} ErrorBypassIff(env: Env, p: Projection, queue: seq<Event>, e: Event)
    requires AllBufferable(queue) && e.Error? && InScope(p, e)
    ensures ReduceAll(env, Reduce(env, p, e), queue) == Reduce(env, ReduceAll(env, p, queue), e)
            <==> !HasLiveAppend(p, queue)
  {
    ErrorThenQueue(env, p, queue, e);
  }

  // ---------------------------------------------------------------------------------
  // The order in which a run of messages is to be taken.

  /** All events received, those of them that were dispatched, and those that wait in the buffer. */
  datatype Wire = Wire(all: seq<Event>, passed: seq<Event>, waiting: seq<Event>)

  predicate Buffers(m: Message) {
    (m.StateChangedMsg? && !m.replacesDraft) || (m.AppendedMsg? && !EndsResponse(m.entry))
  }

  predicate Flushes(m: Message) {
    || m.ReadyMsg? || m.HistoryMsg? || m.QueueMsg? || m.SessionErrorMsg? || m.Frame?
    || (m.StateChangedMsg? && m.replacesDraft) || (m.AppendedMsg? && EndsResponse(m.entry))
  }

  /** Every event counts when it is received, but a hydrated view counts before the events that still wait. */
  function Received(scope: Scope, live: bool, w: Wire, m: Message): Wire {
    var events := Meaning(scope, live, m);
    if m.HydratedMsg? then
      if live then w else Wire(w.passed + events + w.waiting, w.passed + events, w.waiting)
    else if Buffers(m) then w.(all := w.all + events, waiting := w.waiting + events)
    else if Flushes(m) then Wire(w.all + events, w.all + events, [])
    else w.(all := w.all + events, passed := w.passed + events)
  }

  function ReceivedAll(scope: Scope, messages: seq<Message>): Wire {
    if messages == [] then Wire([], [], [])
    else
      var n := |messages| - 1;
      Received(scope, Live(messages[..n]), ReceivedAll(scope, messages[..n]), messages[n])
  }

  function MeaningAll(scope: Scope, messages: seq<Message>): seq<Event> {
    if messages == [] then []
    else
      var n := |messages| - 1;
      MeaningAll(scope, messages[..n]) + Meaning(scope, Live(messages[..n]), messages[n])
  }

  /** A view that is taken over finds the buffer empty. */
  predicate HydratesClear(scope: Scope, messages: seq<Message>) {
    forall i :: 0 <= i < |messages| && messages[i].HydratedMsg? && !Live(messages[..i]) ==>
      ReceivedAll(scope, messages[..i]).waiting == []
  }

  /** Unless a hydrated view meets events that wait, that order is the order of the wire. */
  lemma {:induction false} InWireOrder(scope: Scope, messages: seq<Message>)
    requires HydratesClear(scope, messages)
    ensures ReceivedAll(scope, messages).all == MeaningAll(scope, messages)
    ensures ReceivedAll(scope, messages).waiting == [] ==>
              ReceivedAll(scope, messages).passed == ReceivedAll(scope, messages).all
  {
    if messages == [] { return; }
    hide Live, Received, Meaning, Buffers, Flushes;
    var n := |messages| - 1;
    forall i | 0 <= i < n && messages[..n][i].HydratedMsg? && !Live(messages[..n][..i])
      ensures ReceivedAll(scope, messages[..n][..i]).waiting == []
    {
      assert messages[..n][..i] == messages[..i];
    }
    InWireOrder(scope, messages[..n]);
    OrderStep(scope, Live(messages[..n]), ReceivedAll(scope, messages[..n]), messages[n]);
  }

  lemma {:induction false} OrderStep(scope: Scope, live: bool, w: Wire, m: Message)
    requires m.HydratedMsg? && !live ==> w.waiting == []
    requires w.waiting == [] ==> w.passed == w.all
    ensures Received(scope, live, w, m).all == w.all + Meaning(scope, live, m)
    ensures Received(scope, live, w, m).waiting == [] ==>
              Received(scope, live, w, m).passed == Received(scope, live, w, m).all
  {
    assert Buffers(m) ==> Meaning(scope, live, m) != [];
    hide Meaning, Buffers, Flushes;
  }

  /** In the order of the wire a hydrated view would undo every event that waits. */
  lemma {:induction false} HydrateDiscards(env: Env, p: Projection, queue: seq<Event>, e: Event)
    requires AllBufferable(queue) && e.Hydrate? && InScope(p, e)
    ensures Reduce(env, ReduceAll(env, p, queue), e) == Reduce(env, p, e)
    ensures InScope(ReduceAll(env, p, queue), e)
  {
    hide Reduce;
    if queue != [] {
      var n := |queue| - 1;
      HydrateDiscards(env, p, queue[..n], e);
      HydrateDiscardsOne(env, ReduceAll(env, p, queue[..n]), queue[n], e);
    }
  }

  lemma {:induction false} HydrateDiscardsOne(env: Env, p: Projection, b: Event, e: Event)
    requires Bufferable(b) && e.Hydrate? && InScope(p, e)
    ensures Reduce(env, Reduce(env, p, b), e) == Reduce(env, p, e) && InScope(Reduce(env, p, b), e)
  {
    hide MergeBySeq, AuthoritativeTimeline, Empty, OnReady;
  }

  lemma {:induction false} LiveSnoc(messages: seq<Message>, m: Message)
    ensures Live(messages + [m]) <==> Live(messages) || m.ReadyMsg?
  {
    var all := messages + [m];
    if i :| 0 <= i < |all| && all[i].ReadyMsg? {
      assert i < |messages| ==> messages[i] == all[i];
    }
    if i :| 0 <= i < |messages| && messages[i].ReadyMsg? {
      assert all[i] == messages[i];
    }
    assert all[|messages|] == m;
  }

  // ---------------------------------------------------------------------------------
  // The queue.

  /** Events that decide the last error whatever it was. */
  predicate SetsError(e: Event) {
    e.Ready? || e.Appended? || e.Error?
  }

  /** No event but a select reads the last error or leaves the scope. */
  lemma {:induction false} ErrorUnread(env: Env, p: Projection, e: Event, error: Option<Blob>)
    requires !e.Select? && !e.Hydrate?
    ensures Reduce(env, p.(lastError := error), e)
         == if SetsError(e) && InScope(p, e) then Reduce(env, p, e) else Reduce(env, p, e).(lastError := error)
    ensures !SetsError(e) || !InScope(p, e) ==> Reduce(env, p, e).lastError == p.lastError
    ensures Reduce(env, p, e).generation == p.generation && Reduce(env, p, e).sessionId == p.sessionId
  {
    hide MergeBySeq, AuthoritativeTimeline, Empty, FromCache;
  }

  lemma {:induction false} QueueScope(env: Env, p: Projection, queue: seq<Event>)
    requires AllBufferable(queue)
    ensures ReduceAll(env, p, queue).generation == p.generation && ReduceAll(env, p, queue).sessionId == p.sessionId
  {
    hide Reduce;
    if queue != [] {
      var n := |queue| - 1;
      QueueScope(env, p, queue[..n]);
      ErrorUnread(env, ReduceAll(env, p, queue[..n]), queue[n], None);
    }
  }

  /** The projection, without its last error if that was lost. */
  function Without(p: Projection, lost: bool): Projection {
    if lost then p.(lastError := None) else p
  }

  lemma {:induction false} WithoutStep(env: Env, p: Projection, direct: Projection, lost: bool, e: Event)
    requires !e.Select? && !e.Hydrate? && p == Without(direct, lost)
    ensures p.generation == direct.generation && p.sessionId == direct.sessionId
    ensures Reduce(env, p, e) == Without(Reduce(env, direct, e), lost && !(SetsError(e) && InScope(direct, e)))
    ensures !SetsError(e) || !InScope(direct, e) ==> Reduce(env, direct, e).lastError == direct.lastError
  {
    hide Reduce;
    ErrorUnread(env, direct, e, None);
  }

  lemma {:induction false} SameProjectionScope(p: Projection, lost: bool)
    ensures Without(p, lost).generation == p.generation && Without(p, lost).sessionId == p.sessionId
  {
  }

  predicate SameButError(p: Projection, q: Projection) {
    p.(lastError := q.lastError) == q
  }

  lemma {:induction false} SameButErrorStep(env: Env, p: Projection, q: Projection, e: Event)
    requires SameButError(p, q) && !e.Select? && !e.Hydrate?
    ensures SameButError(Reduce(env, p, e), Reduce(env, q, e))
  {
    hide Reduce;
    ErrorUnread(env, p, e, q.lastError);
  }

  lemma {:induction false} NothingReduced(env: Env, p: Projection)
    ensures ReduceAll(env, p, []) == p
  {
  }

  lemma {:induction false} ReduceConcat(env: Env, p: Projection, a: seq<Event>, b: seq<Event>)
    ensures ReduceAll(env, p, a + b) == ReduceAll(env, ReduceAll(env, p, a), b)
  {
    hide Reduce;
    if b == [] {
      assert a + b == a;
    } else {
      var n := |b| - 1;
      assert a + b == a + b[..n] + [b[n]];
      ReduceAllSnoc(env, p, a + b[..n], b[n]);
      ReduceConcat(env, p, a, b[..n]);
    }
  }

  /** A hydrated view overwrites the last error, and nothing is reduced outside its session. */
  lemma {:induction false} HydrateOverwrites(env: Env, p: Projection, q: Projection, e: Event)
    requires e.Hydrate? && (if InScope(p, e) then SameButError(p, q) else p == q)
    ensures Reduce(env, p, e) == Reduce(env, q, e)
    ensures Reduce(env, p, e).generation == p.generation && Reduce(env, p, e).sessionId == p.sessionId
  {
  }

  lemma {:induction false} UnflushedStep(
    env: Env, p: Projection, queue: seq<Event>, direct: Projection, lost: bool, e: Event)
    requires AllBufferable(queue) && e.Error? && ReduceAll(env, p, queue) == Without(direct, lost)
    requires InScope(p, e) <==> InScope(direct, e)
    requires lost ==> InScope(p, e)
    ensures ReduceAll(env, Reduce(env, p, e), queue)
         == Without(Reduce(env, direct, e), InScope(p, e) && HasLiveAppend(p, queue))
    ensures InScope(p, e) ==> Reduce(env, direct, e).lastError == Some(e.error)
  {
    if InScope(p, e) {
      ErrorThenQueue(env, p, queue, e);
      assert Reduce(env, direct, e) == direct.(lastError := Some(e.error));
    } else {
      assert Reduce(env, p, e) == p && Reduce(env, direct, e) == direct;
    }
    hide Reduce, ReduceAll, HasLiveAppend;
  }

  class ProjectionQueue {
    const env: Env
    const scope: Scope
    var projection: Projection
    var queue: seq<Event>
    /** `liveBaselineReceived`. */
    var live: bool
    /** The projection when the subscription began, the events received since, and those no longer waiting. */
    ghost const start: Projection
    ghost var received: seq<Event>
    ghost var passed: seq<Event>
    /** The last error was dispatched ahead of a buffered append, which clears it. */
    ghost var lost: bool

    ghost function Direct(): Projection
      reads this
    {
      ReduceAll(env, start, received)
    }

    /**
     * What is shown plus what is buffered means what was received, dispatched at once and in order, but for a
     * lost error.
     */
    ghost predicate Valid()
      reads this
    {
      Holds(projection, queue, received, passed, lost)
    }

    ghost predicate Holds(p: Projection, waiting: seq<Event>, all: seq<Event>, passed: seq<Event>, lost: bool) {
      var direct := ReduceAll(env, start, all);
      && AllBufferable(waiting) && (forall i :: 0 <= i < |waiting| ==> waiting[i].scope == scope)
      && ReduceAll(env, p, waiting) == Without(direct, lost)
      && p.generation == start.generation && p.sessionId == start.sessionId
      && (lost ==> direct.lastError.Some? && Scoped())
      && (waiting == [] ==> passed == all)
      && Agrees(p, ReduceAll(env, start, passed))
    }

    /** What has been dispatched decides the projection, but for a lost error. */
    ghost predicate Agrees(p: Projection, q: Projection) {
      if Scoped() then SameButError(p, q) else p == q
    }

    ghost function Wired(): Wire
      reads this
    {
      Wire(received, passed, queue)
    }

    /** The events of this subscription are for the projection's session. */
    ghost predicate Scoped() {
      scope.generation == start.generation && start.sessionId == Some(scope.sessionId)
    }

    /** A live append waits in the buffer. */
    ghost predicate Pending()
      reads this
    {
      HasLiveAppend(projection, queue)
    }

    constructor (env: Env, scope: Scope, start: Projection)
      ensures Valid() && projection == start && Wired() == Wire([], [], []) && !lost && !live
      ensures this.scope == scope && this.env == env && this.start == start
    {
      this.env, this.scope, this.start := env, scope, start;
      projection, queue, live, received, passed, lost := start, [], false, [], [], false;
    }

    /** `flushProjectionQueue`: afterwards the shown projection is the direct one, but for a lost error. */
    method Flush()
      requires Valid()
      modifies this`projection, this`queue, this`passed
      ensures Valid() && Wired() == Wire(received, received, [])
      ensures projection == Without(Direct(), lost)
    {
      QueueScope(env, projection, queue);
      hide Reduce;
      if queue == [] { return; }
      var batch := queue;
      queue, passed := [], received;
      projection := ReduceBatch(env, projection, batch);
    }

    method Enqueue(e: Event)
      requires Valid() && Bufferable(e) && e.scope == scope
      modifies this`queue, this`received, this`lost
      ensures Valid() && Wired() == Wire(old(received) + [e], passed, old(queue) + [e])
      ensures lost == (old(lost) && !(e.Appended? && Scoped()))
      ensures Pending() <==> old(Pending()) || (e.Appended? && Scoped())
    {
      hide Reduce, ReduceAll, HasLiveAppend, Without;
      QueueScope(env, projection, queue);
      ReduceAllSnoc(env, projection, queue, e);
      ReduceAllSnoc(env, start, received, e);
      WithoutStep(env, ReduceAll(env, projection, queue), Direct(), lost, e);
      LiveAppendStep(projection, queue, e);
      queue := queue + [e];
      received := received + [e];
      lost := lost && !(e.Appended? && Scoped());
    }

    /** `dispatchProjectionEvent`: sound on an empty buffer, or for an event that bypasses it. */
    method Dispatch(e: Event)
      requires Valid() && !e.Select? && !e.Hydrate? && e.scope == scope && (queue == [] || Bypasses(e))
      modifies this`projection, this`received, this`passed, this`lost
      ensures Valid() && Wired() == Wire(old(received) + [e], old(passed) + [e], queue)
      ensures lost == (old(lost) && !(SetsError(e) && Scoped())) && (Pending() <==> old(Pending()))
    {
      DispatchKeeps(e);
      hide Holds, Reduce, HasLiveAppend, SetsError, Bypasses, Scoped;
      projection := Reduce(env, projection, e);
      received, passed := received + [e], passed + [e];
      lost := lost && !(SetsError(e) && Scoped());
    }

    /** An error dispatched without a flush is lost exactly if a live append waits in the buffer. */
    method DispatchError(e: Event)
      requires Valid() && e.Error? && e.scope == scope
      modifies this`projection, this`received, this`passed, this`lost
      ensures Valid() && Wired() == Wire(old(received) + [e], old(passed) + [e], queue)
      ensures lost == (Scoped() && old(Pending())) && (Pending() <==> old(Pending()))
    {
      ErrorKeeps(e);
      hide Holds, Reduce, HasLiveAppend, Scoped;
      projection := Reduce(env, projection, e);
      received, passed := received + [e], passed + [e];
      lost := Scoped() && HasLiveAppend(projection, queue);
    }

    lemma {:induction false} DispatchKeeps(e: Event)
      requires Valid() && !e.Select? && !e.Hydrate? && e.scope == scope && (queue == [] || Bypasses(e))
      ensures
        var p := Reduce(env, projection, e);
        && Holds(p, queue, received + [e], passed + [e], lost && !(SetsError(e) && Scoped()))
        && (HasLiveAppend(p, queue) <==> HasLiveAppend(projection, queue))
    {
      hide *;
      DispatchMeans(e);
      ReduceAllSnoc(env, start, received, e);
      ReduceAllSnoc(env, start, passed, e);
      Assembled(Reduce(env, projection, e), e, lost && !(SetsError(e) && Scoped()));
    }

    lemma {:induction false} ErrorKeeps(e: Event)
      requires Valid() && e.Error? && e.scope == scope
      ensures
        var p := Reduce(env, projection, e);
        && Holds(p, queue, received + [e], passed + [e], Scoped() && HasLiveAppend(p, queue))
        && (HasLiveAppend(p, queue) <==> Pending())
    {
      hide *;
      ErrorMeans(e);
      ReduceAllSnoc(env, start, received, e);
      ReduceAllSnoc(env, start, passed, e);
      Assembled(Reduce(env, projection, e), e, Scoped() && HasLiveAppend(Reduce(env, projection, e), queue));
    }

    lemma {:induction false} Assembled(p: Projection, e: Event, lost: bool)
      requires Valid() && p.generation == start.generation && p.sessionId == start.sessionId
      requires ReduceAll(env, p, queue) == Without(ReduceAll(env, start, received + [e]), lost)
      requires lost ==> ReduceAll(env, start, received + [e]).lastError.Some? && Scoped()
      requires Agrees(p, ReduceAll(env, start, passed + [e]))
      ensures Holds(p, queue, received + [e], passed + [e], lost)
    {
      hide ReduceAll, Agrees, Without, Scoped, AllBufferable;
    }

    lemma {:induction false} DispatchMeans(e: Event)
      requires Valid() && !e.Select? && !e.Hydrate? && e.scope == scope && (queue == [] || Bypasses(e))
      ensures
        var p, direct := Reduce(env, projection, e), Reduce(env, ReduceAll(env, start, received), e);
        var dropped := SetsError(e) && Scoped();
        && ReduceAll(env, p, queue) == Without(direct, lost && !dropped)
        && p.generation == start.generation && p.sessionId == start.sessionId
        && (lost && !dropped ==> direct.lastError.Some? && Scoped())
        && Agrees(p, Reduce(env, ReduceAll(env, start, passed), e))
        && (HasLiveAppend(p, queue) <==> HasLiveAppend(projection, queue))
    {
      QueueScope(env, projection, queue);
      AgreesStep(e);
      hide HasLiveAppend, Agrees, AllBufferable;
      ErrorUnread(env, projection, e, None);
      SameScope(projection, Reduce(env, projection, e), queue);
      if Bypasses(e) { BypassQueue(env, projection, queue, e); }
      hide Reduce, Bypasses;
      if queue == [] { NothingReduced(env, projection); NothingReduced(env, Reduce(env, projection, e)); }
      hide ReduceAll;
      WithoutStep(env, ReduceAll(env, projection, queue), Direct(), lost, e);
    }

    lemma {:induction false} ErrorMeans(e: Event)
      requires Valid() && e.Error? && e.scope == scope
      ensures
        var p, direct := Reduce(env, projection, e), Reduce(env, ReduceAll(env, start, received), e);
        var dropped := Scoped() && HasLiveAppend(p, queue);
        && ReduceAll(env, p, queue) == Without(direct, dropped)
        && p.generation == start.generation && p.sessionId == start.sessionId
        && (dropped ==> direct.lastError.Some?)
        && Agrees(p, Reduce(env, ReduceAll(env, start, passed), e))
        && (HasLiveAppend(p, queue) <==> Pending())
    {
      QueueScope(env, projection, queue);
      AgreesStep(e);
      hide HasLiveAppend, Agrees, AllBufferable;
      ErrorUnread(env, projection, e, None);
      SameScope(projection, Reduce(env, projection, e), queue);
      hide Reduce, ReduceAll, Without;
      SameProjectionScope(Direct(), lost);
      UnflushedStep(env, projection, queue, Direct(), lost, e);
    }

    lemma {:induction false} AgreesStep(e: Event)
      requires Valid() && !e.Select? && !e.Hydrate?
      ensures Agrees(Reduce(env, projection, e), Reduce(env, ReduceAll(env, start, passed), e))
    {
      hide Reduce, ReduceAll;
      if Scoped() { SameButErrorStep(env, projection, ReduceAll(env, start, passed), e); }
    }

    lemma {:induction false} HydratedKeeps(e: Event)
      requires Valid() && e.Hydrate? && e.scope == scope
      ensures
        var p := Reduce(env, projection, e);
        && Holds(p, queue, passed + [e] + queue, passed + [e], false)
        && (HasLiveAppend(p, queue) <==> HasLiveAppend(projection, queue))
    {
      hide Reduce, ReduceAll, HasLiveAppend, AllBufferable;
      HydrateOverwrites(env, projection, ReduceAll(env, start, passed), e);
      ReduceAllSnoc(env, start, passed, e);
      ReduceConcat(env, start, passed + [e], queue);
      SameScope(projection, Reduce(env, projection, e), queue);
      assert queue == [] ==> passed + [e] + queue == passed + [e];
    }

    /** A hydrated view overwrites what was dispatched and counts before the events that wait. */
    method DispatchHydrated(view: Cached)
      requires Valid()
      modifies this`projection, this`received, this`passed, this`lost
      ensures Valid() && !lost && (Pending() <==> old(Pending()))
      ensures
        var before := old(passed) + [Hydrate(scope, view)];
        Wired() == Wire(before + queue, before, queue)
    {
      var e := Hydrate(scope, view);
      HydratedKeeps(e);
      hide Holds, Reduce, HasLiveAppend;
      projection := Reduce(env, projection, e);
      received, passed, lost := passed + [e] + queue, passed + [e], false;
    }

    /** `liveBaselineReceived = true`. */
    method MarkLive()
      requires Valid()
      modifies this`live
      ensures Valid() && live
    {
      live := true;
      hide Holds;
    }

    method FlushThenDispatch(e: Event)
      requires Valid() && !e.Select? && !e.Hydrate? && e.scope == scope
      modifies this`projection, this`queue, this`received, this`passed, this`lost
      ensures Valid() && Wired() == Wire(old(received) + [e], old(received) + [e], [])
      ensures lost == (old(lost) && !(SetsError(e) && Scoped())) && !Pending()
    {
      Flush();
      Dispatch(e);
      hide Reduce, ReduceAll;
    }

    /** The handler of lines 533-588. */
    method TakeReady(ready: ReadyPayload, resets: bool)
      requires Valid()
      modifies this`projection, this`queue, this`live, this`received, this`passed, this`lost
      ensures Valid() && live && Wired() == Received(scope, old(live), old(Wired()), ReadyMsg(ready, resets))
      ensures !Pending() && (Scoped() ==> !lost)
    {
      hide Reduce, ReduceAll, HasLiveAppend, Valid, Direct, Scoped;
      MarkLive();
      FlushThenDispatch(Ready(scope, ready));
      if Or(ready.agentRuntime, "kernel") != "kernel" {
        Dispatch(History(scope, [], true));
      } else if resets {
        Dispatch(ResetTimeline(scope));
      }
    }

    /** The handler of lines 599-626. */
    method TakeState(change: StateChanged, replacesDraft: bool)
      requires Valid()
      modifies this`projection, this`queue, this`received, this`passed, this`lost
      ensures Valid() && Wired() == Received(scope, live, old(Wired()), StateChangedMsg(change, replacesDraft))
      ensures Pending() <==> old(Pending()) && !replacesDraft
      ensures lost == old(lost)
    {
      hide Reduce, ReduceAll, HasLiveAppend, Valid, Direct, Scoped;
      if replacesDraft {
        FlushThenDispatch(Authoritative(scope, change));
      } else {
        Enqueue(Authoritative(scope, change));
      }
    }

    /** The handler of lines 627-649. */
    method TakeAppended(entry: Entry)
      requires Valid()
      modifies this`projection, this`queue, this`received, this`passed, this`lost
      ensures Valid() && Wired() == Received(scope, live, old(Wired()), AppendedMsg(entry))
      ensures Scoped() ==> (Pending() <==> !EndsResponse(entry)) && !lost
    {
      hide Reduce, ReduceAll, HasLiveAppend, Valid, Direct, Scoped;
      if EndsResponse(entry) {
        FlushThenDispatch(Appended(scope, entry));
      } else {
        Enqueue(Appended(scope, entry));
      }
    }

    /** The handler of lines 667-678. */
    method TakeError(error: Blob, pending: bool)
      requires Valid()
      modifies this`projection, this`queue, this`received, this`passed, this`lost
      ensures Valid() && Wired() == Received(scope, live, old(Wired()), SessionErrorMsg(error, pending))
      ensures !Pending() && (Scoped() ==> !lost)
    {
      hide Reduce, ReduceAll, HasLiveAppend, Valid, Direct, Scoped;
      if pending { Dispatch(History(scope, [], false)); }
      FlushThenDispatch(Error(scope, error));
    }

    /** The history timeout and the failed subscription, lines 453-461 and 499-505. */
    method TakeUnflushed(error: Blob, timedOut: bool)
      requires Valid()
      modifies this`projection, this`received, this`passed, this`lost
      ensures Valid() && Wired() == Received(scope, live, old(Wired()), UnflushedErrorMsg(error, timedOut))
      ensures (Pending() <==> old(Pending())) && (Scoped() ==> lost == Pending())
    {
      hide Reduce, ReduceAll, HasLiveAppend, Valid, Direct, Scoped;
      if timedOut { Dispatch(History(scope, [], false)); }
      DispatchError(Error(scope, error));
    }

    lemma {:induction false} LostInScope()
      requires Valid()
      ensures lost ==> Scoped()
      ensures Without(Direct(), lost) == Direct() <==> !lost
    {
      hide Scoped, Agrees, ReduceAll, AllBufferable;
    }

    /** The message handlers of lines 439-731. */
    method Handle(m: Message)
      requires Valid()
      modifies this`projection, this`queue, this`live, this`received, this`passed, this`lost
      ensures Valid() && Wired() == Received(scope, old(live), old(Wired()), m)
      ensures live == (old(live) || m.ReadyMsg?)
      ensures Scoped() ==> Track(Pending(), lost) == Tracked(Track(old(Pending()), old(lost)), old(live), m)
      ensures !Scoped() ==> !lost
    {
      hide Reduce, ReduceAll, HasLiveAppend, Valid, Direct, Scoped;
      match m {
        case ReadyMsg(ready, resets) => TakeReady(ready, resets);
        case HistoryMsg(entries, reset) => FlushThenDispatch(History(scope, entries, reset));
        case StateChangedMsg(change, replacesDraft) => TakeState(change, replacesDraft);
        case AppendedMsg(entry) => TakeAppended(entry);
        case QueueMsg(items) => FlushThenDispatch(Queue(scope, items));
        case SessionErrorMsg(error, pending) => TakeError(error, pending);
        case UnflushedErrorMsg(error, timedOut) => TakeUnflushed(error, timedOut);
        case ModelMsg(model) => Dispatch(SelectModel(scope, model));
        case StatusMsg(status) => Dispatch(StatusChange(scope, status));
        case CompactMsg(status) => Dispatch(Compact(scope, status));
        case HydratedMsg(view) => if !live { DispatchHydrated(view); }
        case Frame => Flush(); NothingPending(projection);
      }
      LostInScope();
    }
  }

  lemma {:induction false} NothingPending(p: Projection)
    ensures !HasLiveAppend(p, [])
  {
  }

  lemma {:induction false} SameScope(p: Projection, q: Projection, queue: seq<Event>)
    requires p.generation == q.generation && p.sessionId == q.sessionId
    ensures HasLiveAppend(p, queue) <==> HasLiveAppend(q, queue)
  {
    if i :| 0 <= i < |queue| && queue[i].Appended? && InScope(p, queue[i]) { assert InScope(q, queue[i]); }
    if i :| 0 <= i < |queue| && queue[i].Appended? && InScope(q, queue[i]) { assert InScope(p, queue[i]); }
  }

  /** Whether a live append is buffered, and whether the last error was lost, as the messages decide it. */
  datatype Track = Track(pending: bool, lost: bool)

  function Tracked(t: Track, live: bool, m: Message): Track {
    match m
    case ReadyMsg(_, _) => Track(false, false)
    case HistoryMsg(_, _) => t.(pending := false)
    case StateChangedMsg(_, replacesDraft) => if replacesDraft then t.(pending := false) else t
    case AppendedMsg(entry) => Track(!EndsResponse(entry), false)
    case QueueMsg(_) => t.(pending := false)
    case SessionErrorMsg(_, _) => Track(false, false)
    case UnflushedErrorMsg(_, _) => t.(lost := t.pending)
    case ModelMsg(_) => t
    case StatusMsg(_) => t
    case CompactMsg(_) => t
    case HydratedMsg(_) => if live then t else t.(lost := false)
    case Frame => t.(pending := false)
  }

  function TrackAll(messages: seq<Message>): Track {
    if messages == [] then Track(false, false)
    else
      var n := |messages| - 1;
      Tracked(TrackAll(messages[..n]), Live(messages[..n]), messages[n])
  }

  lemma {:induction false} NothingReceived(scope: Scope)
    ensures ReceivedAll(scope, []) == Wire([], [], []) && TrackAll([]) == Track(false, false) && !Live([])
  {
  }

  lemma {:induction false} FoldSnoc(scope: Scope, messages: seq<Message>, m: Message)
    ensures ReceivedAll(scope, messages + [m]) == Received(scope, Live(messages), ReceivedAll(scope, messages), m)
    ensures TrackAll(messages + [m]) == Tracked(TrackAll(messages), Live(messages), m)
  {
    hide Received, Tracked, Live;
    assert (messages + [m])[..|messages|] == messages;
  }

  /**
   * Coalescing preserves meaning: any run of messages and frames, followed by a flush, shows the projection
   * that dispatching every message immediately would show, a hydrated view ahead of the events that wait when it
   * comes, except that its last error is missing exactly if that was an error dispatched without a flush while a
   * live append waited in the buffer.
   */
  method RunCoalesced(env: Env, scope: Scope, start: Projection, messages: seq<Message>) returns (shown: Projection)
    ensures
      var direct := ReduceAll(env, start, ReceivedAll(scope, messages).all);
      var scoped := scope.generation == start.generation && start.sessionId == Some(scope.sessionId);
      && shown == Without(direct, scoped && TrackAll(messages).lost)
      && (shown == direct <==> !(scoped && TrackAll(messages).lost))
    ensures HydratesClear(scope, messages) ==> ReceivedAll(scope, messages).all == MeaningAll(scope, messages)
  {
    hide Reduce, ReduceAll, HasLiveAppend, HydratesClear, MeaningAll, ReceivedAll, TrackAll, Received, Tracked, Live;
    hide Without, ProjectionQueue.Holds;
    NothingPending(start);
    NothingReceived(scope);
    var q := new ProjectionQueue(env, scope, start);
    for i := 0 to |messages|
      invariant q.Valid() && fresh(q) && q.env == env && q.scope == scope && q.start == start
      invariant q.Wired() == ReceivedAll(scope, messages[..i]) && q.live == Live(messages[..i])
      invariant if q.Scoped() then Track(q.Pending(), q.lost) == TrackAll(messages[..i]) else !q.lost
    {
      assert messages[..i + 1] == messages[..i] + [messages[i]];
      LiveSnoc(messages[..i], messages[i]);
      FoldSnoc(scope, messages[..i], messages[i]);
      q.Handle(messages[i]);
    }
    assert messages[..|messages|] == messages;
    q.Flush();
    shown := q.projection;
    q.LostInScope();
    if HydratesClear(scope, messages) { InWireOrder(scope, messages); }
  }
}
