/**
 * `subscribeRunEvents` of packages/eval-dashboard/src/client.ts: durable run events over an event source
 * that is closed and reopened after every gap, bad event, handler failure or error.
 *
 * Sources are numbered as they are created. Messages may come from any source in any order, also from one
 * that was closed or replaced. The subscriber's callbacks may stop the subscription, throw, or both.
 */
module RunEvents {
  import opened Common

  /** What a callback of the subscriber does before it returns. */
  datatype Outcome = Outcome(stops: bool, throws: bool)

  datatype Message = NotAMessage | Malformed | Event(runId: string, sequence: int)

  /**
   * `handler` is the outcome of `onEvent`; `state` that of the state callback of a reconnect after a gap or
   * an error, and `again` that of the one in the catch clause.
   */
  datatype Input =
    | Opened(from: nat, state: Outcome)
    | Durable(from: nat, message: Message, handler: Outcome, state: Outcome, again: Outcome)
    | Failed(from: nat, state: Outcome)
    | RetryDue
    | StopCalled

  /** The event numbers start + 1, start + 2, ..., last. */
  function Numbers(start: int, last: int): (r: seq<int>)
    requires start <= last
    ensures |r| == last - start && forall i :: 0 <= i < |r| ==> r[i] == start + 1 + i
  {
    seq(last - start, i => start + 1 + i)
  }

  /**
   * The variables of the subscription and what the outside sees of it: the numbers handed to `onEvent`, the
   * `after` positions requested, the sources open, whether the retry timer is pending, and what each
   * announcement of a reconnect to the state callback came to.
   */
  datatype View = View(
    runId: string, stopped: bool, source: nat, retry: bool, afterSequence: int,
    delivered: seq<int>, requested: seq<int>, open: set<nat>, timer: bool, announced: seq<Outcome>)

  // ---------------------------------------------------------------------------------
  // The steps of a subscription.

  function Start(runId: string, start: int): View {
    View(runId, false, 0, false, start, [], [start], {0}, false, [])
  }

  function Stopped(v: View): View {
    v.(stopped := true, timer := v.timer && !v.retry, open := v.open - {v.source})
  }

  function Connected(v: View): View {
    if v.stopped then v
    else v.(source := |v.requested|, requested := v.requested + [v.afterSequence], open := v.open + {|v.requested|})
  }

  function Announced(v: View, state: Outcome): View {
    var w := v.(announced := v.announced + [state]);
    if state.stops then Stopped(w) else w
  }

  /** The state callback is asked, and throws. */
  predicate ReconnectThrows(v: View, state: Outcome) {
    !v.stopped && !v.retry && state.throws
  }

  function Reconnected(v: View, state: Outcome): View {
    if v.stopped || v.retry then v
    else if state.throws then Announced(v, state)
    else Announced(v, state).(retry := true, timer := true)
  }

  function Closed(v: View, from: nat): View {
    v.(open := v.open - {from})
  }

  /** The catch clause. */
  function Caught(v: View, from: nat, again: Outcome): View {
    Reconnected(Closed(v, from), again)
  }

  function Delivered(v: View, handler: Outcome): View {
    var w := v.(afterSequence := v.afterSequence + 1, delivered := v.delivered + [v.afterSequence + 1]);
    if handler.stops then Stopped(w) else w
  }

  function OnGap(v: View, from: nat, state: Outcome, again: Outcome): View {
    var w := Closed(v, from);
    if ReconnectThrows(w, state) then Caught(Reconnected(w, state), from, again) else Reconnected(w, state)
  }

  function OnNext(v: View, from: nat, handler: Outcome, again: Outcome): View {
    if handler.throws then Caught(Delivered(v, handler), from, again) else Delivered(v, handler)
  }

  function Step(v: View, input: Input): View {
    match input
    case Opened(from, state) => if v.source == from && !v.stopped && state.stops then Stopped(v) else v
    case Failed(from, state) => if v.source != from || v.stopped then v else Reconnected(Closed(v, from), state)
    case RetryDue => if v.timer then Connected(v.(retry := false, timer := false)) else v
    case StopCalled => Stopped(v)
    case Durable(from, message, handler, state, again) =>
      if v.source != from || v.stopped then v
      else match message
        case NotAMessage => v
        case Malformed => Caught(v, from, again)
        case Event(runId, sequence) =>
          if runId != v.runId || sequence <= v.afterSequence then v
          else if sequence != v.afterSequence + 1 then OnGap(v, from, state, again)
          else OnNext(v, from, handler, again)
  }

  // ---------------------------------------------------------------------------------
  // What every reachable subscription satisfies.

  /** No source is open and none will be asked for. */
  predicate Stranded(v: View) {
    !v.stopped && v.open == {} && !v.timer
  }

  /** The last announcement of a reconnect threw. */
  predicate LastThrew(v: View) {
    v.announced != [] && v.announced[|v.announced| - 1].throws
  }

  ghost predicate Contiguous(v: View, start: int) {
    && start <= v.afterSequence && v.delivered == Numbers(start, v.afterSequence)
    && (forall i :: 0 <= i < |v.requested| ==> start <= v.requested[i] <= v.afterSequence)
    && (forall i, j :: 0 <= i < j < |v.requested| ==> v.requested[i] <= v.requested[j])
  }

  /** At most the current source is open, none while a retry is due or after a stop. */
  predicate OneSource(v: View) {
    && v.source + 1 == |v.requested|
    && (v.open == {} || v.open == {v.source})
    && (v.retry || v.stopped ==> v.open == {})
    && (v.timer ==> v.retry) && (v.retry && !v.stopped ==> v.timer)
    && (!v.stopped ==> (Stranded(v) <==> LastThrew(v)))
  }

  lemma {:induction false} StoppedSound(v: View)
    requires OneSource(v)
    ensures OneSource(Stopped(v)) && Stopped(v).open == {} && !Stopped(v).timer
  {
  }

  /** After a reconnect nothing is open, and the subscription is stranded exactly if the callback threw. */
  lemma {:induction false} ReconnectedSound(v: View, from: nat, state: Outcome)
    requires OneSource(v) && v.source == from
    ensures OneSource(Reconnected(Closed(v, from), state)) && Reconnected(Closed(v, from), state).open == {}
    ensures !v.stopped ==>
      (Stranded(Reconnected(Closed(v, from), state)) <==> !v.retry && state.throws && !state.stops)
    ensures Reconnected(Closed(v, from), state).source == from
  {
  }

  lemma {:induction false} DeliveredSound(v: View, handler: Outcome)
    requires OneSource(v)
    ensures OneSource(Delivered(v, handler)) && Delivered(v, handler).source == v.source
    ensures Delivered(v, handler).stopped == (v.stopped || handler.stops)
  {
  }

  lemma {:induction false} StepOneSource(v: View, input: Input)
    requires OneSource(v)
    ensures OneSource(Step(v, input))
  {
    hide Reconnected, Closed, Delivered, Stopped, ReconnectThrows;
    match input
    case Opened(from, state) => StoppedSound(v);
    case StopCalled => StoppedSound(v);
    case RetryDue => if v.timer { ConnectedSound(v); }
    case Failed(from, state) => if v.source == from { ReconnectedSound(v, from, state); }
    case Durable(from, message, handler, state, again) =>
      if v.source == from && !v.stopped {
        ReconnectedSound(v, from, state);
        ReconnectedSound(v, from, again);
        ReconnectedSound(Reconnected(Closed(v, from), state), from, again);
        DeliveredSound(v, handler);
        ReconnectedSound(Delivered(v, handler), from, again);
      }
  }

  lemma {:induction false} ConnectedSound(v: View)
    requires OneSource(v) && v.timer
    ensures OneSource(Connected(v.(retry := false, timer := false)))
  {
  }

  /** Is this the event that the subscription hands on? */
  predicate Next(v: View, input: Input) {
    && input.Durable? && input.from == v.source && !v.stopped
    && input.message == Event(v.runId, v.afterSequence + 1)
  }

  /** A reconnect changes nothing of what is delivered and requested. */
  lemma {:induction false} ReconnectedKeeps(v: View, from: nat, state: Outcome)
    ensures
      var w := Reconnected(Closed(v, from), state);
      && w.delivered == v.delivered && w.afterSequence == v.afterSequence && w.runId == v.runId
      && w.requested == v.requested && w.source == v.source
  {
  }

  /** A step hands on exactly the next event on the current source, once, whatever its handler does. */
  lemma {:induction false} StepDelivers(v: View, input: Input)
    ensures Step(v, input).delivered == if Next(v, input) then v.delivered + [v.afterSequence + 1] else v.delivered
    ensures Step(v, input).afterSequence == if Next(v, input) then v.afterSequence + 1 else v.afterSequence
    ensures Step(v, input).runId == v.runId
    ensures Step(v, input).requested ==
              if input.RetryDue? && v.timer && !v.stopped then v.requested + [v.afterSequence] else v.requested
  {
    hide Reconnected, Closed, ReconnectThrows;
    match input
    case Failed(from, state) => ReconnectedKeeps(v, from, state);
    case Durable(from, message, handler, state, again) =>
      ReconnectedKeeps(v, from, state);
      ReconnectedKeeps(v, from, again);
      ReconnectedKeeps(Reconnected(Closed(v, from), state), from, again);
      ReconnectedKeeps(Delivered(v, handler), from, again);
    case _ =>
  }

  /** One of the later announcements made the subscriber stop. */
  predicate SaidStop(a: seq<Outcome>, b: seq<Outcome>) {
    exists i :: |a| <= i < |b| && b[i].stops
  }

  lemma {:induction false} SaidStopSnoc(a: seq<Outcome>, b: seq<Outcome>, state: Outcome)
    requires a <= b
    ensures SaidStop(a, b + [state]) <==> SaidStop(a, b) || state.stops
  {
    assert (b + [state])[|b|] == state;
    assert forall i :: |a| <= i < |b| ==> (b + [state])[i] == b[i];
  }

  lemma {:induction false} ReconnectedStops(v: View, from: nat, state: Outcome, before: seq<Outcome>)
    requires before <= v.announced
    ensures
      var w := Reconnected(Closed(v, from), state);
      && v.announced <= w.announced && before <= w.announced
      && (v.stopped ==> w.announced == v.announced)
      && (w.stopped <==> v.stopped || SaidStop(v.announced, w.announced))
      && (SaidStop(before, w.announced) <==> SaidStop(before, v.announced) || SaidStop(v.announced, w.announced))
  {
    SaidStopSnoc(before, v.announced, state);
    SaidStopSnoc(v.announced, v.announced, state);
  }

  /** What makes a step stop the subscription: the call, or a callback that the step makes. */
  predicate StopsBy(v: View, input: Input) {
    || input.StopCalled?
    || (input.Opened? && input.from == v.source && input.state.stops)
    || (Next(v, input) && input.handler.stops)
    || SaidStop(v.announced, Step(v, input).announced)
  }

  /** Stopping is for good, and comes only from these. */
  lemma {:induction false} StepStops(v: View, input: Input)
    ensures v.announced <= Step(v, input).announced
    ensures Step(v, input).stopped <==> v.stopped || StopsBy(v, input)
    ensures v.stopped ==> Step(v, input).announced == v.announced
  {
    hide Reconnected, Closed, ReconnectThrows, SaidStop;
    assert !SaidStop(v.announced, v.announced) by { NothingSaid(v.announced); }
    match input
    case Failed(from, state) => ReconnectedStops(v, from, state, v.announced);
    case Durable(from, message, handler, state, again) =>
      ReconnectedStops(v, from, state, v.announced);
      ReconnectedStops(v, from, again, v.announced);
      ReconnectedStops(Reconnected(Closed(v, from), state), from, again, v.announced);
      ReconnectedStops(Delivered(v, handler), from, again, v.announced);
    case _ =>
  }

  lemma {:induction false} NothingSaid(a: seq<Outcome>)
    ensures !SaidStop(a, a)
  {
  }

  /** A stopped subscription does nothing any more. */
  lemma {:induction false} StoppedStays(v: View, input: Input)
    requires OneSource(v) && v.stopped
    ensures
      var w := Step(v, input);
      && w.stopped && w.open == {} && w.delivered == v.delivered && w.requested == v.requested
      && w.announced == v.announced
  {
    StepOneSource(v, input);
    StepStops(v, input);
    StepDelivers(v, input);
    hide Step;
  }

  // ---------------------------------------------------------------------------------
  // When a subscription is left without a source.

  /** An error on the current source strands the subscription exactly if the state callback is asked and throws. */
  lemma {:induction false} ErrorStrandsIff(v: View, from: nat, state: Outcome)
    requires OneSource(v) && !v.stopped && v.source == from
    ensures
      var w := Step(v, Failed(from, state));
      && w.open == {}
      && (w.timer || w.stopped || Stranded(w))
      && (Stranded(w) <==> !v.retry && state.throws && !state.stops)
      && (!v.retry && !state.throws ==> w.timer)
  {
  }

  /** The message makes the subscription close its source. */
  predicate Closes(v: View, message: Message, handler: Outcome) {
    && !message.NotAMessage?
    && (message.Event? ==> message.runId == v.runId && message.sequence > v.afterSequence
                           && (message.sequence == v.afterSequence + 1 ==> handler.throws))
  }

  /**
   * An event on the current source strands the subscription exactly if it closes the source, no retry is
   * due, and the last state callback asked throws without stopping: `again`, asked in the catch clause
   * unless the event is a gap and the first callback did not throw.
   */
  lemma {:induction false} EventStrandsIff(
    v: View, from: nat, message: Message, handler: Outcome, state: Outcome, again: Outcome)
    requires OneSource(v) && !v.stopped && v.source == from && !Stranded(v)
    ensures
      var w := Step(v, Durable(from, message, handler, state, again));
      var gap := message.Event? && message.sequence != v.afterSequence + 1;
      var stops := (message.Event? && !gap && handler.stops) || (gap && state.stops) || again.stops;
      && (Closes(v, message, handler) ==> w.open == {})
      && (Stranded(w) <==>
            Closes(v, message, handler) && !v.retry && (gap ==> state.throws) && again.throws && !stops)
      && (Closes(v, message, handler) && !v.retry && !w.stopped && !(gap && !state.throws) && !again.throws ==> w.timer)
      && (Closes(v, message, handler) && gap && !state.throws && !w.stopped ==> w.timer)
  {
  }

  /** A stranded subscription stays so until it is stopped or tells the state callback of another reconnect. */
  lemma {:induction false} StrandedStays(v: View, input: Input)
    requires OneSource(v) && Stranded(v)
    ensures Stranded(Step(v, input)) || Step(v, input).stopped || |Step(v, input).announced| > |v.announced|
  {
  }

  // ---------------------------------------------------------------------------------
  // Whole runs.

  lemma {:induction false} NumbersNext(start: int, last: int)
    requires start <= last
    ensures Numbers(start, last + 1) == Numbers(start, last) + [last + 1]
  {
  }

  lemma {:induction false} StepContiguous(v: View, start: int, input: Input)
    requires Contiguous(v, start)
    ensures Contiguous(Step(v, input), start)
  {
    StepDelivers(v, input);
    NumbersNext(start, v.afterSequence);
    hide Step, Next, Numbers;
  }

  // ---------------------------------------------------------------------------------
  // The subscription.

  class Subscription {
    const runId: string
    var stopped: bool
    var source: nat
    var retry: bool
    var afterSequence: int
    // What the outside has seen.
    var delivered: seq<int>
    var requested: seq<int>
    var open: set<nat>
    var timer: bool
    var announced: seq<Outcome>

    function Abs(): View
      reads this
    {
      View(runId, stopped, source, retry, afterSequence, delivered, requested, open, timer, announced)
    }

    constructor (runId: string, afterSequence: int)
      ensures Abs() == Start(runId, afterSequence)
    {
      this.runId, this.afterSequence := runId, afterSequence;
      stopped, retry, timer := false, false, false;
      delivered, announced := [], [];
      requested, source, open := [afterSequence], 0, {0};
    }

    /** The function that the subscriber gets back. */
    method Stop()
      modifies this`stopped, this`open, this`timer
      ensures Abs() == Stopped(old(Abs()))
    {
      stopped := true;
      if retry { timer := false; }
      open := open - {source};
    }

    method Connect()
      modifies this`source, this`open, this`requested
      ensures Abs() == Connected(old(Abs()))
    {
      if stopped { return; }
      var current := |requested|;
      requested := requested + [afterSequence];
      open := open + {current};
      source := current;
    }

    /** `threw` passes on what the state callback throws. */
    method Reconnect(state: Outcome) returns (threw: bool)
      modifies this`stopped, this`open, this`timer, this`retry, this`announced
      ensures Abs() == Reconnected(old(Abs()), state) && threw == ReconnectThrows(old(Abs()), state)
    {
      if stopped || retry { return false; }
      announced := announced + [state];
      if state.stops { Stop(); }
      if state.throws { return true; }
      retry, timer := true, true;
      return false;
    }

    method RetryTimer()
      requires timer
      modifies this`retry, this`timer, this`source, this`open, this`requested
      ensures Abs() == Step(old(Abs()), RetryDue)
    {
      retry, timer := false, false;
      Connect();
    }

    method OnOpen(from: nat, state: Outcome)
      modifies this`stopped, this`open, this`timer
      ensures Abs() == Step(old(Abs()), Opened(from, state))
    {
      if source == from && !stopped && state.stops { Stop(); }
    }

    method OnError(from: nat, state: Outcome)
      modifies this`stopped, this`open, this`timer, this`retry, this`announced
      ensures Abs() == Step(old(Abs()), Failed(from, state))
    {
      if source != from || stopped { return; }
      open := open - {from};
      var threw := Reconnect(state);
    }

    method OnDurableEvent(from: nat, message: Message, handler: Outcome, state: Outcome, again: Outcome)
      modifies this`stopped, this`open, this`timer, this`retry, this`announced, this`afterSequence, this`delivered
      ensures Abs() == Step(old(Abs()), Durable(from, message, handler, state, again))
    {
      if source != from || stopped || message.NotAMessage? { return; }
      var threw := true;
      if message.Event? {
        if message.runId != runId || message.sequence <= afterSequence { return; }
        if message.sequence != afterSequence + 1 {
          open := open - {from};
          threw := Reconnect(state);
        } else {
          afterSequence := message.sequence;
          delivered := delivered + [message.sequence];
          if handler.stops { Stop(); }
          threw := handler.throws;
        }
      }
      if threw {
        open := open - {from};
        threw := Reconnect(again);
      }
    }

    method Serve(input: Input)
      modifies this
      ensures Abs() == Step(old(Abs()), input)
    {
      hide Step;
      match input
      case Opened(from, state) => OnOpen(from, state);
      case Durable(from, message, handler, state, again) => OnDurableEvent(from, message, handler, state, again);
      case Failed(from, state) => OnError(from, state);
      case RetryDue => if timer { RetryTimer(); } else { NotDue(Abs()); }
      case StopCalled => Stop(); StopCalls(old(Abs()));
    }
  }

  lemma {:induction false} NotDue(v: View)
    requires !v.timer
    ensures Step(v, RetryDue) == v
  {
  }

  lemma {:induction false} StopCalls(v: View)
    ensures Step(v, StopCalled) == Stopped(v)
  {
  }

  /** A sequence of states that follow from each other. */
  predicate Follows(views: seq<View>, inputs: seq<Input>) {
    && |views| == |inputs| + 1
    && forall i :: 0 <= i < |inputs| ==> views[i + 1] == Step(views[i], inputs[i])
  }

  lemma {:induction false} TraceSound(views: seq<View>, start: int, inputs: seq<Input>, i: nat)
    requires Follows(views, inputs) && Contiguous(views[0], start) && OneSource(views[0]) && i < |views|
    ensures Contiguous(views[i], start) && OneSource(views[i])
  {
    hide Step, Contiguous, OneSource;
    if i > 0 {
      TraceSound(views, start, inputs, i - 1);
      StepContiguous(views[i - 1], start, inputs[i - 1]);
      StepOneSource(views[i - 1], inputs[i - 1]);
    }
  }

  /** Nothing happens any more from a stop on. */
  predicate AfterStop(stoppedAt: View, later: View) {
    && later.stopped && later.open == {} && later.delivered == stoppedAt.delivered
    && later.requested == stoppedAt.requested && later.announced == stoppedAt.announced
  }

  lemma {:induction false} TraceStopped(views: seq<View>, inputs: seq<Input>, i: nat, k: nat)
    requires Follows(views, inputs) && i <= k < |views| && OneSource(views[i]) && views[i].stopped
    ensures AfterStop(views[i], views[k]) && OneSource(views[k])
  {
    hide Step;
    if i < k {
      TraceStopped(views, inputs, i, k - 1);
      StoppedStays(views[k - 1], inputs[k - 1]);
      StepOneSource(views[k - 1], inputs[k - 1]);
    }
  }

  lemma {:induction false} AllSound(views: seq<View>, runId: string, start: int, inputs: seq<Input>)
    requires Follows(views, inputs) && views[0] == Start(runId, start)
    ensures forall i :: 0 <= i < |views| ==> Contiguous(views[i], start) && OneSource(views[i])
    ensures forall i, k :: 0 <= i <= k < |views| && views[i].stopped ==> AfterStop(views[i], views[k])
  {
    hide Step, AfterStop;
    forall i | 0 <= i < |views|
      ensures Contiguous(views[i], start) && OneSource(views[i])
    {
      TraceSound(views, start, inputs, i);
    }
    hide OneSource, Contiguous;
    forall i, k | 0 <= i <= k < |views| && views[i].stopped
      ensures AfterStop(views[i], views[k])
    {
      TraceStopped(views, inputs, i, k);
    }
  }

  /**
   * Any run whatsoever, state by state. In each state the numbers handed on are start + 1, start + 2, ...,
   * at most one source is open, and the subscription is without a source for good exactly if it is not
   * stopped and the last state callback of a reconnect threw. An input hands on the next event if it is one
   * for the current source of a running subscription, and otherwise nothing. From a stop on, by a call or by
   * a callback, nothing is handed on, requested or open any more.
   */
  method Subscribe(runId: string, start: int, inputs: seq<Input>) returns (views: seq<View>)
    ensures Follows(views, inputs) && views[0] == Start(runId, start)
    ensures forall i :: 0 <= i < |views| ==>
      start <= views[i].afterSequence && views[i].delivered == Numbers(start, views[i].afterSequence)
    ensures forall i :: 0 <= i < |inputs| ==>
      views[i + 1].delivered ==
        views[i].delivered + (if Next(views[i], inputs[i]) then [views[i].afterSequence + 1] else [])
    ensures forall i :: 0 <= i < |inputs| ==>
              (views[i + 1].stopped <==> views[i].stopped || StopsBy(views[i], inputs[i]))
    ensures forall i, k :: 0 <= i <= k < |views| && views[i].stopped ==> AfterStop(views[i], views[k])
    ensures forall i :: 0 <= i < |views| ==> |views[i].open| <= 1
    ensures forall i :: 0 <= i < |views| ==> (Stranded(views[i]) <==> !views[i].stopped && LastThrew(views[i]))
  {
    var s := new Subscription(runId, start);
    views := [s.Abs()];
    for n := 0 to |inputs|
      invariant fresh(s) && |views| == n + 1 && views[0] == Start(runId, start) && s.Abs() == views[n]
      invariant forall i :: 0 <= i < n ==> views[i + 1] == Step(views[i], inputs[i])
    {
      hide Step;
      s.Serve(inputs[n]);
      views := views + [s.Abs()];
    }
    AllSound(views, runId, start, inputs);
    hide Step, Next, StopsBy, Numbers, AfterStop, Start;
    forall i | 0 <= i < |inputs|
      ensures views[i + 1].delivered ==
                views[i].delivered + (if Next(views[i], inputs[i]) then [views[i].afterSequence + 1] else [])
      ensures views[i + 1].stopped <==> views[i].stopped || StopsBy(views[i], inputs[i])
    {
      StepDelivers(views[i], inputs[i]);
      StepStops(views[i], inputs[i]);
    }
  }

  /** A run that strands: the first source fails, the state callback throws, and time passes. */
  lemma {:induction false} ThrowingCallbackStrands(
    views: seq<View>, runId: string, start: int, inputs: seq<Input>, i: nat)
    requires Follows(views, inputs) && views[0] == Start(runId, start) && 1 <= i < |views|
    requires inputs[0] == Failed(0, Outcome(false, true)) && forall k :: 1 <= k < |inputs| ==> inputs[k] == RetryDue
    ensures Stranded(views[i]) && views[i].requested == [start]
  {
    if i > 1 { ThrowingCallbackStrands(views, runId, start, inputs, i - 1); }
    assert views[i] == Step(views[i - 1], inputs[i - 1]);
  }
}
