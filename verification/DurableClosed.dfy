/**
 * What closing the durable session cache does, over every run that goes on after it.
 */
module DurableClosed {
  import opened Common
  import opened DurableCache
  import opened DurableFreshness
  import opened DurableStored

  /** The step is a call of the cache, not the work of one that was made before. */
  predicate IsCall(step: Step) {
    step.Set? || step.Patch? || step.Delete? || step.Clear? || step.SetEnabled? || step.Close? || step.Hydrate?
  }

  /** The write whose put has been issued. */
  function Putting(st: State): Option<nat> {
    if HeadWrites(st, true) then Some(st.txs[0].task) else None
  }

  /**
   * How a closed cache stands to the state `at` in which it was closed: memory is as it was, no write has been
   * added, none is live and none has got further unless it has ended, and every ticket was drawn under an earlier
   * generation.  The store holds what it held then or what the put issued then has brought.
   */
  predicate Shut(at: State, st: State) {
    && st.closed && st.memory == at.memory && st.pending == map[]
    && |st.tasks| == |at.tasks| && |st.hydrations| == |at.hydrations|
    && (forall i :: 0 <= i < |st.tasks| ==> Stopped(at.tasks[i], st.tasks[i], st.cacheGen))
    && (forall j :: 0 <= j < |st.hydrations| ==> st.hydrations[j].ticket.cacheGen < st.cacheGen)
    && (Putting(st).Some? ==> Putting(st) == Putting(at))
    && Stored(at, st.store)
  }

  predicate Stopped(was: Task, now: Task, cacheGen: nat) {
    && now.view == was.view && !Live(now) && now.ticket.cacheGen < cacheGen
    && (now.phase == was.phase || now.phase.Finished?)
  }

  /** Every view was stored in `at`, or its put had been issued. */
  predicate Stored(at: State, store: map<Session, View>) {
    forall s :: s in store ==>
      || (s in at.store && at.store[s] == store[s])
      || (Putting(at).Some? && Putting(at).value < |at.tasks| && at.tasks[Putting(at).value].view == store[s])
  }

  lemma {:induction false} CloseShuts(st: State)
    requires Inv(st) && Listed(st.tasks, st.pending) && Enabled(st, Close)
    ensures Shut(st, Next(st, Close))
  {
    AbortListed(st.tasks, st.pending);
    CloseIs(st);
    EarlierTickets(st);
    hide Inv, AbortPending, Next, Live, Listed;
    NoneListed(AbortPending(st.tasks, st.pending));
  }

  /** What the call does, as its lines in the source say. */
  lemma {:induction false} CloseIs(st: State)
    requires Enabled(st, Close)
    ensures Next(st, Close) == st.(clock := Now(st), closed := true, cacheGen := st.cacheGen + 1,
                                   tasks := AbortPending(st.tasks, st.pending), pending := map[])
  {
    hide AbortPending;
  }

  lemma {:induction false} NoneListed(tasks: seq<Task>)
    requires Listed(tasks, map[])
    ensures forall i :: 0 <= i < |tasks| ==> !Live(tasks[i])
  {
  }

  lemma {:induction false} EarlierTickets(st: State)
    requires Inv(st)
    ensures forall i :: 0 <= i < |st.tasks| ==> st.tasks[i].ticket.cacheGen <= st.cacheGen
    ensures forall j :: 0 <= j < |st.hydrations| ==> st.hydrations[j].ticket.cacheGen <= st.cacheGen
  {
    hide MemoryOk, StoreOk, QueueOk, DisabledOk, Times, Settled, Stale, Matches;
    forall i | 0 <= i < |st.tasks| ensures st.tasks[i].ticket.cacheGen <= st.cacheGen {
      assert TaskOk(st, st.tasks[i]);
    }
    forall j | 0 <= j < |st.hydrations| ensures st.hydrations[j].ticket.cacheGen <= st.cacheGen {
      assert HydrationOk(st, st.hydrations[j]);
    }
  }

  lemma {:induction false} FinishShut(at: State, st: State, i: nat)
    requires Shut(at, st) && i < |st.tasks|
    ensures Shut(at, Finish(st, i))
  {
    hide Stored;
  }

  /** A step that only moves the queue and removes from the store. */
  lemma {:induction false} QueueShut(at: State, st: State, next: State)
    requires Shut(at, st)
    requires next == st.(txs := next.txs, store := next.store, done := next.done, mutationOpen := next.mutationOpen,
                         clock := next.clock)
    requires Putting(next).Some? ==> Putting(next) == Putting(st)
    requires Stored(at, next.store)
    ensures Shut(at, next)
  {
    hide Stored, Stopped, Putting;
  }

  lemma {:induction false} ShrunkStored(at: State, a: map<Session, View>, b: map<Session, View>)
    requires Stored(at, a) && forall s :: s in b ==> s in a && b[s] == a[s]
    ensures Stored(at, b)
  {
    hide Putting;
  }

  lemma {:induction false} NoneCurrent(at: State, st: State, t: Task)
    requires Shut(at, st)
    ensures !Current(st, t)
  {
    hide Stopped, Stored, Matches;
  }

  lemma {:induction false} TaskShut(at: State, st: State, step: Step)
    requires Shut(at, st) && Enabled(st, step) && (step.TaskStart? || step.TaskBarrier? || step.TaskOpenTx?)
    ensures Shut(at, Apply(st, step))
  {
    hide Shut, Current, Finish, SetPhase;
    NoneCurrent(at, st, st.tasks[step.i]);
    FinishShut(at, st, step.i);
  }

  lemma {:induction false} GetShut(at: State, st: State)
    requires Inv(st) && Shut(at, st) && HeadWrites(st, false)
    ensures Shut(at, DoTxGet(st))
  {
    hide *;
    HeadEnabled(st, false);
    var i := st.txs[0].task;
    NoneCurrent(at, st, st.tasks[i]);
    NotCurrentSkips(st, st.tasks[i]);
    SkipIs(st);
    FinishIs(st, i);
    FinishShut(at, st, i);
    ShutStored(at, st);
    PopShut(at, st, Finish(st, i), DoTxGet(st));
  }

  lemma {:induction false} NotCurrentSkips(st: State, t: Task)
    requires !Current(st, t)
    ensures Skips(st, t)
  {
  }

  /** The head leaves the queue, and what it leaves in the store is accounted for. */
  lemma {:induction false} PopShut(at: State, st: State, ended: State, next: State)
    requires Inv(st) && Shut(at, ended) && st.txs != [] && SameRest(st, ended)
    requires next == ended.(txs := st.txs[1..], store := next.store, done := next.done,
                            mutationOpen := next.mutationOpen)
    requires |ended.tasks| == |st.tasks| && Stored(at, next.store)
    ensures Shut(at, next)
  {
    InvParts(st);
    PopHead(st, next);
    hide Inv, QueueOk, Stopped, HeadWrites, Stored;
    QueueShut(at, ended, next);
  }

  lemma {:induction false} PutShut(at: State, st: State)
    requires Inv(st) && Shut(at, st) && HeadWrites(st, true)
    ensures Shut(at, DoTxPut(st))
  {
    hide *;
    HeadEnabled(st, true);
    var i := st.txs[0].task;
    PutIs(st);
    FinishIs(st, i);
    FinishShut(at, st, i);
    PutStored(at, st);
    PopShut(at, st, Finish(st, i), DoTxPut(st));
  }

  lemma {:induction false} PutStored(at: State, st: State)
    requires Shut(at, st) && HeadWrites(st, true)
    ensures
      var v := st.tasks[st.txs[0].task].view;
      Stored(at, st.store[v.session := v])
  {
    assert Putting(st) == Some(st.txs[0].task);
  }

  lemma {:induction false} StoreShut(at: State, st: State, step: Step)
    requires Inv(st) && Shut(at, st) && Enabled(st, step)
    requires step.MutationOpenTx? || step.TxClearSome? || step.TxMutation? || step.EvictOpenTx? || step.TxEvict?
    ensures Shut(at, Apply(st, step))
  {
    var next := Apply(st, step);
    InvParts(st);
    ShutStored(at, st);
    assert forall s :: s in next.store ==> s in st.store && next.store[s] == st.store[s];
    ShrunkStored(at, st.store, next.store);
    if step.TxMutation? || step.TxEvict? { PopHead(st, next); }
    hide Shut, Stored, QueueOk, Inv, Affects;
    QueueShut(at, st, next);
  }

  lemma {:induction false} ShutStored(at: State, st: State)
    requires Shut(at, st)
    ensures Stored(at, st.store)
  {
    hide Stored, Stopped;
  }

  lemma {:induction false} HydrationShut(at: State, st: State, step: Step)
    requires Shut(at, st) && Enabled(st, step)
    requires step.HydrateBarrier? || step.HydrateRead? || step.HydrateFinish?
    ensures Shut(at, Apply(st, step))
  {
    hide Stored, Stopped, Persist, MemorySet, Matches;
  }

  lemma {:induction false} ShutStep(at: State, st: State, step: Step)
    requires Inv(st) && Shut(at, st) && Enabled(st, step)
    ensures !IsCall(step) && Shut(at, Next(st, step))
  {
    NoCall(at, st, step);
    hide *;
    if step.TxGet? {
      TxEnabled(st, step);
      GetShut(at, st);
    } else if step.TxPut? {
      TxEnabled(st, step);
      PutShut(at, st);
    } else if step.TaskStart? || step.TaskBarrier? || step.TaskOpenTx? {
      TaskShut(at, st, step);
    } else if step.HydrateBarrier? || step.HydrateRead? || step.HydrateFinish? {
      HydrationShut(at, st, step);
    } else {
      NotCall(step);
      StoreShut(at, st, step);
    }
    NextIs(st, step);
    ClockShut(at, Apply(st, step), Now(st));
  }

  lemma {:induction false} NoCall(at: State, st: State, step: Step)
    requires Shut(at, st) && Enabled(st, step)
    ensures !IsCall(step)
  {
    hide Stored, Stopped;
  }

  lemma {:induction false} NotCall(step: Step)
    requires !IsCall(step)
    ensures !step.Set? && !step.Patch? && !step.Delete? && !step.Clear? && !step.SetEnabled? && !step.Close?
    ensures !step.Hydrate?
  {
  }

  lemma {:induction false} TxEnabled(st: State, step: Step)
    requires Enabled(st, step)
    ensures step.TxGet? ==> HeadWrites(st, false) && Apply(st, step) == DoTxGet(st)
    ensures step.TxPut? ==> HeadWrites(st, true) && Apply(st, step) == DoTxPut(st)
  {
    hide DoTxGet, DoTxPut, HeadWrites;
  }

  lemma {:induction false} ClockShut(at: State, st: State, clock: nat)
    requires Shut(at, st)
    ensures Shut(at, st.(clock := clock))
  {
    hide Stored, Stopped;
  }

  /**
   * Closing is final.  Over every run that goes on after it no call is made, memory stays as it was (so no hydrate
   * installs anything), no write is added, and none that had not issued its put gets further: it ends without
   * storing.  The store holds only what it held at the close and what the put issued then brings.
   */
  lemma {:induction false} ClosedForGood(init: State, before: seq<Step>, after: seq<Step>)
    requires Initial(init) && ValidRun(init, before) && ValidRun(init, before + [Close] + after)
    ensures Shut(Run(init, before), Run(init, before + [Close] + after))
    ensures forall step :: step in after ==> !IsCall(step)
  {
    hide *;
    var first := before + [Close];
    assert first[..|first| - 1] == before;
    PrefixValid(init, first, after);
    if after == [] {
      assert first + after == first;
      RunLast(init, first);
      RunInv(init, before);
      RunListed(init, before);
      CloseShuts(Run(init, before));
      return;
    }
    var n := |after| - 1;
    MoreSplit(first, after);
    RunLast(init, first + after);
    ClosedForGood(init, before, after[..n]);
    RunInv(init, first + after[..n]);
    ShutStep(Run(init, before), Run(init, first + after[..n]), after[n]);
    assert after == after[..n] + [after[n]];
  }

  /** In particular: only the put issued at the close can still take place. */
  lemma {:induction false} ClosedPuts(init: State, before: seq<Step>, after: seq<Step>)
    requires Initial(init) && ValidRun(init, before) && ValidRun(init, before + [Close] + after)
    requires Enabled(Run(init, before + [Close] + after), TxPut)
    ensures HeadWrites(Run(init, before), true) && HeadWrites(Run(init, before + [Close] + after), true)
    ensures Run(init, before + [Close] + after).txs[0].task == Run(init, before).txs[0].task
  {
    hide *;
    ClosedForGood(init, before, after);
    PutOf(Run(init, before), Run(init, before + [Close] + after));
  }

  lemma {:induction false} PutOf(at: State, st: State)
    requires Shut(at, st) && Enabled(st, TxPut)
    ensures HeadWrites(at, true) && HeadWrites(st, true) && st.txs[0].task == at.txs[0].task
  {
    hide Stored, Stopped;
  }
}
