/**
 * How fresh the durable session cache is: which view a hydrate brings back, which pending write it cancels,
 * and when the store ends up holding what the latest set or patch of a session wrote.
 */
module DurableFreshness {
  import opened Common
  import opened DurableCache

  /** The step gives the session new content; a patch of an absent session does not. */
  predicate Writes(st: State, step: Step, s: Session) {
    (step.Set? && step.session == s) || (step.Patch? && step.session == s && s in st.memory)
  }

  /** The birth of what the latest set or patch of the session wrote, or 0 if there was none. */
  function LastWrite(init: State, steps: seq<Step>, s: Session): nat
    requires ValidRun(init, steps)
  {
    if steps == [] then 0
    else
      var n := |steps| - 1;
      if Writes(Run(init, steps[..n]), steps[n], s) then |steps| else LastWrite(init, steps[..n], s)
  }

  lemma {:induction false} LastWriteBound(init: State, steps: seq<Step>, s: Session)
    requires ValidRun(init, steps)
    ensures LastWrite(init, steps, s) <= |steps|
  {
    if steps != [] { LastWriteBound(init, steps[..|steps| - 1], s); }
  }

  function NoLater(init: State, steps: seq<Step>): View -> bool
    requires ValidRun(init, steps)
  {
    (v: View) => v.birth <= LastWrite(init, steps, v.session)
  }

  /** No view anywhere is younger than the latest write of its session. */
  lemma {:induction false} RunNoLater(init: State, steps: seq<Step>)
    requires Initial(init) && ValidRun(init, steps)
    ensures Views(Run(init, steps), NoLater(init, steps))
  {
    if steps == [] { return; }
    hide Run, ValidRun, Next, Inv, Enabled, Views, Initial, NoLater;
    var n := |steps| - 1;
    RunLast(init, steps);
    RunInv(init, steps[..n]);
    RunNoLater(init, steps[..n]);
    NoLaterGrows(init, steps);
    NoLaterStep(Run(init, steps[..n]), steps[n], NoLater(init, steps[..n]), NoLater(init, steps));
  }

  lemma {:induction false} NoLaterGrows(init: State, steps: seq<Step>)
    requires ValidRun(init, steps) && steps != []
    ensures forall v :: NoLater(init, steps[..|steps| - 1])(v) ==> NoLater(init, steps)(v)
    ensures
      var n := |steps| - 1;
      forall v: View :: Writes(Run(init, steps[..n]), steps[n], v.session) && v.birth <= |steps| ==>
        NoLater(init, steps)(v)
  {
    hide Run, Writes;
    forall v | NoLater(init, steps[..|steps| - 1])(v)
      ensures NoLater(init, steps)(v)
    {
      LastWriteBound(init, steps[..|steps| - 1], v.session);
    }
  }

  lemma {:induction false} NoLaterStep(st: State, step: Step, p: View -> bool, q: View -> bool)
    requires Views(st, p) && Enabled(st, step)
    requires forall v :: p(v) ==> q(v)
    requires forall v: View :: Writes(st, step, v.session) && v.birth <= Now(st) ==> q(v)
    ensures Views(Next(st, step), q)
  {
    hide Apply;
    assert Views(st, q);
    if step.Patch? && step.session !in st.memory {
      AbsentPatch(st, step);
      ViewsClock(Apply(st, step), Now(st), q);
    } else {
      ApplyViews(st, step, q);
      ViewsClock(Apply(st, step), Now(st), q);
    }
  }

  lemma {:induction false} AbsentPatch(st: State, step: Step)
    requires Enabled(st, step) && step.Patch? && step.session !in st.memory
    ensures Apply(st, step) == Invalidate(st, step.session)
  {
  }

  /** The hydration that finishes brings this view into memory. */
  predicate Brings(st: State, j: nat, kept: bool, evicted: set<Session>, v: View)
    requires j < |st.hydrations| && st.hydrations[j].phase.Got?
  {
    var s, next := st.hydrations[j].ticket.session, DoHydrateFinish(st, j, kept, evicted);
    s !in st.memory && s in next.memory && next.memory[s] == v
  }

  // What the generation fence keeps out.

  lemma {:induction false} PrefixValid(init: State, first: seq<Step>, more: seq<Step>)
    requires ValidRun(init, first + more)
    ensures ValidRun(init, first)
    decreases |more|
  {
    hide *;
    if more == [] {
      assert first + more == first;
      return;
    }
    var n := |more| - 1;
    assert (first + more)[..|first + more| - 1] == first + more[..n];
    RunLast(init, first + more);
    PrefixValid(init, first, more[..n]);
  }

  /** What only calls and hydrations change. */
  predicate SameAsync(a: State, b: State) {
    a.sessionGens == b.sessionGens && a.hydrations == b.hydrations
  }

  lemma {:induction false} PersistAsync(st: State, v: View, kept: bool, evicted: set<Session>)
    ensures SameAsync(st, Persist(st, v)) && SameAsync(st, MemorySet(st, v, kept, evicted))
  {
    hide Gen, Abort;
  }

  lemma {:induction false} WriteAsync(st: State, s: Session, cursor: int, kept: bool, evicted: set<Session>)
    ensures SameAsync(Invalidate(st, s), Write(st, s, cursor, kept, evicted))
    ensures Invalidate(st, s) == st.(sessionGens := st.sessionGens[s := Gen(st, s) + 1])
  {
    var v, cut := View(s, cursor, true, Now(st)), Invalidate(st, s);
    hide Persist, MemorySet;
    PersistAsync(cut, v, kept, evicted);
    PersistAsync(MemorySet(cut, v, kept, evicted), v, kept, evicted);
  }

  lemma {:induction false} HydratedAsync(st: State, j: nat, kept: bool, evicted: set<Session>)
    requires j < |st.hydrations| && st.hydrations[j].phase.Got?
    ensures SameAsync(SetHydration(st, j, Over), DoHydrateFinish(st, j, kept, evicted))
  {
    hide Persist, MemorySet, Matches;
    var over, stored := SetHydration(st, j, Over), st.hydrations[j].phase.stored;
    if stored.Some? {
      PersistAsync(over, stored.value, kept, evicted);
      PersistAsync(MemorySet(over, stored.value, kept, evicted), stored.value, kept, evicted);
    }
  }

  /** The steps of background writes and of the transactions. */
  predicate Background(step: Step) {
    || step.TaskStart? || step.TaskBarrier? || step.TaskOpenTx? || step.TxGet? || step.TxPut?
    || step.MutationOpenTx? || step.TxClearSome? || step.TxMutation? || step.EvictOpenTx? || step.TxEvict?
  }

  lemma {:induction false} BackgroundAsync(st: State, step: Step)
    requires Enabled(st, step) && Background(step)
    ensures SameAsync(st, Apply(st, step))
  {
    hide SetPhase, Finish, Current, DoTxGet, DoTxPut;
    match step
    case TaskStart(i) => PhaseAsync(st, i, AwaitBarrier(|st.mutations|));
    case TaskBarrier(i) => PhaseAsync(st, i, AwaitDb);
    case TaskOpenTx(i) => PhaseAsync(st, i, InTx);
    case TxGet => GetAsync(st);
    case TxPut => PutAsync(st);
    case _ =>
  }

  lemma {:induction false} PhaseAsync(st: State, i: nat, phase: Phase)
    requires i < |st.tasks|
    ensures SameAsync(st, SetPhase(st, i, phase)) && SameAsync(st, Finish(st, i))
  {
    hide Unlisted;
  }

  lemma {:induction false} GetAsync(st: State)
    requires HeadWrites(st, false)
    ensures SameAsync(st, DoTxGet(st))
  {
    hide Finish, Skips, SetPhase;
    var i := st.txs[0].task;
    PhaseAsync(st, i, Finished);
    var next := if Skips(st, st.tasks[i]) then Finish(st, i) else st;
    assert SameAsync(st, next);
  }

  lemma {:induction false} PutAsync(st: State)
    requires HeadWrites(st, true)
    ensures SameAsync(st, DoTxPut(st))
  {
    hide Finish, SetPhase;
    PhaseAsync(st, st.txs[0].task, Finished);
  }

  lemma {:induction false} CallAsync(st: State, step: Step)
    requires Enabled(st, step) && (step.Delete? || step.Clear? || step.SetEnabled? || step.Close?)
    ensures Apply(st, step).hydrations == st.hydrations
    ensures Apply(st, step).sessionGens
         == if step.Delete? then st.sessionGens[step.session := Gen(st, step.session) + 1] else st.sessionGens
  {
    hide Gen, Abort, AbortPending;
  }

  /** A set, patch or delete moves the generation of its session on, and nothing else moves any. */
  lemma {:induction false} GenStep(st: State, step: Step)
    requires Enabled(st, step)
    ensures Next(st, step).sessionGens
         == if step.Set? || step.Patch? || step.Delete? then st.sessionGens[step.session := Gen(st, step.session) + 1]
            else st.sessionGens
  {
    hide Write, Invalidate, DoHydrateFinish, DoTxGet, DoTxPut, DoDelete, DoClear, DoSetEnabled, DoClose, DoTxMutation;
    hide Current, SetPhase, Finish, Gen;
    match step
    case Set(s, cursor, kept, evicted) => WriteAsync(st, s, cursor, kept, evicted);
    case Patch(s, cursor, kept, evicted) => WriteAsync(st, s, cursor, kept, evicted);
    case Delete(_) => CallAsync(st, step);
    case Clear => CallAsync(st, step);
    case SetEnabled(_) => CallAsync(st, step);
    case Close => CallAsync(st, step);
    case Hydrate(_) =>
    case HydrateBarrier(_) =>
    case HydrateRead(_) =>
    case HydrateFinish(j, kept, evicted) => HydratedAsync(st, j, kept, evicted);
    case _ => BackgroundAsync(st, step);
  }

  lemma {:induction false} GenGrows(st: State, step: Step, s: Session)
    requires Enabled(st, step)
    ensures Gen(Next(st, step), s) >= Gen(st, s)
    ensures Writes(st, step, s) ==> Gen(Next(st, step), s) > Gen(st, s)
  {
    GenStep(st, step);
    hide Next;
  }

  lemma {:induction false} LastWriteSnoc(init: State, steps: seq<Step>, s: Session)
    requires ValidRun(init, steps) && steps != []
    ensures ValidRun(init, steps[..|steps| - 1])
    ensures
      var n := |steps| - 1;
      LastWrite(init, steps, s)
        == if Writes(Run(init, steps[..n]), steps[n], s) then |steps| else LastWrite(init, steps[..n], s)
  {
    hide Run, Writes;
  }

  /** While the generation of a session stands still, no set or patch of it takes place. */
  lemma {:induction false} FenceHolds(init: State, first: seq<Step>, more: seq<Step>, s: Session)
    requires ValidRun(init, first) && ValidRun(init, first + more)
    ensures Gen(Run(init, first), s) <= Gen(Run(init, first + more), s)
    ensures Gen(Run(init, first + more), s) == Gen(Run(init, first), s) ==>
              LastWrite(init, first + more, s) == LastWrite(init, first, s)
  {
    hide *;
    if more == [] {
      assert first + more == first;
      return;
    }
    var n := |more| - 1;
    var before, steps := first + more[..n], first + more;
    assert steps[..|steps| - 1] == before;
    RunLast(init, steps);
    FenceHolds(init, first, more[..n], s);
    LastWriteSnoc(init, steps, s);
    GenGrows(Run(init, before), steps[|steps| - 1], s);
  }

  /** A later stage of the same hydration: a read hydration keeps what it read until it is over. */
  predicate Continues(h: Hydration, next: Hydration) {
    && next.ticket == h.ticket
    && (h.phase.Got? || h.phase.Over? ==> next.phase == h.phase || next.phase.Over?)
  }

  lemma {:induction false} HydrationStep(st: State, step: Step, j: nat)
    requires Enabled(st, step) && j < |st.hydrations|
    ensures j < |Next(st, step).hydrations| && Continues(st.hydrations[j], Next(st, step).hydrations[j])
  {
    NextIs(st, step);
    if step.Hydrate? || step.HydrateBarrier? || step.HydrateRead? || step.HydrateFinish? {
      OwnStep(st, step, j);
    } else {
      OtherStep(st, step);
    }
    hide Apply, Enabled;
  }

  lemma {:induction false} OwnStep(st: State, step: Step, j: nat)
    requires Enabled(st, step) && j < |st.hydrations|
    requires step.Hydrate? || step.HydrateBarrier? || step.HydrateRead? || step.HydrateFinish?
    ensures j < |Apply(st, step).hydrations| && Continues(st.hydrations[j], Apply(st, step).hydrations[j])
  {
    hide DoHydrateFinish, NewTicket;
    if step.HydrateFinish? { HydratedAsync(st, step.j, step.kept, step.evicted); }
  }

  lemma {:induction false} OtherStep(st: State, step: Step)
    requires Enabled(st, step)
    requires !step.Hydrate? && !step.HydrateBarrier? && !step.HydrateRead? && !step.HydrateFinish?
    ensures Apply(st, step).hydrations == st.hydrations
  {
    if Background(step) {
      BackgroundAsync(st, step);
      hide Apply, Enabled;
    } else if step.Set? || step.Patch? {
      WriteAsync(st, step.session, step.cursor, step.kept, step.evicted);
      hide Write, Invalidate;
    } else {
      CallAsync(st, step);
      hide Apply, Enabled;
    }
  }

  lemma {:induction false} ContinuesOn(a: Hydration, b: Hydration, c: Hydration)
    requires Continues(a, b) && Continues(b, c)
    ensures Continues(a, c)
  {
  }

  lemma {:induction false} HydrationLater(init: State, first: seq<Step>, more: seq<Step>, j: nat)
    requires ValidRun(init, first) && ValidRun(init, first + more) && j < |Run(init, first).hydrations|
    ensures j < |Run(init, first + more).hydrations|
    ensures Continues(Run(init, first).hydrations[j], Run(init, first + more).hydrations[j])
  {
    hide Run, ValidRun, Next, Enabled;
    if more == [] {
      assert first + more == first;
      return;
    }
    hide *;
    var n := |more| - 1;
    var before, steps := first + more[..n], first + more;
    assert steps[..|steps| - 1] == before;
    RunLast(init, steps);
    HydrationLater(init, first, more[..n], j);
    HydrationStep(Run(init, before), steps[|steps| - 1], j);
    var h0, h1 := Run(init, first).hydrations[j], Run(init, before).hydrations[j];
    ContinuesOn(h0, h1, Run(init, steps).hydrations[j]);
  }

  /** What the read leaves behind: the store's view, under the ticket drawn by the call. */
  lemma {:induction false} ReadsStore(st: State, j: nat)
    requires Inv(st) && Enabled(st, HydrateRead(j))
    ensures j < |st.hydrations| == |Next(st, HydrateRead(j)).hydrations|
    ensures Next(st, HydrateRead(j)).store == st.store
    ensures
      var h := Next(st, HydrateRead(j)).hydrations[j];
      var s := h.ticket.session;
      && h.phase == Got(if s in st.store then Some(st.store[s]) else None)
      && h.ticket.sessionGen <= Gen(st, s) && Gen(st, s) == Gen(Next(st, HydrateRead(j)), s)
  {
    hide MemoryOk, TasksOk, StoreOk, QueueOk, DisabledOk, Times, Settled;
    assert HydrationOk(st, st.hydrations[j]);
  }

  /**
   * When a hydrate brings an outdated view into memory: it brings what the store held when it read, no set or
   * patch of the session took place since, and the view is outdated exactly if at the read the store did not
   * hold what the latest set or patch had written.
   */
  lemma {:induction false} HydrateOutdatedIff(
    init: State, before: seq<Step>, j: nat, more: seq<Step>, kept: bool, evicted: set<Session>, v: View)
    requires Initial(init) && ValidRun(init, before) && ValidRun(init, before + [HydrateRead(j)] + more)
    requires
      var st := Run(init, before + [HydrateRead(j)] + more);
      j < |st.hydrations| && st.hydrations[j].phase.Got? && Brings(st, j, kept, evicted, v)
    ensures v.session in Run(init, before).store && v == Run(init, before).store[v.session]
    ensures
      var read, now := LastWrite(init, before, v.session), LastWrite(init, before + [HydrateRead(j)] + more, v.session);
      now == read && (v.birth < now <==> Run(init, before).store[v.session].birth != read)
  {
    hide *;
    var first := before + [HydrateRead(j)];
    assert first[..|first| - 1] == before;
    PrefixValid(init, first, more);
    var st, read, end := Run(init, before), Run(init, first), Run(init, first + more);
    RunLast(init, first);
    RunInv(init, before);
    ReadsStore(st, j);
    HydrationLater(init, first, more, j);
    GotStays(read.hydrations[j], end.hydrations[j]);
    HydrateInstalls(end, j, kept, evicted, v);
    RunNoLater(init, before);
    StoredNoLater(init, before, v.session);
    FenceHolds(init, first, more, v.session);
    ReadWritesNothing(init, first, j, v.session);
  }

  lemma {:induction false} GotStays(h: Hydration, next: Hydration)
    requires Continues(h, next) && h.phase.Got? && next.phase.Got?
    ensures next == h
  {
  }

  lemma {:induction false} ReadWritesNothing(init: State, steps: seq<Step>, j: nat, s: Session)
    requires ValidRun(init, steps) && steps != [] && steps[|steps| - 1] == HydrateRead(j)
    ensures ValidRun(init, steps[..|steps| - 1])
    ensures LastWrite(init, steps, s) == LastWrite(init, steps[..|steps| - 1], s)
  {
    hide Run;
  }

  lemma {:induction false} StoredNoLater(init: State, steps: seq<Step>, s: Session)
    requires ValidRun(init, steps) && Views(Run(init, steps), NoLater(init, steps)) && Inv(Run(init, steps))
    ensures s in Run(init, steps).store ==> Run(init, steps).store[s].birth <= LastWrite(init, steps, s)
  {
    hide Run, ValidRun, LastWrite, MemoryOk, TasksOk, HydrationsOk, QueueOk, DisabledOk, Times, Settled;
  }

  /** Nor did a set or patch of the session take place since the call of the hydrate. */
  lemma {:induction false} HydrateSeesNoWrite(
    init: State, before: seq<Step>, s: Session, more: seq<Step>, kept: bool, evicted: set<Session>, v: View)
    requires Initial(init) && ValidRun(init, before) && ValidRun(init, before + [Hydrate(s)] + more)
    requires s !in Run(init, before).memory && Run(init, before).enabled
    requires
      var st, j := Run(init, before + [Hydrate(s)] + more), |Run(init, before).hydrations|;
      j < |st.hydrations| && st.hydrations[j].phase.Got? && Brings(st, j, kept, evicted, v)
    ensures v.session == s
    ensures LastWrite(init, before + [Hydrate(s)] + more, s) == LastWrite(init, before, s)
  {
    hide *;
    var first := before + [Hydrate(s)];
    assert first[..|first| - 1] == before;
    PrefixValid(init, first, more);
    var st, called, end := Run(init, before), Run(init, first), Run(init, first + more);
    var j := |st.hydrations|;
    RunLast(init, first);
    CallDrawsTicket(st, s);
    HydrationLater(init, first, more, j);
    SameTicket(called.hydrations[j], end.hydrations[j]);
    HydrateInstalls(end, j, kept, evicted, v);
    FenceHolds(init, first, more, s);
    LastWriteSnoc(init, first, s);
  }

  lemma {:induction false} CallDrawsTicket(st: State, s: Session)
    requires Enabled(st, Hydrate(s)) && s !in st.memory && st.enabled
    ensures Next(st, Hydrate(s)).hydrations == st.hydrations + [Hydration(NewTicket(st, s), AtBarrier)]
    ensures Gen(Next(st, Hydrate(s)), s) == Gen(st, s) == NewTicket(st, s).sessionGen && NewTicket(st, s).session == s
    ensures !Writes(st, Hydrate(s), s)
  {
  }

  lemma {:induction false} SameTicket(h: Hydration, next: Hydration)
    requires Continues(h, next)
    ensures next.ticket == h.ticket
  {
  }

  /** A hydrate that brings a view in brings the one it read, and its ticket still matches. */
  lemma {:induction false} HydrateInstalls(st: State, j: nat, kept: bool, evicted: set<Session>, v: View)
    requires j < |st.hydrations| && st.hydrations[j].phase.Got? && Brings(st, j, kept, evicted, v)
    ensures st.hydrations[j].phase == Got(Some(v)) && v.session == st.hydrations[j].ticket.session
    ensures Gen(st, v.session) == st.hydrations[j].ticket.sessionGen
  {
    hide Persist, SetHydration, Gen;
    var over, stored := SetHydration(st, j, Over), st.hydrations[j].phase.stored;
    OverMemory(st, j);
    if stored.Some? { PersistMemory(MemorySet(over, stored.value, kept, evicted), stored.value); }
  }

  lemma {:induction false} OverMemory(st: State, j: nat)
    requires j < |st.hydrations|
    ensures SetHydration(st, j, Over).memory == st.memory && SetHydration(st, j, Over).tasks == st.tasks
  {
  }

  // Which pending write a hydrate cancels.

  /** The background write has neither ended nor been cancelled. */
  predicate Live(t: Task) {
    !t.aborted && !t.phase.Finished?
  }

  /** The pending writes are the live ones, at most one a session. */
  predicate Listed(tasks: seq<Task>, pending: map<Session, nat>) {
    && (forall s :: s in pending ==>
          pending[s] < |tasks| && Live(tasks[pending[s]]) && tasks[pending[s]].view.session == s)
    && (forall i :: 0 <= i < |tasks| && Live(tasks[i]) ==>
          tasks[i].view.session in pending && pending[tasks[i].view.session] == i)
  }

  /** The tasks and pending writes after `persist` scheduled a write of `v` in place of the session's pending one. */
  predicate Schedules(a: State, b: State, v: View) {
    && |b.tasks| == |a.tasks| + 1
    && b.tasks[|a.tasks|] == Task(NewTicket(a, v.session), v, false, Scheduled)
    && b.pending == a.pending[v.session := |a.tasks|]
    && forall i :: 0 <= i < |a.tasks| ==>
         b.tasks[i] == if v.session in a.pending && a.pending[v.session] == i then a.tasks[i].(aborted := true)
                       else a.tasks[i]
  }

  lemma {:induction false} PersistSchedules(st: State, v: View)
    requires st.enabled && !st.closed
    ensures Schedules(st, Persist(st, v), v)
  {
    hide NewTicket;
  }

  lemma {:induction false} ScheduledListed(a: State, b: State, v: View)
    requires Listed(a.tasks, a.pending) && Schedules(a, b, v)
    ensures Listed(b.tasks, b.pending)
  {
    hide NewTicket;
  }

  lemma {:induction false} PersistListed(st: State, v: View)
    requires Listed(st.tasks, st.pending)
    ensures Listed(Persist(st, v).tasks, Persist(st, v).pending)
  {
    hide Listed, Schedules;
    if st.enabled && !st.closed {
      PersistSchedules(st, v);
      ScheduledListed(st, Persist(st, v), v);
    }
  }

  lemma {:induction false} WriteListed(st: State, s: Session, cursor: int, kept: bool, evicted: set<Session>)
    requires Listed(st.tasks, st.pending)
    ensures Listed(Write(st, s, cursor, kept, evicted).tasks, Write(st, s, cursor, kept, evicted).pending)
  {
    hide Listed, Persist;
    var v := View(s, cursor, true, Now(st));
    PersistListed(MemorySet(Invalidate(st, s), v, kept, evicted), v);
  }

  lemma {:induction false} HydratedListed(st: State, j: nat, kept: bool, evicted: set<Session>)
    requires Listed(st.tasks, st.pending) && j < |st.hydrations| && st.hydrations[j].phase.Got?
    ensures
      var next := DoHydrateFinish(st, j, kept, evicted);
      Listed(next.tasks, next.pending)
  {
    hide Listed, Persist, Matches;
    var over, stored := SetHydration(st, j, Over), st.hydrations[j].phase.stored;
    if stored.Some? { PersistListed(MemorySet(over, stored.value, kept, evicted), stored.value); }
  }

  lemma {:induction false} DeleteListed(st: State, s: Session)
    requires Listed(st.tasks, st.pending)
    ensures Listed(DoDelete(st, s).tasks, DoDelete(st, s).pending)
  {
    hide Invalidate;
  }

  lemma {:induction false} AbortListed(tasks: seq<Task>, pending: map<Session, nat>)
    requires Listed(tasks, pending)
    ensures Listed(AbortPending(tasks, pending), map[])
  {
    var r := AbortPending(tasks, pending);
    forall i | 0 <= i < |r| ensures !Live(r[i]) {
      if Live(tasks[i]) { assert pending[tasks[i].view.session] in pending.Values; }
    }
  }

  lemma {:induction false} PhaseListed(st: State, i: nat, phase: Phase)
    requires Listed(st.tasks, st.pending) && i < |st.tasks| && !st.tasks[i].phase.Finished? && !phase.Finished?
    ensures Listed(SetPhase(st, i, phase).tasks, SetPhase(st, i, phase).pending)
  {
    var t := st.tasks[i].(phase := phase);
    assert Live(t) <==> Live(st.tasks[i]);
    hide Live;
  }

  lemma {:induction false} FinishListed(st: State, i: nat)
    requires Listed(st.tasks, st.pending) && i < |st.tasks|
    ensures Listed(Finish(st, i).tasks, Finish(st, i).pending)
  {
    assert !Live(st.tasks[i].(phase := Finished));
    hide Live;
  }

  lemma {:induction false} GetListed(st: State)
    requires Listed(st.tasks, st.pending) && HeadWrites(st, false)
    ensures Listed(DoTxGet(st).tasks, DoTxGet(st).pending)
  {
    FinishListed(st, st.txs[0].task);
    hide Finish, Skips, Listed;
  }

  lemma {:induction false} PutListed(st: State)
    requires Listed(st.tasks, st.pending) && HeadWrites(st, true)
    ensures Listed(DoTxPut(st).tasks, DoTxPut(st).pending)
  {
    FinishListed(st, st.txs[0].task);
    hide Finish, Listed;
  }

  lemma {:induction false} ListedStep(st: State, step: Step)
    requires Enabled(st, step) && Listed(st.tasks, st.pending)
    ensures Listed(Next(st, step).tasks, Next(st, step).pending)
  {
    hide Write, DoHydrateFinish, DoTxGet, DoTxPut, DoDelete, Current, SetPhase, Finish, Listed, AbortPending;
    match step
    case Set(s, cursor, kept, evicted) => WriteListed(st, s, cursor, kept, evicted);
    case Patch(s, cursor, kept, evicted) => WriteListed(st, s, cursor, kept, evicted);
    case Delete(s) => DeleteListed(st, s);
    case Clear => AbortListed(st.tasks, st.pending);
    case SetEnabled(_) => AbortListed(st.tasks, st.pending);
    case Close => AbortListed(st.tasks, st.pending);
    case TaskStart(i) => StageListed(st, i, AwaitBarrier(|st.mutations|));
    case TaskBarrier(i) => StageListed(st, i, AwaitDb);
    case TaskOpenTx(i) => StageListed(st, i, InTx);
    case TxGet => GetListed(st);
    case TxPut => PutListed(st);
    case HydrateFinish(j, kept, evicted) => HydratedListed(st, j, kept, evicted);
    case _ =>
  }

  lemma {:induction false} StageListed(st: State, i: nat, phase: Phase)
    requires Listed(st.tasks, st.pending) && i < |st.tasks| && !st.tasks[i].phase.Finished? && !phase.Finished?
    ensures Listed(SetPhase(st, i, phase).tasks, SetPhase(st, i, phase).pending)
    ensures Listed(Finish(st, i).tasks, Finish(st, i).pending)
  {
    PhaseListed(st, i, phase);
    FinishListed(st, i);
  }

  /** In every reachable state the pending writes are the live ones. */
  lemma {:induction false} RunListed(init: State, steps: seq<Step>)
    requires Initial(init) && ValidRun(init, steps)
    ensures Listed(Run(init, steps).tasks, Run(init, steps).pending)
  {
    if steps == [] { return; }
    hide *;
    RunLast(init, steps);
    RunListed(init, steps[..|steps| - 1]);
    ListedStep(Run(init, steps[..|steps| - 1]), steps[|steps| - 1]);
  }

  /** The live writes of the session are cancelled, no other is, and one of `v` is scheduled. */
  predicate ReplacedBy(had: seq<Task>, has: seq<Task>, v: View) {
    && |has| == |had| + 1 && has[|had|].view == v && Live(has[|had|])
    && forall i :: 0 <= i < |had| ==>
         has[i] == had[i].(aborted := had[i].aborted || (Live(had[i]) && had[i].view.session == v.session))
  }

  /**
   * Whatever it brings back, a hydrate cancels exactly the live write of the session, if there is one, and
   * schedules one of the view it brought.
   */
  lemma {:induction false} HydrateCancelsIff(
    init: State, steps: seq<Step>, j: nat, kept: bool, evicted: set<Session>, v: View)
    requires Initial(init) && ValidRun(init, steps)
    requires j < |Run(init, steps).hydrations| && Run(init, steps).hydrations[j].phase.Got?
    requires Brings(Run(init, steps), j, kept, evicted, v)
    ensures ReplacedBy(Run(init, steps).tasks, DoHydrateFinish(Run(init, steps), j, kept, evicted).tasks, v)
  {
    hide *;
    RunListed(init, steps);
    BringsSchedules(Run(init, steps), j, kept, evicted, v);
    ScheduledReplaces(Run(init, steps), DoHydrateFinish(Run(init, steps), j, kept, evicted), v);
  }

  lemma {:induction false} ScheduledReplaces(a: State, b: State, v: View)
    requires Listed(a.tasks, a.pending) && Schedules(a, b, v)
    ensures ReplacedBy(a.tasks, b.tasks, v)
  {
    hide NewTicket;
  }

  lemma {:induction false} BringsSchedules(st: State, j: nat, kept: bool, evicted: set<Session>, v: View)
    requires j < |st.hydrations| && st.hydrations[j].phase.Got? && Brings(st, j, kept, evicted, v)
    ensures Schedules(st, DoHydrateFinish(st, j, kept, evicted), v)
  {
    hide Persist, Schedules;
    HydrateInstalls(st, j, kept, evicted, v);
    var over := SetHydration(st, j, Over);
    OverMemory(st, j);
    var held := MemorySet(over, v, kept, evicted);
    PersistMemory(held, v);
    PersistSchedules(held, v);
    ScheduledFrame(held, st, Persist(held, v), DoHydrateFinish(st, j, kept, evicted), v);
  }

  lemma {:induction false} ScheduledFrame(a: State, a': State, b: State, b': State, v: View)
    requires Schedules(a, b, v) && b'.tasks == b.tasks && b'.pending == b.pending
    requires a'.tasks == a.tasks && a'.pending == a.pending && a'.mutations == a.mutations
    requires a'.cacheGen == a.cacheGen && a'.sessionGens == a.sessionGens
    ensures Schedules(a', b', v)
  {
  }

  // An update that a hydrate loses.

  /** A session is set and evicted from memory before its background write, and a hydrate reads the store. */
  function ReadRun(s: Session, t: Session, cursor: int): seq<Step> {
    [Set(s, cursor, true, {}), Set(t, 1, true, {s}), Hydrate(s), HydrateBarrier(0), HydrateRead(0)]
  }

  /** The run that lets this hydrate finish. */
  function LosingRun(s: Session, t: Session, cursor: int): seq<Step> {
    ReadRun(s, t, cursor) + [HydrateFinish(0, true, {})]
  }

  /** The view from before the run is in memory, and the write of the one that step 0 set is cancelled. */
  predicate UpdateLost(st: State, s: Session, v: View, cursor: int) {
    && s in st.memory && st.memory[s] == v && v.birth == 0
    && |st.tasks| == 3 && st.tasks[0].view == View(s, cursor, true, 1) && st.tasks[0].aborted
  }

  /** The old view is back in memory and the write of the new one is cancelled, so the update is lost. */
  lemma {:induction false} HydrateLosesUpdate(init: State, s: Session, t: Session, v: View, cursor: int)
    requires Initial(init) && init.enabled && s != t && init.store == map[s := v] && v.wellFormed
    ensures ValidRun(init, LosingRun(s, t, cursor)) && LastWrite(init, LosingRun(s, t, cursor), s) == 1
    ensures UpdateLost(Run(init, LosingRun(s, t, cursor)), s, v, cursor)
  {
    InitialStored(init, s, v);
    LosingRunIs(s, t, cursor);
    hide *;
    RunRead(init, s, t, v, cursor);
    LosingEnd(Run(init, ReadRun(s, t, cursor)), s, v, cursor);
    RunStep(init, ReadRun(s, t, cursor), HydrateFinish(0, true, {}));
    LastWriteOnce(init, LosingRun(s, t, cursor), s);
  }

  lemma {:induction false} InitialStored(init: State, s: Session, v: View)
    requires Initial(init) && init.store == map[s := v]
    ensures v.session == s && v.birth == 0
  {
    assert s in init.store;
  }

  lemma {:induction false} LosingRunIs(s: Session, t: Session, cursor: int)
    ensures
      var steps := LosingRun(s, t, cursor);
      && steps == ReadRun(s, t, cursor) + [HydrateFinish(0, true, {})] && |steps| == 6
      && steps[0] == Set(s, cursor, true, {}) && (steps[1].Set? && steps[1].session == t)
      && forall i :: 2 <= i < |steps| ==> !steps[i].Set? && !steps[i].Patch?
  {
  }

  lemma {:induction false} ReadRunIs(s: Session, t: Session, cursor: int)
    ensures
      var steps := ReadRun(s, t, cursor);
      && |steps| == 5 && steps[0] == Set(s, cursor, true, {}) && steps[1] == Set(t, 1, true, {s})
      && steps[2] == Hydrate(s) && steps[3] == HydrateBarrier(0) && steps[4] == HydrateRead(0)
  {
  }

  /** Where the run leaves the cache: the old view read, the write of the new one scheduled. */
  predicate HasRead(st: State, s: Session, v: View, cursor: int) {
    && !st.closed && st.enabled && s !in st.memory && st.mutations == [] && st.done == 0 && st.txs == []
    && st.store == map[s := v] && st.hydrations == [Hydration(NewTicket(st, s), Got(Some(v)))]
    && |st.tasks| == 2 && st.tasks[0] == Task(NewTicket(st, s), View(s, cursor, true, 1), false, Scheduled)
    && s in st.pending && st.pending[s] == 0
  }

  lemma {:induction false} RunRead(init: State, s: Session, t: Session, v: View, cursor: int)
    requires Initial(init) && init.enabled && s != t && init.store == map[s := v] && v.wellFormed
    ensures ValidRun(init, ReadRun(s, t, cursor)) && HasRead(Run(init, ReadRun(s, t, cursor)), s, v, cursor)
  {
    hide *;
    var steps := ReadRun(s, t, cursor);
    RunNone(init);
    ReadRunIs(s, t, cursor);
    var s1, s2, s3, s4, s5 := ReadSteps(init, s, t, v, cursor);
    assert steps[..0] == [] && steps[..5] == steps;
    RunNext(init, steps, 0);
    RunNext(init, steps, 1);
    RunNext(init, steps, 2);
    RunNext(init, steps, 3);
    RunNext(init, steps, 4);
  }

  lemma {:induction false} RunNext(init: State, steps: seq<Step>, i: nat)
    requires i < |steps|
    ensures ValidRun(init, steps[..i]) && Enabled(Run(init, steps[..i]), steps[i]) ==>
              && ValidRun(init, steps[..i + 1])
              && Run(init, steps[..i + 1]) == Next(Run(init, steps[..i]), steps[i])
  {
    assert steps[..i + 1] == steps[..i] + [steps[i]];
    RunStep(init, steps[..i], steps[i]);
  }

  lemma {:induction false} LastWriteOnce(init: State, steps: seq<Step>, s: Session)
    requires ValidRun(init, steps) && steps != [] && steps[0].Set? && steps[0].session == s
    requires forall i :: 1 <= i < |steps| ==> !((steps[i].Set? || steps[i].Patch?) && steps[i].session == s)
    ensures LastWrite(init, steps, s) == 1
  {
    hide Run;
    if |steps| > 1 { LastWriteOnce(init, steps[..|steps| - 1], s); }
  }

  lemma {:induction false} ReadSteps(init: State, s: Session, t: Session, v: View, cursor: int)
    returns (s1: State, s2: State, s3: State, s4: State, s5: State)
    requires Initial(init) && init.enabled && s != t && init.store == map[s := v]
    ensures Enabled(init, Set(s, cursor, true, {})) && s1 == Next(init, Set(s, cursor, true, {}))
    ensures Enabled(s1, Set(t, 1, true, {s})) && s2 == Next(s1, Set(t, 1, true, {s}))
    ensures Enabled(s2, Hydrate(s)) && s3 == Next(s2, Hydrate(s))
    ensures Enabled(s3, HydrateBarrier(0)) && s4 == Next(s3, HydrateBarrier(0))
    ensures Enabled(s4, HydrateRead(0)) && s5 == Next(s4, HydrateRead(0))
    ensures HasRead(s5, s, v, cursor)
  {
    s1, s2 := SetTwice(init, s, t, cursor);
    hide Next, Enabled, Initial;
    var ticket := NewTicket(s2, s);
    s3 := s2.(clock := 3, hydrations := [Hydration(ticket, AtBarrier)]);
    HydrateStep(s2, s);
    s4 := s3.(clock := 4, hydrations := [Hydration(ticket, AtDb)]);
    BarrierStep(s3, ticket);
    s5 := s4.(clock := 5, hydrations := [Hydration(ticket, Got(Some(v)))]);
    ReadStep(s4, ticket);
  }

  lemma {:induction false} SetTwice(init: State, s: Session, t: Session, cursor: int) returns (s1: State, s2: State)
    requires Initial(init) && init.enabled && s != t
    ensures Enabled(init, Set(s, cursor, true, {})) && s1 == Next(init, Set(s, cursor, true, {}))
    ensures Enabled(s1, Set(t, 1, true, {s})) && s2 == Next(s1, Set(t, 1, true, {s}))
    ensures s2.clock == 2 && s2.enabled && !s2.closed && s2.hydrations == [] && s2.store == init.store
    ensures s !in s2.memory && s2.mutations == [] && s2.done == 0 && s2.txs == []
    ensures |s2.tasks| == 2 && s2.tasks[0] == Task(NewTicket(s2, s), View(s, cursor, true, 1), false, Scheduled)
    ensures s in s2.pending && s2.pending[s] == 0
  {
    s1 := Next(init, Set(s, cursor, true, {}));
    s2 := Next(s1, Set(t, 1, true, {s}));
  }

  lemma {:induction false} LosingEnd(st: State, s: Session, v: View, cursor: int)
    requires HasRead(st, s, v, cursor) && v.wellFormed && v.session == s && v.birth == 0
    ensures Enabled(st, HydrateFinish(0, true, {}))
    ensures UpdateLost(Next(st, HydrateFinish(0, true, {})), s, v, cursor)
  {
  }
}
