/**
 * What the durable session cache holds in memory, what it stores of views set while it is off, and what becomes of
 * the evictions it asks for.
 */
module DurableMemory {
  import opened Common
  import opened DurableCache
  import opened DurableFreshness
  import opened DurableStored

  // ---------------------------------------------------------------------------------
  // A view that was set is read back.

  /** The step neither changes the session's view in memory nor evicts it. */
  predicate Spares(step: Step, s: Session) {
    match step
    case Set(x, _, _, evicted) => x != s && s !in evicted
    case Patch(x, _, _, evicted) => x != s && s !in evicted
    case HydrateFinish(_, _, evicted) => s !in evicted
    case Delete(x) => x != s
    case Clear => false
    case _ => true
  }

  predicate AllSpare(more: seq<Step>, s: Session) {
    forall i :: 0 <= i < |more| ==> Spares(more[i], s)
  }

  predicate Keeps(a: State, b: State, s: Session) {
    s in a.memory ==> s in b.memory && b.memory[s] == a.memory[s]
  }

  lemma {:induction false} SetKeeps(st: State, v: View, kept: bool, evicted: set<Session>, s: Session)
    requires s !in evicted && v.session != s
    ensures Keeps(st, MemorySet(st, v, kept, evicted), s)
    ensures Keeps(st, Persist(MemorySet(st, v, kept, evicted), v), s)
  {
    PersistMemory(MemorySet(st, v, kept, evicted), v);
    hide Persist;
  }

  lemma {:induction false} HydrateKeeps(st: State, j: nat, kept: bool, evicted: set<Session>, s: Session)
    requires j < |st.hydrations| && st.hydrations[j].phase.Got? && s !in evicted
    ensures Keeps(st, DoHydrateFinish(st, j, kept, evicted), s)
  {
    hide Persist, MemorySet, Matches, SetHydration;
    OverMemory(st, j);
    var over, h := SetHydration(st, j, Over), st.hydrations[j];
    if h.phase.stored.Some? && h.ticket.session != s && h.phase.stored.value.session == h.ticket.session {
      SetKeeps(over, h.phase.stored.value, kept, evicted, s);
    }
  }

  lemma {:induction false} SparedStep(st: State, step: Step, s: Session)
    requires Enabled(st, step) && Spares(step, s)
    ensures Keeps(st, Next(st, step), s)
  {
    hide Finish, SetPhase, Current, Abort, AbortPending, Invalidate, Persist, MemorySet, DoHydrateFinish, Skips;
    match step
    case Set(x, cursor, kept, evicted) => WriteKeeps(st, x, cursor, kept, evicted, s);
    case Patch(x, cursor, kept, evicted) => WriteKeeps(st, x, cursor, kept, evicted, s);
    case HydrateFinish(j, kept, evicted) => HydrateKeeps(st, j, kept, evicted, s);
    case TxGet => TaskMemory(st, st.txs[0].task, Finished);
    case TxPut => TaskMemory(st, st.txs[0].task, Finished);
    case TaskStart(i) => TaskMemory(st, i, AwaitBarrier(|st.mutations|));
    case TaskBarrier(i) => TaskMemory(st, i, AwaitDb);
    case TaskOpenTx(i) => TaskMemory(st, i, InTx);
    case Delete(x) => WellDelete(st, x);
    case _ =>
  }

  lemma {:induction false} WriteKeeps(
    st: State, x: Session, cursor: int, kept: bool, evicted: set<Session>, s: Session)
    requires x != s && s !in evicted
    ensures Keeps(st, Write(st, x, cursor, kept, evicted), s) && Keeps(st, Invalidate(st, x), s)
  {
    SetKeeps(Invalidate(st, x), View(x, cursor, true, Now(st)), kept, evicted, s);
    hide Persist, MemorySet;
  }

  /** What a kept set or patch puts into memory. */
  lemma {:induction false} WriteHeld(st: State, w: Step)
    requires Enabled(st, w) && (w.Set? || w.Patch?) && Writes(st, w, w.session) && w.kept
    ensures
      var next := Next(st, w);
      w.session in next.memory && next.memory[w.session] == View(w.session, w.cursor, true, Now(st))
  {
    WriteIs(st, w);
    var v := View(w.session, w.cursor, true, Now(st));
    PersistMemory(MemorySet(Invalidate(st, w.session), v, true, w.evicted), v);
    hide Persist, Next, Invalidate;
  }

  /** Exactly what a set or patch leaves in memory: its view if it was kept, and the others that were not evicted. */
  lemma {:induction false} WriteLeaves(st: State, w: Step)
    requires Enabled(st, w) && (w.Set? || w.Patch?) && Writes(st, w, w.session)
    ensures
      var memory := Next(st, w).memory;
      && (w.session in memory <==> w.kept)
      && (w.kept ==> memory[w.session] == View(w.session, w.cursor, true, Now(st)))
      && (forall x :: x != w.session ==> (x in memory <==> x in st.memory && x !in w.evicted))
      && (forall x :: x != w.session && x in memory ==> memory[x] == st.memory[x])
  {
    var v := View(w.session, w.cursor, true, Now(st));
    PersistMemory(MemorySet(Invalidate(st, w.session), v, w.kept, w.evicted), v);
    hide Persist;
  }

  /**
   * Reading what was written: a view that a set or patch left in memory is there, whatever reads, writes and calls
   * of other sessions follow, until the session itself is written, deleted, cleared or evicted.  Turning the durable
   * layer off or closing it does not take it away.
   */
  lemma {:induction false} ReadsWrite(init: State, before: seq<Step>, w: Step, more: seq<Step>, s: Session)
    requires Initial(init) && ValidRun(init, before) && ValidRun(init, before + [w] + more)
    requires Writes(Run(init, before), w, s) && w.kept && AllSpare(more, s)
    ensures
      var memory := Run(init, before + [w] + more).memory;
      s in memory && memory[s] == View(s, w.cursor, true, |before| + 1)
  {
    hide *;
    WritesWhat(Run(init, before), w, s);
    var first := before + [w];
    assert first[..|first| - 1] == before;
    PrefixValid(init, first, more);
    if more == [] {
      assert first + more == first;
      RunLast(init, first);
      RunInv(init, before);
      WriteHeld(Run(init, before), w);
      NowIs(Run(init, before));
      return;
    }
    var n := |more| - 1;
    MoreSplit(first, more);
    RunLast(init, first + more);
    SparedPrefix(more, s);
    ReadsWrite(init, before, w, more[..n], s);
    SparedStep(Run(init, first + more[..n]), more[n], s);
    KeepsIs(Run(init, first + more[..n]), Run(init, first + more), s);
  }

  lemma {:induction false} NowIs(st: State)
    ensures Now(st) == st.clock + 1
  {
  }

  lemma {:induction false} KeepsIs(a: State, b: State, s: Session)
    requires Keeps(a, b, s) && s in a.memory
    ensures s in b.memory && b.memory[s] == a.memory[s]
  {
  }

  lemma {:induction false} SparedPrefix(more: seq<Step>, s: Session)
    requires AllSpare(more, s) && more != []
    ensures AllSpare(more[..|more| - 1], s) && Spares(more[|more| - 1], s)
  {
    hide Spares;
  }

  // ---------------------------------------------------------------------------------
  // Views set while the cache is off.

  /** Every view that is stored, on its way to the store, or read from it satisfies `p`. */
  ghost predicate Durable(st: State, p: View -> bool) {
    && (forall i :: 0 <= i < |st.tasks| ==> p(st.tasks[i].view))
    && (forall j :: 0 <= j < |st.hydrations| ==>
          st.hydrations[j].phase.Got? && st.hydrations[j].phase.stored.Some? ==> p(st.hydrations[j].phase.stored.value))
    && (forall s :: s in st.store ==> p(st.store[s]))
  }

  lemma {:induction false} PersistDurable(st: State, v: View, p: View -> bool)
    requires Durable(st, p) && p(v)
    ensures Durable(Persist(st, v), p)
  {
    hide NewTicket;
  }

  /** Nothing but the memory, the queue, the flags and the bookkeeping differs. */
  lemma {:induction false} DurableFrame(a: State, b: State, p: View -> bool)
    requires Durable(a, p)
    requires b.tasks == a.tasks && b.hydrations == a.hydrations && (forall s :: s in b.store ==> s in a.store)
    requires forall s :: s in b.store ==> b.store[s] == a.store[s]
    ensures Durable(b, p)
  {
  }

  lemma {:induction false} WriteDurable(
    st: State, s: Session, cursor: int, kept: bool, evicted: set<Session>, p: View -> bool)
    requires Durable(st, p) && (kept && st.enabled ==> p(View(s, cursor, true, Now(st))))
    ensures Durable(Write(st, s, cursor, kept, evicted), p) && Durable(Invalidate(st, s), p)
  {
    var v, cut := View(s, cursor, true, Now(st)), Invalidate(st, s);
    var held := MemorySet(cut, v, kept, evicted);
    assert cut.tasks == held.tasks == st.tasks && cut.hydrations == held.hydrations == st.hydrations;
    assert cut.store == held.store == st.store && held.enabled == st.enabled;
    hide Durable, Persist, MemorySet, Invalidate;
    DurableFrame(st, cut, p);
    DurableFrame(st, held, p);
    if kept {
      if st.enabled { PersistDurable(held, v, p); } else { PersistOff(held, v); }
    }
  }

  lemma {:induction false} FinishDurable(st: State, j: nat, kept: bool, evicted: set<Session>, p: View -> bool)
    requires Durable(st, p) && Enabled(st, HydrateFinish(j, kept, evicted))
    ensures Durable(DoHydrateFinish(st, j, kept, evicted), p)
  {
    GotDurable(st, j, kept, evicted, p);
    hide *;
    FinishCases(st, j, kept, evicted);
    var over, h := SetHydration(st, j, Over), st.hydrations[j];
    DurableFrame(over, over.(txs := over.txs + [EvictTx(h.ticket.session)]), p);
    if h.phase.stored.Some? {
      var x := h.phase.stored.value;
      PersistRest(over, x, kept, evicted);
      PersistAsync(over, x, kept, evicted);
      SameGen(over, MemorySet(over, x, kept, evicted), x.session);
      RestStore(over, MemorySet(over, x, kept, evicted));
      DurableFrame(over, MemorySet(over, x, kept, evicted), p);
      PersistDurable(MemorySet(over, x, kept, evicted), x, p);
    }
  }

  lemma {:induction false} RestStore(a: State, b: State)
    requires SameRest(a, b)
    ensures b.store == a.store
  {
  }

  lemma {:induction false} GotDurable(st: State, j: nat, kept: bool, evicted: set<Session>, p: View -> bool)
    requires Durable(st, p) && Enabled(st, HydrateFinish(j, kept, evicted))
    ensures j < |st.hydrations| && st.hydrations[j].phase.Got? && Durable(SetHydration(st, j, Over), p)
    ensures st.hydrations[j].phase.stored.Some? ==> p(st.hydrations[j].phase.stored.value)
  {
    hide DoHydrateFinish;
  }

  lemma {:induction false} HydrationDurable(st: State, step: Step, p: View -> bool)
    requires Durable(st, p) && Enabled(st, step) && (step.Hydrate? || step.HydrateBarrier? || step.HydrateRead?)
    ensures Durable(Apply(st, step), p)
  {
  }

  lemma {:induction false} CallDurable(st: State, step: Step, p: View -> bool)
    requires Durable(st, p) && Enabled(st, step)
    requires step.Delete? || step.Clear? || step.SetEnabled? || step.Close?
    ensures Durable(Apply(st, step), p)
  {
  }

  lemma {:induction false} PhaseDurable(st: State, i: nat, phase: Phase, p: View -> bool)
    requires Durable(st, p) && i < |st.tasks|
    ensures Durable(SetPhase(st, i, phase), p) && Durable(Finish(st, i), p) && p(st.tasks[i].view)
  {
    hide Unlisted;
  }

  lemma {:induction false} TaskDurable(st: State, step: Step, p: View -> bool)
    requires Durable(st, p) && Enabled(st, step) && (step.TaskStart? || step.TaskBarrier? || step.TaskOpenTx?)
    ensures Durable(Apply(st, step), p)
  {
    hide Durable, Current, Finish;
    PhaseDurable(st, step.i, AwaitBarrier(|st.mutations|), p);
    PhaseDurable(st, step.i, AwaitDb, p);
    PhaseDurable(st, step.i, InTx, p);
    DurableFrame(SetPhase(st, step.i, InTx), SetPhase(st, step.i, InTx).(txs := st.txs + [WriteTx(step.i, false)]), p);
  }

  lemma {:induction false} GetDurable(st: State, p: View -> bool)
    requires Durable(st, p) && HeadWrites(st, false)
    ensures Durable(DoTxGet(st), p)
  {
    var i := st.txs[0].task;
    PhaseDurable(st, i, Finished, p);
    hide Durable, Skips, Finish, HeadWrites;
    DurableFrame(Finish(st, i), Finish(st, i).(txs := st.txs[1..]), p);
    DurableFrame(st, st.(txs := [WriteTx(i, true)] + st.txs[1..]), p);
  }

  lemma {:induction false} PutDurable(st: State, p: View -> bool)
    requires Durable(st, p) && HeadWrites(st, true)
    ensures Durable(DoTxPut(st), p)
  {
    PhaseDurable(st, st.txs[0].task, Finished, p);
    hide Finish;
    FinishIs(st, st.txs[0].task);
  }

  lemma {:induction false} StoreDurable(st: State, step: Step, p: View -> bool)
    requires Durable(st, p) && Enabled(st, step)
    requires step.MutationOpenTx? || step.TxClearSome? || step.TxMutation? || step.EvictOpenTx? || step.TxEvict?
    ensures Durable(Apply(st, step), p)
  {
    var next := Apply(st, step);
    assert forall s :: s in next.store ==> s in st.store && next.store[s] == st.store[s];
    assert next.tasks == st.tasks && next.hydrations == st.hydrations;
    hide Durable, Apply;
    DurableFrame(st, next, p);
  }

  /** New views reach the durable layer only by a set or patch that memory keeps while the cache is on. */
  lemma {:induction false} DurableStep(st: State, step: Step, p: View -> bool)
    requires Durable(st, p) && Enabled(st, step)
    requires (step.Set? || step.Patch?) && step.kept && st.enabled ==>
               p(View(step.session, step.cursor, true, Now(st)))
    ensures Durable(Next(st, step), p)
  {
    hide Durable, Next, Write, Invalidate, DoHydrateFinish, DoTxGet, DoTxPut, DoDelete, DoClear, DoSetEnabled, DoClose;
    NextIs(st, step);
    match step {
      case Set(s, cursor, kept, evicted) => WriteDurable(st, s, cursor, kept, evicted, p);
      case Patch(s, cursor, kept, evicted) => WriteDurable(st, s, cursor, kept, evicted, p);
      case HydrateFinish(j, kept, evicted) => FinishDurable(st, j, kept, evicted, p);
      case Hydrate(_) => HydrationDurable(st, step, p);
      case HydrateBarrier(_) => HydrationDurable(st, step, p);
      case HydrateRead(_) => HydrationDurable(st, step, p);
      case Delete(_) => CallDurable(st, step, p);
      case Clear => CallDurable(st, step, p);
      case SetEnabled(_) => CallDurable(st, step, p);
      case Close => CallDurable(st, step, p);
      case TaskStart(_) => TaskDurable(st, step, p);
      case TaskBarrier(_) => TaskDurable(st, step, p);
      case TaskOpenTx(_) => TaskDurable(st, step, p);
      case TxGet => GetDurable(st, p);
      case TxPut => PutDurable(st, p);
      case _ => StoreDurable(st, step, p);
    }
    hide Apply, Enabled;
    DurableFrame(Apply(st, step), Next(st, step), p);
  }

  /** A view with this birth. */
  function NotBorn(birth: nat): View -> bool {
    (v: View) => v.birth != birth
  }

  lemma {:induction false} OlderDurable(st: State)
    requires Inv(st)
    ensures Durable(st, NotBorn(Now(st)))
  {
    hide Core;
  }

  lemma {:induction false} NotBornView(v: View, birth: nat)
    requires v.birth != birth
    ensures NotBorn(birth)(v)
  {
  }

  /**
   * A view set while the cache is off, or refused by memory, is never stored nor on its way to the store, whatever
   * follows: turning the cache on later does not bring it in.
   */
  lemma {:induction false} OffNeverStored(init: State, before: seq<Step>, w: Step, more: seq<Step>, s: Session)
    requires Initial(init) && ValidRun(init, before) && ValidRun(init, before + [w] + more)
    requires Writes(Run(init, before), w, s) && (!Run(init, before).enabled || !w.kept)
    ensures Durable(Run(init, before + [w] + more), NotBorn(|before| + 1))
  {
    hide *;
    WritesWhat(Run(init, before), w, s);
    var first := before + [w];
    assert first[..|first| - 1] == before;
    PrefixValid(init, first, more);
    if more == [] {
      assert first + more == first;
      RunLast(init, first);
      RunInv(init, before);
      NowIs(Run(init, before));
      OlderDurable(Run(init, before));
      DurableStep(Run(init, before), w, NotBorn(|before| + 1));
      return;
    }
    var n := |more| - 1;
    MoreSplit(first, more);
    RunLast(init, first + more);
    OffNeverStored(init, before, w, more[..n], s);
    RunInv(init, first + more[..n]);
    var st, step := Run(init, first + more[..n]), more[n];
    NowIs(st);
    if step.Set? || step.Patch? {
      NotBornView(View(step.session, step.cursor, true, Now(st)), |before| + 1);
    }
    DurableStep(st, step, NotBorn(|before| + 1));
  }

  // ---------------------------------------------------------------------------------
  // Evictions.

  /** A hydrate that reads a malformed view, and could have installed it, asks for its removal instead. */
  lemma {:induction false} MalformedEvicted(st: State, j: nat, kept: bool, evicted: set<Session>)
    requires j < |st.hydrations| && st.hydrations[j].phase.Got? && st.hydrations[j].phase.stored.Some?
    requires !st.hydrations[j].phase.stored.value.wellFormed
    ensures
      var h, next := st.hydrations[j], DoHydrateFinish(st, j, kept, evicted);
      && next.memory == st.memory && next.tasks == st.tasks && next.store == st.store
      && (h.ticket.session !in st.memory && st.enabled && !st.closed && Matches(st, h.ticket) ==>
            next.txs == st.txs + [EvictTx(h.ticket.session)])
  {
    hide Matches, Persist, MemorySet;
  }

  /** Transactions are served in order: each step adds some at the end, or ends the one at the head. */
  lemma {:induction false} QueueStep(st: State, step: Step, k: nat)
    requires Enabled(st, step) && k < |st.txs| && st.txs[k].EvictTx?
    ensures
      var next := Next(st, step);
      if step.TxGet? || step.TxPut? || step.TxMutation? || step.TxEvict? then
        || (k > 0 && k - 1 < |next.txs| && next.txs[k - 1] == st.txs[k])
        || (k > 0 && k < |next.txs| && next.txs[k] == st.txs[k])
        || (k == 0 && step.TxEvict? && st.txs[0].session !in next.store)
      else k < |next.txs| && next.txs[k] == st.txs[k]
  {
    NextIs(st, step);
    if step.TxGet? {
      GetQueue(st, k);
      hide Next, DoTxGet;
    } else if step.TxPut? {
      PutQueue(st, k);
      hide Next, DoTxPut;
    } else if Background(step) {
      BackgroundQueue(st, step, k);
      hide Next, Apply;
    } else {
      CallQueue(st, step);
      hide Next, Apply;
    }
  }

  lemma {:induction false} GetQueue(st: State, k: nat)
    requires HeadWrites(st, false) && k < |st.txs| && st.txs[k].EvictTx?
    ensures
      var next := DoTxGet(st);
      && k > 0
      && ((k - 1 < |next.txs| && next.txs[k - 1] == st.txs[k]) || (k < |next.txs| && next.txs[k] == st.txs[k]))
  {
    hide Skips, Finish;
  }

  lemma {:induction false} PutQueue(st: State, k: nat)
    requires HeadWrites(st, true) && k < |st.txs| && st.txs[k].EvictTx?
    ensures k > 0 && k - 1 < |DoTxPut(st).txs| && DoTxPut(st).txs[k - 1] == st.txs[k]
  {
    hide Finish;
  }

  lemma {:induction false} BackgroundQueue(st: State, step: Step, k: nat)
    requires Enabled(st, step) && Background(step) && !step.TxGet? && !step.TxPut?
    requires k < |st.txs| && st.txs[k].EvictTx?
    ensures
      var next := Apply(st, step);
      if step.TxMutation? || step.TxEvict? then
        || (k > 0 && k - 1 < |next.txs| && next.txs[k - 1] == st.txs[k])
        || (k == 0 && step.TxEvict? && st.txs[0].session !in next.store)
      else k < |next.txs| && next.txs[k] == st.txs[k]
  {
    if step.TaskStart? || step.TaskBarrier? || step.TaskOpenTx? {
      TaskQueue(st, step);
      hide Apply, Enabled;
    } else {
      hide Current, Finish, SetPhase, Affects;
    }
  }

  lemma {:induction false} TaskQueue(st: State, step: Step)
    requires Enabled(st, step) && (step.TaskStart? || step.TaskBarrier? || step.TaskOpenTx?)
    ensures st.txs <= Apply(st, step).txs
  {
    hide Current, SetPhase, Finish;
    PhaseQueue(st, step.i, AwaitBarrier(|st.mutations|));
    PhaseQueue(st, step.i, AwaitDb);
    PhaseQueue(st, step.i, InTx);
  }

  lemma {:induction false} PhaseQueue(st: State, i: nat, phase: Phase)
    requires i < |st.tasks|
    ensures SetPhase(st, i, phase).txs == st.txs && Finish(st, i).txs == st.txs
  {
    hide Unlisted;
  }

  lemma {:induction false} CallQueue(st: State, step: Step)
    requires Enabled(st, step) && !Background(step)
    ensures st.txs <= Apply(st, step).txs
  {
    hide Write, Invalidate, DoHydrateFinish, DoDelete, DoClear, DoSetEnabled, DoClose, SetHydration;
    match step
    case Set(s, cursor, kept, evicted) => WriteQueue(st, s, cursor, kept, evicted);
    case Patch(s, cursor, kept, evicted) => WriteQueue(st, s, cursor, kept, evicted);
    case HydrateFinish(j, kept, evicted) => FinishQueue(st, j, kept, evicted);
    case Delete(s) => DeleteQueue(st, s);
    case Clear => CutQueue(st, false);
    case SetEnabled(next) => CutQueue(st, next);
    case Close => CutQueue(st, false);
    case Hydrate(_) =>
    case HydrateBarrier(j) => StageQueue(st, j, AtDb);
    case HydrateRead(j) =>
      var s := st.hydrations[j].ticket.session;
      StageQueue(st, j, Got(if s in st.store then Some(st.store[s]) else None));
  }

  lemma {:induction false} StageQueue(st: State, j: nat, phase: HydratePhase)
    requires j < |st.hydrations|
    ensures SetHydration(st, j, phase).txs == st.txs
  {
  }

  lemma {:induction false} WriteQueue(st: State, s: Session, cursor: int, kept: bool, evicted: set<Session>)
    ensures Write(st, s, cursor, kept, evicted).txs == st.txs && Invalidate(st, s).txs == st.txs
  {
    hide NewTicket, Abort;
  }

  lemma {:induction false} DeleteQueue(st: State, s: Session)
    ensures DoDelete(st, s).txs == st.txs
  {
    hide Abort;
  }

  lemma {:induction false} CutQueue(st: State, next: bool)
    ensures DoClear(st).txs == st.txs && DoSetEnabled(st, next).txs == st.txs && DoClose(st).txs == st.txs
  {
    hide AbortPending;
  }

  lemma {:induction false} FinishQueue(st: State, j: nat, kept: bool, evicted: set<Session>)
    requires Enabled(st, HydrateFinish(j, kept, evicted))
    ensures st.txs <= DoHydrateFinish(st, j, kept, evicted).txs
  {
    FinishCases(st, j, kept, evicted);
    StageQueue(st, j, Over);
    var over, stored := SetHydration(st, j, Over), st.hydrations[j].phase.stored;
    if stored.Some? {
      PersistRest(over, stored.value, kept, evicted);
      PersistRest(MemorySet(over, stored.value, kept, evicted), stored.value, kept, evicted);
    }
    hide DoHydrateFinish, Persist, MemorySet, SetHydration, Enabled;
  }

  /** Somewhere in the run the eviction of the session took place, and then the store did not hold it. */
  predicate Evicts(init: State, first: seq<Step>, more: seq<Step>, s: Session, m: nat)
    requires ValidRun(init, first + more)
  {
    && m < |more| && more[m].TxEvict? && ValidRun(init, first + more[..m + 1])
    && s !in Run(init, first + more[..m + 1]).store
  }

  /** An eviction that was asked for waits in the queue until it has removed its session. */
  lemma {:induction false} EvictionServed(init: State, first: seq<Step>, more: seq<Step>, k: nat, s: Session)
    requires ValidRun(init, first) && ValidRun(init, first + more)
    requires k < |Run(init, first).txs| && Run(init, first).txs[k] == EvictTx(s)
    ensures
      || (exists i :: 0 <= i <= k && i < |Run(init, first + more).txs| && Run(init, first + more).txs[i] == EvictTx(s))
      || (exists m :: 0 <= m < |more| && Evicts(init, first, more, s, m))
  {
    hide *;
    if more == [] {
      assert first + more == first;
      return;
    }
    var n := |more| - 1;
    MoreSplit(first, more);
    RunLast(init, first + more);
    EvictionServed(init, first, more[..n], k, s);
    var st, step := Run(init, first + more[..n]), more[n];
    if m :| 0 <= m < n && Evicts(init, first, more[..n], s, m) {
      EvictsLater(init, first, more, s, m);
    } else {
      var i :| 0 <= i <= k && i < |st.txs| && st.txs[i] == EvictTx(s);
      QueueStep(st, step, i);
      if i == 0 && step.TxEvict? { EvictsNow(init, first, more, s); }
    }
  }

  lemma {:induction false} EvictsLater(init: State, first: seq<Step>, more: seq<Step>, s: Session, m: nat)
    requires ValidRun(init, first + more) && more != [] && ValidRun(init, first + more[..|more| - 1])
    requires m < |more| - 1 && Evicts(init, first, more[..|more| - 1], s, m)
    ensures Evicts(init, first, more, s, m)
  {
    hide Run, ValidRun;
    assert more[..|more| - 1][..m + 1] == more[..m + 1];
  }

  lemma {:induction false} EvictsNow(init: State, first: seq<Step>, more: seq<Step>, s: Session)
    requires ValidRun(init, first + more) && more != [] && more[|more| - 1].TxEvict?
    requires s !in Run(init, first + more).store
    ensures Evicts(init, first, more, s, |more| - 1)
  {
    hide Run, ValidRun;
    assert more[..|more|] == more;
  }
}
