/**
 * When the store of the durable session cache ends up holding what the latest set or patch of a session wrote.
 */
module DurableStored {
  import opened Common
  import opened DurableCache
  import opened DurableFreshness

  /**
   * The step does not concern the session: no set, patch or delete of it, no clear, no turning off or closing,
   * no eviction of it, and no hydrate that brings back a view of it older than `born`.
   */
  predicate Leaves(st: State, step: Step, s: Session, born: nat)
    requires Enabled(st, step)
  {
    match step
    case Set(x, _, _, _) => x != s
    case Patch(x, _, _, _) => x != s
    case Delete(x) => x != s
    case Clear => false
    case SetEnabled(next) => next
    case Close => false
    case TxEvict => st.txs[0].session != s
    case HydrateFinish(j, kept, evicted) =>
      var next := DoHydrateFinish(st, j, kept, evicted);
      s !in st.memory && s in next.memory ==> next.memory[s].birth >= born
    case _ => true
  }

  predicate Undisturbed(init: State, first: seq<Step>, more: seq<Step>, s: Session, born: nat)
    requires ValidRun(init, first + more)
    decreases |more|
  {
    if more == [] then true
    else
      var n := |more| - 1;
      assert (first + more)[..|first + more| - 1] == first + more[..n];
      Undisturbed(init, first, more[..n], s, born) && Leaves(Run(init, first + more[..n]), more[n], s, born)
  }

  /** The write numbered `i` looks at the store and finds a newer cursor there. */
  predicate Outranks(st: State, step: Step, i: nat, v: View) {
    step.TxGet? && HeadIs(st, WriteTx(i, false)) && v.session in st.store && st.store[v.session].cursor > v.cursor
  }

  predicate Outranked(init: State, first: seq<Step>, more: seq<Step>, i: nat, v: View)
    requires ValidRun(init, first + more)
    decreases |more|
  {
    if more == [] then false
    else
      var n := |more| - 1;
      assert (first + more)[..|first + more| - 1] == first + more[..n];
      Outranked(init, first, more[..n], i, v) || Outranks(Run(init, first + more[..n]), more[n], i, v)
  }

  // ---------------------------------------------------------------------------------
  // What holds while the write of `v`, task `i`, is on its way and afterwards.

  predicate Watched(st: State, i: nat, v: View) {
    && i < |st.tasks| && st.tasks[i].view == v && st.tasks[i].ticket.session == v.session
    && Current(st, st.tasks[i])
    && (st.tasks[i].phase.Finished? ==> st.tasks[i].ticket.base <= st.done)
  }

  /** Every other write of the session is outdated, or writes `v` again once it is stored. */
  predicate OthersOk(st: State, i: nat, v: View, landed: bool) {
    forall k :: 0 <= k < |st.tasks| && k != i && st.tasks[k].view.session == v.session ==>
      (landed && st.tasks[k].view == v) || (st.tasks[k].view.birth < v.birth && !Matches(st, st.tasks[k].ticket))
  }

  predicate ReadOk(h: Hydration, v: View, landed: bool) {
    h.phase.Got? && h.phase.stored.Some? && h.phase.stored.value.session == v.session ==>
      (landed && h.phase.stored.value == v) || h.phase.stored.value.birth < v.birth
  }

  predicate ReadsOk(hydrations: seq<Hydration>, v: View, landed: bool) {
    forall j :: 0 <= j < |hydrations| ==> ReadOk(hydrations[j], v, landed)
  }

  /** The put about to take place: not the outranked write, and nothing older once the write has ended. */
  predicate HeadOk(st: State, i: nat, v: View, outranked: bool)
    requires i < |st.tasks|
  {
    HeadWrites(st, true) ==>
      var k := st.txs[0].task;
      && (k == i ==> !outranked)
      && (st.tasks[i].phase.Finished? && st.tasks[k].view.session == v.session ==> st.tasks[k].view == v)
  }

  predicate HoldsOk(store: map<Session, View>, v: View, landed: bool) {
    if landed then v.session in store && store[v.session] == v
    else v.session in store ==> store[v.session].birth < v.birth
  }

  /** The write has ended, and not because the store was ahead. */
  predicate Landed(st: State, i: nat, outranked: bool)
    requires i < |st.tasks|
  {
    st.tasks[i].phase.Finished? && !outranked
  }

  predicate Watch(st: State, i: nat, v: View, outranked: bool) {
    && Watched(st, i, v) && (outranked ==> st.tasks[i].phase.Finished?)
    && OthersOk(st, i, v, Landed(st, i, outranked)) && ReadsOk(st.hydrations, v, Landed(st, i, outranked))
    && HeadOk(st, i, v, outranked) && HoldsOk(st.store, v, Landed(st, i, outranked))
  }

  /** Nothing that decides whether a write of `s` is current has changed. */
  predicate SameFence(a: State, b: State, s: Session) {
    && b.enabled == a.enabled && b.closed == a.closed && b.cacheGen == a.cacheGen && Gen(b, s) == Gen(a, s)
    && a.done <= b.done
  }

  /** Writes keep their views, write `i` is neither cancelled nor ended, and new ones do not bring in old views. */
  predicate TasksCalm(a: seq<Task>, b: seq<Task>, i: nat, v: View, landed: bool) {
    && i < |a| <= |b|
    && (forall k :: 0 <= k < |a| ==> b[k].view == a[k].view && b[k].ticket == a[k].ticket)
    && b[i].aborted == a[i].aborted && b[i].phase.Finished? == a[i].phase.Finished?
    && (forall k :: |a| <= k < |b| && b[k].view.session == v.session ==> landed && b[k].view == v)
  }

  /** No put has come to the head of the queue. */
  predicate QueueCalm(a: State, b: State) {
    HeadWrites(b, true) ==> a.txs != [] && a.txs[0] == b.txs[0]
  }

  lemma {:induction false} Calm(a: State, b: State, i: nat, v: View, outranked: bool)
    requires Watch(a, i, v, outranked) && QueueOk(a) && SameFence(a, b, v.session)
    requires TasksCalm(a.tasks, b.tasks, i, v, Landed(a, i, outranked)) && QueueCalm(a, b)
    requires ReadsOk(b.hydrations, v, Landed(a, i, outranked)) && HoldsOk(b.store, v, Landed(a, i, outranked))
    requires TasksOk(a)
    ensures Watch(b, i, v, outranked)
  {
    assert Landed(b, i, outranked) == Landed(a, i, outranked);
    CalmWatched(a, b, i, v, Landed(a, i, outranked));
    CalmOthers(a, b, i, v, Landed(a, i, outranked));
    CalmHead(a, b, i, v, outranked);
    hide Watched, OthersOk, ReadsOk, HeadOk, HoldsOk, TaskOk, QueueOk;
  }

  lemma {:induction false} CalmWatched(a: State, b: State, i: nat, v: View, landed: bool)
    requires Watched(a, i, v) && SameFence(a, b, v.session) && TasksCalm(a.tasks, b.tasks, i, v, landed)
    ensures Watched(b, i, v)
  {
    hide Gen;
  }

  lemma {:induction false} CalmOthers(a: State, b: State, i: nat, v: View, landed: bool)
    requires OthersOk(a, i, v, landed) && SameFence(a, b, v.session) && TasksCalm(a.tasks, b.tasks, i, v, landed)
    requires TasksOk(a)
    ensures OthersOk(b, i, v, landed)
  {
    hide Gen, TicketOk;
    forall k | 0 <= k < |b.tasks| && k != i && b.tasks[k].view.session == v.session
      ensures (landed && b.tasks[k].view == v) || (b.tasks[k].view.birth < v.birth && !Matches(b, b.tasks[k].ticket))
    {
      if k < |a.tasks| { assert TaskOk(a, a.tasks[k]); }
    }
  }

  lemma {:induction false} CalmHead(a: State, b: State, i: nat, v: View, outranked: bool)
    requires i < |a.tasks| && HeadOk(a, i, v, outranked) && QueueOk(a) && QueueCalm(a, b)
    requires TasksCalm(a.tasks, b.tasks, i, v, Landed(a, i, outranked))
    ensures HeadOk(b, i, v, outranked)
  {
    hide Settled;
  }

  // ---------------------------------------------------------------------------------
  // The calls.

  /** Everything but the memory, the tasks, the generations and the mutations is the same. */
  predicate SameRest(a: State, b: State) {
    && b.enabled == a.enabled && b.closed == a.closed && b.cacheGen == a.cacheGen && b.done == a.done
    && b.txs == a.txs && b.store == a.store
  }

  lemma {:induction false} PersistRest(st: State, v: View, kept: bool, evicted: set<Session>)
    ensures SameRest(st, Persist(st, v)) && SameRest(st, MemorySet(st, v, kept, evicted))
    ensures MemorySet(st, v, kept, evicted).tasks == st.tasks && MemorySet(st, v, kept, evicted).pending == st.pending
    ensures MemorySet(st, v, kept, evicted).mutations == st.mutations
  {
    hide NewTicket, Abort;
  }

  /** A write of another session, or the write of `v` again, does not touch task `i`. */
  lemma {:induction false} PersistCalm(st: State, x: View, i: nat, v: View, landed: bool)
    requires Listed(st.tasks, st.pending) && i < |st.tasks| && st.tasks[i].view == v
    requires x.session != v.session || (landed && x == v && st.tasks[i].phase.Finished?)
    ensures TasksCalm(st.tasks, Persist(st, x).tasks, i, v, landed)
  {
    hide Persist, NewTicket;
    if st.enabled && !st.closed {
      PersistSchedules(st, x);
    } else {
      PersistOff(st, x);
    }
  }

  lemma {:induction false} PersistOff(st: State, x: View)
    requires !st.enabled || st.closed
    ensures Persist(st, x) == st
  {
  }

  lemma {:induction false} WriteCalm(
    st: State, s: Session, cursor: int, kept: bool, evicted: set<Session>, i: nat, v: View, landed: bool)
    requires Listed(st.tasks, st.pending) && i < |st.tasks| && st.tasks[i].view == v && s != v.session
    ensures
      var next := Write(st, s, cursor, kept, evicted);
      && SameRest(st, next) && next.hydrations == st.hydrations && Gen(next, v.session) == Gen(st, v.session)
      && TasksCalm(st.tasks, next.tasks, i, v, landed)
  {
    hide Persist, MemorySet, Listed, TasksCalm;
    WriteAsync(st, s, cursor, kept, evicted);
    var x, cut := View(s, cursor, true, Now(st)), Invalidate(st, s);
    var held := MemorySet(cut, x, kept, evicted);
    PersistRest(cut, x, kept, evicted);
    PersistRest(held, x, kept, evicted);
    PersistCalm(held, x, i, v, landed);
    SameTasksCalm(st.tasks, i, v, landed);
  }

  lemma {:induction false} SameTasksCalm(tasks: seq<Task>, i: nat, v: View, landed: bool)
    requires i < |tasks|
    ensures TasksCalm(tasks, tasks, i, v, landed)
  {
  }

  lemma {:induction false} DeleteCalm(st: State, s: Session, i: nat, v: View, landed: bool)
    requires Listed(st.tasks, st.pending) && i < |st.tasks| && st.tasks[i].view == v && s != v.session
    ensures
      var next := DoDelete(st, s);
      && SameRest(st, next) && next.hydrations == st.hydrations && Gen(next, v.session) == Gen(st, v.session)
      && TasksCalm(st.tasks, next.tasks, i, v, landed)
  {
  }

  lemma {:induction false} InvParts(st: State)
    requires Inv(st)
    ensures TasksOk(st) && HydrationsOk(st) && StoreOk(st) && QueueOk(st) && BasicOk(st)
  {
    hide MemoryOk, TasksOk, HydrationsOk, StoreOk, QueueOk, DisabledOk, Times;
  }

  lemma {:induction false} WatchParts(st: State, i: nat, v: View, outranked: bool)
    requires Watch(st, i, v, outranked)
    ensures i < |st.tasks| && st.tasks[i].view == v
    ensures ReadsOk(st.hydrations, v, Landed(st, i, outranked)) && HoldsOk(st.store, v, Landed(st, i, outranked))
    ensures Landed(st, i, outranked) ==> st.tasks[i].phase.Finished?
    ensures OthersOk(st, i, v, Landed(st, i, outranked)) && HeadOk(st, i, v, outranked)
  {
    hide OthersOk, ReadsOk, HeadOk, HoldsOk, Current;
  }

  lemma {:induction false} RestCalm(a: State, b: State, s: Session)
    requires SameRest(a, b) && Gen(b, s) == Gen(a, s)
    ensures SameFence(a, b, s) && QueueCalm(a, b) && b.store == a.store
  {
  }

  /** A step that changes only the tasks and the hydrations, and neither in a way that matters. */
  lemma {:induction false} RestWatch(a: State, b: State, i: nat, v: View, outranked: bool)
    requires Inv(a) && Watch(a, i, v, outranked) && SameRest(a, b) && Gen(b, v.session) == Gen(a, v.session)
    requires i < |a.tasks| && TasksCalm(a.tasks, b.tasks, i, v, Landed(a, i, outranked))
    requires ReadsOk(b.hydrations, v, Landed(a, i, outranked))
    ensures Watch(b, i, v, outranked)
  {
    hide *;
    InvParts(a);
    WatchParts(a, i, v, outranked);
    RestCalm(a, b, v.session);
    Calm(a, b, i, v, outranked);
  }

  lemma {:induction false} WriteWatch(
    st: State, s: Session, cursor: int, kept: bool, evicted: set<Session>, i: nat, v: View, outranked: bool)
    requires Inv(st) && Listed(st.tasks, st.pending) && Watch(st, i, v, outranked) && s != v.session
    ensures Watch(Write(st, s, cursor, kept, evicted), i, v, outranked)
    ensures Watch(Invalidate(st, s), i, v, outranked)
  {
    hide *;
    WatchParts(st, i, v, outranked);
    WriteCalm(st, s, cursor, kept, evicted, i, v, Landed(st, i, outranked));
    RestWatch(st, Write(st, s, cursor, kept, evicted), i, v, outranked);
    CutRest(st, s, v.session);
    SameTasksCalm(st.tasks, i, v, Landed(st, i, outranked));
    RestWatch(st, Invalidate(st, s), i, v, outranked);
  }

  lemma {:induction false} CutRest(st: State, s: Session, other: Session)
    requires s != other
    ensures SameRest(st, Invalidate(st, s)) && Gen(Invalidate(st, s), other) == Gen(st, other)
    ensures Invalidate(st, s).tasks == st.tasks && Invalidate(st, s).hydrations == st.hydrations
  {
  }

  lemma {:induction false} DeleteWatch(st: State, s: Session, i: nat, v: View, outranked: bool)
    requires Inv(st) && Listed(st.tasks, st.pending) && Watch(st, i, v, outranked) && s != v.session
    ensures Watch(DoDelete(st, s), i, v, outranked)
  {
    hide *;
    WatchParts(st, i, v, outranked);
    DeleteCalm(st, s, i, v, Landed(st, i, outranked));
    RestWatch(st, DoDelete(st, s), i, v, outranked);
  }

  lemma {:induction false} HydrateWatch(st: State, s: Session, i: nat, v: View, outranked: bool)
    requires Inv(st) && Watch(st, i, v, outranked)
    ensures Watch(DoHydrate(st, s), i, v, outranked)
  {
    hide *;
    WatchParts(st, i, v, outranked);
    HydrateRest(st, s, v, Landed(st, i, outranked));
    SameTasksCalm(st.tasks, i, v, Landed(st, i, outranked));
    RestWatch(st, DoHydrate(st, s), i, v, outranked);
  }

  lemma {:induction false} HydrateRest(st: State, s: Session, v: View, landed: bool)
    requires ReadsOk(st.hydrations, v, landed)
    ensures SameRest(st, DoHydrate(st, s)) && DoHydrate(st, s).tasks == st.tasks
    ensures Gen(DoHydrate(st, s), v.session) == Gen(st, v.session)
    ensures ReadsOk(DoHydrate(st, s).hydrations, v, landed)
  {
  }

  // ---------------------------------------------------------------------------------
  // Hydrations.

  lemma {:induction false} BarrierWatch(st: State, j: nat, i: nat, v: View, outranked: bool)
    requires Inv(st) && Watch(st, i, v, outranked) && j < |st.hydrations|
    ensures Watch(SetHydration(st, j, AtDb), i, v, outranked)
    ensures Watch(SetHydration(st, j, Over), i, v, outranked)
  {
    hide *;
    WatchParts(st, i, v, outranked);
    SameTasksCalm(st.tasks, i, v, Landed(st, i, outranked));
    QuietStages(st.hydrations[j], v, Landed(st, i, outranked));
    StageRest(st, j, AtDb, v, Landed(st, i, outranked));
    RestWatch(st, SetHydration(st, j, AtDb), i, v, outranked);
    StageRest(st, j, Over, v, Landed(st, i, outranked));
    RestWatch(st, SetHydration(st, j, Over), i, v, outranked);
  }

  lemma {:induction false} QuietStages(h: Hydration, v: View, landed: bool)
    ensures ReadOk(h.(phase := AtDb), v, landed) && ReadOk(h.(phase := Over), v, landed)
  {
  }

  lemma {:induction false} StageRest(st: State, j: nat, phase: HydratePhase, v: View, landed: bool)
    requires j < |st.hydrations| && ReadsOk(st.hydrations, v, landed)
    requires ReadOk(st.hydrations[j].(phase := phase), v, landed)
    ensures SameRest(st, SetHydration(st, j, phase)) && SetHydration(st, j, phase).tasks == st.tasks
    ensures Gen(SetHydration(st, j, phase), v.session) == Gen(st, v.session)
    ensures ReadsOk(SetHydration(st, j, phase).hydrations, v, landed)
  {
    hide ReadOk;
  }

  lemma {:induction false} ReadWatch(st: State, j: nat, i: nat, v: View, outranked: bool)
    requires Inv(st) && Watch(st, i, v, outranked) && Enabled(st, HydrateRead(j))
    ensures Watch(Apply(st, HydrateRead(j)), i, v, outranked)
  {
    hide *;
    ReadIs(st, j);
    WatchParts(st, i, v, outranked);
    InvParts(st);
    var s := st.hydrations[j].ticket.session;
    var phase := Got(if s in st.store then Some(st.store[s]) else None);
    ReadHolds(st, st.hydrations[j], v, Landed(st, i, outranked));
    StageRest(st, j, phase, v, Landed(st, i, outranked));
    SameTasksCalm(st.tasks, i, v, Landed(st, i, outranked));
    RestWatch(st, SetHydration(st, j, phase), i, v, outranked);
  }

  lemma {:induction false} ReadIs(st: State, j: nat)
    requires Enabled(st, HydrateRead(j))
    ensures j < |st.hydrations|
    ensures
      var s := st.hydrations[j].ticket.session;
      Apply(st, HydrateRead(j)) == SetHydration(st, j, Got(if s in st.store then Some(st.store[s]) else None))
  {
    hide SetHydration;
  }

  /** What a hydration reads is what the store holds. */
  lemma {:induction false} ReadHolds(st: State, h: Hydration, v: View, landed: bool)
    requires StoreOk(st) && HoldsOk(st.store, v, landed)
    ensures
      var s := h.ticket.session;
      ReadOk(h.(phase := Got(if s in st.store then Some(st.store[s]) else None)), v, landed)
  {
    hide Settled;
  }

  /** A transaction that puts nothing joins the queue. */
  lemma {:induction false} PushWatch(st: State, tx: Tx, i: nat, v: View, outranked: bool)
    requires Inv(st) && Watch(st, i, v, outranked) && !(tx.WriteTx? && tx.put)
    ensures Watch(st.(txs := st.txs + [tx]), i, v, outranked)
    ensures Watch(st.(mutationOpen := true, txs := st.txs + [tx]), i, v, outranked)
  {
    hide *;
    InvParts(st);
    WatchParts(st, i, v, outranked);
    SameTasksCalm(st.tasks, i, v, Landed(st, i, outranked));
    PushCalm(st, st.(txs := st.txs + [tx]), tx, v.session);
    Calm(st, st.(txs := st.txs + [tx]), i, v, outranked);
    PushCalm(st, st.(mutationOpen := true, txs := st.txs + [tx]), tx, v.session);
    Calm(st, st.(mutationOpen := true, txs := st.txs + [tx]), i, v, outranked);
  }

  lemma {:induction false} PushCalm(a: State, b: State, tx: Tx, s: Session)
    requires b.txs == a.txs + [tx] && !(tx.WriteTx? && tx.put) && b.sessionGens == a.sessionGens
    requires b.enabled == a.enabled && b.closed == a.closed && b.cacheGen == a.cacheGen && b.done == a.done
    ensures SameFence(a, b, s) && QueueCalm(a, b)
  {
  }

  /** How a hydration ends: nothing more, an eviction, or the stored view in memory and a write of it. */
  lemma {:induction false} FinishCases(st: State, j: nat, kept: bool, evicted: set<Session>)
    requires Enabled(st, HydrateFinish(j, kept, evicted))
    ensures j < |st.hydrations| && st.hydrations[j].phase.Got?
    ensures
      var h, over, next := st.hydrations[j], SetHydration(st, j, Over), DoHydrateFinish(st, j, kept, evicted);
      || next == over
      || next == over.(txs := over.txs + [EvictTx(h.ticket.session)])
      || (&& h.phase.stored.Some? && h.phase.stored.value.session == h.ticket.session
          && h.ticket.session !in st.memory
          && var x := h.phase.stored.value;
             var held := MemorySet(over, x, kept, evicted);
             next == (if kept then Persist(held, x) else held)
             && (kept ==> x.session in next.memory && next.memory[x.session] == x))
  {
    OverMemory(st, j);
    var stored := st.hydrations[j].phase.stored;
    if stored.Some? { PersistMemory(MemorySet(SetHydration(st, j, Over), stored.value, kept, evicted), stored.value); }
    hide Persist, SetHydration, Matches;
  }

  lemma {:induction false} FinishWatch(
    st: State, j: nat, kept: bool, evicted: set<Session>, i: nat, v: View, outranked: bool)
    requires Inv(st) && Listed(st.tasks, st.pending) && Watch(st, i, v, outranked)
    requires Enabled(st, HydrateFinish(j, kept, evicted))
    requires Leaves(st, HydrateFinish(j, kept, evicted), v.session, v.birth)
    ensures Watch(DoHydrateFinish(st, j, kept, evicted), i, v, outranked)
  {
    LeavesFinish(st, j, kept, evicted, v.session, v.birth);
    hide *;
    FinishCases(st, j, kept, evicted);
    BarrierWatch(st, j, i, v, outranked);
    OverParts(st, j);
    OverInv(st, j);
    var next, over := DoHydrateFinish(st, j, kept, evicted), SetHydration(st, j, Over);
    if next != over {
      PushWatch(over, EvictTx(st.hydrations[j].ticket.session), i, v, outranked);
      if next != over.(txs := over.txs + [EvictTx(st.hydrations[j].ticket.session)]) {
        WatchParts(st, i, v, outranked);
        ReadOne(st.hydrations, j, v, Landed(st, i, outranked));
        InstallWatch(over, st.hydrations[j].phase.stored.value, kept, evicted, i, v, outranked);
      }
    }
  }

  lemma {:induction false} LeavesFinish(st: State, j: nat, kept: bool, evicted: set<Session>, s: Session, born: nat)
    requires Enabled(st, HydrateFinish(j, kept, evicted)) && Leaves(st, HydrateFinish(j, kept, evicted), s, born)
    ensures j < |st.hydrations| && st.hydrations[j].phase.Got?
    ensures
      var next := DoHydrateFinish(st, j, kept, evicted);
      s !in st.memory && s in next.memory ==> next.memory[s].birth >= born
  {
    hide DoHydrateFinish;
  }

  lemma {:induction false} ReadOne(hydrations: seq<Hydration>, j: nat, v: View, landed: bool)
    requires j < |hydrations| && ReadsOk(hydrations, v, landed)
    requires hydrations[j].phase.Got? && hydrations[j].phase.stored.Some?
    ensures
      var x := hydrations[j].phase.stored.value;
      x.session == v.session && x.birth >= v.birth ==> landed && x == v
  {
  }

  lemma {:induction false} OverParts(st: State, j: nat)
    requires j < |st.hydrations|
    ensures
      var over := SetHydration(st, j, Over);
      over.tasks == st.tasks && over.pending == st.pending && over.memory == st.memory
  {
  }

  lemma {:induction false} OverInv(st: State, j: nat)
    requires Inv(st) && j < |st.hydrations|
    ensures Inv(SetHydration(st, j, Over))
  {
    assert HydrationOk(st, st.hydrations[j]) && HydrationOk(st, st.hydrations[j].(phase := Over));
    SetHydrationCore(st, j, Over);
    SetHydrationViews(st, j, Over, BornBy(st.clock));
    hide Core, Views, HydrationOk, BornBy;
    forall s ensures KilledAt(SetHydration(st, j, Over), s) <= st.clock {
      assert KilledAt(st, s) <= st.clock;
    }
  }

  /** The stored view goes into memory and, if it was kept, its write is scheduled. */
  lemma {:induction false} InstallWatch(
    st: State, x: View, kept: bool, evicted: set<Session>, i: nat, v: View, outranked: bool)
    requires Inv(st) && Listed(st.tasks, st.pending) && Watch(st, i, v, outranked)
    requires i < |st.tasks| && (kept && x.session == v.session ==> Landed(st, i, outranked) && x == v)
    ensures
      var held := MemorySet(st, x, kept, evicted);
      Watch(if kept then Persist(held, x) else held, i, v, outranked)
  {
    hide *;
    WatchParts(st, i, v, outranked);
    var landed, held := Landed(st, i, outranked), MemorySet(st, x, kept, evicted);
    SameTasksCalm(st.tasks, i, v, landed);
    PersistRest(st, x, kept, evicted);
    PersistAsync(st, x, kept, evicted);
    SameGen(st, held, v.session);
    if kept {
      PersistCalm(held, x, i, v, landed);
      PersistRest(held, x, kept, evicted);
      PersistAsync(held, x, kept, evicted);
      SameGen(held, Persist(held, x), v.session);
      RestTwice(st, held, Persist(held, x));
      RestWatch(st, Persist(held, x), i, v, outranked);
    } else {
      RestWatch(st, held, i, v, outranked);
    }
  }

  lemma {:induction false} SameGen(a: State, b: State, s: Session)
    requires SameAsync(a, b)
    ensures Gen(b, s) == Gen(a, s) && b.hydrations == a.hydrations
  {
  }

  lemma {:induction false} RestTwice(a: State, b: State, c: State)
    requires SameRest(a, b) && SameRest(b, c)
    ensures SameRest(a, c)
  {
  }

  // ---------------------------------------------------------------------------------
  // Background writes.

  /** A write that is on its way goes on; one other than write `i` may end. */
  lemma {:induction false} StageWatch(st: State, k: nat, phase: Phase, i: nat, v: View, outranked: bool)
    requires Inv(st) && Watch(st, i, v, outranked) && k < |st.tasks|
    requires !st.tasks[k].phase.Finished? && !phase.Finished?
    ensures Watch(SetPhase(st, k, phase), i, v, outranked)
    ensures k != i ==> Watch(Finish(st, k), i, v, outranked)
  {
    hide *;
    WatchParts(st, i, v, outranked);
    StageCalm(st, k, phase, i, v, Landed(st, i, outranked));
    RestWatch(st, SetPhase(st, k, phase), i, v, outranked);
    if k != i {
      EndCalm(st, k, i, v, Landed(st, i, outranked));
      RestWatch(st, Finish(st, k), i, v, outranked);
    }
  }

  lemma {:induction false} StageCalm(st: State, k: nat, phase: Phase, i: nat, v: View, landed: bool)
    requires k < |st.tasks| && i < |st.tasks| && !st.tasks[k].phase.Finished? && !phase.Finished?
    ensures
      var b := SetPhase(st, k, phase);
      && SameRest(st, b) && Gen(b, v.session) == Gen(st, v.session) && b.hydrations == st.hydrations
      && TasksCalm(st.tasks, b.tasks, i, v, landed)
  {
  }

  lemma {:induction false} EndCalm(st: State, k: nat, i: nat, v: View, landed: bool)
    requires k < |st.tasks| && i < |st.tasks| && k != i
    ensures
      var b := Finish(st, k);
      && SameRest(st, b) && Gen(b, v.session) == Gen(st, v.session) && b.hydrations == st.hydrations
      && TasksCalm(st.tasks, b.tasks, i, v, landed)
  {
    hide Unlisted;
  }

  lemma {:induction false} StaysCurrent(st: State, i: nat, v: View, outranked: bool)
    requires Watch(st, i, v, outranked)
    ensures Current(st, st.tasks[i])
  {
    hide Current, OthersOk, ReadsOk, HeadOk, HoldsOk;
  }

  lemma {:induction false} TaskWatch(st: State, step: Step, i: nat, v: View, outranked: bool)
    requires Inv(st) && Watch(st, i, v, outranked) && Enabled(st, step)
    requires step.TaskStart? || step.TaskBarrier? || step.TaskOpenTx?
    ensures Watch(Apply(st, step), i, v, outranked)
  {
    hide Inv, Watch, Current, SetPhase, Finish;
    StaysCurrent(st, i, v, outranked);
    var phase := if step.TaskStart? then AwaitBarrier(|st.mutations|) else if step.TaskBarrier? then AwaitDb else InTx;
    StageWatch(st, step.i, phase, i, v, outranked);
    if step.TaskOpenTx? { OpenWatch(st, step.i, i, v, outranked); }
  }

  lemma {:induction false} OpenWatch(st: State, k: nat, i: nat, v: View, outranked: bool)
    requires Inv(st) && Watch(st, i, v, outranked) && k < |st.tasks| && st.tasks[k].phase.AwaitDb?
    ensures Watch(SetPhase(st, k, InTx).(txs := st.txs + [WriteTx(k, false)]), i, v, outranked)
  {
    hide *;
    var next := SetPhase(st, k, InTx).(txs := st.txs + [WriteTx(k, false)]);
    InvParts(st);
    WatchParts(st, i, v, outranked);
    StageCalm(st, k, InTx, i, v, Landed(st, i, outranked));
    StageRestOf(st, k, InTx);
    PushCalm(st, next, WriteTx(k, false), v.session);
    Calm(st, next, i, v, outranked);
  }

  lemma {:induction false} StageRestOf(st: State, k: nat, phase: Phase)
    requires k < |st.tasks|
    ensures SetPhase(st, k, phase) == st.(tasks := st.tasks[k := st.tasks[k].(phase := phase)])
  {
  }

  // ---------------------------------------------------------------------------------
  // Transactions.

  lemma {:induction false} PopCalm(a: State, b: State)
    requires QueueOk(a) && a.txs != [] && b.txs == a.txs[1..]
    ensures QueueCalm(a, b)
  {
    hide Settled;
    assert b.txs != [] ==> b.txs[0] == a.txs[1];
  }

  /** The head transaction ends. */
  lemma {:induction false} PopWatch(a: State, b: State, i: nat, v: View, outranked: bool)
    requires Inv(a) && Watch(a, i, v, outranked) && a.txs != [] && b.txs == a.txs[1..]
    requires SameFence(a, b, v.session) && b.hydrations == a.hydrations
    requires i < |a.tasks| && TasksCalm(a.tasks, b.tasks, i, v, Landed(a, i, outranked))
    requires HoldsOk(b.store, v, Landed(a, i, outranked))
    ensures Watch(b, i, v, outranked)
  {
    hide *;
    InvParts(a);
    WatchParts(a, i, v, outranked);
    PopCalm(a, b);
    Calm(a, b, i, v, outranked);
  }

  /** Once the write has landed, no mutation that would remove it is waiting. */
  lemma {:induction false} NothingWaits(st: State, i: nat, v: View, outranked: bool)
    requires Inv(st) && Watch(st, i, v, outranked) && Landed(st, i, outranked)
    requires st.done < |st.mutations|
    ensures !Affects(st.mutations[st.done], v.session)
  {
    hide MemoryOk, HydrationsOk, StoreOk, QueueOk, DisabledOk, Times, OthersOk, ReadsOk, HeadOk, HoldsOk, Affects;
    assert TaskOk(st, st.tasks[i]);
  }

  lemma {:induction false} ClearSomeWatch(st: State, sessions: set<Session>, i: nat, v: View, outranked: bool)
    requires Inv(st) && Watch(st, i, v, outranked) && Enabled(st, TxClearSome(sessions))
    ensures Watch(st.(store := st.store - sessions), i, v, outranked)
  {
    var next := st.(store := st.store - sessions);
    assert HeadIs(st, MutationTx) && st.done < |st.mutations| && st.mutations[st.done].ClearAll?;
    assert Affects(st.mutations[st.done], v.session);
    hide *;
    InvParts(st);
    WatchParts(st, i, v, outranked);
    if Landed(st, i, outranked) { NothingWaits(st, i, v, outranked); }
    SameTasksCalm(st.tasks, i, v, Landed(st, i, outranked));
    ShrunkHolds(st.store, next.store, v);
    ShrunkCalm(st, next, v.session);
    Calm(st, next, i, v, outranked);
  }

  lemma {:induction false} ShrunkHolds(a: map<Session, View>, b: map<Session, View>, v: View)
    requires HoldsOk(a, v, false) && (v.session in b ==> v.session in a && b[v.session] == a[v.session])
    ensures HoldsOk(b, v, false)
  {
  }

  lemma {:induction false} ShrunkCalm(a: State, b: State, s: Session)
    requires b == a.(store := b.store)
    ensures SameFence(a, b, s) && QueueCalm(a, b)
  {
  }

  lemma {:induction false} MutationWatch(st: State, i: nat, v: View, outranked: bool)
    requires Inv(st) && Watch(st, i, v, outranked) && Enabled(st, TxMutation)
    ensures Watch(DoTxMutation(st), i, v, outranked)
  {
    MutationEnabled(st);
    hide *;
    InvParts(st);
    WatchParts(st, i, v, outranked);
    var landed := Landed(st, i, outranked);
    if landed { NothingWaits(st, i, v, outranked); }
    SameTasksCalm(st.tasks, i, v, landed);
    MutationHolds(st, v, landed);
    PopWatch(st, DoTxMutation(st), i, v, outranked);
  }

  lemma {:induction false} MutationEnabled(st: State)
    requires Enabled(st, TxMutation)
    ensures HeadIs(st, MutationTx) && st.txs != [] && st.done < |st.mutations|
  {
  }

  lemma {:induction false} MutationHolds(st: State, v: View, landed: bool)
    requires HeadIs(st, MutationTx) && st.done < |st.mutations| && HoldsOk(st.store, v, landed)
    requires landed ==> !Affects(st.mutations[st.done], v.session)
    ensures
      var b := DoTxMutation(st);
      && b.txs == st.txs[1..] && SameFence(st, b, v.session) && b.hydrations == st.hydrations && b.tasks == st.tasks
      && HoldsOk(b.store, v, landed)
  {
  }

  lemma {:induction false} EvictedWatch(st: State, i: nat, v: View, outranked: bool)
    requires Inv(st) && Watch(st, i, v, outranked) && Enabled(st, TxEvict)
    requires Leaves(st, TxEvict, v.session, v.birth)
    ensures Watch(Apply(st, TxEvict), i, v, outranked)
  {
    EvictedIs(st, v.session, v.birth);
    hide *;
    WatchParts(st, i, v, outranked);
    SameTasksCalm(st.tasks, i, v, Landed(st, i, outranked));
    var next := Apply(st, TxEvict);
    EvictedHolds(st.store, st.txs[0].session, v, Landed(st, i, outranked));
    PopWatch(st, next, i, v, outranked);
  }

  lemma {:induction false} EvictedIs(st: State, s: Session, born: nat)
    requires Enabled(st, TxEvict) && Leaves(st, TxEvict, s, born)
    ensures st.txs != [] && st.txs[0].EvictTx? && st.txs[0].session != s
    ensures
      var b := Apply(st, TxEvict);
      && b.txs == st.txs[1..] && SameFence(st, b, s) && b.hydrations == st.hydrations && b.tasks == st.tasks
      && b.store == st.store - {st.txs[0].session}
  {
  }

  lemma {:induction false} EvictedHolds(store: map<Session, View>, s: Session, v: View, landed: bool)
    requires HoldsOk(store, v, landed) && s != v.session
    ensures HoldsOk(store - {s}, v, landed)
  {
  }

  /** The write itself ends: it has landed now, unless the store was ahead. */
  lemma {:induction false} EndWatch(a: State, b: State, i: nat, v: View, outranked: bool)
    requires Inv(a) && Watch(a, i, v, false) && i < |a.tasks| && a.tasks[i].phase.InTx?
    requires a.txs != [] && b.txs == a.txs[1..] && SameFence(a, b, v.session) && b.hydrations == a.hydrations
    requires b.tasks == a.tasks[i := a.tasks[i].(phase := Finished)] && HoldsOk(b.store, v, !outranked)
    ensures Watch(b, i, v, outranked)
  {
    InvParts(a);
    assert TaskOk(a, a.tasks[i]);
    hide Inv, TasksOk, HydrationsOk, StoreOk, HoldsOk, TicketOk, Stale, Gen;
    EndOthers(a, b, i, v, !outranked);
    EndReads(a.hydrations, v, !outranked);
    PopHead(a, b);
    hide QueueOk, OthersOk, ReadsOk;
  }

  lemma {:induction false} EndOthers(a: State, b: State, i: nat, v: View, landed: bool)
    requires OthersOk(a, i, v, false) && i < |a.tasks| && SameFence(a, b, v.session) && TasksOk(a)
    requires b.tasks == a.tasks[i := a.tasks[i].(phase := Finished)]
    ensures OthersOk(b, i, v, landed)
  {
    hide Gen, TicketOk;
    forall k | 0 <= k < |b.tasks| && k != i && b.tasks[k].view.session == v.session
      ensures b.tasks[k].view.birth < v.birth && !Matches(b, b.tasks[k].ticket)
    {
      assert TaskOk(a, a.tasks[k]);
    }
  }

  lemma {:induction false} EndReads(hydrations: seq<Hydration>, v: View, landed: bool)
    requires ReadsOk(hydrations, v, false)
    ensures ReadsOk(hydrations, v, landed)
  {
  }

  lemma {:induction false} PopHead(a: State, b: State)
    requires QueueOk(a) && a.txs != [] && b.txs == a.txs[1..]
    ensures !HeadWrites(b, true)
  {
    hide Settled;
    assert b.txs != [] ==> b.txs[0] == a.txs[1];
  }

  lemma {:induction false} FinishIs(st: State, k: nat)
    requires k < |st.tasks|
    ensures
      var b := Finish(st, k);
      && b.tasks == st.tasks[k := st.tasks[k].(phase := Finished)]
      && SameRest(st, b) && b.sessionGens == st.sessionGens && b.hydrations == st.hydrations
  {
    hide Unlisted;
  }

  lemma {:induction false} RestFence(a: State, b: State, c: State, s: Session)
    requires SameRest(a, b) && b.sessionGens == a.sessionGens && c == b.(txs := c.txs, store := c.store)
    ensures SameFence(a, c, s)
  {
  }

  lemma {:induction false} EndedOnly(st: State, i: nat, v: View, outranked: bool)
    requires Watch(st, i, v, outranked)
    ensures i < |st.tasks| && (outranked ==> st.tasks[i].phase.Finished?)
    ensures !st.tasks[i].phase.Finished? ==> !Landed(st, i, outranked)
  {
    hide OthersOk, ReadsOk, HeadOk, HoldsOk, Current;
  }

  /** The write skips its put exactly if it is outranked. */
  lemma {:induction false} SkipsOutranked(st: State, i: nat, v: View)
    requires HeadWrites(st, false)
    ensures Outranks(st, TxGet, i, v) ==> st.txs[0].task == i
    ensures
      st.txs[0].task == i && Current(st, st.tasks[i]) && st.tasks[i].view == v ==>
        (Skips(st, st.tasks[i]) <==> Outranks(st, TxGet, i, v))
  {
    hide Current;
  }

  lemma {:induction false} SkipIs(st: State)
    requires HeadWrites(st, false) && Skips(st, st.tasks[st.txs[0].task])
    ensures DoTxGet(st) == Finish(st, st.txs[0].task).(txs := st.txs[1..])
    ensures DoTxGet(st).store == st.store
  {
    hide Skips;
  }

  lemma {:induction false} IssueIs(st: State)
    requires HeadWrites(st, false) && !Skips(st, st.tasks[st.txs[0].task])
    ensures DoTxGet(st) == st.(txs := [WriteTx(st.txs[0].task, true)] + st.txs[1..])
    ensures Current(st, st.tasks[st.txs[0].task])
  {
    hide Current;
  }

  lemma {:induction false} IssueWatch(st: State, k: nat, next: State, i: nat, v: View, outranked: bool)
    requires Watch(st, i, v, outranked) && k < |st.tasks| && Current(st, st.tasks[k]) && st.txs != []
    requires next == st.(txs := [WriteTx(k, true)] + st.txs[1..]) && !st.tasks[k].phase.Finished?
    ensures Watch(next, i, v, outranked)
  {
    hide ReadsOk, HoldsOk;
  }

  lemma {:induction false} HeadEnabled(st: State, put: bool)
    requires HeadWrites(st, put)
    ensures st.txs != [] && st.txs[0].WriteTx? && st.txs[0].task < |st.tasks|
  {
  }

  lemma {:induction false} GetWatch(st: State, i: nat, v: View, outranked: bool)
    requires Inv(st) && Watch(st, i, v, outranked) && HeadWrites(st, false)
    ensures Watch(DoTxGet(st), i, v, outranked || Outranks(st, TxGet, i, v))
  {
    hide *;
    HeadEnabled(st, false);
    var k := st.txs[0].task;
    InvParts(st);
    HeadInTx(st);
    WatchParts(st, i, v, outranked);
    EndedOnly(st, i, v, outranked);
    StaysCurrent(st, i, v, outranked);
    SkipsOutranked(st, i, v);
    if Skips(st, st.tasks[k]) {
      SkipIs(st);
      FinishIs(st, k);
      RestFence(st, Finish(st, k), DoTxGet(st), v.session);
      if k == i {
        EndWatch(st, DoTxGet(st), i, v, true);
      } else {
        EndCalm(st, k, i, v, Landed(st, i, outranked));
        PopWatch(st, DoTxGet(st), i, v, outranked);
      }
    } else {
      IssueIs(st);
      IssueWatch(st, k, DoTxGet(st), i, v, outranked);
    }
  }

  lemma {:induction false} PutIs(st: State)
    requires HeadWrites(st, true)
    ensures
      var v := st.tasks[st.txs[0].task].view;
      DoTxPut(st) == Finish(st, st.txs[0].task).(txs := st.txs[1..], store := st.store[v.session := v])
  {
    hide Finish;
  }

  /** What another write puts is of another session, older than `v` before it has landed, or `v` itself. */
  lemma {:induction false} PutHolds(st: State, k: nat, i: nat, v: View, outranked: bool)
    requires Watch(st, i, v, outranked) && HeadWrites(st, true) && st.txs[0].task == k && k != i
    ensures
      var x := st.tasks[k].view;
      HoldsOk(st.store[x.session := x], v, Landed(st, i, outranked))
  {
    hide Watched, ReadsOk, Matches;
  }

  lemma {:induction false} PutWatch(st: State, i: nat, v: View, outranked: bool)
    requires Inv(st) && Watch(st, i, v, outranked) && HeadWrites(st, true)
    ensures Watch(DoTxPut(st), i, v, outranked)
  {
    hide *;
    HeadEnabled(st, true);
    var k := st.txs[0].task;
    InvParts(st);
    HeadInTx(st);
    WatchParts(st, i, v, outranked);
    EndedOnly(st, i, v, outranked);
    PutIs(st);
    FinishIs(st, k);
    RestFence(st, Finish(st, k), DoTxPut(st), v.session);
    if k == i {
      PutLands(st.store, v);
      EndWatch(st, DoTxPut(st), i, v, false);
    } else {
      EndCalm(st, k, i, v, Landed(st, i, outranked));
      PutHolds(st, k, i, v, outranked);
      PopWatch(st, DoTxPut(st), i, v, outranked);
    }
  }

  lemma {:induction false} PutLands(store: map<Session, View>, v: View)
    ensures HoldsOk(store[v.session := v], v, true)
  {
  }

  // ---------------------------------------------------------------------------------
  // Whole runs.

  lemma {:induction false} ApplyWatch(st: State, step: Step, i: nat, v: View, outranked: bool)
    requires Inv(st) && Listed(st.tasks, st.pending) && Watch(st, i, v, outranked)
    requires Enabled(st, step) && Leaves(st, step, v.session, v.birth)
    ensures Watch(Apply(st, step), i, v, outranked || Outranks(st, step, i, v))
  {
    hide Inv, Listed, Watch, Write, DoDelete, DoHydrate, DoHydrateFinish, DoTxGet, DoTxPut, DoTxMutation;
    hide SetHydration, SetPhase, Finish, Current, Invalidate, AbortPending, HeadWrites;
    match step
    case Set(s, cursor, kept, evicted) => WriteWatch(st, s, cursor, kept, evicted, i, v, outranked);
    case Patch(s, cursor, kept, evicted) => WriteWatch(st, s, cursor, kept, evicted, i, v, outranked);
    case Delete(s) => DeleteWatch(st, s, i, v, outranked);
    case SetEnabled(_) => StaysEnabledOn(st, i, v, outranked);
    case Hydrate(s) => HydrateWatch(st, s, i, v, outranked);
    case TaskStart(_) => TaskWatch(st, step, i, v, outranked);
    case TaskBarrier(_) => TaskWatch(st, step, i, v, outranked);
    case TaskOpenTx(_) => TaskWatch(st, step, i, v, outranked);
    case TxGet => GetWatch(st, i, v, outranked);
    case TxPut => PutWatch(st, i, v, outranked);
    case MutationOpenTx => PushWatch(st, MutationTx, i, v, outranked);
    case TxClearSome(sessions) => ClearSomeWatch(st, sessions, i, v, outranked);
    case TxMutation => MutationWatch(st, i, v, outranked);
    case EvictOpenTx(s) => PushWatch(st, EvictTx(s), i, v, outranked);
    case TxEvict => EvictedWatch(st, i, v, outranked);
    case HydrateBarrier(j) => BarrierWatch(st, j, i, v, outranked);
    case HydrateRead(j) => ReadWatch(st, j, i, v, outranked);
    case HydrateFinish(j, kept, evicted) => FinishWatch(st, j, kept, evicted, i, v, outranked);
    case _ =>
  }

  lemma {:induction false} StaysEnabledOn(st: State, i: nat, v: View, outranked: bool)
    requires Watch(st, i, v, outranked)
    ensures DoSetEnabled(st, true) == st
  {
    hide OthersOk, ReadsOk, HeadOk, HoldsOk;
  }

  lemma {:induction false} ClockWatch(st: State, clock: nat, i: nat, v: View, outranked: bool)
    requires Watch(st, i, v, outranked)
    ensures Watch(st.(clock := clock), i, v, outranked)
  {
    hide ReadsOk, HoldsOk;
  }

  lemma {:induction false} MoreSplit(first: seq<Step>, more: seq<Step>)
    requires more != []
    ensures (first + more)[..|first + more| - 1] == first + more[..|more| - 1]
    ensures (first + more)[|first + more| - 1] == more[|more| - 1]
  {
  }

  lemma {:induction false} UndisturbedLast(init: State, first: seq<Step>, more: seq<Step>, s: Session, born: nat)
    requires ValidRun(init, first + more) && more != [] && Undisturbed(init, first, more, s, born)
    ensures
      var n := |more| - 1;
      && ValidRun(init, first + more[..n]) && Undisturbed(init, first, more[..n], s, born)
      && Enabled(Run(init, first + more[..n]), more[n]) && Leaves(Run(init, first + more[..n]), more[n], s, born)
  {
    MoreSplit(first, more);
    hide Run, Leaves, Enabled;
  }

  lemma {:induction false} OutrankedLast(init: State, first: seq<Step>, more: seq<Step>, i: nat, v: View)
    requires ValidRun(init, first + more) && more != [] && ValidRun(init, first + more[..|more| - 1])
    ensures
      var n := |more| - 1;
      Outranked(init, first, more, i, v) <==>
        Outranked(init, first, more[..n], i, v) || Outranks(Run(init, first + more[..n]), more[n], i, v)
  {
    hide Run, Outranks;
  }

  lemma {:induction false} NoneYet(init: State, first: seq<Step>, i: nat, v: View)
    requires ValidRun(init, first)
    ensures first + [] == first && !Outranked(init, first, [], i, v)
  {
    assert first + [] == first;
  }

  lemma {:induction false} RunWatch(init: State, first: seq<Step>, more: seq<Step>, i: nat, v: View)
    requires Initial(init) && ValidRun(init, first) && ValidRun(init, first + more)
    requires Watch(Run(init, first), i, v, false) && Undisturbed(init, first, more, v.session, v.birth)
    ensures Watch(Run(init, first + more), i, v, Outranked(init, first, more, i, v))
  {
    hide *;
    NoneYet(init, first, i, v);
    if more == [] { return; }
    var n := |more| - 1;
    var before := first + more[..n];
    UndisturbedLast(init, first, more, v.session, v.birth);
    OutrankedLast(init, first, more, i, v);
    MoreSplit(first, more);
    RunLast(init, first + more);
    RunWatch(init, first, more[..n], i, v);
    RunInv(init, before);
    RunListed(init, before);
    var st, out := Run(init, before), Outranked(init, first, more[..n], i, v);
    ApplyWatch(st, more[n], i, v, out);
    NextIs(st, more[n]);
    ClockWatch(Apply(st, more[n]), Now(st), i, v, out || Outranks(st, more[n], i, v));
  }

  lemma {:induction false} LeavesWrites(st: State, step: Step, s: Session, born: nat)
    requires Enabled(st, step) && Leaves(st, step, s, born)
    ensures !Writes(st, step, s)
  {
    hide DoHydrateFinish;
  }

  lemma {:induction false} LastWriteLeft(init: State, first: seq<Step>, more: seq<Step>, s: Session, born: nat)
    requires ValidRun(init, first) && ValidRun(init, first + more) && Undisturbed(init, first, more, s, born)
    ensures LastWrite(init, first + more, s) == LastWrite(init, first, s)
  {
    hide *;
    if more == [] {
      assert first + more == first;
      return;
    }
    var n := |more| - 1;
    UndisturbedLast(init, first, more, s, born);
    MoreSplit(first, more);
    LastWriteLeft(init, first, more[..n], s, born);
    LeavesWrites(Run(init, first + more[..n]), more[n], s, born);
    LastWriteSnoc(init, first + more, s);
  }

  /** What the call writes. */
  function Written(steps: seq<Step>, w: Step): View
    requires w.Set? || w.Patch?
  {
    View(w.session, w.cursor, true, |steps| + 1)
  }

  /** Right after the call its write is scheduled, and whatever else there is of the session is older. */
  lemma {:induction false} WriteStarts(st: State, w: Step)
    requires Inv(st) && Enabled(st, w) && (w.Set? || w.Patch?) && Writes(st, w, w.session) && w.kept && st.enabled
    ensures Watch(Next(st, w), |st.tasks|, View(w.session, w.cursor, true, Now(st)), false)
  {
    var s, v := w.session, View(w.session, w.cursor, true, Now(st));
    var cut := Invalidate(st, s);
    var held := MemorySet(cut, v, true, w.evicted);
    var next := Persist(held, v);
    WriteIs(st, w);
    PersistRest(cut, v, true, w.evicted);
    PersistRest(held, v, true, w.evicted);
    PersistAsync(cut, v, true, w.evicted);
    PersistAsync(held, v, true, w.evicted);
    hide Persist, MemorySet, Schedules, Next, Watch;
    PersistSchedules(held, v);
    StartWatch(st, held, next, v);
    ClockWatch(next, Now(st), |st.tasks|, v, false);
  }

  lemma {:induction false} WriteIs(st: State, w: Step)
    requires Enabled(st, w) && (w.Set? || w.Patch?) && Writes(st, w, w.session) && w.kept
    ensures !st.closed
    ensures
      var v := View(w.session, w.cursor, true, Now(st));
      Next(st, w) == Persist(MemorySet(Invalidate(st, w.session), v, true, w.evicted), v).(clock := Now(st))
  {
    hide Persist, MemorySet, Invalidate;
  }

  lemma {:induction false} StartWatch(st: State, held: State, next: State, v: View)
    requires Inv(st) && v.birth == Now(st) && st.enabled && !st.closed
    requires held.tasks == st.tasks && Schedules(held, next, v)
    requires held.sessionGens == next.sessionGens == st.sessionGens[v.session := Gen(st, v.session) + 1]
    requires SameRest(st, held) && SameRest(held, next) && next.hydrations == st.hydrations
    ensures Watch(next, |st.tasks|, v, false)
  {
    InvParts(st);
    OlderViews(st, v);
    hide Inv, TasksOk, HydrationsOk, StoreOk;
    StartOthers(st, held, next, v);
    hide OthersOk;
    assert next.tasks[|st.tasks|].ticket.sessionGen == Gen(next, v.session);
  }

  lemma {:induction false} OlderViews(st: State, v: View)
    requires Inv(st) && v.birth == Now(st)
    ensures forall k :: 0 <= k < |st.tasks| ==> st.tasks[k].view.birth < v.birth
    ensures ReadsOk(st.hydrations, v, false) && HoldsOk(st.store, v, false)
  {
    hide Core;
  }

  lemma {:induction false} StartOthers(st: State, held: State, next: State, v: View)
    requires TasksOk(st) && held.tasks == st.tasks && Schedules(held, next, v)
    requires forall k :: 0 <= k < |st.tasks| ==> st.tasks[k].view.birth < v.birth
    requires next.sessionGens == st.sessionGens[v.session := Gen(st, v.session) + 1]
    ensures OthersOk(next, |st.tasks|, v, false)
  {
    hide NewTicket;
    forall k | 0 <= k < |st.tasks| && st.tasks[k].view.session == v.session
      ensures next.tasks[k].view.birth < v.birth && !Matches(next, next.tasks[k].ticket)
    {
      assert TaskOk(st, st.tasks[k]);
    }
  }

  /** The store holds what the latest set or patch of the session wrote. */
  predicate StoresLatest(init: State, steps: seq<Step>, s: Session)
    requires ValidRun(init, steps)
  {
    s in Run(init, steps).store && Run(init, steps).store[s].birth == LastWrite(init, steps, s)
  }

  /**
   * When an update stays: a set or patch is kept in memory while the cache is on, and from then on no step concerns
   * its session.  Once its background write has ended, the store holds it if and only if the write did not find a
   * newer cursor in the store.
   */
  lemma {:induction false} LatestStoredIff(init: State, before: seq<Step>, w: Step, more: seq<Step>, s: Session)
    requires Initial(init) && ValidRun(init, before) && ValidRun(init, before + [w] + more)
    requires Writes(Run(init, before), w, s) && w.kept && Run(init, before).enabled
    requires Undisturbed(init, before + [w], more, s, |before| + 1)
    requires
      var i, tasks := |Run(init, before).tasks|, Run(init, before + [w] + more).tasks;
      i < |tasks| && tasks[i].phase.Finished?
    ensures LastWrite(init, before + [w] + more, s) == |before| + 1
    ensures StoresLatest(init, before + [w] + more, s)
       <==> !Outranked(init, before + [w], more, |Run(init, before).tasks|, Written(before, w))
  {
    WritesWhat(Run(init, before), w, s);
    hide *;
    WrittenIs(before, w);
    var i, v := |Run(init, before).tasks|, Written(before, w);
    var first := before + [w];
    assert first[..|first| - 1] == before;
    PrefixValid(init, first, more);
    RunLast(init, first);
    RunInv(init, before);
    LastWriteSnoc(init, first, s);
    LastWriteLeft(init, first, more, s, v.birth);
    WriteStarts(Run(init, before), w);
    RunWatch(init, first, more, i, v);
    WatchEnds(Run(init, first + more), i, v, Outranked(init, first, more, i, v));
    StoresIs(init, first + more, s);
  }

  lemma {:induction false} WritesWhat(st: State, w: Step, s: Session)
    requires Writes(st, w, s)
    ensures (w.Set? || w.Patch?) && w.session == s
  {
  }

  lemma {:induction false} WrittenIs(steps: seq<Step>, w: Step)
    requires w.Set? || w.Patch?
    ensures Written(steps, w) == View(w.session, w.cursor, true, |steps| + 1)
  {
  }

  lemma {:induction false} StoresIs(init: State, steps: seq<Step>, s: Session)
    requires ValidRun(init, steps)
    ensures StoresLatest(init, steps, s)
       <==> s in Run(init, steps).store && Run(init, steps).store[s].birth == LastWrite(init, steps, s)
  {
  }

  lemma {:induction false} WatchEnds(st: State, i: nat, v: View, outranked: bool)
    requires Watch(st, i, v, outranked)
    ensures i < |st.tasks|
    ensures st.tasks[i].phase.Finished? ==>
              (v.session in st.store && st.store[v.session].birth == v.birth <==> !outranked)
  {
    hide OthersOk, ReadsOk, HeadOk, Current;
  }

  /** A set or patch whose view memory refuses for its size leaves nothing behind: it is never held or stored. */
  lemma {:induction false} RefusedNeverStored(init: State, before: seq<Step>, w: Step, more: seq<Step>, s: Session)
    requires Initial(init) && ValidRun(init, before) && ValidRun(init, before + [w] + more)
    requires Writes(Run(init, before), w, s) && !w.kept
    ensures Views(Run(init, before + [w] + more), (v: View) => v.birth != |before| + 1)
  {
    var p := (v: View) => v.birth != |before| + 1;
    assert forall v: View :: v.birth > |before| + 1 ==> p(v);
    WritesWhat(Run(init, before), w, s);
    var first := before + [w];
    assert first[..|first| - 1] == before;
    hide Run, ValidRun, Initial, Inv, Enabled, Next, Writes;
    PrefixValid(init, first, more);
    RunLast(init, first);
    RunInv(init, before);
    RefusedViews(Run(init, before), w, p);
    ViewsLater(init, first, more, p);
  }

  lemma {:induction false} RefusedViews(st: State, w: Step, p: View -> bool)
    requires Inv(st) && Enabled(st, w) && (w.Set? || w.Patch?) && Writes(st, w, w.session) && !w.kept
    requires forall v: View :: v.birth <= st.clock ==> p(v)
    ensures Views(Next(st, w), p)
  {
    hide Core, Gen;
  }

  // ---------------------------------------------------------------------------------
  // A hydrate that brings back an outdated view undoes even a write that has reached the store.

  /** The steps of one background write. */
  function PutRun(k: nat): seq<Step> {
    [TaskStart(k), TaskBarrier(k), TaskOpenTx(k), TxGet, TxPut]
  }

  /** Nothing stands in the way of the background write. */
  predicate Clearway(st: State, k: nat) {
    && k < |st.tasks| && st.tasks[k].phase.Scheduled? && Current(st, st.tasks[k])
    && st.txs == [] && st.mutations == [] && st.done == 0
    && var v := st.tasks[k].view;
       v.session in st.store ==> st.store[v.session].cursor <= v.cursor
  }

  function Staged(st: State, k: nat, steps: nat, phase: Phase, txs: seq<Tx>): State
    requires k < |st.tasks|
  {
    st.(clock := st.clock + steps, tasks := st.tasks[k := st.tasks[k].(phase := phase)], txs := txs)
  }

  function AfterPut(st: State, k: nat): State
    requires k < |st.tasks|
  {
    var v := st.tasks[k].view;
    st.(clock := st.clock + 5, tasks := st.tasks[k := st.tasks[k].(phase := Finished)],
        pending := Unlisted(st.pending, v.session, k), store := st.store[v.session := v])
  }

  lemma {:induction false} PutStages(st: State, k: nat)
    requires Clearway(st, k)
    ensures
      && Enabled(st, TaskStart(k)) && Next(st, TaskStart(k)) == Staged(st, k, 1, AwaitBarrier(0), [])
      && Enabled(Staged(st, k, 1, AwaitBarrier(0), []), TaskBarrier(k))
      && Next(Staged(st, k, 1, AwaitBarrier(0), []), TaskBarrier(k)) == Staged(st, k, 2, AwaitDb, [])
      && Enabled(Staged(st, k, 2, AwaitDb, []), TaskOpenTx(k))
      && Next(Staged(st, k, 2, AwaitDb, []), TaskOpenTx(k)) == Staged(st, k, 3, InTx, [WriteTx(k, false)])
  {
  }

  lemma {:induction false} PutEnds(st: State, k: nat)
    requires Clearway(st, k)
    ensures
      && Enabled(Staged(st, k, 3, InTx, [WriteTx(k, false)]), TxGet)
      && Next(Staged(st, k, 3, InTx, [WriteTx(k, false)]), TxGet) == Staged(st, k, 4, InTx, [WriteTx(k, true)])
      && Enabled(Staged(st, k, 4, InTx, [WriteTx(k, true)]), TxPut)
      && Next(Staged(st, k, 4, InTx, [WriteTx(k, true)]), TxPut) == AfterPut(st, k)
  {
    hide Unlisted;
  }

  lemma {:induction false} RunPut(init: State, first: seq<Step>, k: nat)
    requires ValidRun(init, first) && Clearway(Run(init, first), k)
    ensures k < |Run(init, first).tasks|
    ensures ValidRun(init, first + PutRun(k)) && Run(init, first + PutRun(k)) == AfterPut(Run(init, first), k)
  {
    hide *;
    var more := PutRun(k);
    PutRunIs(k);
    Exists(Run(init, first), k);
    PutStages(Run(init, first), k);
    PutEnds(Run(init, first), k);
    assert first + more[..0] == first && more[..5] == more;
    RunMore(init, first, more, 0);
    RunMore(init, first, more, 1);
    RunMore(init, first, more, 2);
    RunMore(init, first, more, 3);
    RunMore(init, first, more, 4);
  }

  /** The losing run, with the write of the new view put into the store before the hydrate ends. */
  function UndoingRun(s: Session, t: Session, cursor: int): seq<Step> {
    ReadRun(s, t, cursor) + PutRun(0) + [HydrateFinish(0, true, {})] + PutRun(2)
  }

  lemma {:induction false} PutRunIs(k: nat)
    ensures |PutRun(k)| == 5 && PutRun(k)[0] == TaskStart(k) && PutRun(k)[1] == TaskBarrier(k)
    ensures PutRun(k)[2] == TaskOpenTx(k) && PutRun(k)[3] == TxGet && PutRun(k)[4] == TxPut
  {
  }

  lemma {:induction false} Exists(st: State, k: nat)
    requires Clearway(st, k)
    ensures k < |st.tasks|
  {
  }

  lemma {:induction false} UndoingRunIs(s: Session, t: Session, cursor: int)
    ensures
      var steps := UndoingRun(s, t, cursor);
      && steps == ReadRun(s, t, cursor) + PutRun(0) + [HydrateFinish(0, true, {})] + PutRun(2)
      && |steps| > 2 && steps[0] == Set(s, cursor, true, {}) && (steps[1].Set? && steps[1].session == t)
      && forall i :: 2 <= i < |steps| ==> !steps[i].Set? && !steps[i].Patch?
  {
  }

  lemma {:induction false} ReadClears(st: State, s: Session, v: View)
    requires HasRead(st, s, v, v.cursor)
    ensures Clearway(st, 0) && AfterPut(st, 0).store == map[s := View(s, v.cursor, true, 1)]
  {
  }

  lemma {:induction false} FinishAfterPut(st: State, s: Session, v: View)
    requires HasRead(st, s, v, v.cursor) && v.wellFormed && v.session == s
    ensures Enabled(AfterPut(st, 0), HydrateFinish(0, true, {}))
    ensures
      var back := Next(AfterPut(st, 0), HydrateFinish(0, true, {}));
      Clearway(back, 2) && AfterPut(back, 2).store == map[s := v]
  {
  }

  /**
   * The write of the set has reached the store, the hydrate brings back the view it read before that, and with
   * equal cursors its own write then replaces the newer view in the store.
   */
  lemma {:induction false} HydrateUndoesWrite(init: State, s: Session, t: Session, v: View)
    requires Initial(init) && init.enabled && s != t && init.store == map[s := v] && v.wellFormed
    ensures ValidRun(init, ReadRun(s, t, v.cursor) + PutRun(0)) && ValidRun(init, UndoingRun(s, t, v.cursor))
    ensures Run(init, ReadRun(s, t, v.cursor) + PutRun(0)).store == map[s := View(s, v.cursor, true, 1)]
    ensures Run(init, UndoingRun(s, t, v.cursor)).store == map[s := v] && v.birth == 0
    ensures LastWrite(init, UndoingRun(s, t, v.cursor), s) == 1
  {
    hide *;
    InitialStored(init, s, v);
    UndoingRunIs(s, t, v.cursor);
    var first := ReadRun(s, t, v.cursor);
    var put := first + PutRun(0);
    RunRead(init, s, t, v, v.cursor);
    ReadClears(Run(init, first), s, v);
    RunPut(init, first, 0);
    FinishAfterPut(Run(init, first), s, v);
    RunStep(init, put, HydrateFinish(0, true, {}));
    RunPut(init, put + [HydrateFinish(0, true, {})], 2);
    LastWriteOnce(init, UndoingRun(s, t, v.cursor), s);
  }
}
