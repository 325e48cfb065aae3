/**
 * The durable session cache of packages/dashboard/src/durable-session-cache.ts as a state machine.
 *
 * Every synchronous stretch of code between two awaits is one step, so a run is any interleaving of
 * calls, background writes, hydrations and database transactions.  Read-write transactions run one at
 * a time in the order they were created; mutations wait for each other through the mutation barrier.
 * One cache instance per namespace, database operations succeed, and no call is made after `close`.
 *
 * The clock counts steps, so a view's `birth` names the call that wrote its content: a view with birth
 * `b > 0` was written by step number `b - 1`, and birth 0 means it was stored before the run.
 */
module DurableCache {
  import opened Common

  type Session = string

  /** A cached session view: only what the cache looks at, and where its content came from. */
  datatype View = View(session: Session, cursor: int, wellFormed: bool, birth: nat)

  /** A queued mutation of the store; `at` is the clock when it was enqueued. */
  datatype Mutation = DeleteOne(session: Session, at: nat) | ClearAll(at: nat)

  predicate Affects(m: Mutation, s: Session) {
    m.ClearAll? || m.session == s
  }

  /** The generations an asynchronous operation captured, and how many mutations existed then. */
  datatype Ticket = Ticket(session: Session, cacheGen: nat, sessionGen: nat, base: nat)

  datatype Phase = Scheduled | AwaitBarrier(upto: nat) | AwaitDb | InTx | Finished

  datatype Task = Task(ticket: Ticket, view: View, aborted: bool, phase: Phase)

  datatype HydratePhase = AtBarrier | AtDb | Got(stored: Option<View>) | Over

  datatype Hydration = Hydration(ticket: Ticket, phase: HydratePhase)

  /** A read-write transaction; `put` says that its put request has been issued. */
  datatype Tx = WriteTx(task: nat, put: bool) | MutationTx | EvictTx(session: Session)

  datatype State = State(
    clock: nat,
    enabled: bool, closed: bool, everEnabled: bool,
    cacheGen: nat, sessionGens: map<Session, nat>,
    memory: map<Session, View>,
    tasks: seq<Task>, pending: map<Session, nat>, hydrations: seq<Hydration>,
    mutations: seq<Mutation>, done: nat, mutationOpen: bool,
    txs: seq<Tx>, store: map<Session, View>,
    deletedAt: map<Session, nat>, clearedAt: nat)

  /** The stamp of the step taken in `st`. */
  function Now(st: State): nat {
    st.clock + 1
  }

  function Gen(st: State, s: Session): nat {
    if s in st.sessionGens then st.sessionGens[s] else 0
  }

  /** The clock of the latest delete of `s` or clear of the cache that the cache must honour. */
  function KilledAt(st: State, s: Session): nat {
    Max(if s in st.deletedAt then st.deletedAt[s] else 0, st.clearedAt)
  }

  predicate Stale(st: State, v: View) {
    v.birth < KilledAt(st, v.session)
  }

  predicate Matches(st: State, t: Ticket) {
    st.cacheGen == t.cacheGen && Gen(st, t.session) == t.sessionGen
  }

  /** `isCurrent` of `persist`. */
  predicate Current(st: State, t: Task) {
    !t.aborted && !st.closed && st.enabled && Matches(st, t.ticket)
  }

  // ---------------------------------------------------------------------------------
  // The steps.

  datatype Step =
    | Set(session: Session, cursor: int, kept: bool, evicted: set<Session>)
    | Patch(session: Session, cursor: int, kept: bool, evicted: set<Session>)
    | Delete(session: Session)
    | Clear
    | SetEnabled(next: bool)
    | Close
    | Hydrate(session: Session)
    | TaskStart(i: nat)
    | TaskBarrier(i: nat)
    | TaskOpenTx(i: nat)
    | TxGet
    | TxPut
    | MutationOpenTx
    | TxClearSome(sessions: set<Session>)
    | TxMutation
    | EvictOpenTx(session: Session)
    | TxEvict
    | HydrateBarrier(j: nat)
    | HydrateRead(j: nat)
    | HydrateFinish(j: nat, kept: bool, evicted: set<Session>)

  function NewTicket(st: State, s: Session): Ticket {
    Ticket(s, st.cacheGen, Gen(st, s), |st.mutations|)
  }

  function Abort(tasks: seq<Task>, i: nat): seq<Task> {
    if i < |tasks| then tasks[i := tasks[i].(aborted := true)] else tasks
  }

  /** `cancelPendingWrites`. */
  function AbortPending(tasks: seq<Task>, pending: map<Session, nat>): (r: seq<Task>)
    ensures |r| == |tasks|
    ensures forall k :: 0 <= k < |r| ==> r[k] == tasks[k] || r[k] == tasks[k].(aborted := true)
  {
    seq(|tasks|, k requires 0 <= k < |tasks| => if k in pending.Values then tasks[k].(aborted := true) else tasks[k])
  }

  /** `persist`: cancel the session's pending write and schedule this one. */
  function Persist(st: State, v: View): State {
    if !st.enabled || st.closed then st
    else
      var s := v.session;
      var tasks := if s in st.pending then Abort(st.tasks, st.pending[s]) else st.tasks;
      st.(tasks := tasks + [Task(NewTicket(st, s), v, false, Scheduled)], pending := st.pending[s := |st.tasks|])
  }

  /** `memory.set`: the entry may be refused for its size, and others may be evicted. */
  function MemorySet(st: State, v: View, kept: bool, evicted: set<Session>): State {
    st.(memory := (if kept then st.memory[v.session := v] else st.memory - {v.session})
                  - (evicted - if kept then {v.session} else {}))
  }

  function Write(st: State, s: Session, cursor: int, kept: bool, evicted: set<Session>): State {
    var v := View(s, cursor, true, Now(st));
    var held := MemorySet(Invalidate(st, s), v, kept, evicted);
    if kept then Persist(held, v) else held
  }

  /** `invalidateSession`. */
  function Invalidate(st: State, s: Session): State {
    st.(sessionGens := st.sessionGens[s := Gen(st, s) + 1])
  }

  function DoDelete(st: State, s: Session): State {
    var tasks := if s in st.pending then Abort(st.tasks, st.pending[s]) else st.tasks;
    var cut := Invalidate(st, s).(
      memory := st.memory - {s}, tasks := tasks, pending := st.pending - {s},
      deletedAt := if st.everEnabled then st.deletedAt[s := Now(st)] else st.deletedAt);
    if st.enabled then cut.(mutations := st.mutations + [DeleteOne(s, Now(st))]) else cut
  }

  /** `clearDurableState`. */
  function ClearState(st: State): State {
    st.(cacheGen := st.cacheGen + 1, tasks := AbortPending(st.tasks, st.pending), pending := map[],
        mutations := st.mutations + [ClearAll(Now(st))])
  }

  function DoClear(st: State): State {
    ClearState(st).(memory := map[], clearedAt := Now(st))
  }

  function DoSetEnabled(st: State, next: bool): State {
    if st.enabled == next then st
    else if next then st.(enabled := true, everEnabled := true)
    else ClearState(st).(enabled := false)
  }

  function DoClose(st: State): State {
    st.(closed := true, cacheGen := st.cacheGen + 1, tasks := AbortPending(st.tasks, st.pending), pending := map[])
  }

  function DoHydrate(st: State, s: Session): State {
    if s in st.memory || !st.enabled then st
    else st.(hydrations := st.hydrations + [Hydration(NewTicket(st, s), AtBarrier)])
  }

  function SetPhase(st: State, i: nat, phase: Phase): State
    requires i < |st.tasks|
  {
    st.(tasks := st.tasks[i := st.tasks[i].(phase := phase)])
  }

  /** A task that settles also leaves `pendingWrites`. */
  function Finish(st: State, i: nat): State
    requires i < |st.tasks|
  {
    st.(tasks := st.tasks[i := st.tasks[i].(phase := Finished)],
        pending := Unlisted(st.pending, st.tasks[i].view.session, i))
  }

  function Unlisted(pending: map<Session, nat>, s: Session, i: nat): map<Session, nat> {
    if s in pending && pending[s] == i then pending - {s} else pending
  }

  function SetHydration(st: State, j: nat, phase: HydratePhase): State
    requires j < |st.hydrations|
  {
    st.(hydrations := st.hydrations[j := st.hydrations[j].(phase := phase)])
  }

  predicate HeadIs(st: State, tx: Tx) {
    st.txs != [] && st.txs[0] == tx
  }

  /** The head of the transaction queue is the write of an existing task. */
  predicate HeadWrites(st: State, put: bool) {
    st.txs != [] && st.txs[0].WriteTx? && st.txs[0].put == put && st.txs[0].task < |st.tasks|
  }

  predicate Enabled(st: State, step: Step) {
    match step
    case Set(_, _, _, _) => !st.closed
    case Patch(_, _, _, _) => !st.closed
    case Delete(_) => !st.closed
    case Clear => !st.closed
    case SetEnabled(_) => !st.closed
    case Close => !st.closed
    case Hydrate(_) => !st.closed
    case TaskStart(i) => i < |st.tasks| && st.tasks[i].phase.Scheduled?
    case TaskBarrier(i) =>
      i < |st.tasks| && st.tasks[i].phase.AwaitBarrier? && st.tasks[i].phase.upto <= st.done
    case TaskOpenTx(i) => i < |st.tasks| && st.tasks[i].phase.AwaitDb?
    case TxGet => HeadWrites(st, false)
    case TxPut => HeadWrites(st, true)
    case MutationOpenTx => !st.mutationOpen && st.done < |st.mutations|
    case TxClearSome(_) => HeadIs(st, MutationTx) && st.done < |st.mutations| && st.mutations[st.done].ClearAll?
    case TxMutation => HeadIs(st, MutationTx) && st.done < |st.mutations|
    case EvictOpenTx(_) => true
    case TxEvict => st.txs != [] && st.txs[0].EvictTx?
    case HydrateBarrier(j) =>
      j < |st.hydrations| && st.hydrations[j].phase.AtBarrier? && st.hydrations[j].ticket.base <= st.done
    case HydrateRead(j) => j < |st.hydrations| && st.hydrations[j].phase.AtDb?
    case HydrateFinish(j, _, _) => j < |st.hydrations| && st.hydrations[j].phase.Got?
  }

  function DoTxGet(st: State): State
    requires HeadWrites(st, false)
  {
    var i := st.txs[0].task;
    if Skips(st, st.tasks[i]) then Finish(st, i).(txs := st.txs[1..])
    else st.(txs := [WriteTx(i, true)] + st.txs[1..])
  }

  /** The write is outdated, or the store holds a newer cursor. */
  predicate Skips(st: State, t: Task) {
    !Current(st, t) || (t.view.session in st.store && st.store[t.view.session].cursor > t.view.cursor)
  }

  function DoTxPut(st: State): State
    requires HeadWrites(st, true)
  {
    var i := st.txs[0].task;
    var v := st.tasks[i].view;
    Finish(st, i).(txs := st.txs[1..], store := st.store[v.session := v])
  }

  function DoTxMutation(st: State): State
    requires HeadIs(st, MutationTx) && st.done < |st.mutations|
  {
    var m := st.mutations[st.done];
    st.(txs := st.txs[1..], done := st.done + 1, mutationOpen := false,
        store := if m.ClearAll? then map[] else st.store - {m.session})
  }

  function DoHydrateFinish(st: State, j: nat, kept: bool, evicted: set<Session>): State
    requires j < |st.hydrations| && st.hydrations[j].phase.Got?
  {
    var h := st.hydrations[j];
    var over := SetHydration(st, j, Over);
    if h.ticket.session in st.memory || !st.enabled || st.closed || !Matches(st, h.ticket) || h.phase.stored.None?
    then over
    else if !h.phase.stored.value.wellFormed || h.phase.stored.value.session != h.ticket.session then
      over.(txs := st.txs + [EvictTx(h.ticket.session)])
    else
      var held := MemorySet(over, h.phase.stored.value, kept, evicted);
      if kept then Persist(held, h.phase.stored.value) else held
  }

  function Apply(st: State, step: Step): State
    requires Enabled(st, step)
  {
    match step
    case Set(s, cursor, kept, evicted) => Write(st, s, cursor, kept, evicted)
    case Patch(s, cursor, kept, evicted) =>
      if s in st.memory then Write(st, s, cursor, kept, evicted) else Invalidate(st, s)
    case Delete(s) => DoDelete(st, s)
    case Clear => DoClear(st)
    case SetEnabled(next) => DoSetEnabled(st, next)
    case Close => DoClose(st)
    case Hydrate(s) => DoHydrate(st, s)
    case TaskStart(i) =>
      if Current(st, st.tasks[i]) then SetPhase(st, i, AwaitBarrier(|st.mutations|)) else Finish(st, i)
    case TaskBarrier(i) => if Current(st, st.tasks[i]) then SetPhase(st, i, AwaitDb) else Finish(st, i)
    case TaskOpenTx(i) =>
      if Current(st, st.tasks[i]) then SetPhase(st, i, InTx).(txs := st.txs + [WriteTx(i, false)]) else Finish(st, i)
    case TxGet => DoTxGet(st)
    case TxPut => DoTxPut(st)
    case MutationOpenTx => st.(mutationOpen := true, txs := st.txs + [MutationTx])
    case TxClearSome(sessions) => st.(store := st.store - sessions)
    case TxMutation => DoTxMutation(st)
    case EvictOpenTx(s) => st.(txs := st.txs + [EvictTx(s)])
    case TxEvict => st.(txs := st.txs[1..], store := st.store - {st.txs[0].session})
    case HydrateBarrier(j) => SetHydration(st, j, AtDb)
    case HydrateRead(j) =>
      var s := st.hydrations[j].ticket.session;
      SetHydration(st, j, Got(if s in st.store then Some(st.store[s]) else None))
    case HydrateFinish(j, kept, evicted) => DoHydrateFinish(st, j, kept, evicted)
  }

  function Next(st: State, step: Step): State
    requires Enabled(st, step)
  {
    Apply(st, step).(clock := Now(st))
  }

  // ---------------------------------------------------------------------------------
  // The invariant.

  /** A mutation that will still remove `s` from the store. */
  predicate Covered(st: State, s: Session) {
    exists i :: st.done <= i < |st.mutations| && Affects(st.mutations[i], s)
  }

  /** A view that is in the store or on its way: stale only if about to be removed, and older than that. */
  predicate Settled(st: State, v: View) {
    && (Stale(st, v) ==> Covered(st, v.session))
    && (forall i :: st.done <= i < |st.mutations| && Affects(st.mutations[i], v.session) ==>
          v.birth < st.mutations[i].at)
  }

  /** A ticket that still matches has seen no mutation of its session since it was drawn. */
  predicate TicketOk(st: State, t: Ticket) {
    && t.cacheGen <= st.cacheGen && t.sessionGen <= Gen(st, t.session) && t.base <= |st.mutations|
    && (Matches(st, t) ==> forall i :: t.base <= i < |st.mutations| ==> !Affects(st.mutations[i], t.session))
  }

  predicate TaskOk(st: State, t: Task) {
    && TicketOk(st, t.ticket)
    && t.view.session == t.ticket.session
    && (Matches(st, t.ticket) ==> !Stale(st, t.view))
    && (t.phase.AwaitBarrier? ==> t.ticket.base <= t.phase.upto <= |st.mutations|)
    && (t.phase.AwaitDb? || t.phase.InTx? ==> t.ticket.base <= st.done)
  }

  predicate HydrationOk(st: State, h: Hydration) {
    && TicketOk(st, h.ticket)
    && (h.phase.AtDb? || h.phase.Got? ==> h.ticket.base <= st.done)
    && (h.phase.Got? && h.phase.stored.Some? ==>
          && h.phase.stored.value.session == h.ticket.session
          && (Matches(st, h.ticket) ==> !Stale(st, h.phase.stored.value)))
  }

  predicate BasicOk(st: State) {
    && st.done <= |st.mutations|
    && (st.mutationOpen ==> st.done < |st.mutations|)
    && (st.enabled ==> st.everEnabled)
  }

  predicate MemoryOk(st: State) {
    forall s :: s in st.memory ==>
      st.memory[s].session == s && !Stale(st, st.memory[s])
  }

  predicate TasksOk(st: State) {
    forall i :: 0 <= i < |st.tasks| ==> TaskOk(st, st.tasks[i])
  }

  predicate HydrationsOk(st: State) {
    forall j :: 0 <= j < |st.hydrations| ==> HydrationOk(st, st.hydrations[j])
  }

  predicate StoreOk(st: State) {
    forall s :: s in st.store ==> st.store[s].session == s && Settled(st, st.store[s])
  }

  /** Only the head may have issued its put; one transaction per write, at most one for mutations. */
  predicate QueueOk(st: State) {
    && (forall k :: 0 <= k < |st.txs| && st.txs[k].WriteTx? ==>
          && st.txs[k].task < |st.tasks|
          && st.tasks[st.txs[k].task].phase.InTx?
          && (st.txs[k].put ==> k == 0 && Settled(st, st.tasks[st.txs[k].task].view)))
    && (forall k :: 0 <= k < |st.txs| && st.txs[k].MutationTx? ==> st.mutationOpen)
    && (forall k, l :: 0 <= k < l < |st.txs| && st.txs[k].MutationTx? ==> !st.txs[l].MutationTx?)
    && (forall k, l :: 0 <= k < l < |st.txs| && st.txs[k].WriteTx? && st.txs[l].WriteTx? ==>
          st.txs[k].task != st.txs[l].task)
  }

  /** The store holds something, or is about to. */
  predicate HoldsOrPuts(st: State) {
    st.store != map[] || HeadWrites(st, true)
  }

  predicate ClearPending(st: State) {
    exists i :: st.done <= i < |st.mutations| && st.mutations[i].ClearAll?
  }

  predicate DisabledOk(st: State) {
    !st.enabled && st.everEnabled && HoldsOrPuts(st) ==> ClearPending(st)
  }

  predicate Core(st: State) {
    BasicOk(st) && MemoryOk(st) && TasksOk(st) && HydrationsOk(st) && StoreOk(st) && QueueOk(st) && DisabledOk(st)
  }

  /** Every view anywhere in the cache, in flight or stored, satisfies `p`. */
  ghost predicate Views(st: State, p: View -> bool) {
    && (forall s :: s in st.memory ==> p(st.memory[s]))
    && (forall i :: 0 <= i < |st.tasks| ==> p(st.tasks[i].view))
    && (forall j :: 0 <= j < |st.hydrations| ==>
          st.hydrations[j].phase.Got? && st.hydrations[j].phase.stored.Some? ==> p(st.hydrations[j].phase.stored.value))
    && (forall s :: s in st.store ==> p(st.store[s]))
  }

  function BornBy(now: nat): View -> bool {
    (v: View) => v.birth <= now
  }

  ghost predicate Kills(st: State, now: nat) {
    forall s :: KilledAt(st, s) <= now
  }

  /** No view was born, and no kill recorded, after stamp `now`. */
  ghost predicate Times(st: State, now: nat) {
    Kills(st, now) && Views(st, BornBy(now))
  }

  ghost predicate Inv(st: State) {
    Core(st) && Times(st, st.clock)
  }

  predicate Initial(st: State) {
    && st.clock == 0 && !st.closed && st.everEnabled == st.enabled
    && st.cacheGen == 0 && st.sessionGens == map[] && st.memory == map[]
    && st.tasks == [] && st.pending == map[] && st.hydrations == []
    && st.mutations == [] && st.done == 0 && !st.mutationOpen && st.txs == []
    && st.deletedAt == map[] && st.clearedAt == 0
    && (forall s :: s in st.store ==> st.store[s].session == s && st.store[s].birth == 0)
  }

  lemma {:induction false} InitialInv(st: State)
    requires Initial(st)
    ensures Inv(st)
  {
  }

  // ---------------------------------------------------------------------------------
  // Every step keeps the invariant.

  /** The fields that decide what is stale, settled or fenced are the same in both states. */
  predicate SameFences(a: State, b: State) {
    && a.cacheGen == b.cacheGen && a.sessionGens == b.sessionGens && a.mutations == b.mutations && a.done == b.done
    && a.deletedAt == b.deletedAt && a.clearedAt == b.clearedAt
  }

  lemma {:induction false} FenceFrame(a: State, b: State)
    requires SameFences(a, b)
    ensures forall v :: Stale(a, v) <==> Stale(b, v)
    ensures forall v :: Settled(a, v) <==> Settled(b, v)
    ensures forall t :: TaskOk(a, t) <==> TaskOk(b, t)
    ensures forall h :: HydrationOk(a, h) <==> HydrationOk(b, h)
  {
  }

  /** What a step may do to the background writes: abort some, and add new ones at the end. */
  predicate TasksGrow(a: State, b: State) {
    && |a.tasks| <= |b.tasks|
    && forall i :: 0 <= i < |a.tasks| ==> b.tasks[i] == a.tasks[i] || b.tasks[i] == a.tasks[i].(aborted := true)
  }

  /** The queue stays in order when nothing joins or leaves it. */
  lemma {:induction false} QueueKeep(a: State, b: State)
    requires QueueOk(a) && b.txs == a.txs && b.mutationOpen == a.mutationOpen && TasksGrow(a, b)
    requires HeadWrites(a, true) ==> Settled(b, a.tasks[a.txs[0].task].view)
    ensures QueueOk(b)
    ensures HeadWrites(b, true) <==> HeadWrites(a, true)
  {
    hide Settled;
  }

  /** The queue stays in order when its head leaves, and the new head has not issued a put. */
  lemma {:induction false} QueuePop(a: State, b: State)
    requires QueueOk(a) && a.txs != [] && b.txs == a.txs[1..]
    requires |b.tasks| == |a.tasks|
    requires forall i :: 0 <= i < |a.tasks| && !(a.txs[0].WriteTx? && a.txs[0].task == i) ==> b.tasks[i] == a.tasks[i]
    requires b.mutationOpen == if a.txs[0].MutationTx? then false else a.mutationOpen
    ensures QueueOk(b) && !HeadWrites(b, true)
  {
    hide Settled;
    assert forall k :: 0 <= k < |b.txs| ==> b.txs[k] == a.txs[k + 1];
  }

  lemma {:induction false} GrowCore(a: State, b: State)
    requires Core(a) && SameFences(a, b) && TasksGrow(a, b)
    requires forall i :: |a.tasks| <= i < |b.tasks| ==> TaskOk(b, b.tasks[i])
    requires MemoryOk(b) && HydrationsOk(b)
    requires b.txs == a.txs && b.store == a.store && b.mutationOpen == a.mutationOpen
    requires b.enabled == a.enabled && b.everEnabled == a.everEnabled
    ensures Core(b)
  {
    FenceFrame(a, b);
    forall i | 0 <= i < |a.tasks| ensures TaskOk(b, b.tasks[i]) {
      assert TaskOk(a, a.tasks[i]);
    }
    QueueKeep(a, b);
    hide TaskOk, Settled, Stale, HydrationOk, MemoryOk, HydrationsOk, QueueOk;
  }

  lemma {:induction false} PersistCore(st: State, v: View)
    requires Core(st) && !Stale(st, v)
    ensures Core(Persist(st, v))
  {
    var st' := Persist(st, v);
    FenceFrame(st, st');
    if st.enabled && !st.closed {
      assert TaskOk(st', Task(NewTicket(st, v.session), v, false, Scheduled));
      hide TaskOk, Settled, Stale, HydrationOk;
      GrowCore(st, st');
    }
  }

  lemma {:induction false} MemorySetCore(st: State, v: View, kept: bool, evicted: set<Session>)
    requires Core(st) && !Stale(st, v)
    ensures Core(MemorySet(st, v, kept, evicted))
  {
    var st' := MemorySet(st, v, kept, evicted);
    FenceFrame(st, st');
    hide TaskOk, Settled, Stale, HydrationOk;
    GrowCore(st, st');
  }

  lemma {:induction false} InvalidateCore(st: State, s: Session)
    requires Core(st)
    ensures Core(Invalidate(st, s))
  {
    var st' := Invalidate(st, s);
    assert forall v :: Settled(st, v) <==> Settled(st', v);
    forall i | 0 <= i < |st.tasks| ensures TaskOk(st', st.tasks[i]) {
      assert TaskOk(st, st.tasks[i]);
    }
    forall j | 0 <= j < |st.hydrations| ensures HydrationOk(st', st.hydrations[j]) {
      assert HydrationOk(st, st.hydrations[j]);
    }
    assert MemoryOk(st');
    hide TaskOk, Settled, Stale, HydrationOk;
  }

  lemma {:induction false} WriteCore(st: State, s: Session, cursor: int, kept: bool, evicted: set<Session>)
    requires Core(st) && KilledAt(st, s) <= st.clock
    ensures Core(Write(st, s, cursor, kept, evicted))
  {
    var v := View(s, cursor, true, Now(st));
    InvalidateCore(st, s);
    hide Core;
    MemorySetCore(Invalidate(st, s), v, kept, evicted);
    if kept { PersistCore(MemorySet(Invalidate(st, s), v, kept, evicted), v); }
  }

  // Deleting and clearing.

  lemma {:induction false} SettledDelete(st: State, s: Session, v: View)
    requires Settled(st, v) && v.birth <= st.clock && st.done <= |st.mutations|
    requires !st.enabled && st.everEnabled ==> ClearPending(st)
    ensures Settled(DoDelete(st, s), v)
  {
    var st' := DoDelete(st, s);
    assert forall i :: 0 <= i < |st.mutations| ==> st'.mutations[i] == st.mutations[i];
    if Stale(st, v) {
      var i :| st.done <= i < |st.mutations| && Affects(st.mutations[i], v.session);
      assert Affects(st'.mutations[i], v.session);
    } else if Stale(st', v) {
      if st.enabled {
        assert Affects(st'.mutations[|st.mutations|], v.session);
      } else {
        var i :| st.done <= i < |st.mutations| && st.mutations[i].ClearAll?;
        assert Affects(st'.mutations[i], v.session);
      }
    }
  }

  /** A delete outdates every ticket of its session and leaves the others alone. */
  lemma {:induction false} DeleteTicket(st: State, s: Session, t: Ticket)
    requires TicketOk(st, t)
    ensures TicketOk(DoDelete(st, s), t)
    ensures Matches(DoDelete(st, s), t) ==> Matches(st, t) && t.session != s
  {
    var st' := DoDelete(st, s);
    assert forall i :: 0 <= i < |st.mutations| ==> st'.mutations[i] == st.mutations[i];
  }

  lemma {:induction false} DeleteTask(st: State, s: Session, t: Task)
    requires TaskOk(st, t)
    ensures TaskOk(DoDelete(st, s), t) && TaskOk(DoDelete(st, s), t.(aborted := true))
  {
    DeleteTicket(st, s, t.ticket);
    hide TicketOk, Matches;
  }

  lemma {:induction false} DeleteHydration(st: State, s: Session, h: Hydration)
    requires HydrationOk(st, h)
    ensures HydrationOk(DoDelete(st, s), h)
  {
    DeleteTicket(st, s, h.ticket);
    hide TicketOk, Matches;
  }

  lemma {:induction false} DeleteShape(st: State, s: Session)
    requires BasicOk(st) && MemoryOk(st)
    ensures BasicOk(DoDelete(st, s)) && MemoryOk(DoDelete(st, s))
    ensures TasksGrow(st, DoDelete(st, s)) && |DoDelete(st, s).tasks| == |st.tasks|
    ensures DoDelete(st, s).hydrations == st.hydrations
  {
  }

  lemma {:induction false} DeleteCore(st: State, s: Session)
    requires Core(st) && Times(st, st.clock)
    ensures Core(DoDelete(st, s))
  {
    hide Settled, TaskOk, HydrationOk, MemoryOk, Stale, QueueOk, StoreOk, DisabledOk, DoDelete, Times, Views;
    var st' := DoDelete(st, s);
    DeleteShape(st, s);
    DeleteQueues(st, s);
    DeleteStore(st, s);
    forall i | 0 <= i < |st.tasks| ensures TaskOk(st', st'.tasks[i]) {
      DeleteTask(st, s, st.tasks[i]);
    }
    forall j | 0 <= j < |st.hydrations| ensures HydrationOk(st', st'.hydrations[j]) {
      DeleteHydration(st, s, st.hydrations[j]);
    }
  }

  lemma {:induction false} DeleteStore(st: State, s: Session)
    requires StoreOk(st) && DisabledOk(st) && Times(st, st.clock) && st.done <= |st.mutations|
    ensures StoreOk(DoDelete(st, s)) && DisabledOk(DoDelete(st, s))
  {
    var st' := DoDelete(st, s);
    hide Settled;
    forall x | x in st.store ensures Settled(st', st.store[x]) {
      SettledDelete(st, s, st.store[x]);
    }
    if ClearPending(st) {
      var i :| st.done <= i < |st.mutations| && st.mutations[i].ClearAll?;
      assert st'.mutations[i].ClearAll?;
    }
  }

  lemma {:induction false} DeleteQueues(st: State, s: Session)
    requires QueueOk(st) && DisabledOk(st) && Times(st, st.clock) && st.done <= |st.mutations|
    ensures QueueOk(DoDelete(st, s))
  {
    hide Settled;
    if HeadWrites(st, true) { SettledDelete(st, s, st.tasks[st.txs[0].task].view); }
    QueueKeep(st, DoDelete(st, s));
  }

  lemma {:induction false} TaskOkAborted(st: State, t: Task)
    ensures TaskOk(st, t) <==> TaskOk(st, t.(aborted := true))
  {
  }

  /** A clear covers every view born before it, and outdates every ticket. */
  lemma {:induction false} ClearFences(st: State, st': State)
    requires BasicOk(st)
    requires st'.mutations == st.mutations + [ClearAll(Now(st))] && st'.done == st.done
    requires st'.cacheGen == st.cacheGen + 1 && st'.sessionGens == st.sessionGens
    ensures forall v :: Settled(st, v) && v.birth <= st.clock ==> Settled(st', v)
    ensures forall t :: TaskOk(st, t) ==> TaskOk(st', t)
    ensures forall h :: HydrationOk(st, h) ==> HydrationOk(st', h)
    ensures ClearPending(st')
  {
    assert st'.mutations[|st.mutations|].ClearAll?;
    assert forall i :: 0 <= i < |st.mutations| ==> st'.mutations[i] == st.mutations[i];
    forall s ensures Covered(st', s) {
      assert Affects(st'.mutations[|st.mutations|], s);
    }
  }

  lemma {:induction false} ClearedCore(st: State, st': State)
    requires Core(st) && Times(st, st.clock)
    requires st'.mutations == st.mutations + [ClearAll(Now(st))] && st'.done == st.done
    requires st'.cacheGen == st.cacheGen + 1 && st'.sessionGens == st.sessionGens
    requires |st'.tasks| == |st.tasks| && TasksGrow(st, st')
    requires st'.hydrations == st.hydrations && st'.txs == st.txs && st'.store == st.store
    requires st'.mutationOpen == st.mutationOpen && (st'.enabled ==> st'.everEnabled)
    requires MemoryOk(st')
    ensures Core(st')
  {
    ClearFences(st, st');
    QueueKeep(st, st');
    hide Settled, TaskOk, HydrationOk, MemoryOk, Stale, ClearPending, QueueOk;
    forall i | 0 <= i < |st.tasks| ensures TaskOk(st', st'.tasks[i]) {
      TaskOkAborted(st', st.tasks[i]);
    }
  }

  lemma {:induction false} ClearCore(st: State)
    requires Core(st) && Times(st, st.clock)
    ensures Core(DoClear(st))
  {
    hide AbortPending;
    ClearedCore(st, DoClear(st));
  }

  lemma {:induction false} SetEnabledCore(st: State, next: bool)
    requires Core(st) && Times(st, st.clock)
    ensures Core(DoSetEnabled(st, next))
  {
    var st' := DoSetEnabled(st, next);
    if st.enabled && !next {
      assert MemoryOk(st');
      hide AbortPending;
      ClearedCore(st, st');
    } else if !st.enabled && next {
      FenceFrame(st, st');
      hide Settled, TaskOk, HydrationOk, Stale;
    }
  }

  lemma {:induction false} CloseFences(st: State)
    ensures forall v :: Settled(st, v) ==> Settled(DoClose(st), v)
    ensures forall t :: TaskOk(st, t) ==> TaskOk(DoClose(st), t)
    ensures forall h :: HydrationOk(st, h) ==> HydrationOk(DoClose(st), h)
    ensures MemoryOk(st) ==> MemoryOk(DoClose(st))
  {
    hide AbortPending;
  }

  lemma {:induction false} CloseCore(st: State)
    requires Core(st)
    ensures Core(DoClose(st))
  {
    var st' := DoClose(st);
    CloseFences(st);
    hide AbortPending, Settled, TaskOk, HydrationOk, MemoryOk, Stale;
    QueueKeep(st, st');
    forall i | 0 <= i < |st.tasks| ensures TaskOk(st', st'.tasks[i]) {
      TaskOkAborted(st', st.tasks[i]);
    }
    hide QueueOk;
  }

  // Background writes.

  /** A task that no transaction names may change its phase. */
  lemma {:induction false} SetPhaseCore(st: State, i: nat, phase: Phase, pending: map<Session, nat>)
    requires Core(st) && i < |st.tasks| && !st.tasks[i].phase.InTx?
    requires TaskOk(st, st.tasks[i].(phase := phase))
    ensures Core(SetPhase(st, i, phase).(pending := pending))
  {
    var st' := SetPhase(st, i, phase).(pending := pending);
    FenceFrame(st, st');
    hide Settled, TaskOk, HydrationOk, Stale;
    assert forall k :: 0 <= k < |st.tasks| && k != i ==> st'.tasks[k] == st.tasks[k];
    assert st'.tasks[i] == st.tasks[i].(phase := phase);
  }

  lemma {:induction false} FinishCore(st: State, i: nat)
    requires Core(st) && i < |st.tasks| && !st.tasks[i].phase.InTx?
    ensures Core(Finish(st, i))
  {
    assert TaskOk(st, st.tasks[i]) && TaskOk(st, st.tasks[i].(phase := Finished));
    SetPhaseCore(st, i, Finished, Finish(st, i).pending);
  }

  lemma {:induction false} OpenTxCore(st: State, i: nat)
    requires Core(st) && i < |st.tasks| && st.tasks[i].phase.AwaitDb?
    ensures Core(SetPhase(st, i, InTx).(txs := st.txs + [WriteTx(i, false)]))
  {
    var st' := SetPhase(st, i, InTx).(txs := st.txs + [WriteTx(i, false)]);
    assert TaskOk(st, st.tasks[i]) && TaskOk(st, st.tasks[i].(phase := InTx));
    FenceFrame(st, st');
    hide Settled, TaskOk, HydrationOk, Stale;
    assert forall k :: 0 <= k < |st.tasks| && k != i ==> st'.tasks[k] == st.tasks[k];
    assert st'.tasks[i] == st.tasks[i].(phase := InTx);
    assert forall k :: 0 <= k < |st.txs| ==> st'.txs[k] == st.txs[k];
  }

  /** The head transaction ends: its task is finished and it leaves the queue. */
  lemma {:induction false} PopWriteCore(st: State, st': State)
    requires Core(st) && st.txs != [] && st.txs[0].WriteTx? && st.txs[0].task < |st.tasks|
    requires st'.tasks == st.tasks[st.txs[0].task := st.tasks[st.txs[0].task].(phase := Finished)]
    requires SameFences(st, st') && st'.txs == st.txs[1..] && StoreOk(st')
    requires st'.memory == st.memory && st'.hydrations == st.hydrations
    requires st'.enabled == st.enabled && st'.everEnabled == st.everEnabled && st'.mutationOpen == st.mutationOpen
    requires !st.enabled && st.everEnabled && st'.store != map[] ==> ClearPending(st)
    ensures Core(st')
  {
    var i := st.txs[0].task;
    assert TaskOk(st, st.tasks[i]) && TaskOk(st, st.tasks[i].(phase := Finished));
    FenceFrame(st, st');
    QueuePop(st, st');
    hide Settled, TaskOk, HydrationOk, Stale, QueueOk, StoreOk;
    forall k | 0 <= k < |st'.tasks| ensures TaskOk(st', st'.tasks[k]) {
      assert k != i ==> st'.tasks[k] == st.tasks[k] && TaskOk(st, st.tasks[k]);
    }
  }

  /** A write that is still current when its get returns is settled: fresh, and no removal is waiting. */
  lemma {:induction false} CurrentSettled(st: State, t: Task)
    requires TaskOk(st, t) && Current(st, t) && t.phase.InTx?
    ensures Settled(st, t.view)
  {
  }

  lemma {:induction false} TxGetCore(st: State)
    requires Core(st) && HeadWrites(st, false)
    ensures Core(DoTxGet(st))
  {
    hide MemoryOk, TasksOk, HydrationsOk, QueueOk, StoreOk, Settled;
    if Skips(st, st.tasks[st.txs[0].task]) {
      SkipStore(st);
      PopWriteCore(st, DoTxGet(st));
    } else {
      HeadInTx(st);
      CurrentSettled(st, st.tasks[st.txs[0].task]);
      IssuePutCore(st);
    }
  }

  lemma {:induction false} HeadInTx(st: State)
    requires TasksOk(st) && QueueOk(st) && st.txs != [] && st.txs[0].WriteTx?
    ensures st.txs[0].task < |st.tasks| && TaskOk(st, st.tasks[st.txs[0].task])
    ensures st.tasks[st.txs[0].task].phase.InTx?
    ensures st.txs[0].put ==> Settled(st, st.tasks[st.txs[0].task].view)
  {
    hide TaskOk, Settled;
  }

  lemma {:induction false} SkipStore(st: State)
    requires StoreOk(st) && HeadWrites(st, false) && Skips(st, st.tasks[st.txs[0].task])
    ensures StoreOk(DoTxGet(st))
  {
    hide Settled, Skips;
    FenceFrame(st, DoTxGet(st));
  }

  lemma {:induction false} PutStore(st: State)
    requires StoreOk(st) && HeadWrites(st, true) && Settled(st, st.tasks[st.txs[0].task].view)
    ensures StoreOk(DoTxPut(st))
  {
    FenceFrame(st, DoTxPut(st));
    hide Settled;
  }

  lemma {:induction false} IssuePutCore(st: State)
    requires Core(st) && HeadWrites(st, false) && st.enabled
    requires Settled(st, st.tasks[st.txs[0].task].view)
    ensures Core(st.(txs := [WriteTx(st.txs[0].task, true)] + st.txs[1..]))
  {
    var i := st.txs[0].task;
    var st' := st.(txs := [WriteTx(i, true)] + st.txs[1..]);
    FenceFrame(st, st');
    hide Settled, TaskOk, HydrationOk, Stale;
    assert forall k :: 1 <= k < |st.txs| ==> st'.txs[k] == st.txs[k];
    assert st'.txs[0] == WriteTx(i, true);
  }

  lemma {:induction false} TxPutCore(st: State)
    requires Core(st) && HeadWrites(st, true)
    ensures Core(DoTxPut(st))
  {
    hide MemoryOk, TasksOk, HydrationsOk, QueueOk, StoreOk, Settled;
    HeadInTx(st);
    PutStore(st);
    PopWriteCore(st, DoTxPut(st));
  }

  // Mutations and evictions.

  lemma {:induction false} ShrinkStoreCore(st: State, gone: set<Session>)
    requires Core(st)
    ensures Core(st.(store := st.store - gone))
  {
    var st' := st.(store := st.store - gone);
    FenceFrame(st, st');
    hide Settled, TaskOk, HydrationOk, Stale;
  }

  /** A transaction that writes nothing joins the queue. */
  lemma {:induction false} PushTxCore(st: State, tx: Tx)
    requires Core(st) && (tx.EvictTx? || (tx.MutationTx? && !st.mutationOpen && st.done < |st.mutations|))
    ensures Core(st.(mutationOpen := st.mutationOpen || tx.MutationTx?, txs := st.txs + [tx]))
  {
    var st' := st.(mutationOpen := st.mutationOpen || tx.MutationTx?, txs := st.txs + [tx]);
    FenceFrame(st, st');
    hide Settled, TaskOk, HydrationOk, Stale;
    assert forall k :: 0 <= k < |st.txs| ==> st'.txs[k] == st.txs[k];
  }

  lemma {:induction false} TxEvictCore(st: State)
    requires Core(st) && st.txs != [] && st.txs[0].EvictTx?
    ensures Core(st.(txs := st.txs[1..], store := st.store - {st.txs[0].session}))
  {
    var st' := st.(txs := st.txs[1..], store := st.store - {st.txs[0].session});
    FenceFrame(st, st');
    QueuePop(st, st');
    hide Settled, TaskOk, HydrationOk, Stale, QueueOk;
  }

  /** Passing a mutation keeps every view settled that it does not affect. */
  lemma {:induction false} PassMutation(st: State, v: View)
    requires st.done < |st.mutations| && Settled(st, v) && !Affects(st.mutations[st.done], v.session)
    ensures Settled(st.(done := st.done + 1), v)
  {
    if Covered(st, v.session) {
      var i :| st.done <= i < |st.mutations| && Affects(st.mutations[i], v.session);
      assert i != st.done;
    }
  }

  lemma {:induction false} TxMutationCore(st: State)
    requires Core(st) && HeadIs(st, MutationTx) && st.done < |st.mutations|
    ensures Core(DoTxMutation(st))
  {
    var st' := DoTxMutation(st);
    var passed := st.(done := st.done + 1);
    forall s | s in st'.store ensures Settled(passed, st'.store[s]) {
      PassMutation(st, st.store[s]);
    }
    FenceFrame(passed, st');
    assert forall t :: TaskOk(st, t) ==> TaskOk(passed, t);
    assert forall h :: HydrationOk(st, h) ==> HydrationOk(passed, h);
    assert MemoryOk(st');
    if ClearPending(st) && st.mutations[st.done].DeleteOne? {
      var i :| st.done <= i < |st.mutations| && st.mutations[i].ClearAll?;
      assert st'.done <= i && st'.mutations[i].ClearAll?;
    }
    QueuePop(st, st');
    hide Settled, TaskOk, HydrationOk, Stale, MemoryOk, QueueOk;
  }

  // Hydration.

  lemma {:induction false} HydrateCore(st: State, s: Session)
    requires Core(st)
    ensures Core(DoHydrate(st, s))
  {
    var st' := DoHydrate(st, s);
    FenceFrame(st, st');
    assert HydrationOk(st, Hydration(NewTicket(st, s), AtBarrier));
    hide Settled, TaskOk, HydrationOk, Stale;
  }

  lemma {:induction false} SetHydrationCore(st: State, j: nat, phase: HydratePhase)
    requires Core(st) && j < |st.hydrations| && HydrationOk(st, st.hydrations[j].(phase := phase))
    ensures Core(SetHydration(st, j, phase))
  {
    var st' := SetHydration(st, j, phase);
    FenceFrame(st, st');
    hide Settled, TaskOk, HydrationOk, Stale;
  }

  /** A hydration that still matches reads nothing stale: every earlier removal is done, no later one exists. */
  lemma {:induction false} ReadFresh(st: State, h: Hydration)
    requires StoreOk(st) && HydrationOk(st, h) && h.phase.AtDb?
    ensures
      var s := h.ticket.session;
      HydrationOk(st, h.(phase := Got(if s in st.store then Some(st.store[s]) else None)))
  {
    if Matches(st, h.ticket) {
      assert !Covered(st, h.ticket.session);
    }
  }

  lemma {:induction false} HydrateFinishCore(st: State, j: nat, kept: bool, evicted: set<Session>)
    requires Core(st) && j < |st.hydrations| && st.hydrations[j].phase.Got?
    ensures Core(DoHydrateFinish(st, j, kept, evicted))
  {
    var h := st.hydrations[j];
    assert HydrationOk(st, h) && HydrationOk(st, h.(phase := Over));
    SetHydrationCore(st, j, Over);
    var over := SetHydration(st, j, Over);
    FenceFrame(st, over);
    hide Core, HydrationOk, Settled, TaskOk, Stale;
    if h.ticket.session in st.memory || !st.enabled || st.closed || !Matches(st, h.ticket) || h.phase.stored.None? {
    } else {
      var v := h.phase.stored.value;
      if !v.wellFormed || v.session != h.ticket.session {
        PushTxCore(over, EvictTx(h.ticket.session));
        assert over.(mutationOpen := over.mutationOpen || false) == over;
      } else {
        GotFresh(st, h);
        MemorySetCore(over, v, kept, evicted);
        var held := MemorySet(over, v, kept, evicted);
        FenceFrame(over, held);
        if kept { PersistCore(held, v); }
      }
    }
  }

  lemma {:induction false} GotFresh(st: State, h: Hydration)
    requires HydrationOk(st, h) && h.phase.Got? && h.phase.stored.Some? && Matches(st, h.ticket)
    ensures !Stale(st, h.phase.stored.value)
  {
  }

  // ---------------------------------------------------------------------------------
  // Whole runs.

  lemma {:induction false} ApplyCore(st: State, step: Step)
    requires Inv(st) && Enabled(st, step)
    ensures Core(Apply(st, step))
  {
    hide Core, Current, Settled;
    match step
    case Set(s, cursor, kept, evicted) => WriteCore(st, s, cursor, kept, evicted);
    case Patch(s, cursor, kept, evicted) =>
      if s in st.memory { WriteCore(st, s, cursor, kept, evicted); } else { InvalidateCore(st, s); }
    case Delete(s) => DeleteCore(st, s);
    case Clear => ClearCore(st);
    case SetEnabled(next) => SetEnabledCore(st, next);
    case Close => CloseCore(st);
    case Hydrate(s) => HydrateCore(st, s);
    case TaskStart(i) => TaskStartCore(st, i);
    case TaskBarrier(i) => TaskBarrierCore(st, i);
    case TaskOpenTx(i) => if Current(st, st.tasks[i]) { OpenTxCore(st, i); } else { FinishCore(st, i); }
    case TxGet => TxGetCore(st);
    case TxPut => TxPutCore(st);
    case MutationOpenTx => PushTxCore(st, MutationTx);
    case TxClearSome(sessions) => ShrinkStoreCore(st, sessions);
    case TxMutation => TxMutationCore(st);
    case EvictOpenTx(s) => PushTxCore(st, EvictTx(s));
    case TxEvict => TxEvictCore(st);
    case HydrateBarrier(j) => HydrateBarrierCore(st, j);
    case HydrateRead(j) => HydrateReadCore(st, j);
    case HydrateFinish(j, kept, evicted) => HydrateFinishCore(st, j, kept, evicted);
  }

  lemma {:induction false} TaskStartCore(st: State, i: nat)
    requires Core(st) && i < |st.tasks| && st.tasks[i].phase.Scheduled?
    ensures Core(Apply(st, TaskStart(i)))
  {
    if Current(st, st.tasks[i]) {
      assert TaskOk(st, st.tasks[i]) && TaskOk(st, st.tasks[i].(phase := AwaitBarrier(|st.mutations|)));
      SetPhaseCore(st, i, AwaitBarrier(|st.mutations|), st.pending);
    } else {
      FinishCore(st, i);
    }
  }

  lemma {:induction false} TaskBarrierCore(st: State, i: nat)
    requires Core(st) && Enabled(st, TaskBarrier(i))
    ensures Core(Apply(st, TaskBarrier(i)))
  {
    if Current(st, st.tasks[i]) {
      assert TaskOk(st, st.tasks[i]) && TaskOk(st, st.tasks[i].(phase := AwaitDb));
      SetPhaseCore(st, i, AwaitDb, st.pending);
    } else {
      FinishCore(st, i);
    }
  }

  lemma {:induction false} HydrateBarrierCore(st: State, j: nat)
    requires Core(st) && Enabled(st, HydrateBarrier(j))
    ensures Core(SetHydration(st, j, AtDb))
  {
    assert HydrationOk(st, st.hydrations[j]) && HydrationOk(st, st.hydrations[j].(phase := AtDb));
    SetHydrationCore(st, j, AtDb);
  }

  lemma {:induction false} HydrateReadCore(st: State, j: nat)
    requires Core(st) && Enabled(st, HydrateRead(j))
    ensures Core(Apply(st, HydrateRead(j)))
  {
    var h := st.hydrations[j];
    assert HydrationOk(st, h);
    ReadFresh(st, h);
    var s := h.ticket.session;
    SetHydrationCore(st, j, Got(if s in st.store then Some(st.store[s]) else None));
  }

  lemma {:induction false} PersistViews(st: State, v: View, p: View -> bool)
    requires Views(st, p) && p(v)
    ensures Views(Persist(st, v), p)
  {
  }

  lemma {:induction false} MemorySetViews(st: State, v: View, kept: bool, evicted: set<Session>, p: View -> bool)
    requires Views(st, p) && p(v)
    ensures Views(MemorySet(st, v, kept, evicted), p)
  {
  }

  lemma {:induction false} WriteViews(
    st: State, s: Session, cursor: int, kept: bool, evicted: set<Session>, p: View -> bool)
    requires Views(st, p) && p(View(s, cursor, true, Now(st)))
    ensures Views(Write(st, s, cursor, kept, evicted), p)
  {
    var v, cut := View(s, cursor, true, Now(st)), Invalidate(st, s);
    assert Views(cut, p);
    hide Views;
    MemorySetViews(cut, v, kept, evicted, p);
    if kept { PersistViews(MemorySet(cut, v, kept, evicted), v, p); }
  }

  lemma {:induction false} CallViews(st: State, step: Step, p: View -> bool)
    requires Views(st, p) && Enabled(st, step)
    requires step.Delete? || step.Clear? || step.SetEnabled? || step.Close?
    ensures Views(Apply(st, step), p)
  {
    hide AbortPending;
  }

  lemma {:induction false} PhaseViews(st: State, i: nat, phase: Phase, p: View -> bool)
    requires Views(st, p) && i < |st.tasks|
    ensures Views(SetPhase(st, i, phase), p) && Views(Finish(st, i), p) && p(st.tasks[i].view)
  {
    hide Unlisted;
  }

  lemma {:induction false} QueueViews(st: State, txs: seq<Tx>, p: View -> bool)
    requires Views(st, p)
    ensures Views(st.(txs := txs), p)
  {
  }

  lemma {:induction false} TaskViews(st: State, step: Step, p: View -> bool)
    requires Views(st, p) && Enabled(st, step) && (step.TaskStart? || step.TaskBarrier? || step.TaskOpenTx?)
    ensures Views(Apply(st, step), p)
  {
    hide Views, Current, Finish;
    PhaseViews(st, step.i, AwaitBarrier(|st.mutations|), p);
    PhaseViews(st, step.i, AwaitDb, p);
    PhaseViews(st, step.i, InTx, p);
    QueueViews(SetPhase(st, step.i, InTx), st.txs + [WriteTx(step.i, false)], p);
  }

  lemma {:induction false} TxViews(st: State, step: Step, p: View -> bool)
    requires Views(st, p) && Enabled(st, step) && (step.TxGet? || step.TxPut?)
    ensures Views(Apply(st, step), p)
  {
    var i := st.txs[0].task;
    PhaseViews(st, i, Finished, p);
    if step.TxGet? {
      hide Views, Skips, Finish;
      QueueViews(Finish(st, i), st.txs[1..], p);
      QueueViews(st, [WriteTx(i, true)] + st.txs[1..], p);
    }
  }

  lemma {:induction false} StoreViews(st: State, step: Step, p: View -> bool)
    requires Views(st, p) && Enabled(st, step)
    requires step.MutationOpenTx? || step.TxClearSome? || step.TxMutation? || step.EvictOpenTx? || step.TxEvict?
    ensures Views(Apply(st, step), p)
  {
    var st' := Apply(st, step);
    assert forall s :: s in st'.store ==> s in st.store && st'.store[s] == st.store[s];
    assert st'.memory == st.memory && st'.tasks == st.tasks && st'.hydrations == st.hydrations;
  }

  lemma {:induction false} SetHydrationViews(st: State, j: nat, phase: HydratePhase, p: View -> bool)
    requires Views(st, p) && j < |st.hydrations|
    requires phase.Got? && phase.stored.Some? ==> p(phase.stored.value)
    ensures Views(SetHydration(st, j, phase), p)
  {
  }

  lemma {:induction false} HydrationViews(st: State, step: Step, p: View -> bool)
    requires Views(st, p) && Enabled(st, step) && (step.Hydrate? || step.HydrateBarrier? || step.HydrateRead?)
    ensures Views(Apply(st, step), p)
  {
    if step.HydrateBarrier? {
      SetHydrationViews(st, step.j, AtDb, p);
    } else if step.HydrateRead? {
      var s := st.hydrations[step.j].ticket.session;
      SetHydrationViews(st, step.j, Got(if s in st.store then Some(st.store[s]) else None), p);
    }
  }

  lemma {:induction false} HydrateFinishViews(st: State, j: nat, kept: bool, evicted: set<Session>, p: View -> bool)
    requires Views(st, p) && j < |st.hydrations| && st.hydrations[j].phase.Got?
    ensures Views(DoHydrateFinish(st, j, kept, evicted), p)
  {
    var over, stored := SetHydration(st, j, Over), st.hydrations[j].phase.stored;
    assert stored.Some? ==> p(stored.value);
    SetHydrationViews(st, j, Over, p);
    hide Views;
    QueueViews(over, st.txs + [EvictTx(st.hydrations[j].ticket.session)], p);
    if stored.Some? {
      MemorySetViews(over, stored.value, kept, evicted, p);
      PersistViews(MemorySet(over, stored.value, kept, evicted), stored.value, p);
    }
  }

  /** Views are only ever created by writes; every other step moves, copies or drops them. */
  lemma {:induction false} ApplyViews(st: State, step: Step, p: View -> bool)
    requires Views(st, p) && Enabled(st, step)
    requires step.Set? || step.Patch? ==> p(View(step.session, step.cursor, true, Now(st)))
    ensures Views(Apply(st, step), p)
  {
    match step
    case Set(s, cursor, kept, evicted) => WriteViews(st, s, cursor, kept, evicted, p);
    case Patch(s, cursor, kept, evicted) => WriteViews(st, s, cursor, kept, evicted, p);
    case Delete(_) => CallViews(st, step, p);
    case Clear => CallViews(st, step, p);
    case SetEnabled(_) => CallViews(st, step, p);
    case Close => CallViews(st, step, p);
    case Hydrate(_) => HydrationViews(st, step, p);
    case HydrateBarrier(_) => HydrationViews(st, step, p);
    case HydrateRead(_) => HydrationViews(st, step, p);
    case HydrateFinish(j, kept, evicted) => HydrateFinishViews(st, j, kept, evicted, p);
    case TaskStart(_) => TaskViews(st, step, p);
    case TaskBarrier(_) => TaskViews(st, step, p);
    case TaskOpenTx(_) => TaskViews(st, step, p);
    case TxGet => TxViews(st, step, p);
    case TxPut => TxViews(st, step, p);
    case MutationOpenTx => StoreViews(st, step, p);
    case TxClearSome(_) => StoreViews(st, step, p);
    case TxMutation => StoreViews(st, step, p);
    case EvictOpenTx(_) => StoreViews(st, step, p);
    case TxEvict => StoreViews(st, step, p);
  }

  /** What only the calls delete, clear and setEnabled may change. */
  predicate SameKills(a: State, b: State) {
    a.deletedAt == b.deletedAt && a.clearedAt == b.clearedAt && a.everEnabled == b.everEnabled
  }

  lemma {:induction false} PersistKills(st: State, v: View, kept: bool, evicted: set<Session>)
    ensures SameKills(st, Persist(st, v)) && SameKills(st, MemorySet(st, v, kept, evicted))
  {
  }

  lemma {:induction false} WriteKills(st: State, s: Session, cursor: int, kept: bool, evicted: set<Session>)
    ensures SameKills(st, Write(st, s, cursor, kept, evicted)) && SameKills(st, Invalidate(st, s))
  {
    var v, cut := View(s, cursor, true, Now(st)), Invalidate(st, s);
    hide Persist, MemorySet;
    PersistKills(cut, v, kept, evicted);
    PersistKills(MemorySet(cut, v, kept, evicted), v, kept, evicted);
  }

  lemma {:induction false} HydrateKills(st: State, j: nat, kept: bool, evicted: set<Session>)
    requires j < |st.hydrations| && st.hydrations[j].phase.Got?
    ensures SameKills(st, DoHydrateFinish(st, j, kept, evicted))
  {
    hide Persist, MemorySet, Matches;
    var over, stored := SetHydration(st, j, Over), st.hydrations[j].phase.stored;
    if stored.Some? {
      PersistKills(over, stored.value, kept, evicted);
      PersistKills(MemorySet(over, stored.value, kept, evicted), stored.value, kept, evicted);
    }
  }

  lemma {:induction false} PhaseKills(st: State, i: nat, phase: Phase, txs: seq<Tx>)
    requires i < |st.tasks|
    ensures SameKills(st, SetPhase(st, i, phase)) && SameKills(st, SetPhase(st, i, phase).(txs := txs))
    ensures SameKills(st, Finish(st, i))
  {
    hide Unlisted;
  }

  lemma {:induction false} TxGetKills(st: State)
    requires HeadWrites(st, false)
    ensures SameKills(st, DoTxGet(st))
  {
    hide Skips, Finish;
    var i := st.txs[0].task;
    PhaseKills(st, i, Finished, []);
    var next := if Skips(st, st.tasks[i]) then Finish(st, i) else st;
    assert SameKills(st, next);
  }

  lemma {:induction false} TxPutKills(st: State)
    requires HeadWrites(st, true)
    ensures SameKills(st, DoTxPut(st))
  {
    hide Finish;
    PhaseKills(st, st.txs[0].task, Finished, []);
  }

  lemma {:induction false} OtherKills(st: State, step: Step)
    requires Enabled(st, step)
    requires !step.Delete? && !step.Clear? && !step.SetEnabled?
    ensures SameKills(st, Apply(st, step))
  {
    hide Write, Invalidate, DoHydrateFinish, DoTxGet, DoTxPut, DoDelete, DoClear, DoSetEnabled, Current, AbortPending;
    hide SetPhase, Finish;
    match step
    case Set(s, cursor, kept, evicted) => WriteKills(st, s, cursor, kept, evicted);
    case Patch(s, cursor, kept, evicted) => WriteKills(st, s, cursor, kept, evicted);
    case HydrateFinish(j, kept, evicted) => HydrateKills(st, j, kept, evicted);
    case TxGet => TxGetKills(st);
    case TxPut => TxPutKills(st);
    case TaskStart(i) => PhaseKills(st, i, AwaitBarrier(|st.mutations|), []);
    case TaskBarrier(i) => PhaseKills(st, i, AwaitDb, []);
    case TaskOpenTx(i) => PhaseKills(st, i, InTx, st.txs + [WriteTx(i, false)]);
    case Close =>
    case Hydrate(_) =>
    case MutationOpenTx =>
    case TxClearSome(_) =>
    case TxMutation =>
    case EvictOpenTx(_) =>
    case TxEvict =>
    case HydrateBarrier(_) =>
    case HydrateRead(_) =>
  }

  /** Only an honoured delete and a clear move the kill stamps, and they move them to now. */
  lemma {:induction false} ApplyKilled(st: State, step: Step, s: Session)
    requires Enabled(st, step) && KilledAt(st, s) <= st.clock
    ensures KilledAt(Apply(st, step), s)
         == if step.Clear? || (step == Delete(s) && st.everEnabled) then Now(st) else KilledAt(st, s)
  {
    if !step.Delete? && !step.Clear? && !step.SetEnabled? {
      OtherKills(st, step);
      hide Apply;
    } else {
      hide AbortPending, Abort;
    }
  }

  lemma {:induction false} ApplyTimes(st: State, step: Step)
    requires Times(st, st.clock) && Enabled(st, step)
    ensures Times(Apply(st, step), Now(st))
  {
    ApplyViews(st, step, BornBy(Now(st)));
    forall s ensures KilledAt(Apply(st, step), s) <= Now(st) {
      assert KilledAt(st, s) <= st.clock;
      ApplyKilled(st, step, s);
    }
  }

  /** Every step keeps the invariant. */
  lemma {:induction false} NextInv(st: State, step: Step)
    requires Inv(st) && Enabled(st, step)
    ensures Inv(Next(st, step))
  {
    ApplyCore(st, step);
    ApplyTimes(st, step);
    ClockFrame(Apply(st, step), Now(st));
  }

  lemma {:induction false} ClockFrame(st: State, clock: nat)
    requires Core(st) && Times(st, clock)
    ensures Inv(st.(clock := clock))
  {
    var st' := st.(clock := clock);
    FenceFrame(st, st');
    forall s ensures KilledAt(st', s) <= clock {
      assert KilledAt(st, s) <= clock;
    }
    hide TaskOk, Settled, Stale, HydrationOk, KilledAt, BornBy;
  }

  /** The step sequence can be taken from `st`. */
  predicate ValidRun(st: State, steps: seq<Step>)
    decreases |steps|, 0
  {
    if steps == [] then true
    else ValidRun(st, steps[..|steps| - 1]) && Enabled(Run(st, steps[..|steps| - 1]), steps[|steps| - 1])
  }

  function Run(st: State, steps: seq<Step>): State
    requires ValidRun(st, steps)
    decreases |steps|, 1
  {
    if steps == [] then st else Next(Run(st, steps[..|steps| - 1]), steps[|steps| - 1])
  }

  lemma {:induction false} RunLast(st: State, steps: seq<Step>)
    requires ValidRun(st, steps) && steps != []
    ensures ValidRun(st, steps[..|steps| - 1])
    ensures Enabled(Run(st, steps[..|steps| - 1]), steps[|steps| - 1])
    ensures Run(st, steps) == Next(Run(st, steps[..|steps| - 1]), steps[|steps| - 1])
  {
    hide Next, Enabled;
  }

  lemma {:induction false} RunInv(init: State, steps: seq<Step>)
    requires Initial(init) && ValidRun(init, steps)
    ensures Inv(Run(init, steps)) && Run(init, steps).clock == |steps|
  {
    if steps == [] {
      InitialInv(init);
      return;
    }
    hide Run, ValidRun, Inv, Apply, Enabled, Initial;
    RunLast(init, steps);
    RunInv(init, steps[..|steps| - 1]);
    NextInv(Run(init, steps[..|steps| - 1]), steps[|steps| - 1]);
  }

  /** The step writes new content for the session. */
  predicate WritesTo(step: Step, s: Session) {
    (step.Set? || step.Patch?) && step.session == s
  }

  /** The view's birth names the call of the run that wrote it; views stored before the run have birth 0. */
  function WrittenBy(steps: seq<Step>): View -> bool {
    (v: View) => v.birth == 0 || (v.birth <= |steps| && WritesTo(steps[v.birth - 1], v.session))
  }

  lemma {:induction false} RunProvenance(init: State, steps: seq<Step>)
    requires Initial(init) && ValidRun(init, steps)
    ensures Views(Run(init, steps), WrittenBy(steps))
  {
    if steps == [] { return; }
    hide Run, ValidRun, Next, Inv, Enabled, Views, WrittenBy, Initial;
    var n := |steps| - 1;
    RunLast(init, steps);
    RunInv(init, steps[..n]);
    RunProvenance(init, steps[..n]);
    ProvenanceStep(Run(init, steps[..n]), steps[..n], steps[n]);
    assert steps == steps[..n] + [steps[n]];
  }

  lemma {:induction false} ProvenanceStep(st: State, steps: seq<Step>, step: Step)
    requires Views(st, WrittenBy(steps)) && st.clock == |steps| && Enabled(st, step)
    ensures Views(Next(st, step), WrittenBy(steps + [step]))
  {
    hide Apply;
    assert forall v :: WrittenBy(steps)(v) ==> WrittenBy(steps + [step])(v);
    assert Views(st, WrittenBy(steps + [step]));
    ApplyViews(st, step, WrittenBy(steps + [step]));
    hide WrittenBy;
  }

  /** Step `j` is a delete of `s` or a clear that the durable layer honours. */
  predicate Kill(init: State, steps: seq<Step>, j: nat, s: Session)
    requires ValidRun(init, steps)
  {
    && j < |steps|
    && (steps[j].Clear? || (steps[j] == Delete(s) && EverEnabled(init, steps[..j])))
  }

  /** The cache was enabled at some point before: something a caller can know. */
  predicate EverEnabled(init: State, steps: seq<Step>) {
    init.enabled || SetEnabled(true) in steps
  }

  lemma {:induction false} EnabledSnoc(init: State, steps: seq<Step>, step: Step)
    ensures EverEnabled(init, steps + [step]) <==> EverEnabled(init, steps) || step == SetEnabled(true)
  {
  }

  lemma {:induction false} RunNone(init: State)
    ensures ValidRun(init, []) && Run(init, []) == init
    ensures Initial(init) ==> (init.everEnabled <==> EverEnabled(init, []))
  {
  }

  lemma {:induction false} RunEverEnabled(init: State, steps: seq<Step>)
    requires Initial(init) && ValidRun(init, steps)
    ensures Run(init, steps).everEnabled <==> EverEnabled(init, steps)
  {
    hide *;
    if steps == [] {
      RunNone(init);
      return;
    }
    var n := |steps| - 1;
    RunLast(init, steps);
    RunEverEnabled(init, steps[..n]);
    RunInv(init, steps[..n]);
    assert steps == steps[..n] + [steps[n]];
    EnabledSnoc(init, steps[..n], steps[n]);
    InvBounds(Run(init, steps[..n]), "");
    EverEnabledStep(Run(init, steps[..n]), steps[n]);
  }

  lemma {:induction false} InvBounds(st: State, s: Session)
    requires Inv(st)
    ensures KilledAt(st, s) <= st.clock && (st.enabled ==> st.everEnabled)
  {
    hide MemoryOk, TasksOk, HydrationsOk, StoreOk, QueueOk, DisabledOk, Views;
  }

  lemma {:induction false} EverEnabledStep(st: State, step: Step)
    requires Enabled(st, step) && (st.enabled ==> st.everEnabled)
    ensures Next(st, step).everEnabled <==> st.everEnabled || step == SetEnabled(true)
  {
    if !step.Delete? && !step.Clear? && !step.SetEnabled? {
      OtherKills(st, step);
      hide Apply;
    } else {
      hide AbortPending, Abort;
    }
  }

  lemma {:induction false} KillRecorded(init: State, steps: seq<Step>, j: nat, s: Session)
    requires Initial(init) && ValidRun(init, steps) && Kill(init, steps, j, s)
    ensures KilledAt(Run(init, steps), s) > j
  {
    hide Run, ValidRun, Apply, Inv, Enabled, KilledAt, Initial;
    var n := |steps| - 1;
    RunLast(init, steps);
    var st := Run(init, steps[..n]);
    RunInv(init, steps[..n]);
    InvBounds(st, s);
    ApplyKilled(st, steps[n], s);
    ClockKilled(Apply(st, steps[n]), Now(st), s);
    if j < n {
      assert steps[..n][..j] == steps[..j];
      KillRecorded(init, steps[..n], j, s);
    } else {
      RunEverEnabled(init, steps[..n]);
    }
  }

  lemma {:induction false} ClockKilled(st: State, clock: nat, s: Session)
    ensures KilledAt(st.(clock := clock), s) == KilledAt(st, s)
  {
  }

  lemma {:induction false} LaterWrite(init: State, steps: seq<Step>, j: nat, s: Session, v: View)
    requires Initial(init) && ValidRun(init, steps) && Kill(init, steps, j, s)
    requires v.session == s && !Stale(Run(init, steps), v) && WrittenBy(steps)(v)
    ensures j + 1 < v.birth <= |steps| && WritesTo(steps[v.birth - 1], s)
  {
    hide Run, ValidRun, KilledAt, Initial, EverEnabled;
    KillRecorded(init, steps, j, s);
  }

  /** All queued mutations have finished. */
  predicate MutationsDone(st: State) {
    st.done == |st.mutations|
  }

  lemma {:induction false} StoredFresh(st: State, s: Session)
    requires Inv(st) && s in st.store
    ensures st.store[s].session == s && (MutationsDone(st) ==> !Stale(st, st.store[s]))
    ensures forall i :: st.done <= i < |st.mutations| && Affects(st.mutations[i], s) ==>
              st.store[s].birth < st.mutations[i].at
  {
    hide MemoryOk, TasksOk, HydrationsOk, QueueOk, DisabledOk, Times;
    assert Settled(st, st.store[s]);
  }

  lemma {:induction false} HeldFresh(st: State, s: Session)
    requires Inv(st) && s in st.memory
    ensures st.memory[s].session == s && !Stale(st, st.memory[s])
  {
    hide StoreOk, TasksOk, HydrationsOk, QueueOk, DisabledOk, Times;
  }

  /**
   * No resurrection: under every interleaving, once the queued mutations have finished, a view in the
   * store was written after every delete of its session and every clear of the cache.
   */
  lemma {:induction false} NoResurrection(init: State, steps: seq<Step>, j: nat, s: Session)
    requires Initial(init) && ValidRun(init, steps) && Kill(init, steps, j, s)
    requires MutationsDone(Run(init, steps)) && s in Run(init, steps).store
    ensures
      var v := Run(init, steps).store[s];
      j + 1 < v.birth <= |steps| && WritesTo(steps[v.birth - 1], s)
  {
    hide Run, ValidRun, WrittenBy, Initial, Kill;
    RunInv(init, steps);
    RunProvenance(init, steps);
    var st := Run(init, steps);
    StoredFresh(st, s);
    LaterWrite(init, steps, j, s, st.store[s]);
  }

  /** Nothing dead is ever in memory, finished or not: hydration in particular never installs it. */
  lemma {:induction false} NoResurrectionInMemory(init: State, steps: seq<Step>, j: nat, s: Session)
    requires Initial(init) && ValidRun(init, steps) && Kill(init, steps, j, s)
    requires s in Run(init, steps).memory
    ensures
      var v := Run(init, steps).memory[s];
      j + 1 < v.birth <= |steps| && WritesTo(steps[v.birth - 1], s)
  {
    hide Run, ValidRun, WrittenBy, Initial, Kill;
    RunInv(init, steps);
    RunProvenance(init, steps);
    var st := Run(init, steps);
    HeldFresh(st, s);
    LaterWrite(init, steps, j, s, st.memory[s]);
  }

  /** The converse precision: a mutation removes only views written before it was requested. */
  lemma {:induction false} MutationRemovesOlder(init: State, steps: seq<Step>, s: Session)
    requires Initial(init) && ValidRun(init, steps) && Enabled(Run(init, steps), TxMutation)
    requires s in Run(init, steps).store && s !in Next(Run(init, steps), TxMutation).store
    ensures Run(init, steps).store[s].birth < Run(init, steps).mutations[Run(init, steps).done].at
  {
    hide Run, ValidRun, Inv, Initial;
    RunInv(init, steps);
    StoredFresh(Run(init, steps), s);
  }

  /** Disabling really empties the durable store: once the mutations and writes are through, nothing is left. */
  lemma {:induction false} DisabledStoreEmpty(init: State, steps: seq<Step>)
    requires Initial(init) && ValidRun(init, steps) && EverEnabled(init, steps)
    requires !Run(init, steps).enabled && MutationsDone(Run(init, steps))
    ensures Run(init, steps).store == map[]
  {
    hide Run, ValidRun, MemoryOk, TasksOk, HydrationsOk, StoreOk, QueueOk, Times, Initial, EverEnabled;
    RunInv(init, steps);
    RunEverEnabled(init, steps);
    assert !ClearPending(Run(init, steps));
  }

  // ---------------------------------------------------------------------------------
  // Deletes made before the cache was ever enabled.

  /** Before the cache was ever enabled nothing is in flight, and the store is what it was or less. */
  predicate NeverOk(st: State) {
    !st.everEnabled ==>
      && !st.enabled && st.tasks == [] && st.hydrations == []
      && (forall s :: s in st.store ==> st.store[s].birth == 0)
      && (forall i :: 0 <= i < |st.mutations| ==> st.mutations[i].ClearAll?)
      && (st.mutations != [] ==> st.clearedAt > 0)
  }

  /** What is in memory was written or was well-formed when it was read. */
  predicate MemoryWell(st: State) {
    forall s :: s in st.memory ==> st.memory[s].wellFormed
  }

  lemma {:induction false} NeverStep(st: State, step: Step)
    requires NeverOk(st) && Enabled(st, step)
    ensures NeverOk(Next(st, step))
  {
    if st.everEnabled {
      assert Next(st, step).everEnabled by { StaysEnabled(st, step); }
      return;
    }
    match step
    case Set(s, cursor, kept, evicted) => NeverWrites(st, s, cursor, kept, evicted);
    case Patch(s, cursor, kept, evicted) => NeverWrites(st, s, cursor, kept, evicted);
    case Delete(s) => NeverCalls(st, s);
    case Clear => NeverCalls(st, "");
    case TxMutation => NeverMutation(st);
    case _ => hide Write, DoHydrateFinish, DoTxGet, DoTxPut, SetPhase, Finish, Current, DoClear, DoDelete, DoTxMutation;
  }

  lemma {:induction false} NeverCalls(st: State, s: Session)
    requires NeverOk(st) && !st.everEnabled
    ensures NeverOk(DoDelete(st, s).(clock := Now(st))) && NeverOk(DoClear(st).(clock := Now(st)))
  {
  }

  lemma {:induction false} NeverMutation(st: State)
    requires NeverOk(st) && !st.everEnabled && HeadIs(st, MutationTx) && st.done < |st.mutations|
    ensures NeverOk(DoTxMutation(st).(clock := Now(st)))
  {
  }

  lemma {:induction false} StaysEnabled(st: State, step: Step)
    requires st.everEnabled && Enabled(st, step)
    ensures Next(st, step).everEnabled
  {
    if !step.Delete? && !step.Clear? && !step.SetEnabled? {
      OtherKills(st, step);
      hide Apply;
    }
  }

  lemma {:induction false} NeverWrites(st: State, s: Session, cursor: int, kept: bool, evicted: set<Session>)
    requires NeverOk(st) && !st.everEnabled
    ensures NeverOk(Write(st, s, cursor, kept, evicted).(clock := Now(st)))
    ensures NeverOk(Invalidate(st, s).(clock := Now(st)))
  {
  }

  lemma {:induction false} PersistMemory(st: State, v: View)
    ensures Persist(st, v).memory == st.memory
  {
    hide Abort;
  }

  lemma {:induction false} WellSet(st: State, v: View, kept: bool, evicted: set<Session>)
    requires MemoryWell(st) && v.wellFormed
    ensures MemoryWell(MemorySet(st, v, kept, evicted)) && MemoryWell(Persist(MemorySet(st, v, kept, evicted), v))
  {
    PersistMemory(MemorySet(st, v, kept, evicted), v);
    hide Persist;
  }

  lemma {:induction false} WellWrite(st: State, s: Session, cursor: int, kept: bool, evicted: set<Session>)
    requires MemoryWell(st)
    ensures MemoryWell(Write(st, s, cursor, kept, evicted)) && MemoryWell(Invalidate(st, s))
  {
    WellSet(Invalidate(st, s), View(s, cursor, true, Now(st)), kept, evicted);
    hide Persist, MemorySet;
  }

  lemma {:induction false} WellHydrated(st: State, j: nat, kept: bool, evicted: set<Session>)
    requires MemoryWell(st) && j < |st.hydrations| && st.hydrations[j].phase.Got?
    ensures MemoryWell(DoHydrateFinish(st, j, kept, evicted))
  {
    var over, stored := SetHydration(st, j, Over), st.hydrations[j].phase.stored;
    assert over.memory == st.memory && over.txs == st.txs;
    hide Persist, MemorySet, Matches, SetHydration;
    if stored.Some? && stored.value.wellFormed { WellSet(over, stored.value, kept, evicted); }
  }

  lemma {:induction false} TaskMemory(st: State, i: nat, phase: Phase)
    requires i < |st.tasks|
    ensures SetPhase(st, i, phase).memory == Finish(st, i).memory == st.memory
  {
    hide Unlisted;
  }

  lemma {:induction false} WellStep(st: State, step: Step)
    requires MemoryWell(st) && Enabled(st, step)
    ensures MemoryWell(Next(st, step))
  {
    hide Finish, SetPhase, Current, Abort, AbortPending, Write, Invalidate, DoHydrateFinish, Skips, DoDelete;
    match step
    case Set(s, cursor, kept, evicted) => WellWrite(st, s, cursor, kept, evicted);
    case Patch(s, cursor, kept, evicted) => WellWrite(st, s, cursor, kept, evicted);
    case HydrateFinish(j, kept, evicted) => WellHydrated(st, j, kept, evicted);
    case TxGet => TaskMemory(st, st.txs[0].task, Finished);
    case TxPut => TaskMemory(st, st.txs[0].task, Finished);
    case TaskStart(i) => TaskMemory(st, i, AwaitBarrier(|st.mutations|));
    case TaskBarrier(i) => TaskMemory(st, i, AwaitDb);
    case TaskOpenTx(i) => TaskMemory(st, i, InTx);
    case Delete(s) => WellDelete(st, s);
    case _ =>
  }

  lemma {:induction false} WellDelete(st: State, s: Session)
    ensures DoDelete(st, s).memory == st.memory - {s}
  {
    hide Abort;
  }

  lemma {:induction false} NeverRun(init: State, steps: seq<Step>)
    requires Initial(init) && ValidRun(init, steps)
    ensures NeverOk(Run(init, steps)) && MemoryWell(Run(init, steps))
  {
    if steps == [] { return; }
    hide *;
    var n := |steps| - 1;
    RunLast(init, steps);
    NeverRun(init, steps[..n]);
    NeverStep(Run(init, steps[..n]), steps[n]);
    WellStep(Run(init, steps[..n]), steps[n]);
  }

  /** Later writes carry later births, so what holds of all views and of these holds of all views later. */
  lemma {:induction false} ViewsLater(init: State, first: seq<Step>, more: seq<Step>, p: View -> bool)
    requires Initial(init) && ValidRun(init, first + more)
    requires ValidRun(init, first) && Views(Run(init, first), p)
    requires forall v: View :: v.birth > |first| ==> p(v)
    ensures Views(Run(init, first + more), p)
  {
    hide Run, ValidRun, Apply, Enabled, Views, Initial;
    if more == [] {
      assert first + more == first;
      return;
    }
    var n := |more| - 1;
    var before, steps := first + more[..n], first + more;
    assert steps[..|steps| - 1] == before;
    RunLast(init, steps);
    ViewsLater(init, first, more[..n], p);
    RunInv(init, before);
    var st, step := Run(init, before), steps[|steps| - 1];
    ApplyViews(st, step, p);
    ViewsClock(Apply(st, step), Now(st), p);
  }

  lemma {:induction false} ViewsClock(st: State, clock: nat, p: View -> bool)
    requires Views(st, p)
    ensures Views(st.(clock := clock), p)
  {
  }

  lemma {:induction false} KilledLater(init: State, first: seq<Step>, more: seq<Step>, s: Session)
    requires Initial(init) && ValidRun(init, first + more) && ValidRun(init, first)
    ensures KilledAt(Run(init, first + more), s) >= KilledAt(Run(init, first), s)
  {
    hide Run, ValidRun, Apply, Enabled, Inv, KilledAt, Initial;
    if more == [] {
      assert first + more == first;
      return;
    }
    var n := |more| - 1;
    var before, steps := first + more[..n], first + more;
    assert steps[..|steps| - 1] == before;
    RunLast(init, steps);
    KilledLater(init, first, more[..n], s);
    RunInv(init, before);
    var st, step := Run(init, before), steps[|steps| - 1];
    InvBounds(st, s);
    ApplyKilled(st, step, s);
    ClockKilled(Apply(st, step), Now(st), s);
  }

  /** The store holds a view of the session that a hydrate would take. */
  predicate StoredWell(st: State, s: Session) {
    s in st.store && st.store[s].wellFormed
  }

  /** A run ends with a view in memory that is no younger than its step `j`. */
  predicate Resurrected(init: State, steps: seq<Step>, j: nat, s: Session)
    requires ValidRun(init, steps)
  {
    s in Run(init, steps).memory && Run(init, steps).memory[s].birth <= j + 1
  }

  /** Steps that bring a deleted view back. */
  function Revival(s: Session): seq<Step> {
    [SetEnabled(true), Hydrate(s), HydrateBarrier(0), HydrateRead(0), HydrateFinish(0, true, {})]
  }

  /** After the delete nothing but a malformed stored view of the session is older than it. */
  lemma {:induction false} DeletedUnstored(st: State, s: Session, p: View -> bool)
    requires Inv(st) && NeverOk(st) && !st.everEnabled && Enabled(st, Delete(s))
    requires forall v: View :: p(v) <==> (v.session == s && v.birth <= Now(st) ==> !v.wellFormed)
    ensures !StoredWell(st, s) ==> Views(Next(st, Delete(s)), p)
  {
    hide TasksOk, HydrationsOk, QueueOk, DisabledOk, Times, Settled, Stale;
  }

  /** After the delete every view of the session is one stored before the run. */
  lemma {:induction false} DeletedInitial(st: State, s: Session, p: View -> bool)
    requires Inv(st) && NeverOk(st) && !st.everEnabled && Enabled(st, Delete(s))
    requires forall v: View :: p(v) <==> (v.session == s ==> v.birth == 0 || v.birth > Now(st))
    ensures Views(Next(st, Delete(s)), p)
  {
    hide TasksOk, HydrationsOk, QueueOk, DisabledOk, Times, Settled, Stale;
  }

  /** A delete after the cache was enabled, of a session it does not hold, or ahead of a queued clear is final. */
  lemma {:induction false} DeleteSticks(init: State, steps: seq<Step>, s: Session, more: seq<Step>)
    requires Initial(init) && ValidRun(init, steps) && Enabled(Run(init, steps), Delete(s))
    requires ValidRun(init, steps + [Delete(s)] + more)
    requires EverEnabled(init, steps) || !StoredWell(Run(init, steps), s) || ClearPending(Run(init, steps))
    ensures !Resurrected(init, steps + [Delete(s)] + more, |steps|, s)
  {
    hide Run, ValidRun, Enabled, Initial, EverEnabled;
    var all := steps + [Delete(s)] + more;
    if s !in Run(init, all).memory { return; }
    if EverEnabled(init, steps) {
      assert all[..|steps|] == steps && all[|steps|] == Delete(s);
      NoResurrectionInMemory(init, all, |steps|, s);
    } else if !StoredWell(Run(init, steps), s) {
      UnstoredSticks(init, steps, s, more);
    } else {
      ClearedSticks(init, steps, s, more);
    }
  }

  lemma {:induction false} UnstoredSticks(init: State, steps: seq<Step>, s: Session, more: seq<Step>)
    requires Initial(init) && ValidRun(init, steps) && Enabled(Run(init, steps), Delete(s))
    requires ValidRun(init, steps + [Delete(s)] + more)
    requires !EverEnabled(init, steps) && !StoredWell(Run(init, steps), s)
    ensures !Resurrected(init, steps + [Delete(s)] + more, |steps|, s)
  {
    hide Run, ValidRun, Enabled, Initial, EverEnabled, NeverOk, Inv, StoredWell, Views, Next;
    var st, first := Run(init, steps), steps + [Delete(s)];
    var p := (v: View) => v.session == s && v.birth <= Now(st) ==> !v.wellFormed;
    RunInv(init, steps);
    NeverRun(init, steps);
    RunEverEnabled(init, steps);
    RunStep(init, steps, Delete(s));
    DeletedUnstored(st, s, p);
    ViewsLater(init, first, more, p);
    FinalView(init, first + more, s, p);
  }

  lemma {:induction false} ClearedSticks(init: State, steps: seq<Step>, s: Session, more: seq<Step>)
    requires Initial(init) && ValidRun(init, steps) && Enabled(Run(init, steps), Delete(s))
    requires ValidRun(init, steps + [Delete(s)] + more)
    requires !EverEnabled(init, steps) && ClearPending(Run(init, steps))
    ensures !Resurrected(init, steps + [Delete(s)] + more, |steps|, s)
  {
    hide Run, ValidRun, Enabled, Initial, EverEnabled, Inv, Views, Next, KilledAt;
    var st, first := Run(init, steps), steps + [Delete(s)];
    var p := (v: View) => v.session == s ==> v.birth == 0 || v.birth > Now(st);
    RunInv(init, steps);
    NeverRun(init, steps);
    RunEverEnabled(init, steps);
    RunStep(init, steps, Delete(s));
    DeletedInitial(st, s, p);
    ViewsLater(init, first, more, p);
    FinalView(init, first + more, s, p);
    InvBounds(st, s);
    ApplyKilled(st, Delete(s), s);
    ClockKilled(Apply(st, Delete(s)), Now(st), s);
    NextIs(st, Delete(s));
    ClearsKill(st, s);
    KilledLater(init, first, more, s);
  }

  lemma {:induction false} NextIs(st: State, step: Step)
    requires Enabled(st, step)
    ensures Next(st, step) == Apply(st, step).(clock := Now(st))
  {
  }

  lemma {:induction false} ClearsKill(st: State, s: Session)
    requires st.clearedAt > 0
    ensures KilledAt(st, s) > 0
  {
  }

  /** What is known of the view that a run ends with in memory. */
  lemma {:induction false} FinalView(init: State, steps: seq<Step>, s: Session, p: View -> bool)
    requires Initial(init) && ValidRun(init, steps) && Views(Run(init, steps), p)
    ensures s in Run(init, steps).memory ==>
      var v := Run(init, steps).memory[s];
      p(v) && v.session == s && v.wellFormed && v.birth >= KilledAt(Run(init, steps), s)
  {
    hide Run, ValidRun, Initial, Inv, KilledAt;
    RunInv(init, steps);
    NeverRun(init, steps);
    if s in Run(init, steps).memory { HeldFresh(Run(init, steps), s); }
  }

  /** A delete before the cache was ever enabled, of a view it holds, is undone by enabling and hydrating. */
  lemma {:induction false} EarlyDeleteRevives(init: State, steps: seq<Step>, s: Session)
    requires Initial(init) && ValidRun(init, steps) && Enabled(Run(init, steps), Delete(s))
    requires !EverEnabled(init, steps) && StoredWell(Run(init, steps), s) && !ClearPending(Run(init, steps))
    ensures ValidRun(init, steps + [Delete(s)] + Revival(s))
    ensures Resurrected(init, steps + [Delete(s)] + Revival(s), |steps|, s)
  {
    hide Run, ValidRun, Enabled, Initial, EverEnabled, Inv, Next, Revives;
    var first, more := steps + [Delete(s)], Revival(s);
    RunInv(init, steps);
    NeverRun(init, steps);
    RunEverEnabled(init, steps);
    RunStep(init, steps, Delete(s));
    StoredFresh(Run(init, steps), s);
    InvBasic(Run(init, steps));
    DeletedState(Run(init, steps), s);
    var s1, s2, s3, s4, s5 := RevivalSteps(Run(init, first), s);
    RunMore(init, first, more, 0);
    RunMore(init, first, more, 1);
    RunMore(init, first, more, 2);
    RunMore(init, first, more, 3);
    RunMore(init, first, more, 4);
    assert first + more[..5] == first + more && first + more[..0] == first;
  }

  lemma {:induction false} InvBasic(st: State)
    requires Inv(st)
    ensures BasicOk(st)
  {
    hide MemoryOk, TasksOk, HydrationsOk, StoreOk, QueueOk, DisabledOk, Times;
  }

  lemma {:induction false} RunMore(init: State, first: seq<Step>, more: seq<Step>, i: nat)
    requires i < |more|
    ensures ValidRun(init, first + more[..i]) && Enabled(Run(init, first + more[..i]), more[i]) ==>
              && ValidRun(init, first + more[..i + 1])
              && Run(init, first + more[..i + 1]) == Next(Run(init, first + more[..i]), more[i])
  {
    assert first + more[..i + 1] == first + more[..i] + [more[i]];
    RunStep(init, first + more[..i], more[i]);
  }

  /** The delete leaves the stored view of the session as the only one. */
  predicate Revives(st: State, s: Session) {
    && !st.closed && !st.enabled && !st.everEnabled && st.hydrations == [] && st.done == |st.mutations|
    && s !in st.memory && StoredWell(st, s) && st.store[s].session == s && st.store[s].birth == 0
  }

  lemma {:induction false} DeletedState(st: State, s: Session)
    requires NeverOk(st) && BasicOk(st) && !st.everEnabled && Enabled(st, Delete(s)) && StoredWell(st, s)
    requires st.store[s].session == s && !ClearPending(st)
    ensures Revives(Next(st, Delete(s)), s)
  {
    if st.done < |st.mutations| { QueuedClear(st); }
  }

  lemma {:induction false} QueuedClear(st: State)
    requires st.done < |st.mutations| && st.mutations[st.done].ClearAll?
    ensures ClearPending(st)
  {
  }

  lemma {:induction false} RevivalSteps(st: State, s: Session)
    returns (s1: State, s2: State, s3: State, s4: State, s5: State)
    requires Revives(st, s)
    ensures Enabled(st, SetEnabled(true)) && s1 == Next(st, SetEnabled(true))
    ensures Enabled(s1, Hydrate(s)) && s2 == Next(s1, Hydrate(s))
    ensures Enabled(s2, HydrateBarrier(0)) && s3 == Next(s2, HydrateBarrier(0))
    ensures Enabled(s3, HydrateRead(0)) && s4 == Next(s3, HydrateRead(0))
    ensures Enabled(s4, HydrateFinish(0, true, {})) && s5 == Next(s4, HydrateFinish(0, true, {}))
    ensures s in s5.memory && s5.memory[s].birth == 0
  {
    hide Next, Enabled;
    var ticket := NewTicket(st, s);
    s1 := st.(clock := st.clock + 1, enabled := true, everEnabled := true);
    EnableStep(st);
    s2 := s1.(clock := st.clock + 2, hydrations := [Hydration(ticket, AtBarrier)]);
    HydrateStep(s1, s);
    s3 := s2.(clock := st.clock + 3, hydrations := [Hydration(ticket, AtDb)]);
    BarrierStep(s2, ticket);
    s4 := s3.(clock := st.clock + 4, hydrations := [Hydration(ticket, Got(Some(st.store[s])))]);
    ReadStep(s3, ticket);
    RevivalEnds(s4, s);
    s5 := Next(s4, HydrateFinish(0, true, {}));
  }

  lemma {:induction false} EnableStep(st: State)
    requires !st.closed && !st.enabled
    ensures Enabled(st, SetEnabled(true))
    ensures Next(st, SetEnabled(true)) == st.(clock := st.clock + 1, enabled := true, everEnabled := true)
  {
  }

  lemma {:induction false} HydrateStep(st: State, s: Session)
    requires !st.closed && st.enabled && s !in st.memory && st.hydrations == []
    ensures Enabled(st, Hydrate(s))
    ensures Next(st, Hydrate(s)) == st.(clock := st.clock + 1, hydrations := [Hydration(NewTicket(st, s), AtBarrier)])
  {
  }

  lemma {:induction false} BarrierStep(st: State, t: Ticket)
    requires st.hydrations == [Hydration(t, AtBarrier)] && t.base <= st.done
    ensures Enabled(st, HydrateBarrier(0))
    ensures Next(st, HydrateBarrier(0)) == st.(clock := st.clock + 1, hydrations := [Hydration(t, AtDb)])
  {
  }

  lemma {:induction false} ReadStep(st: State, t: Ticket)
    requires st.hydrations == [Hydration(t, AtDb)] && t.session in st.store
    ensures Enabled(st, HydrateRead(0))
    ensures Next(st, HydrateRead(0))
         == st.(clock := st.clock + 1, hydrations := [Hydration(t, Got(Some(st.store[t.session])))])
  {
  }

  lemma {:induction false} RevivalEnds(st: State, s: Session)
    requires !st.closed && st.enabled && s !in st.memory && StoredWell(st, s)
    requires st.store[s].session == s && st.store[s].birth == 0
    requires st.hydrations == [Hydration(NewTicket(st, s), Got(Some(st.store[s])))]
    ensures Enabled(st, HydrateFinish(0, true, {}))
    ensures
      var next := Next(st, HydrateFinish(0, true, {}));
      s in next.memory && next.memory[s].birth == 0
  {
    var v := st.store[s];
    PersistMemory(MemorySet(SetHydration(st, 0, Over), v, true, {}), v);
    hide Persist;
  }

  /**
   * Whether a delete is final, exactly: no continuation of the run brings an older view of the session back
   * into memory, if and only if the cache was enabled before, or the store holds no well-formed view of the
   * session, or a clear is still queued.
   */
  lemma {:induction false} DeleteSticksIff(init: State, steps: seq<Step>, s: Session)
    requires Initial(init) && ValidRun(init, steps) && Enabled(Run(init, steps), Delete(s))
    ensures
      (forall more :: ValidRun(init, steps + [Delete(s)] + more) ==>
         !Resurrected(init, steps + [Delete(s)] + more, |steps|, s))
      <==> EverEnabled(init, steps) || !StoredWell(Run(init, steps), s) || ClearPending(Run(init, steps))
  {
    hide *;
    if EverEnabled(init, steps) || !StoredWell(Run(init, steps), s) || ClearPending(Run(init, steps)) {
      forall more | ValidRun(init, steps + [Delete(s)] + more)
        ensures !Resurrected(init, steps + [Delete(s)] + more, |steps|, s)
      {
        DeleteSticks(init, steps, s, more);
      }
    } else {
      EarlyDeleteRevives(init, steps, s);
    }
  }

  lemma {:induction false} RunStep(init: State, steps: seq<Step>, step: Step)
    ensures ValidRun(init, steps) && Enabled(Run(init, steps), step) ==>
              && ValidRun(init, steps + [step])
              && Run(init, steps + [step]) == Next(Run(init, steps), step)
  {
    assert (steps + [step])[..|steps|] == steps;
  }
}
