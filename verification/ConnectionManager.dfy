/**
 * The dashboard connection manager of packages/dashboard/src/dashboard-connection-manager.ts:
 * reference-counted channel subscriptions on one shared socket, with warm leases for sessions nobody
 * holds, a cap on them, restore after a reconnect, and acknowledgements fenced by generations.
 *
 * The clock and the warmth setting are parameters; timers and acknowledgements are calls (`Expire`,
 * `SubscribeTimeout`, `ApplyAck`, `BaselineAck`) that the environment may make at any time.
 */
module ConnectionManager {
  import opened Common

  type Channel = string

  predicate IsSession(c: Channel) {
    |c| >= 8 && c[..8] == "session:"
  }

  datatype WireState = Desired | Subscribing | Active | Rejected

  datatype Record = Record(
    refs: nat, generation: nat, baseline: Option<nat>, cursor: Option<int>,
    state: WireState, error: Option<string>, warmUntil: Option<int>, lastUsed: int)

  /** The closure `acquire` returns: it releases at most once. */
  datatype Lease = Lease(channel: Channel, retainWarm: bool, released: bool)

  type Channels = map<Channel, Record>

  /** What the manager emits; `Subscribe` covers both the subscribe and the restore event. */
  datatype Message =
    | Subscribe(generation: nat, channels: set<Channel>, cursors: map<Channel, int>, restore: bool)
    | Unsubscribe(generation: nat, channel: Channel)
    | Refresh(generation: nat, channel: Channel, cursors: map<Channel, int>)

  /** The server's view: the rooms a connection is in after these messages, in order. */
  function Replay(sent: seq<Message>): set<Channel> {
    if sent == [] then {} else
      var before := Replay(sent[..|sent| - 1]);
      match sent[|sent| - 1]
      case Subscribe(_, channels, _, _) => before + channels
      case Unsubscribe(_, channel) => before - {channel}
      case Refresh(_, _, _) => before
  }

  lemma {:induction false} ReplaySnoc(sent: seq<Message>, m: Message)
    ensures Replay(sent + [m])
         == match m
            case Subscribe(_, channels, _, _) => Replay(sent) + channels
            case Unsubscribe(_, channel) => Replay(sent) - {channel}
            case Refresh(_, _, _) => Replay(sent)
  {
    assert (sent + [m])[..|sent|] == sent;
  }

  /** The generation of the latest subscribe message that names the channel, or 0 if there is none. */
  function LastGeneration(log: seq<Message>, c: Channel): nat {
    if log == [] then 0
    else
      var n := |log| - 1;
      if log[n].Subscribe? && c in log[n].channels then log[n].generation else LastGeneration(log[..n], c)
  }

  lemma {:induction false} LastGenerationSnoc(log: seq<Message>, m: Message, c: Channel)
    ensures LastGeneration(log + [m], c)
         == if m.Subscribe? && c in m.channels then m.generation else LastGeneration(log, c)
  {
    assert (log + [m])[..|log|] == log;
  }

  /** Message `p` subscribes to the channel and no later one does. */
  predicate LatestSubscribe(log: seq<Message>, c: Channel, p: nat) {
    && p < |log| && log[p].Subscribe? && c in log[p].channels
    && forall q :: p < q < |log| && log[q].Subscribe? ==> c !in log[q].channels
  }

  lemma {:induction false} LastGenerationMeans(log: seq<Message>, c: Channel) returns (p: nat)
    requires LastGeneration(log, c) != 0
    ensures LatestSubscribe(log, c, p) && log[p].generation == LastGeneration(log, c)
  {
    var n := |log| - 1;
    if log[n].Subscribe? && c in log[n].channels {
      p := n;
    } else {
      p := LastGenerationMeans(log[..n], c);
    }
  }

  /** Every message has its own generation, and they grow. */
  predicate Numbered(log: seq<Message>, request: nat) {
    && (forall i :: 0 <= i < |log| ==> 1 <= log[i].generation <= request)
    && (forall i, j :: 0 <= i < j < |log| ==> log[i].generation < log[j].generation)
  }

  /** The acquisitions of `c` that have not been released. */
  function Held(leases: seq<Lease>, c: Channel): nat {
    if leases == [] then 0 else
      Held(leases[..|leases| - 1], c) +
      (if leases[|leases| - 1].channel == c && !leases[|leases| - 1].released then 1 else 0)
  }

  lemma {:induction false} HeldSnoc(leases: seq<Lease>, lease: Lease, c: Channel)
    ensures Held(leases + [lease], c) == Held(leases, c) + if lease.channel == c && !lease.released then 1 else 0
  {
    assert (leases + [lease])[..|leases|] == leases;
  }

  /** Releasing one lease takes one off its channel and nothing off the others. */
  lemma {:induction false} HeldRelease(leases: seq<Lease>, i: nat, c: Channel)
    requires i < |leases| && !leases[i].released
    ensures Held(leases[i := leases[i].(released := true)], c)
         == Held(leases, c) - if leases[i].channel == c then 1 else 0
    ensures Held(leases, leases[i].channel) >= 1
  {
    var n := |leases| - 1;
    var after := leases[i := leases[i].(released := true)];
    if i < n {
      HeldRelease(leases[..n], i, c);
      assert after[..n] == leases[..n][i := leases[..n][i].(released := true)];
    } else {
      assert after[..n] == leases[..n];
    }
  }

  predicate IsWarm(r: Record) {
    r.refs == 0 && r.warmUntil.Some?
  }

  /** The warm sessions, as `retainWarm` filters them. */
  function Warm(channels: Channels): set<Channel> {
    set c | c in channels && IsSession(c) && IsWarm(channels[c])
  }

  predicate Expired(r: Record, now: int, warmth: int) {
    r.refs == 0 && r.warmUntil.Some? && (r.warmUntil.value <= now || warmth <= 0)
  }

  /** `Math.max(record.cursor ?? 0, cursor)`. */
  function Advance(cursor: Option<int>, to: Option<int>): Option<int> {
    if to.None? then cursor else Some(Max(if cursor.Some? then cursor.value else 0, to.value))
  }

  predicate CursorKept(a: Option<int>, b: Option<int>) {
    a.Some? ==> b.Some? && a.value <= b.value
  }

  /** A record lives on without a fresh acknowledgement: its cursor stays and it does not become active. */
  predicate LivesOn(a: Record, b: Record) {
    && CursorKept(a.cursor, b.cursor) && a.generation <= b.generation
    && (b.state.Active? ==> a.state.Active? && a.generation == b.generation)
  }

  function Cursors(channels: Channels, which: set<Channel>): map<Channel, int> {
    map c | c in which && c in channels && channels[c].cursor.Some? :: channels[c].cursor.value
  }

  /** The record updates of `subscribe` and of `refreshBaselines`. */
  function Subscribed(r: Record, generation: nat): Record {
    r.(generation := generation, state := Subscribing, baseline := None, error := None)
  }

  function UpdateEach(channels: Channels, which: set<Channel>, generation: nat): (r: Channels)
    ensures r.Keys == channels.Keys
    ensures forall c :: c in r ==> r[c] == if c in which then Subscribed(channels[c], generation) else channels[c]
  {
    map c | c in channels :: if c in which then Subscribed(channels[c], generation) else channels[c]
  }

  /** `c` is a least recently used one among these channels. */
  predicate IsOldest(channels: Channels, among: set<Channel>, c: Channel)
    requires among <= channels.Keys
  {
    c in among && forall d :: d in among ==> channels[c].lastUsed <= channels[d].lastUsed
  }

  lemma {:induction false} HasOldest(channels: Channels, among: set<Channel>)
    requires among != {} && among <= channels.Keys
    ensures exists c :: IsOldest(channels, among, c)
  {
    var x := Member(among);
    var rest := among - {x};
    assert forall d :: d in among ==> d == x || d in rest;
    if rest == {} {
      assert IsOldest(channels, among, x);
    } else {
      HasOldest(channels, rest);
      var c :| IsOldest(channels, rest, c);
      assert IsOldest(channels, among, if channels[x].lastUsed <= channels[c].lastUsed then x else c);
    }
  }

  lemma {:induction false} SubsetSize<T>(a: set<T>, b: set<T>)
    requires a <= b
    ensures |a| <= |b|
  {
    if a != {} {
      var x := Member(a);
      SubsetSize(a - {x}, b - {x});
    }
  }

  /** If every warm session was warm before, there are no more of them. */
  lemma {:induction false} WarmShrinks(a: Channels, b: Channels)
    requires forall c :: c in b && IsSession(c) && IsWarm(b[c]) ==> c in a && IsWarm(a[c])
    ensures |Warm(b)| <= |Warm(a)|
  {
    assert Warm(b) <= Warm(a);
    SubsetSize(Warm(b), Warm(a));
  }

  /** Acknowledged results: which channels were accepted, with cursors, and which were rejected. */
  datatype SubscriptionResult = SubscriptionResult(
    generation: nat, accepted: set<Channel>, rejected: map<Channel, string>, cursors: map<Channel, int>)

  /** `applyAck` on one record: only the record's own latest generation counts. */
  function Acked(c: Channel, r: Record, res: SubscriptionResult): Record {
    if r.generation != res.generation then r
    else
      var ok := if c !in res.accepted then r
                else
                   var next := if c in res.cursors then Some(res.cursors[c]) else None;
                   r.(state := Active, cursor := Advance(r.cursor, next));
      if c in res.rejected then ok.(state := Rejected, error := Some(res.rejected[c])) else ok
  }

  /** The acknowledgement of a baseline refresh: it moves cursors and errors only. */
  function BaselineAcked(c: Channel, r: Record, res: SubscriptionResult): Record {
    if r.baseline != Some(res.generation) then r
    else
      var ok := if c !in res.accepted then r
                else r.(cursor := Advance(r.cursor, if c in res.cursors then Some(res.cursors[c]) else None));
      if c in res.rejected then ok.(error := Some(res.rejected[c])) else ok
  }

  // ---------------------------------------------------------------------------------
  // States of the manager and how the calls change them.

  /** `log` holds every message ever emitted; the current connection began at position `since`. */
  datatype Snapshot = Snapshot(
    connected: bool, channels: Channels, request: nat, log: seq<Message>, since: nat, leases: seq<Lease>)

  /** The messages emitted on the current connection. */
  function Sent(log: seq<Message>, since: nat): seq<Message> {
    if since <= |log| then log[since..] else []
  }

  /** What a call asks of the server, apart from leaving rooms. */
  datatype Ask =
    | Nothing
    | Joining(channels: set<Channel>, restore: bool)
    | Refreshing(channel: Channel)
    | LeavingAgain(channel: Channel)

  /** The message carries, for each channel it names, the cursor that its record has, if it has one. */
  ghost predicate CarriesCursors(m: Message, channels: Channels) {
    match m
    case Subscribe(_, which, cursors, _) => CursorsOf(cursors, which, channels)
    case Refresh(_, c, cursors) => CursorsOf(cursors, {c}, channels)
    case Unsubscribe(_, _) => true
  }

  ghost predicate CursorsOf(cursors: map<Channel, int>, which: set<Channel>, channels: Channels) {
    && (forall c :: c in cursors <==> c in which && c in channels && channels[c].cursor.Some?)
    && (forall c :: c in cursors ==> channels[c].cursor == Some(cursors[c]))
  }

  ghost predicate Asks(ask: Ask, m: Message, generation: nat, channels: Channels) {
    && m.generation == generation && CarriesCursors(m, channels)
    && match ask
       case Nothing => false
       case Joining(which, restore) => m.Subscribe? && m.channels == which && m.restore == restore
       case Refreshing(c) => m.Refresh? && m.channel == c
       case LeavingAgain(c) => m.Unsubscribe? && m.channel == c
  }

  /** The messages added unsubscribe from each of these channels once, and from no other. */
  ghost predicate Departs(log: seq<Message>, request: nat, longer: seq<Message>, gone: set<Channel>) {
    && log <= longer && |longer| == |log| + |gone|
    && (forall i :: |log| <= i < |longer| ==>
          longer[i].Unsubscribe? && longer[i].channel in gone && longer[i].generation == request + 1 + i - |log|)
    && (forall c :: c in gone ==>
          exists i :: |log| <= i < |longer| && longer[i] == Unsubscribe(longer[i].generation, c))
  }

  /** Exactly what was emitted: on a live connection the channels gone are left, and then `ask` is sent. */
  ghost predicate Sends(
    log: seq<Message>, request: nat, longer: seq<Message>, request': nat, channels: Channels, connected: bool,
    gone: set<Channel>, ask: Ask)
  {
    var n := |longer| - if ask.Nothing? then 0 else 1;
    && |log| <= n && request' == request + |longer| - |log|
    && Departs(log, request, longer[..n], if connected then gone else {})
    && (!ask.Nothing? ==> Asks(ask, longer[n], request', channels))
  }

  lemma {:induction false} SendsNothing(
    log: seq<Message>, request: nat, channels: Channels, connected: bool, gone: set<Channel>)
    requires !connected || gone == {}
    ensures Sends(log, request, log, request, channels, connected, gone, Nothing)
  {
  }

  lemma {:induction false} SendsLeave(
    log: seq<Message>, request: nat, channels: Channels, connected: bool, c: Channel)
    ensures
      var longer := if connected then log + [Unsubscribe(request + 1, c)] else log;
      Sends(log, request, longer, request + |longer| - |log|, channels, connected, {c}, Nothing)
  {
    var longer := if connected then log + [Unsubscribe(request + 1, c)] else log;
    assert longer[..|longer|] == longer;
    if connected { assert longer[|log|] == Unsubscribe(request + 1, c); }
  }

  /** Leaving one room, told as an extra message. */
  lemma {:induction false} SendsAgain(
    log: seq<Message>, request: nat, longer: seq<Message>, request': nat, channels: Channels, c: Channel)
    requires Sends(log, request, longer, request', channels, true, {c}, Nothing)
    ensures Sends(log, request, longer, request', channels, true, {}, LeavingAgain(c))
  {
    assert longer[..|longer|] == longer;
    var i :| |log| <= i < |longer| && longer[i] == Unsubscribe(longer[i].generation, c);
    assert longer[..|longer| - 1] == log;
  }

  lemma {:induction false} SendsOffline(
    log: seq<Message>, request: nat, longer: seq<Message>, request': nat, channels: Channels, gone: set<Channel>)
    requires Sends(log, request, longer, request', channels, false, gone, Nothing)
    ensures longer == log && request' == request
  {
    assert longer[..|longer|] == longer;
  }

  lemma {:induction false} SendsAsk(
    log: seq<Message>, request: nat, m: Message, channels: Channels, connected: bool, ask: Ask)
    requires Asks(ask, m, request + 1, channels)
    ensures Sends(log, request, log + [m], request + 1, channels, connected, {}, ask)
  {
    assert (log + [m])[..|log|] == log;
    hide Asks;
  }

  lemma {:induction false} SendsSubscribe(
    log: seq<Message>, request: nat, which: set<Channel>, restore: bool, channels: Channels, connected: bool)
    ensures
      var m := Subscribe(request + 1, which, Cursors(channels, which), restore);
      Sends(log, request, log + [m], request + 1, UpdateEach(channels, which, request + 1), connected, {},
            Joining(which, restore))
  {
    var m := Subscribe(request + 1, which, Cursors(channels, which), restore);
    SendsAsk(log, request, m, UpdateEach(channels, which, request + 1), connected, Joining(which, restore));
    hide Sends;
  }

  lemma {:induction false} SendsRefresh(
    log: seq<Message>, request: nat, c: Channel, channels: Channels, connected: bool)
    requires c in channels
    ensures
      var m := Refresh(request + 1, c, Cursors(channels, {c}));
      Sends(log, request, log + [m], request + 1,
            channels[c := channels[c].(baseline := Some(request + 1), error := None)], connected, {}, Refreshing(c))
  {
    var m := Refresh(request + 1, c, Cursors(channels, {c}));
    SendsAsk(log, request, m, channels[c := channels[c].(baseline := Some(request + 1), error := None)], connected,
             Refreshing(c));
    hide Sends;
  }

  lemma {:induction false} DepartsThen(
    a: seq<Message>, r: nat, b: seq<Message>, gone: set<Channel>, c: seq<Message>, more: set<Channel>)
    requires Departs(a, r, b, gone) && Departs(b, r + |b| - |a|, c, more) && gone !! more
    ensures Departs(a, r, c, gone + more)
  {
    assert |gone + more| == |gone| + |more|;
    assert forall i :: 0 <= i < |b| ==> c[i] == b[i];
    forall x | x in gone + more
      ensures exists i :: |a| <= i < |c| && c[i] == Unsubscribe(c[i].generation, x)
    {
      if x in gone {
        var i :| |a| <= i < |b| && b[i] == Unsubscribe(b[i].generation, x);
        assert c[i] == Unsubscribe(c[i].generation, x);
      } else {
        var i :| |b| <= i < |c| && c[i] == Unsubscribe(c[i].generation, x);
      }
    }
  }

  lemma {:induction false} SendsThen(
    a: seq<Message>, r: nat, b: seq<Message>, r': nat, channels: Channels, connected: bool, gone: set<Channel>,
    c: seq<Message>, r'': nat, channels': Channels, more: set<Channel>, ask: Ask)
    requires Sends(a, r, b, r', channels, connected, gone, Nothing) && gone !! more
    requires Sends(b, r', c, r'', channels', connected, more, ask)
    ensures Sends(a, r, c, r'', channels', connected, gone + more, ask)
  {
    hide Departs, Asks;
    assert b[..|b|] == b;
    var n := |c| - if ask.Nothing? then 0 else 1;
    DepartsThen(a, r, b, if connected then gone else {}, c[..n], if connected then more else {});
  }

  /** On a live connection the server is in exactly the rooms the manager has. */
  predicate Wired(connected: bool, channels: Channels, log: seq<Message>, since: nat): (wired: bool)
    ensures wired ==> since <= |log|
  {
    since <= |log| && (connected ==> Replay(Sent(log, since)) == channels.Keys)
  }

  /** `refs` counts the unreleased acquisitions. */
  ghost predicate Counted(channels: Channels, leases: seq<Lease>) {
    && (forall c :: c in channels ==> channels[c].refs == Held(leases, c))
    && (forall c :: c !in channels ==> Held(leases, c) == 0)
  }

  /** Dropping channels that nobody holds keeps the count. */
  lemma {:induction false} CountedFewer(a: Channels, b: Channels, leases: seq<Lease>)
    requires Counted(a, leases)
    requires forall c :: c in b ==> c in a && b[c].refs == a[c].refs
    requires forall c :: c in a && c !in b ==> a[c].refs == 0
    ensures Counted(b, leases)
  {
    hide Held;
  }

  lemma {:induction false} CountedMore(a: Channels, b: Channels, leases: seq<Lease>, lease: Lease)
    requires Counted(a, leases) && !lease.released
    requires b.Keys == a.Keys + {lease.channel}
    requires forall c :: c in a && c != lease.channel ==> b[c].refs == a[c].refs
    requires b[lease.channel].refs == 1 + if lease.channel in a then a[lease.channel].refs else 0
    ensures Counted(b, leases + [lease])
  {
    forall c ensures Held(leases + [lease], c) == Held(leases, c) + if c == lease.channel then 1 else 0 {
      HeldSnoc(leases, lease, c);
    }
    hide Held;
  }

  predicate LeaseOk(c: Channel, r: Record) {
    if r.refs == 0 then IsSession(c) && r.warmUntil.Some? else r.warmUntil.None?
  }

  /** Whatever nobody holds is a warm session, and there are at most `maxWarm` of those. */
  predicate Capped(maxWarm: int, channels: Channels) {
    && (forall c :: c in channels ==> LeaseOk(c, channels[c]))
    && |Warm(channels)| <= Max(0, maxWarm)
  }

  /** A record never subscribed has generation 0; any other has that of the latest subscribe naming its channel. */
  predicate Fenced(channels: Channels, request: nat, log: seq<Message>) {
    && Numbered(log, request)
    && forall c :: c in channels ==>
         && channels[c].generation <= request
         && (channels[c].generation == 0 || channels[c].generation == LastGeneration(log, c))
  }

  /** What every reachable state satisfies. */
  ghost predicate Sound(maxWarm: int, s: Snapshot) {
    && Wired(s.connected, s.channels, s.log, s.since) && Counted(s.channels, s.leases)
    && Capped(maxWarm, s.channels) && Fenced(s.channels, s.request, s.log)
  }

  /** A released channel is kept warm only under these conditions. */
  predicate MayStay(maxWarm: int, c: Channel, state: WireState, retainWarm: bool, warmth: int): (stays: bool)
    ensures stays ==> IsSession(c)
  {
    retainWarm && IsSession(c) && !state.Rejected? && warmth > 0 && maxWarm > 0
  }

  /** All warm sessions were last used before `now`. */
  predicate Latest(channels: Channels, now: int) {
    forall d :: d in Warm(channels) ==> channels[d].lastUsed < now
  }

  /** An evicted warm session was used no later than any that stays. */
  predicate OldestFirst(d: Channel, before: Channels, after: Channels) {
    d in before && forall e :: e in Warm(after) ==> before[d].lastUsed <= after[e].lastUsed
  }

  predicate Lapses(maxWarm: int, r: Record, now: int, warmth: int) {
    r.lastUsed + Max(0, warmth) - now <= 0 || maxWarm <= 0
  }

  function Rewarmed(r: Record, warmth: int): Record {
    if IsWarm(r) then r.(warmUntil := Some(r.lastUsed + Max(0, warmth))) else r
  }

  /** The channels other than `c` are the same. */
  predicate OnlyAt(a: Channels, b: Channels, c: Channel) {
    forall d :: d in a && d in b && d != c ==> b[d] == a[d]
  }

  /** The call finds a record that has not expired. */
  predicate Joins(a: Snapshot, c: Channel, now: int, warmth: int) {
    c in a.channels && !Expired(a.channels[c], now, warmth)
  }

  /**
   * What acquiring asks of the server: to join the room if the record is new, desired or rejected; otherwise a new
   * baseline if the caller wants one; and nothing without a connection.
   */
  function RecordAsk(channels: Channels, connected: bool, c: Channel, freshBaseline: bool): Ask {
    if !connected then Nothing
    else if c !in channels || channels[c].state in {Desired, Rejected} then Joining({c}, false)
    else if freshBaseline then Refreshing(c)
    else Nothing
  }

  function AcquireAsk(a: Snapshot, c: Channel, freshBaseline: bool, now: int, warmth: int): Ask {
    RecordAsk(Rest(a, c, now, warmth), a.connected, c, freshBaseline)
  }

  /** What a request does to the record it is about: it clears the error and is answered under its generation. */
  function Asked(r: Record, ask: Ask, generation: nat): Record {
    match ask
    case Nothing => r
    case Joining(_, _) => r.(generation := generation, state := Subscribing, baseline := None, error := None)
    case Refreshing(_) => r.(baseline := Some(generation), error := None)
    case LeavingAgain(_) => r
  }

  /** Acquiring joins a record that has not expired; otherwise a new record starts. */
  ghost predicate AcquireMove(
    a: Snapshot, b: Snapshot, c: Channel, cursor: Option<int>, freshBaseline: bool, now: int, warmth: int)
  {
    && b.channels.Keys == a.channels.Keys + {c} && OnlyAt(a.channels, b.channels, c)
    && b.channels[c]
       == Asked(Holding(a, c, cursor, now, warmth), AcquireAsk(a, c, freshBaseline, now, warmth), b.request)
  }

  function Joined(r: Record, cursor: Option<int>, now: int): Record {
    r.(refs := r.refs + 1, cursor := Advance(r.cursor, cursor), warmUntil := None, lastUsed := now)
  }

  /** The record with one holder more, or a new one. */
  function Holding(a: Snapshot, c: Channel, cursor: Option<int>, now: int, warmth: int): Record {
    JoinedIn(Rest(a, c, now, warmth), c, cursor, now)
  }

  function JoinedIn(channels: Channels, c: Channel, cursor: Option<int>, now: int): Record {
    if c in channels then Joined(channels[c], cursor, now) else Record(1, 0, None, cursor, Desired, None, None, now)
  }

  /** An expired record is dropped before a new one starts. */
  function Dropped(a: Snapshot, c: Channel, now: int, warmth: int): set<Channel> {
    if c in a.channels && !Joins(a, c, now, warmth) then {c} else {}
  }

  function Rest(a: Snapshot, c: Channel, now: int, warmth: int): Channels {
    a.channels - Dropped(a, c, now, warmth)
  }

  lemma {:induction false} AcquireParts(
    a: Snapshot, c: Channel, cursor: Option<int>, freshBaseline: bool, now: int, warmth: int)
    ensures
      var rest := if c in a.channels && Expired(a.channels[c], now, warmth) then a.channels - {c} else a.channels;
      && rest == Rest(a, c, now, warmth)
      && RecordAsk(rest, a.connected, c, freshBaseline) == AcquireAsk(a, c, freshBaseline, now, warmth)
      && JoinedIn(rest, c, cursor, now) == Holding(a, c, cursor, now, warmth)
    ensures Dropped(a, c, now, warmth)
         == if c in a.channels && Expired(a.channels[c], now, warmth) then {c} else {}
    ensures Dropped(a, c, now, warmth) + {} == Dropped(a, c, now, warmth)
  {
    assert a.channels - {} == a.channels;
  }

  /** The counts and the cap hold after the call. */
  lemma {:induction false} AcquireKeeps(
    maxWarm: int, a: Snapshot, b: Snapshot, c: Channel, cursor: Option<int>, freshBaseline: bool, retainWarm: bool,
    now: int, warmth: int)
    requires AcquireMove(a, b, c, cursor, freshBaseline, now, warmth) && b.leases == a.leases
    requires Counted(a.channels, a.leases) && Capped(maxWarm, a.channels)
    ensures Counted(b.channels, a.leases + [Lease(c, retainWarm, false)]) && Capped(maxWarm, b.channels)
  {
    hide Held, Advance, Warm, RecordAsk;
    CountedMore(a.channels, b.channels, a.leases, Lease(c, retainWarm, false));
    WarmShrinks(a.channels, b.channels);
  }

  /**
   * Releasing twice does nothing; the last release drops the channel unless it may stay warm, which it does
   * when it is the one used last. Evictions hit warm sessions only, least recently used first.
   */
  ghost predicate ReleaseMove(maxWarm: int, a: Channels, b: Channels, lease: Lease, now: int, warmth: int) {
    if lease.released then b == a
    else
      var c := lease.channel;
      && c in a && a[c].refs >= 1
      && (if a[c].refs > 1 then b == a[c := a[c].(refs := a[c].refs - 1)]
          else LastMove(maxWarm, a, b, c, lease.retainWarm, now, warmth))
  }

  /**
   * A room that the cap evicts in the release that made it warm is left once more: `retainWarm` has dropped it
   * already, and the release drops it again.
   */
  function ReleaseAsk(maxWarm: int, a: Snapshot, after: Channels, lease: nat, warmth: int): Ask {
    if lease >= |a.leases| || a.leases[lease].released then Nothing
    else
      var c := a.leases[lease].channel;
      if c in a.channels && a.channels[c].refs == 1 then
        LastAsk(maxWarm, a.channels[c].state, a.connected, after, c, a.leases[lease].retainWarm, warmth)
      else Nothing
  }

  function LastAsk(
    maxWarm: int, state: WireState, connected: bool, after: Channels, c: Channel, retainWarm: bool, warmth: int): Ask
  {
    if connected && MayStay(maxWarm, c, state, retainWarm, warmth) && c !in after then LeavingAgain(c) else Nothing
  }

  /** The last holder of `c` is gone. */
  ghost predicate LastMove(
    maxWarm: int, a: Channels, b: Channels, c: Channel, retainWarm: bool, now: int, warmth: int)
  {
    && c in a && b.Keys <= a.Keys && OnlyAt(a, b, c)
    && (c in b ==>
          && MayStay(maxWarm, c, a[c].state, retainWarm, warmth)
          && b[c] == a[c].(refs := 0, lastUsed := now, warmUntil := Some(now + warmth)))
    && (MayStay(maxWarm, c, a[c].state, retainWarm, warmth) && Latest(a, now) ==> c in b)
    && (forall d :: d in a && d !in b && d != c ==> a[d].refs == 0 && OldestFirst(d, a, b))
  }

  lemma {:induction false} LastMoveFrom(
    maxWarm: int, a: Channels, marked: Channels, b: Channels, c: Channel, retainWarm: bool, now: int, warmth: int)
    requires c in a && a[c].refs == 1 && a[c].warmUntil.None? && marked == a[c := a[c].(refs := 0)]
    requires LastMove(maxWarm, marked, b, c, retainWarm, now, warmth)
    ensures LastMove(maxWarm, a, b, c, retainWarm, now, warmth)
    ensures |Warm(marked)| <= |Warm(a)|
  {
    WarmShrinks(a, marked);
    hide MayStay;
    assert forall d :: d in Warm(marked) ==> d in Warm(a) && marked[d] == a[d];
  }

  lemma {:induction false} LastMoveKeeps(
    maxWarm: int, a: Channels, b: Channels, leases: seq<Lease>, c: Channel, retainWarm: bool, now: int, warmth: int)
    requires LastMove(maxWarm, a, b, c, retainWarm, now, warmth) && a[c].refs == 0
    requires Counted(a, leases) && forall d :: d in a && d != c ==> LeaseOk(d, a[d])
    ensures Counted(b, leases) && forall d :: d in b ==> LeaseOk(d, b[d])
  {
    hide MayStay, Latest, OldestFirst, Counted;
    CountedFewer(a, b, leases);
  }

  /** A call that changes one record but not its holders and its lease keeps the counts and the cap. */
  lemma {:induction false} RecordKeeps(maxWarm: int, a: Channels, b: Channels, leases: seq<Lease>, c: Channel)
    requires c in a && b.Keys == a.Keys && OnlyAt(a, b, c)
    requires b[c].refs == a[c].refs && b[c].warmUntil == a[c].warmUntil
    requires Counted(a, leases) && Capped(maxWarm, a)
    ensures Counted(b, leases) && Capped(maxWarm, b)
  {
    hide Held;
    WarmShrinks(a, b);
  }

  lemma {:induction false} SameRooms(a: Channels, b: Channels)
    ensures b.Keys == a.Keys ==> a.Keys - b.Keys == {}
  {
  }

  function CursorSet(channels: Channels, c: Channel, cursor: int): Channels {
    if c !in channels then channels
    else channels[c := channels[c].(cursor := Advance(channels[c].cursor, Some(cursor)))]
  }

  /** A baseline refresh of a subscribed record, a new subscription of any other. */
  function RefreshAsk(a: Snapshot, c: Channel): Ask {
    if c !in a.channels then Nothing else RecordAsk(a.channels, a.connected, c, true)
  }

  function Refreshed(a: Snapshot, c: Channel, request: nat): Channels {
    if c !in a.channels then a.channels else a.channels[c := Asked(a.channels[c], RefreshAsk(a, c), request)]
  }

  /** Everything that has not expired is subscribed to in one batch. */
  ghost predicate ConnectMove(a: Snapshot, b: Snapshot, now: int, warmth: int) {
    && (forall c :: c in b.channels <==> c in a.channels && !Expired(a.channels[c], now, warmth))
    && (forall c :: c in b.channels ==> b.channels[c] == Subscribed(a.channels[c], b.request) && a.request < b.request)
  }

  function RestoreAsk(channels: Channels): Ask {
    if channels.Keys == {} then Nothing else Joining(channels.Keys, true)
  }

  function Disconnected(channels: Channels): Channels {
    map c | c in channels :: channels[c].(state := Desired, baseline := None)
  }

  ghost predicate WarmthMove(maxWarm: int, a: Snapshot, b: Snapshot, now: int, warmth: int) {
    && (forall c :: c in b.channels <==>
          c in a.channels && !(IsWarm(a.channels[c]) && Lapses(maxWarm, a.channels[c], now, warmth)))
    && (forall c :: c in b.channels ==> b.channels[c] == Rewarmed(a.channels[c], warmth))
  }

  lemma {:induction false} WarmthEnds(
    maxWarm: int, a: Channels, b: Channels, leases: seq<Lease>, now: int, warmth: int)
    requires forall c :: c in b ==> c in a && b[c] == Rewarmed(a[c], warmth)
    requires forall c :: c in a ==> (c in b <==> !(IsWarm(a[c]) && Lapses(maxWarm, a[c], now, warmth)))
    requires Counted(a, leases) && Capped(maxWarm, a)
    ensures Counted(b, leases) && Capped(maxWarm, b)
  {
    hide Held, Lapses;
    CountedFewer(a, b, leases);
    WarmShrinks(a, b);
  }

  function Lapsed(channels: Channels, c: Channel, now: int, warmth: int): Channels {
    if c in channels && Expired(channels[c], now, warmth) then channels - {c} else channels
  }

  function AckedAll(channels: Channels, res: SubscriptionResult): Channels {
    map c | c in channels :: Acked(c, channels[c], res)
  }

  function BaselineAckedAll(channels: Channels, res: SubscriptionResult): Channels {
    map c | c in channels :: BaselineAcked(c, channels[c], res)
  }

  /** An answer changes neither holders nor leases nor generations. */
  predicate SameHolding(a: Channels, b: Channels) {
    b.Keys == a.Keys && forall c :: c in a ==>
      b[c].refs == a[c].refs && b[c].warmUntil == a[c].warmUntil && b[c].generation == a[c].generation
  }

  lemma {:induction false} AckedKeeps(channels: Channels, res: SubscriptionResult)
    ensures SameHolding(channels, AckedAll(channels, res))
  {
  }

  lemma {:induction false} BaselineKeeps(channels: Channels, res: SubscriptionResult)
    ensures SameHolding(channels, BaselineAckedAll(channels, res))
  {
  }

  function TimedOut(channels: Channels, which: set<Channel>, generation: nat): Channels {
    map c | c in channels ::
      if c in which && channels[c].generation == generation
      then channels[c].(state := Desired, error := Some("subscription_timeout")) else channels[c]
  }

  // ---------------------------------------------------------------------------------
  // The manager.

  class Manager {
    const maxWarm: int
    var connected: bool
    var channels: Channels
    var request: nat
    var log: seq<Message>
    var since: nat
    var leases: seq<Lease>

    function Snap(): Snapshot
      reads this
    {
      Snapshot(connected, channels, request, log, since, leases)
    }

    ghost predicate Valid()
      reads this
    {
      Sound(maxWarm, Snap())
    }

    constructor (maxWarm: int)
      ensures Valid() && Snap() == Snapshot(false, map[], 0, [], 0, []) && this.maxWarm == maxWarm
    {
      this.maxWarm := maxWarm;
      connected, channels, request, log, since, leases := false, map[], 0, [], 0, [];
    }

    // Private steps.

    method Emit(m: Message)
      requires since <= |log| && Numbered(log, request) && m.generation == request + 1
      modifies this`request, this`log
      ensures request == old(request) + 1 && log == old(log) + [m] && Numbered(log, request)
      ensures Replay(Sent(log, since)) == Replay(old(Sent(log, since)) + [m])
      ensures forall c :: LastGeneration(log, c) ==
                if m.Subscribe? && c in m.channels then m.generation else LastGeneration(old(log), c)
    {
      forall c
        ensures LastGeneration(log + [m], c) ==
                  if m.Subscribe? && c in m.channels then m.generation else LastGeneration(log, c)
      {
        LastGenerationSnoc(log, m, c);
      }
      assert (log + [m])[since..] == log[since..] + [m];
      request, log := request + 1, log + [m];
    }

    method Remove(c: Channel)
      requires since <= |log| && Fenced(channels, request, log)
      modifies this`channels, this`request, this`log
      ensures channels == old(channels) - {c} && Fenced(channels, request, log)
      ensures old(log) <= log && old(request) <= request
      ensures connected ==> Replay(Sent(log, since)) == old(Replay(Sent(log, since))) - {c}
      ensures old(Wired(connected, channels, log, since)) ==> Wired(connected, channels, log, since)
      ensures Sends(old(log), old(request), log, request, channels, connected, {c}, Nothing)
    {
      SendsLeave(log, request, channels - {c}, connected, c);
      hide Numbered, LastGeneration, Replay, Sends;
      channels := channels - {c};
      if connected {
        ReplaySnoc(Sent(log, since), Unsubscribe(request + 1, c));
        Emit(Unsubscribe(request + 1, c));
      }
    }

    /** The same among the channels that a call removes. */
    method RemoveMore(c: Channel, ghost first: Channels, ghost log': seq<Message>, ghost request': nat)
      requires c in channels && channels.Keys <= first.Keys && since <= |log| && Fenced(channels, request, log)
      requires Sends(log', request', log, request, channels, connected, first.Keys - channels.Keys, Nothing)
      modifies this`channels, this`request, this`log
      ensures channels == old(channels) - {c} && Fenced(channels, request, log)
      ensures old(log) <= log && old(request) <= request
      ensures connected ==> Replay(Sent(log, since)) == old(Replay(Sent(log, since))) - {c}
      ensures old(Wired(connected, channels, log, since)) ==> Wired(connected, channels, log, since)
      ensures Sends(log', request', log, request, channels, connected, first.Keys - channels.Keys, Nothing)
    {
      hide *;
      ghost var before, logged, requested := channels, log, request;
      Remove(c);
      SendsThen(log', request', logged, requested, before, connected, first.Keys - before.Keys, log, request, channels,
                {c}, Nothing);
      assert first.Keys - channels.Keys == (first.Keys - before.Keys) + {c};
    }

    /** The same of a channel that is gone already. */
    method RemoveAgain(c: Channel, ghost first: Channels, ghost log': seq<Message>, ghost request': nat)
      requires c !in channels && channels.Keys <= first.Keys && since <= |log| && Fenced(channels, request, log)
      requires Sends(log', request', log, request, channels, connected, first.Keys - channels.Keys, Nothing)
      modifies this`channels, this`request, this`log
      ensures channels == old(channels) && Fenced(channels, request, log)
      ensures old(log) <= log && old(request) <= request
      ensures old(Wired(connected, channels, log, since)) ==> Wired(connected, channels, log, since)
      ensures Sends(log', request', log, request, channels, connected, first.Keys - channels.Keys,
                    if connected then LeavingAgain(c) else Nothing)
    {
      hide *;
      ghost var before, logged, requested := channels, log, request;
      Remove(c);
      assert channels == before;
      if connected {
        SendsAgain(logged, requested, log, request, before, c);
        SendsThen(log', request', logged, requested, before, connected, first.Keys - before.Keys, log, request,
                  channels, {}, LeavingAgain(c));
        assert first.Keys - channels.Keys == (first.Keys - before.Keys) + {};
      } else {
        SendsOffline(logged, requested, log, request, channels, {c});
      }
    }

    method SubscribeChannels(which: set<Channel>, restore: bool)
      requires since <= |log| && Fenced(channels, request, log)
      modifies this`channels, this`request, this`log
      ensures request == old(request) + 1 && old(log) <= log && old(request) <= request
      ensures channels == UpdateEach(old(channels), which, request) && Fenced(channels, request, log)
      ensures Replay(Sent(log, since)) == old(Replay(Sent(log, since))) + which
      ensures Sends(old(log), old(request), log, request, channels, connected, {}, Joining(which, restore))
    {
      hide Numbered, LastGeneration, Replay, Sends, Cursors;
      SendsSubscribe(log, request, which, restore, channels, connected);
      var m := Subscribe(request + 1, which, Cursors(channels, which), restore);
      ReplaySnoc(Sent(log, since), m);
      Emit(m);
      channels := UpdateEach(channels, which, request);
    }

    method RefreshBaseline(c: Channel)
      requires c in channels && since <= |log| && Fenced(channels, request, log)
      modifies this`channels, this`request, this`log
      ensures request == old(request) + 1 && old(log) <= log && old(request) <= request
      ensures channels == old(channels)[c := old(channels[c]).(baseline := Some(request), error := None)]
      ensures Fenced(channels, request, log) && Replay(Sent(log, since)) == old(Replay(Sent(log, since)))
      ensures Sends(old(log), old(request), log, request, channels, connected, {}, Refreshing(c))
    {
      hide Numbered, LastGeneration, Replay, Sends, Cursors;
      SendsRefresh(log, request, c, channels, connected);
      var m := Refresh(request + 1, c, Cursors(channels, {c}));
      ReplaySnoc(Sent(log, since), m);
      Emit(m);
      channels := channels[c := channels[c].(baseline := Some(request), error := None)];
    }

    // Acquire and release.

    method Acquire(c: Channel, cursor: Option<int>, freshBaseline: bool, retainWarm: bool, now: int, warmth: int)
      returns (lease: nat)
      requires Valid()
      modifies this`channels, this`request, this`log, this`leases
      ensures Valid() && old(log) <= log && old(request) <= request
      ensures lease == |old(leases)| && leases == old(leases) + [Lease(c, retainWarm, false)]
      ensures AcquireMove(old(Snap()), Snap(), c, cursor, freshBaseline, now, warmth)
      ensures Sends(old(log), old(request), log, request, channels, connected,
                    Dropped(old(Snap()), c, now, warmth), AcquireAsk(old(Snap()), c, freshBaseline, now, warmth))
    {
      hide Held, Replay, Warm, Fenced, Wired, Counted, Sends, AcquireAsk, Holding, Asked;
      AcquireParts(Snap(), c, cursor, freshBaseline, now, warmth);
      SendsNothing(log, request, channels, connected, {});
      if c in channels && Expired(channels[c], now, warmth) { Remove(c); }
      ghost var log', request', channels' := log, request, channels;
      AcquireRecord(c, cursor, freshBaseline, now);
      SendsThen(old(log), old(request), log', request', channels', connected, Dropped(old(Snap()), c, now, warmth),
                log, request, channels, {}, AcquireAsk(old(Snap()), c, freshBaseline, now, warmth));
      AcquireKeeps(maxWarm, old(Snap()), Snap(), c, cursor, freshBaseline, retainWarm, now, warmth);
      lease := |leases|;
      leases := leases + [Lease(c, retainWarm, false)];
    }

    /** Lines 37-53: join the record there is, or start one, and subscribe as needed. */
    method AcquireRecord(c: Channel, cursor: Option<int>, freshBaseline: bool, now: int)
      requires Wired(connected, channels, log, since) && Fenced(channels, request, log)
      modifies this`channels, this`request, this`log
      ensures Wired(connected, channels, log, since) && Fenced(channels, request, log)
      ensures old(log) <= log && old(request) <= request
      ensures channels.Keys == old(channels).Keys + {c} && OnlyAt(old(channels), channels, c)
      ensures
        var r := old(JoinedIn(channels, c, cursor, now));
        var ask := old(RecordAsk(channels, connected, c, freshBaseline));
        && channels[c] == Asked(r, ask, request)
        && Sends(old(log), old(request), log, request, channels, connected, {}, ask)
    {
      hide Numbered, LastGeneration, Replay, Sends;
      if c in channels {
        JoinRecord(c, cursor, freshBaseline, now);
      } else {
        channels := channels[c := Record(1, 0, None, cursor, Desired, None, None, now)];
        SendsNothing(log, request, channels, connected, {});
        if connected { SubscribeChannels({c}, false); }
      }
    }

    /** Lines 37-49: one holder more. */
    method JoinRecord(c: Channel, cursor: Option<int>, freshBaseline: bool, now: int)
      requires c in channels && Wired(connected, channels, log, since) && Fenced(channels, request, log)
      modifies this`channels, this`request, this`log
      ensures Wired(connected, channels, log, since) && Fenced(channels, request, log)
      ensures old(log) <= log && old(request) <= request
      ensures channels.Keys == old(channels).Keys && OnlyAt(old(channels), channels, c)
      ensures
        var ask := old(RecordAsk(channels, connected, c, freshBaseline));
        && channels[c] == Asked(old(Joined(channels[c], cursor, now)), ask, request)
        && Sends(old(log), old(request), log, request, channels, connected, {}, ask)
    {
      hide Numbered, LastGeneration, Replay, Sends;
      var r := channels[c];
      channels := channels[c := r.(warmUntil := None, refs := r.refs + 1, lastUsed := now,
                                   cursor := Advance(r.cursor, cursor))];
      SendsNothing(log, request, channels, connected, {});
      if connected && (r.state.Desired? || r.state.Rejected?) {
        SubscribeChannels({c}, false);
      } else if connected && freshBaseline {
        RefreshBaseline(c);
      }
    }

    method Release(lease: nat, now: int, warmth: int)
      requires Valid() && lease < |leases|
      modifies this`channels, this`request, this`log, this`leases
      ensures Valid() && old(log) <= log && old(request) <= request
      ensures leases == old(leases)[lease := old(leases)[lease].(released := true)]
      ensures ReleaseMove(maxWarm, old(channels), channels, old(leases)[lease], now, warmth)
      ensures Sends(old(log), old(request), log, request, channels, connected, old(channels).Keys - channels.Keys,
                    ReleaseAsk(maxWarm, old(Snap()), channels, lease, warmth))
    {
      hide Held, Replay, Fenced, Wired, Counted, LastMove, Warm, Sends;
      SendsNothing(log, request, channels, connected, {});
      assert channels.Keys - channels.Keys == {};
      if leases[lease].released { return; }
      var c := leases[lease].channel;
      MarkReleased(lease);
      ghost var marked := channels;
      assert marked.Keys == old(channels).Keys;
      SameRooms(old(channels), marked);
      SendsNothing(log, request, channels, connected, {});
      WarmShrinks(old(channels), marked);
      if channels[c].refs == 0 {
        LastRelease(c, leases[lease].retainWarm, now, warmth);
        LastMoveFrom(maxWarm, old(channels), marked, channels, c, leases[lease].retainWarm, now, warmth);
        LastMoveKeeps(maxWarm, marked, channels, leases, c, leases[lease].retainWarm, now, warmth);
      }
    }

    /** Lines 56-60: the lease is spent and its channel has one holder fewer. */
    method MarkReleased(lease: nat)
      requires Counted(channels, leases) && lease < |leases| && !leases[lease].released
      requires Wired(connected, channels, log, since) && Fenced(channels, request, log)
      modifies this`channels, this`leases
      ensures Counted(channels, leases)
      ensures Wired(connected, channels, log, since) && Fenced(channels, request, log)
      ensures leases == old(leases)[lease := old(leases)[lease].(released := true)]
      ensures
        var c := old(leases)[lease].channel;
        && c in old(channels) && old(channels)[c].refs >= 1
        && channels == old(channels)[c := old(channels)[c].(refs := old(channels)[c].refs - 1)]
    {
      hide Held;
      var c := leases[lease].channel;
      forall d
        ensures Held(leases[lease := leases[lease].(released := true)], d) == Held(leases, d) - if d == c then 1 else 0
      {
        HeldRelease(leases, lease, d);
      }
      HeldRelease(leases, lease, c);
      leases := leases[lease := leases[lease].(released := true)];
      channels := channels[c := channels[c].(refs := channels[c].refs - 1)];
    }

    /** Lines 61-65: the last holder is gone. */
    method LastRelease(c: Channel, retainWarm: bool, now: int, warmth: int)
      requires Wired(connected, channels, log, since) && Fenced(channels, request, log)
      requires c in channels && channels[c].refs == 0 && channels[c].warmUntil.None?
      requires |Warm(channels)| <= Max(0, maxWarm)
      modifies this`channels, this`request, this`log
      ensures Wired(connected, channels, log, since) && Fenced(channels, request, log)
      ensures old(log) <= log && old(request) <= request
      ensures |Warm(channels)| <= Max(0, maxWarm)
      ensures LastMove(maxWarm, old(channels), channels, c, retainWarm, now, warmth)
      ensures Sends(old(log), old(request), log, request, channels, connected, old(channels).Keys - channels.Keys,
                    LastAsk(maxWarm, old(channels[c].state), connected, channels, c, retainWarm, warmth))
    {
      hide Replay, Fenced, Sends, Wired;
      SendsNothing(log, request, channels, connected, {});
      assert channels.Keys - channels.Keys == {};
      if retainWarm && IsSession(c) && !channels[c].state.Rejected? {
        var kept := RetainWarm(c, now, warmth);
        if kept { return; }
      }
      ghost var before := channels;
      if c in channels {
        RemoveMore(c, old(channels), old(log), old(request));
      } else {
        RemoveAgain(c, old(channels), old(log), old(request));
      }
      WarmShrinks(before, channels);
    }

    /** `retainWarm`: keep the room for a while, evicting the least recently used ones above the cap. */
    method RetainWarm(c: Channel, now: int, warmth: int) returns (kept: bool)
      requires Wired(connected, channels, log, since) && Fenced(channels, request, log)
      requires c in channels && IsSession(c) && channels[c].refs == 0 && channels[c].warmUntil.None?
      requires |Warm(channels)| <= Max(0, maxWarm)
      modifies this`channels, this`request, this`log
      ensures Wired(connected, channels, log, since) && Fenced(channels, request, log)
      ensures old(log) <= log && old(request) <= request
      ensures kept <==> warmth > 0 && maxWarm > 0 && c in channels
      ensures warmth > 0 && maxWarm > 0 && Latest(old(channels), now) ==> kept
      ensures warmth <= 0 || maxWarm <= 0 ==> channels == old(channels)
      ensures |Warm(channels)| <= Max(0, maxWarm)
      ensures channels.Keys <= old(channels).Keys && OnlyAt(old(channels), channels, c)
      ensures c in channels ==>
                channels[c] == if kept then old(channels)[c].(lastUsed := now, warmUntil := Some(now + warmth))
                               else old(channels)[c]
      ensures forall d :: d in old(channels) && d !in channels ==> d == c || d in Warm(old(channels))
      ensures forall d :: d in old(channels) && d !in channels && d != c ==> OldestFirst(d, old(channels), channels)
      ensures Sends(old(log), old(request), log, request, channels, connected,
                    old(channels).Keys - channels.Keys, Nothing)
    {
      hide Replay, Numbered, LastGeneration, Sends;
      SendsNothing(log, request, channels, connected, {});
      assert channels.Keys - channels.Keys == {};
      if warmth <= 0 || maxWarm <= 0 { return false; }
      channels := channels[c := channels[c].(lastUsed := now, warmUntil := Some(now + warmth))];
      assert forall d :: d in Warm(channels) ==> d == c || d in Warm(old(channels));
      assert channels.Keys == old(channels).Keys;
      EvictAboveCap();
      kept := c in channels;
    }

    /** Evict warm sessions, least recently used first, until the cap holds. */
    method EvictAboveCap()
      requires Wired(connected, channels, log, since) && Fenced(channels, request, log) && maxWarm >= 0
      modifies this`channels, this`request, this`log
      ensures Wired(connected, channels, log, since) && Fenced(channels, request, log)
      ensures |Warm(channels)| <= maxWarm
      ensures old(log) <= log && old(request) <= request
      ensures channels == old(channels) || |Warm(channels)| == maxWarm
      ensures channels.Keys <= old(channels).Keys
      ensures forall d :: d in channels ==> channels[d] == old(channels)[d]
      ensures forall d :: d in old(channels) && d !in channels ==>
                d in Warm(old(channels)) && OldestFirst(d, old(channels), channels)
      ensures Sends(old(log), old(request), log, request, channels, connected,
                    old(channels).Keys - channels.Keys, Nothing)
    {
      hide Replay, Numbered, LastGeneration, Sends;
      SendsNothing(log, request, channels, connected, {});
      assert old(channels).Keys - channels.Keys == {};
      while |Warm(channels)| > maxWarm
        invariant Wired(connected, channels, log, since) && Fenced(channels, request, log)
        invariant old(log) <= log && old(request) <= request
        invariant channels == old(channels) || |Warm(channels)| >= maxWarm
        invariant channels.Keys <= old(channels).Keys
        invariant forall d :: d in channels ==> channels[d] == old(channels)[d]
        invariant forall d :: d in old(channels) && d !in channels ==>
                    d in Warm(old(channels)) && OldestFirst(d, old(channels), channels)
        invariant Sends(old(log), old(request), log, request, channels, connected,
                        old(channels).Keys - channels.Keys, Nothing)
        decreases |Warm(channels)|
      {
        HasOldest(channels, Warm(channels));
        var oldest :| IsOldest(channels, Warm(channels), oldest);
        ghost var before := channels;
        RemoveMore(oldest, old(channels), old(log), old(request));
        assert Warm(channels) == Warm(before) - {oldest};
      }
    }

    // Cursors, connection events and timers.

    method SetCursor(c: Channel, cursor: int)
      requires Valid()
      modifies this`channels
      ensures Valid() && channels == CursorSet(old(channels), c, cursor)
      ensures channels.Keys == old(channels).Keys
    {
      hide Held, Replay, Numbered, LastGeneration;
      if c in channels {
        channels := channels[c := channels[c].(cursor := Advance(channels[c].cursor, Some(cursor)))];
      }
      assert Warm(channels) == Warm(old(channels));
    }

    /** `refresh`; when the socket is down the source asks it to connect, which is a later `Connect`. */
    method RefreshChannel(c: Channel)
      requires Valid()
      modifies this`channels, this`request, this`log
      ensures Valid() && old(log) <= log && old(request) <= request && channels == Refreshed(old(Snap()), c, request)
      ensures channels.Keys == old(channels).Keys
      ensures Sends(old(log), old(request), log, request, channels, connected, {}, old(RefreshAsk(Snap(), c)))
    {
      hide Held, Replay, Fenced, Sends, Warm;
      SendsNothing(log, request, channels, connected, {});
      assert c in channels ==> channels[c := channels[c]] == channels;
      if c !in channels || !connected { return; }
      if channels[c].state.Active? || channels[c].state.Subscribing? {
        RefreshBaseline(c);
      } else {
        SubscribeChannels({c}, false);
      }
      assert channels == old(channels)[c := channels[c]];
      RecordKeeps(maxWarm, old(channels), channels, leases, c);
    }

    method Disconnect()
      requires Valid()
      modifies this`connected, this`channels
      ensures Valid() && !connected && channels == Disconnected(old(channels))
      ensures channels.Keys == old(channels).Keys
    {
      hide Held, Replay, Numbered, LastGeneration;
      connected := false;
      channels := Disconnected(channels);
      assert Warm(channels) == Warm(old(channels));
    }

    /** A reconnect: a new connection, on which `restore` drops expired rooms and subscribes to all others at once. */
    method Connect(now: int, warmth: int)
      requires Valid()
      modifies this`connected, this`channels, this`request, this`log, this`since
      ensures Valid() && connected && since == |old(log)| && old(log) <= log && old(request) <= request
      ensures ConnectMove(old(Snap()), Snap(), now, warmth)
      ensures Sends(old(log), old(request), log, request, channels, connected,
                    old(channels).Keys - channels.Keys, RestoreAsk(channels))
    {
      hide Held, Warm, Numbered, LastGeneration, Sends;
      connected, since := true, |log|;
      assert Sent(log, since) == [];
      Restore(now, warmth);
    }

    /** `restore`: drop expired rooms and subscribe to all others in one batch. */
    method Restore(now: int, warmth: int)
      requires connected && since <= |log| && Replay(Sent(log, since)) <= channels.Keys
      requires Counted(channels, leases) && Capped(maxWarm, channels) && Fenced(channels, request, log)
      modifies this`channels, this`request, this`log
      ensures Valid() && old(log) <= log && old(request) <= request && ConnectMove(old(Snap()), Snap(), now, warmth)
      ensures Sends(old(log), old(request), log, request, channels, connected,
                    old(channels).Keys - channels.Keys, RestoreAsk(channels))
    {
      hide Held, Warm, Replay, Numbered, LastGeneration, Sends;
      DropExpired(now, warmth);
      ghost var log', request', channels' := log, request, channels;
      if channels.Keys != {} {
        SubscribeChannels(channels.Keys, true);
        SendsThen(old(log), old(request), log', request', channels', connected, old(channels).Keys - channels'.Keys,
                  log, request, channels, {}, Joining(channels'.Keys, true));
        assert channels.Keys == channels'.Keys;
        assert old(channels).Keys - channels.Keys == (old(channels).Keys - channels'.Keys) + {};
      }
      WarmShrinks(old(channels), channels);
    }

    /** The first loop of `restore`. */
    method DropExpired(now: int, warmth: int)
      requires since <= |log| && Fenced(channels, request, log)
      modifies this`channels, this`request, this`log
      ensures Fenced(channels, request, log) && old(log) <= log && old(request) <= request
      ensures forall c :: c in channels <==> c in old(channels) && !Expired(old(channels)[c], now, warmth)
      ensures forall c :: c in channels ==> channels[c] == old(channels)[c]
      ensures connected ==>
                Replay(Sent(log, since)) == old(Replay(Sent(log, since))) - (old(channels).Keys - channels.Keys)
      ensures Sends(old(log), old(request), log, request, channels, connected,
                    old(channels).Keys - channels.Keys, Nothing)
    {
      hide Replay, Fenced, Sends;
      SendsNothing(log, request, channels, connected, {});
      assert old(channels).Keys - channels.Keys == {};
      var todo := channels.Keys;
      while todo != {}
        invariant todo <= channels.Keys <= old(channels).Keys
        invariant forall c :: c in channels ==> channels[c] == old(channels)[c]
        invariant forall c :: c in old(channels) && c !in todo ==>
                    (c in channels <==> !Expired(old(channels)[c], now, warmth))
        invariant connected ==>
                    Replay(Sent(log, since)) == old(Replay(Sent(log, since))) - (old(channels).Keys - channels.Keys)
        invariant Fenced(channels, request, log) && old(log) <= log && old(request) <= request
        invariant Sends(old(log), old(request), log, request, channels, connected,
                        old(channels).Keys - channels.Keys, Nothing)
        decreases |todo|
      {
        var c :| c in todo;
        if Expired(channels[c], now, warmth) { RemoveMore(c, old(channels), old(log), old(request)); }
        todo := todo - {c};
      }
    }

    /** `updateWarmth`: recompute the warm leases for a new warmth setting. */
    method UpdateWarmth(now: int, warmth: int)
      requires Valid()
      modifies this`channels, this`request, this`log
      ensures Valid() && old(log) <= log && old(request) <= request
      ensures WarmthMove(maxWarm, old(Snap()), Snap(), now, warmth)
      ensures Sends(old(log), old(request), log, request, channels, connected,
                    old(channels).Keys - channels.Keys, Nothing)
    {
      hide Held, Replay, Warm, Lapses, Fenced, Wired, Counted, Rewarmed, IsWarm, Sends;
      SendsNothing(log, request, channels, connected, {});
      assert old(channels).Keys - channels.Keys == {};
      var todo := channels.Keys;
      while todo != {}
        invariant todo <= channels.Keys <= old(channels).Keys
        invariant forall c :: c in todo ==> channels[c] == old(channels)[c]
        invariant forall c :: c in channels && c !in todo ==> channels[c] == Rewarmed(old(channels)[c], warmth)
        invariant forall c :: c in old(channels) && c !in todo ==>
                    (c in channels <==> !(IsWarm(old(channels)[c]) && Lapses(maxWarm, old(channels)[c], now, warmth)))
        invariant Wired(connected, channels, log, since) && Fenced(channels, request, log)
        invariant old(log) <= log && old(request) <= request
        invariant Sends(old(log), old(request), log, request, channels, connected,
                        old(channels).Keys - channels.Keys, Nothing)
        decreases |todo|
      {
        var c :| c in todo;
        Rewarm(c, now, warmth, old(channels), old(log), old(request));
        todo := todo - {c};
      }
      WarmthEnds(maxWarm, old(channels), channels, leases, now, warmth);
    }

    /** The body of that loop. */
    method Rewarm(
      c: Channel, now: int, warmth: int, ghost first: Channels, ghost log': seq<Message>, ghost request': nat)
      requires c in channels && Wired(connected, channels, log, since) && Fenced(channels, request, log)
      requires channels.Keys <= first.Keys
      requires Sends(log', request', log, request, channels, connected, first.Keys - channels.Keys, Nothing)
      modifies this`channels, this`request, this`log
      ensures channels
           == if old(IsWarm(channels[c]) && Lapses(maxWarm, channels[c], now, warmth)) then old(channels) - {c}
              else old(channels)[c := Rewarmed(old(channels)[c], warmth)]
      ensures Wired(connected, channels, log, since) && Fenced(channels, request, log)
      ensures old(log) <= log && old(request) <= request
      ensures Sends(log', request', log, request, channels, connected, first.Keys - channels.Keys, Nothing)
    {
      hide Replay, Numbered, LastGeneration, Lapses, Departs;
      if IsWarm(channels[c]) && Lapses(maxWarm, channels[c], now, warmth) {
        RemoveMore(c, first, log', request');
      } else {
        channels := channels[c := Rewarmed(channels[c], warmth)];
        assert first.Keys - channels.Keys == first.Keys - old(channels).Keys;
      }
    }

    /** The expiry timer of `retainWarm`: it never touches a held channel. */
    method Expire(c: Channel, now: int, warmth: int)
      requires Valid()
      modifies this`channels, this`request, this`log
      ensures Valid() && old(log) <= log && old(request) <= request && channels == Lapsed(old(channels), c, now, warmth)
      ensures Sends(old(log), old(request), log, request, channels, connected,
                    old(channels).Keys - channels.Keys, Nothing)
    {
      hide Held, Replay, Numbered, LastGeneration, Sends;
      SendsNothing(log, request, channels, connected, {});
      assert channels.Keys - channels.Keys == {};
      if c !in channels || channels[c].refs > 0 || channels[c].warmUntil.None? { return; }
      if channels[c].warmUntil.value - now > 0 && warmth > 0 { return; }
      Remove(c);
      assert old(channels).Keys - channels.Keys == {c};
      WarmShrinks(old(channels), channels);
    }

    // Acknowledgements.

    method ApplyAck(res: SubscriptionResult)
      requires Valid()
      modifies this`channels
      ensures Valid() && channels == AckedAll(old(channels), res)
      ensures channels.Keys == old(channels).Keys
    {
      AckedKeeps(channels, res);
      hide Held, Replay, Warm, Numbered, LastGeneration, Acked, AckedAll;
      channels := AckedAll(channels, res);
      WarmShrinks(old(channels), channels);
    }

    method SubscribeTimeout(which: set<Channel>, generation: nat)
      requires Valid()
      modifies this`channels
      ensures Valid() && channels == TimedOut(old(channels), which, generation)
      ensures channels.Keys == old(channels).Keys
    {
      hide Held, Replay, Warm, Numbered, LastGeneration;
      channels := TimedOut(channels, which, generation);
      WarmShrinks(old(channels), channels);
    }

    method BaselineAck(res: SubscriptionResult)
      requires Valid()
      modifies this`channels
      ensures Valid() && channels == BaselineAckedAll(old(channels), res)
      ensures channels.Keys == old(channels).Keys
    {
      BaselineKeeps(channels, res);
      hide Held, Replay, Warm, Numbered, LastGeneration, BaselineAcked, BaselineAckedAll;
      channels := BaselineAckedAll(channels, res);
      WarmShrinks(old(channels), channels);
    }
  }

  // ---------------------------------------------------------------------------------
  // Whole runs.

  datatype Call =
    | Acquires(channel: Channel, cursor: Option<int>, freshBaseline: bool, retainWarm: bool)
    | Releases(lease: nat)
    | SetsCursor(channel: Channel, to: int)
    | Refreshes(channel: Channel)
    | Connects
    | Disconnects
    | WarmthChanges
    | TimerFires(channel: Channel)
    | AckArrives(result: SubscriptionResult)
    | BaselineArrives(result: SubscriptionResult)
    | TimesOut(which: set<Channel>, generation: nat)

  /** A call, with the clock and the warmth setting at that moment. */
  datatype Tick = Tick(call: Call, now: int, warmth: int)

  function NextLeases(leases: seq<Lease>, call: Call): seq<Lease> {
    match call
    case Acquires(c, _, _, retainWarm) => leases + [Lease(c, retainWarm, false)]
    case Releases(lease) =>
      if lease < |leases| then leases[lease := leases[lease].(released := true)] else leases
    case _ => leases
  }

  /** The acquisitions of a run and which of them were released. */
  function LeasesAfter(ticks: seq<Tick>): seq<Lease> {
    if ticks == [] then [] else NextLeases(LeasesAfter(ticks[..|ticks| - 1]), ticks[|ticks| - 1].call)
  }

  /** The last connection event of a run was a connect. */
  function ConnectedAfter(ticks: seq<Tick>): bool {
    if ticks == [] then false
    else
      var n := |ticks| - 1;
      ticks[n].call.Connects? || (!ticks[n].call.Disconnects? && ConnectedAfter(ticks[..n]))
  }

  ghost predicate ChannelsMove(maxWarm: int, a: Snapshot, tick: Tick, b: Snapshot) {
    match tick.call
    case Acquires(c, cursor, renew, _) => AcquireMove(a, b, c, cursor, renew, tick.now, tick.warmth)
    case Releases(lease) =>
      if lease < |a.leases| then ReleaseMove(maxWarm, a.channels, b.channels, a.leases[lease], tick.now, tick.warmth)
      else b.channels == a.channels
    case SetsCursor(c, to) => b.channels == CursorSet(a.channels, c, to)
    case Refreshes(c) => b.channels == Refreshed(a, c, b.request)
    case Connects => ConnectMove(a, b, tick.now, tick.warmth)
    case Disconnects => b.channels == Disconnected(a.channels)
    case WarmthChanges => WarmthMove(maxWarm, a, b, tick.now, tick.warmth)
    case TimerFires(c) => b.channels == Lapsed(a.channels, c, tick.now, tick.warmth)
    case AckArrives(result) => b.channels == AckedAll(a.channels, result)
    case BaselineArrives(result) => b.channels == BaselineAckedAll(a.channels, result)
    case TimesOut(which, generation) => b.channels == TimedOut(a.channels, which, generation)
  }

  /** What one call does. */
  ghost predicate Moves(maxWarm: int, a: Snapshot, tick: Tick, b: Snapshot) {
    && b.leases == NextLeases(a.leases, tick.call)
    && b.connected == (tick.call.Connects? || (!tick.call.Disconnects? && a.connected))
    && b.since == (if tick.call.Connects? then |a.log| else a.since)
    && a.log <= b.log && a.request <= b.request
    && ChannelsMove(maxWarm, a, tick, b)
    && Sends(a.log, a.request, b.log, b.request, b.channels, b.connected, Left(a, tick, b),
             AskedBy(maxWarm, a, tick, b))
  }

  /** The rooms that a call leaves: an expired record is dropped before a new one starts. */
  function Left(a: Snapshot, tick: Tick, b: Snapshot): set<Channel> {
    if tick.call.Acquires? then Dropped(a, tick.call.channel, tick.now, tick.warmth)
    else a.channels.Keys - b.channels.Keys
  }

  /** What a call asks for; a new connection joins all rooms at once. */
  function AskedBy(maxWarm: int, a: Snapshot, tick: Tick, b: Snapshot): Ask {
    match tick.call
    case Acquires(c, _, renew, _) => AcquireAsk(a, c, renew, tick.now, tick.warmth)
    case Releases(lease) => ReleaseAsk(maxWarm, a, b.channels, lease, tick.warmth)
    case Refreshes(c) => RefreshAsk(a, c)
    case Connects => RestoreAsk(b.channels)
    case _ => Nothing
  }

  /** The calls that never leave or join a room. */
  predicate OnRecords(call: Call) {
    call.SetsCursor? || call.Disconnects? || call.AckArrives? || call.BaselineArrives? || call.TimesOut?
  }

  method Serve(m: Manager, tick: Tick)
    requires m.Valid()
    modifies m
    ensures m.Valid() && Moves(m.maxWarm, old(m.Snap()), tick, m.Snap())
  {
    if OnRecords(tick.call) {
      ServeRecords(m, tick);
    } else if tick.call.Acquires? || tick.call.Releases? {
      ServeLeases(m, tick);
    } else {
      ServeRooms(m, tick);
    }
    hide Moves, Sound;
  }

  method ServeRecords(m: Manager, tick: Tick)
    requires m.Valid() && OnRecords(tick.call)
    modifies m`connected, m`channels
    ensures m.Valid() && Moves(m.maxWarm, old(m.Snap()), tick, m.Snap())
  {
    hide Sound, Sends, CursorSet, Disconnected, AckedAll, BaselineAckedAll, TimedOut;
    ghost var before := m.channels;
    match tick.call {
      case SetsCursor(c, to) => m.SetCursor(c, to);
      case Disconnects => m.Disconnect();
      case AckArrives(result) => m.ApplyAck(result);
      case BaselineArrives(result) => m.BaselineAck(result);
      case TimesOut(which, generation) => m.SubscribeTimeout(which, generation);
    }
    SameRooms(before, m.channels);
    SendsNothing(m.log, m.request, m.channels, m.connected, {});
  }

  method ServeLeases(m: Manager, tick: Tick)
    requires m.Valid() && (tick.call.Acquires? || tick.call.Releases?)
    modifies m
    ensures m.Valid() && Moves(m.maxWarm, old(m.Snap()), tick, m.Snap())
  {
    hide Sound, Sends, AcquireMove, ReleaseMove, AcquireAsk, Dropped;
    match tick.call {
      case Acquires(c, cursor, freshBaseline, retainWarm) =>
        var lease := m.Acquire(c, cursor, freshBaseline, retainWarm, tick.now, tick.warmth);
      case Releases(lease) =>
        if lease < |m.leases| {
          m.Release(lease, tick.now, tick.warmth);
        } else {
          SameRooms(m.channels, m.channels);
          SendsNothing(m.log, m.request, m.channels, m.connected, {});
        }
    }
  }

  method ServeRooms(m: Manager, tick: Tick)
    requires m.Valid() && !OnRecords(tick.call) && !tick.call.Acquires? && !tick.call.Releases?
    modifies m
    ensures m.Valid() && Moves(m.maxWarm, old(m.Snap()), tick, m.Snap())
  {
    hide Sound, Sends, Refreshed, ConnectMove, WarmthMove, Lapsed, RefreshAsk, RestoreAsk;
    match tick.call {
      case Refreshes(c) =>
        ghost var before := m.channels;
        m.RefreshChannel(c);
        SameRooms(before, m.channels);
      case Connects => m.Connect(tick.now, tick.warmth);
      case WarmthChanges => m.UpdateWarmth(tick.now, tick.warmth);
      case TimerFires(c) => m.Expire(c, tick.now, tick.warmth);
    }
  }

  const INITIAL := Snapshot(false, map[], 0, [], 0, [])

  /** The states of a run, one before each call and one at the end. */
  ghost predicate IsRun(maxWarm: int, ticks: seq<Tick>, trace: seq<Snapshot>) {
    && |trace| == |ticks| + 1 && trace[0] == INITIAL
    && (forall i :: 0 <= i < |trace| ==> Sound(maxWarm, trace[i]))
    && (forall i :: 0 <= i < |ticks| ==> Moves(maxWarm, trace[i], ticks[i], trace[i + 1]))
  }

  lemma {:induction false} RunFollows(maxWarm: int, ticks: seq<Tick>, trace: seq<Snapshot>, i: nat)
    requires IsRun(maxWarm, ticks, trace) && i <= |ticks|
    ensures trace[i].leases == LeasesAfter(ticks[..i]) && trace[i].connected == ConnectedAfter(ticks[..i])
  {
    if i > 0 {
      hide Sound, ChannelsMove, NextLeases, Sends, Left, AskedBy;
      RunFollows(maxWarm, ticks, trace, i - 1);
      assert ticks[..i][..i - 1] == ticks[..i - 1];
      assert Moves(maxWarm, trace[i - 1], ticks[i - 1], trace[i]);
    }
  }

  /**
   * Any run whatsoever, state by state: each state follows from the call; on a live connection the messages of
   * that connection, replayed in order, give exactly the channels the manager has; references count the
   * acquisitions of the run that it has not released; whatever nobody holds is a warm session, and there are
   * never more of those than the cap.
   */
  method RunManager(maxWarm: int, ticks: seq<Tick>) returns (trace: seq<Snapshot>)
    ensures IsRun(maxWarm, ticks, trace)
    ensures forall i :: 0 <= i < |trace| ==>
      && trace[i].leases == LeasesAfter(ticks[..i]) && trace[i].connected == ConnectedAfter(ticks[..i])
    ensures forall i :: 0 <= i < |trace| && trace[i].connected ==>
      Replay(Sent(trace[i].log, trace[i].since)) == trace[i].channels.Keys
    ensures forall i, c :: 0 <= i < |trace| && c in trace[i].channels ==>
      trace[i].channels[c].refs == Held(LeasesAfter(ticks[..i]), c) && LeaseOk(c, trace[i].channels[c])
    ensures forall i, c :: 0 <= i < |trace| && c !in trace[i].channels ==> Held(LeasesAfter(ticks[..i]), c) == 0
    ensures forall i :: 0 <= i < |trace| ==> |Warm(trace[i].channels)| <= Max(0, maxWarm)
  {
    hide Moves, LeasesAfter, ConnectedAfter, Held, Warm, Replay, Fenced, LeaseOk;
    var m := new Manager(maxWarm);
    trace := [m.Snap()];
    for n := 0 to |ticks|
      invariant m.Valid() && m.maxWarm == maxWarm && fresh(m) && |trace| == n + 1
      invariant trace[0] == INITIAL && trace[n] == m.Snap()
      invariant forall i :: 0 <= i <= n ==> Sound(maxWarm, trace[i])
      invariant forall i :: 0 <= i < n ==> Moves(maxWarm, trace[i], ticks[i], trace[i + 1])
    {
      hide Sound;
      Serve(m, ticks[n]);
      trace := trace + [m.Snap()];
    }
    forall i | 0 <= i < |trace|
      ensures trace[i].leases == LeasesAfter(ticks[..i]) && trace[i].connected == ConnectedAfter(ticks[..i])
    {
      RunFollows(maxWarm, ticks, trace, i);
    }
  }

  /** The call starts a new record although there was one, which had expired. */
  predicate Replaces(a: Snapshot, tick: Tick, c: Channel) {
    tick.call.Acquires? && tick.call.channel == c && c in a.channels && Expired(a.channels[c], tick.now, tick.warmth)
  }

  /** A record that survives a call keeps its cursor, and only an acknowledgement makes it active. */
  lemma {:induction false} MoveLives(maxWarm: int, a: Snapshot, tick: Tick, b: Snapshot, c: Channel)
    requires Sound(maxWarm, a) && Moves(maxWarm, a, tick, b)
    requires c in a.channels && c in b.channels && !Replaces(a, tick, c)
    ensures CursorKept(a.channels[c].cursor, b.channels[c].cursor)
    ensures !tick.call.AckArrives? ==> LivesOn(a.channels[c], b.channels[c])
  {
    hide Wired, Counted, Capped, Warm, LastGeneration, Numbered, Lapses, MayStay, Latest, OldestFirst, Sends;
  }

  /** A record that a call puts there anew is not active. */
  lemma {:induction false} MoveStarts(maxWarm: int, a: Snapshot, tick: Tick, b: Snapshot, c: Channel)
    requires Moves(maxWarm, a, tick, b) && c in b.channels && (c !in a.channels || Replaces(a, tick, c))
    ensures !b.channels[c].state.Active?
  {
    hide Warm, Lapses, MayStay, Latest, OldestFirst, Sends;
  }

  // ---------------------------------------------------------------------------------
  // The messages of a run, and the fields of a record that survives a call.

  /**
   * A message and the record it is about agree once the call is over: what it subscribes to waits under its
   * generation, what it refreshes waits for it as a baseline, and it carries the cursors of these records.
   */
  ghost predicate MessageFits(a: Snapshot, b: Snapshot, m: Message) {
    && CarriesCursors(m, b.channels)
    && match m
       case Subscribe(generation, which, _, _) =>
         forall c :: c in which ==>
           && c in b.channels && b.channels[c].state.Subscribing? && b.channels[c].generation == generation
           && b.channels[c].baseline.None? && b.channels[c].error.None?
       case Refresh(generation, c, _) =>
         && c in a.channels && c in b.channels && b.channels[c].baseline == Some(generation)
         && b.channels[c].error.None? && b.channels[c].state == a.channels[c].state
         && (b.channels[c].state.Subscribing? || b.channels[c].state.Active?)
       case Unsubscribe(_, c) => c in a.channels
  }

  lemma {:induction false} MoveSends(maxWarm: int, a: Snapshot, tick: Tick, b: Snapshot, i: nat)
    requires Moves(maxWarm, a, tick, b) && |a.log| <= i < |b.log|
    ensures MessageFits(a, b, b.log[i]) && b.log[i].generation == a.request + 1 + i - |a.log|
    ensures b.log[i].Subscribe? && b.log[i].restore ==> tick.call.Connects?
    ensures !b.log[i].Unsubscribe? ==> i == |b.log| - 1
  {
    hide Moves, Sends, MessageFits;
    var ask := AskedBy(maxWarm, a, tick, b);
    MoveParts(maxWarm, a, tick, b);
    SendsAt(a.log, a.request, b.log, b.request, b.channels, b.connected, Left(a, tick, b), ask, i);
    if i < |b.log| - 1 || ask.Nothing? {
      LeftHeld(maxWarm, a, tick, b);
      LeaveFits(a, b, b.log[i]);
    } else {
      AskFits(maxWarm, a, tick, b, b.log[i]);
    }
  }

  lemma {:induction false} MoveParts(maxWarm: int, a: Snapshot, tick: Tick, b: Snapshot)
    requires Moves(maxWarm, a, tick, b)
    ensures Sends(a.log, a.request, b.log, b.request, b.channels, b.connected, Left(a, tick, b),
                  AskedBy(maxWarm, a, tick, b))
    ensures ChannelsMove(maxWarm, a, tick, b)
  {
    hide Sends, ChannelsMove;
  }

  lemma {:induction false} SendsAt(
    log: seq<Message>, request: nat, longer: seq<Message>, request': nat, channels: Channels, connected: bool,
    gone: set<Channel>, ask: Ask, i: nat)
    requires Sends(log, request, longer, request', channels, connected, gone, ask) && |log| <= i < |longer|
    ensures longer[i].generation == request + 1 + i - |log|
    ensures if i < |longer| - 1 || ask.Nothing? then longer[i].Unsubscribe? && longer[i].channel in gone
            else Asks(ask, longer[i], request', channels)
  {
    hide Asks;
    if i < |longer| - 1 || ask.Nothing? {
      var n := |longer| - if ask.Nothing? then 0 else 1;
      assert longer[..n][i] == longer[i];
    } else {
      AsksUnder(ask, longer[i], request', channels);
    }
  }

  lemma {:induction false} AsksUnder(ask: Ask, m: Message, generation: nat, channels: Channels)
    requires Asks(ask, m, generation, channels)
    ensures m.generation == generation
  {
  }

  lemma {:induction false} LeftHeld(maxWarm: int, a: Snapshot, tick: Tick, b: Snapshot)
    ensures Left(a, tick, b) <= a.channels.Keys
  {
  }

  lemma {:induction false} LeaveFits(a: Snapshot, b: Snapshot, m: Message)
    requires m.Unsubscribe? && m.channel in a.channels
    ensures MessageFits(a, b, m)
  {
  }

  lemma {:induction false} AskFits(maxWarm: int, a: Snapshot, tick: Tick, b: Snapshot, m: Message)
    requires ChannelsMove(maxWarm, a, tick, b) && Asks(AskedBy(maxWarm, a, tick, b), m, b.request, b.channels)
    ensures MessageFits(a, b, m)
    ensures m.Subscribe? && m.restore ==> tick.call.Connects?
  {
    hide CursorsOf, LastMove, Warm;
  }

  /** Every message of a run was sent by one of its calls, and fits the records as they are after that call. */
  lemma {:induction false} MessagesFit(maxWarm: int, ticks: seq<Tick>, trace: seq<Snapshot>, n: nat, p: nat)
    returns (k: nat)
    requires IsRun(maxWarm, ticks, trace) && n < |trace| && p < |trace[n].log|
    ensures k < n && |trace[k].log| <= p < |trace[k + 1].log| && trace[k + 1].log[p] == trace[n].log[p]
    ensures MessageFits(trace[k], trace[k + 1], trace[n].log[p])
    ensures trace[n].log[p].Subscribe? && trace[n].log[p].restore ==> ticks[k].call.Connects?
  {
    hide Sound, Moves, MessageFits;
    if n == 0 { return; }
    if p < |trace[n - 1].log| {
      k := MessagesFit(maxWarm, ticks, trace, n - 1, p);
      LogGrows(maxWarm, ticks, trace, n - 1, n);
    } else {
      k := n - 1;
      MoveSends(maxWarm, trace[k], ticks[k], trace[n], p);
    }
  }

  /** The one message that subscribes to these channels. */
  predicate IsJoin(m: Message, which: set<Channel>, restore: bool) {
    m.Subscribe? && m.channels == which && m.restore == restore
  }

  /**
   * What acquiring sends: nothing without a connection; otherwise it leaves the room of a record that has expired,
   * and then subscribes to this channel alone if there was no live record or it was desired or rejected, refreshes
   * it, with the baseline awaited under that generation, if the caller wants a new baseline, or sends nothing more.
   */
  lemma {:induction false} AcquireSends(maxWarm: int, a: Snapshot, tick: Tick, b: Snapshot)
    requires Moves(maxWarm, a, tick, b) && tick.call.Acquires?
    ensures
      var c, sent := tick.call.channel, b.log[|a.log|..];
      var expired := c in a.channels && Expired(a.channels[c], tick.now, tick.warmth);
      if !a.connected then sent == []
      else if expired then
        |sent| == 2 && sent[0] == Unsubscribe(a.request + 1, c) && IsJoin(sent[1], {c}, false)
      else if c !in a.channels || a.channels[c].state.Desired? || a.channels[c].state.Rejected? then
        |sent| == 1 && IsJoin(sent[0], {c}, false)
      else if tick.call.freshBaseline then
        && |sent| == 1 && sent[0].Refresh? && sent[0].channel == c
        && b.channels[c].baseline == Some(sent[0].generation) && b.channels[c].error.None?
      else sent == []
  {
    hide Moves, ChannelsMove, Sends;
    MoveParts(maxWarm, a, tick, b);
    AcquireMoves(maxWarm, a, tick, b);
    var c, ask, gone := tick.call.channel, AskedBy(maxWarm, a, tick, b), Left(a, tick, b);
    SendsCount(a.log, a.request, b.log, b.request, b.channels, b.connected, gone, ask);
    if a.connected {
      forall i | |a.log| <= i < |b.log|
        ensures b.log[i].generation == a.request + 1 + i - |a.log|
        ensures if i < |b.log| - 1 || ask.Nothing? then b.log[i].Unsubscribe? && b.log[i].channel in gone
                else Asks(ask, b.log[i], b.request, b.channels)
      {
        SendsAt(a.log, a.request, b.log, b.request, b.channels, b.connected, gone, ask, i);
      }
    }
  }

  lemma {:induction false} AcquireMoves(maxWarm: int, a: Snapshot, tick: Tick, b: Snapshot)
    requires Moves(maxWarm, a, tick, b) && tick.call.Acquires?
    ensures a.log <= b.log && b.connected == a.connected
    ensures AcquireMove(a, b, tick.call.channel, tick.call.cursor, tick.call.freshBaseline, tick.now, tick.warmth)
  {
    hide Sends, AcquireMove;
  }

  lemma {:induction false} SendsCount(
    log: seq<Message>, request: nat, longer: seq<Message>, request': nat, channels: Channels, connected: bool,
    gone: set<Channel>, ask: Ask)
    requires Sends(log, request, longer, request', channels, connected, gone, ask)
    ensures |longer| == |log| + (if connected then |gone| else 0) + if ask.Nothing? then 0 else 1
    ensures request' == request + |longer| - |log|
  {
    hide Asks;
  }

  /** What `refresh` sends on a live connection: a refresh of a subscribed record, a subscription of any other. */
  lemma {:induction false} RefreshSends(maxWarm: int, a: Snapshot, tick: Tick, b: Snapshot)
    requires Moves(maxWarm, a, tick, b) && tick.call.Refreshes?
    ensures
      var c, sent := tick.call.channel, b.log[|a.log|..];
      if !a.connected || c !in a.channels then sent == []
      else if a.channels[c].state.Active? || a.channels[c].state.Subscribing? then
        |sent| == 1 && sent[0].Refresh? && sent[0].channel == c
      else |sent| == 1 && IsJoin(sent[0], {c}, false)
  {
    hide ChannelsMove, Sends;
    MoveParts(maxWarm, a, tick, b);
    var c, ask, gone := tick.call.channel, AskedBy(maxWarm, a, tick, b), Left(a, tick, b);
    hide Moves;
    assert gone == {} by { RefreshKeys(maxWarm, a, tick, b); }
    SendsCount(a.log, a.request, b.log, b.request, b.channels, b.connected, gone, ask);
    if !ask.Nothing? {
      SendsAt(a.log, a.request, b.log, b.request, b.channels, b.connected, gone, ask, |a.log|);
    }
  }

  lemma {:induction false} RefreshKeys(maxWarm: int, a: Snapshot, tick: Tick, b: Snapshot)
    requires ChannelsMove(maxWarm, a, tick, b) && tick.call.Refreshes?
    ensures Left(a, tick, b) == {}
  {
    hide Asked, RefreshAsk;
  }

  /**
   * What a new connection sends: it leaves each expired room, and then one restore message names exactly the
   * channels that remain, if there are any.
   */
  lemma {:induction false} ConnectSends(maxWarm: int, a: Snapshot, tick: Tick, b: Snapshot)
    requires Moves(maxWarm, a, tick, b) && tick.call.Connects?
    ensures
      var sent, gone := b.log[|a.log|..], a.channels.Keys - b.channels.Keys;
      && |sent| == |gone| + (if b.channels.Keys == {} then 0 else 1)
      && (forall i :: 0 <= i < |gone| ==> sent[i].Unsubscribe? && sent[i].channel in gone)
      && (forall c :: c in gone ==> exists i :: 0 <= i < |gone| && sent[i] == Unsubscribe(sent[i].generation, c))
      && (b.channels.Keys != {} ==> IsJoin(sent[|gone|], b.channels.Keys, true))
  {
    hide ChannelsMove, Sends;
    assert b.connected && AskedBy(maxWarm, a, tick, b) == RestoreAsk(b.channels);
    MoveParts(maxWarm, a, tick, b);
    hide Moves;
    SendsSeq(a.log, a.request, b.log, b.request, b.channels, Left(a, tick, b), RestoreAsk(b.channels));
  }

  /** The same on the messages added. */
  lemma {:induction false} SendsSeq(
    log: seq<Message>, request: nat, longer: seq<Message>, request': nat, channels: Channels, gone: set<Channel>,
    ask: Ask)
    requires Sends(log, request, longer, request', channels, true, gone, ask)
    ensures
      var sent := longer[|log|..];
      && |sent| == |gone| + (if ask.Nothing? then 0 else 1)
      && (forall i :: 0 <= i < |gone| ==> sent[i].Unsubscribe? && sent[i].channel in gone)
      && (forall c :: c in gone ==> exists i :: 0 <= i < |gone| && sent[i] == Unsubscribe(sent[i].generation, c))
      && (!ask.Nothing? ==> Asks(ask, sent[|gone|], request', channels))
  {
    hide Asks;
    var sent, n := longer[|log|..], |log| + |gone|;
    assert forall i :: |log| <= i < n ==> longer[..n][i] == sent[i - |log|];
    forall i | 0 <= i < |gone| ensures sent[i].Unsubscribe? && sent[i].channel in gone {
      assert longer[..n][|log| + i] == sent[i];
    }
    forall c | c in gone ensures exists i :: 0 <= i < |gone| && sent[i] == Unsubscribe(sent[i].generation, c) {
      var i :| |log| <= i < n && longer[..n][i] == Unsubscribe(longer[..n][i].generation, c);
      assert sent[i - |log|] == Unsubscribe(sent[i - |log|].generation, c);
    }
  }

  /**
   * What a release sends: it leaves the rooms that go, and that of its own channel twice if the cap evicted it.
   * A release that is not the last one, or finds its lease spent, sends nothing.
   */
  lemma {:induction false} ReleaseSends(maxWarm: int, a: Snapshot, tick: Tick, b: Snapshot)
    requires Sound(maxWarm, a) && Moves(maxWarm, a, tick, b) && tick.call.Releases? && tick.call.lease < |a.leases|
    ensures
      var lease, sent, gone := a.leases[tick.call.lease], b.log[|a.log|..], a.channels.Keys - b.channels.Keys;
      && (forall m :: m in sent ==> m.Unsubscribe? && m.channel in gone)
      && (lease.released || !a.connected ==> sent == [])
      && (!lease.released ==>
            && lease.channel in a.channels
            && var r := a.channels[lease.channel];
               var evicted := lease.channel in gone && MayStay(maxWarm, lease.channel, r.state, lease.retainWarm,
                                                               tick.warmth);
               && (r.refs > 1 ==> sent == [])
               && (r.refs == 1 && a.connected ==> |sent| == |gone| + if evicted then 1 else 0))
  {
    var lease, sent, gone := a.leases[tick.call.lease], b.log[|a.log|..], a.channels.Keys - b.channels.Keys;
    hide Sends, MayStay, LastMove, Counted, Wired, Capped, Fenced;
    if !lease.released { HeldChannel(maxWarm, a, tick.call.lease); }
    MoveParts(maxWarm, a, tick, b);
    var ask := AskedBy(maxWarm, a, tick, b);
    SendsCount(a.log, a.request, b.log, b.request, b.channels, b.connected, gone, ask);
    forall i | |a.log| <= i < |b.log| ensures b.log[i].Unsubscribe? && b.log[i].channel in gone {
      SendsAt(a.log, a.request, b.log, b.request, b.channels, b.connected, gone, ask, i);
    }
  }

  lemma {:induction false} HeldChannel(maxWarm: int, a: Snapshot, lease: nat)
    requires Sound(maxWarm, a) && lease < |a.leases| && !a.leases[lease].released
    ensures a.leases[lease].channel in a.channels && a.channels[a.leases[lease].channel].refs >= 1
  {
    hide Held, Wired, Capped, Fenced;
    HeldRelease(a.leases, lease, a.leases[lease].channel);
  }

  /** The call sends a subscribe message for this channel, or a refresh of it. */
  predicate Rejoins(maxWarm: int, a: Snapshot, tick: Tick, b: Snapshot, c: Channel) {
    AskedBy(maxWarm, a, tick, b).Joining? && c in AskedBy(maxWarm, a, tick, b).channels
  }

  predicate Renews(maxWarm: int, a: Snapshot, tick: Tick, b: Snapshot, c: Channel) {
    AskedBy(maxWarm, a, tick, b) == Refreshing(c)
  }

  /** The cursor that a call gives to a record: the caller's, or that of an answer the record waits for. */
  function Given(call: Call, c: Channel, r: Record): Option<int> {
    match call
    case Acquires(d, cursor, _, _) => if d == c then cursor else None
    case SetsCursor(d, to) => if d == c then Some(to) else None
    case AckArrives(res) =>
      if res.generation == r.generation && c in res.accepted && c in res.cursors then Some(res.cursors[c]) else None
    case BaselineArrives(res) =>
      if r.baseline == Some(res.generation) && c in res.accepted && c in res.cursors then Some(res.cursors[c]) else None
    case _ => None
  }

  /** `next` is the largest of the cursor there was, or else 0, and the one given. */
  predicate Largest(was: Option<int>, given: int, next: Option<int>) {
    && next.Some? && given <= next.value && (if was.Some? then was.value else 0) <= next.value
    && (next.value == given || next.value == if was.Some? then was.value else 0)
  }

  /** Some answer to a request of this record rejects the channel. */
  predicate Refused(call: Call, c: Channel, r: Record) {
    || (call.AckArrives? && call.result.generation == r.generation && c in call.result.rejected)
    || (call.BaselineArrives? && r.baseline == Some(call.result.generation) && c in call.result.rejected)
  }

  predicate RunsOut(call: Call, c: Channel, r: Record) {
    call.TimesOut? && c in call.which && call.generation == r.generation
  }

  /**
   * What a call does to the cursor, the error and the baseline of a record that survives it: cursors come from
   * callers and answers and only grow; errors come from rejections and timeouts and are cleared by the next request;
   * a baseline is awaited from a refresh until the next subscription or disconnect.
   */
  lemma {:induction false} MoveFields(maxWarm: int, a: Snapshot, tick: Tick, b: Snapshot, c: Channel)
    requires Moves(maxWarm, a, tick, b) && c in a.channels && c in b.channels && !Replaces(a, tick, c)
    ensures
      var r, s, given := a.channels[c], b.channels[c], Given(tick.call, c, a.channels[c]);
      && (if given.Some? then Largest(r.cursor, given.value, s.cursor) else s.cursor == r.cursor)
      && s.error == (if Rejoins(maxWarm, a, tick, b, c) || Renews(maxWarm, a, tick, b, c) then None
                     else if Refused(tick.call, c, r) then Some(tick.call.result.rejected[c])
                     else if RunsOut(tick.call, c, r) then Some("subscription_timeout")
                     else r.error)
      && s.baseline == (if Renews(maxWarm, a, tick, b, c) then Some(b.request)
                        else if Rejoins(maxWarm, a, tick, b, c) || tick.call.Disconnects? then None
                        else r.baseline)
  {
    hide Moves, Sends, MayStay, Latest, OldestFirst, Warm, Lapses;
    MoveParts(maxWarm, a, tick, b);
  }

  /** What a call does to the state of a record that survives it. */
  lemma {:induction false} MoveState(maxWarm: int, a: Snapshot, tick: Tick, b: Snapshot, c: Channel)
    requires Moves(maxWarm, a, tick, b) && c in a.channels && c in b.channels && !Replaces(a, tick, c)
    ensures
      var r, s := a.channels[c], b.channels[c];
      && s.generation == (if Rejoins(maxWarm, a, tick, b, c) then b.request else r.generation)
      && s.state == (if Rejoins(maxWarm, a, tick, b, c) then Subscribing
                     else if tick.call.Disconnects? || RunsOut(tick.call, c, r) then Desired
                     else if tick.call.AckArrives? && Refused(tick.call, c, r) then Rejected
                     else if tick.call.AckArrives? && tick.call.result.generation == r.generation
                             && c in tick.call.result.accepted then Active
                     else r.state)
  {
    hide Moves, Sends, MayStay, Latest, OldestFirst, Warm, Lapses;
    MoveParts(maxWarm, a, tick, b);
  }

  /** A record is last used when it is acquired and when its last holder goes; only then is it kept warm. */
  lemma {:induction false} MoveLease(maxWarm: int, a: Snapshot, tick: Tick, b: Snapshot, c: Channel)
    requires Sound(maxWarm, a) && Moves(maxWarm, a, tick, b)
    requires c in a.channels && c in b.channels && !Replaces(a, tick, c)
    ensures
      var r, s := a.channels[c], b.channels[c];
      && s.lastUsed == (if (tick.call.Acquires? && tick.call.channel == c) || (r.refs > 0 && s.refs == 0) then tick.now
                        else r.lastUsed)
      && s.warmUntil == (if s.refs > 0 then None
                         else if r.refs > 0 then Some(tick.now + tick.warmth)
                         else if tick.call.WarmthChanges? then Some(r.lastUsed + Max(0, tick.warmth))
                         else r.warmUntil)
  {
    hide *;
    SoundLease(maxWarm, a, c);
    MoveParts(maxWarm, a, tick, b);
    if tick.call.Releases? {
      ReleaseLease(maxWarm, a, tick, b, c);
    } else {
      KeptLease(maxWarm, a, tick, b, c);
    }
  }

  lemma {:induction false} KeptLease(maxWarm: int, a: Snapshot, tick: Tick, b: Snapshot, c: Channel)
    requires ChannelsMove(maxWarm, a, tick, b) && !tick.call.Releases?
    requires c in a.channels && c in b.channels && !Replaces(a, tick, c)
    requires if a.channels[c].refs == 0 then a.channels[c].warmUntil.Some? else a.channels[c].warmUntil.None?
    ensures
      var r, s, taken := a.channels[c], b.channels[c], tick.call.Acquires? && tick.call.channel == c;
      && s.refs == (if taken then r.refs + 1 else r.refs)
      && s.lastUsed == (if taken then tick.now else r.lastUsed)
      && s.warmUntil == (if taken then None
                         else if tick.call.WarmthChanges? && r.refs == 0 then Some(r.lastUsed + Max(0, tick.warmth))
                         else r.warmUntil)
  {
    hide RecordAsk, Lapses;
  }

  lemma {:induction false} ReleaseLease(maxWarm: int, a: Snapshot, tick: Tick, b: Snapshot, c: Channel)
    requires ChannelsMove(maxWarm, a, tick, b) && tick.call.Releases? && c in a.channels && c in b.channels
    ensures
      var r, s := a.channels[c], b.channels[c];
      && s.refs <= r.refs
      && (if r.refs > 0 && s.refs == 0 then s.lastUsed == tick.now && s.warmUntil == Some(tick.now + tick.warmth)
          else s.lastUsed == r.lastUsed && s.warmUntil == r.warmUntil)
  {
    hide MayStay, Latest, OldestFirst;
  }

  lemma {:induction false} SoundLease(maxWarm: int, a: Snapshot, c: Channel)
    requires Sound(maxWarm, a) && c in a.channels
    ensures if a.channels[c].refs == 0 then a.channels[c].warmUntil.Some? else a.channels[c].warmUntil.None?
  {
    hide Wired, Counted, Fenced, Warm;
  }

  /**
   * Which channels a call other than a release drops: a new connection and a timer those whose time is up, a new
   * warmth those warm ones that it leaves no time, and no other call any.
   */
  lemma {:induction false} MoveDrops(maxWarm: int, a: Snapshot, tick: Tick, b: Snapshot, c: Channel)
    requires Moves(maxWarm, a, tick, b) && c in a.channels && !tick.call.Releases?
    ensures
      var r, now, warmth := a.channels[c], tick.now, tick.warmth;
      c !in b.channels <==>
        && r.refs == 0 && r.warmUntil.Some?
        && (|| ((tick.call.Connects? || tick.call == TimerFires(c)) && (r.warmUntil.value <= now || warmth <= 0))
            || (tick.call.WarmthChanges?
                && (r.lastUsed + (if warmth > 0 then warmth else 0) <= now || maxWarm <= 0)))
  {
    hide Moves, Sends;
    MoveParts(maxWarm, a, tick, b);
  }

  /**
   * Which channels a release drops: its own, if it was the last holder and the channel is no session, was rejected,
   * is not to be kept, or there is no warmth or no place; otherwise it stays if it is the one used last. Of the
   * others it drops only warm ones.
   */
  lemma {:induction false} ReleaseDrops(maxWarm: int, a: Snapshot, tick: Tick, b: Snapshot, c: Channel)
    requires Sound(maxWarm, a) && Moves(maxWarm, a, tick, b) && tick.call.Releases? && tick.call.lease < |a.leases|
    requires c in a.channels
    ensures
      var lease, r := a.leases[tick.call.lease], a.channels[c];
      var last := !lease.released && lease.channel == c && r.refs == 1;
      var stays := lease.retainWarm && |c| >= 8 && c[..8] == "session:" && !r.state.Rejected?
                   && tick.warmth > 0 && maxWarm > 0;
      && (last && !stays ==> c !in b.channels)
      && (last && stays && (forall d :: d in Warm(a.channels) ==> a.channels[d].lastUsed < tick.now) ==>
            c in b.channels)
      && (c !in b.channels && !last ==> r.refs == 0 && r.warmUntil.Some? && !lease.released)
  {
    SoundLease(maxWarm, a, c);
    hide Sound, Sends, Warm;
    if !a.leases[tick.call.lease].released { HeldChannel(maxWarm, a, tick.call.lease); }
    MoveParts(maxWarm, a, tick, b);
    hide Moves, OldestFirst;
  }

  /** A record that a call puts there anew has one holder, the cursor given, and nothing from before. */
  lemma {:induction false} MoveFresh(maxWarm: int, a: Snapshot, tick: Tick, b: Snapshot, c: Channel)
    requires Moves(maxWarm, a, tick, b) && c in b.channels && (c !in a.channels || Replaces(a, tick, c))
    ensures tick.call.Acquires? && tick.call.channel == c
    ensures
      var s := b.channels[c];
      && s.refs == 1 && s.cursor == tick.call.cursor && s.lastUsed == tick.now
      && s.baseline.None? && s.error.None? && s.warmUntil.None?
      && (if b.connected then s.state.Subscribing? && s.generation == b.request
          else s.state.Desired? && s.generation == 0)
  {
    hide Moves, Sends, MayStay, Latest, OldestFirst, Warm, Lapses;
    MoveParts(maxWarm, a, tick, b);
    SameConnection(maxWarm, a, tick, b);
  }

  lemma {:induction false} SameConnection(maxWarm: int, a: Snapshot, tick: Tick, b: Snapshot)
    requires Moves(maxWarm, a, tick, b)
    ensures tick.call.Acquires? ==> b.connected == a.connected
  {
    hide Sends, ChannelsMove;
  }

  /** The channel is there from state `i` to state `j`, under one record. */
  predicate Stays(ticks: seq<Tick>, trace: seq<Snapshot>, c: Channel, i: nat, j: nat)
    requires i <= j < |trace| && |trace| == |ticks| + 1
  {
    && (forall k :: i <= k <= j ==> c in trace[k].channels)
    && (forall k :: i <= k < j ==> !Replaces(trace[k], ticks[k], c))
  }

  /** Over every run the cursor of a live record never falls. */
  lemma {:induction false} CursorsNeverFall(
    maxWarm: int, ticks: seq<Tick>, trace: seq<Snapshot>, c: Channel, i: nat, j: nat)
    requires IsRun(maxWarm, ticks, trace) && i <= j < |trace| && Stays(ticks, trace, c, i, j)
    ensures CursorKept(trace[i].channels[c].cursor, trace[j].channels[c].cursor)
  {
    hide Sound, Moves, Replaces;
    if i < j {
      CursorsNeverFall(maxWarm, ticks, trace, c, i, j - 1);
      MoveLives(maxWarm, trace[j - 1], ticks[j - 1], trace[j], c);
    }
  }

  /** Over every run a held channel stays until its last lease is released. */
  lemma {:induction false} HeldStays(maxWarm: int, ticks: seq<Tick>, trace: seq<Snapshot>, c: Channel, i: nat)
    requires IsRun(maxWarm, ticks, trace) && i < |trace| && Held(LeasesAfter(ticks[..i]), c) > 0
    ensures c in trace[i].channels && trace[i].channels[c].refs == Held(LeasesAfter(ticks[..i]), c)
  {
    hide Wired, Capped, Fenced, Moves, Held, LeasesAfter;
    RunFollows(maxWarm, ticks, trace, i);
  }

  /** Acknowledgements answer messages that were sent. */
  predicate Echoed(log: seq<Message>, generation: nat) {
    exists p :: 0 <= p < |log| && log[p].generation == generation
  }

  predicate AcksEcho(ticks: seq<Tick>, trace: seq<Snapshot>) {
    && |trace| == |ticks| + 1
    && forall i :: 0 <= i < |ticks| && ticks[i].call.AckArrives? ==>
         Echoed(trace[i].log, ticks[i].call.result.generation)
  }

  /**
   * The call at `k` accepted the channel for the generation of the latest subscribe message that names it,
   * and up to state `n` the channel has been active on that generation, which is still the latest.
   */
  predicate AckedAt(ticks: seq<Tick>, trace: seq<Snapshot>, c: Channel, k: nat, n: nat) {
    && k < n < |trace| && |trace| == |ticks| + 1 && ticks[k].call.AckArrives?
    && var res := ticks[k].call.result;
       && c in res.accepted && c !in res.rejected && res.generation >= 1
       && LastGeneration(trace[k].log, c) == res.generation && LastGeneration(trace[n].log, c) == res.generation
       && forall i :: k < i <= n ==>
            && c in trace[i].channels && trace[i].channels[c].state.Active?
            && trace[i].channels[c].generation == res.generation
  }

  /** A call leaves a channel active that was active on the same generation, or it is the acknowledgement. */
  lemma {:induction false} MoveActivates(maxWarm: int, a: Snapshot, tick: Tick, b: Snapshot, c: Channel)
    requires Sound(maxWarm, a) && Sound(maxWarm, b) && Moves(maxWarm, a, tick, b)
    requires c in b.channels && b.channels[c].state.Active?
    ensures c in a.channels
    ensures
      || (a.channels[c].state.Active? && a.channels[c].generation == b.channels[c].generation)
      || (&& tick.call.AckArrives? && c in tick.call.result.accepted && c !in tick.call.result.rejected
          && tick.call.result.generation == a.channels[c].generation == b.channels[c].generation)
  {
    if c !in a.channels || Replaces(a, tick, c) {
      MoveStarts(maxWarm, a, tick, b, c);
    } else {
      MoveLives(maxWarm, a, tick, b, c);
    }
    hide Sound, Replaces, LastGeneration, Warm;
  }

  /**
   * Over every run whose acknowledgements answer messages sent, a channel is active only if an
   * acknowledgement of its latest subscription accepted it, and it has been active on it since.
   */
  lemma {:induction false} ActiveByAck(maxWarm: int, ticks: seq<Tick>, trace: seq<Snapshot>, c: Channel, n: nat)
    returns (k: nat)
    requires IsRun(maxWarm, ticks, trace) && AcksEcho(ticks, trace) && n < |trace|
    requires c in trace[n].channels && trace[n].channels[c].state.Active?
    ensures AckedAt(ticks, trace, c, k, n)
  {
    hide Wired, Counted, Capped, LastGeneration, Moves;
    assert n > 0;
    var a, tick, b := trace[n - 1], ticks[n - 1], trace[n];
    MoveActivates(maxWarm, a, tick, b, c);
    if a.channels[c].state.Active? && a.channels[c].generation == b.channels[c].generation {
      k := ActiveByAck(maxWarm, ticks, trace, c, n - 1);
    } else {
      k := n - 1;
      EchoedPositive(a.log, a.request, tick.call.result.generation);
    }
  }

  lemma {:induction false} EchoedPositive(log: seq<Message>, request: nat, generation: nat)
    requires Numbered(log, request) && Echoed(log, generation)
    ensures generation >= 1
  {
  }

  lemma {:induction false} LogGrows(maxWarm: int, ticks: seq<Tick>, trace: seq<Snapshot>, k: nat, n: nat)
    requires IsRun(maxWarm, ticks, trace) && k <= n < |trace|
    ensures trace[k].log <= trace[n].log
  {
    hide Sound, ChannelsMove, NextLeases, Sends, Left, AskedBy;
    if k < n {
      LogGrows(maxWarm, ticks, trace, k, n - 1);
      assert Moves(maxWarm, trace[n - 1], ticks[n - 1], trace[n]);
    }
  }

  /**
   * The acknowledgement came after the message that it answers, which subscribes to the channel; no message
   * up to state `n` subscribes to it again.
   */
  lemma {:induction false} AckAnswers(
    maxWarm: int, ticks: seq<Tick>, trace: seq<Snapshot>, c: Channel, k: nat, n: nat) returns (p: nat)
    requires IsRun(maxWarm, ticks, trace) && AckedAt(ticks, trace, c, k, n)
    ensures p < |trace[k].log| && trace[k].log <= trace[n].log
    ensures LatestSubscribe(trace[n].log, c, p) && trace[n].log[p].generation == ticks[k].call.result.generation
  {
    hide Moves, Wired, Counted, Capped, LastGeneration;
    LogGrows(maxWarm, ticks, trace, k, n);
    var q := LastGenerationMeans(trace[k].log, c);
    p := LastGenerationMeans(trace[n].log, c);
    assert trace[n].log[q].generation == trace[n].log[p].generation;
    assert Numbered(trace[n].log, trace[n].request);
  }
}
