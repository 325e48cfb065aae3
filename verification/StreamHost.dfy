/**
 * The Host's side of the live stream (packages/host/src/server.ts, `onTokenDelta`, `onEvent`, `onError` and
 * `streamingDraftSnapshot`), to say when a client that reconnects shows text twice.
 *
 * The Host numbers the characters it streams 0, 1, 2, ...; a text is the sequence of the numbers of its
 * characters, so the same number twice is the same character twice. `RunSpells` ties this to real text.
 */
module StreamHost {
  import opened Common
  import opened StreamBuffer

  /** The Host has streamed characters 0 to total - 1; the current draft begins at `begin`. */
  datatype Host = Host(begin: nat, total: nat)

  datatype World = World(host: Host, client: View<nat>)

  /** Deltas are lost while the client is away; the Host ends its draft when it persists or drops it. */
  datatype Event = Streams(count: nat, delivered: bool) | Ends | Delivers(message: Message<nat>)

  function Range(from: nat, to: nat): (r: seq<nat>)
    requires from <= to
    ensures |r| == to - from && forall i :: 0 <= i < |r| ==> r[i] == from + i
  {
    seq(to - from, i => from + i)
  }

  /** A ready message carries the whole current draft of a thinking Host, and deltas come from `Streams` only. */
  predicate Truthful(h: Host, e: Event) {
    h.begin <= h.total &&
    (e.Delivers? ==>
      && !e.message.TokenDelta?
      && (e.message.Ready? ==>
            if e.message.status == Thinking && h.begin < h.total
            then e.message.streamed.Some? && e.message.streamed.value.text == Range(h.begin, h.total)
            else e.message.streamed.None?))
  }

  function Next(w: World, e: Event): World {
    match e
    case Streams(count, delivered) =>
      World(w.host.(total := w.host.total + count),
            if delivered then Step(w.client, TokenDelta(Range(w.host.total, w.host.total + count))) else w.client)
    case Ends => w.(host := w.host.(begin := w.host.total))
    case Delivers(message) => w.(client := Step(w.client, message))
  }

  /** The retained drafts and the current text, as one sequence of characters. */
  function Flat(drafts: seq<Draft<nat>>): seq<nat> {
    if drafts == [] then [] else Flat(drafts[..|drafts| - 1]) + drafts[|drafts| - 1].text
  }

  function Shown(v: View<nat>): seq<nat> {
    Flat(v.drafts) + v.received
  }

  predicate Distinct(s: seq<nat>) {
    forall i, j :: 0 <= i < j < |s| ==> s[i] != s[j]
  }

  predicate Below(s: seq<nat>, bound: nat) {
    forall i :: 0 <= i < |s| ==> s[i] < bound
  }

  /** The client has, as a retained draft or as its current text, a character of the Host's current draft. */
  predicate HoldsDraft(v: View<nat>, h: Host) {
    exists i :: 0 <= i < |Shown(v)| && h.begin <= Shown(v)[i] < h.total
  }

  /** A snapshot of a draft reaches a client that already has some of it. */
  predicate Rereads(w: World, e: Event) {
    e.Delivers? && e.message.Ready? && e.message.status == Thinking && HoldsDraft(w.client, w.host)
  }

  // ---------------------------------------------------------------------------------
  // One step.

  lemma {:induction false} FlatSnoc(drafts: seq<Draft<nat>>, d: Draft<nat>)
    ensures Flat(drafts + [d]) == Flat(drafts) + d.text
  {
    assert (drafts + [d])[..|drafts|] == drafts;
  }

  /** Archiving moves the current text behind the retained drafts; discarding drops it. */
  lemma {:induction false} ArchiveShows(v: View<nat>)
    requires Sound(v)
    ensures Shown(Archive(v)) == Shown(v) && Sound(Archive(v)) && Archive(v).received == []
    ensures Shown(Discard(v)) == Flat(v.drafts) && Sound(Discard(v)) && Discard(v).received == []
    ensures Archive(v).accepting == v.accepting && Archive(v).status == v.status
  {
    ArchiveKeeps(v);
    DiscardKeeps(v);
    if v.anchor.Some? { FlatSnoc(v.drafts, Draft(v.anchor.value, v.received)); }
  }

  lemma {:induction false} EnterShows(v: View<nat>, status: Status)
    requires Sound(v)
    ensures Shown(EnterStatus(v, status)) == Shown(v) && Sound(EnterStatus(v, status))
    ensures v.received == [] ==> EnterStatus(v, status).received == []
    ensures EnterStatus(v, status).accepting == (status == Thinking)
  {
    ArchiveShows(v);
    EnterKeeps(v, status);
  }

  /** A message other than a delta or a snapshot shows nothing new. */
  lemma {:induction false} MessageShows(v: View<nat>, m: Message<nat>)
    requires Sound(v) && !m.TokenDelta?
    ensures Sound(Step(v, m))
    ensures m.Ready? && m.status == Thinking && m.streamed.Some? ==>
              Shown(Step(v, m)) == Shown(v) + m.streamed.value.text
    ensures m.Ready? && m.streamed.None? ==> Shown(Step(v, m)) == Shown(v)
    ensures !m.Ready? ==> Shown(Step(v, m)) <= Shown(v)
  {
    StepLedger(v, m);
    hide Sound, Archive, Discard, EnterStatus, Flat;
    ArchiveShows(v);
    match m
    case Ready(cursor, messages, status, streamed) =>
      var a := Archive(v).(cursor := cursor, messageCount := |messages|);
      MovedSound(Archive(v), cursor, |messages|);
      EnterShows(a, status);
    case StateChanged(cursor, messages, status) =>
      EnterShows(if ReplacesDraft(v, messages) then Discard(v) else v, status);
    case Appended(seqNo, kind, hasText, next) => AppendedShows(v, seqNo, kind, hasText, next);
    case _ =>
  }

  lemma {:induction false} MovedSound(v: View<nat>, cursor: int, messageCount: nat)
    requires Sound(v)
    ensures Sound(v.(cursor := cursor, messageCount := messageCount))
  {
  }

  lemma {:induction false} AppendedShows(v: View<nat>, seqNo: int, kind: EventKind, hasText: bool, next: Status)
    requires Sound(v)
    ensures Shown(Step(v, Appended(seqNo, kind, hasText, next))) <= Shown(v)
  {
    var w := match kind
      case Clear => Discard(v).(drafts := [], closed := [])
      case UserMessage => Archive(v)
      case _ => v;
    var x := EnterStatus(w, next).(cursor := seqNo);
    assert Sound(w) && Shown(w) <= Shown(v) by {
      hide Archive, Discard, Flat, Sound;
      ArchiveShows(v);
      ClearedShows(v);
    }
    hide Archive, Discard, EnterStatus, Flat, Sound;
    EnterShows(w, next);
    assert Shown(x) == Shown(w);
    RefusedShows(EnterStatus(w, next), seqNo);
  }

  lemma {:induction false} RefusedShows(v: View<nat>, cursor: int)
    requires Sound(v)
    ensures
      var x := v.(cursor := cursor);
      Shown(x.(accepting := false)) == Shown(v) && Shown(Discard(x.(accepting := false))) <= Shown(v)
  {
    ArchiveShows(v.(cursor := cursor, accepting := false));
    hide Discard, Flat;
  }

  lemma {:induction false} ClearedShows(v: View<nat>)
    requires Sound(v)
    ensures Sound(Discard(v).(drafts := [], closed := [])) && Shown(Discard(v).(drafts := [], closed := [])) == []
  {
    DiscardKeeps(v);
    EmptyTexts<nat>();
  }

  /** Repeating a range that is above everything is not possible; one that was seen is. */
  lemma {:induction false} AddsDistinct(s: seq<nat>, from: nat, to: nat)
    requires Distinct(s) && from <= to
    ensures Distinct(s + Range(from, to)) <==> forall i :: 0 <= i < |s| ==> !(from <= s[i] < to)
  {
    var all := s + Range(from, to);
    assert forall i :: 0 <= i < |s| ==> all[i] == s[i];
    if i :| 0 <= i < |s| && from <= s[i] < to {
      assert all[|s| + (s[i] - from)] == s[i] == all[i];
    }
  }

  lemma {:induction false} PrefixDistinct(few: seq<nat>, many: seq<nat>, bound: nat)
    requires few <= many
    ensures Distinct(many) ==> Distinct(few)
    ensures Below(many, bound) ==> Below(few, bound)
  {
    assert forall i :: 0 <= i < |few| ==> few[i] == many[i];
  }

  /** What every reachable world satisfies. */
  ghost predicate Steady(w: World) {
    w.host.begin <= w.host.total && Sound(w.client) && Below(Shown(w.client), w.host.total)
  }

  lemma {:induction false} DeltaShows(v: View<nat>, text: seq<nat>)
    requires Sound(v)
    ensures Sound(Step(v, TokenDelta(text)))
    ensures Shown(Step(v, TokenDelta(text))) == if v.accepting then Shown(v) + text else Shown(v)
  {
    StepLedger(v, TokenDelta(text));
  }

  /**
   * A truthful step shows a character twice, where none was shown twice, exactly if it brings a snapshot of a
   * draft of which the client already has something.
   */
  lemma {:induction false} StepRepeatsIff(w: World, e: Event)
    requires Steady(w) && Truthful(w.host, e)
    ensures Steady(Next(w, e))
    ensures Distinct(Shown(w.client)) ==> (Distinct(Shown(Next(w, e).client)) <==> !Rereads(w, e))
  {
    hide Sound, Step, Flat, Range;
    var s := Shown(w.client);
    match e
    case Streams(count, delivered) =>
      DeltaShows(w.client, Range(w.host.total, w.host.total + count));
      if Distinct(s) { AddsDistinct(s, w.host.total, w.host.total + count); }
    case Ends =>
    case Delivers(m) =>
      MessageShows(w.client, m);
      if Shown(Step(w.client, m)) <= s { PrefixDistinct(Shown(Step(w.client, m)), s, w.host.total); }
      if Distinct(s) { AddsDistinct(s, w.host.begin, w.host.total); }
  }

  // ---------------------------------------------------------------------------------
  // Whole runs.

  function Run(w: World, events: seq<Event>): World {
    if events == [] then w else Next(Run(w, events[..|events| - 1]), events[|events| - 1])
  }

  predicate AllTruthful(w: World, events: seq<Event>) {
    forall i :: 0 <= i < |events| ==> Truthful(Run(w, events[..i]).host, events[i])
  }

  /** No character is shown twice at any time up to this many events. */
  predicate NeverTwice(w: World, events: seq<Event>, upto: nat)
    requires upto <= |events|
  {
    forall i :: 0 <= i <= upto ==> Distinct(Shown(Run(w, events[..i]).client))
  }

  /** No snapshot reaches a client that already has some of its draft. */
  predicate NeverRereads(w: World, events: seq<Event>, upto: nat)
    requires upto <= |events|
  {
    forall i :: 0 <= i < upto ==> !Rereads(Run(w, events[..i]), events[i])
  }

  lemma {:induction false} RunSnoc(w: World, events: seq<Event>, i: nat)
    requires i < |events|
    ensures Run(w, events[..i + 1]) == Next(Run(w, events[..i]), events[i])
  {
    assert events[..i + 1][..i] == events[..i];
  }

  lemma {:induction false} RunSteady(w: World, events: seq<Event>, i: nat)
    requires Steady(w) && AllTruthful(w, events) && i <= |events|
    ensures Steady(Run(w, events[..i]))
  {
    if i > 0 {
      hide Steady, Truthful, Next;
      RunSteady(w, events, i - 1);
      RunSnoc(w, events, i - 1);
      StepRepeatsIff(Run(w, events[..i - 1]), events[i - 1]);
    }
  }

  /**
   * Over every run with a truthful Host: the retained drafts and the current text never show a character twice
   * if and only if no ready message brings a snapshot of a draft of which the client already has something.
   */
  lemma {:induction false} RepeatsIff(w: World, events: seq<Event>, upto: nat)
    requires Steady(w) && Distinct(Shown(w.client)) && AllTruthful(w, events) && upto <= |events|
    ensures NeverTwice(w, events, upto) <==> NeverRereads(w, events, upto)
  {
    hide Steady, Truthful, Next, Distinct, Rereads, Shown;
    if upto == 0 {
      assert events[..0] == [];
      return;
    }
    var n := upto - 1;
    RepeatsIff(w, events, n);
    RunSteady(w, events, n);
    RunSnoc(w, events, n);
    StepRepeatsIff(Run(w, events[..n]), events[n]);
    assert NeverTwice(w, events, upto) <==> NeverTwice(w, events, n) && Distinct(Shown(Run(w, events[..upto]).client));
  }

  // ---------------------------------------------------------------------------------
  // What a reconnect shows.

  /** The current text of the client is the Host's current draft up to some point. */
  predicate Follows(v: View<nat>, h: Host) {
    h.begin + |v.received| <= h.total && v.received == Range(h.begin, h.begin + |v.received|)
  }

  /** A ready message of a thinking Host makes the current text the whole draft, whatever deltas were missed. */
  lemma {:induction false} ReadyCatchesUp(w: World, m: Message<nat>)
    requires Steady(w) && Truthful(w.host, Delivers(m)) && m.Ready? && m.status == Thinking
    ensures Next(w, Delivers(m)).client.received == Range(w.host.begin, w.host.total)
    ensures Next(w, Delivers(m)).client.accepting
  {
    var v := w.client;
    ArchiveShows(v);
    var a := Archive(v).(cursor := m.cursor, messageCount := |m.messages|);
    MovedSound(Archive(v), m.cursor, |m.messages|);
    EnterShows(a, Thinking);
    hide Archive, EnterStatus, Sound;
  }

  /** From then on it stays the whole draft, delta by delta. */
  lemma {:induction false} DeltasFollow(w: World, count: nat)
    requires Steady(w) && w.client.accepting && w.client.received == Range(w.host.begin, w.host.total)
    ensures
      var next := Next(w, Streams(count, true));
      next.client.received == Range(next.host.begin, next.host.total) && next.client.accepting
  {
    assert Range(w.host.begin, w.host.total) + Range(w.host.total, w.host.total + count)
        == Range(w.host.begin, w.host.total + count);
  }

  /** A client that reconnects in the middle of a draft keeps its old text of it, a prefix of its new text. */
  lemma {:induction false} OldTextIsPrefix(w: World, m: Message<nat>)
    requires Steady(w) && Truthful(w.host, Delivers(m)) && m.Ready? && m.status == Thinking
    requires Follows(w.client, w.host) && w.client.received != []
    ensures
      var next := Next(w, Delivers(m)).client;
      && |next.drafts| == |w.client.drafts| + 1
      && next.drafts[|w.client.drafts|].text == w.client.received
      && w.client.received <= next.received
      && Rereads(w, Delivers(m))
  {
    ReadyCatchesUp(w, m);
    var v := w.client;
    var s := Shown(v);
    assert s[|s| - 1] == v.received[|v.received| - 1];
    ArchiveShows(v);
    var a := Archive(v).(cursor := m.cursor, messageCount := |m.messages|);
    hide Flat;
    assert EnterStatus(a, Thinking).drafts == a.drafts;
  }

  /** A thinking Host, one delta, a disconnect, another delta, a reconnect. */
  const RECONNECT: seq<Event> := [
    Delivers(Ready(0, [], Thinking, None)), Streams(1, true), Delivers(Disconnect), Streams(1, false),
    Delivers(Ready(0, [], Thinking, Some(Draft(Anchor(0, 0), [0, 1]))))]

  /** The Host streamed characters 0 and 1; the client shows 0 as a retained draft and 0, 1 as current text. */
  lemma {:induction false} ReconnectRepeats()
    ensures
      var w := World(Host(0, 0), Start(0, 0));
      && AllTruthful(w, RECONNECT)
      && Run(w, RECONNECT).host == Host(0, 2)
      && Shown(Run(w, RECONNECT).client) == [0, 0, 1]
  {
    var w, e := World(Host(0, 0), Start(0, 0)), RECONNECT;
    var thinking := Start<nat>(0, 0).(status := Some(Thinking), accepting := true);
    var live := thinking.(received := [0], anchor := Some(Anchor(0, 0)));
    var again := live.(received := [0, 1], drafts := [Draft(Anchor(0, 0), [0])], closed := [Retained([0])]);
    assert Range(0, 1) == [0] && Range(0, 2) == [0, 1];
    assert again.drafts[..0] == [] && Flat(again.drafts) == [0];
    ReconnectWorlds(w, thinking, live, again);
    assert e[..5] == e;
    hide Run, Step, Start, Flat, Range;
    forall i | 0 <= i < |e|
      ensures Truthful(Run(w, e[..i]).host, e[i])
    {
      assert i == 0 || i == 1 || i == 2 || i == 3 || i == 4;
    }
  }

  lemma {:induction false} ReconnectWorlds(w: World, thinking: View<nat>, live: View<nat>, again: View<nat>)
    requires w == World(Host(0, 0), Start(0, 0))
    requires thinking == Start<nat>(0, 0).(status := Some(Thinking), accepting := true)
    requires live == thinking.(received := [0], anchor := Some(Anchor(0, 0)))
    requires again == live.(received := [0, 1], drafts := [Draft(Anchor(0, 0), [0])], closed := [Retained([0])])
    ensures Run(w, RECONNECT[..0]) == w
    ensures Run(w, RECONNECT[..1]) == World(Host(0, 0), thinking)
    ensures Run(w, RECONNECT[..2]) == World(Host(0, 1), live)
    ensures Run(w, RECONNECT[..3]) == World(Host(0, 1), live.(accepting := false))
    ensures Run(w, RECONNECT[..4]) == World(Host(0, 2), live.(accepting := false))
    ensures Run(w, RECONNECT[..5]) == World(Host(0, 2), again)
  {
    ReconnectSteps(thinking, live, again);
    assert Range(0, 1) == [0];
    assert RECONNECT[..0] == [] && Run(w, []) == w;
    hide Step, Start, Run, Range;
    RunSnoc(w, RECONNECT, 0);
    RunSnoc(w, RECONNECT, 1);
    RunSnoc(w, RECONNECT, 2);
    RunSnoc(w, RECONNECT, 3);
    RunSnoc(w, RECONNECT, 4);
  }

  lemma {:induction false} ReconnectSteps(thinking: View<nat>, live: View<nat>, again: View<nat>)
    requires thinking == Start<nat>(0, 0).(status := Some(Thinking), accepting := true)
    requires live == thinking.(received := [0], anchor := Some(Anchor(0, 0)))
    requires again == live.(received := [0, 1], drafts := [Draft(Anchor(0, 0), [0])], closed := [Retained([0])])
    ensures Step(Start<nat>(0, 0), Ready(0, [], Thinking, None)) == thinking
    ensures Step(thinking, TokenDelta([0])) == live
    ensures Step(live, Disconnect) == live.(accepting := false)
    ensures Step(live.(accepting := false), Ready(0, [], Thinking, Some(Draft(Anchor(0, 0), [0, 1])))) == again
  {
  }

  // ---------------------------------------------------------------------------------
  // Numbers and characters.

  function Spell<T, U>(f: T -> U, text: seq<T>): (r: seq<U>)
    ensures |r| == |text|
  {
    seq(|text|, i requires 0 <= i < |text| => f(text[i]))
  }

  function SpellDraft<T, U>(f: T -> U, d: Draft<T>): Draft<U> {
    Draft(d.anchor, Spell(f, d.text))
  }

  function SpellSegment<T, U>(f: T -> U, s: Segment<T>): Segment<U> {
    match s
    case Retained(text) => Retained(Spell(f, text))
    case Replaced(text) => Replaced(Spell(f, text))
  }

  function SpellView<T, U>(f: T -> U, v: View<T>): View<U> {
    View(Spell(f, v.received), v.anchor,
         seq(|v.drafts|, i requires 0 <= i < |v.drafts| => SpellDraft(f, v.drafts[i])),
         seq(|v.closed|, i requires 0 <= i < |v.closed| => SpellSegment(f, v.closed[i])),
         v.cursor, v.messageCount, v.status, v.accepting)
  }

  function SpellMessage<T, U>(f: T -> U, m: Message<T>): Message<U> {
    match m
    case Ready(cursor, messages, status, streamed) =>
      Ready(cursor, messages, status, if streamed.Some? then Some(SpellDraft(f, streamed.value)) else None)
    case StateChanged(cursor, messages, status) => StateChanged(cursor, messages, status)
    case Appended(seqNo, kind, hasText, next) => Appended(seqNo, kind, hasText, next)
    case SessionError => SessionError
    case Disconnect => Disconnect
    case TokenDelta(text) => TokenDelta(Spell(f, text))
  }

  function SpellAll<T, U>(f: T -> U, log: seq<Message<T>>): seq<Message<U>> {
    seq(|log|, i requires 0 <= i < |log| => SpellMessage(f, log[i]))
  }

  lemma {:induction false} CloseSpells<T, U>(f: T -> U, v: View<T>)
    ensures SpellView(f, Archive(v)) == Archive(SpellView(f, v))
    ensures SpellView(f, Discard(v)) == Discard(SpellView(f, v))
  {
    assert Spell(f, []) == [];
    assert v.received == [] <==> Spell(f, v.received) == [];
  }

  lemma {:induction false} EnterSpells<T, U>(f: T -> U, v: View<T>, status: Status)
    ensures SpellView(f, EnterStatus(v, status)) == EnterStatus(SpellView(f, v), status)
  {
    CloseSpells(f, v);
    hide Archive;
  }

  /** Nothing in the stream looks at the characters: numbers spelled out behave like the text they spell. */
  lemma {:induction false} StepSpells<T, U>(f: T -> U, v: View<T>, m: Message<T>)
    ensures SpellView(f, Step(v, m)) == Step(SpellView(f, v), SpellMessage(f, m))
  {
    CloseSpells(f, v);
    hide Archive, Discard, EnterStatus;
    match m
    case Ready(cursor, messages, status, streamed) =>
      EnterSpells(f, Archive(v).(cursor := cursor, messageCount := |messages|), status);
    case StateChanged(cursor, messages, status) =>
      EnterSpells(f, if ReplacesDraft(v, messages) then Discard(v) else v, status);
    case Appended(seqNo, kind, hasText, next) => AppendedSpells(f, v, seqNo, kind, hasText, next);
    case TokenDelta(text) => assert Spell(f, v.received + text) == Spell(f, v.received) + Spell(f, text);
    case _ =>
  }

  lemma {:induction false} AppendedSpells<T, U>(
    f: T -> U, v: View<T>, seqNo: int, kind: EventKind, hasText: bool, next: Status)
    ensures SpellView(f, Step(v, Appended(seqNo, kind, hasText, next)))
         == Step(SpellView(f, v), Appended(seqNo, kind, hasText, next))
  {
    CloseSpells(f, v);
    ClearSpells(f, Discard(v));
    var w := match kind
      case Clear => Discard(v).(drafts := [], closed := [])
      case UserMessage => Archive(v)
      case _ => v;
    EnterSpells(f, w, next);
    CloseSpells(f, EnterStatus(w, next).(cursor := seqNo, accepting := false));
    hide Archive, Discard, EnterStatus;
  }

  lemma {:induction false} ClearSpells<T, U>(f: T -> U, v: View<T>)
    ensures SpellView(f, v.(drafts := [], closed := [])) == SpellView(f, v).(drafts := [], closed := [])
  {
    var w := SpellView(f, v.(drafts := [], closed := []));
    assert w.drafts == [] && w.closed == [];
  }

  lemma {:induction false} RunSpells<T, U>(f: T -> U, v: View<T>, log: seq<Message<T>>)
    ensures SpellView(f, StreamBuffer.Run(v, log)) == StreamBuffer.Run(SpellView(f, v), SpellAll(f, log))
  {
    if log == [] {
      assert SpellAll(f, log) == [];
      return;
    }
    hide Step, SpellView, SpellMessage;
    var n := |log| - 1;
    RunSpells(f, v, log[..n]);
    StepSpells(f, StreamBuffer.Run(v, log[..n]), log[n]);
    var all := SpellAll(f, log);
    assert all[..|all| - 1] == SpellAll(f, log[..n]) && all[|all| - 1] == SpellMessage(f, log[n]);
    assert StreamBuffer.Run(SpellView(f, v), all)
        == Step(StreamBuffer.Run(SpellView(f, v), all[..|all| - 1]), all[|all| - 1]);
    assert StreamBuffer.Run(v, log) == Step(StreamBuffer.Run(v, log[..n]), log[n]);
  }
}
