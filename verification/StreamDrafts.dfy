/**
 * What becomes of streamed text, over any run of messages and as they alone decide it: which text ends in a
 * retained draft, under which anchor, and which gives way to the persisted text.
 */
module StreamDrafts {
  import opened Common
  import opened StreamBuffer

  // ---------------------------------------------------------------------------------
  // Position, status and acceptance of deltas, read off the messages.

  /** The sequence number of the last message that has one. */
  function CursorAt<T>(start: int, log: seq<Message<T>>): int {
    if log == [] then start
    else
      match log[|log| - 1]
      case Ready(cursor, _, _, _) => cursor
      case StateChanged(cursor, _, _) => cursor
      case Appended(seqNo, _, _, _) => seqNo
      case _ => CursorAt(start, log[..|log| - 1])
  }

  /** The number of messages in the last state received. */
  function CountAt<T>(start: nat, log: seq<Message<T>>): nat {
    if log == [] then start
    else
      match log[|log| - 1]
      case Ready(_, messages, _, _) => |messages|
      case StateChanged(_, messages, _) => |messages|
      case _ => CountAt(start, log[..|log| - 1])
  }

  function StatusAt<T>(log: seq<Message<T>>): Option<Status> {
    if log == [] then None
    else
      match log[|log| - 1]
      case Ready(_, _, status, _) => Some(status)
      case StateChanged(_, _, status) => Some(status)
      case Appended(_, _, _, next) => Some(next)
      case _ => StatusAt(log[..|log| - 1])
  }

  /** Deltas are let in from a thinking status until a response, an error or a disconnect. */
  predicate LetsIn<T>(log: seq<Message<T>>) {
    log != [] &&
    match log[|log| - 1]
    case Ready(_, _, status, _) => status == Thinking
    case StateChanged(_, _, status) => status == Thinking
    case Appended(_, kind, _, next) => next == Thinking && kind != LlmResponse && kind != LlmError
    case TokenDelta(_) => LetsIn(log[..|log| - 1])
    case _ => false
  }

  lemma {:induction false} MarksRun<T>(cursor: int, messageCount: nat, log: seq<Message<T>>)
    ensures
      var v := Run(Start(cursor, messageCount), log);
      && v.cursor == CursorAt(cursor, log) && v.messageCount == CountAt(messageCount, log)
      && v.status == StatusAt(log) && (v.accepting <==> LetsIn(log))
  {
    if log != [] {
      MarksRun(cursor, messageCount, log[..|log| - 1]);
      hide Archive, Discard, Close;
      MarksStep(Run(Start(cursor, messageCount), log[..|log| - 1]), log[|log| - 1]);
    }
  }

  lemma {:induction false} MarksStep<T>(v: View<T>, m: Message<T>)
    ensures
      var w := Step(v, m);
      match m
      case Ready(cursor, messages, status, _) =>
        w.cursor == cursor && w.messageCount == |messages| && w.status == Some(status)
        && w.accepting == (status == Thinking)
      case StateChanged(cursor, messages, status) =>
        w.cursor == cursor && w.messageCount == |messages| && w.status == Some(status)
        && w.accepting == (status == Thinking)
      case Appended(seqNo, kind, _, next) =>
        w.cursor == seqNo && w.messageCount == v.messageCount && w.status == Some(next)
        && w.accepting == (next == Thinking && kind != LlmResponse && kind != LlmError)
      case TokenDelta(_) =>
        w.cursor == v.cursor && w.messageCount == v.messageCount && w.status == v.status && w.accepting == v.accepting
      case _ =>
        w.cursor == v.cursor && w.messageCount == v.messageCount && w.status == v.status && !w.accepting
  {
  }

  // ---------------------------------------------------------------------------------
  // What a message does to the text streamed so far.

  datatype Fate = Lives | Kept | Dropped | Wiped

  /**
   * A ready message, a user message and an entry into thinking keep the text as a draft; a response with text, and
   * a state with assistant text past the anchor, make it give way; a clear wipes all drafts.
   */
  function FateOf<T>(status: Option<Status>, anchor: Option<Anchor>, m: Message<T>): Fate {
    match m
    case Ready(_, _, _, _) => Kept
    case StateChanged(_, messages, next) =>
      if anchor.Some? && exists i :: anchor.value.messageCount <= i < |messages| && messages[i] then Dropped
      else if next == Thinking && status != Some(Thinking) then Kept
      else Lives
    case Appended(_, kind, hasText, next) =>
      if kind == Clear then Wiped
      else if kind == UserMessage || (next == Thinking && status != Some(Thinking)) then Kept
      else if kind == LlmResponse && hasText then Dropped
      else Lives
    case _ => Lives
  }

  /** The draft that the text makes when it is kept. */
  function AsDraft<T>(v: View<T>): seq<Draft<T>> {
    if v.anchor.Some? then [Draft(v.anchor.value, v.received)] else []
  }

  /** The anchor of text that starts with this message. */
  function AnchorOf<T>(cursor: int, messageCount: nat, m: Message<T>): Anchor {
    if m.Ready? && m.streamed.Some? then m.streamed.value.anchor else Anchor(cursor, messageCount)
  }

  lemma {:induction false} FateStep<T>(v: View<T>, m: Message<T>)
    requires Sound(v)
    ensures
      var w, brought := Step(v, m), Brought(v, m);
      match FateOf(v.status, v.anchor, m)
      case Lives =>
        && w.drafts == v.drafts && w.received == v.received + brought
        && (v.received != [] ==> w.anchor == v.anchor)
        && (v.received == [] && brought != [] ==> w.anchor == Some(AnchorOf(v.cursor, v.messageCount, m)))
      case Kept =>
        && w.drafts == v.drafts + AsDraft(v) && w.received == brought
        && (brought != [] ==> w.anchor == Some(AnchorOf(v.cursor, v.messageCount, m)))
      case Dropped => w.drafts == v.drafts && w.received == [] && brought == []
      case Wiped => w.drafts == [] && w.received == [] && brought == []
  {
    hide Texts, RetainedTexts, DraftTexts;
    match m
    case Ready(_, _, _, _) =>
    case StateChanged(_, messages, _) => if v.anchor.Some? { HasTextIs(messages, v.anchor.value.messageCount); }
    case _ =>
  }

  lemma {:induction false} HasTextIs(messages: seq<bool>, from: nat)
    ensures HasText(messages, from) <==> exists i :: from <= i < |messages| && messages[i]
  {
  }

  // ---------------------------------------------------------------------------------
  // Whole runs.

  function After<T>(cursor: int, messageCount: nat, log: seq<Message<T>>): View<T> {
    Run(Start(cursor, messageCount), log)
  }

  /** What the message at `i` does to the text streamed before it. */
  function FateAt<T>(cursor: int, messageCount: nat, log: seq<Message<T>>, i: nat): Fate
    requires i < |log|
  {
    FateOf(StatusAt(log[..i]), After(cursor, messageCount, log[..i]).anchor, log[i])
  }

  /** The text that the message at `i` brings, as the messages decide it. */
  function BroughtAt<T>(log: seq<Message<T>>, i: nat): seq<T>
    requires i < |log|
  {
    match log[i]
    case TokenDelta(text) => if LetsIn(log[..i]) then text else []
    case Ready(_, _, Thinking, Some(draft)) => draft.text
    case _ => []
  }

  /** The text brought from message `i` up to before message `j`. */
  function TextBetween<T>(log: seq<Message<T>>, i: nat, j: nat): seq<T>
    requires i <= j <= |log|
  {
    if i == j then [] else TextBetween(log, i, j - 1) + BroughtAt(log, j - 1)
  }

  /** A draft starts with message `i`: it brings text and there is none, or it ends what there is. */
  predicate Begins<T>(cursor: int, messageCount: nat, log: seq<Message<T>>, i: nat) {
    && i < |log| && BroughtAt(log, i) != []
    && (log[i].Ready? || After(cursor, messageCount, log[..i]).received == [])
  }

  /** It then goes on up to before message `j`. */
  predicate LivesTo<T>(cursor: int, messageCount: nat, log: seq<Message<T>>, i: nat, j: nat) {
    i < j <= |log| && forall k :: i < k < j ==> FateAt(cursor, messageCount, log, k).Lives?
  }

  lemma {:induction false} SoundRun<T>(cursor: int, messageCount: nat, log: seq<Message<T>>)
    ensures Sound(After(cursor, messageCount, log))
  {
    EmptyTexts<T>();
    hide Texts, RetainedTexts, DraftTexts, Run;
    RunLedger(Start(cursor, messageCount), log);
  }

  lemma {:induction false} AfterStep<T>(cursor: int, messageCount: nat, log: seq<Message<T>>, i: nat)
    requires i < |log|
    ensures After(cursor, messageCount, log[..i + 1]) == Step(After(cursor, messageCount, log[..i]), log[i])
    ensures Brought(After(cursor, messageCount, log[..i]), log[i]) == BroughtAt(log, i)
    ensures FateOf(After(cursor, messageCount, log[..i]).status, After(cursor, messageCount, log[..i]).anchor, log[i])
         == FateAt(cursor, messageCount, log, i)
    ensures Sound(After(cursor, messageCount, log[..i]))
  {
    assert log[..i + 1][..i] == log[..i];
    hide Step, FateOf;
    MarksRun(cursor, messageCount, log[..i]);
    SoundRun(cursor, messageCount, log[..i]);
  }

  lemma {:induction false} BeginsNotLater<T>(cursor: int, messageCount: nat, log: seq<Message<T>>, i: nat)
    requires Begins(cursor, messageCount, log, i)
    ensures
      var w := After(cursor, messageCount, log[..i + 1]);
      w.received == BroughtAt(log, i)
      && w.anchor == Some(AnchorOf(CursorAt(cursor, log[..i]), CountAt(messageCount, log[..i]), log[i]))
  {
    hide Step, CursorAt, CountAt, LetsIn, Run, Sound;
    AfterStep(cursor, messageCount, log, i);
    MarksRun(cursor, messageCount, log[..i]);
    FateStep(After(cursor, messageCount, log[..i]), log[i]);
  }

  /** While it lives, the text is what was brought since it began, under the anchor it began with. */
  lemma {:induction false} DraftLives<T>(cursor: int, messageCount: nat, log: seq<Message<T>>, i: nat, j: nat)
    requires Begins(cursor, messageCount, log, i) && LivesTo(cursor, messageCount, log, i, j)
    ensures
      var v := After(cursor, messageCount, log[..j]);
      v.received == TextBetween(log, i, j) && v.received != []
      && v.anchor == Some(AnchorOf(CursorAt(cursor, log[..i]), CountAt(messageCount, log[..i]), log[i]))
  {
    hide Step, CursorAt, CountAt, LetsIn, Run, Sound, BroughtAt, FateAt, AnchorOf, After;
    BeginsNotLater(cursor, messageCount, log, i);
    if j == i + 1 {
      assert TextBetween(log, i, i) == [];
      BeginsBrings(cursor, messageCount, log, i);
      return;
    }
    DraftLives(cursor, messageCount, log, i, j - 1);
    AfterStep(cursor, messageCount, log, j - 1);
    assert FateAt(cursor, messageCount, log, j - 1).Lives?;
    FateStep(After(cursor, messageCount, log[..j - 1]), log[j - 1]);
  }

  lemma {:induction false} BeginsBrings<T>(cursor: int, messageCount: nat, log: seq<Message<T>>, i: nat)
    requires Begins(cursor, messageCount, log, i)
    ensures i < |log| && BroughtAt(log, i) != []
  {
  }

  /** The ends of text up to before message `n` that kept it as a draft. */
  function KeptEnds<T>(cursor: int, messageCount: nat, log: seq<Message<T>>, i: nat, n: nat): nat
    requires i <= n <= |log|
  {
    if i == n then 0
    else KeptEnds(cursor, messageCount, log, i, n - 1) + if KeepsAt(cursor, messageCount, log, n - 1) then 1 else 0
  }

  /** The message ends some text and keeps it. */
  predicate KeepsAt<T>(cursor: int, messageCount: nat, log: seq<Message<T>>, i: nat)
    requires i < |log|
  {
    FateAt(cursor, messageCount, log, i).Kept? && After(cursor, messageCount, log[..i]).received != []
  }

  predicate NoClear<T>(log: seq<Message<T>>, i: nat, n: nat)
    requires i <= n <= |log|
  {
    forall k :: i <= k < n ==> !Clears(log[k])
  }

  /** Without a clear drafts only join at the end, one for each end that keeps its text. */
  lemma {:induction false} DraftsGrow<T>(cursor: int, messageCount: nat, log: seq<Message<T>>, i: nat, n: nat)
    requires i <= n <= |log| && NoClear(log, i, n)
    ensures After(cursor, messageCount, log[..i]).drafts <= After(cursor, messageCount, log[..n]).drafts
    ensures |After(cursor, messageCount, log[..n]).drafts|
         == |After(cursor, messageCount, log[..i]).drafts| + KeptEnds(cursor, messageCount, log, i, n)
    decreases n
  {
    hide Step, LetsIn, Run, BroughtAt, FateAt, After;
    if i < n {
      DraftsGrow(cursor, messageCount, log, i, n - 1);
      AfterStep(cursor, messageCount, log, n - 1);
      FateStep(After(cursor, messageCount, log[..n - 1]), log[n - 1]);
      NotWiped(cursor, messageCount, log, n - 1);
      SoundAnchor(After(cursor, messageCount, log[..n - 1]));
      hide FateOf, Sound;
    }
  }

  lemma {:induction false} NotWiped<T>(cursor: int, messageCount: nat, log: seq<Message<T>>, i: nat)
    requires i < |log| && !Clears(log[i])
    ensures !FateAt(cursor, messageCount, log, i).Wiped?
  {
    hide Run;
  }

  lemma {:induction false} SoundAnchor<T>(v: View<T>)
    requires Sound(v)
    ensures v.received != [] <==> v.anchor.Some?
  {
    hide Texts, RetainedTexts, DraftTexts;
  }

  /**
   * The fate of streamed text.  A draft begins with message `i`, lives on to message `e`, which ends it, and no
   * clear follows.  If `e` keeps it, it is one of the retained drafts at the end, in its place in the order of such
   * ends, with exactly the text brought since `i` and the anchor of its first delta or of its snapshot.  If it has
   * to give way, `e` adds no draft.  (`DraftsGrow`: nothing else adds one.)
   */
  lemma {:induction false} DraftFate<T>(cursor: int, messageCount: nat, log: seq<Message<T>>, i: nat, e: nat)
    requires Begins(cursor, messageCount, log, i) && LivesTo(cursor, messageCount, log, i, e) && e < |log|
    requires NoClear(log, e, |log|)
    ensures
      var before := After(cursor, messageCount, log[..e]).drafts;
      var after := After(cursor, messageCount, log[..e + 1]).drafts;
      var end := After(cursor, messageCount, log).drafts;
      match FateAt(cursor, messageCount, log, e)
      case Kept =>
        |before| < |end| && before <= end
        && end[|before|] == Draft(AnchorOf(CursorAt(cursor, log[..i]), CountAt(messageCount, log[..i]), log[i]),
                                  TextBetween(log, i, e))
        && |after| == |before| + 1
      case Dropped => after == before && after <= end && After(cursor, messageCount, log[..e + 1]).received == []
      case Lives => true
      case Wiped => false
  {
    hide Step, LetsIn, Run, BroughtAt, FateAt, After, CursorAt, CountAt, AnchorOf, TextBetween, Begins, LivesTo;
    DraftLives(cursor, messageCount, log, i, e);
    AfterStep(cursor, messageCount, log, e);
    FateStep(After(cursor, messageCount, log[..e]), log[e]);
    NotWiped(cursor, messageCount, log, e);
    DraftsGrow(cursor, messageCount, log, e + 1, |log|);
    assert log[..|log|] == log;
    hide FateOf, Sound;
  }

  /** Text that is streamed began with some message and has lived since. */
  lemma {:induction false} HasBeginning<T>(cursor: int, messageCount: nat, log: seq<Message<T>>, j: nat)
    returns (i: nat)
    requires j <= |log| && After(cursor, messageCount, log[..j]).received != []
    ensures Begins(cursor, messageCount, log, i) && LivesTo(cursor, messageCount, log, i, j)
  {
    NothingYet<T>(cursor, messageCount);
    assert j > 0;
    hide Step, LetsIn, Run, After;
    var k := j - 1;
    AfterStep(cursor, messageCount, log, k);
    FateStep(After(cursor, messageCount, log[..k]), log[k]);
    if After(cursor, messageCount, log[..k]).received != [] && FateAt(cursor, messageCount, log, k).Lives? {
      i := HasBeginning(cursor, messageCount, log, k);
    } else {
      i := k;
    }
  }

  lemma {:induction false} NothingYet<T>(cursor: int, messageCount: nat)
    ensures After<T>(cursor, messageCount, []).received == [] && After<T>(cursor, messageCount, []).drafts == []
  {
  }

  /** Draft `d` at the end of the run is the text from `i` to `e`, which kept it, under its anchor. */
  predicate DraftFrom<T(==)>(cursor: int, messageCount: nat, log: seq<Message<T>>, d: nat, i: nat, e: nat) {
    && Begins(cursor, messageCount, log, i) && LivesTo(cursor, messageCount, log, i, e) && e < |log|
    && FateAt(cursor, messageCount, log, e).Kept?
    && d < |After(cursor, messageCount, log).drafts|
    && After(cursor, messageCount, log).drafts[d]
       == Draft(AnchorOf(CursorAt(cursor, log[..i]), CountAt(messageCount, log[..i]), log[i]), TextBetween(log, i, e))
  }

  /** The converse: every retained draft is text that some message kept, so text that gave way is in none. */
  lemma {:induction false} DraftsCome<T>(cursor: int, messageCount: nat, log: seq<Message<T>>, d: nat)
    returns (i: nat, e: nat)
    requires d < |After(cursor, messageCount, log).drafts|
    ensures DraftFrom(cursor, messageCount, log, d, i, e)
  {
    NothingYet<T>(cursor, messageCount);
    assert log != [];
    hide Step, LetsIn, Run, After, BroughtAt, CursorAt, CountAt, AnchorOf, Begins, FateAt;
    var n := |log| - 1;
    var v := After(cursor, messageCount, log[..n]);
    assert log[..n + 1] == log;
    AfterStep(cursor, messageCount, log, n);
    FateStep(v, log[n]);
    if d < |v.drafts| {
      i, e := DraftsCome(cursor, messageCount, log[..n], d);
      PrefixSame(cursor, messageCount, log, n, i, e);
    } else {
      SoundAnchor(v);
      hide Sound;
      e := n;
      i := HasBeginning(cursor, messageCount, log, n);
      DraftLives(cursor, messageCount, log, i, n);
    }
  }

  lemma {:induction false} PrefixSame<T>(
    cursor: int, messageCount: nat, log: seq<Message<T>>, n: nat, i: nat, e: nat)
    requires n <= |log| && i < e < n
    ensures Begins(cursor, messageCount, log[..n], i) <==> Begins(cursor, messageCount, log, i)
    ensures LivesTo(cursor, messageCount, log[..n], i, e) <==> LivesTo(cursor, messageCount, log, i, e)
    ensures FateAt(cursor, messageCount, log[..n], e) == FateAt(cursor, messageCount, log, e)
    ensures TextBetween(log[..n], i, e) == TextBetween(log, i, e)
    ensures log[..n][..i] == log[..i] && log[..n][i] == log[i]
  {
    hide Run, FateOf, After, LetsIn, StatusAt;
    assert forall k :: 0 <= k < n ==> log[..n][..k] == log[..k] && log[..n][k] == log[k];
    assert forall k :: 0 <= k < n ==> FateAt(cursor, messageCount, log[..n], k) == FateAt(cursor, messageCount, log, k);
    TextSame(log, n, i, e);
  }

  lemma {:induction false} TextSame<T>(log: seq<Message<T>>, n: nat, i: nat, e: nat)
    requires i <= e <= n <= |log|
    ensures TextBetween(log[..n], i, e) == TextBetween(log, i, e)
  {
    hide LetsIn;
    if i < e {
      TextSame(log, n, i, e - 1);
      assert log[..n][..e - 1] == log[..e - 1];
    }
  }
}
