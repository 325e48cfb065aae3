/**
 * The live stream buffers of packages/dashboard/src/session.ts and the reveal pacing of
 * packages/dashboard/src/features/chat/text-reveal.
 *
 * Token deltas go into a buffer, animation frames move some of it to a pending commit, and commits make it
 * visible. `View` is what the messages alone decide: frames, clocks and page visibility must leave it
 * alone. Nothing in it looks at the characters, so their type is a parameter; the buffers hold UTF-16 code
 * units. The clock is real-valued and may even run backwards.
 */
module StreamBuffer {
  import opened Common

  datatype Status = Idle | Thinking | AwaitingApproval | ExecutingTools | Done | Error

  datatype Anchor = Anchor(afterSeq: int, messageCount: nat)

  datatype Draft<T> = Draft(anchor: Anchor, text: seq<T>)

  /** How a streamed draft ended: kept beside the timeline, or discarded for the persisted text. */
  datatype Segment<T> = Retained(text: seq<T>) | Replaced(text: seq<T>)

  datatype View<T> = View(
    received: seq<T>,
    anchor: Option<Anchor>,
    drafts: seq<Draft<T>>,
    closed: seq<Segment<T>>,
    cursor: int,
    messageCount: nat,
    status: Option<Status>,
    accepting: bool)

  datatype EventKind = Clear | UserMessage | LlmResponse | LlmError | Other

  /** `messages` tells of every message whether it is an assistant message with text. */
  datatype Message<T> =
    | Ready(cursor: int, messages: seq<bool>, status: Status, streamed: Option<Draft<T>>)
    | StateChanged(cursor: int, messages: seq<bool>, status: Status)
    | Appended(seqNo: int, kind: EventKind, hasText: bool, next: Status)
    | SessionError
    | Disconnect
    | TokenDelta(text: seq<T>)

  // ---------------------------------------------------------------------------------
  // What the messages decide.

  function Close<T>(v: View<T>, segment: Segment<T>): View<T> {
    v.(received := [], anchor := None, closed := if v.received == [] then v.closed else v.closed + [segment])
  }

  function Discard<T>(v: View<T>): View<T> {
    Close(v, Replaced(v.received))
  }

  function Archive<T>(v: View<T>): View<T> {
    match v.anchor
    case None => v
    case Some(anchor) => Close(v, Retained(v.received)).(drafts := v.drafts + [Draft(anchor, v.received)])
  }

  function EnterStatus<T>(v: View<T>, status: Status): View<T> {
    var w := if status == Thinking && v.status != Some(Thinking) then Archive(v) else v;
    w.(status := Some(status), accepting := status == Thinking)
  }

  predicate HasText(messages: seq<bool>, from: nat) {
    exists i :: from <= i < |messages| && messages[i]
  }

  predicate ReplacesDraft<T>(v: View<T>, messages: seq<bool>) {
    v.anchor.Some? && HasText(messages, v.anchor.value.messageCount)
  }

  function Step<T>(v: View<T>, m: Message<T>): View<T> {
    match m
    case Ready(cursor, messages, status, streamed) =>
      var w := EnterStatus(Archive(v).(cursor := cursor, messageCount := |messages|), status);
      if streamed.Some? && streamed.value.text != [] && status == Thinking
      then w.(received := streamed.value.text, anchor := Some(streamed.value.anchor)) else w
    case StateChanged(cursor, messages, status) =>
      EnterStatus(if ReplacesDraft(v, messages) then Discard(v) else v, status)
      .(cursor := cursor, messageCount := |messages|)
    case Appended(seqNo, kind, hasText, next) =>
      var w := match kind
        case Clear => Discard(v).(drafts := [], closed := [])
        case UserMessage => Archive(v)
        case _ => v;
      var x := EnterStatus(w, next).(cursor := seqNo);
      if kind == LlmResponse || kind == LlmError then
        var y := x.(accepting := false);
        if kind == LlmResponse && hasText then Discard(y) else y
      else x
    case SessionError => v.(accepting := false)
    case Disconnect => v.(accepting := false)
    case TokenDelta(text) =>
      if !v.accepting || text == [] then v
      else
        v.(received := v.received + text,
           anchor := if v.anchor.Some? then v.anchor else Some(Anchor(v.cursor, v.messageCount)))
  }

  function Run<T>(v: View<T>, log: seq<Message<T>>): View<T> {
    if log == [] then v else Step(Run(v, log[..|log| - 1]), log[|log| - 1])
  }

  function Start<T>(cursor: int, messageCount: nat): View<T> {
    View([], None, [], [], cursor, messageCount, None, false)
  }

  // ---------------------------------------------------------------------------------
  // Conservation over whole runs.

  function Texts<T>(closed: seq<Segment<T>>): seq<T> {
    if closed == [] then [] else Texts(closed[..|closed| - 1]) + closed[|closed| - 1].text
  }

  function DraftTexts<T>(drafts: seq<Draft<T>>): seq<seq<T>> {
    seq(|drafts|, i requires 0 <= i < |drafts| => drafts[i].text)
  }

  function RetainedTexts<T>(closed: seq<Segment<T>>): seq<seq<T>> {
    if closed == [] then []
    else
      var rest, last := RetainedTexts(closed[..|closed| - 1]), closed[|closed| - 1];
      if last.Retained? then rest + [last.text] else rest
  }

  /** All text brought since the last clear, in the order it came. */
  function Ledger<T>(v: View<T>): seq<T> {
    Texts(v.closed) + v.received
  }

  /** The text a message brings: a delta that is let in, or the draft of a thinking Host. */
  function Brought<T>(v: View<T>, m: Message<T>): seq<T> {
    match m
    case TokenDelta(text) => if v.accepting then text else []
    case Ready(_, _, Thinking, Some(draft)) => draft.text
    case _ => []
  }

  predicate Clears<T>(m: Message<T>) {
    m.Appended? && m.kind == Clear
  }

  /** The text brought since the last clear of a run. */
  function BroughtSince<T>(v: View<T>, log: seq<Message<T>>): seq<T> {
    if log == [] then Ledger(v)
    else
      var n := |log| - 1;
      if Clears(log[n]) then [] else BroughtSince(v, log[..n]) + Brought(Run(v, log[..n]), log[n])
  }

  ghost predicate Sound<T>(v: View<T>) {
    && (v.received != [] <==> v.anchor.Some?)
    && DraftTexts(v.drafts) == RetainedTexts(v.closed)
    && (forall i :: 0 <= i < |v.closed| ==> v.closed[i].text != [])
    && (v.accepting ==> v.status == Some(Thinking))
  }

  lemma {:induction false} Closes<T>(v: View<T>, segment: Segment<T>)
    requires segment.text == v.received
    ensures Ledger(Close(v, segment)) == Ledger(v)
    ensures RetainedTexts(Close(v, segment).closed)
         == RetainedTexts(v.closed) + (if segment.Retained? && v.received != [] then [v.received] else [])
  {
    if v.received != [] {
      var closed := v.closed + [segment];
      assert closed[..|closed| - 1] == v.closed;
    }
  }

  lemma {:induction false} ArchiveKeeps<T>(v: View<T>)
    requires Sound(v)
    ensures Sound(Archive(v)) && Ledger(Archive(v)) == Ledger(v) && Archive(v).received == []
  {
    if v.anchor.Some? {
      Closes(v, Retained(v.received));
      var w := Archive(v);
      assert DraftTexts(w.drafts) == DraftTexts(v.drafts) + [v.received];
    }
  }

  lemma {:induction false} DiscardKeeps<T>(v: View<T>)
    requires Sound(v)
    ensures Sound(Discard(v)) && Ledger(Discard(v)) == Ledger(v) && Discard(v).received == []
  {
    Closes(v, Replaced(v.received));
  }

  lemma {:induction false} EnterKeeps<T>(v: View<T>, status: Status)
    requires Sound(v)
    ensures Sound(EnterStatus(v, status)) && Ledger(EnterStatus(v, status)) == Ledger(v)
    ensures v.received == [] ==> EnterStatus(v, status).received == []
  {
    ArchiveKeeps(v);
  }

  lemma {:induction false} AppendedLedger<T>(v: View<T>, seqNo: int, kind: EventKind, hasText: bool, next: Status)
    requires Sound(v)
    ensures Sound(Step(v, Appended(seqNo, kind, hasText, next)))
    ensures Ledger(Step(v, Appended(seqNo, kind, hasText, next))) == if kind == Clear then [] else Ledger(v)
  {
    hide Archive, Close, EnterStatus, Texts, RetainedTexts, DraftTexts;
    EmptyTexts<T>();
    DiscardKeeps(v);
    ArchiveKeeps(v);
    var w := match kind
      case Clear => Discard(v).(drafts := [], closed := [])
      case UserMessage => Archive(v)
      case _ => v;
    EnterKeeps(w, next);
    DiscardKeeps(EnterStatus(w, next).(cursor := seqNo, accepting := false));
  }

  /** A message adds exactly the text it brings, at the end; a clear starts over. */
  lemma {:induction false} StepLedger<T>(v: View<T>, m: Message<T>)
    requires Sound(v)
    ensures Sound(Step(v, m))
    ensures Ledger(Step(v, m)) == if Clears(m) then [] else Ledger(v) + Brought(v, m)
  {
    hide Archive, Close, EnterStatus, ReplacesDraft, Texts, RetainedTexts, DraftTexts;
    match m
    case Ready(cursor, messages, status, streamed) =>
      ArchiveKeeps(v);
      var a := Archive(v).(cursor := cursor, messageCount := |messages|);
      EnterKeeps(a, status);
    case StateChanged(cursor, messages, status) =>
      DiscardKeeps(v);
      EnterKeeps(if ReplacesDraft(v, messages) then Discard(v) else v, status);
    case Appended(seqNo, kind, hasText, next) =>
      AppendedLedger(v, seqNo, kind, hasText, next);
    case _ =>
  }

  lemma {:induction false} EmptyTexts<T>()
    ensures Texts<T>([]) == [] && RetainedTexts<T>([]) == [] && DraftTexts<T>([]) == []
  {
  }

  /**
   * Over every run, nothing that the messages brought since the last clear is lost or reordered: the ended
   * segments and the current text are exactly the deltas let in and the snapshots taken over, in order, and
   * the retained drafts are exactly the segments that no persisted text replaced. A snapshot may bring text
   * again that the client has; module StreamHost says when.
   */
  lemma {:induction false} RunLedger<T>(v: View<T>, log: seq<Message<T>>)
    requires Sound(v)
    ensures Sound(Run(v, log)) && Ledger(Run(v, log)) == BroughtSince(v, log)
  {
    if log == [] { return; }
    var n := |log| - 1;
    RunLedger(v, log[..n]);
    hide Sound, Step, Ledger, Brought;
    StepLedger(Run(v, log[..n]), log[n]);
  }

  // ---------------------------------------------------------------------------------
  // Pacing.

  function RealMin(a: real, b: real): real {
    if a <= b then a else b
  }

  function RealMax(a: real, b: real): real {
    if a >= b then a else b
  }

  /** Characters per second: enough to drain the backlog in 0.6 s, between the base and the highest rate. */
  function Rate(length: nat): (cps: real)
    ensures 120.0 <= cps <= 260.0
  {
    RealMin(260.0, RealMax(120.0, length as real / 0.6))
  }

  datatype Reveal = Reveal(count: nat, carry: real)

  /** Characters to reveal in one frame and the fraction carried over. */
  function ComputeReveal(length: nat, seconds: real, carry: real): Reveal {
    if length == 0 then Reveal(0, 0.0)
    else
      var next := carry + Rate(length) * seconds;
      var count := next.Floor;
      if count <= 0 then Reveal(0, next)
      else Reveal(if count > length then length else count, next - count as real)
  }

  function ReleaseCount(backlog: nat, paced: nat): (count: nat)
    ensures count >= paced
  {
    if backlog >= 2000 then Max(paced, 200)
    else if backlog >= 800 then Max(paced, 64)
    else if backlog >= 250 then Max(paced, 24)
    else paced
  }

  predicate ShouldCommit(now: real, lastCommit: real, backlog: nat, visible: bool): (commit: bool)
    ensures commit ==> visible
  {
    visible && now - lastCommit >= if backlog >= 800 then 66.0 else 33.0
  }

  /** A frame never releases more than there is. */
  lemma {:induction false} ReleaseFits(length: nat, seconds: real, carry: real)
    ensures ReleaseCount(length, ComputeReveal(length, seconds, carry).count) <= length
  {
    hide Rate;
    assert ComputeReveal(length, seconds, carry).count <= length;
  }

  lemma {:induction false} Scaled(cps: real, low: real, seconds: real)
    requires cps >= low && seconds >= 0.0
    ensures cps * seconds >= low * seconds
  {
  }

  /** Seconds since the last frame, at most a tenth; the first frame counts as a sixtieth. */
  function FrameSeconds(now: real, last: real): real {
    if last == 0.0 then 1.0 / 60.0 else RealMin(0.1, (now - last) / 1000.0)
  }

  predicate FullFrame(now: real, last: real) {
    last == 0.0 || now - last >= 1000.0 / 120.0
  }

  /** At 120 frames a second or fewer, a frame with a backlog always releases something. */
  lemma {:induction false} RevealAdvances(length: nat, now: real, last: real, carry: real)
    requires length > 0 && FullFrame(now, last) && carry >= 0.0
    ensures ComputeReveal(length, FrameSeconds(now, last), carry).count > 0
  {
    var seconds := FrameSeconds(now, last);
    assert seconds >= 1.0 / 120.0;
    var least := 120.0 * seconds;
    assert least >= 1.0;
    hide FrameSeconds, Rate;
    Scaled(Rate(length), 120.0, seconds);
    var next := carry + Rate(length) * seconds;
    assert next >= least;
  }

  /** On a clock that never runs backwards the carry stays a proper fraction. */
  lemma {:induction false} CarryFraction(length: nat, seconds: real, carry: real)
    requires seconds >= 0.0 && 0.0 <= carry < 1.0
    ensures 0.0 <= ComputeReveal(length, seconds, carry).carry < 1.0
  {
    hide Rate;
    Scaled(Rate(length), 0.0, seconds);
  }

  // ---------------------------------------------------------------------------------
  // The buffers.

  class Stream {
    const smooth: bool
    var streamingText: string
    var pendingCommit: string
    var buffer: string
    var receivedText: string
    var draftAnchor: Option<Anchor>
    var retainedDrafts: seq<Draft<char>>
    var streamingActive: bool
    var pageVisible: bool
    var frameScheduled: bool
    var carry: real
    var lastFrameMs: real
    var lastCommitMs: real
    var streamCursor: int
    var streamMessageCount: nat
    var streamStatus: Option<Status>
    var acceptStreamDeltas: bool
    ghost var closed: seq<Segment<char>>

    ghost function Abs(): View<char>
      reads this
    {
      View(receivedText, draftAnchor, retainedDrafts, closed, streamCursor, streamMessageCount, streamStatus,
           acceptStreamDeltas)
    }

    ghost predicate Valid()
      reads this
    {
      Paced() && Sound(Abs())
    }

    /**
     * What is shown, what is pending and what is buffered make up the received text, and nothing is left
     * to show once no frame is due on a visible page.
     */
    ghost predicate Paced()
      reads this
    {
      && streamingText + pendingCommit + buffer == receivedText
      && (buffer != "" ==> frameScheduled)
      && (pendingCommit != "" ==> frameScheduled || (smooth && !pageVisible))
      && (streamingActive ==> receivedText != "")
    }

    constructor (smooth: bool, visible: bool, cursor: int, messageCount: nat)
      ensures Valid() && Abs() == Start(cursor, messageCount) && streamingText == ""
      ensures this.smooth == smooth && pageVisible == visible
    {
      this.smooth := smooth;
      streamingText, pendingCommit, buffer, receivedText := "", "", "", "";
      draftAnchor, retainedDrafts, streamingActive := None, [], false;
      pageVisible, frameScheduled := visible, false;
      carry, lastFrameMs, lastCommitMs := 0.0, 0.0, 0.0;
      streamCursor, streamMessageCount, streamStatus, acceptStreamDeltas := cursor, messageCount, None, false;
      closed := [];
    }

    method CommitPending(now: real)
      modifies this`pendingCommit, this`streamingText, this`lastCommitMs
      ensures pendingCommit == "" && streamingText == old(streamingText + pendingCommit)
    {
      if |pendingCommit| == 0 { return; }
      var chunk := pendingCommit;
      pendingCommit := "";
      lastCommitMs := now;
      streamingText := streamingText + chunk;
    }

    /** The first characters of the buffer are handed to the next commit. */
    method Release(count: nat)
      requires count <= |buffer|
      modifies this`pendingCommit, this`buffer
      ensures streamingText + pendingCommit + buffer == old(streamingText + pendingCommit + buffer)
      ensures |buffer| == old(|buffer|) - count
    {
      assert streamingText + pendingCommit + buffer
          == streamingText + (pendingCommit + buffer[..count]) + buffer[count..];
      if count > 0 {
        var chunk := buffer[..count];
        buffer := buffer[count..];
        pendingCommit := pendingCommit + chunk;
      }
    }

    /**
     * A frame of smooth mode at time t. It only moves text towards the screen, and advances whenever a
     * backlog meets a frame of at least 1/120 s.
     */
    method DrainSmooth(t: real)
      requires Valid() && smooth && frameScheduled
      modifies this`pendingCommit, this`streamingText, this`lastCommitMs, this`buffer, this`frameScheduled,
               this`lastFrameMs, this`carry
      ensures Valid() && Abs() == old(Abs())
      ensures |streamingText| >= old(|streamingText|) && |buffer| <= old(|buffer|)
      ensures !pageVisible ==> streamingText == old(streamingText)
      ensures frameScheduled <==> old(buffer) != ""
      ensures !frameScheduled && pageVisible ==> streamingText == receivedText
      ensures old(buffer != "" && carry >= 0.0 && FullFrame(t, lastFrameMs)) ==> |buffer| < old(|buffer|)
    {
      hide Sound, ShouldCommit, FullFrame;
      if |buffer| == 0 {
        if pageVisible { CommitPending(t); }
        frameScheduled := false;
        lastFrameMs := 0.0;
        return;
      }
      var count := Pace(t);
      Release(count);
      if ShouldCommit(t, lastCommitMs, |buffer|, pageVisible) { CommitPending(t); }
      frameScheduled := true;
    }

    /** How many characters a frame at time t releases, and the fraction carried over. */
    method Pace(t: real) returns (count: nat)
      requires buffer != ""
      modifies this`lastFrameMs, this`carry
      ensures count <= |buffer|
      ensures old(carry >= 0.0 && FullFrame(t, lastFrameMs)) ==> count > 0
    {
      hide ComputeReveal, ReleaseCount, FullFrame, FrameSeconds;
      if FullFrame(t, lastFrameMs) && carry >= 0.0 { RevealAdvances(|buffer|, t, lastFrameMs, carry); }
      var dt := FrameSeconds(t, lastFrameMs);
      ReleaseFits(|buffer|, dt, carry);
      var release := ComputeReveal(|buffer|, dt, carry);
      lastFrameMs, carry := t, release.carry;
      count := ReleaseCount(|buffer|, release.count);
    }

    /** A frame of batched mode: a tenth of the backlog, at least two characters, so it always advances. */
    method DrainBatched(t: real)
      requires Valid() && !smooth && frameScheduled
      modifies this`pendingCommit, this`streamingText, this`lastCommitMs, this`buffer, this`frameScheduled
      ensures Valid() && Abs() == old(Abs())
      ensures |streamingText| >= old(|streamingText|)
      ensures frameScheduled <==> old(buffer) != ""
      ensures !frameScheduled ==> streamingText == receivedText
      ensures old(buffer) != "" ==> |buffer| < old(|buffer|) && 10 * |buffer| <= 9 * old(|buffer|)
    {
      hide Sound;
      var buf := buffer;
      if |buf| == 0 {
        CommitPending(t);
        frameScheduled := false;
        return;
      }
      var tenth := (|buf| + 9) / 10;
      var large := Max(2, tenth);
      var chunkSize := if |buf| < large then |buf| else large;
      Release(chunkSize);
      if t - lastCommitMs >= 66.0 { CommitPending(t); }
      frameScheduled := true;
    }

    method HandleVisibilityChange(visible: bool, now: real)
      requires Valid()
      modifies this`pageVisible, this`pendingCommit, this`streamingText, this`lastCommitMs
      ensures Valid() && Abs() == old(Abs()) && pageVisible == visible && buffer == old(buffer)
      ensures visible ==> streamingText + buffer == receivedText
      ensures !visible ==> streamingText == old(streamingText)
    {
      hide Sound;
      pageVisible := visible;
      if !pageVisible { return; }
      CommitPending(now);
      if |buffer| > 0 && !frameScheduled {
        // The source schedules a frame here, but a backlog always has one.
        assert false;
      }
    }

    method PushStreamDelta(text: string)
      requires Valid() && acceptStreamDeltas
      modifies this`draftAnchor, this`receivedText, this`streamingActive, this`buffer, this`frameScheduled,
               this`lastFrameMs
      ensures Valid() && Abs() == Step(old(Abs()), TokenDelta(text))
    {
      if text == "" { return; }
      SoundDelta(Abs(), text);
      hide Sound, Step;
      AppendLast(streamingText, pendingCommit, buffer, text);
      if draftAnchor.None? {
        draftAnchor := Some(Anchor(streamCursor, streamMessageCount));
      }
      receivedText := receivedText + text;
      streamingActive := true;
      buffer := buffer + text;
      if !frameScheduled {
        lastFrameMs := 0.0;
        frameScheduled := true;
      }
    }

    /** Drops the streamed text; `segment` records what became of it. */
    method ResetStream(ghost segment: Segment<char>)
      requires segment.text == receivedText
      modifies this`buffer, this`pendingCommit, this`carry, this`lastFrameMs, this`frameScheduled,
               this`streamingText, this`receivedText, this`draftAnchor, this`streamingActive, this`closed
      ensures Paced() && Abs() == Close(old(Abs()), segment) && streamingText == "" && !frameScheduled
    {
      closed := if receivedText == "" then closed else closed + [segment];
      buffer, pendingCommit, streamingText, receivedText := "", "", "", "";
      carry, lastFrameMs := 0.0, 0.0;
      draftAnchor, frameScheduled, streamingActive := None, false, false;
    }

    /** Everything received is on the screen at once, whatever was still unrevealed. */
    method FinishStream()
      requires Valid()
      modifies this`buffer, this`pendingCommit, this`frameScheduled, this`streamingText, this`streamingActive
      ensures Valid() && Abs() == old(Abs())
      ensures streamingText == receivedText && pendingCommit == buffer == "" && !frameScheduled && !streamingActive
    {
      hide Sound;
      buffer := "";
      pendingCommit := "";
      frameScheduled := false;
      streamingText := receivedText;
      streamingActive := false;
    }

    /** The streamed text becomes a retained draft. */
    method ArchiveStream()
      requires Valid()
      modifies this`buffer, this`pendingCommit, this`carry, this`lastFrameMs, this`frameScheduled,
               this`streamingText, this`receivedText, this`draftAnchor, this`streamingActive, this`closed,
               this`retainedDrafts
      ensures Valid() && Abs() == Archive(old(Abs())) && streamingText == receivedText == ""
    {
      ArchiveKeeps(Abs());
      if receivedText != "" && draftAnchor.Some? {
        retainedDrafts := retainedDrafts + [Draft(draftAnchor.value, receivedText)];
      }
      hide Texts, RetainedTexts, DraftTexts;
      ResetStream(Retained(receivedText));
    }

    /** The streamed text gives way to the persisted one. */
    method DiscardStream()
      requires Valid()
      modifies this`buffer, this`pendingCommit, this`carry, this`lastFrameMs, this`frameScheduled,
               this`streamingText, this`receivedText, this`draftAnchor, this`streamingActive, this`closed
      ensures Valid() && Abs() == Discard(old(Abs())) && streamingText == receivedText == ""
    {
      DiscardKeeps(Abs());
      hide Sound;
      ResetStream(Replaced(receivedText));
    }

    method UpdateStreamStatus(status: Status)
      requires Valid()
      modifies this
      ensures Valid() && Abs() == EnterStatus(old(Abs()), status)
      ensures pageVisible == old(pageVisible)
      ensures status != Thinking ==> streamingText == receivedText
      ensures old(receivedText) == "" ==> streamingText == receivedText == ""
    {
      EnterKeeps(Abs(), status);
      if status == Thinking && streamStatus != Some(Thinking) { ArchiveStream(); }
      if status != Thinking { FinishStream(); }
      hide Sound, Archive;
      streamStatus := Some(status);
      acceptStreamDeltas := status == Thinking;
    }

    /** Any message of the session: the buffers follow `Step`, and only a thinking Host leaves text hidden. */
    method Handle(m: Message<char>)
      requires Valid()
      modifies this
      ensures Valid() && Abs() == Step(old(Abs()), m)
      ensures pageVisible == old(pageVisible)
      ensures !acceptStreamDeltas && !m.TokenDelta? ==> streamingText == receivedText
    {
      match m
      case Ready(cursor, messages, status, streamed) => OnReady(cursor, messages, status, streamed);
      case StateChanged(cursor, messages, status) => OnStateChanged(cursor, messages, status);
      case Appended(seqNo, kind, hasText, next) => OnAppended(seqNo, kind, hasText, next);
      case TokenDelta(text) => if acceptStreamDeltas { PushStreamDelta(text); }
      case _ =>
        RefuseDeltas();
    }

    method NotePosition(cursor: int, messageCount: nat)
      requires Valid()
      modifies this`streamCursor, this`streamMessageCount
      ensures Valid() && Abs() == old(Abs()).(cursor := cursor, messageCount := messageCount)
    {
      streamCursor := cursor;
      streamMessageCount := messageCount;
    }

    /** Finished, and closed to further deltas. */
    method RefuseDeltas()
      requires Valid()
      modifies this`buffer, this`pendingCommit, this`frameScheduled, this`streamingText, this`streamingActive,
               this`acceptStreamDeltas
      ensures Valid() && Abs() == old(Abs()).(accepting := false) && streamingText == receivedText
    {
      FinishStream();
      acceptStreamDeltas := false;
    }

    /** The Host's snapshot of the draft replaces the empty tail. */
    method RestoreDraft(draft: Draft<char>)
      requires Valid() && receivedText == "" && draft.text != ""
      modifies this`receivedText, this`draftAnchor, this`streamingText, this`streamingActive
      ensures Valid() && Abs() == old(Abs()).(received := draft.text, anchor := Some(draft.anchor))
      ensures streamingText == receivedText
    {
      receivedText := draft.text;
      draftAnchor := Some(draft.anchor);
      streamingText := receivedText;
      streamingActive := true;
    }

    method ClearStream()
      requires Valid()
      modifies this`buffer, this`pendingCommit, this`carry, this`lastFrameMs, this`frameScheduled,
               this`streamingText, this`receivedText, this`draftAnchor, this`streamingActive, this`closed,
               this`retainedDrafts
      ensures Valid() && Abs() == Discard(old(Abs())).(drafts := [], closed := [])
      ensures streamingText == receivedText == ""
    {
      DiscardStream();
      SoundCleared(Abs());
      hide Sound;
      retainedDrafts, closed := [], [];
    }

    method OnReady(cursor: int, messages: seq<bool>, status: Status, streamed: Option<Draft<char>>)
      requires Valid()
      modifies this
      ensures Valid() && Abs() == Step(old(Abs()), Ready(cursor, messages, status, streamed))
      ensures pageVisible == old(pageVisible) && streamingText == receivedText
    {
      hide Sound, Archive, EnterStatus, Paced;
      ArchiveStream();
      NotePosition(cursor, |messages|);
      UpdateStreamStatus(status);
      if streamed.Some? && streamed.value.text != "" && status == Thinking { RestoreDraft(streamed.value); }
    }

    method OnStateChanged(cursor: int, messages: seq<bool>, status: Status)
      requires Valid()
      modifies this
      ensures Valid() && Abs() == Step(old(Abs()), StateChanged(cursor, messages, status))
      ensures pageVisible == old(pageVisible) && (status != Thinking ==> streamingText == receivedText)
    {
      hide Sound, Archive, EnterStatus, Close, HasText, Paced;
      if draftAnchor.Some? && HasText(messages, draftAnchor.value.messageCount) { DiscardStream(); }
      UpdateStreamStatus(status);
      NotePosition(cursor, |messages|);
    }

    method OnAppended(seqNo: int, kind: EventKind, hasText: bool, next: Status)
      requires Valid()
      modifies this
      ensures Valid() && Abs() == Step(old(Abs()), Appended(seqNo, kind, hasText, next))
      ensures pageVisible == old(pageVisible)
      ensures kind == LlmResponse || kind == LlmError || next != Thinking ==> streamingText == receivedText
    {
      hide Sound, Archive, EnterStatus, Close, Discard, Paced;
      if kind == Clear {
        ClearStream();
      } else if kind == UserMessage { ArchiveStream(); }
      UpdateStreamStatus(next);
      NotePosition(seqNo, streamMessageCount);
      if kind == LlmResponse || kind == LlmError {
        RefuseDeltas();
        if kind == LlmResponse && hasText { DiscardStream(); }
      }
    }
  }

  lemma {:induction false} AppendLast(a: string, b: string, c: string, d: string)
    ensures a + b + (c + d) == a + b + c + d
  {
  }

  lemma {:induction false} SoundDelta(v: View<char>, text: string)
    requires Sound(v) && v.accepting && text != ""
    ensures Sound(Step(v, TokenDelta(text)))
    ensures Step(v, TokenDelta(text)) == v.(
              received := v.received + text,
              anchor := if v.anchor.Some? then v.anchor else Some(Anchor(v.cursor, v.messageCount)))
  {
    hide RetainedTexts, DraftTexts;
  }

  lemma {:induction false} SoundCleared(v: View<char>)
    requires Sound(v)
    ensures Sound(v.(drafts := [], closed := []))
  {
    EmptyTexts<char>();
  }

  // ---------------------------------------------------------------------------------
  // Whole runs, frames and visibility changes included.

  datatype Input = Arrives(message: Message<char>) | FrameAt(time: real) | Visibility(visible: bool, time: real)

  /** The messages among the inputs. */
  function Arrived(inputs: seq<Input>): seq<Message<char>> {
    if inputs == [] then []
    else
      var rest, last := Arrived(inputs[..|inputs| - 1]), inputs[|inputs| - 1];
      if last.Arrives? then rest + [last.message] else rest
  }

  lemma {:induction false} ArrivedStep(v: View<char>, inputs: seq<Input>, i: nat)
    requires i < |inputs|
    ensures Run(v, Arrived(inputs[..i + 1]))
         == if inputs[i].Arrives? then Step(Run(v, Arrived(inputs[..i])), inputs[i].message)
            else Run(v, Arrived(inputs[..i]))
  {
    hide Step;
    assert inputs[..i + 1][..i] == inputs[..i];
    if inputs[i].Arrives? {
      var before := Arrived(inputs[..i]);
      assert (before + [inputs[i].message])[..|before|] == before;
    }
  }

  /**
   * Pacing never matters: whatever frames, clocks and visibility changes come between the messages, the
   * text and the drafts are what the messages alone decide, and what is shown is the text up to the part
   * that is still pending or buffered.
   */
  method RunStream(smooth: bool, visible: bool, cursor: int, messageCount: nat, inputs: seq<Input>)
    returns (shown: string, hidden: string, drafts: seq<Draft<char>>)
    ensures shown + hidden == Run(Start(cursor, messageCount), Arrived(inputs)).received
    ensures drafts == Run(Start(cursor, messageCount), Arrived(inputs)).drafts
  {
    var s := new Stream(smooth, visible, cursor, messageCount);
    ghost var start := Start(cursor, messageCount);
    for i := 0 to |inputs|
      invariant s.Valid() && fresh(s) && s.Abs() == Run(start, Arrived(inputs[..i]))
    {
      hide *;
      ArrivedStep(start, inputs, i);
      Serve(s, inputs[i]);
    }
    assert inputs[..|inputs|] == inputs;
    shown, hidden, drafts := s.streamingText, s.pendingCommit + s.buffer, s.retainedDrafts;
    assert shown + hidden == s.streamingText + s.pendingCommit + s.buffer;
    hide Step, Sound, Arrived, Run;
  }

  method Serve(s: Stream, input: Input)
    requires s.Valid()
    modifies s
    ensures s.Valid()
    ensures s.Abs() == if input.Arrives? then Step(old(s.Abs()), input.message) else old(s.Abs())
  {
    hide Step, Sound, Stream.Paced;
    match input
    case Arrives(message) => s.Handle(message);
    case FrameAt(time) =>
      if s.frameScheduled {
        if s.smooth { s.DrainSmooth(time); } else { s.DrainBatched(time); }
      }
    case Visibility(shows, time) => s.HandleVisibilityChange(shows, time);
  }
}
