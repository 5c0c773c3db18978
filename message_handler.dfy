/**
 * `messageHandler` of `src/utils/message.ts`: building a message record,
 * delivering a complete (non-streamed) reply, and the paced delivery of a
 * streamed reply.
 *
 * A streamed reply arrives as network chunks.  Every `data: ` record of a
 * chunk is parsed, its content and reasoning deltas are split into single
 * characters and queued, and one animation-frame "tick" at a time moves at
 * most one character per channel from the queues into the accumulated
 * strings and notifies the caller.  When the stream ends (or fails) the
 * pending tick is cancelled and one final notification is sent.
 *
 * The asynchronous interleaving of network reads and animation frames is an
 * explicit schedule of events; `JSON.parse` followed by `choices[0].delta` is a
 * parameter that returns `None` where the source would throw.
 */
module MessageHandler {
  import opened Wrappers
  import opened StreamLines
  import opened ChatTypes

  // ---------------------------------------------------------------------------
  // formatMessage
  // ---------------------------------------------------------------------------

  /**
   * `formatMessage`: a message of the given role and text, stamped with the
   * clock reading `now` as its id; the reasoning is whatever the caller passed
   * (`undefined` when omitted) and no token count is set.
   */
  function FormatMessage(role: Role, content: string, reasoning: Option<string>, now: int): (m: Message)
    ensures m.id == now && m.role == role && m.content == content
    ensures m.reasoning == reasoning && m.completionTokens.None?
  {
    Message(now, role, content, reasoning, None)
  }

  // ---------------------------------------------------------------------------
  // Notifications
  // ---------------------------------------------------------------------------

  /** A `ContentChunk`: the text one tick added to a channel, and its sequence number. */
  datatype Chunk = Chunk(content: string, key: nat)

  /**
   * The arguments of one call of the update callback: the accumulated content,
   * the token count, the accumulated reasoning, the two chunks of this tick
   * and the final flag (each `undefined` where the source passes none).
   */
  datatype Notification = Notification(
    content: string,
    tokens: int,
    reasoning: Option<string>,
    chunk: Option<Chunk>,
    reasoningChunk: Option<Chunk>,
    isFinal: Option<bool>)

  // ---------------------------------------------------------------------------
  // handleUnstreamResponse
  // ---------------------------------------------------------------------------

  /** The first choice's message of a complete reply. */
  datatype ReplyMessage = ReplyMessage(content: string, reasoning: Option<string>)

  /** A `ChatCompletionResponse`, reduced to what is read. */
  datatype Completion = Completion(choices: seq<ReplyMessage>, completionTokens: int)

  /**
   * `handleUnstreamResponse`: exactly one notification, carrying the first
   * choice's content and reasoning and the completion token count; with no
   * choice at all, reading `choices[0]` throws before any notification.
   */
  function HandleUnstreamResponse(r: Completion): (n: Option<Notification>)
    ensures n.None? <==> r.choices == []
    ensures n.Some? ==>
      (&& n.value.content == r.choices[0].content
       && n.value.tokens == r.completionTokens
       && n.value.reasoning == r.choices[0].reasoning
       && n.value.chunk.None? && n.value.reasoningChunk.None? && n.value.isFinal.None?)
  {
    if r.choices == [] then None
    else Some(Notification(r.choices[0].content, r.completionTokens, r.choices[0].reasoning, None, None, None))
  }

  // ---------------------------------------------------------------------------
  // The stream session as values
  // ---------------------------------------------------------------------------

  /** The used part of one parsed record: `choices[0].delta`. */
  datatype Delta = Delta(content: Option<string>, reasoning: Option<string>)

  /** `JSON.parse(payload).choices[0].delta`, or `None` where that throws. */
  type Parser = string -> Option<Delta>

  /** `x || ''` for an optional string. */
  function Text(o: Option<string>): string
  {
    o.GetOr("")
  }

  /**
   * The variables `handleStreamResponse` keeps between events: the two
   * accumulated strings, the two queues of single characters, the two chunk
   * keys, whether an animation frame is requested, and the notifications
   * sent so far.
   */
  datatype Session = Session(
    content: string,
    reasoning: string,
    contentQueue: seq<char>,
    reasoningQueue: seq<char>,
    chunkKey: nat,
    reasoningChunkKey: nat,
    framePending: bool,
    log: seq<Notification>)

  const Initial: Session := Session("", "", [], [], 0, 0, false, [])

  /** What one `queue.shift()` yields: the first character, or `''` on an empty queue. */
  function Head(q: seq<char>): string
  {
    if q == [] then "" else [q[0]]
  }

  function Tail(q: seq<char>): seq<char>
  {
    if q == [] then [] else q[1..]
  }

  /**
   * Queueing one parsed delta: each non-empty delta is appended character by
   * character, and a frame is requested (`ensureRendering` only requests one
   * when none is pending, so there is never more than one).
   */
  function Enqueued(s: Session, d: Delta): Session
  {
    s.(contentQueue := s.contentQueue + Text(d.content),
       reasoningQueue := s.reasoningQueue + Text(d.reasoning),
       framePending := true)
  }

  /**
   * One run of `render`: with both queues empty it clears the frame request
   * and sends nothing; otherwise it moves the head of each queue to its
   * accumulated string, numbers both chunks, sends a non-final notification
   * and requests the next frame.
   */
  function Rendered(s: Session): Session
  {
    if s.contentQueue == [] && s.reasoningQueue == [] then s.(framePending := false)
    else
      var c := Head(s.contentQueue);
      var r := Head(s.reasoningQueue);
      var n := Notification(s.content + c, 0, Some(s.reasoning + r),
                            Some(Chunk(c, s.chunkKey)), Some(Chunk(r, s.reasoningChunkKey)), Some(false));
      s.(content := s.content + c, reasoning := s.reasoning + r,
         contentQueue := Tail(s.contentQueue), reasoningQueue := Tail(s.reasoningQueue),
         chunkKey := s.chunkKey + 1, reasoningChunkKey := s.reasoningChunkKey + 1,
         framePending := true, log := s.log + [n])
  }

  /** An animation frame: `render` runs only when a frame was requested. */
  function OnFrame(s: Session): Session
  {
    if s.framePending then Rendered(s) else s
  }

  /**
   * The `finally` block: the pending frame is cancelled and one final
   * notification carries the accumulated strings; characters still queued
   * are not appended.
   */
  function Finished(s: Session): Session
  {
    s.(framePending := false,
       log := s.log + [Notification(s.content, 0, Some(s.reasoning), None, None, Some(true))])
  }

  /** A session after some steps, and whether a step threw. */
  datatype Outcome = Outcome(session: Session, threw: bool)

  /**
   * One filtered line: the end marker and lines without the `data: ` prefix
   * are skipped; a record whose payload does not parse throws.
   */
  function AfterLine(s: Session, line: string, parse: Parser): Outcome
  {
    match Classify(line)
    case DoneMarker => Outcome(s, false)
    case Ignored => Outcome(s, false)
    case Payload(json) =>
      match parse(json)
      case None => Outcome(s, true)
      case Some(d) => Outcome(Enqueued(s, d), false)
  }

  /** The lines of one chunk in order, stopping at the first that throws. */
  function AfterLines(s: Session, lines: seq<string>, parse: Parser): Outcome
    decreases |lines|
  {
    if lines == [] then Outcome(s, false)
    else
      var o := AfterLine(s, lines[0], parse);
      if o.threw then o else AfterLines(o.session, lines[1..], parse)
  }

  function AfterChunk(s: Session, chunk: string, parse: Parser): Outcome
  {
    AfterLines(s, ChunkLines(chunk), parse)
  }

  /**
   * What happens between two awaits of the read loop: a decoded chunk
   * arrives, an animation frame fires, or the read fails.  The end of the
   * schedule is the end of the stream.
   */
  datatype Event = Read(chunk: string) | Frame | ReadError

  /** The read loop over a schedule of events, up to the end or the first throw. */
  function Drive(s: Session, events: seq<Event>, parse: Parser): Outcome
    decreases |events|
  {
    if events == [] then Outcome(s, false)
    else
      match events[0]
      case Read(chunk) =>
        var o := AfterChunk(s, chunk, parse);
        if o.threw then o else Drive(o.session, events[1..], parse)
      case Frame => Drive(OnFrame(s), events[1..], parse)
      case ReadError => Outcome(s, true)
  }

  /** `handleStreamResponse` as a whole: the read loop, then the `finally` block. */
  function Stream(events: seq<Event>, parse: Parser): Outcome
  {
    var o := Drive(Initial, events, parse);
    Outcome(Finished(o.session), o.threw)
  }

  // ---------------------------------------------------------------------------
  // The notifications of a session
  // ---------------------------------------------------------------------------

  /** The content shown by the notifications before the `k`-th. */
  function ContentBefore(log: seq<Notification>, k: nat): string
    requires k <= |log|
  {
    if k == 0 then "" else log[k - 1].content
  }

  function ReasoningBefore(log: seq<Notification>, k: nat): string
    requires k <= |log|
  {
    if k == 0 then "" else log[k - 1].reasoning.GetOr("")
  }

  /**
   * The `k`-th notification is a tick: non-final, no tokens, both chunks keyed
   * `k`, each chunk at most one character and not both empty, and each
   * accumulated string is the previous one extended by its chunk.
   */
  ghost predicate IsTick(log: seq<Notification>, k: nat)
    requires k < |log|
  {
    var n := log[k];
    && n.tokens == 0 && n.isFinal == Some(false)
    && n.chunk.Some? && n.reasoningChunk.Some? && n.reasoning.Some?
    && n.chunk.value.key == k && n.reasoningChunk.value.key == k
    && |n.chunk.value.content| <= 1 && |n.reasoningChunk.value.content| <= 1
    && |n.chunk.value.content| + |n.reasoningChunk.value.content| >= 1
    && n.content == ContentBefore(log, k) + n.chunk.value.content
    && n.reasoning.value == ReasoningBefore(log, k) + n.reasoningChunk.value.content
  }

  ghost predicate AllTicks(log: seq<Notification>)
  {
    forall k :: 0 <= k < |log| ==> IsTick(log, k)
  }

  /**
   * The invariant of a running session: every notification so far is a tick,
   * both keys count them, the accumulated strings are what the last tick
   * showed, and with no frame requested both queues are empty.
   */
  ghost predicate Consistent(s: Session)
  {
    && |s.log| == s.chunkKey == s.reasoningChunkKey
    && AllTicks(s.log)
    && s.content == ContentBefore(s.log, |s.log|)
    && s.reasoning == ReasoningBefore(s.log, |s.log|)
    && (!s.framePending ==> s.contentQueue == [] && s.reasoningQueue == [])
  }

  lemma AllTicksSnoc(log: seq<Notification>, n: Notification)
    requires AllTicks(log) && IsTick(log + [n], |log|)
    ensures AllTicks(log + [n])
  {
    var log' := log + [n];
    forall k | 0 <= k < |log'| ensures IsTick(log', k) {
      if k < |log| {
        assert log'[k] == log[k];
        assert ContentBefore(log', k) == ContentBefore(log, k);
        assert ReasoningBefore(log', k) == ReasoningBefore(log, k);
        assert IsTick(log, k);
      }
    }
  }

  lemma InitialConsistent()
    ensures Consistent(Initial)
  {
  }

  /** A frame keeps the invariant. */
  lemma OnFrameConsistent(s: Session)
    requires Consistent(s)
    ensures Consistent(OnFrame(s))
  {
    if s.framePending && !(s.contentQueue == [] && s.reasoningQueue == []) {
      var t := Rendered(s);
      var n := t.log[|s.log|];
      assert t.log == s.log + [n];
      assert IsTick(t.log, |s.log|);
      AllTicksSnoc(s.log, n);
    }
  }

  lemma {:induction false} AfterLinesConsistent(s: Session, lines: seq<string>, parse: Parser)
    requires Consistent(s)
    ensures Consistent(AfterLines(s, lines, parse).session)
    decreases |lines|
  {
    if lines != [] {
      var o := AfterLine(s, lines[0], parse);
      if !o.threw {
        AfterLinesConsistent(o.session, lines[1..], parse);
      }
    }
  }

  lemma {:induction false} DriveConsistent(s: Session, events: seq<Event>, parse: Parser)
    requires Consistent(s)
    ensures Consistent(Drive(s, events, parse).session)
    decreases |events|
  {
    if events != [] {
      match events[0]
      case Read(chunk) =>
        AfterLinesConsistent(s, ChunkLines(chunk), parse);
        var o := AfterChunk(s, chunk, parse);
        if !o.threw {
          DriveConsistent(o.session, events[1..], parse);
        }
      case Frame =>
        OnFrameConsistent(s);
        DriveConsistent(OnFrame(s), events[1..], parse);
      case ReadError =>
    }
  }

  /**
   * The notifications of a whole stream, however it ends: every one but the
   * last is a tick numbered by its position (the chunk keys count the ticks,
   * including ticks where a channel contributed nothing), each tick extends
   * the shown content and reasoning by at most one character, and the last
   * notification is the only final one and repeats what the last tick showed.
   */
  lemma StreamNotifications(events: seq<Event>, parse: Parser)
    ensures var log := Stream(events, parse).session.log;
      && |log| >= 1
      && AllTicks(log[..|log| - 1])
      && log[|log| - 1].isFinal == Some(true)
      && log[|log| - 1].chunk.None? && log[|log| - 1].reasoningChunk.None?
      && log[|log| - 1].content == ContentBefore(log, |log| - 1)
      && log[|log| - 1].reasoning == Some(ReasoningBefore(log, |log| - 1))
      && (forall k :: 0 <= k < |log| - 1 ==> log[k].isFinal == Some(false))
  {
    InitialConsistent();
    DriveConsistent(Initial, events, parse);
    var s := Drive(Initial, events, parse).session;
    var log := Stream(events, parse).session.log;
    assert log[..|log| - 1] == s.log;
    forall k | 0 <= k < |log| - 1 ensures log[k].isFinal == Some(false) {
      assert log[k] == s.log[k];
      assert IsTick(s.log, k);
    }
  }

  // ---------------------------------------------------------------------------
  // Conservation: nothing received is lost or reordered
  // ---------------------------------------------------------------------------

  /** The deltas a list of lines yields, up to the first record that does not parse. */
  datatype Decoded = Decoded(deltas: seq<Delta>, threw: bool)

  function DecodeLines(lines: seq<string>, parse: Parser): Decoded
    decreases |lines|
  {
    if lines == [] then Decoded([], false)
    else
      var rest := DecodeLines(lines[1..], parse);
      match Classify(lines[0])
      case Payload(json) =>
        (match parse(json)
         case None => Decoded([], true)
         case Some(d) => Decoded([d] + rest.deltas, rest.threw))
      case _ => rest
  }

  /** Every delta the read loop takes in, in order, up to the end or the first throw. */
  function EventDeltas(events: seq<Event>, parse: Parser): seq<Delta>
    decreases |events|
  {
    if events == [] then []
    else
      match events[0]
      case Read(chunk) =>
        var d := DecodeLines(ChunkLines(chunk), parse);
        if d.threw then d.deltas else d.deltas + EventDeltas(events[1..], parse)
      case Frame => EventDeltas(events[1..], parse)
      case ReadError => []
  }

  function ContentText(ds: seq<Delta>): string
    decreases |ds|
  {
    if ds == [] then "" else Text(ds[0].content) + ContentText(ds[1..])
  }

  function ReasoningText(ds: seq<Delta>): string
    decreases |ds|
  {
    if ds == [] then "" else Text(ds[0].reasoning) + ReasoningText(ds[1..])
  }

  lemma {:induction false} TextAppend(a: seq<Delta>, b: seq<Delta>)
    ensures ContentText(a + b) == ContentText(a) + ContentText(b)
    ensures ReasoningText(a + b) == ReasoningText(a) + ReasoningText(b)
    decreases |a|
  {
    if a == [] {
      assert a + b == b;
    } else {
      assert (a + b)[0] == a[0] && (a + b)[1..] == a[1..] + b;
      TextAppend(a[1..], b);
    }
  }

  lemma TextCons(d: Delta, ds: seq<Delta>)
    ensures ContentText([d] + ds) == Text(d.content) + ContentText(ds)
    ensures ReasoningText([d] + ds) == Text(d.reasoning) + ReasoningText(ds)
  {
    assert ([d] + ds)[1..] == ds;
  }

  /** What a channel has received: the accumulated string followed by the queue. */
  function ReceivedContent(s: Session): string
  {
    s.content + s.contentQueue
  }

  function ReceivedReasoning(s: Session): string
  {
    s.reasoning + s.reasoningQueue
  }

  /** Queueing a delta in front of more deltas moves its text from the deltas to the queue. */
  lemma EnqueuedConserves(s: Session, d: Delta, ds: seq<Delta>)
    ensures ReceivedContent(Enqueued(s, d)) + ContentText(ds) == ReceivedContent(s) + ContentText([d] + ds)
    ensures ReceivedReasoning(Enqueued(s, d)) + ReasoningText(ds) == ReceivedReasoning(s) + ReasoningText([d] + ds)
  {
    TextCons(d, ds);
  }

  /** A frame moves characters from a queue to its string and loses none. */
  lemma OnFrameConserves(s: Session)
    ensures ReceivedContent(OnFrame(s)) == ReceivedContent(s)
    ensures ReceivedReasoning(OnFrame(s)) == ReceivedReasoning(s)
  {
    if s.framePending && !(s.contentQueue == [] && s.reasoningQueue == []) {
      assert Head(s.contentQueue) + Tail(s.contentQueue) == s.contentQueue;
      assert Head(s.reasoningQueue) + Tail(s.reasoningQueue) == s.reasoningQueue;
    }
  }

  /** The lines of a chunk add exactly the text of their decoded deltas, and throw exactly when decoding does. */
  lemma {:induction false} AfterLinesConserves(s: Session, lines: seq<string>, parse: Parser)
    ensures AfterLines(s, lines, parse).threw == DecodeLines(lines, parse).threw
    ensures ReceivedContent(AfterLines(s, lines, parse).session)
         == ReceivedContent(s) + ContentText(DecodeLines(lines, parse).deltas)
    ensures ReceivedReasoning(AfterLines(s, lines, parse).session)
         == ReceivedReasoning(s) + ReasoningText(DecodeLines(lines, parse).deltas)
    decreases |lines|
  {
    if lines != [] {
      var o := AfterLine(s, lines[0], parse);
      var rest := DecodeLines(lines[1..], parse);
      if !o.threw {
        AfterLinesConserves(o.session, lines[1..], parse);
      }
      match Classify(lines[0])
      case Payload(json) =>
        if parse(json).Some? {
          EnqueuedConserves(s, parse(json).value, rest.deltas);
        }
      case _ =>
    }
  }

  lemma {:induction false} DriveConserves(s: Session, events: seq<Event>, parse: Parser)
    ensures ReceivedContent(Drive(s, events, parse).session)
         == ReceivedContent(s) + ContentText(EventDeltas(events, parse))
    ensures ReceivedReasoning(Drive(s, events, parse).session)
         == ReceivedReasoning(s) + ReasoningText(EventDeltas(events, parse))
    decreases |events|
  {
    if events != [] {
      match events[0]
      case Read(chunk) =>
        var d := DecodeLines(ChunkLines(chunk), parse);
        AfterLinesConserves(s, ChunkLines(chunk), parse);
        var o := AfterChunk(s, chunk, parse);
        if !o.threw {
          DriveConserves(o.session, events[1..], parse);
          TextAppend(d.deltas, EventDeltas(events[1..], parse));
        }
      case Frame =>
        OnFrameConserves(s);
        DriveConserves(OnFrame(s), events[1..], parse);
      case ReadError =>
    }
  }

  /**
   * The final notification shows everything the stream delivered except the
   * characters still queued when the stream ended: those are dropped, not
   * flushed.
   */
  lemma StreamConservation(events: seq<Event>, parse: Parser)
    ensures var o := Stream(events, parse);
      var last := o.session.log[|o.session.log| - 1];
      && last.content + o.session.contentQueue == ContentText(EventDeltas(events, parse))
      && last.reasoning.GetOr("") + o.session.reasoningQueue == ReasoningText(EventDeltas(events, parse))
  {
    DriveConserves(Initial, events, parse);
  }

  /** The chunk `data: X` is one line, a record with payload `X`. */
  lemma OneRecordChunk()
    ensures ChunkLines("data: X") == ["data: X"]
    ensures Classify("data: X") == Payload("X")
  {
    var line := "data: X";
    assert '\n' !in line;
    SplitNoSeparator(line, '\n');
    assert !IsBlank(line) by { assert !IsJsWhitespace(line[0]); }
    assert line[..6] == DataPrefix && line[6..] == "X";
  }

  /**
   * A concrete case of the drop: one record carrying "Hi" followed by a single
   * frame shows "H" in a tick, and the final notification still shows "H"
   * although "Hi" was received.
   */
  lemma FinalDoesNotFlush(parse: Parser)
    requires parse("X") == Some(Delta(Some("Hi"), None))
    ensures var log := Stream([Read("data: X"), Frame], parse).session.log;
      && |log| == 2
      && log[0].content == "H" && log[0].isFinal == Some(false)
      && log[1].content == "H" && log[1].isFinal == Some(true)
      && ContentText(EventDeltas([Read("data: X"), Frame], parse)) == "Hi"
  {
    var d := Delta(Some("Hi"), None);
    ReadOneRecord(parse, d);
    ReadThenFrame(Initial, "data: X", parse);
    FirstFrame(d);
    var s := OnFrame(Enqueued(Initial, d));
    assert Stream([Read("data: X"), Frame], parse).session == Finished(s);
    TextCons(d, []);
    assert [d] + [] == [d];
  }

  /** The first frame after one delta shows the first character of its content, in one tick. */
  lemma FirstFrame(d: Delta)
    requires Text(d.content) != ""
    ensures var s := OnFrame(Enqueued(Initial, d));
      && s.content == [Text(d.content)[0]]
      && |s.log| == 1 && s.log[0].content == s.content && s.log[0].isFinal == Some(false)
  {
    assert Enqueued(Initial, d).contentQueue == Text(d.content);
  }

  /** From the start, the chunk `data: X` queues the delta `X` parses to. */
  lemma ReadOneRecord(parse: Parser, d: Delta)
    requires parse("X") == Some(d)
    ensures AfterChunk(Initial, "data: X", parse) == Outcome(Enqueued(Initial, d), false)
    ensures DecodeLines(ChunkLines("data: X"), parse) == Decoded([d], false)
  {
    OneRecordChunk();
    assert ["data: X"][1..] == [];
  }

  /** A chunk that does not throw followed by one frame. */
  lemma ReadThenFrame(s: Session, chunk: string, parse: Parser)
    requires !AfterChunk(s, chunk, parse).threw && !DecodeLines(ChunkLines(chunk), parse).threw
    ensures Drive(s, [Read(chunk), Frame], parse) == Outcome(OnFrame(AfterChunk(s, chunk, parse).session), false)
    ensures EventDeltas([Read(chunk), Frame], parse) == DecodeLines(ChunkLines(chunk), parse).deltas
  {
    var events := [Read(chunk), Frame];
    assert events[1..] == [Frame] && [Frame][1..] == [];
  }

  // ---------------------------------------------------------------------------
  // The stream session as a stateful object
  // ---------------------------------------------------------------------------

  /** The closure variables of `handleStreamResponse`. */
  class StreamSession {
    var content: string
    var reasoning: string
    var contentQueue: seq<char>
    var reasoningQueue: seq<char>
    var chunkKey: nat
    var reasoningChunkKey: nat
    var framePending: bool
    /** The notifications sent to the update callback, in order. */
    var log: seq<Notification>

    function Model(): Session
      reads this
    {
      Session(content, reasoning, contentQueue, reasoningQueue, chunkKey, reasoningChunkKey, framePending, log)
    }

    constructor ()
      ensures Model() == Initial
    {
      content, reasoning := "", "";
      contentQueue, reasoningQueue := [], [];
      chunkKey, reasoningChunkKey := 0, 0;
      framePending := false;
      log := [];
    }

    /** `ensureRendering`. */
    method EnsureRendering()
      modifies this`framePending
      ensures Model() == old(Model()).(framePending := true)
    {
      if !framePending {
        framePending := true;
      }
    }

    /** The body of the line loop for a parsed record. */
    method Push(d: Delta)
      modifies this
      ensures Model() == Enqueued(old(Model()), d)
    {
      var c := Text(d.content);
      var r := Text(d.reasoning);
      if c != "" {
        contentQueue := contentQueue + c;
      }
      if r != "" {
        reasoningQueue := reasoningQueue + r;
      }
      EnsureRendering();
    }

    /** `render`, called by a requested animation frame. */
    method Render()
      requires framePending
      modifies this
      ensures Model() == Rendered(old(Model()))
    {
      if contentQueue == [] && reasoningQueue == [] {
        framePending := false;
        return;
      }
      ghost var s := Model();
      var currentChunk := "";
      var reasoningChunk := "";
      if reasoningQueue != [] {
        reasoningChunk := [reasoningQueue[0]];
        reasoningQueue := reasoningQueue[1..];
        reasoning := reasoning + reasoningChunk;
      }
      if contentQueue != [] {
        currentChunk := [contentQueue[0]];
        contentQueue := contentQueue[1..];
        content := content + currentChunk;
      }
      var chunk := Chunk(currentChunk, chunkKey);
      chunkKey := chunkKey + 1;
      var rChunk := Chunk(reasoningChunk, reasoningChunkKey);
      reasoningChunkKey := reasoningChunkKey + 1;
      log := log + [Notification(content, 0, Some(reasoning), Some(chunk), Some(rChunk), Some(false))];
      framePending := true;
      assert currentChunk == Head(s.contentQueue) && contentQueue == Tail(s.contentQueue);
      assert reasoningChunk == Head(s.reasoningQueue) && reasoningQueue == Tail(s.reasoningQueue);
      assert content == s.content + currentChunk && reasoning == s.reasoning + reasoningChunk;
    }

    /** One line of a chunk; `threw` when its payload does not parse. */
    method IngestLine(line: string, parse: Parser) returns (threw: bool)
      modifies this
      ensures Outcome(Model(), threw) == AfterLine(old(Model()), line, parse)
    {
      threw := false;
      if line == DoneLine {
        return;
      }
      if |line| >= 6 && line[..6] == DataPrefix {
        var parsed := parse(line[6..]);
        if parsed.None? {
          return true;
        }
        Push(parsed.value);
      }
    }

    /** The `for (const line of lines)` loop over one decoded chunk. */
    method IngestChunk(chunk: string, parse: Parser) returns (threw: bool)
      modifies this
      ensures Outcome(Model(), threw) == AfterChunk(old(Model()), chunk, parse)
    {
      var lines := ChunkLines(chunk);
      var i := 0;
      threw := false;
      while i < |lines|
        invariant 0 <= i <= |lines|
        invariant AfterLines(old(Model()), lines, parse) == AfterLines(Model(), lines[i..], parse)
      {
        assert lines[i..][1..] == lines[i + 1..];
        threw := IngestLine(lines[i], parse);
        if threw {
          return;
        }
        i := i + 1;
      }
    }

    /** The `finally` block. */
    method Finish()
      modifies this
      ensures Model() == Finished(old(Model()))
    {
      if framePending {
        framePending := false;
      }
      log := log + [Notification(content, 0, Some(reasoning), None, None, Some(true))];
    }
  }

  /**
   * `handleStreamResponse` over a schedule of events: the notifications sent,
   * and whether the returned promise rejects.
   */
  method HandleStreamResponse(events: seq<Event>, parse: Parser) returns (log: seq<Notification>, threw: bool)
    ensures Outcome(Finished(Drive(Initial, events, parse).session), threw) == Stream(events, parse)
    ensures log == Stream(events, parse).session.log
  {
    var session := new StreamSession();
    var i := 0;
    threw := false;
    while i < |events|
      invariant 0 <= i <= |events|
      invariant Drive(Initial, events, parse) == Drive(session.Model(), events[i..], parse)
    {
      assert events[i..][1..] == events[i + 1..];
      match events[i] {
        case Read(chunk) =>
          threw := session.IngestChunk(chunk, parse);
          if threw {
            break;
          }
        case Frame =>
          if session.framePending {
            session.Render();
          }
        case ReadError =>
          threw := true;
          break;
      }
      i := i + 1;
    }
    session.Finish();
    log := session.log;
  }

  // ---------------------------------------------------------------------------
  // handleResponse
  // ---------------------------------------------------------------------------

  /** What the request returned: a streamed body or a parsed JSON reply. */
  datatype Body = StreamBody(events: seq<Event>) | JsonBody(completion: Completion)

  /** The notifications sent for one response, and whether handling it threw. */
  datatype Reply = Reply(notifications: seq<Notification>, threw: bool)

  /**
   * `handleResponse`: dispatch on the stream setting.  A body of the other
   * kind throws before any notification (a JSON reply has no readable body;
   * a streamed body has no `choices`).
   */
  function HandleResponse(body: Body, isStream: bool, parse: Parser): Reply
  {
    if isStream then
      match body
      case StreamBody(events) =>
        var o := Stream(events, parse);
        Reply(o.session.log, o.threw)
      case JsonBody(_) => Reply([], true)
    else
      match body
      case JsonBody(c) =>
        (match HandleUnstreamResponse(c)
         case None => Reply([], true)
         case Some(n) => Reply([n], false))
      case StreamBody(_) => Reply([], true)
  }

  /**
   * A streamed response always ends with exactly one final notification,
   * whether or not it threw; a complete reply with a choice is delivered by
   * exactly one notification; a reply of the wrong kind sends nothing and
   * throws.
   */
  lemma HandleResponseNotifies(body: Body, isStream: bool, parse: Parser)
    ensures var r := HandleResponse(body, isStream, parse);
      && (isStream && body.StreamBody? ==>
            && |r.notifications| >= 1
            && r.notifications[|r.notifications| - 1].isFinal == Some(true)
            && (forall k :: 0 <= k < |r.notifications| - 1 ==> r.notifications[k].isFinal == Some(false)))
      && (!isStream && body.JsonBody? && body.completion.choices != [] ==>
            |r.notifications| == 1 && !r.threw)
      && (isStream != body.StreamBody? ==> r == Reply([], true))
  {
    if isStream && body.StreamBody? {
      StreamNotifications(body.events, parse);
    }
  }
}
