/** The chat-request dispatch pipeline (crates/zclone-core/src/messaging.rs).
    One dispatch runs to completion, in order, against the shared bounded event
    channel; concurrent tasks and the interleaving of several dispatches are
    not modelled. The caller's cancellation is an input: the loop step before
    whose poll the caller's `cancel()` lands. */
module Messaging {
  import opened Common
  import opened Models

  /** A request for one assistant reply; (sessionId, messageId) names the dispatch. */
  datatype ChatRequest = ChatRequest(
    sessionId: string,
    messageId: string,
    messages: seq<Message>,
    model: string,
    temperature: F32,
    systemPrompt: Option<string>)

  /** A fragment of the streamed reply; `isFinal` marks the last one. */
  datatype ChatResponseChunk = ChatResponseChunk(sessionId: string, messageId: string, content: string, isFinal: bool)

  datatype ChatError = ChatError(sessionId: string, messageId: string, error: string)

  /** What a dispatch can produce on the shared output. */
  datatype ChatEvent =
    | ResponseChunk(chunk: ChatResponseChunk)
    | Error(failure: ChatError)
    | Cancelled(sessionId: string, messageId: string)
  {
    /** The (session id, message id) pair of the dispatch the event belongs to. */
    function Ids(): (string, string) {
      match this
      case ResponseChunk(c) => (c.sessionId, c.messageId)
      case Error(e) => (e.sessionId, e.messageId)
      case Cancelled(s, m) => (s, m)
    }

    /** A final chunk, an error or a cancellation ends a dispatch. */
    predicate IsTerminal() {
      !ResponseChunk? || chunk.isFinal
    }
  }

  /** Capacity of the shared event channel (`mpsc::channel(100)`). */
  const EVENT_CHANNEL_CAPACITY: nat := 100
  /** Capacity of each dispatch's cancellation channel (`mpsc::channel(1)`). */
  const CANCEL_CHANNEL_CAPACITY: nat := 1

  /** `Full` stands for a `send(..).await` that would suspend until the consumer makes room. */
  datatype SendStatus = Sent | Full

  /** The shared bounded FIFO of undelivered events, filled by dispatches and drained by the caller. */
  class EventChannel {
    var buffer: seq<ChatEvent>
    const capacity: nat

    ghost predicate Valid()
      reads this
    {
      |buffer| <= capacity
    }

    constructor (capacity: nat)
      ensures Valid() && this.capacity == capacity && buffer == []
    {
      this.capacity := capacity;
      buffer := [];
    }

    /** `Sender::send`: appends at the back when there is room. */
    method Send(e: ChatEvent) returns (status: SendStatus)
      requires Valid()
      modifies this
      ensures Valid()
      ensures status == if |old(buffer)| < capacity then Sent else Full
      ensures buffer == if status == Sent then old(buffer) + [e] else old(buffer)
    {
      if |buffer| < capacity {
        buffer := buffer + [e];
        status := Sent;
      } else {
        status := Full;
      }
    }

    /** `Receiver::recv`, without waiting: the oldest undelivered event, if any. */
    method Recv() returns (e: Option<ChatEvent>)
      requires Valid()
      modifies this
      ensures Valid()
      ensures old(buffer) == [] ==> e == None && buffer == []
      ensures old(buffer) != [] ==> e == Some(old(buffer)[0]) && buffer == old(buffer)[1..]
    {
      if buffer == [] {
        e := None;
      } else {
        e := Some(buffer[0]);
        buffer := buffer[1..];
      }
    }
  }

  /** What `CancellationHandle::cancel` sees: delivered, still waiting for room
      (a signal is already queued), or the error of a closed channel. */
  datatype CancelResult = CancelSent | CancelWaiting | CancelClosed

  /** One dispatch's cancellation channel: the handle's sender and the backend's receiver. */
  class CancelChannel {
    var pending: nat
    var receiverOpen: bool

    ghost predicate Valid()
      reads this
    {
      pending <= CANCEL_CHANNEL_CAPACITY && (!receiverOpen ==> pending == 0)
    }

    constructor ()
      ensures Valid() && pending == 0 && receiverOpen
    {
      pending := 0;
      receiverOpen := true;
    }

    /** `CancellationHandle::cancel`: fails only once the receiver is gone. */
    method Cancel() returns (r: CancelResult)
      requires Valid()
      modifies this
      ensures Valid() && receiverOpen == old(receiverOpen)
      ensures r == CancelClosed <==> !old(receiverOpen)
      ensures r == CancelSent <==> old(receiverOpen) && old(pending) == 0
      ensures pending == if r == CancelSent then old(pending) + 1 else old(pending)
    {
      if !receiverOpen {
        r := CancelClosed;
      } else if pending < CANCEL_CHANNEL_CAPACITY {
        pending := pending + 1;
        r := CancelSent;
      } else {
        r := CancelWaiting;
      }
    }

    /** `Receiver::try_recv`: takes a queued signal, if there is one. */
    method TryRecv() returns (signalled: bool)
      requires Valid()
      modifies this
      ensures Valid() && receiverOpen == old(receiverOpen)
      ensures signalled == (old(pending) > 0)
      ensures pending == if signalled then old(pending) - 1 else old(pending)
    {
      signalled := pending > 0;
      if signalled {
        pending := pending - 1;
      }
    }

    /** The backend call returned and dropped its receiver, with any queued signal. */
    method DropReceiver()
      requires Valid()
      modifies this
      ensures Valid() && !receiverOpen && pending == 0
    {
      receiverOpen := false;
      pending := 0;
    }
  }

  /** The `ChatBackend` implementations: the deterministic test backend, and any
      backend described by the events it emits and whether it then returns `Err`. */
  datatype Backend = Mock | Scripted(emits: seq<ChatEvent>, failure: Option<string>)

  /** How a backend call ended: `Ok(())`, `Err(error)`, or still suspended on a full channel. */
  datatype BackendOutcome = Finished | Failed(error: string) | Blocked

  /** Number of chunks the mock backend streams. */
  const MOCK_CHUNKS: nat := 5

  function DigitChar(d: nat): char
    requires d < 10
  {
    ('0' as int + d) as char
  }

  /** `format!("chunk {} ", i)` for a one-digit `i`. */
  function ChunkContent(i: nat): string
    requires i < 10
  {
    "chunk " + [DigitChar(i)] + " "
  }

  /** The `i`-th chunk of the mock backend; only the last is final. */
  function MockChunk(request: ChatRequest, i: nat): ChatEvent
    requires i < MOCK_CHUNKS
  {
    ResponseChunk(ChatResponseChunk(request.sessionId, request.messageId, ChunkContent(i), i == MOCK_CHUNKS - 1))
  }

  function MockChunks(request: ChatRequest, n: nat): seq<ChatEvent>
    requires n <= MOCK_CHUNKS
  {
    seq(n, i requires 0 <= i < n => MockChunk(request, i))
  }

  /** The loop step at which the mock backend stops: the step its poll sees the signal, or 5. */
  function StopStep(seenAt: Option<nat>): nat {
    if seenAt.Some? && seenAt.value < MOCK_CHUNKS then seenAt.value else MOCK_CHUNKS
  }

  /** Everything the mock backend emits when its poll first sees a signal at `seenAt`. */
  function MockEvents(request: ChatRequest, seenAt: Option<nat>): seq<ChatEvent> {
    var k := StopStep(seenAt);
    MockChunks(request, k) + if k < MOCK_CHUNKS then [Cancelled(request.sessionId, request.messageId)] else []
  }

  /** The step whose poll first sees a signal: 0 when one is already queued, else the arrival step. */
  function CancelSeenAt(alreadyPending: bool, arrivesAt: Option<nat>): Option<nat> {
    if alreadyPending then Some(0) else arrivesAt
  }

  /** The mock backend with no cancellation streams "chunk 0 " .. "chunk 4 ", only the last final. */
  lemma MockWithoutCancel(request: ChatRequest)
    ensures var s, m := request.sessionId, request.messageId;
            MockEvents(request, None) == [
              ResponseChunk(ChatResponseChunk(s, m, "chunk 0 ", false)),
              ResponseChunk(ChatResponseChunk(s, m, "chunk 1 ", false)),
              ResponseChunk(ChatResponseChunk(s, m, "chunk 2 ", false)),
              ResponseChunk(ChatResponseChunk(s, m, "chunk 3 ", false)),
              ResponseChunk(ChatResponseChunk(s, m, "chunk 4 ", true))]
  {
    assert ChunkContent(0) == "chunk 0 " && ChunkContent(1) == "chunk 1 " && ChunkContent(2) == "chunk 2 ";
    assert ChunkContent(3) == "chunk 3 " && ChunkContent(4) == "chunk 4 ";
  }

  /** A signal seen at step `k < 5` yields exactly `k` non-final chunks in order, then `Cancelled`. */
  lemma MockCancelledAt(request: ChatRequest, k: nat)
    requires k < MOCK_CHUNKS
    ensures var evs := MockEvents(request, Some(k));
            && |evs| == k + 1
            && (forall i :: 0 <= i < k ==> evs[i] == ResponseChunk(ChatResponseChunk(request.sessionId, request.messageId, ChunkContent(i), false)))
            && evs[k] == Cancelled(request.sessionId, request.messageId)
            && forall i :: 0 <= i < |evs| ==> !(evs[i].ResponseChunk? && evs[i].chunk.isFinal)
  {
  }

  /** The events of one dispatch as the caller must see them: all carry the request's
      ids, and exactly one is terminal, the last. */
  ghost predicate WellFormedDispatch(evs: seq<ChatEvent>, request: ChatRequest) {
    && |evs| > 0
    && (forall i :: 0 <= i < |evs| ==> evs[i].Ids() == (request.sessionId, request.messageId))
    && evs[|evs| - 1].IsTerminal()
    && (forall i :: 0 <= i < |evs| - 1 ==> !evs[i].IsTerminal())
  }

  lemma MockWellFormed(request: ChatRequest, seenAt: Option<nat>)
    ensures WellFormedDispatch(MockEvents(request, seenAt), request)
  {
    var evs := MockEvents(request, seenAt);
    var k := StopStep(seenAt);
    assert forall i :: 0 <= i < k ==> evs[i] == MockChunk(request, i);
  }

  lemma MockEventsPrefix(request: ChatRequest, seenAt: Option<nat>, i: nat)
    requires i <= StopStep(seenAt)
    ensures i <= |MockEvents(request, seenAt)| && MockEvents(request, seenAt)[..i] == MockChunks(request, i)
  {
    var evs := MockEvents(request, seenAt);
    assert forall j :: 0 <= j < i ==> evs[j] == MockChunk(request, j);
  }

  /** `MockBackend::send_request`: five polls of the cancellation channel, each followed by a chunk. */
  method MockSendRequest(request: ChatRequest, events: EventChannel, cancel: CancelChannel, cancelArrivesAt: Option<nat>)
    returns (outcome: BackendOutcome)
    requires events.Valid() && cancel.Valid() && cancel.receiverOpen
    modifies events, cancel
    ensures events.Valid() && cancel.Valid() && cancel.receiverOpen && cancel.pending == 0
    ensures var evs := MockEvents(request, CancelSeenAt(old(cancel.pending) > 0, cancelArrivesAt));
            var room := events.capacity - |old(events.buffer)|;
            && events.buffer == old(events.buffer) + Take(evs, room)
            && outcome == if |evs| <= room then Finished else Blocked
  {
    ghost var seen := CancelSeenAt(cancel.pending > 0, cancelArrivesAt);
    ghost var evs := MockEvents(request, seen);
    ghost var room := events.capacity - |events.buffer|;
    var i := 0;
    while i < MOCK_CHUNKS
      invariant i <= StopStep(seen)
      invariant events.Valid() && cancel.Valid() && cancel.receiverOpen
      invariant events.buffer == old(events.buffer) + MockChunks(request, i)
      invariant i > 0 ==> cancel.pending == 0
      invariant i == 0 ==> cancel.pending == old(cancel.pending)
    {
      if cancelArrivesAt == Some(i) {
        var _ := cancel.Cancel();
      }
      var signalled := cancel.TryRecv();
      if signalled {
        assert StopStep(seen) == i;
        MockEventsPrefix(request, seen, i);
        assert evs == MockChunks(request, i) + [Cancelled(request.sessionId, request.messageId)];
        var status := events.Send(Cancelled(request.sessionId, request.messageId));
        return if status == Sent then Finished else Blocked;
      }
      var status := events.Send(MockChunk(request, i));
      MockEventsPrefix(request, seen, i);
      if status == Full {
        return Blocked;
      }
      assert MockChunks(request, i + 1) == MockChunks(request, i) + [MockChunk(request, i)];
      i := i + 1;
    }
    assert evs == MockChunks(request, MOCK_CHUNKS);
    outcome := Finished;
  }

  /** A backend that emits `emits` in order and then returns `Err(failure)` or `Ok(())`;
      it never polls its cancellation channel. */
  method ScriptedSendRequest(emits: seq<ChatEvent>, failure: Option<string>, events: EventChannel)
    returns (outcome: BackendOutcome)
    requires events.Valid()
    modifies events
    ensures events.Valid()
    ensures var room := events.capacity - |old(events.buffer)|;
            && events.buffer == old(events.buffer) + Take(emits, room)
            && outcome == if |emits| > room then Blocked
                          else if failure.Some? then Failed(failure.value) else Finished
  {
    var i := 0;
    while i < |emits|
      invariant i <= |emits|
      invariant events.Valid()
      invariant events.buffer == old(events.buffer) + emits[..i]
    {
      var status := events.Send(emits[i]);
      if status == Full {
        return Blocked;
      }
      assert emits[..i + 1] == emits[..i] + [emits[i]];
      i := i + 1;
    }
    assert emits[..i] == emits;
    outcome := if failure.Some? then Failed(failure.value) else Finished;
  }

  /** What a backend emits for a request on a fresh cancellation channel. */
  function BackendEmits(backend: Backend, request: ChatRequest, cancelArrivesAt: Option<nat>): seq<ChatEvent> {
    match backend
    case Mock => MockEvents(request, cancelArrivesAt)
    case Scripted(emits, _) => emits
  }

  /** The `Err` a backend returns once all its events are out, if any. */
  function BackendFailure(backend: Backend): Option<string> {
    match backend
    case Mock => None
    case Scripted(_, failure) => failure
  }

  /** The event the pipeline synthesises from a backend's `Err`. */
  function ErrorEvent(request: ChatRequest, error: string): ChatEvent {
    Error(ChatError(request.sessionId, request.messageId, error))
  }

  /** Whether one dispatch is left waiting on a full channel: the backend's own events do not
      fit, or they fill the room exactly and the pipeline's `Error` send has to wait. */
  function DispatchWaits(backend: Backend, request: ChatRequest, cancelArrivesAt: Option<nat>, room: nat): bool {
    var n := |BackendEmits(backend, request, cancelArrivesAt)|;
    n > room || (n == room && BackendFailure(backend).Some?)
  }

  /** The events one dispatch adds to a channel with `room` free slots. */
  function DispatchEvents(backend: Backend, request: ChatRequest, cancelArrivesAt: Option<nat>, room: nat): seq<ChatEvent> {
    var evs := BackendEmits(backend, request, cancelArrivesAt);
    if |evs| > room then evs[..room]
    else match BackendFailure(backend)
      case Some(e) => if |evs| < room then evs + [ErrorEvent(request, e)] else evs
      case None => evs
  }

  /** `MessagingPipeline`: a backend and the shared event channel. */
  class MessagingPipeline {
    const backend: Backend
    const events: EventChannel

    /** `MessagingPipeline::new`. */
    constructor (backend: Backend)
      ensures this.backend == backend && fresh(events)
      ensures events.Valid() && events.capacity == EVENT_CHANNEL_CAPACITY && events.buffer == []
    {
      this.backend := backend;
      events := new EventChannel(EVENT_CHANNEL_CAPACITY);
    }

    /** `MessagingPipeline::send_request`: runs the backend on a fresh cancellation channel and
        turns its `Err` into one `Error` event. The handle's receiver closes once the backend returns;
        `waiting` tells whether the dispatch is still suspended on a full event channel. */
    method SendRequest(request: ChatRequest, cancelArrivesAt: Option<nat>) returns (handle: CancelChannel, waiting: bool)
      requires events.Valid()
      modifies events
      ensures fresh(handle) && handle.Valid() && handle.pending == 0
      ensures events.Valid()
      ensures var room := events.capacity - |old(events.buffer)|;
              && events.buffer == old(events.buffer) + DispatchEvents(backend, request, cancelArrivesAt, room)
              && handle.receiverOpen == (|BackendEmits(backend, request, cancelArrivesAt)| > room)
              && waiting == DispatchWaits(backend, request, cancelArrivesAt, room)
    {
      handle := new CancelChannel();
      var outcome: BackendOutcome;
      match backend {
        case Mock =>
          outcome := MockSendRequest(request, events, handle, cancelArrivesAt);
        case Scripted(emits, failure) =>
          outcome := ScriptedSendRequest(emits, failure, events);
      }
      waiting := outcome.Blocked?;
      if outcome.Failed? {
        var status := events.Send(ErrorEvent(request, outcome.error));
        waiting := status == Full;
      }
      if !outcome.Blocked? {
        handle.DropReceiver();
      }
    }
  }

  /** When the backend's events fit, a failing backend's events are followed by exactly one `Error`
      carrying the request's ids and the error text, unless they filled the room, in which case the
      dispatch waits to send it; a backend returning `Ok` gets nothing added and never waits. */
  lemma DispatchFailure(backend: Backend, request: ChatRequest, cancelArrivesAt: Option<nat>, room: nat)
    requires |BackendEmits(backend, request, cancelArrivesAt)| <= room
    ensures var evs := BackendEmits(backend, request, cancelArrivesAt);
            && (DispatchWaits(backend, request, cancelArrivesAt, room) <==> BackendFailure(backend).Some? && |evs| == room)
            && DispatchEvents(backend, request, cancelArrivesAt, room)
               == if BackendFailure(backend).Some? && |evs| < room
                  then evs + [Error(ChatError(request.sessionId, request.messageId, BackendFailure(backend).value))]
                  else evs
  {
  }

  /** A backend that keeps the contract of `ChatBackend`: it emits its own terminal event last,
      or emits only non-terminal events and then fails. */
  ghost predicate ConformingBackend(backend: Backend, request: ChatRequest) {
    match backend
    case Mock => true
    case Scripted(emits, failure) =>
      if failure.None? then WellFormedDispatch(emits, request)
      else forall i :: 0 <= i < |emits| ==> emits[i].Ids() == (request.sessionId, request.messageId) && !emits[i].IsTerminal()
  }

  /** With room for all its events (and for the `Error` of a failing backend), every dispatch of a conforming backend ends with exactly one
      terminal event, last, and all its events carry the request's ids. */
  lemma DispatchWellFormed(backend: Backend, request: ChatRequest, cancelArrivesAt: Option<nat>, room: nat)
    requires ConformingBackend(backend, request)
    requires |BackendEmits(backend, request, cancelArrivesAt)| < room
             || (BackendFailure(backend).None? && |BackendEmits(backend, request, cancelArrivesAt)| <= room)
    ensures WellFormedDispatch(DispatchEvents(backend, request, cancelArrivesAt, room), request)
    ensures !DispatchWaits(backend, request, cancelArrivesAt, room)
  {
    match backend {
      case Mock =>
        MockWellFormed(request, cancelArrivesAt);
      case Scripted(emits, failure) =>
        if failure.Some? {
          var d := DispatchEvents(backend, request, cancelArrivesAt, room);
          assert d == emits + [ErrorEvent(request, failure.value)];
          assert forall i :: 0 <= i < |emits| ==> d[i] == emits[i];
        }
    }
  }

  /** The pipeline test: dispatch to the mock backend, then drain until the final chunk. */
  method TestMessagingPipeline(helloId: string, now: int) returns (chunks: seq<string>)
    ensures chunks == ["chunk 0 ", "chunk 1 ", "chunk 2 ", "chunk 3 ", "chunk 4 "]
  {
    var pipeline := new MessagingPipeline(Mock);
    var request := ChatRequest("test-session", "test-message", [NewMessage(helloId, User, "Hello", now)],
                               "gpt-4", DEFAULT_TEMPERATURE, None);
    var handle, waiting := pipeline.SendRequest(request, None);
    ghost var all := MockEvents(request, None);
    MockWithoutCancel(request);
    assert pipeline.events.buffer == all;
    chunks := [];
    var done := false;
    while !done
      invariant pipeline.events.Valid()
      invariant |chunks| <= 5 && (done ==> |chunks| == 5)
      invariant !done ==> |chunks| < 5 && pipeline.events.buffer == all[|chunks|..]
      invariant forall i :: 0 <= i < |chunks| ==> chunks[i] == all[i].chunk.content
      decreases !done, |pipeline.events.buffer|
    {
      var e := pipeline.events.Recv();
      match e {
        case None =>
          done := true;
        case Some(ev) =>
          if ev.ResponseChunk? {
            chunks := chunks + [ev.chunk.content];
            if ev.chunk.isFinal {
              done := true;
            }
          }
      }
    }
  }
}
