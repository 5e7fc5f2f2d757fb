/**
  The session logic of App.tsx as a state machine on values. `State` holds
  every React state variable and every ref the handlers touch; each handler is
  a function from the state before it runs to the state after it. The class
  `App.Client` performs the same steps in place and is proved against these
  functions.

  Device and SDK calls do not happen here: what the handlers ask of the
  browser or of the session (close a context, stop nodes, start a node at a
  time, send a block) is appended to `effects`, in the order the source issues
  it. The output clock, the decode outcome and node-ended events arrive as
  event parameters.
*/
module Session {
  import opened Optional
  import Volume
  import Playback

  /** Identity of an `AudioBufferSourceNode`; `createBufferSource` always yields a new one. */
  type NodeId = nat

  datatype ConnectionState = Disconnected | Connecting | Connected | Error

  /** `AudioContext.state`. */
  datatype ContextStatus = Running | Suspended | Closed

  /** An `AudioContext | null` ref. */
  datatype ContextRef = NoContext | Context(status: ContextStatus)

  /** The outcome of decoding one inbound chunk: its duration in seconds, or a thrown error. */
  datatype Decode = Decoded(duration: real) | Malformed

  /** Requests the handlers make of the browser and of the live session. */
  datatype Effect =
    | CancelFrame(id: nat)
    | CloseSession
    | StopTracks
    | DisconnectProcessor
    | DisconnectSource
    | CloseInputContext
    | CloseOutputContext
    | StopNodes(nodes: set<NodeId>)
    | StartNode(node: NodeId, at: real)
    | SendBlock(block: seq<real>)

  datatype State = State(
    connection: ConnectionState,   // connectionState
    micOn: bool,                   // isMicOn
    speaking: bool,                // aiIsSpeaking
    volume: real,                  // audioVolume
    error: Option<string>,         // errorMessage
    hasAi: bool,                   // aiRef.current !== null
    cursor: real,                  // nextStartTimeRef
    live: set<NodeId>,             // sourceNodesRef
    nextNode: NodeId,              // the next node createBufferSource will return
    activeSession: bool,           // activeSessionRef.current !== null
    sessionPromise: bool,          // sessionPromiseRef.current !== null
    stream: bool,                  // streamRef.current !== null
    processor: bool,               // scriptProcessorRef.current !== null
    source: bool,                  // mediaStreamSourceRef.current !== null
    analyzer: bool,                // analyzerRef.current !== null
    inputCtx: ContextRef,          // inputAudioContextRef
    outputCtx: ContextRef,         // outputAudioContextRef
    frame: nat,                    // animationFrameRef, 0 when null
    effects: seq<Effect>)

  const API_KEY_MISSING := "API Key is missing."
  const CONNECT_FAILED := "Could not connect. Please check your mic permissions and network."
  const CONNECTION_ERROR := "Connection Error: "
  const NETWORK_ERROR := "Network error"

  /** A context ref that is set and whose context is not closed. */
  predicate IsUsable(ctx: ContextRef)
  {
    ctx.Context? && ctx.status != Closed
  }

  /** The capture gate: a block goes out only while the mic is on and the session is connected. */
  predicate ShouldSend(micOn: bool, connection: ConnectionState)
  {
    micOn && connection == Connected
  }

  /**
    What every reachable state satisfies. The last conjunct: while a node is
    live the speaking flag is set, since `onmessage` sets it before a node
    joins the set, `ended` clears it only when the set becomes empty, and the
    interrupt handler and `disconnect` clear the set along with the flag.
  */
  ghost predicate Inv(s: State)
  {
    && s.connection != Error
    && (forall n :: n in s.live ==> n < s.nextNode)
    && s.cursor >= 0.0
    && 0.0 <= s.volume <= 1.0
    && (s.live != {} ==> s.speaking)
  }

  /** The state when the component mounts; the AI client exists only when the API key does. */
  function Initial(apiKey: bool): (s: State)
    ensures Inv(s)
    ensures s.connection == Disconnected && s.micOn && !s.speaking && s.live == {}
    ensures s.hasAi == apiKey && (s.error.Some? <==> !apiKey)
    ensures !apiKey ==> s.error == Some(API_KEY_MISSING)
  {
    State(Disconnected, true, false, 0.0, if apiKey then None else Some(API_KEY_MISSING), apiKey,
          0.0, {}, 0, false, false, false, false, false, false, NoContext, NoContext, 0, [])
  }

  /** `connect` up to its first await: the guard, then CONNECTING with the error cleared. */
  function Connect(s: State): State
  {
    if !s.hasAi || s.connection != Disconnected then s
    else s.(connection := Connecting, error := None)
  }

  /** One call of `updateVolume`: publish the level if an analyser exists, then keep the next frame's id. */
  function UpdateVolume(s: State, bins: seq<Volume.byte>, frame: nat): State
    requires |bins| > 0
  {
    var measured := if s.analyzer then s.(volume := Volume.Level(bins)) else s;
    measured.(frame := frame)
  }

  /** The rest of `connect` once the microphone stream arrives: build the capture and output graphs, open the session. */
  function MicrophoneGranted(s: State, bins: seq<Volume.byte>, frame: nat): State
    requires |bins| > 0
  {
    StartStreaming(UpdateVolume(BuildCapture(s), bins, frame))
  }

  /** The stream is kept, the 16 kHz input context created, the stream source and the analyser attached. */
  function BuildCapture(s: State): State
  {
    s.(stream := true, inputCtx := Context(Running), source := true, analyzer := true)
  }

  /** The script processor, the 24 kHz output context and the session promise are created. */
  function StartStreaming(s: State): State
  {
    s.(processor := true, outputCtx := Context(Running), sessionPromise := true)
  }

  /** `connect`'s catch: the microphone could not be acquired. */
  function MicrophoneDenied(s: State): State
  {
    Disconnect(s.(error := Some(CONNECT_FAILED)))
  }

  /** `sessionPromise.then(session => activeSessionRef.current = session)`. */
  function SessionReady(s: State): State
  {
    s.(activeSession := true)
  }

  /** `onopen`. */
  function Open(s: State): State
  {
    s.(connection := Connected)
  }

  /** The audio part of `onmessage`: schedule the chunk on the output timeline. */
  function AudioChunk(s: State, now: real, decoded: Decode): State
  {
    if !IsUsable(s.outputCtx) then s
    else
      match decoded
      case Malformed => Schedule(s, now)
      case Decoded(d) => StartChunk(Schedule(s, now), d)
  }

  /** Speaking, and the cursor moved up to the output clock when it has fallen behind. */
  function Schedule(s: State, now: real): State
  {
    s.(speaking := true, cursor := Playback.Place(s.cursor, now))
  }

  /** A new node starts at the cursor, joins the live set, and the cursor moves past it. */
  function StartChunk(s: State, duration: real): State
  {
    s.(effects := s.effects + [StartNode(s.nextNode, s.cursor)],
       cursor := s.cursor + duration,
       live := s.live + {s.nextNode},
       nextNode := s.nextNode + 1)
  }

  /** A node's `ended` listener. */
  function Ended(s: State, node: NodeId): State
  {
    var live := s.live - {node};
    s.(live := live, speaking := if |live| == 0 then false else s.speaking)
  }

  /** `forEach(node => node.stop())` over a set: nothing is issued for an empty set. */
  function StopAll(live: set<NodeId>): seq<Effect>
  {
    if live == {} then [] else [StopNodes(live)]
  }

  /** The interrupted part of `onmessage`. */
  function Interrupted(s: State): State
  {
    s.(effects := s.effects + StopAll(s.live), live := {}, cursor := 0.0, speaking := false)
  }

  /** `onmessage`: the audio part when the message carries audio, then the interrupted part when flagged. */
  function Message(s: State, audio: bool, now: real, decoded: Decode, interrupted: bool): State
  {
    var afterAudio := if audio then AudioChunk(s, now, decoded) else s;
    if interrupted then Interrupted(afterAudio) else afterAudio
  }

  /** `onaudioprocess` with the gate read from the current state. */
  function Capture(s: State, block: seq<real>): State
  {
    if ShouldSend(s.micOn, s.connection) && s.sessionPromise
    then s.(effects := s.effects + [SendBlock(block)])
    else s
  }

  /** `toggleMic`. */
  function ToggleMic(s: State): State
  {
    s.(micOn := !s.micOn)
  }

  function When(condition: bool, e: Effect): seq<Effect>
  {
    if condition then [e] else []
  }

  /**
    What `disconnect` asks of the devices and the session, in order: cancel
    the pending animation frame, close the session, stop the microphone
    tracks, disconnect the processor and the stream source, close each audio
    context that is set and not closed already, stop the live nodes.
  */
  function Teardown(frame: nat, activeSession: bool, stream: bool, processor: bool, source: bool,
                    inputCtx: ContextRef, outputCtx: ContextRef, live: set<NodeId>): seq<Effect>
  {
    When(frame != 0, CancelFrame(frame))
    + When(activeSession, CloseSession)
    + When(stream, StopTracks)
    + When(processor, DisconnectProcessor)
    + When(source, DisconnectSource)
    + When(IsUsable(inputCtx), CloseInputContext)
    + When(IsUsable(outputCtx), CloseOutputContext)
    + StopAll(live)
  }

  /** The teardown requests for the resources `s` holds. */
  function TeardownEffects(s: State): seq<Effect>
  {
    Teardown(s.frame, s.activeSession, s.stream, s.processor, s.source, s.inputCtx, s.outputCtx, s.live)
  }

  /** Membership in the teardown requests, one step at a time. */
  lemma TeardownMembership(s: State, e: Effect)
    ensures e in TeardownEffects(s) <==>
      || (s.frame != 0 && e == CancelFrame(s.frame))
      || (s.activeSession && e == CloseSession)
      || (s.stream && e == StopTracks)
      || (s.processor && e == DisconnectProcessor)
      || (s.source && e == DisconnectSource)
      || (IsUsable(s.inputCtx) && e == CloseInputContext)
      || (IsUsable(s.outputCtx) && e == CloseOutputContext)
      || (s.live != {} && e == StopNodes(s.live))
  {
    var a1 := When(s.frame != 0, CancelFrame(s.frame));
    var a2 := a1 + When(s.activeSession, CloseSession);
    var a3 := a2 + When(s.stream, StopTracks);
    var a4 := a3 + When(s.processor, DisconnectProcessor);
    var a5 := a4 + When(s.source, DisconnectSource);
    var a6 := a5 + When(IsUsable(s.inputCtx), CloseInputContext);
    var a7 := a6 + When(IsUsable(s.outputCtx), CloseOutputContext);
    assert TeardownEffects(s) == a7 + StopAll(s.live);
    assert e in a2 <==> e in a1 || e in When(s.activeSession, CloseSession);
    assert e in a3 <==> e in a2 || e in When(s.stream, StopTracks);
    assert e in a4 <==> e in a3 || e in When(s.processor, DisconnectProcessor);
    assert e in a5 <==> e in a4 || e in When(s.source, DisconnectSource);
    assert e in a6 <==> e in a5 || e in When(IsUsable(s.inputCtx), CloseInputContext);
    assert e in a7 <==> e in a6 || e in When(IsUsable(s.outputCtx), CloseOutputContext);
  }

  /**
    Teardown issues each request exactly when its resource is held; in
    particular an audio context is closed only when it is set and not closed
    already, and the live nodes are stopped exactly when there are some.
  */
  lemma TeardownRequests(s: State)
    ensures CancelFrame(s.frame) in TeardownEffects(s) <==> s.frame != 0
    ensures CloseSession in TeardownEffects(s) <==> s.activeSession
    ensures StopTracks in TeardownEffects(s) <==> s.stream
    ensures DisconnectProcessor in TeardownEffects(s) <==> s.processor
    ensures DisconnectSource in TeardownEffects(s) <==> s.source
    ensures CloseInputContext in TeardownEffects(s) <==> IsUsable(s.inputCtx)
    ensures CloseOutputContext in TeardownEffects(s) <==> IsUsable(s.outputCtx)
    ensures StopNodes(s.live) in TeardownEffects(s) <==> s.live != {}
  {
    TeardownMembership(s, CancelFrame(s.frame));
    TeardownMembership(s, CloseSession);
    TeardownMembership(s, StopTracks);
    TeardownMembership(s, DisconnectProcessor);
    TeardownMembership(s, DisconnectSource);
    TeardownMembership(s, CloseInputContext);
    TeardownMembership(s, CloseOutputContext);
    TeardownMembership(s, StopNodes(s.live));
  }

  /**
    `disconnect`: a total teardown. As written it leaves the timeline cursor,
    the analyser ref and the animation-frame id as they were
    (`DisconnectToBaseline` is the teardown that also rewinds the cursor).
  */
  function Disconnect(s: State): State
  {
    ReleasePlayback(ReleaseContexts(ReleaseCapture(ReleaseSession(ResetIndicators(s)))), TeardownEffects(s))
  }

  /** DISCONNECTED, not speaking, volume zero. */
  function ResetIndicators(s: State): State
  {
    s.(connection := Disconnected, speaking := false, volume := 0.0)
  }

  /** The session ref and the session promise ref are cleared. */
  function ReleaseSession(s: State): State
  {
    s.(activeSession := false, sessionPromise := false)
  }

  /** The stream, processor and stream source refs are cleared. */
  function ReleaseCapture(s: State): State
  {
    s.(stream := false, processor := false, source := false)
  }

  /** Both audio context refs are cleared. */
  function ReleaseContexts(s: State): State
  {
    s.(inputCtx := NoContext, outputCtx := NoContext)
  }

  /** The live set is cleared and the collected requests are issued. */
  function ReleasePlayback(s: State, requests: seq<Effect>): State
  {
    s.(live := {}, effects := s.effects + requests)
  }

  /**
    The corrected teardown: `disconnect`, then the cursor rewound to 0 as the
    interrupt handler rewinds it, so that the next session's output clock,
    which starts again near 0, is not measured against the old session's
    cursor.
  */
  function DisconnectToBaseline(s: State): (r: State)
    ensures r.cursor == 0.0
    ensures r.connection == Disconnected && r.outputCtx == NoContext && r.live == {}
    ensures r.effects == s.effects + TeardownEffects(s)
    ensures r.(cursor := s.cursor) == Disconnect(s)
  {
    Disconnect(s).(cursor := 0.0)
  }

  /**
    After `disconnect` the client is DISCONNECTED and silent, every resource
    ref is null and the live set is empty; the requests it issued are exactly
    those of the resources that were held, contexts included only when not
    already closed. The cursor, the analyser ref, the frame id, the mute flag
    and the error message are left as they were.
  */
  lemma DisconnectReleasesEverything(s: State)
    ensures var r := Disconnect(s);
      && r.connection == Disconnected && !r.speaking && r.volume == 0.0
      && !r.activeSession && !r.sessionPromise && !r.stream && !r.processor && !r.source
      && r.inputCtx == NoContext && r.outputCtx == NoContext && r.live == {}
      && r.cursor == s.cursor && r.analyzer == s.analyzer && r.frame == s.frame
      && r.micOn == s.micOn && r.error == s.error && r.hasAi == s.hasAi && r.nextNode == s.nextNode
    ensures var issued := Disconnect(s).effects[|s.effects|..];
      && Disconnect(s).effects[..|s.effects|] == s.effects
      && (CloseInputContext in issued <==> IsUsable(s.inputCtx))
      && (CloseOutputContext in issued <==> IsUsable(s.outputCtx))
      && (CloseSession in issued <==> s.activeSession)
      && (StopTracks in issued <==> s.stream)
      && (StopNodes(s.live) in issued <==> s.live != {})
    ensures Disconnect(s).effects == s.effects + TeardownEffects(s)
  {
    TeardownRequests(s);
    assert Disconnect(s).effects[|s.effects|..] == TeardownEffects(s);
  }

  /** `onclose`. */
  function Close(s: State): State
  {
    Disconnect(s)
  }

  /** `onerror`: record the message, then tear down. */
  function TransportError(s: State, message: Option<string>): State
  {
    var detail := match message case Some(m) => m case None => NETWORK_ERROR;
    Disconnect(s.(error := Some(CONNECTION_ERROR + detail)))
  }

  /** Everything that can happen to the client. */
  datatype Event =
    | ConnectClicked
    | MicrophoneReady(bins: seq<Volume.byte>, frame: nat)
    | MicrophoneRefused
    | SessionResolved
    | Opened
    | Received(audio: bool, now: real, decoded: Decode, interrupted: bool)
    | NodeEnded(node: NodeId)
    | Captured(block: seq<real>)
    | AnimationFrame(bins: seq<Volume.byte>, frame: nat)
    | MicToggled
    | HangUp
    | SessionClosed
    | Failed(message: Option<string>)

  /** The device guarantees: full analyser snapshots, a non-negative clock and non-negative durations. */
  predicate WellFormed(e: Event)
  {
    match e
    case MicrophoneReady(bins, _) => |bins| == Volume.BIN_COUNT
    case AnimationFrame(bins, _) => |bins| == Volume.BIN_COUNT
    case Received(_, now, decoded, _) => now >= 0.0 && (decoded.Decoded? ==> decoded.duration >= 0.0)
    case _ => true
  }

  function Next(s: State, e: Event): State
    requires WellFormed(e)
  {
    match e
    case ConnectClicked => Connect(s)
    case MicrophoneReady(bins, frame) => MicrophoneGranted(s, bins, frame)
    case MicrophoneRefused => MicrophoneDenied(s)
    case SessionResolved => SessionReady(s)
    case Opened => Open(s)
    case Received(audio, now, decoded, interrupted) => Message(s, audio, now, decoded, interrupted)
    case NodeEnded(node) => Ended(s, node)
    case Captured(block) => Capture(s, block)
    case AnimationFrame(bins, frame) => UpdateVolume(s, bins, frame)
    case MicToggled => ToggleMic(s)
    case HangUp => Disconnect(s)
    case SessionClosed => Close(s)
    case Failed(message) => TransportError(s, message)
  }

  predicate AllWellFormed(events: seq<Event>)
  {
    forall i :: 0 <= i < |events| ==> WellFormed(events[i])
  }

  /** The state after a sequence of events, applied in order. */
  function Run(s: State, events: seq<Event>): State
    requires AllWellFormed(events)
    decreases |events|
  {
    if events == [] then s else Run(Next(s, events[0]), events[1..])
  }

  // ---------------------------------------------------------------- invariant

  /** Every handler keeps the invariant. */
  lemma NextKeepsInv(s: State, e: Event)
    requires Inv(s) && WellFormed(e)
    ensures Inv(Next(s, e))
  {
    match e
    case MicrophoneReady(bins, frame) => GrantedKeepsInv(s, bins, frame);
    case AnimationFrame(bins, frame) => FrameKeepsInv(s, bins, frame);
    case Received(audio, now, decoded, interrupted) => ReceivedKeepsInv(s, audio, now, decoded, interrupted);
    case MicrophoneRefused => DisconnectKeepsInv(s.(error := Some(CONNECT_FAILED)));
    case HangUp => DisconnectKeepsInv(s);
    case SessionClosed => DisconnectKeepsInv(s);
    case Failed(message) => FailedKeepsInv(s, message);
    case NodeEnded(node) => EndedKeepsInv(s, node);
    case _ =>
  }

  lemma EndedKeepsInv(s: State, node: NodeId)
    requires Inv(s)
    ensures Inv(Ended(s, node))
  {
    EndedRemovesNode(s, node);
  }

  lemma GrantedKeepsInv(s: State, bins: seq<Volume.byte>, frame: nat)
    requires Inv(s) && WellFormed(MicrophoneReady(bins, frame))
    ensures Inv(Next(s, MicrophoneReady(bins, frame)))
  {
    UpdateVolumeKeepsInv(BuildCapture(s), bins, frame);
  }

  lemma FrameKeepsInv(s: State, bins: seq<Volume.byte>, frame: nat)
    requires Inv(s) && WellFormed(AnimationFrame(bins, frame))
    ensures Inv(Next(s, AnimationFrame(bins, frame)))
  {
    UpdateVolumeKeepsInv(s, bins, frame);
  }

  lemma ReceivedKeepsInv(s: State, audio: bool, now: real, decoded: Decode, interrupted: bool)
    requires Inv(s) && WellFormed(Received(audio, now, decoded, interrupted))
    ensures Inv(Next(s, Received(audio, now, decoded, interrupted)))
  {
    if audio {
      AudioChunkKeepsInv(s, now, decoded);
    }
  }

  lemma FailedKeepsInv(s: State, message: Option<string>)
    requires Inv(s)
    ensures Inv(Next(s, Failed(message)))
  {
    var detail := match message case Some(m) => m case None => NETWORK_ERROR;
    DisconnectKeepsInv(s.(error := Some(CONNECTION_ERROR + detail)));
  }

  lemma UpdateVolumeKeepsInv(s: State, bins: seq<Volume.byte>, frame: nat)
    requires Inv(s) && |bins| > 0
    ensures Inv(UpdateVolume(s, bins, frame))
  {
  }

  lemma AudioChunkKeepsInv(s: State, now: real, decoded: Decode)
    requires Inv(s) && now >= 0.0 && (decoded.Decoded? ==> decoded.duration >= 0.0)
    ensures Inv(AudioChunk(s, now, decoded))
  {
    if IsUsable(s.outputCtx) {
      ScheduleKeepsInv(s, now);
      if decoded.Decoded? {
        StartChunkKeepsInv(Schedule(s, now), decoded.duration);
      }
    }
  }

  lemma ScheduleKeepsInv(s: State, now: real)
    requires Inv(s) && now >= 0.0
    ensures Inv(Schedule(s, now))
  {
  }

  lemma StartChunkKeepsInv(s: State, duration: real)
    requires Inv(s) && s.speaking && duration >= 0.0
    ensures Inv(StartChunk(s, duration))
  {
    var r := StartChunk(s, duration);
    forall n | n in r.live
      ensures n < r.nextNode
    {
    }
  }

  lemma DisconnectKeepsInv(s: State)
    requires Inv(s)
    ensures Inv(Disconnect(s))
  {
  }

  /** Every state reachable from mounting satisfies the invariant; in particular ERROR is never entered. */
  lemma {:induction false} RunKeepsInv(s: State, events: seq<Event>)
    requires Inv(s) && AllWellFormed(events)
    ensures Inv(Run(s, events))
    ensures Run(s, events).connection != Error
    decreases |events|
  {
    if events != [] {
      NextKeepsInv(s, events[0]);
      assert AllWellFormed(events[1..]);
      RunKeepsInv(Next(s, events[0]), events[1..]);
    }
  }

  // ---------------------------------------------------------------- connect

  /** `connect` changes nothing without an AI client or outside DISCONNECTED; otherwise it starts connecting with no error. */
  lemma ConnectGuard(s: State)
    ensures !(s.hasAi && s.connection == Disconnected) ==> Connect(s) == s
    ensures s.hasAi && s.connection == Disconnected ==>
      Connect(s).connection == Connecting && Connect(s).error == None &&
      Connect(s) == s.(connection := Connecting, error := None)
  {
  }

  /** A refused microphone ends in DISCONNECTED with the connect-failure message; CONNECTED is never reached. */
  lemma DeviceFailure(s: State)
    requires s.hasAi && s.connection == Disconnected
    ensures Connect(s).connection == Connecting
    ensures MicrophoneDenied(Connect(s)).connection == Disconnected
    ensures MicrophoneDenied(Connect(s)).error == Some(CONNECT_FAILED)
  {
  }

  // ---------------------------------------------------------------- playback

  /**
    A decoded chunk on a usable output context starts at `max(cursor, now)`,
    moves the cursor past itself by its duration and joins the live set as a new node.
  */
  lemma ChunkScheduled(s: State, now: real, d: real)
    requires Inv(s) && IsUsable(s.outputCtx)
    ensures var r := AudioChunk(s, now, Decoded(d));
      var start := Playback.Place(s.cursor, now);
      && start >= s.cursor && start >= now
      && r.effects == s.effects + [StartNode(s.nextNode, start)]
      && r.cursor == start + d
      && s.nextNode !in s.live
      && r.live == s.live + {s.nextNode}
      && r.speaking
      && (now <= s.cursor ==> start == s.cursor)
  {
  }

  /** A chunk that fails to decode adds no node, starts nothing and does not advance the cursor by any duration. */
  lemma MalformedChunkSkipped(s: State, now: real)
    ensures var r := AudioChunk(s, now, Malformed);
      && r.live == s.live && r.effects == s.effects && r.nextNode == s.nextNode
      && r.cursor == (if IsUsable(s.outputCtx) then Playback.Place(s.cursor, now) else s.cursor)
      && (IsUsable(s.outputCtx) ==> r.speaking)
  {
  }

  /** An `ended` event removes its node; speaking goes false exactly when the live set becomes empty. */
  lemma EndedRemovesNode(s: State, node: NodeId)
    ensures Ended(s, node).live == s.live - {node}
    ensures Ended(s, node).speaking == (s.speaking && s.live - {node} != {})
  {
    var live := s.live - {node};
    assert |live| == 0 <==> live == {};
  }

  /** Interruption stops every live node, empties the live set, rewinds the cursor and clears speaking. */
  lemma InterruptStopsEverything(s: State)
    ensures Interrupted(s).live == {} && Interrupted(s).cursor == 0.0 && !Interrupted(s).speaking
    ensures Interrupted(s).effects == s.effects + StopAll(s.live)
    ensures s.live != {} ==> StopNodes(s.live) in Interrupted(s).effects
  {
  }

  /** After an interruption the next chunk starts on the device clock, not after the abandoned turn. */
  lemma InterruptThenChunkStartsNow(s: State, now: real, d: real)
    requires now >= 0.0 && IsUsable(s.outputCtx)
    ensures var r := AudioChunk(Interrupted(s), now, Decoded(d));
      r.effects == Interrupted(s).effects + [StartNode(s.nextNode, now)] && r.cursor == now + d
  {
  }

  /** The audio messages of a run of decoded chunks, none flagged as interrupted. */
  function ChunkMessages(chunks: seq<Playback.Chunk>): (r: seq<Event>)
    ensures |r| == |chunks|
    ensures forall i :: 0 <= i < |r| ==>
      r[i] == Received(true, chunks[i].arrival, Decoded(chunks[i].duration), false)
    decreases |chunks|
  {
    if chunks == [] then []
    else [Received(true, chunks[0].arrival, Decoded(chunks[0].duration), false)] + ChunkMessages(chunks[1..])
  }

  /** StartNode effects for consecutive fresh nodes at the given start times. */
  function StartEffects(first: NodeId, starts: seq<real>): seq<Effect>
    decreases |starts|
  {
    if starts == [] then [] else [StartNode(first, starts[0])] + StartEffects(first + 1, starts[1..])
  }

  /**
    The client's handlers follow the scheduler: a run of audio messages starts
    consecutive new nodes at the planned start times and leaves the cursor
    where the scheduler does.
  */
  lemma ChunkRunFollowsSchedule(s: State, chunks: seq<Playback.Chunk>)
    requires IsUsable(s.outputCtx) && Playback.WellFormed(chunks)
    ensures AllWellFormed(ChunkMessages(chunks))
    ensures Run(s, ChunkMessages(chunks)).cursor == Playback.FinalCursor(s.cursor, chunks)
    ensures Run(s, ChunkMessages(chunks)).effects
         == s.effects + StartEffects(s.nextNode, Playback.Starts(s.cursor, chunks))
  {
    MessagesWellFormed(chunks);
    ChunkRunCursor(s, chunks);
    ChunkRunEffects(s, chunks);
  }

  /** The cursor half of `ChunkRunFollowsSchedule`, by induction on the run. */
  lemma {:induction false} ChunkRunCursor(s: State, chunks: seq<Playback.Chunk>)
    requires IsUsable(s.outputCtx) && Playback.WellFormed(chunks)
    ensures AllWellFormed(ChunkMessages(chunks))
    ensures Run(s, ChunkMessages(chunks)).cursor == Playback.FinalCursor(s.cursor, chunks)
    decreases |chunks|
  {
    MessagesWellFormed(chunks);
    if chunks != [] {
      var c := chunks[0];
      var s1 := AudioChunk(s, c.arrival, Decoded(c.duration));
      FirstChunkStep(s, chunks);
      RunTail(s, chunks);
      ChunkRunCursor(s1, chunks[1..]);
    }
  }

  /** The log half of `ChunkRunFollowsSchedule`, by induction on the run. */
  lemma {:induction false} ChunkRunEffects(s: State, chunks: seq<Playback.Chunk>)
    requires IsUsable(s.outputCtx) && Playback.WellFormed(chunks)
    ensures AllWellFormed(ChunkMessages(chunks))
    ensures Run(s, ChunkMessages(chunks)).effects
         == s.effects + StartEffects(s.nextNode, Playback.Starts(s.cursor, chunks))
    decreases |chunks|
  {
    MessagesWellFormed(chunks);
    if chunks != [] {
      var c := chunks[0];
      var start := Playback.Place(s.cursor, c.arrival);
      var s1 := AudioChunk(s, c.arrival, Decoded(c.duration));
      FirstChunkStep(s, chunks);
      RunTail(s, chunks);
      ChunkRunEffects(s1, chunks[1..]);
      var rest := StartEffects(s.nextNode + 1, Playback.Starts(start + c.duration, chunks[1..]));
      assert Run(s1, ChunkMessages(chunks[1..])).effects == s1.effects + rest;
      StartEffectsUnfold(s.nextNode, s.cursor, chunks);
      LogAssociates(s.effects, StartNode(s.nextNode, start), rest);
    }
  }

  /** Appending one request and then more is appending them together. */
  lemma LogAssociates(log: seq<Effect>, e: Effect, rest: seq<Effect>)
    ensures (log + [e]) + rest == log + ([e] + rest)
  {
  }

  /** The messages of well-formed chunks are well-formed events. */
  lemma MessagesWellFormed(chunks: seq<Playback.Chunk>)
    requires Playback.WellFormed(chunks)
    ensures AllWellFormed(ChunkMessages(chunks))
  {
    var events := ChunkMessages(chunks);
    forall i | 0 <= i < |events|
      ensures WellFormed(events[i])
    {
      assert events[i] == Received(true, chunks[i].arrival, Decoded(chunks[i].duration), false);
    }
  }

  /** Running the messages of a run is running the first, then the messages of the rest. */
  lemma RunTail(s: State, chunks: seq<Playback.Chunk>)
    requires chunks != [] && Playback.WellFormed(chunks)
    ensures Playback.WellFormed(chunks[1..]) && AllWellFormed(ChunkMessages(chunks))
    ensures AllWellFormed(ChunkMessages(chunks[1..]))
    ensures WellFormed(ChunkMessages(chunks)[0])
    ensures var s1 := AudioChunk(s, chunks[0].arrival, Decoded(chunks[0].duration));
      && Run(s, ChunkMessages(chunks)).cursor == Run(s1, ChunkMessages(chunks[1..])).cursor
      && Run(s, ChunkMessages(chunks)).effects == Run(s1, ChunkMessages(chunks[1..])).effects
  {
    MessagesWellFormed(chunks);
    assert Playback.WellFormed(chunks[1..]);
    MessagesWellFormed(chunks[1..]);
    assert ChunkMessages(chunks)[1..] == ChunkMessages(chunks[1..]);
    FirstMessage(s, chunks);
  }

  /** The first message of a run is the audio part for its first chunk. */
  lemma FirstMessage(s: State, chunks: seq<Playback.Chunk>)
    requires chunks != [] && Playback.WellFormed(chunks)
    ensures WellFormed(ChunkMessages(chunks)[0])
    ensures Next(s, ChunkMessages(chunks)[0]) == AudioChunk(s, chunks[0].arrival, Decoded(chunks[0].duration))
  {
    var c := chunks[0];
    assert ChunkMessages(chunks)[0] == Received(true, c.arrival, Decoded(c.duration), false);
  }

  /** The first message of a run starts the first chunk and leaves the output context usable. */
  lemma FirstChunkStep(s: State, chunks: seq<Playback.Chunk>)
    requires IsUsable(s.outputCtx) && chunks != []
    ensures var s1 := AudioChunk(s, chunks[0].arrival, Decoded(chunks[0].duration));
      var start := Playback.Place(s.cursor, chunks[0].arrival);
      && s1.effects == s.effects + [StartNode(s.nextNode, start)]
      && s1.cursor == start + chunks[0].duration
      && s1.nextNode == s.nextNode + 1
      && IsUsable(s1.outputCtx)
  {
  }

  /** The start requests of a run: the first chunk's, then those of the rest from the cursor it leaves. */
  lemma StartEffectsUnfold(first: NodeId, cursor: real, chunks: seq<Playback.Chunk>)
    requires chunks != []
    ensures var start := Playback.Place(cursor, chunks[0].arrival);
      StartEffects(first, Playback.Starts(cursor, chunks))
        == [StartNode(first, start)] + StartEffects(first + 1, Playback.Starts(start + chunks[0].duration, chunks[1..]))
  {
    var start := Playback.Place(cursor, chunks[0].arrival);
    assert Playback.Starts(cursor, chunks) == [start] + Playback.Starts(start + chunks[0].duration, chunks[1..]);
  }

  // ---------------------------------------------------------------- capture

  /** A block is sent exactly when the gate is open and a session promise exists; otherwise nothing changes, so nothing is buffered. */
  lemma CaptureSendsIff(s: State, block: seq<real>)
    ensures Capture(s, block) == s.(effects := s.effects + [SendBlock(block)])
        <==> ShouldSend(s.micOn, s.connection) && s.sessionPromise
    ensures !(ShouldSend(s.micOn, s.connection) && s.sessionPromise) ==> Capture(s, block) == s
  {
    if !(ShouldSend(s.micOn, s.connection) && s.sessionPromise) {
      assert |s.effects + [SendBlock(block)]| != |s.effects|;
    }
  }

  /** While muted no block is ever sent, whatever else holds. */
  lemma MutedSendsNothing(s: State, block: seq<real>)
    requires !s.micOn
    ensures Capture(s, block) == s
  {
  }

  /**
    `onaudioprocess` as written: the closure reads the `isMicOn` and
    `connectionState` that were current when `connect` ran, not the current ones.
  */
  function CaptureAsWritten(s: State, atConnect: State, block: seq<real>): (r: State)
    ensures r.effects == s.effects + [SendBlock(block)] <==>
      ShouldSend(atConnect.micOn, atConnect.connection) && s.sessionPromise
    ensures !(ShouldSend(atConnect.micOn, atConnect.connection) && s.sessionPromise) ==> r == s
  {
    if ShouldSend(atConnect.micOn, atConnect.connection) && s.sessionPromise
    then s.(effects := s.effects + [SendBlock(block)])
    else
      assert |s.effects + [SendBlock(block)]| != |s.effects|;
      s
  }

  /**
    `connect` only gets past its guard in DISCONNECTED, so the captured
    `connectionState` is DISCONNECTED and the processor as written never sends.
  */
  lemma CaptureAsWrittenNeverSends(s: State, atConnect: State, block: seq<real>)
    requires Connect(atConnect).connection == Connecting && atConnect.connection != Connecting
    ensures CaptureAsWritten(s, atConnect, block) == s
  {
  }

  // ---------------------------------------------------------------- teardown

  /** A second `disconnect` changes no field; it only repeats the harmless cancellation of the last frame id. */
  lemma DisconnectIdempotent(s: State)
    ensures Disconnect(Disconnect(s)).(effects := []) == Disconnect(s).(effects := [])
    ensures Disconnect(Disconnect(s)).effects == Disconnect(s).effects + When(s.frame != 0, CancelFrame(s.frame))
  {
    var once := Disconnect(s);
    assert TeardownEffects(once) == When(s.frame != 0, CancelFrame(s.frame));
  }

  /**
    As written, a reconnect after `disconnect` schedules the new session's
    first chunk at the old session's cursor, although the new output context's
    clock starts again near 0: with the cursor left at 300 s, a chunk arriving
    at 0.5 s starts at 300 s, after five minutes of silence.
  */
  lemma ReconnectKeepsStaleCursor(s: State, bins: seq<Volume.byte>, frame: nat, now: real, d: real)
    requires s.hasAi && |bins| > 0 && now <= s.cursor
    ensures var t := Open(MicrophoneGranted(Connect(Disconnect(s)), bins, frame));
      AudioChunk(t, now, Decoded(d)).effects == t.effects + [StartNode(t.nextNode, s.cursor)]
  {
    var t := Open(MicrophoneGranted(Connect(Disconnect(s)), bins, frame));
    assert t.cursor == s.cursor && IsUsable(t.outputCtx);
  }

  /** The example above: cursor 300 s, chunk at 0.5 s on the new clock. */
  lemma StaleCursorExample(s: State, bins: seq<Volume.byte>, frame: nat, d: real)
    requires s.hasAi && |bins| > 0 && s.cursor == 300.0
    ensures var t := Open(MicrophoneGranted(Connect(Disconnect(s)), bins, frame));
      AudioChunk(t, 0.5, Decoded(d)).effects == t.effects + [StartNode(t.nextNode, 300.0)]
  {
    ReconnectKeepsStaleCursor(s, bins, frame, 0.5, d);
  }

  /** With the cursor rewound by the corrected teardown, a reconnected session's first chunk starts at the new clock. */
  lemma ReconnectStartsAtClock(s: State, bins: seq<Volume.byte>, frame: nat, now: real, d: real)
    requires s.hasAi && |bins| > 0 && now >= 0.0
    ensures var t := Open(MicrophoneGranted(Connect(DisconnectToBaseline(s)), bins, frame));
      AudioChunk(t, now, Decoded(d)).effects == t.effects + [StartNode(t.nextNode, now)]
  {
    var t := Open(MicrophoneGranted(Connect(DisconnectToBaseline(s)), bins, frame));
    assert t.cursor == 0.0 && IsUsable(t.outputCtx);
  }

  /** After `disconnect` an audio message is ignored: the output context ref is null. */
  lemma ChunkAfterDisconnectIgnored(s: State, now: real, decoded: Decode)
    ensures AudioChunk(Disconnect(s), now, decoded) == Disconnect(s)
    ensures Message(Disconnect(s), true, now, decoded, false) == Disconnect(s)
  {
  }

  /** `onclose` and `onerror` both end in the full teardown; `onerror` also records its message. */
  lemma TerminalEventsTearDown(s: State, message: Option<string>)
    ensures Close(s) == Disconnect(s)
    ensures TransportError(s, message).error.Some?
    ensures TransportError(s, message).(error := s.error) == Disconnect(s)
  {
  }
}
