/**
  The App component's refs and state variables as one object whose handlers
  update them in place. Every handler is proved to leave the object in the
  state that the matching function of `Session` computes from the state
  before it, and to keep `Session.Inv`; what the source promises about those
  steps is proved as lemmas in `Session` and `Playback`.

  The small helper methods (`BuildCapture`, `StartStreaming`, `Schedule`,
  `StartChunk`, `ResetIndicators`, `ReleaseSession`, `ReleaseCapture`,
  `ReleaseContexts`, `ReleasePlayback`) mirror the `Session` step functions
  of the same names one to one: each writes the few fields its step changes
  and is proved to perform exactly that step.
*/
module App {
  import opened Optional
  import Volume
  import Playback
  import Session

  class Client {
    var connection: Session.ConnectionState
    var micOn: bool
    var speaking: bool
    var volume: real
    var error: Option<string>
    var hasAi: bool
    var cursor: real
    var live: set<Session.NodeId>
    var nextNode: Session.NodeId
    var activeSession: bool
    var sessionPromise: bool
    var stream: bool
    var processor: bool
    var source: bool
    var analyzer: bool
    var inputCtx: Session.ContextRef
    var outputCtx: Session.ContextRef
    var frame: nat
    var effects: seq<Session.Effect>

    /** The fields as a value of the state machine. */
    ghost function Snapshot(): Session.State
      reads this
    {
      Session.State(connection, micOn, speaking, volume, error, hasAi, cursor, live, nextNode,
                    activeSession, sessionPromise, stream, processor, source, analyzer,
                    inputCtx, outputCtx, frame, effects)
    }

    ghost predicate Valid()
      reads this
    {
      Session.Inv(Snapshot())
    }

    /** Mounting: the AI client is created only when an API key is configured. */
    constructor (apiKey: bool)
      ensures Valid() && Snapshot() == Session.Initial(apiKey)
    {
      connection := Session.Disconnected;
      micOn := true;
      speaking := false;
      volume := 0.0;
      error := if apiKey then None else Some(Session.API_KEY_MISSING);
      hasAi := apiKey;
      cursor := 0.0;
      live := {};
      nextNode := 0;
      activeSession := false;
      sessionPromise := false;
      stream := false;
      processor := false;
      source := false;
      analyzer := false;
      inputCtx := Session.NoContext;
      outputCtx := Session.NoContext;
      frame := 0;
      effects := [];
    }

    /** `connect` up to its first await. */
    method Connect()
      requires Valid()
      modifies this
      ensures Valid() && Snapshot() == Session.Connect(old(Snapshot()))
    {
      if !hasAi || connection != Session.Disconnected {
        return;
      }
      connection := Session.Connecting;
      error := None;
    }

    /** `updateVolume` for one animation frame; `data` is the analyser's filled byte array. */
    method UpdateVolume(data: array<Volume.byte>, nextFrame: nat)
      requires Valid() && data.Length == Volume.BIN_COUNT
      modifies this
      ensures Valid() && Snapshot() == Session.UpdateVolume(old(Snapshot()), data[..], nextFrame)
    {
      ghost var before := Snapshot();
      if analyzer {
        var level := Volume.MeasureLevel(data);
        volume := level;
      }
      frame := nextFrame;
      Session.UpdateVolumeKeepsInv(before, data[..], nextFrame);
    }

    /** The rest of `connect` once `getUserMedia` resolves. */
    method OnMicrophoneGranted(data: array<Volume.byte>, nextFrame: nat)
      requires Valid() && data.Length == Volume.BIN_COUNT
      modifies this
      ensures Valid() && Snapshot() == Session.MicrophoneGranted(old(Snapshot()), data[..], nextFrame)
    {
      BuildCapture();
      UpdateVolume(data, nextFrame);
      StartStreaming();
    }

    /** The stream is kept, the 16 kHz input context created, the source and the analyser attached. */
    method BuildCapture()
      modifies this
      ensures Snapshot() == Session.BuildCapture(old(Snapshot()))
    {
      stream := true;
      inputCtx := Session.Context(Session.Running);
      source := true;
      analyzer := true;
    }

    /** The script processor, the 24 kHz output context and the session promise are created. */
    method StartStreaming()
      modifies this
      ensures Snapshot() == Session.StartStreaming(old(Snapshot()))
    {
      processor := true;
      outputCtx := Session.Context(Session.Running);
      sessionPromise := true;
    }

    /** `connect`'s catch when `getUserMedia` rejects. */
    method OnMicrophoneDenied()
      requires Valid()
      modifies this
      ensures Valid() && Snapshot() == Session.MicrophoneDenied(old(Snapshot()))
    {
      ReportError(Session.CONNECT_FAILED);
      Disconnect();
    }

    /** `setErrorMessage(message)`. */
    method ReportError(message: string)
      modifies this
      ensures Snapshot() == old(Snapshot()).(error := Some(message))
    {
      error := Some(message);
    }

    /** The session promise resolves. */
    method OnSessionReady()
      requires Valid()
      modifies this
      ensures Valid() && Snapshot() == Session.SessionReady(old(Snapshot()))
    {
      activeSession := true;
    }

    /** `onopen`. */
    method OnOpen()
      requires Valid()
      modifies this
      ensures Valid() && Snapshot() == Session.Open(old(Snapshot()))
    {
      connection := Session.Connected;
    }

    /** The audio part of `onmessage`, with the output clock and the decode outcome as inputs. */
    method OnAudioChunk(now: real, decoded: Session.Decode)
      requires Valid() && now >= 0.0 && (decoded.Decoded? ==> decoded.duration >= 0.0)
      modifies this
      ensures Valid() && Snapshot() == Session.AudioChunk(old(Snapshot()), now, decoded)
    {
      ghost var before := Snapshot();
      if Session.IsUsable(outputCtx) {
        Schedule(now);
        match decoded
        case Decoded(duration) => StartChunk(duration);
        case Malformed =>
      }
      Session.AudioChunkKeepsInv(before, now, decoded);
    }

    /** `aiIsSpeaking` set and `nextStartTime = Math.max(nextStartTime, currentTime)`. */
    method Schedule(now: real)
      modifies this
      ensures Snapshot() == Session.Schedule(old(Snapshot()), now)
    {
      speaking := true;
      cursor := Playback.Place(cursor, now);
    }

    /** `source.start(nextStartTime)`, then the cursor moves past the buffer and the node is kept. */
    method StartChunk(duration: real)
      modifies this
      ensures Snapshot() == Session.StartChunk(old(Snapshot()), duration)
    {
      var node := nextNode;
      nextNode := nextNode + 1;
      effects := effects + [Session.StartNode(node, cursor)];
      cursor := cursor + duration;
      live := live + {node};
    }

    /** A node's `ended` listener. */
    method OnEnded(node: Session.NodeId)
      requires Valid()
      modifies this
      ensures Valid() && Snapshot() == Session.Ended(old(Snapshot()), node)
    {
      ghost var before := Snapshot();
      Release(node);
      Session.EndedKeepsInv(before, node);
    }

    /** `sourceNodesRef.current.delete(sourceNode)`, and speaking ends with the last node. */
    method Release(node: Session.NodeId)
      modifies this
      ensures Snapshot() == Session.Ended(old(Snapshot()), node)
    {
      live := live - {node};
      if |live| == 0 {
        speaking := false;
      }
    }

    /** The interrupted part of `onmessage`. */
    method OnInterrupted()
      requires Valid()
      modifies this
      ensures Valid() && Snapshot() == Session.Interrupted(old(Snapshot()))
    {
      if live != {} {
        effects := effects + [Session.StopNodes(live)];
      }
      live := {};
      cursor := 0.0;
      speaking := false;
    }

    /** `onmessage`. */
    method OnMessage(audio: bool, now: real, decoded: Session.Decode, interrupted: bool)
      requires Valid() && now >= 0.0 && (decoded.Decoded? ==> decoded.duration >= 0.0)
      modifies this
      ensures Valid() && Snapshot() == Session.Message(old(Snapshot()), audio, now, decoded, interrupted)
    {
      if audio {
        OnAudioChunk(now, decoded);
      }
      if interrupted {
        OnInterrupted();
      }
    }

    /** `onaudioprocess` for one captured block. */
    method OnAudioProcess(block: seq<real>)
      requires Valid()
      modifies this
      ensures Valid() && Snapshot() == Session.Capture(old(Snapshot()), block)
    {
      if !Session.ShouldSend(micOn, connection) {
        return;
      }
      if sessionPromise {
        effects := effects + [Session.SendBlock(block)];
      }
    }

    /** `toggleMic`. */
    method ToggleMic()
      requires Valid()
      modifies this
      ensures Valid() && Snapshot() == Session.ToggleMic(old(Snapshot()))
    {
      micOn := !micOn;
    }

    /**
      `disconnect`: the steps of the source, in its order. The requests are
      collected in `requests` and appended to the effect log at the end.
    */
    method Disconnect()
      requires Valid()
      modifies this
      ensures Valid() && Snapshot() == Session.Disconnect(old(Snapshot()))
    {
      ghost var before := Snapshot();
      var requests := Session.Teardown(frame, activeSession, stream, processor, source, inputCtx, outputCtx, live);
      ResetIndicators();
      ReleaseSession();
      ReleaseCapture();
      ReleaseContexts();
      ReleasePlayback(requests);
      Session.DisconnectKeepsInv(before);
    }

    /** DISCONNECTED, not speaking, volume zero. */
    method ResetIndicators()
      modifies this
      ensures Snapshot() == Session.ResetIndicators(old(Snapshot()))
    {
      connection := Session.Disconnected;
      speaking := false;
      volume := 0.0;
    }

    /** The session ref and the session promise ref are cleared. */
    method ReleaseSession()
      modifies this
      ensures Snapshot() == Session.ReleaseSession(old(Snapshot()))
    {
      activeSession := false;
      sessionPromise := false;
    }

    /** The stream, processor and source refs are cleared. */
    method ReleaseCapture()
      modifies this
      ensures Snapshot() == Session.ReleaseCapture(old(Snapshot()))
    {
      stream := false;
      processor := false;
      source := false;
    }

    /** Both context refs are cleared. */
    method ReleaseContexts()
      modifies this
      ensures Snapshot() == Session.ReleaseContexts(old(Snapshot()))
    {
      inputCtx := Session.NoContext;
      outputCtx := Session.NoContext;
    }

    /** The live set is cleared and the collected requests are issued. */
    method ReleasePlayback(requests: seq<Session.Effect>)
      modifies this
      ensures Snapshot() == Session.ReleasePlayback(old(Snapshot()), requests)
    {
      live := {};
      effects := effects + requests;
    }

    /** `onclose`. */
    method OnClose()
      requires Valid()
      modifies this
      ensures Valid() && Snapshot() == Session.Close(old(Snapshot()))
    {
      Disconnect();
    }

    /** `onerror`, with the error's message when it is an `Error`. */
    method OnError(message: Option<string>)
      requires Valid()
      modifies this
      ensures Valid() && Snapshot() == Session.TransportError(old(Snapshot()), message)
    {
      var detail := match message case Some(m) => m case None => Session.NETWORK_ERROR;
      ReportError(Session.CONNECTION_ERROR + detail);
      Disconnect();
    }
  }
}
