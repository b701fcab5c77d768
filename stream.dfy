/** The stream's process-wide state as one object: the playback buffer, the mic
    re-engage timestamp and the playing flag written by the render side, the mic
    queue between capture and sender, the socket, and whether the receive loop is
    still running. Each callback, loop iteration and helper of the stream is one
    atomic method, specified by the pure function of the module that models it. */
module Stream {
  import opened Wire
  import opened Playback
  import opened Dispatch
  import opened Receiver
  import opened Uplink

  class Duplex {
    var audioBuffer: Bytes
    var micOnAt: int
    var isPlaying: Option<bool>
    var micQueue: seq<Bytes>
    var sent: seq<Outgoing>
    var attempts: nat
    var receiving: bool

    /** The library calls, the back end and the socket's behaviour. */
    const env: Env

    ghost function PlaybackState(): Speaker
      reads this
    {
      Speaker(audioBuffer, micOnAt, isPlaying)
    }

    ghost function LinkState(): Link
      reads this
    {
      Link(sent, attempts)
    }

    ghost function SessionState(): Session
      reads this
    {
      Session(PlaybackState(), LinkState(), receiving)
    }

    ghost function UplinkState(): Uplink
      reads this
    {
      Uplink(micQueue, LinkState())
    }

    /** The module-level initial values: empty buffer and queue, `mic_on_at = 0`,
        `is_playing` unbound, nothing sent. */
    constructor (env: Env)
      ensures this.env == env
      ensures SessionState() == Start && micQueue == []
    {
      this.env := env;
      audioBuffer := [];
      micOnAt := 0;
      isPlaying := None;
      micQueue := [];
      sent := [];
      attempts := 0;
      receiving := true;
    }

    /** `speaker_callback`: the only writer of the re-engage timestamp. */
    method SpeakerCallback(frameCount: nat, now: int) returns (chunk: Bytes)
      modifies this`audioBuffer, this`micOnAt
      ensures |chunk| == frameCount * SAMPLE_WIDTH
      ensures chunk == Render(old(PlaybackState()), frameCount, now).chunk
      ensures PlaybackState() == Render(old(PlaybackState()), frameCount, now).after
    {
      var bytesNeeded := frameCount * SAMPLE_WIDTH;
      var currentBufferSize := |audioBuffer|;
      if currentBufferSize >= bytesNeeded {
        chunk := audioBuffer[..bytesNeeded];
        audioBuffer := audioBuffer[bytesNeeded..];
        micOnAt := now + REENGAGE_DELAY_MS;
      } else {
        chunk := audioBuffer + Silence(bytesNeeded - currentBufferSize);
        audioBuffer := [];
      }
    }

    /** `clear_audio_buffer` */
    method ClearAudioBuffer()
      modifies this`audioBuffer
      ensures audioBuffer == []
      ensures PlaybackState() == ClearBuffer(old(PlaybackState()))
    {
      audioBuffer := [];
    }

    /** `stop_audio_playback` */
    method StopAudioPlayback()
      modifies this`isPlaying
      ensures isPlaying == Some(false)
      ensures PlaybackState() == StopPlayback(old(PlaybackState()))
    {
      isPlaying := Some(false);
    }

    /** `mic_callback`: every captured chunk is queued, with no gate. */
    method MicCallback(chunk: Bytes)
      modifies this`micQueue
      ensures micQueue == old(micQueue) + [chunk]
      ensures UplinkState() == Capture(old(UplinkState()), chunk)
    {
      micQueue := micQueue + [chunk];
    }

    /** `ws.send(m)`: one attempt, which delivers m or raises. */
    method Transmit(m: Outgoing) returns (ok: bool)
      modifies this`sent, this`attempts
      ensures ok == !env.refuses(old(attempts))
      ensures LinkState() == Send(old(LinkState()), m, env.refuses).0
    {
      ok := !env.refuses(attempts);
      attempts := attempts + 1;
      if ok {
        sent := sent + [m];
      }
    }

    /** One iteration of `send_mic_audio_to_websocket`. A raising send is caught and
        the chunk is not put back. */
    method SendMicIteration()
      modifies this`micQueue, this`sent, this`attempts
      ensures UplinkState() == Pump(old(UplinkState()), env)
    {
      if micQueue != [] {
        var micChunk := micQueue[0];
        micQueue := micQueue[1..];
        var encodedChunk := env.b64encode(micChunk);
        var _ := Transmit(AudioAppend(encodedChunk));
      }
    }

    /** The sender loop, for as many iterations as it runs before the stop signal. */
    method SendMicAudio(iterations: nat)
      modifies this`micQueue, this`sent, this`attempts
      ensures UplinkState() == MicRun(old(UplinkState()), seq(iterations, _ => Pumped), env)
    {
      var i := 0;
      while i < iterations
        invariant 0 <= i <= iterations
        invariant UplinkState() == MicRun(old(UplinkState()), seq(i, _ => Pumped), env)
      {
        assert seq(i + 1, _ => Pumped)[..i] == seq(i, _ => Pumped);
        SendMicIteration();
        i := i + 1;
      }
    }

    /** `send_fc_session_update`: one send of the static configuration; a raising
        send is caught. */
    method SendSessionUpdate()
      modifies this`sent, this`attempts
      ensures LinkState() == Send(old(LinkState()), SessionUpdate, env.refuses).0
    {
      var _ := Transmit(SessionUpdate);
    }

    /** `send_function_call_result` */
    method SendFunctionCallResult(result: string, callId: Json)
      modifies this`sent, this`attempts
      ensures LinkState() == SendResult(old(LinkState()), result, callId, env.refuses)
    {
      var ok := Transmit(CallOutput(callId, result));
      if ok {
        ok := Transmit(ResponseCreate);
      }
    }

    /** `handle_function_call` */
    method HandleFunctionCall(event: map<string, Json>)
      modifies this`sent, this`attempts
      ensures LinkState() == Respond(old(LinkState()), event, env)
    {
      var answer := Answer(event, env);
      if answer.Some? {
        SendFunctionCallResult(answer.value.output, answer.value.callId);
      }
    }

    /** The body of the receive loop for one decoded frame. */
    method HandleEvent(ev: Event)
      requires receiving
      modifies this`audioBuffer, this`isPlaying, this`sent, this`attempts, this`receiving
      ensures SessionState() == Receive(old(SessionState()), ev, env)
    {
      match ev
      case EndOfStream =>
        receiving := false;
      case SessionCreated =>
        SendSessionUpdate();
      case AudioDelta(audio) =>
        audioBuffer := audioBuffer + audio;
      case SpeechStarted =>
        ClearAudioBuffer();
        StopAudioPlayback();
      case FunctionCallDone(fields) =>
        HandleFunctionCall(fields);
      case Malformed(_) =>
      case AudioDone =>
      case Unrecognised(_) =>
    }

    /** `receive_audio_from_websocket` over the frames the socket yields: an empty
        message breaks the loop; a frame whose handling raises is skipped. */
    method ReceiveAudio(frames: seq<Frame>)
      requires receiving
      modifies this`audioBuffer, this`isPlaying, this`sent, this`attempts, this`receiving
      ensures SessionState() == ReceiveAll(old(SessionState()), frames, env)
    {
      var i := 0;
      while i < |frames|
        invariant 0 <= i <= |frames|
        invariant receiving
        invariant SessionState() == ReceiveAll(old(SessionState()), frames[..i], env)
      {
        assert frames[..i + 1][..i] == frames[..i];
        var ev := Decode(frames[i], env);
        if ev.EndOfStream? {
          receiving := false;
          EmptyMessageEndsLoop(old(SessionState()), frames, i, env);
          break;
        }
        HandleEvent(ev);
        i := i + 1;
      }
      if i == |frames| {
        assert frames[..i] == frames;
      }
    }
  }
}
