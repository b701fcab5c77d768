/** The downlink receiver: each frame read from the WebSocket is decoded into an
    event and dispatched on its `type` tag. An empty message ends the loop; any
    exception raised while handling one frame is swallowed and the loop goes on. */
module Receiver {
  import opened Wire
  import opened Playback
  import opened Dispatch

  /** What one `ws.recv()` produced: a text message, or an exception. */
  datatype Frame = Text(text: string) | RecvFailed(msg: string)

  /** The outcome of reading and decoding one frame, before any state changes. */
  datatype Event =
    | EndOfStream                                 // an empty message
    | Malformed(error: Exception)                 // the frame's handling raised before any state changed
    | SessionCreated
    | AudioDelta(audio: Bytes)                    // response.audio.delta, payload decoded
    | SpeechStarted                               // input_audio_buffer.speech_started
    | AudioDone                                   // response.audio.done
    | FunctionCallDone(fields: map<string, Json>) // response.function_call_arguments.done
    | Unrecognised(eventType: Json)

  /** Read one frame: an empty text ends the stream; the text is parsed as JSON, its
      "type" looked up, and for an audio delta the "delta" field base64-decoded. Each
      of these steps may raise. */
  function Decode(f: Frame, env: Env): (ev: Event)
    ensures ev.EndOfStream? <==> f == Text("")
    ensures f.RecvFailed? ==> ev.Malformed?
    ensures f.Text? && f.text != "" && env.parse(f.text).Err? ==> ev.Malformed?
    ensures !ev.Malformed? && !ev.EndOfStream? ==>
              f.Text? && env.parse(f.text).Ok? && env.parse(f.text).value.JObject?
              && "type" in env.parse(f.text).value.fields
    ensures f.Text? && f.text != "" && env.parse(f.text).Ok? && env.parse(f.text).value.JObject?
            && "type" in env.parse(f.text).value.fields ==>
              var m := env.parse(f.text).value.fields;
              var ty := m["type"];
              (ty == JStr("session.created") ==> ev == SessionCreated)
              && (ty == JStr("response.audio.delta") && "delta" in m && B64Decode(m["delta"], env).Ok? ==>
                    ev == AudioDelta(B64Decode(m["delta"], env).value))
              && (ty == JStr("response.audio.delta") && ("delta" !in m || B64Decode(m["delta"], env).Err?) ==>
                    ev.Malformed?)
              && (ty == JStr("input_audio_buffer.speech_started") ==> ev == SpeechStarted)
              && (ty == JStr("response.audio.done") ==> ev == AudioDone)
              && (ty == JStr("response.function_call_arguments.done") ==> ev == FunctionCallDone(m))
              && (ty !in {JStr("session.created"), JStr("response.audio.delta"), JStr("input_audio_buffer.speech_started"),
                          JStr("response.audio.done"), JStr("response.function_call_arguments.done")} ==>
                    ev == Unrecognised(ty))
  {
    match f
    case RecvFailed(m) => Malformed(ConnectionError(m))
    case Text(t) =>
      if t == "" then EndOfStream
      else match env.parse(t)
        case Err(m) => Malformed(JsonDecodeError(m))
        case Ok(msg) =>
          match Subscript(msg, "type")
          case Err(e) => Malformed(e)
          case Ok(ty) =>
            if ty == JStr("session.created") then SessionCreated
            else if ty == JStr("response.audio.delta") then
              (match Subscript(msg, "delta")
               case Err(e) => Malformed(e)
               case Ok(d) =>
                 match B64Decode(d, env)
                 case Err(e) => Malformed(e)
                 case Ok(audio) => AudioDelta(audio))
            else if ty == JStr("input_audio_buffer.speech_started") then SpeechStarted
            else if ty == JStr("response.audio.done") then AudioDone
            else if ty == JStr("response.function_call_arguments.done") then FunctionCallDone(msg.fields)
            else Unrecognised(ty)
  }

  /** What the receiver thread touches: the render-side globals, the socket, and
      whether its loop is still running. */
  datatype Session = Session(speaker: Speaker, link: Link, receiving: bool)

  const Start: Session := Session(Initial, Link([], 0), true)

  /** Events that change nothing: a swallowed exception, `response.audio.done`, and
      any type the receiver does not recognise. */
  predicate Inert(ev: Event)
  {
    ev.Malformed? || ev.AudioDone? || ev.Unrecognised?
  }

  /** One iteration of the receive loop, on an already decoded frame. No event writes
      the mic re-engage timestamp, messages are only ever added to the socket and none
      of them is audio, only a
      delta or a barge-in touches the render side, and a delta keeps the bytes
      already buffered. Once the loop has ended nothing changes. */
  function Receive(s: Session, ev: Event, env: Env): (r: Session)
    ensures r.speaker.micOnAt == s.speaker.micOnAt
    ensures s.link.sent <= r.link.sent
    ensures !ev.AudioDelta? && !ev.SpeechStarted? ==> r.speaker == s.speaker
    ensures ev.AudioDelta? ==> s.speaker.buffer <= r.speaker.buffer
    ensures Inert(ev) || !s.receiving ==> r == s
    ensures r.receiving <==> s.receiving && !ev.EndOfStream?
    ensures s.receiving && ev.AudioDelta? ==> r.speaker == Append(s.speaker, ev.audio)
    ensures s.receiving && ev.SpeechStarted? ==> r.speaker == BargeIn(s.speaker)
    ensures s.receiving && ev.SessionCreated? ==> r.link == Send(s.link, SessionUpdate, env.refuses).0
    ensures s.receiving && ev.FunctionCallDone? ==> r.link == Respond(s.link, ev.fields, env)
    ensures ev.AudioDelta? || ev.SpeechStarted? || ev.EndOfStream? ==> r.link == s.link
    ensures forall i :: |s.link.sent| <= i < |r.link.sent| ==> !r.link.sent[i].AudioAppend?
  {
    if !s.receiving then s
    else match ev
      case EndOfStream => s.(receiving := false)
      case Malformed(_) => s
      case SessionCreated => s.(link := Send(s.link, SessionUpdate, env.refuses).0)
      case AudioDelta(audio) => s.(speaker := Append(s.speaker, audio))
      case SpeechStarted => s.(speaker := BargeIn(s.speaker))
      case AudioDone => s
      case FunctionCallDone(fields) => s.(link := Respond(s.link, fields, env))
      case Unrecognised(_) => s
  }

  /** `session.created` makes exactly one attempt to send the session configuration,
      every time it arrives. */
  lemma SessionCreatedSendsUpdate(s: Session, env: Env)
    requires s.receiving
    ensures Receive(s, SessionCreated, env).link.attempts == s.link.attempts + 1
    ensures Receive(s, SessionCreated, env).link.sent
         == s.link.sent + (if env.refuses(s.link.attempts) then [] else [SessionUpdate])
  {
  }

  /** A barge-in empties the buffer whatever it held and clears the playing flag. */
  lemma SpeechStartedBargesIn(s: Session, env: Env)
    requires s.receiving
    ensures Receive(s, SpeechStarted, env).speaker.buffer == []
    ensures Receive(s, SpeechStarted, env).speaker.isPlaying == Some(false)
    ensures Receive(s, SpeechStarted, env).link == s.link
  {
  }

  /** The receive loop over the frames `ws.recv()` returns, in order. */
  function ReceiveAll(s: Session, frames: seq<Frame>, env: Env): (r: Session)
    ensures r.receiving <==> s.receiving && forall i :: 0 <= i < |frames| ==> frames[i] != Text("")
    decreases |frames|
  {
    if frames == [] then s
    else
      var init, last := frames[..|frames| - 1], frames[|frames| - 1];
      var p := ReceiveAll(s, init, env);
      var ev := Decode(last, env);
      assert ev.EndOfStream? <==> last == Text("");
      assert forall i :: 0 <= i < |init| ==> init[i] == frames[i];
      Receive(p, ev, env)
  }

  /** Once the loop has ended, no later frame is processed. */
  lemma {:induction false} EndedLoopIgnoresFrames(s: Session, frames: seq<Frame>, env: Env)
    requires !s.receiving
    ensures ReceiveAll(s, frames, env) == s
    decreases |frames|
  {
    if frames != [] {
      EndedLoopIgnoresFrames(s, frames[..|frames| - 1], env);
    }
  }

  /** An empty message ends the loop: nothing after it is processed. */
  lemma {:induction false} EmptyMessageEndsLoop(s: Session, frames: seq<Frame>, i: nat, env: Env)
    requires i < |frames| && frames[i] == Text("")
    ensures !ReceiveAll(s, frames[..i + 1], env).receiving
    ensures ReceiveAll(s, frames, env) == ReceiveAll(s, frames[..i + 1], env)
    decreases |frames|
  {
    assert frames[..i + 1][..i] == frames[..i];
    if |frames| > i + 1 {
      var p := frames[..|frames| - 1];
      assert p[..i + 1] == frames[..i + 1];
      EmptyMessageEndsLoop(s, p, i, env);
    } else {
      assert frames[..i + 1] == frames;
    }
  }

  /** A frame whose handling raises, an `audio.done` or an unrecognised type leaves
      no trace: the frames around it are processed as if it were not there. */
  lemma {:induction false} InertFrameSkipped(s: Session, before: seq<Frame>, f: Frame, after: seq<Frame>, env: Env)
    requires Inert(Decode(f, env))
    ensures ReceiveAll(s, before + [f] + after, env) == ReceiveAll(s, before + after, env)
    decreases |after|
  {
    if after == [] {
      assert (before + [f] + after)[..|before|] == before;
      assert before + after == before;
    } else {
      var last := after[|after| - 1];
      var init := after[..|after| - 1];
      assert (before + [f] + after)[..|before + [f] + after| - 1] == before + [f] + init;
      assert (before + after)[..|before + after| - 1] == before + init;
      InertFrameSkipped(s, before, f, init, env);
    }
  }

  /** The loop over one more frame is one more iteration. */
  lemma ReceiveStep(s: Session, frames: seq<Frame>, f: Frame, env: Env)
    ensures ReceiveAll(s, frames + [f], env) == Receive(ReceiveAll(s, frames, env), Decode(f, env), env)
  {
    assert (frames + [f])[..|frames|] == frames;
  }

  /** The loop over three frames is three iterations. */
  lemma ThreeFrames(s: Session, f1: Frame, f2: Frame, f3: Frame, env: Env)
    ensures ReceiveAll(s, [f1, f2, f3], env)
         == Receive(Receive(Receive(s, Decode(f1, env), env), Decode(f2, env), env), Decode(f3, env), env)
  {
    ReceiveStep(s, [], f1, env);
    ReceiveStep(s, [f1], f2, env);
    ReceiveStep(s, [f1, f2], f3, env);
    assert [] + [f1] == [f1] && [f1] + [f2] == [f1, f2] && [f1, f2] + [f3] == [f1, f2, f3];
  }

  lemma AppendsAroundInertEvent(s: Session, a: Bytes, e: Event, b: Bytes, env: Env)
    requires s.receiving && Inert(e)
    ensures Receive(Receive(Receive(s, AudioDelta(a), env), e, env), AudioDelta(b), env).speaker.buffer
         == s.speaker.buffer + a + b
  {
  }

  /** Two deltas with an unrecognised event between them are both appended, in order. */
  lemma DeltasAroundUnrecognisedEvent(s: Session, f1: Frame, u: Frame, f2: Frame, a: Bytes, b: Bytes, env: Env)
    requires s.receiving
    requires Decode(f1, env) == AudioDelta(a) && Decode(u, env).Unrecognised? && Decode(f2, env) == AudioDelta(b)
    ensures ReceiveAll(s, [f1, u, f2], env).speaker.buffer == s.speaker.buffer + a + b
  {
    ThreeFrames(s, f1, u, f2, env);
    AppendsAroundInertEvent(s, a, Decode(u, env), b, env);
  }

  /** Over any run of the receive loop the mic re-engage timestamp is untouched and
      the socket's accepted messages only grow. */
  lemma {:induction false} ReceiverNeverWritesMicOnAt(s: Session, frames: seq<Frame>, env: Env)
    ensures ReceiveAll(s, frames, env).speaker.micOnAt == s.speaker.micOnAt
    ensures s.link.sent <= ReceiveAll(s, frames, env).link.sent
    decreases |frames|
  {
    if frames != [] {
      ReceiverNeverWritesMicOnAt(s, frames[..|frames| - 1], env);
    }
  }
}
