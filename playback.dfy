/** The render side of the stream: the playback byte buffer that the receiver feeds
    and the speaker callback drains, the mic re-engage timestamp written on each full
    render tick, and the playing flag a barge-in clears. Time is an integer count of
    milliseconds. */
module Playback {
  import opened Wire

  /** Milliseconds the mic re-engage timestamp lies after a full render tick. */
  const REENGAGE_DELAY_MS: int := 500

  /** Bytes per frame of 16-bit mono PCM. */
  const SAMPLE_WIDTH: nat := 2

  /** The three globals of the render side: `audio_buffer`, `mic_on_at` and
      `is_playing`. The last is unbound until the first barge-in assigns it, hence
      an Option. Nothing in the stream reads `mic_on_at` or `is_playing`. */
  datatype Speaker = Speaker(buffer: Bytes, micOnAt: int, isPlaying: Option<bool>)

  /** The state the stream starts in. */
  const Initial: Speaker := Speaker([], 0, None)

  function Silence(n: nat): (z: Bytes)
    ensures |z| == n
    ensures forall i :: 0 <= i < n ==> z[i] == 0
  {
    seq(n, _ => 0)
  }

  function Min(a: nat, b: nat): nat { if a <= b then a else b }

  /** How many of the bytes a render tick of `frameCount` frames emits are real
      audio taken from the buffer (the rest is padding). */
  function RealBytes(s: Speaker, frameCount: nat): nat
  {
    Min(|s.buffer|, frameCount * SAMPLE_WIDTH)
  }

  /** What one render tick returns to the audio device, and the state after it. */
  datatype Tick = Tick(chunk: Bytes, after: Speaker)

  /** The speaker callback: the chunk always has exactly `frameCount * 2` bytes; it
      begins with the head of the buffer, which the buffer loses, and is padded with
      zero bytes when the buffer is short. Only a tick that finds enough bytes moves
      the mic re-engage timestamp. */
  function Render(s: Speaker, frameCount: nat, now: int): (t: Tick)
    ensures |t.chunk| == frameCount * SAMPLE_WIDTH
    ensures t.chunk[..RealBytes(s, frameCount)] + t.after.buffer == s.buffer
    ensures forall i :: RealBytes(s, frameCount) <= i < |t.chunk| ==> t.chunk[i] == 0
    ensures |s.buffer| < frameCount * SAMPLE_WIDTH ==> t.after.buffer == []
    ensures t.after.micOnAt == (if |s.buffer| >= frameCount * SAMPLE_WIDTH then now + REENGAGE_DELAY_MS else s.micOnAt)
    ensures t.after.isPlaying == s.isPlaying
  {
    var needed := frameCount * SAMPLE_WIDTH;
    if |s.buffer| >= needed then
      Tick(s.buffer[..needed], s.(buffer := s.buffer[needed..], micOnAt := now + REENGAGE_DELAY_MS))
    else
      Tick(s.buffer + Silence(needed - |s.buffer|), s.(buffer := []))
  }

  /** A decoded `response.audio.delta` payload joins the tail of the buffer. */
  function Append(s: Speaker, audio: Bytes): (r: Speaker)
    ensures |r.buffer| == |s.buffer| + |audio|
    ensures r.buffer[..|s.buffer|] == s.buffer && r.buffer[|s.buffer|..] == audio
    ensures r.micOnAt == s.micOnAt && r.isPlaying == s.isPlaying
  {
    s.(buffer := s.buffer + audio)
  }

  /** `clear_audio_buffer`: the buffer is replaced by an empty one. */
  function ClearBuffer(s: Speaker): (r: Speaker)
    ensures r.buffer == [] && r.micOnAt == s.micOnAt && r.isPlaying == s.isPlaying
  {
    s.(buffer := [])
  }

  /** `stop_audio_playback`: the playing flag becomes False. */
  function StopPlayback(s: Speaker): (r: Speaker)
    ensures r.isPlaying == Some(false) && r.buffer == s.buffer && r.micOnAt == s.micOnAt
  {
    s.(isPlaying := Some(false))
  }

  /** Barge-in (`input_audio_buffer.speech_started`): clear, then stop. */
  function BargeIn(s: Speaker): (r: Speaker)
    ensures r.buffer == [] && r.isPlaying == Some(false)
    ensures r.micOnAt == s.micOnAt
  {
    StopPlayback(ClearBuffer(s))
  }

  /** After a barge-in, whatever the buffer held, the next render tick of any size
      emits only silence of exactly the requested length and leaves the buffer empty. */
  lemma BargeInSilencesNextTick(s: Speaker, frameCount: nat, now: int)
    ensures BargeIn(s).buffer == [] && BargeIn(s).isPlaying == Some(false)
    ensures Render(BargeIn(s), frameCount, now).chunk == Silence(frameCount * SAMPLE_WIDTH)
    ensures Render(BargeIn(s), frameCount, now).after.buffer == []
  {
    var t := Render(BargeIn(s), frameCount, now);
    assert RealBytes(BargeIn(s), frameCount) == 0;
  }

  /** 500 bytes held, 200 needed: the first 200 go out, the other 300 stay. */
  lemma RenderFromFullBuffer(s: Speaker, now: int)
    requires |s.buffer| == 500
    ensures Render(s, 100, now).chunk == s.buffer[..200]
    ensures Render(s, 100, now).after.buffer == s.buffer[200..]
    ensures |Render(s, 100, now).after.buffer| == 300
    ensures Render(s, 100, now).after.micOnAt == now + 500
  {
  }

  /** 100 bytes held, 200 needed: the 100 bytes then 100 zeros; the buffer ends empty
      and the re-engage timestamp is untouched even though real audio was played. */
  lemma RenderFromShortBuffer(s: Speaker, now: int)
    requires |s.buffer| == 100
    ensures Render(s, 100, now).chunk == s.buffer + Silence(100)
    ensures Render(s, 100, now).after.buffer == []
    ensures Render(s, 100, now).after.micOnAt == s.micOnAt
  {
  }

  /** The steps that touch the render side: a delta appended by the receiver, a
      render tick of the speaker callback, a barge-in. */
  datatype Step = Delta(audio: Bytes) | RenderTick(frameCount: nat, now: int) | Interrupt

  function Apply(s: Speaker, st: Step): Speaker
  {
    match st
    case Delta(a) => Append(s, a)
    case RenderTick(n, now) => Render(s, n, now).after
    case Interrupt => BargeIn(s)
  }

  /** The bytes that leave the head of the buffer in one step: real audio that is
      rendered, and buffered audio that a barge-in discards. */
  function RenderedBy(s: Speaker, st: Step): Bytes
  {
    if st.RenderTick? then Render(s, st.frameCount, st.now).chunk[..RealBytes(s, st.frameCount)] else []
  }

  function DiscardedBy(s: Speaker, st: Step): Bytes
  {
    if st.Interrupt? then s.buffer else []
  }

  /** The state after a sequence of steps, applied in order. */
  function Run(s: Speaker, steps: seq<Step>): Speaker
    decreases |steps|
  {
    if steps == [] then s else Apply(Run(s, steps[..|steps| - 1]), steps[|steps| - 1])
  }

  /** Everything appended by the deltas of a trace, in order. */
  function Appended(steps: seq<Step>): Bytes
    decreases |steps|
  {
    if steps == [] then []
    else Appended(steps[..|steps| - 1]) + (if steps[|steps| - 1].Delta? then steps[|steps| - 1].audio else [])
  }

  /** All real bytes rendered over a trace, in order. */
  function Rendered(s: Speaker, steps: seq<Step>): Bytes
    decreases |steps|
  {
    if steps == [] then []
    else Rendered(s, steps[..|steps| - 1]) + RenderedBy(Run(s, steps[..|steps| - 1]), steps[|steps| - 1])
  }

  /** All bytes discarded by barge-ins over a trace, in order. */
  function Discarded(s: Speaker, steps: seq<Step>): Bytes
    decreases |steps|
  {
    if steps == [] then []
    else Discarded(s, steps[..|steps| - 1]) + DiscardedBy(Run(s, steps[..|steps| - 1]), steps[|steps| - 1])
  }

  /** Every byte that left the head of the buffer, rendered or discarded, in the
      order it left. */
  function Drained(s: Speaker, steps: seq<Step>): Bytes
    decreases |steps|
  {
    if steps == [] then []
    else
      var p := steps[..|steps| - 1];
      Drained(s, p) + (RenderedBy(Run(s, p), steps[|steps| - 1]) + DiscardedBy(Run(s, p), steps[|steps| - 1]))
  }

  /** One step keeps the buffer a FIFO: what leaves the head plus what stays is what
      was there plus what the step appended. */
  lemma StepFifo(s: Speaker, st: Step)
    ensures RenderedBy(s, st) + DiscardedBy(s, st) + Apply(s, st).buffer
         == s.buffer + (if st.Delta? then st.audio else [])
  {
    match st
    case Delta(a) =>
    case RenderTick(n, now) =>
    case Interrupt =>
  }

  /** The buffer is a FIFO over any trace of deltas, render ticks and barge-ins: the
      bytes that left its head, followed by the bytes still in it, are exactly the
      bytes it started with followed by every byte appended. */
  lemma {:induction false} Fifo(s: Speaker, steps: seq<Step>)
    ensures Drained(s, steps) + Run(s, steps).buffer == s.buffer + Appended(steps)
    decreases |steps|
  {
    if steps != [] {
      var p, st := steps[..|steps| - 1], steps[|steps| - 1];
      var before := Run(s, p);
      Fifo(s, p);
      StepFifo(before, st);
      var extra := if st.Delta? then st.audio else [];
      var d, out, gone, kept := Drained(s, p), RenderedBy(before, st), DiscardedBy(before, st), Apply(before, st).buffer;
      assert Drained(s, steps) == d + (out + gone);
      assert Run(s, steps).buffer == kept;
      assert Appended(steps) == Appended(p) + extra;
      assert out + gone + kept == before.buffer + extra;
      assert d + before.buffer == s.buffer + Appended(p);
      Regroup(d, out + gone, kept, before.buffer, extra, s.buffer + Appended(p));
    }
  }

  /** Sequence bookkeeping for one step of Fifo. */
  lemma Regroup(d: Bytes, out: Bytes, kept: Bytes, held: Bytes, extra: Bytes, total: Bytes)
    requires out + kept == held + extra
    requires d + held == total
    ensures d + out + kept == total + extra
  {
    calc {
      d + out + kept;
      d + (out + kept);
      d + (held + extra);
      (d + held) + extra;
    }
  }

  /** What leaves the head is split between rendering and discarding, byte for byte. */
  lemma {:induction false} DrainedLength(s: Speaker, steps: seq<Step>)
    ensures |Drained(s, steps)| == |Rendered(s, steps)| + |Discarded(s, steps)|
    decreases |steps|
  {
    if steps != [] {
      DrainedLength(s, steps[..|steps| - 1]);
    }
  }

  /** Conservation: real bytes rendered plus bytes remaining equal the bytes held at
      the start plus the bytes appended, minus the bytes barge-ins discarded. */
  lemma Conservation(s: Speaker, steps: seq<Step>)
    ensures |Rendered(s, steps)| + |Run(s, steps).buffer|
         == |s.buffer| + |Appended(steps)| - |Discarded(s, steps)|
  {
    Fifo(s, steps);
    DrainedLength(s, steps);
  }

  /** Without a barge-in nothing is lost: the rendered audio followed by what remains
      is, byte for byte, what was held followed by what was appended. */
  lemma {:induction false} NoBargeInRendersEverything(s: Speaker, steps: seq<Step>)
    requires forall i :: 0 <= i < |steps| ==> !steps[i].Interrupt?
    ensures Discarded(s, steps) == []
    ensures Rendered(s, steps) + Run(s, steps).buffer == s.buffer + Appended(steps)
  {
    NothingDiscarded(s, steps);
    Fifo(s, steps);
  }

  lemma {:induction false} NothingDiscarded(s: Speaker, steps: seq<Step>)
    requires forall i :: 0 <= i < |steps| ==> !steps[i].Interrupt?
    ensures Discarded(s, steps) == [] && Drained(s, steps) == Rendered(s, steps)
    decreases |steps|
  {
    if steps != [] {
      NothingDiscarded(s, steps[..|steps| - 1]);
    }
  }

  /** Only a full render tick writes the re-engage timestamp, and it writes now + 500 ms;
      an underrun tick leaves it alone even when it plays some real bytes. */
  lemma MicOnAtWrittenOnlyByFullTick(s: Speaker, st: Step)
    ensures Apply(s, st).micOnAt != s.micOnAt ==>
              st.RenderTick? && |s.buffer| >= st.frameCount * SAMPLE_WIDTH
    ensures st.RenderTick? && |s.buffer| >= st.frameCount * SAMPLE_WIDTH ==>
              Apply(s, st).micOnAt == st.now + REENGAGE_DELAY_MS
  {
  }
}
