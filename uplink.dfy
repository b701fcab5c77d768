/** The mic uplink: the capture callback puts each chunk on an unbounded FIFO queue,
    and the sender thread takes one chunk per loop iteration and sends it,
    base64-encoded, as an `input_audio_buffer.append` message. Nothing gates the
    chunks: the mic re-engage timestamp is never consulted. */
module Uplink {
  import opened Wire

  /** The queue between the two, and the socket the sender writes to. */
  datatype Uplink = Uplink(queue: seq<Bytes>, link: Link)

  /** `mic_callback`: the captured chunk joins the tail of the queue. */
  function Capture(u: Uplink, chunk: Bytes): (r: Uplink)
    ensures |r.queue| == |u.queue| + 1
    ensures r.queue[..|u.queue|] == u.queue && r.queue[|u.queue|] == chunk
    ensures r.link == u.link
  {
    u.(queue := u.queue + [chunk])
  }

  /** The message a chunk travels in. */
  function AppendOf(chunk: Bytes, env: Env): Outgoing
  {
    AudioAppend(env.b64encode(chunk))
  }

  /** One iteration of `send_mic_audio_to_websocket`: with an empty queue nothing
      happens; otherwise the head chunk leaves the queue and one send of it is
      attempted. A refused send loses the chunk and the loop goes on. */
  function Pump(u: Uplink, env: Env): (r: Uplink)
    ensures u.queue == [] ==> r == u
    ensures u.queue != [] ==> r.queue == u.queue[1..] && r.link.attempts == u.link.attempts + 1
    ensures u.queue != [] ==> r.link.sent == u.link.sent + (if env.refuses(u.link.attempts) then [] else [AppendOf(u.queue[0], env)])
  {
    if u.queue == [] then u
    else Uplink(u.queue[1..], Send(u.link, AppendOf(u.queue[0], env), env.refuses).0)
  }

  /** A message the receiver thread sends on the same socket between sender
      iterations: the session configuration, a call output or `response.create`.
      The receiver never sends audio (the contract of `Receiver.Receive` says so). */
  type ReceiverMessage = m: Outgoing | !m.AudioAppend? witness SessionUpdate

  /** The steps that touch the queue or the shared socket, interleaved in some order:
      a capture, a sender iteration, or one send by the receiver thread. */
  datatype MicStep = Captured(chunk: Bytes) | Pumped | Foreign(m: ReceiverMessage)

  function MicRun(u: Uplink, trace: seq<MicStep>, env: Env): Uplink
    decreases |trace|
  {
    if trace == [] then u
    else
      var v := MicRun(u, trace[..|trace| - 1], env);
      match trace[|trace| - 1]
      case Captured(c) => Capture(v, c)
      case Pumped => Pump(v, env)
      case Foreign(m) => v.(link := Send(v.link, m, env.refuses).0)
  }

  /** The chunks captured in a trace, in order. */
  function CapturedChunks(trace: seq<MicStep>): seq<Bytes>
    decreases |trace|
  {
    if trace == [] then []
    else
      var p := CapturedChunks(trace[..|trace| - 1]);
      match trace[|trace| - 1]
      case Captured(c) => p + [c]
      case Pumped => p
      case Foreign(_) => p
  }

  function AppendsOf(chunks: seq<Bytes>, env: Env): (ms: seq<Outgoing>)
    ensures |ms| == |chunks|
    ensures forall i :: 0 <= i < |chunks| ==> ms[i] == AppendOf(chunks[i], env)
  {
    seq(|chunks|, i requires 0 <= i < |chunks| => AppendOf(chunks[i], env))
  }

  /** The `input_audio_buffer.append` messages among `msgs`, in order. */
  function AudioOf(msgs: seq<Outgoing>): (a: seq<Outgoing>)
    ensures |a| <= |msgs|
    ensures forall m :: m in a ==> m in msgs && m.AudioAppend?
    decreases |msgs|
  {
    if msgs == [] then []
    else AudioOf(msgs[..|msgs| - 1]) + (if msgs[|msgs| - 1].AudioAppend? then [msgs[|msgs| - 1]] else [])
  }

  lemma AudioOfSnoc(msgs: seq<Outgoing>, m: Outgoing)
    ensures AudioOf(msgs + [m]) == AudioOf(msgs) + (if m.AudioAppend? then [m] else [])
  {
    assert (msgs + [m])[..|msgs|] == msgs;
  }

  /** A socket on which no send attempt raises. */
  ghost predicate Reliable(env: Env)
  {
    forall k :: !env.refuses(k)
  }

  /** The elements of `msgs` whose flag in `ok` is set, in order. */
  function Kept(msgs: seq<Outgoing>, ok: seq<bool>): (k: seq<Outgoing>)
    requires |ok| == |msgs|
    ensures |k| <= |msgs|
    decreases |msgs|
  {
    if msgs == [] then []
    else Kept(msgs[..|msgs| - 1], ok[..|ok| - 1]) + (if ok[|ok| - 1] then [msgs[|msgs| - 1]] else [])
  }

  lemma KeptSnoc(msgs: seq<Outgoing>, ok: seq<bool>, m: Outgoing, b: bool)
    requires |ok| == |msgs|
    ensures Kept(msgs + [m], ok + [b]) == Kept(msgs, ok) + (if b then [m] else [])
  {
    assert (msgs + [m])[..|msgs|] == msgs;
    assert (ok + [b])[..|ok|] == ok;
  }

  /** With every flag set, everything is kept. */
  lemma {:induction false} KeptAll(msgs: seq<Outgoing>, ok: seq<bool>)
    requires |ok| == |msgs| && forall i :: 0 <= i < |ok| ==> ok[i]
    ensures Kept(msgs, ok) == msgs
    decreases |msgs|
  {
    if msgs != [] {
      KeptAll(msgs[..|msgs| - 1], ok[..|ok| - 1]);
      assert msgs[..|msgs| - 1] + [msgs[|msgs| - 1]] == msgs;
    }
  }

  /** Whether each of the given send attempts went through. */
  function Outcomes(tries: seq<nat>, env: Env): (ok: seq<bool>)
    ensures |ok| == |tries|
    ensures forall i :: 0 <= i < |tries| ==> ok[i] == !env.refuses(tries[i])
  {
    seq(|tries|, i requires 0 <= i < |tries| => !env.refuses(tries[i]))
  }

  /** The attempt numbers of the sender's sends in a trace: one per chunk taken, in
      the order the chunks were taken. */
  function Tries(u: Uplink, trace: seq<MicStep>, env: Env): seq<nat>
    decreases |trace|
  {
    if trace == [] then []
    else
      var init := trace[..|trace| - 1];
      var v := MicRun(u, init, env);
      if trace[|trace| - 1].Pumped? && v.queue != [] then Tries(u, init, env) + [v.link.attempts]
      else Tries(u, init, env)
  }

  /** Chunks were taken from `all`, the chunks queued in total: the first p of them,
      where `queue` holds the rest in order. Each chunk taken had a send attempt of its
      own, numbered in `tries` in increasing order within the attempts made between
      `from` and `to`. The audio messages the socket holds now (`after`) are those it
      held at the start (`before`) followed by exactly the messages of the chunks taken
      whose own attempt did not raise, in capture order. */
  ghost predicate Taken(before: seq<Outgoing>, after: seq<Outgoing>, from: nat, to: nat,
                        queue: seq<Bytes>, all: seq<Bytes>, tries: seq<nat>, env: Env)
  {
    var p := |all| - |queue|;
    0 <= p && queue == all[p..] && |tries| == p && from <= to
    && (forall i :: 0 <= i < |tries| ==> from <= tries[i] < to)
    && (forall i, j :: 0 <= i < j < |tries| ==> tries[i] < tries[j])
    && after == before + Kept(AppendsOf(all[..p], env), Outcomes(tries, env))
  }

  /** `r` is `u` after chunks were taken in order from `all`, with send attempts
      `tries`. Whatever else the receiver sent in between is not audio and does not
      disturb that order. */
  ghost predicate TakenInOrder(u: Uplink, r: Uplink, all: seq<Bytes>, tries: seq<nat>, env: Env)
  {
    Taken(AudioOf(u.link.sent), AudioOf(r.link.sent), u.link.attempts, r.link.attempts, r.queue, all, tries, env)
  }

  /** The queue is a FIFO over any interleaving of captures, sender iterations and
      receiver sends on the shared socket: the socket's new audio messages are the
      messages of the chunks taken whose send went through, in capture order. */
  lemma {:induction false} MicFifo(u: Uplink, trace: seq<MicStep>, env: Env)
    ensures TakenInOrder(u, MicRun(u, trace, env), u.queue + CapturedChunks(trace), Tries(u, trace, env), env)
    decreases |trace|
  {
    if trace == [] {
      assert u.queue + [] == u.queue;
      assert AudioOf(u.link.sent) + [] == AudioOf(u.link.sent);
    } else {
      var init := trace[..|trace| - 1];
      MicFifo(u, init, env);
      var v := MicRun(u, init, env);
      var all0 := u.queue + CapturedChunks(init);
      var t0 := Tries(u, init, env);
      match trace[|trace| - 1]
      case Captured(c) =>
        assert u.queue + CapturedChunks(trace) == all0 + [c];
        CaptureKeepsOrder(u, v, all0, t0, c, env);
      case Pumped =>
        assert u.queue + CapturedChunks(trace) == all0;
        PumpKeepsOrder(u, v, all0, t0, env);
      case Foreign(m) =>
        assert u.queue + CapturedChunks(trace) == all0;
        ForeignKeepsOrder(u, v, all0, t0, m, env);
    }
  }

  lemma CaptureKeepsOrder(u: Uplink, v: Uplink, all: seq<Bytes>, tries: seq<nat>, c: Bytes, env: Env)
    requires TakenInOrder(u, v, all, tries, env)
    ensures TakenInOrder(u, Capture(v, c), all + [c], tries, env)
  {
    var p := |all| - |v.queue|;
    assert (all + [c])[p..] == all[p..] + [c];
    assert (all + [c])[..p] == all[..p];
  }

  /** A receiver send adds no audio message, so the order of the chunks is kept. */
  lemma ForeignKeepsOrder(u: Uplink, v: Uplink, all: seq<Bytes>, tries: seq<nat>, m: ReceiverMessage, env: Env)
    requires TakenInOrder(u, v, all, tries, env)
    ensures TakenInOrder(u, v.(link := Send(v.link, m, env.refuses).0), all, tries, env)
  {
    AudioOfSnoc(v.link.sent, m);
    var w := v.(link := Send(v.link, m, env.refuses).0);
    assert AudioOf(w.link.sent) == AudioOf(v.link.sent);
    assert w.queue == v.queue && w.link.attempts == v.link.attempts + 1;
  }

  /** A sender iteration takes the next chunk in capture order with the next attempt;
      its message follows the earlier ones exactly when that attempt does not raise. */
  lemma PumpKeepsOrder(u: Uplink, v: Uplink, all: seq<Bytes>, tries: seq<nat>, env: Env)
    requires TakenInOrder(u, v, all, tries, env)
    ensures TakenInOrder(u, Pump(v, env), all, if v.queue != [] then tries + [v.link.attempts] else tries, env)
  {
    if v.queue != [] {
      var r := Pump(v, env);
      var a := AppendOf(v.queue[0], env);
      var d := if env.refuses(v.link.attempts) then [] else [a];
      assert r.link.sent == v.link.sent + d;
      AudioOfSnoc(v.link.sent, a);
      assert AudioOf(v.link.sent + d) == AudioOf(v.link.sent) + d;
      assert r.queue == v.queue[1..] && r.link.attempts == v.link.attempts + 1;
      TakeNext(AudioOf(u.link.sent), AudioOf(v.link.sent), u.link.attempts, v.link.attempts, v.queue, all, tries, env);
    }
  }

  /** Taking the head chunk with attempt number `to`. */
  lemma TakeNext(before: seq<Outgoing>, after: seq<Outgoing>, from: nat, to: nat,
                 queue: seq<Bytes>, all: seq<Bytes>, tries: seq<nat>, env: Env)
    requires Taken(before, after, from, to, queue, all, tries, env) && queue != []
    ensures Taken(before, after + (if env.refuses(to) then [] else [AppendOf(queue[0], env)]),
                  from, to + 1, queue[1..], all, tries + [to], env)
  {
    var p := |all| - |queue|;
    var kept := Kept(AppendsOf(all[..p], env), Outcomes(tries, env));
    var d := if env.refuses(to) then [] else [AppendOf(all[p], env)];
    assert queue[0] == all[p];
    assert queue[1..] == all[p + 1..] by {
      assert all[p..][1..] == all[p + 1..];
    }
    TriesExtend(from, to, tries);
    KeptNext(all, p, tries, to, env);
    assert (before + kept) + d == before + (kept + d);
  }

  /** A new attempt number `to` keeps the attempt numbers increasing and within range. */
  lemma TriesExtend(from: nat, to: nat, tries: seq<nat>)
    requires from <= to
    requires forall i :: 0 <= i < |tries| ==> from <= tries[i] < to
    requires forall i, j :: 0 <= i < j < |tries| ==> tries[i] < tries[j]
    ensures forall i :: 0 <= i < |tries + [to]| ==> from <= (tries + [to])[i] < to + 1
    ensures forall i, j :: 0 <= i < j < |tries + [to]| ==> (tries + [to])[i] < (tries + [to])[j]
  {
  }

  /** The next chunk's message is kept exactly when its attempt does not raise. */
  lemma KeptNext(all: seq<Bytes>, p: nat, tries: seq<nat>, to: nat, env: Env)
    requires p < |all| && |tries| == p
    ensures Kept(AppendsOf(all[..p + 1], env), Outcomes(tries + [to], env))
         == Kept(AppendsOf(all[..p], env), Outcomes(tries, env))
            + (if env.refuses(to) then [] else [AppendOf(all[p], env)])
  {
    assert AppendsOf(all[..p + 1], env) == AppendsOf(all[..p], env) + [AppendOf(all[p], env)];
    assert Outcomes(tries + [to], env) == Outcomes(tries, env) + [!env.refuses(to)];
    KeptSnoc(AppendsOf(all[..p], env), Outcomes(tries, env), AppendOf(all[p], env), !env.refuses(to));
  }

  /** Nothing gates the mic and nothing the receiver sends gets in the way: over a
      socket that accepts every send, the audio messages it receives are exactly the
      messages of the chunks taken from the queue, in capture order. */
  lemma NoChunkDropped(u: Uplink, trace: seq<MicStep>, env: Env)
    requires Reliable(env)
    ensures var r := MicRun(u, trace, env);
            var all := u.queue + CapturedChunks(trace);
            var p := |all| - |r.queue|;
            0 <= p <= |all| && r.queue == all[p..]
            && AudioOf(r.link.sent) == AudioOf(u.link.sent) + AppendsOf(all[..p], env)
  {
    MicFifo(u, trace, env);
    var r := MicRun(u, trace, env);
    TakenReliable(AudioOf(u.link.sent), AudioOf(r.link.sent), u.link.attempts, r.link.attempts,
                  r.queue, u.queue + CapturedChunks(trace), Tries(u, trace, env), env);
  }

  lemma TakenReliable(before: seq<Outgoing>, after: seq<Outgoing>, from: nat, to: nat,
                      queue: seq<Bytes>, all: seq<Bytes>, tries: seq<nat>, env: Env)
    requires Taken(before, after, from, to, queue, all, tries, env) && Reliable(env)
    ensures after == before + AppendsOf(all[..|all| - |queue|], env)
  {
    var ok := Outcomes(tries, env);
    assert forall i :: 0 <= i < |ok| ==> ok[i];
    KeptAll(AppendsOf(all[..|all| - |queue|], env), ok);
  }

  /** Whatever the socket refuses, no more audio messages arrive than chunks were
      taken: a chunk is never sent twice. */
  lemma NoChunkSentTwice(u: Uplink, trace: seq<MicStep>, env: Env)
    ensures var r := MicRun(u, trace, env);
            var all := u.queue + CapturedChunks(trace);
            |AudioOf(r.link.sent)| <= |AudioOf(u.link.sent)| + (|all| - |r.queue|)
  {
    MicFifo(u, trace, env);
  }

  /** A capture, then the receiver's session configuration, then one sender iteration,
      over a socket that accepts everything: the configuration goes first and the
      chunk's message after it. */
  lemma ReceiverSendBetweenIterations(c: Bytes, env: Env)
    requires Reliable(env)
    ensures var u := Uplink([], Link([], 0));
            var r := MicRun(u, [Captured(c), Foreign(SessionUpdate), Pumped], env);
            r.queue == [] && r.link.sent == [SessionUpdate, AppendOf(c, env)]
            && AudioOf(r.link.sent) == [AppendOf(c, env)]
  {
    var u := Uplink([], Link([], 0));
    var t := [Captured(c), Foreign(SessionUpdate), Pumped];
    assert t[..2] == [Captured(c), Foreign(SessionUpdate)];
    assert t[..2][..1] == [Captured(c)];
    assert [Captured(c)][..0] == [];
    assert MicRun(u, [], env) == u;
    var v1 := MicRun(u, [Captured(c)], env);
    assert v1 == Capture(MicRun(u, [], env), c);
    assert v1 == Uplink([c], Link([], 0));
    var v2 := MicRun(u, t[..2], env);
    assert v2 == Uplink([c], Link([SessionUpdate], 1));
    var r := MicRun(u, t, env);
    assert r == Uplink([], Link([SessionUpdate, AppendOf(c, env)], 2));
    AudioOfSnoc([], SessionUpdate);
    AudioOfSnoc([SessionUpdate], AppendOf(c, env));
    assert [SessionUpdate] + [AppendOf(c, env)] == [SessionUpdate, AppendOf(c, env)];
  }
}
