/**
 * The browser client's state (public/app.js): per agent a chat history, an
 * input line, a FIFO queue of audio chunks and a playback horizon (the time at
 * which the agent's stream is next free). Incoming relay messages enqueue
 * audio, a playback step schedules the head chunk at `max(now, horizon)`, and
 * the send handler forwards trimmed input. Each chunk is kept as its decoded
 * binary string; `now` is the audio clock reading of that step.
 */
module Playback {
  import opened Wrappers
  import JsText
  import AudioCodec

  const Agent1 := "agent1"
  const Agent2 := "agent2"
  const Agents: set<string> := {Agent1, Agent2}
  const UserSender := "user"
  const Finished := "finished"

  datatype ChatMessage = ChatMessage(text: string, sender: string)

  /** The four per-agent state maps of the component. */
  datatype ClientState = ClientState(
    messages: map<string, seq<ChatMessage>>,
    input: map<string, string>,
    audioQueues: map<string, seq<string>>,
    playTimes: map<string, real>)

  /**
   * Every map has an entry for each of the two agents, horizons are clock times
   * (non-negative), and every queued chunk is a non-empty string (only truthy
   * `audio` is ever enqueued).
   */
  predicate Valid(s: ClientState)
  {
    && Agents <= s.messages.Keys && Agents <= s.input.Keys
    && Agents <= s.audioQueues.Keys && Agents <= s.playTimes.Keys
    && (forall a | a in s.playTimes :: s.playTimes[a] >= 0.0)
    && (forall a | a in s.audioQueues :: NonEmptyChunks(s.audioQueues[a]))
  }

  predicate NonEmptyChunks(queue: seq<string>)
  {
    "" !in queue
  }

  /** The `useState` initialisers: empty histories, inputs and queues, horizons at 0. */
  function InitialState(): (s: ClientState)
    ensures Valid(s)
    ensures s.messages.Keys == s.input.Keys == s.audioQueues.Keys == s.playTimes.Keys == Agents
    ensures forall a | a in Agents ::
              s.messages[a] == [] && s.input[a] == "" && s.audioQueues[a] == [] && s.playTimes[a] == 0.0
  {
    ClientState(
      map[Agent1 := [], Agent2 := []],
      map[Agent1 := "", Agent2 := ""],
      map[Agent1 := [], Agent2 := []],
      map[Agent1 := 0.0, Agent2 := 0.0])
  }

  /**
   * A relay message after `JSON.parse`; each field is the empty string when
   * it is absent or falsy.
   */
  datatype Incoming = Incoming(agentId: string, audio: string, status: string, error: string)

  /** The message would reach the enqueue branch of the dispatcher. */
  predicate Enqueues(data: Incoming)
  {
    data.error == "" && data.status != Finished && data.audio != ""
  }

  /**
   * `ws.onmessage`: an error is only logged, a `finished` status is only
   * logged (and is tested before `audio`), otherwise truthy audio is appended
   * to the end of that agent's queue. No horizon, history or input changes,
   * and no other agent's queue changes.
   */
  function OnMessage(s: ClientState, data: Incoming): (r: ClientState)
    requires Valid(s)
    requires Enqueues(data) ==> data.agentId in Agents
    ensures Valid(r)
    ensures r.messages == s.messages && r.input == s.input && r.playTimes == s.playTimes
    ensures !Enqueues(data) ==> r == s
    ensures Enqueues(data) ==>
              r.audioQueues == s.audioQueues[data.agentId := s.audioQueues[data.agentId] + [data.audio]]
    ensures forall a | a in Agents && a != data.agentId :: r.audioQueues[a] == s.audioQueues[a]
  {
    if data.error != "" then s
    else if data.status == Finished then s
    else if data.audio != "" then
      s.(audioQueues := s.audioQueues[data.agentId := s.audioQueues[data.agentId] + [data.audio]])
    else s
  }

  /** `source.start(start)` of a buffer lasting `duration` seconds, for one agent. */
  datatype Started = Started(agentId: string, start: real, duration: real)

  /** A playback step: the new state and the buffer it started, if any. */
  datatype Step = Step(state: ClientState, started: Option<Started>)

  function Max(x: real, y: real): real
  {
    if x >= y then x else y
  }

  /**
   * The scheduling part of `playAudio`: the head chunk starts at the later of
   * the clock and the agent's horizon, the horizon moves to the end of that
   * chunk, and the head is dropped; nothing else changes.
   */
  function Schedule(s: ClientState, agentId: string, now: real, duration: real): (r: Step)
    requires Valid(s) && agentId in Agents && s.audioQueues[agentId] != []
    requires now >= 0.0 && duration >= 0.0
    ensures Valid(r.state)
    ensures r.started.Some?
    ensures r.started.value.agentId == agentId && r.started.value.duration == duration
    ensures var start, horizon := r.started.value.start, s.playTimes[agentId];
      && start >= now && start >= horizon && (start == now || start == horizon)
      && r.state.playTimes == s.playTimes[agentId := start + duration]
    ensures r.state.audioQueues == s.audioQueues[agentId := s.audioQueues[agentId][1..]]
    ensures r.state.messages == s.messages && r.state.input == s.input
  {
    var playTime := Max(now, s.playTimes[agentId]);
    Step(
      s.(playTimes := s.playTimes[agentId := playTime + duration],
         audioQueues := s.audioQueues[agentId := s.audioQueues[agentId][1..]]),
      Some(Started(agentId, playTime, duration)))
  }

  /** The number of samples in a chunk: two bytes each. */
  function ChunkSamples(chunk: string): nat
  {
    |chunk| / 2
  }

  /** How long a chunk plays: its sample count at 44100 samples per second. */
  function ChunkDuration(chunk: string): (d: real)
    ensures d >= 0.0
  {
    ChunkSamples(chunk) as real / AudioCodec.SampleRate as real
  }

  /**
   * `playAudio` as written: the buffer length passed to the sample loop and
   * to `createBuffer` is the byte count, so the loop reads two bytes per byte.
   * When the loop throws, the async function rejects before any state update.
   */
  function PlayAudioAsWritten(s: ClientState, agentId: string, now: real): (r: Result<Step, AudioCodec.DecodeError>)
    requires Valid(s) && agentId in Agents && now >= 0.0
    ensures s.audioQueues[agentId] == [] ==> r == Success(Step(s, None))
    ensures s.audioQueues[agentId] != [] ==>
              r == Failure(AudioCodec.RangeError(|s.audioQueues[agentId][0]| / 2))
  {
    var queue := s.audioQueues[agentId];
    if queue == [] then Success(Step(s, None))
    else
      var bytes := AudioCodec.CharCodes(queue[0]);
      var length: nat := |bytes|;
      match AudioCodec.DecodeOutcome(bytes, length)
      case Failure(e) => Failure(e)
      // Queued chunks are never empty, so reading `length` samples from
      // `length` bytes always runs past the end.
      case Success(_) => assert false; Failure(AudioCodec.RangeError(length))
  }

  /**
   * The playback step with the sample count as the buffer length: an empty
   * queue does nothing; otherwise the head chunk decodes in full and is
   * scheduled with its true duration.
   */
  function PlayAudio(s: ClientState, agentId: string, now: real): (r: Step)
    requires Valid(s) && agentId in Agents && now >= 0.0
    ensures Valid(r.state)
    ensures s.audioQueues[agentId] == [] ==> r == Step(s, None)
    ensures s.audioQueues[agentId] != [] ==>
              r == Schedule(s, agentId, now, ChunkDuration(s.audioQueues[agentId][0]))
  {
    var queue := s.audioQueues[agentId];
    if queue == [] then Step(s, None)
    else Schedule(s, agentId, now, |DecodeChunk(queue[0])| as real / AudioCodec.SampleRate as real)
  }

  /**
   * The buffer `playAudio` fills for a chunk when the sample count is the
   * length: the sample loop runs to completion over every whole sample.
   */
  function DecodeChunk(chunk: string): (samples: seq<real>)
    ensures |samples| == ChunkSamples(chunk)
    ensures AudioCodec.DecodeOutcome(AudioCodec.CharCodes(chunk), |samples|) == Success(samples)
    ensures forall i | 0 <= i < |samples| :: -1.0 <= samples[i] < 1.0
  {
    var bytes := AudioCodec.CharCodes(chunk);
    AudioCodec.DecodeOutcome(bytes, |bytes| / 2).value
  }

  /**
   * One run of the playback effect: `agents.forEach` runs the step of
   * `agent1`, then that of `agent2`, each at its own clock reading. Each
   * agent's queue and horizon move exactly as its own step says, whatever the
   * other agent's step does.
   */
  function PlaybackEffect(s: ClientState, now1: real, now2: real): (r: ClientState)
    requires Valid(s) && now1 >= 0.0 && now2 >= 0.0
    ensures Valid(r)
    ensures r.messages == s.messages && r.input == s.input
    ensures r.audioQueues == s.audioQueues[Agent1 := NextQueue(s.audioQueues[Agent1])]
                                          [Agent2 := NextQueue(s.audioQueues[Agent2])]
    ensures r.playTimes == s.playTimes[Agent1 := NextHorizon(s.audioQueues[Agent1], s.playTimes[Agent1], now1)]
                                      [Agent2 := NextHorizon(s.audioQueues[Agent2], s.playTimes[Agent2], now2)]
  {
    var first := PlayAudio(s, Agent1, now1).state;
    PlayAudioFrame(s, Agent1, now1);
    PlayAudioFrame(first, Agent2, now2);
    assert Agent1 != Agent2 by { assert Agent1[5] != Agent2[5]; }
    PlayAudio(first, Agent2, now2).state
  }

  /**
   * A chunk holding one silent sample (two zero bytes) reaches the queue of
   * `agent1`. As written, the step throws at sample 1 and the chunk stays at
   * the head of the queue; with the sample count as the length it starts at
   * once and lasts one sample period.
   */
  lemma SilentSampleNeverPlays()
    ensures var s := OnMessage(InitialState(), Incoming(Agent1, "\0\0", "", ""));
      && s.audioQueues[Agent1] == ["\0\0"]
      && PlayAudioAsWritten(s, Agent1, 0.0) == Failure(AudioCodec.RangeError(1))
      && PlayAudio(s, Agent1, 0.0).started == Some(Started(Agent1, 0.0, 1.0 / 44100.0))
      && PlayAudio(s, Agent1, 0.0).state.audioQueues[Agent1] == []
  {
    var s := OnMessage(InitialState(), Incoming(Agent1, "\0\0", "", ""));
    assert s.audioQueues[Agent1] == ["\0\0"];
    assert ChunkSamples("\0\0") == 1;
  }

  /**
   * The buffer `createAudioBuffer` would fill if only its loop stopped at the
   * sample count: `new Float32Array(length)` and `createBuffer(1, length, 44100)`
   * still take the byte count, so the decoded samples are followed by zeros.
   */
  function LoopFixedBuffer(chunk: string): (frames: seq<real>)
    ensures |frames| == |chunk|
    ensures frames[..ChunkSamples(chunk)] == DecodeChunk(chunk)
    ensures forall i | ChunkSamples(chunk) <= i < |frames| :: frames[i] == 0.0
  {
    DecodeChunk(chunk) + seq(|chunk| - ChunkSamples(chunk), _ => 0.0)
  }

  /**
   * The playback step with only the loop bound fixed: the head chunk decodes,
   * and the horizon advances by the duration of the byte-count-long buffer.
   */
  function PlayAudioLoopFixed(s: ClientState, agentId: string, now: real): (r: Step)
    requires Valid(s) && agentId in Agents && now >= 0.0
    ensures Valid(r.state)
    ensures s.audioQueues[agentId] == [] ==> r == Step(s, None)
    ensures s.audioQueues[agentId] != [] ==>
              r == Schedule(s, agentId, now, |s.audioQueues[agentId][0]| as real / AudioCodec.SampleRate as real)
  {
    var queue := s.audioQueues[agentId];
    if queue == [] then Step(s, None)
    else Schedule(s, agentId, now, |LoopFixedBuffer(queue[0])| as real / AudioCodec.SampleRate as real)
  }

  /**
   * Two chunks of one agent, the second played while the clock is still at
   * or before the first start. With only the loop bound fixed, the second
   * starts one full chunk duration after the first chunk's audio has ended
   * (the first buffer's zero tail); with the sample count as the length it
   * starts exactly when that audio ends.
   */
  lemma LoopFixedLeavesGap(s: ClientState, agentId: string, now1: real, now2: real)
    requires Valid(s) && agentId in Agents && now1 >= 0.0 && now2 >= 0.0
    requires |s.audioQueues[agentId]| >= 2 && |s.audioQueues[agentId][0]| % 2 == 0
    requires now2 <= Max(now1, s.playTimes[agentId])
    ensures PlayAudioLoopFixed(s, agentId, now1).started.Some?
    ensures PlayAudio(s, agentId, now1).started.Some?
    ensures var first := PlayAudioLoopFixed(s, agentId, now1);
      var second := PlayAudioLoopFixed(first.state, agentId, now2);
      var c1 := s.audioQueues[agentId][0];
      && second.started.Some?
      && second.started.value.start == first.started.value.start + ChunkDuration(c1) + ChunkDuration(c1)
    ensures var first := PlayAudio(s, agentId, now1);
      var second := PlayAudio(first.state, agentId, now2);
      var c1 := s.audioQueues[agentId][0];
      && second.started.Some?
      && second.started.value.start == first.started.value.start + ChunkDuration(c1)
  {
    var c1 := s.audioQueues[agentId][0];
    var start := Max(now1, s.playTimes[agentId]);
    assert |c1| == 2 * ChunkSamples(c1);
    assert |c1| as real / AudioCodec.SampleRate as real == 2.0 * ChunkDuration(c1);
    var first := PlayAudioLoopFixed(s, agentId, now1);
    assert first.state.playTimes[agentId] == start + 2.0 * ChunkDuration(c1);
    assert first.state.audioQueues[agentId] == s.audioQueues[agentId][1..];
    var fixed := PlayAudio(s, agentId, now1);
    assert fixed.state.playTimes[agentId] == start + ChunkDuration(c1);
    assert fixed.state.audioQueues[agentId] == s.audioQueues[agentId][1..];
  }

  /**
   * Each step creates a fresh `AudioContext`, so the clock it reads is 0,
   * while the horizon is never reset. After chunk `c1` has been played, a
   * `finished` status, and a new utterance's chunk `c2`, that chunk starts
   * `c1`'s duration into a fresh clock: it waits for all earlier audio again.
   */
  lemma FreshClockDelaysNextUtterance(c1: string, c2: string)
    requires c1 != "" && c2 != ""
    ensures var s1 := OnMessage(InitialState(), Incoming(Agent1, c1, "", ""));
      var s2 := PlayAudio(s1, Agent1, 0.0).state;
      var s3 := OnMessage(OnMessage(s2, Incoming(Agent1, "", Finished, "")), Incoming(Agent1, c2, "", ""));
      PlayAudio(s3, Agent1, 0.0).started == Some(Started(Agent1, ChunkDuration(c1), ChunkDuration(c2)))
  {
    var s1 := OnMessage(InitialState(), Incoming(Agent1, c1, "", ""));
    assert s1.audioQueues[Agent1] == [c1];
    var s2 := PlayAudio(s1, Agent1, 0.0).state;
    assert s2.audioQueues[Agent1] == [] && s2.playTimes[Agent1] == ChunkDuration(c1);
    var s3 := OnMessage(OnMessage(s2, Incoming(Agent1, "", Finished, "")), Incoming(Agent1, c2, "", ""));
    assert s3.audioQueues[Agent1] == [c2] && s3.playTimes[Agent1] == ChunkDuration(c1);
  }

  /**
   * The same events read on one shared clock: once the clock has passed the
   * end of `c1`, the next utterance's chunk starts at once.
   */
  lemma SharedClockStartsNextUtterance(c1: string, c2: string, t: real)
    requires c1 != "" && c2 != "" && t >= ChunkDuration(c1)
    ensures var s1 := OnMessage(InitialState(), Incoming(Agent1, c1, "", ""));
      var s2 := PlayAudio(s1, Agent1, 0.0).state;
      var s3 := OnMessage(OnMessage(s2, Incoming(Agent1, "", Finished, "")), Incoming(Agent1, c2, "", ""));
      PlayAudio(s3, Agent1, t).started == Some(Started(Agent1, t, ChunkDuration(c2)))
  {
    var s1 := OnMessage(InitialState(), Incoming(Agent1, c1, "", ""));
    assert s1.audioQueues[Agent1] == [c1];
    var s2 := PlayAudio(s1, Agent1, 0.0).state;
    assert s2.audioQueues[Agent1] == [] && s2.playTimes[Agent1] == ChunkDuration(c1);
    var s3 := OnMessage(OnMessage(s2, Incoming(Agent1, "", Finished, "")), Incoming(Agent1, c2, "", ""));
    assert s3.audioQueues[Agent1] == [c2] && s3.playTimes[Agent1] == ChunkDuration(c1);
  }

  datatype ReadyState = Connecting | Open | Closing | Closed

  /** The `{agentId, text}` frame the client sends. */
  datatype OutgoingRequest = OutgoingRequest(agentId: string, text: string)

  datatype SendResult = SendResult(state: ClientState, sent: Option<OutgoingRequest>)

  /**
   * `handleSend`: nothing happens without an open socket or with blank input.
   * Otherwise the trimmed text (non-empty, no surrounding whitespace) is sent
   * for the agent, appended to that agent's history as a user message, and
   * only that agent's input is cleared.
   */
  function HandleSend(s: ClientState, websocket: Option<ReadyState>, agentId: string): (r: SendResult)
    requires Valid(s) && agentId in Agents
    ensures Valid(r.state)
    ensures websocket != Some(Open) || JsText.AllWhitespace(s.input[agentId]) ==> r == SendResult(s, None)
    ensures websocket == Some(Open) && !JsText.AllWhitespace(s.input[agentId]) ==>
              var text := JsText.Trim(s.input[agentId]);
              && text != ""
              && !JsText.IsJsWhitespace(text[0]) && !JsText.IsJsWhitespace(text[|text| - 1])
              && r.sent == Some(OutgoingRequest(agentId, text))
              && r.state.messages == s.messages[agentId := s.messages[agentId] + [ChatMessage(text, UserSender)]]
              && r.state.input == s.input[agentId := ""]
              && r.state.audioQueues == s.audioQueues && r.state.playTimes == s.playTimes
  {
    if websocket != Some(Open) then SendResult(s, None)
    else
      var text := JsText.Trim(s.input[agentId]);
      if text == "" then SendResult(s, None)
      else
        SendResult(
          s.(messages := s.messages[agentId := s.messages[agentId] + [ChatMessage(text, UserSender)]],
             input := s.input[agentId := ""]),
          Some(OutgoingRequest(agentId, text)))
  }

  /** The `onChange` of an agent's input box. */
  function EditInput(s: ClientState, agentId: string, value: string): (r: ClientState)
    requires Valid(s) && agentId in Agents
    ensures Valid(r)
    ensures r.input[agentId] == value
    ensures forall a | a in s.input && a != agentId :: a in r.input && r.input[a] == s.input[a]
    ensures r.messages == s.messages && r.audioQueues == s.audioQueues && r.playTimes == s.playTimes
  {
    s.(input := s.input[agentId := value])
  }

  /** Everything that can happen to the client state. */
  datatype Event =
    | Receive(data: Incoming)
    | Play(agentId: string, now: real)
    | Send(agentId: string, websocket: Option<ReadyState>)
    | Edit(agentId: string, value: string)

  /** The event names an agent of the page (audio messages come only for registry agents). */
  predicate Admissible(e: Event)
  {
    match e
    case Receive(data) => Enqueues(data) ==> data.agentId in Agents
    case Play(agentId, now) => agentId in Agents && now >= 0.0
    case Send(agentId, _) => agentId in Agents
    case Edit(agentId, _) => agentId in Agents
  }

  function Apply(s: ClientState, e: Event): (r: ClientState)
    requires Valid(s) && Admissible(e)
    ensures Valid(r)
  {
    match e
    case Receive(data) => OnMessage(s, data)
    case Play(agentId, now) => PlayAudio(s, agentId, now).state
    case Send(agentId, websocket) => HandleSend(s, websocket, agentId).state
    case Edit(agentId, value) => EditInput(s, agentId, value)
  }

  function Run(s: ClientState, events: seq<Event>): (r: ClientState)
    requires Valid(s) && forall e | e in events :: Admissible(e)
    ensures Valid(r)
    decreases |events|
  {
    if events == [] then s else Run(Apply(s, events[0]), events[1..])
  }

  /**
   * Horizons never decrease, whatever happens: no message (including
   * `finished`), send or edit resets them, and a playback step only moves the
   * horizon to the end of a chunk that starts no earlier than it.
   */
  lemma {:induction false} HorizonsNeverDecrease(s: ClientState, events: seq<Event>)
    requires Valid(s) && forall e | e in events :: Admissible(e)
    ensures forall a | a in Agents :: Run(s, events).playTimes[a] >= s.playTimes[a]
    decreases |events|
  {
    if events != [] {
      var next := Apply(s, events[0]);
      assert forall a | a in Agents :: next.playTimes[a] >= s.playTimes[a];
      HorizonsNeverDecrease(next, events[1..]);
    }
  }

  datatype Drained = Drained(state: ClientState, started: seq<Started>)

  /** Consecutive playback steps for one agent, at clock readings `nows`. */
  function Drain(s: ClientState, agentId: string, nows: seq<real>): (r: Drained)
    requires Valid(s) && agentId in Agents
    requires forall i | 0 <= i < |nows| :: nows[i] >= 0.0
    ensures Valid(r.state)
    decreases |nows|
  {
    if nows == [] then Drained(s, [])
    else
      var step := PlayAudio(s, agentId, nows[0]);
      var rest := Drain(step.state, agentId, nows[1..]);
      Drained(rest.state, (if step.started.Some? then [step.started.value] else []) + rest.started)
  }

  /**
   * Draining `n` chunks of one agent starts `n` buffers, in arrival order,
   * each lasting its chunk's duration, and leaves the rest of the queue.
   */
  lemma {:induction false} DrainInOrder(s: ClientState, agentId: string, nows: seq<real>)
    requires Valid(s) && agentId in Agents
    requires |nows| <= |s.audioQueues[agentId]|
    requires forall i | 0 <= i < |nows| :: nows[i] >= 0.0
    ensures var d := Drain(s, agentId, nows);
      && |d.started| == |nows|
      && (forall i | 0 <= i < |nows| ::
            d.started[i].agentId == agentId
            && d.started[i].duration == ChunkDuration(s.audioQueues[agentId][i]))
      && d.state.audioQueues[agentId] == s.audioQueues[agentId][|nows|..]
    decreases |nows|
  {
    if nows != [] {
      var queue := s.audioQueues[agentId];
      var next := PlayAudio(s, agentId, nows[0]).state;
      var rest := nows[1..];
      DrainStep(s, agentId, nows);
      DrainInOrder(next, agentId, rest);
      var d := Drain(s, agentId, nows);
      var tail := Drain(next, agentId, rest);
      forall i | 0 < i < |nows|
        ensures d.started[i].agentId == agentId && d.started[i].duration == ChunkDuration(queue[i])
      {
        assert d.started[i] == tail.started[i - 1];
        assert queue[i] == next.audioQueues[agentId][i - 1];
      }
      assert d.state.audioQueues[agentId] == queue[1..][|rest|..];
    }
  }

  /**
   * Gapless playback: while the clock stays at or before the first chunk's
   * start, each buffer of one agent starts exactly when the previous one
   * ends, and the first starts at the later of the first clock reading and
   * the horizon.
   */
  lemma {:induction false} GaplessDrain(s: ClientState, agentId: string, nows: seq<real>)
    requires Valid(s) && agentId in Agents
    requires |nows| <= |s.audioQueues[agentId]|
    requires forall i | 0 <= i < |nows| :: nows[i] >= 0.0
    requires forall i | 0 < i < |nows| :: nows[i] <= Max(nows[0], s.playTimes[agentId])
    ensures var started := Drain(s, agentId, nows).started;
      && (|nows| > 0 ==> |started| > 0 && started[0].start == Max(nows[0], s.playTimes[agentId]))
      && (forall i | 0 <= i < |started| - 1 :: started[i + 1].start == started[i].start + started[i].duration)
    decreases |nows|
  {
    if nows != [] {
      var next := PlayAudio(s, agentId, nows[0]).state;
      var rest := nows[1..];
      DrainStep(s, agentId, nows);
      forall i | 0 < i < |rest|
        ensures rest[i] <= Max(rest[0], next.playTimes[agentId])
      {
        assert rest[i] == nows[i + 1];
      }
      GaplessDrain(next, agentId, rest);
      var started := Drain(s, agentId, nows).started;
      var tail := Drain(next, agentId, rest).started;
      forall i | 0 <= i < |started| - 1
        ensures started[i + 1].start == started[i].start + started[i].duration
      {
        if i > 0 {
          assert started[i] == tail[i - 1] && started[i + 1] == tail[i];
        }
      }
    }
  }

  /** One step of a drain with a chunk waiting: it plays the head chunk, then drains the rest. */
  lemma DrainStep(s: ClientState, agentId: string, nows: seq<real>)
    requires Valid(s) && agentId in Agents
    requires nows != [] && s.audioQueues[agentId] != []
    requires forall i | 0 <= i < |nows| :: nows[i] >= 0.0
    ensures var next := PlayAudio(s, agentId, nows[0]).state;
      var first := Started(agentId, Max(nows[0], s.playTimes[agentId]), ChunkDuration(s.audioQueues[agentId][0]));
      && next.playTimes[agentId] == first.start + first.duration
      && next.audioQueues[agentId] == s.audioQueues[agentId][1..]
      && Drain(s, agentId, nows).started == [first] + Drain(next, agentId, nows[1..]).started
      && Drain(s, agentId, nows).state == Drain(next, agentId, nows[1..]).state
  {
    PlayAudioFrame(s, agentId, nows[0]);
  }

  /** An agent's horizon after a playback step. */
  function NextHorizon(queue: seq<string>, horizon: real, now: real): real
  {
    if queue == [] then horizon else Max(now, horizon) + ChunkDuration(queue[0])
  }

  /** An agent's queue after a playback step. */
  function NextQueue(queue: seq<string>): seq<string>
  {
    if queue == [] then [] else queue[1..]
  }

  /**
   * A playback step changes only its own agent's queue and horizon, each as
   * a function of that agent's queue, horizon and the clock alone.
   */
  lemma PlayAudioFrame(s: ClientState, a: string, now: real)
    requires Valid(s) && a in Agents && now >= 0.0
    ensures var r := PlayAudio(s, a, now);
      && r.state.messages == s.messages && r.state.input == s.input
      && r.state.playTimes == s.playTimes[a := NextHorizon(s.audioQueues[a], s.playTimes[a], now)]
      && r.state.audioQueues == s.audioQueues[a := NextQueue(s.audioQueues[a])]
      && r.started == (if s.audioQueues[a] == [] then None
                       else Some(Started(a, Max(now, s.playTimes[a]), ChunkDuration(s.audioQueues[a][0]))))
  {
    if s.audioQueues[a] == [] {
      assert s.playTimes == s.playTimes[a := s.playTimes[a]];
      assert s.audioQueues == s.audioQueues[a := []];
    }
  }

  lemma UpdatesCommute<K, V>(m: map<K, V>, a: K, x: V, b: K, y: V)
    requires a != b
    ensures m[a := x][b := y] == m[b := y][a := x]
  {
  }

  /**
   * Playback steps for two different agents commute: each starts the same
   * buffer at the same time in either order, and the resulting state is the same.
   */
  lemma PlayAudioCommutes(s: ClientState, a: string, b: string, nowA: real, nowB: real)
    requires Valid(s) && a in Agents && b in Agents && a != b && nowA >= 0.0 && nowB >= 0.0
    ensures PlayAudio(PlayAudio(s, a, nowA).state, b, nowB).state
         == PlayAudio(PlayAudio(s, b, nowB).state, a, nowA).state
    ensures PlayAudio(PlayAudio(s, b, nowB).state, a, nowA).started == PlayAudio(s, a, nowA).started
    ensures PlayAudio(PlayAudio(s, a, nowA).state, b, nowB).started == PlayAudio(s, b, nowB).started
  {
    var ab1 := PlayAudio(s, a, nowA);
    var ba1 := PlayAudio(s, b, nowB);
    var ab2 := PlayAudio(ab1.state, b, nowB);
    var ba2 := PlayAudio(ba1.state, a, nowA);
    PlayAudioFrame(s, a, nowA);
    PlayAudioFrame(s, b, nowB);
    PlayAudioFrame(ab1.state, b, nowB);
    PlayAudioFrame(ba1.state, a, nowA);
    assert ab1.state.audioQueues[b] == s.audioQueues[b] && ab1.state.playTimes[b] == s.playTimes[b];
    assert ba1.state.audioQueues[a] == s.audioQueues[a] && ba1.state.playTimes[a] == s.playTimes[a];
    var ha, hb := NextHorizon(s.audioQueues[a], s.playTimes[a], nowA), NextHorizon(s.audioQueues[b], s.playTimes[b], nowB);
    var qa, qb := NextQueue(s.audioQueues[a]), NextQueue(s.audioQueues[b]);
    UpdatesCommute(s.playTimes, a, ha, b, hb);
    UpdatesCommute(s.audioQueues, a, qa, b, qb);
  }

  /** A message for another agent does not change what this agent's playback step starts. */
  lemma ReceiveKeepsOtherPlayback(s: ClientState, a: string, data: Incoming, now: real)
    requires Valid(s) && a in Agents && now >= 0.0
    requires Enqueues(data) ==> data.agentId in Agents
    requires data.agentId != a
    ensures PlayAudio(OnMessage(s, data), a, now).started == PlayAudio(s, a, now).started
  {
    var received := OnMessage(s, data);
    PlayAudioFrame(s, a, now);
    assert received.audioQueues[a] == s.audioQueues[a];
    PlayAudioFrame(received, a, now);
  }

  /** A message for another agent and a playback step of this agent commute. */
  lemma ReceiveForOtherAgentCommutes(s: ClientState, a: string, data: Incoming, now: real)
    requires Valid(s) && a in Agents && now >= 0.0
    requires Enqueues(data) ==> data.agentId in Agents
    requires data.agentId != a
    ensures PlayAudio(OnMessage(s, data), a, now).state == OnMessage(PlayAudio(s, a, now).state, data)
  {
    var received := OnMessage(s, data);
    PlayAudioFrame(s, a, now);
    assert received.audioQueues[a] == s.audioQueues[a];
    PlayAudioFrame(received, a, now);
    if Enqueues(data) {
      var b := data.agentId;
      var played := PlayAudio(s, a, now).state;
      assert played.audioQueues[b] == s.audioQueues[b];
      UpdatesCommute(s.audioQueues, a, NextQueue(s.audioQueues[a]), b, s.audioQueues[b] + [data.audio]);
    }
  }
}
