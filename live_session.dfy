/** The realtime voice roleplay session of components/LivePricingSimulator.tsx.
    The session's refs are the fields of `SimState`; every handler is one atomic step
    (a pure transition below, and a method of `Simulator` proved to perform it).
    The browser and SDK objects the handlers create or release (audio contexts, the
    microphone stream, the script processor, the live connection, buffer sources) are
    numbered handles, and what is done to them is recorded as a sequence of effects.
    The clock of the output context and the outcome of each setup step are inputs. */
module LiveSession {
  import opened Wrappers
  import Base64
  import Pcm
  import Gemini
  import Playback

  datatype Status = Idle | Connecting | Connected | Error

  const InputRate: nat := 16000
  const OutputRate: nat := 24000

  /** An AudioContext the session created, and whether `close()` has been called on it. */
  datatype AudioCtx = AudioCtx(handle: nat, sampleRate: nat, closed: bool)

  /** How the synchronous part of `startSession` ends: setup completes, or one of the steps
      inside its `try` throws (the client constructor, either AudioContext constructor, or
      the rejected `getUserMedia`). `ai.live.connect` returns a promise, so its failure is
      not one of these. */
  datatype Setup = Succeeds | ClientFails | InputContextFails | OutputContextFails | MicrophoneDenied

  /** What the session does to the objects outside it, in order. */
  datatype Effect =
    | CreateContext(context: nat, sampleRate: nat)
    | OpenMicrophone(stream: nat)
    | Connect(session: nat, systemInstruction: string)
    | WireProcessor(processor: nat, micStream: nat, inputContext: nat)
    | SendAudio(target: nat, data: string)
    | StartSource(source: nat, when: real, duration: real)
    | StopSources(sourceSet: set<nat>)
    | CloseSession(closedSession: nat)
    | StopTracks(stoppedStream: nat)
    | DisconnectProcessor(detached: nat)
    | CloseContext(closedContext: nat)

  /** The refs of the component (lines 54-66); `nextHandle` numbers the objects it creates. */
  datatype SimState = SimState(
    isActive: bool,
    status: Status,
    nextStartTime: real,
    sources: set<nat>,
    inputContext: Option<AudioCtx>,
    outputContext: Option<AudioCtx>,
    outputNode: bool,
    session: Option<nat>,
    stream: Option<nat>,
    processor: Option<nat>,
    nextHandle: nat)

  datatype Outcome = Outcome(state: SimState, effects: seq<Effect>)

  const Initial := SimState(false, Idle, 0.0, {}, None, None, false, None, None, None, 0)

  function QueueOf(s: SimState): Playback.Queue {
    Playback.Queue(s.nextStartTime, s.sources)
  }

  predicate IsOpen(c: Option<AudioCtx>) {
    c.Some? && !c.value.closed
  }

  /** `ctx.close()` when the context exists and is not closed; the ref itself is kept. */
  function CloseIfOpen(c: Option<AudioCtx>): (r: Option<AudioCtx>)
    ensures !IsOpen(r)
    ensures r.Some? <==> c.Some?
    ensures r.Some? ==> r.value.handle == c.value.handle && r.value.sampleRate == c.value.sampleRate
  {
    if IsOpen(c) then Some(c.value.(closed := true)) else c
  }

  function CloseEffects(c: Option<AudioCtx>): seq<Effect> {
    if IsOpen(c) then [CloseContext(c.value.handle)] else []
  }

  // ---------------------------------------------------------------- stopSession

  /** The state after `stopSession` (lines 69-107). `nextStartTime` is not reset. */
  function Stopped(s: SimState): (r: SimState)
    ensures r.session.None? && r.stream.None? && r.processor.None?
    ensures !IsOpen(r.inputContext) && !IsOpen(r.outputContext)
    ensures r.sources == {} && !r.isActive && r.status == Idle
    ensures r.nextStartTime == s.nextStartTime && r.nextHandle == s.nextHandle
  {
    s.(session := None, stream := None, processor := None,
       inputContext := CloseIfOpen(s.inputContext), outputContext := CloseIfOpen(s.outputContext),
       sources := {}, isActive := false, status := Idle)
  }

  function SessionRelease(s: SimState): seq<Effect> {
    if s.session.Some? then [CloseSession(s.session.value)] else []
  }

  function TrackRelease(s: SimState): seq<Effect> {
    if s.stream.Some? then [StopTracks(s.stream.value)] else []
  }

  function ProcessorRelease(s: SimState): seq<Effect> {
    if s.processor.Some? then [DisconnectProcessor(s.processor.value)] else []
  }

  function SourceRelease(s: SimState): seq<Effect> {
    if s.sources != {} then [StopSources(s.sources)] else []
  }

  /** What `stopSession` releases, step by step, each guarded only by its own handle. */
  function StopEffects(s: SimState): seq<Effect> {
    SessionRelease(s) + TrackRelease(s) + ProcessorRelease(s)
    + CloseEffects(s.inputContext) + CloseEffects(s.outputContext) + SourceRelease(s)
  }

  lemma StopMembers(s: SimState, x: Effect)
    ensures x in StopEffects(s) <==>
      x in SessionRelease(s) || x in TrackRelease(s) || x in ProcessorRelease(s) ||
      x in CloseEffects(s.inputContext) || x in CloseEffects(s.outputContext) || x in SourceRelease(s)
  {
  }

  /** No release step depends on another handle being present: each held handle is
      released, and nothing else is. */
  lemma {:induction false} StopReleasesIndependently(s: SimState, h: nat)
    ensures CloseSession(h) in StopEffects(s) <==> s.session == Some(h)
    ensures StopTracks(h) in StopEffects(s) <==> s.stream == Some(h)
    ensures DisconnectProcessor(h) in StopEffects(s) <==> s.processor == Some(h)
    ensures CloseContext(h) in StopEffects(s) <==>
      (IsOpen(s.inputContext) && s.inputContext.value.handle == h) ||
      (IsOpen(s.outputContext) && s.outputContext.value.handle == h)
    ensures StopSources(s.sources) in StopEffects(s) <==> s.sources != {}
    ensures forall e :: e in StopEffects(s) ==> !e.StartSource? && !e.SendAudio? && !e.Connect?
  {
    StopMembers(s, CloseSession(h));
    StopMembers(s, StopTracks(h));
    StopMembers(s, DisconnectProcessor(h));
    StopMembers(s, CloseContext(h));
    StopMembers(s, StopSources(s.sources));
    forall e | e in StopEffects(s)
      ensures !e.StartSource? && !e.SendAudio? && !e.Connect?
    {
      StopMembers(s, e);
    }
  }

  /** `stopSession` is idempotent: a second call changes nothing and releases nothing. */
  lemma {:induction false} StopIdempotent(s: SimState)
    ensures Stopped(Stopped(s)) == Stopped(s)
    ensures StopEffects(Stopped(s)) == []
  {
    var r := Stopped(s);
    assert CloseIfOpen(r.inputContext) == r.inputContext;
    assert CloseIfOpen(r.outputContext) == r.outputContext;
  }

  // ---------------------------------------------------------------- startSession

  /** The `catch` branch: status 'error', then `stopSession`, which sets 'idle'. */
  function Failed(s: SimState, effects: seq<Effect>): Outcome {
    var e := s.(status := Error);
    Outcome(Stopped(e), effects + StopEffects(e))
  }

  /** The refs once both audio contexts and the gain node exist. */
  function WithContexts(s: SimState): SimState {
    s.(inputContext := Some(AudioCtx(s.nextHandle, InputRate, false)),
       outputContext := Some(AudioCtx(s.nextHandle + 1, OutputRate, false)), outputNode := true,
       nextHandle := s.nextHandle + 2)
  }

  /** Creating the input context, then the output context. */
  function ContextEffects(h: nat): seq<Effect> {
    [CreateContext(h, InputRate), CreateContext(h + 1, OutputRate)]
  }

  /** `startSession` (lines 109-235): each setup step in order, the `catch` taking over at
      the first one that throws. */
  function Start(s: SimState, setup: Setup, systemInstruction: string): Outcome {
    if s.isActive then Outcome(s, [])
    else
      var c := s.(status := Connecting);
      if setup.ClientFails? || setup.InputContextFails? then Failed(c, [])
      else
        var h := c.nextHandle;
        var c1 := c.(inputContext := Some(AudioCtx(h, InputRate, false)), nextHandle := h + 1);
        if setup.OutputContextFails? then Failed(c1, [CreateContext(h, InputRate)])
        else
          var c2 := WithContexts(c);
          var contexts := ContextEffects(h);
          if setup.MicrophoneDenied? then Failed(c2, contexts)
          else
            Outcome(c2.(stream := Some(h + 2), session := Some(h + 3), nextHandle := h + 4),
                    contexts + [OpenMicrophone(h + 2), Connect(h + 3, systemInstruction)])
  }

  /** The value of `Start` at each exit of `startSession`. */
  lemma StartExits(s: SimState, setup: Setup, instruction: string)
    requires !s.isActive
    ensures var c := s.(status := Connecting);
      var h := s.nextHandle;
      var c1 := c.(inputContext := Some(AudioCtx(h, InputRate, false)), nextHandle := h + 1);
      var c2 := WithContexts(c);
      var contexts := ContextEffects(h);
      && (setup.ClientFails? || setup.InputContextFails? ==> Start(s, setup, instruction) == Failed(c, []))
      && (setup.OutputContextFails? ==> Start(s, setup, instruction) == Failed(c1, [CreateContext(h, InputRate)]))
      && (setup.MicrophoneDenied? ==> Start(s, setup, instruction) == Failed(c2, contexts))
      && (setup.Succeeds? ==>
            Start(s, setup, instruction) ==
            Outcome(c2.(stream := Some(h + 2), session := Some(h + 3), nextHandle := h + 4),
                    contexts + [OpenMicrophone(h + 2), Connect(h + 3, instruction)]))
  {
  }

  /** The only guard is `isActive`: start is a no-op exactly when the session is active,
      so a second start while still connecting runs the whole setup again. */
  lemma StartGuard(s: SimState, setup: Setup, instruction: string)
    ensures s.isActive ==> Start(s, setup, instruction) == Outcome(s, [])
    ensures !s.isActive ==> Start(s, setup, instruction).effects != [] || setup.ClientFails? || setup.InputContextFails?
    ensures !s.isActive && setup.Succeeds? ==>
      var r := Start(s, setup, instruction).state;
      && r.status == Connecting && !r.isActive
      && r.session == Some(s.nextHandle + 3) && r.stream == Some(s.nextHandle + 2)
      && IsOpen(r.inputContext) && IsOpen(r.outputContext)
  {
  }

  /** A start while connecting replaces the pending connection, stream and contexts with
      new ones and releases none of the old ones. */
  lemma RestartWhileConnecting(s: SimState, log: seq<Effect>, instruction: string)
    requires Consistent(s, log)
    requires !s.isActive && s.status == Connecting && s.session.Some?
    ensures var o := Start(s, Succeeds, instruction);
      && o.state.session.Some? && o.state.session != s.session
      && forall e :: e in o.effects ==> !e.CloseSession? && !e.StopTracks? && !e.CloseContext?
  {
  }

  /** Whichever setup step throws, the session ends idle and inactive, holding no
      connection, stream or processor, with both contexts closed or never created. */
  lemma SetupFailureEndsIdle(s: SimState, setup: Setup, instruction: string)
    requires !s.isActive && !setup.Succeeds?
    ensures var r := Start(s, setup, instruction).state;
      && r.status == Idle && !r.isActive && r.sources == {}
      && r.session.None? && r.stream.None? && r.processor.None?
      && !IsOpen(r.inputContext) && !IsOpen(r.outputContext)
  {
  }

  /** A denied microphone closes both contexts the setup had just created. */
  lemma {:induction false} DeniedMicrophoneClosesContexts(s: SimState, instruction: string)
    requires !s.isActive
    ensures CloseContext(s.nextHandle) in Start(s, MicrophoneDenied, instruction).effects
    ensures CloseContext(s.nextHandle + 1) in Start(s, MicrophoneDenied, instruction).effects
  {
    var w := WithContexts(s.(status := Connecting));
    StartDenied(s, instruction, w);
    FailedClosesContexts(w, ContextEffects(s.nextHandle), s.nextHandle);
  }

  lemma StartDenied(s: SimState, instruction: string, w: SimState)
    requires !s.isActive && w == WithContexts(s.(status := Connecting))
    ensures Start(s, MicrophoneDenied, instruction) == Failed(w, ContextEffects(s.nextHandle))
    ensures w.inputContext == Some(AudioCtx(s.nextHandle, InputRate, false))
    ensures w.outputContext == Some(AudioCtx(s.nextHandle + 1, OutputRate, false))
  {
  }

  /** The `catch` closes both contexts when both are open. */
  lemma FailedClosesContexts(c: SimState, effects: seq<Effect>, h: nat)
    requires c.inputContext == Some(AudioCtx(h, InputRate, false))
    requires c.outputContext == Some(AudioCtx(h + 1, OutputRate, false))
    ensures CloseContext(h) in Failed(c, effects).effects
    ensures CloseContext(h + 1) in Failed(c, effects).effects
  {
    var w := c.(status := Error);
    StopReleasesIndependently(w, h);
    StopReleasesIndependently(w, h + 1);
  }

  // ---------------------------------------------------------------- connection callbacks

  /** `onopen` (lines 131-170): connected and active; then, when the input context ref is
      set, a script processor fed by the captured microphone stream. */
  function Opened(s: SimState, micStream: nat): Outcome {
    var c := s.(status := Connected, isActive := true);
    if c.inputContext.None? then Outcome(c, [])
    else
      var h := s.nextHandle;
      Outcome(c.(processor := Some(h), nextHandle := h + 1),
              [WireProcessor(h, micStream, c.inputContext.value.handle)])
  }

  /** `onerror` (lines 209-212). */
  function Errored(s: SimState): SimState {
    s.(status := Error)
  }

  /** `onclose` (lines 213-216). */
  function Closed(s: SimState): SimState {
    s.(isActive := false)
  }

  /** `onopen` makes the session connected and active; `onerror` only records the error
      and releases nothing; `onclose` only clears the active flag, leaving the status. */
  lemma CallbackRules(s: SimState, micStream: nat)
    ensures Opened(s, micStream).state.status == Connected && Opened(s, micStream).state.isActive
    ensures Opened(s, micStream).state.sources == s.sources && Opened(s, micStream).state.session == s.session
    ensures Errored(s) == s.(status := Error)
    ensures Errored(s).isActive == s.isActive && Errored(s).session == s.session && Errored(s).stream == s.stream
    ensures Closed(s).status == s.status && !Closed(s).isActive && Closed(s).session == s.session
  {
  }

  // ---------------------------------------------------------------- outbound audio

  /** The payload `onaudioprocess` sends for one captured frame: the frame as 16-bit PCM,
      little-endian, base64 encoded. */
  function Payload(frame: seq<real>): string {
    Base64.Encode(Pcm.ByteView(Pcm.PcmSamples(frame)))
  }

  /** `onaudioprocess` (lines 142-166): it runs only while the processor is attached, and
      sends only when the connection ref is set. */
  function AudioProcess(s: SimState, frame: seq<real>): seq<Effect> {
    if s.processor.None? || s.session.None? then []
    else [SendAudio(s.session.value, Payload(frame))]
  }

  /** What the receiving side recovers from a sent payload: decoding it as a mono chunk gives
      back every sample of a frame in [-1, 1) within 1/32768. */
  lemma PayloadRoundTrip(frame: seq<real>)
    requires |frame| >= 1
    requires forall i :: 0 <= i < |frame| ==> -1.0 <= frame[i] < 1.0
    ensures Decode(Payload(frame)).Ok?
    ensures var b := Decode(Payload(frame)).value;
      b.length == |frame| &&
      forall i :: 0 <= i < |frame| ==> -1.0 / Pcm.Scale < frame[i] - b.channels[0][i] < 1.0 / Pcm.Scale
  {
    var bytes := Pcm.ByteView(Pcm.PcmSamples(frame));
    var binary := Base64.FromCodes(bytes);
    Base64.CodesOfFromCodes(bytes);
    Base64.AtobBtoa(binary);
    Pcm.BinaryStringRoundTrip(bytes, binary);
    Pcm.PcmRoundTrip(frame, OutputRate);
  }

  /** Once the session is stopped, captured audio is never sent. */
  lemma NoSendAfterStop(s: SimState, frame: seq<real>)
    ensures AudioProcess(Stopped(s), frame) == []
  {
  }

  // ---------------------------------------------------------------- inbound audio

  datatype ServerContent = ServerContent(modelTurn: Option<Gemini.Content>, interrupted: bool)
  datatype LiveServerMessage = LiveServerMessage(serverContent: Option<ServerContent>)

  /** `message.serverContent?.modelTurn?.parts?.[0]?.inlineData?.data`. */
  function AudioOf(msg: LiveServerMessage): Option<string> {
    if msg.serverContent.None? then None else Gemini.FirstInlineData(msg.serverContent.value.modelTurn)
  }

  function Interrupted(msg: LiveServerMessage): bool {
    msg.serverContent.Some? && msg.serverContent.value.interrupted
  }

  /** `decodeAudioData(decode(base64Audio), ctx, 24000, 1)`, or what it throws. */
  function Decode(base64Audio: string): Result<Pcm.AudioBuffer, Pcm.DecodeError> {
    match Base64.Atob(base64Audio)
    case None => Err(Pcm.InvalidBase64)
    case Some(binary) => Pcm.DecodedBuffer(Pcm.CharCodes(binary), OutputRate, 1)
  }

  /** The audio half of `onmessage` (lines 173-199). */
  function PlayAudio(s: SimState, now: real, msg: LiveServerMessage): Outcome {
    var audio := AudioOf(msg);
    if audio.None? || audio.value == "" || s.outputContext.None? || !s.outputNode then Outcome(s, [])
    else
      var q := QueueOf(s);
      match Decode(audio.value)
      case Err(_) =>
        var d := Playback.Drop(q, now);
        Outcome(s.(nextStartTime := d.nextStart), [])
      case Ok(buffer) =>
        var id := s.nextHandle;
        var q' := Playback.Schedule(q, now, buffer.Duration(), id);
        Outcome(s.(nextStartTime := q'.nextStart, sources := q'.sources, nextHandle := id + 1),
                [StartSource(id, Playback.StartTime(q, now), buffer.Duration())])
  }

  /** `onmessage` (lines 171-208): the audio, then the interruption. */
  function Message(s: SimState, now: real, msg: LiveServerMessage): Outcome {
    var played := PlayAudio(s, now, msg);
    if !Interrupted(msg) then played
    else
      var p := played.state;
      var q := Playback.Interrupt(QueueOf(p));
      Outcome(p.(nextStartTime := q.nextStart, sources := q.sources),
              played.effects + (if p.sources != {} then [StopSources(p.sources)] else []))
  }

  /** A playable chunk starts exactly at `max(nextStartTime, now)`, lasts its frame count
      over 24000 seconds, moves `nextStartTime` by exactly that duration and joins the live
      set; this is the playback queue's `Schedule`. A chunk that fails to decode adds no
      source and does not advance the queue beyond the clock. */
  lemma MessageSchedules(s: SimState, now: real, msg: LiveServerMessage)
    requires !Interrupted(msg) && s.outputContext.Some? && s.outputNode
    requires AudioOf(msg).Some? && AudioOf(msg).value != ""
    ensures var o := Message(s, now, msg);
      match Decode(AudioOf(msg).value)
      case Ok(b) =>
        && QueueOf(o.state) == Playback.Schedule(QueueOf(s), now, b.Duration(), s.nextHandle)
        && o.effects == [StartSource(s.nextHandle, Playback.Max(s.nextStartTime, now), b.Duration())]
        && b.Duration() == b.length as real / OutputRate as real
      case Err(_) =>
        && QueueOf(o.state) == Playback.Drop(QueueOf(s), now)
        && o.state.sources == s.sources && o.effects == []
  {
  }

  /** An interruption stops every live source, including one started by the same message,
      empties the set and resets `nextStartTime` to 0, so the next chunk starts at the clock. */
  lemma InterruptClears(s: SimState, now: real, msg: LiveServerMessage)
    requires Interrupted(msg)
    ensures var o := Message(s, now, msg);
      && o.state.sources == {} && o.state.nextStartTime == 0.0
      && (PlayAudio(s, now, msg).state.sources != {} ==>
            StopSources(PlayAudio(s, now, msg).state.sources) in o.effects)
      && s.sources <= PlayAudio(s, now, msg).state.sources
  {
  }

  /** The `ended` listener of source `id` (lines 189-191). */
  function SourceEnded(s: SimState, id: nat): SimState {
    var q := Playback.Ended(QueueOf(s), id);
    s.(sources := q.sources, nextStartTime := q.nextStart)
  }

  // ---------------------------------------------------------------- all handlers together

  datatype Event =
    | StartEvent(setup: Setup, instruction: string)
    | StopEvent
    | OpenEvent(micStream: nat)
    | MessageEvent(now: real, msg: LiveServerMessage)
    | ErrorEvent
    | CloseEvent
    | AudioEvent(frame: seq<real>)
    | EndedEvent(id: nat)

  function Step(s: SimState, e: Event): Outcome {
    match e
    case StartEvent(setup, instruction) => Start(s, setup, instruction)
    case StopEvent => Outcome(Stopped(s), StopEffects(s))
    case OpenEvent(m) => Opened(s, m)
    case MessageEvent(now, msg) => Message(s, now, msg)
    case ErrorEvent => Outcome(Errored(s), [])
    case CloseEvent => Outcome(Closed(s), [])
    case AudioEvent(frame) => Outcome(s, AudioProcess(s, frame))
    case EndedEvent(id) => Outcome(SourceEnded(s, id), [])
  }

  /** The handlers run one after another on a sequence of events, their effects in order. */
  function Steps(s: SimState, events: seq<Event>): Outcome
    decreases |events|
  {
    if events == [] then Outcome(s, [])
    else
      var o := Step(s, events[0]);
      var r := Steps(o.state, events[1..]);
      Outcome(r.state, o.effects + r.effects)
  }

  // ---------------------------------------------------------------- a burst of audio

  /** A message carrying a chunk that decodes, and no interruption. */
  predicate Playable(e: Event) {
    && e.MessageEvent? && !Interrupted(e.msg)
    && AudioOf(e.msg).Some? && AudioOf(e.msg).value != ""
    && Decode(AudioOf(e.msg).value).Ok?
  }

  /** What a playable message is to the playback queue: its clock and its chunk's duration. */
  function ArrivalOf(e: Event): Playback.Arrival
    requires Playable(e)
  {
    Playback.Arrival(e.now, Decode(AudioOf(e.msg).value).value.Duration())
  }

  function Arrivals(events: seq<Event>): (r: seq<Playback.Arrival>)
    requires forall k :: 0 <= k < |events| ==> Playable(events[k])
    ensures |r| == |events|
    decreases |events|
  {
    if events == [] then [] else [ArrivalOf(events[0])] + Arrivals(events[1..])
  }

  /** The state after a chunk that arrives at `a.now` and plays for `a.duration` seconds. */
  function Advance(s: SimState, a: Playback.Arrival): SimState {
    s.(nextStartTime := Playback.Max(s.nextStartTime, a.now) + a.duration,
       sources := s.sources + {s.nextHandle}, nextHandle := s.nextHandle + 1)
  }

  /** A burst as the queue sees it: each arrival advances the state and starts one source. */
  function Burst(s: SimState, arrivals: seq<Playback.Arrival>): Outcome
    decreases |arrivals|
  {
    if arrivals == [] then Outcome(s, [])
    else
      var start := StartSource(s.nextHandle, Playback.Max(s.nextStartTime, arrivals[0].now), arrivals[0].duration);
      var r := Burst(Advance(s, arrivals[0]), arrivals[1..]);
      Outcome(r.state, [start] + r.effects)
  }

  /** `onmessage` on a playable message is one step of `Burst`. */
  lemma PlayableStep(s: SimState, e: Event)
    requires s.outputContext.Some? && s.outputNode && Playable(e)
    ensures Step(s, e) == Outcome(Advance(s, ArrivalOf(e)),
      [StartSource(s.nextHandle, Playback.Max(s.nextStartTime, e.now), ArrivalOf(e).duration)])
  {
    MessageSchedules(s, e.now, e.msg);
  }

  lemma PlayableTail(events: seq<Event>)
    requires events != [] && forall k :: 0 <= k < |events| ==> Playable(events[k])
    ensures forall k :: 0 <= k < |events| - 1 ==> Playable(events[1..][k])
  {
    forall k | 0 <= k < |events| - 1 ensures Playable(events[1..][k]) {
      assert events[1..][k] == events[k + 1];
    }
  }

  /** Handling playable messages one after another is the queue's `Burst` of their arrivals. */
  lemma {:induction false} StepsIsBurst(s: SimState, events: seq<Event>)
    requires s.outputContext.Some? && s.outputNode
    requires forall k :: 0 <= k < |events| ==> Playable(events[k])
    ensures Steps(s, events) == Burst(s, Arrivals(events))
    decreases |events|
  {
    if events != [] {
      PlayableStep(s, events[0]);
      PlayableTail(events);
      StepsIsBurst(Advance(s, ArrivalOf(events[0])), events[1..]);
      assert Arrivals(events)[1..] == Arrivals(events[1..]);
    }
  }

  /** Sources `h`, `h + 1`, ... started at the given times for the arrivals' durations. */
  function Starting(h: nat, starts: seq<real>, arrivals: seq<Playback.Arrival>): (r: seq<Effect>)
    requires |starts| == |arrivals|
    ensures |r| == |arrivals|
    decreases |arrivals|
  {
    if arrivals == [] then []
    else [StartSource(h, starts[0], arrivals[0].duration)] + Starting(h + 1, starts[1..], arrivals[1..])
  }

  lemma {:induction false} StartingAt(h: nat, starts: seq<real>, arrivals: seq<Playback.Arrival>, i: nat)
    requires |starts| == |arrivals| && i < |arrivals|
    ensures Starting(h, starts, arrivals)[i] == StartSource(h + i, starts[i], arrivals[i].duration)
    decreases i
  {
    if i > 0 {
      StartingAt(h + 1, starts[1..], arrivals[1..], i - 1);
    }
  }

  /** The queue's `Burst` starts the chunks as sources `nextHandle`, `nextHandle + 1`, ...
      at the times of `Starts`. */
  lemma {:induction false} BurstEffects(s: SimState, arrivals: seq<Playback.Arrival>)
    ensures Burst(s, arrivals).effects ==
      Starting(s.nextHandle, Playback.Starts(s.nextStartTime, arrivals), arrivals)
    decreases |arrivals|
  {
    if arrivals != [] {
      var s1 := Advance(s, arrivals[0]);
      BurstEffects(s1, arrivals[1..]);
      BurstUnfold(s.nextStartTime, arrivals);
    }
  }

  /** After the queue's `Burst` the queue ends at `FinalNext` with one new source per chunk,
      and nothing but the queue and the handle counter has changed. */
  lemma {:induction false} BurstState(s: SimState, arrivals: seq<Playback.Arrival>)
    ensures var e := Burst(s, arrivals).state;
      && e.nextStartTime == Playback.FinalNext(s.nextStartTime, arrivals)
      && e.sources == s.sources + Playback.Ids(s.nextHandle, |arrivals|)
      && e.nextHandle == s.nextHandle + |arrivals|
      && e.(nextStartTime := s.nextStartTime, sources := s.sources, nextHandle := s.nextHandle) == s
    decreases |arrivals|
  {
    if arrivals != [] {
      var h := s.nextHandle;
      var s1 := Advance(s, arrivals[0]);
      BurstState(s1, arrivals[1..]);
      assert Burst(s, arrivals).state == Burst(s1, arrivals[1..]).state;
      assert s.sources + {h} + Playback.Ids(h + 1, |arrivals| - 1) == s.sources + Playback.Ids(h, |arrivals|);
    }
  }

  /** A burst of playable messages handled by `onmessage` one after another: the i-th
      starts source `nextHandle + i` at exactly the i-th start time of the playback queue's
      `Starts`, for its own duration; the queue then ends at `FinalNext` with one new source
      per chunk, and nothing else in the state changes. */
  lemma BurstSchedules(s: SimState, events: seq<Event>)
    requires s.outputContext.Some? && s.outputNode
    requires forall k :: 0 <= k < |events| ==> Playable(events[k])
    ensures var o := Steps(s, events);
      var arrivals := Arrivals(events);
      var starts := Playback.Starts(s.nextStartTime, arrivals);
      && |o.effects| == |events|
      && (forall i :: 0 <= i < |events| ==>
            o.effects[i] == StartSource(s.nextHandle + i, starts[i], arrivals[i].duration))
      && o.state.nextStartTime == Playback.FinalNext(s.nextStartTime, arrivals)
      && o.state.sources == s.sources + Playback.Ids(s.nextHandle, |events|)
      && o.state.nextHandle == s.nextHandle + |events|
      && o.state.(nextStartTime := s.nextStartTime, sources := s.sources, nextHandle := s.nextHandle) == s
  {
    var arrivals := Arrivals(events);
    StepsIsBurst(s, events);
    BurstEffects(s, arrivals);
    BurstState(s, arrivals);
    forall i | 0 <= i < |events|
      ensures Steps(s, events).effects[i] ==
        StartSource(s.nextHandle + i, Playback.Starts(s.nextStartTime, arrivals)[i], arrivals[i].duration)
    {
      StartingAt(s.nextHandle, Playback.Starts(s.nextStartTime, arrivals), arrivals, i);
    }
  }

  /** The first step of a burst's start times and queue end. */
  lemma BurstUnfold(next: real, arrivals: seq<Playback.Arrival>)
    requires arrivals != []
    ensures var t := Playback.Max(next, arrivals[0].now);
      && Playback.Starts(next, arrivals) == [t] + Playback.Starts(t + arrivals[0].duration, arrivals[1..])
      && Playback.FinalNext(next, arrivals) == Playback.FinalNext(t + arrivals[0].duration, arrivals[1..])
  {
  }

  /** In such a burst no two chunks overlap, and none starts before its message arrived;
      a chunk that arrives while earlier audio is still queued starts exactly when that audio
      ends, and one that arrives later starts at once. */
  lemma BurstPlaysInOrder(s: SimState, events: seq<Event>, i: nat)
    requires s.outputContext.Some? && s.outputNode
    requires forall k :: 0 <= k < |events| ==> Playable(events[k])
    requires 0 < i < |events|
    ensures var fx := Steps(s, events).effects;
      && |fx| == |events| && fx[i].StartSource? && fx[i - 1].StartSource?
      && events[i].MessageEvent? && fx[i].when >= events[i].now
      && fx[i].when >= fx[i - 1].when + fx[i - 1].duration
      && (events[i].now <= fx[i - 1].when + fx[i - 1].duration ==> fx[i].when == fx[i - 1].when + fx[i - 1].duration)
      && (events[i].now > fx[i - 1].when + fx[i - 1].duration ==> fx[i].when == events[i].now)
  {
    BurstSchedules(s, events);
    Playback.NoOverlapNoGap(s.nextStartTime, Arrivals(events), i);
    ArrivalsAt(events, i);
    ArrivalsAt(events, i - 1);
  }

  lemma {:induction false} ArrivalsAt(events: seq<Event>, i: nat)
    requires forall k :: 0 <= k < |events| ==> Playable(events[k])
    requires i < |events|
    ensures Arrivals(events)[i] == ArrivalOf(events[i])
    decreases i
  {
    if i > 0 {
      var rest := events[1..];
      PlayableTail(events);
      ArrivalsAt(rest, i - 1);
      assert Arrivals(events)[i] == Arrivals(rest)[i - 1];
    }
  }

  predicate Started(log: seq<Effect>, id: nat) {
    exists k :: 0 <= k < |log| && log[k].StartSource? && log[k].source == id
  }

  predicate Below(h: Option<nat>, bound: nat) {
    h.None? || h.value < bound
  }

  /** Every live source was started (a `StartSource` for it is in the log), and every
      handle the session holds was numbered before `nextHandle`. */
  predicate Consistent(s: SimState, log: seq<Effect>) {
    && (forall id :: id in s.sources ==> id < s.nextHandle && Started(log, id))
    && Below(s.session, s.nextHandle) && Below(s.stream, s.nextHandle) && Below(s.processor, s.nextHandle)
    && (s.inputContext.Some? ==> s.inputContext.value.handle < s.nextHandle)
    && (s.outputContext.Some? ==> s.outputContext.value.handle < s.nextHandle)
  }

  lemma StartedGrows(log: seq<Effect>, more: seq<Effect>, id: nat)
    requires Started(log, id)
    ensures Started(log + more, id)
  {
    var k :| 0 <= k < |log| && log[k].StartSource? && log[k].source == id;
    assert (log + more)[k] == log[k];
  }

  lemma {:induction false} StartConsistent(s: SimState, log: seq<Effect>, setup: Setup, instruction: string)
    requires Consistent(s, log)
    ensures var o := Start(s, setup, instruction); Consistent(o.state, log + o.effects)
  {
    var o := Start(s, setup, instruction);
    if !s.isActive {
      var c := s.(status := Connecting);
      var h := s.nextHandle;
      if setup.ClientFails? || setup.InputContextFails? {
        assert o.state == Stopped(c.(status := Error));
        StoppedConsistent(c.(status := Error), log + o.effects);
      } else if setup.OutputContextFails? {
        var c1 := c.(inputContext := Some(AudioCtx(h, InputRate, false)), nextHandle := h + 1);
        assert o.state == Stopped(c1.(status := Error));
        StoppedConsistent(c1.(status := Error), log + o.effects);
      } else if setup.MicrophoneDenied? {
        var w := WithContexts(c);
        assert o.state == Stopped(w.(status := Error));
        StoppedConsistent(w.(status := Error), log + o.effects);
      } else {
        forall id | id in s.sources
          ensures Started(log + o.effects, id)
        {
          StartedGrows(log, o.effects, id);
        }
      }
    } else {
      assert log + o.effects == log;
    }
  }

  /** A torn-down session holds no source and only the context handles it had. */
  lemma StoppedConsistent(e: SimState, log: seq<Effect>)
    requires e.inputContext.Some? ==> e.inputContext.value.handle < e.nextHandle
    requires e.outputContext.Some? ==> e.outputContext.value.handle < e.nextHandle
    ensures Consistent(Stopped(e), log)
  {
  }

  lemma {:induction false} PlayAudioConsistent(s: SimState, log: seq<Effect>, now: real, msg: LiveServerMessage)
    requires Consistent(s, log)
    ensures var o := PlayAudio(s, now, msg); Consistent(o.state, log + o.effects)
  {
    var o := PlayAudio(s, now, msg);
    forall id | id in s.sources
      ensures Started(log + o.effects, id)
    {
      StartedGrows(log, o.effects, id);
    }
    var newest := s.nextHandle;
    if newest in o.state.sources && newest !in s.sources {
      assert o.effects[0].StartSource? && o.effects[0].source == newest;
      assert (log + o.effects)[|log|] == o.effects[0];
    }
  }

  lemma {:induction false} MessageConsistent(s: SimState, log: seq<Effect>, now: real, msg: LiveServerMessage)
    requires Consistent(s, log)
    ensures var o := Message(s, now, msg); Consistent(o.state, log + o.effects)
  {
    PlayAudioConsistent(s, log, now, msg);
    if Interrupted(msg) {
      assert Message(s, now, msg).state.sources == {};
    }
  }

  /** Every handler keeps the session consistent with what it has done. */
  lemma {:induction false} StepConsistent(s: SimState, log: seq<Effect>, e: Event)
    requires Consistent(s, log)
    ensures Consistent(Step(s, e).state, log + Step(s, e).effects)
  {
    var o := Step(s, e);
    match e
    case StartEvent(setup, instruction) => StartConsistent(s, log, setup, instruction);
    case MessageEvent(now, msg) => MessageConsistent(s, log, now, msg);
    case StopEvent => assert o.state.sources == {};
    case _ =>
      forall id | id in o.state.sources
        ensures Started(log + o.effects, id)
      {
        StartedGrows(log, o.effects, id);
      }
  }

  lemma {:induction false} InitialConsistent()
    ensures Consistent(Initial, [])
  {
  }

  // ---------------------------------------------------------------- the component

  lemma AppendAssoc(x: seq<Effect>, y: seq<Effect>, z: seq<Effect>)
    ensures x + y + z == x + (y + z)
  {
  }

  /** The component instance: its refs, the system instruction of its tool, and the
      effects it has performed so far. */
  class Simulator {
    var isActive: bool
    var status: Status
    var nextStartTime: real
    var sources: set<nat>
    var inputContext: Option<AudioCtx>
    var outputContext: Option<AudioCtx>
    var outputNode: bool
    var session: Option<nat>
    var stream: Option<nat>
    var processor: Option<nat>
    var nextHandle: nat
    var effects: seq<Effect>
    const systemInstruction: string

    function State(): SimState
      reads this
    {
      SimState(isActive, status, nextStartTime, sources, inputContext, outputContext, outputNode,
               session, stream, processor, nextHandle)
    }

    ghost predicate Valid()
      reads this
    {
      Consistent(State(), effects)
    }

    constructor (systemInstruction: string)
      ensures State() == Initial && effects == [] && this.systemInstruction == systemInstruction
      ensures Valid()
    {
      isActive := false;
      status := Idle;
      nextStartTime := 0.0;
      sources := {};
      inputContext := None;
      outputContext := None;
      outputNode := false;
      session := None;
      stream := None;
      processor := None;
      nextHandle := 0;
      effects := [];
      this.systemInstruction := systemInstruction;
      InitialConsistent();
    }

    /** Step 1 of `stopSession`: close the connection. */
    method ReleaseSession()
      modifies this
      ensures State() == old(State()).(session := None)
      ensures effects == old(effects) + SessionRelease(old(State()))
    {
      if session.Some? {
        effects := effects + [CloseSession(session.value)];
        session := None;
      }
    }

    /** Step 2: stop the microphone tracks. */
    method ReleaseTracks()
      modifies this
      ensures State() == old(State()).(stream := None)
      ensures effects == old(effects) + TrackRelease(old(State()))
    {
      if stream.Some? {
        effects := effects + [StopTracks(stream.value)];
        stream := None;
      }
    }

    /** Step 3: disconnect the script processor and detach its handler. */
    method ReleaseProcessor()
      modifies this
      ensures State() == old(State()).(processor := None)
      ensures effects == old(effects) + ProcessorRelease(old(State()))
    {
      if processor.Some? {
        effects := effects + [DisconnectProcessor(processor.value)];
        processor := None;
      }
    }

    /** Step 4: close each context that is not closed yet. */
    method CloseContexts()
      modifies this
      ensures State() == old(State()).(inputContext := CloseIfOpen(old(inputContext)),
                                       outputContext := CloseIfOpen(old(outputContext)))
      ensures effects == old(effects) + CloseEffects(old(inputContext)) + CloseEffects(old(outputContext))
    {
      if inputContext.Some? && !inputContext.value.closed {
        effects := effects + [CloseContext(inputContext.value.handle)];
        inputContext := Some(inputContext.value.(closed := true));
      }
      if outputContext.Some? && !outputContext.value.closed {
        effects := effects + [CloseContext(outputContext.value.handle)];
        outputContext := Some(outputContext.value.(closed := true));
      }
    }

    /** Step 5: stop every source and clear the set. */
    method ClearSources()
      modifies this
      ensures State() == old(State()).(sources := {})
      ensures effects == old(effects) + SourceRelease(old(State()))
    {
      if sources != {} {
        effects := effects + [StopSources(sources)];
      }
      sources := {};
    }

    /** The body of `stopSession`: the five release steps, then inactive and idle. */
    method Teardown()
      modifies this
      ensures State() == Stopped(old(State()))
      ensures effects == old(effects) + StopEffects(old(State()))
    {
      ghost var s := State();
      ghost var log := effects;
      ReleaseSession();
      ghost var e1 := log + SessionRelease(s);
      assert effects == e1;
      ReleaseTracks();
      ghost var e2 := e1 + TrackRelease(s);
      assert effects == e2;
      ReleaseProcessor();
      ghost var e3 := e2 + ProcessorRelease(s);
      assert effects == e3;
      CloseContexts();
      ghost var e4 := e3 + CloseEffects(s.inputContext) + CloseEffects(s.outputContext);
      assert effects == e4;
      ClearSources();
      assert effects == e4 + SourceRelease(s);
      isActive := false;
      status := Idle;
      assert StopEffects(s) == SessionRelease(s) + TrackRelease(s) + ProcessorRelease(s)
        + CloseEffects(s.inputContext) + CloseEffects(s.outputContext) + SourceRelease(s);
      AppendAssoc(log, SessionRelease(s), TrackRelease(s));
      AppendAssoc(log, SessionRelease(s) + TrackRelease(s), ProcessorRelease(s));
      AppendAssoc(log, SessionRelease(s) + TrackRelease(s) + ProcessorRelease(s), CloseEffects(s.inputContext));
      AppendAssoc(log, SessionRelease(s) + TrackRelease(s) + ProcessorRelease(s) + CloseEffects(s.inputContext),
                  CloseEffects(s.outputContext));
      AppendAssoc(log, SessionRelease(s) + TrackRelease(s) + ProcessorRelease(s) + CloseEffects(s.inputContext)
                  + CloseEffects(s.outputContext), SourceRelease(s));
    }

    /** `stopSession` (lines 69-107). */
    method StopSession()
      requires Valid()
      modifies this
      ensures State() == Stopped(old(State()))
      ensures effects == old(effects) + StopEffects(old(State()))
      ensures Valid()
    {
      ghost var s := State();
      ghost var log := effects;
      Teardown();
      StepConsistent(s, log, StopEvent);
    }

    /** `startSession` (lines 109-235); `setup` says which step of the `try`, if any, throws. */
    method StartSession(setup: Setup)
      requires Valid()
      modifies this
      ensures State() == Start(old(State()), setup, systemInstruction).state
      ensures effects == old(effects) + Start(old(State()), setup, systemInstruction).effects
      ensures Valid()
    {
      ghost var s := State();
      ghost var log := effects;
      StartConsistent(s, log, setup, systemInstruction);
      if isActive {
        return;
      }
      status := Connecting;
      ghost var c := State();
      assert c == s.(status := Connecting);
      StartExits(s, setup, systemInstruction);
      if setup.ClientFails? || setup.InputContextFails? {
        FailBeforeContexts();
      } else if setup.OutputContextFails? {
        FailAfterInputContext();
      } else if setup.MicrophoneDenied? {
        FailAfterContexts();
      } else {
        CompleteSetup();
      }
    }

    /** The client or the input context constructor threw: nothing was created yet. */
    method FailBeforeContexts()
      modifies this
      ensures State() == Failed(old(State()), []).state
      ensures effects == old(effects) + Failed(old(State()), []).effects
    {
      ghost var e := State().(status := Error);
      assert [] + StopEffects(e) == StopEffects(e);
      FailSetup();
    }

    /** The output context constructor threw after the input context was created. */
    method FailAfterInputContext()
      modifies this
      ensures var h := old(nextHandle);
        var c1 := old(State()).(inputContext := Some(AudioCtx(h, InputRate, false)), nextHandle := h + 1);
        && State() == Failed(c1, [CreateContext(h, InputRate)]).state
        && effects == old(effects) + Failed(c1, [CreateContext(h, InputRate)]).effects
    {
      ghost var log := effects;
      var h := nextHandle;
      CreateInputContext();
      ghost var e := State().(status := Error);
      AppendAssoc(log, [CreateContext(h, InputRate)], StopEffects(e));
      FailSetup();
    }

    /** `getUserMedia` rejected after both contexts were created. */
    method FailAfterContexts()
      modifies this
      ensures State() == Failed(WithContexts(old(State())), ContextEffects(old(nextHandle))).state
      ensures effects == old(effects) + Failed(WithContexts(old(State())), ContextEffects(old(nextHandle))).effects
    {
      ghost var log := effects;
      ghost var h := nextHandle;
      CreateContexts();
      ghost var e := State().(status := Error);
      AppendAssoc(log, ContextEffects(h), StopEffects(e));
      FailSetup();
    }

    /** Both audio contexts, input then output. */
    method CreateContexts()
      modifies this
      ensures State() == WithContexts(old(State()))
      ensures effects == old(effects) + ContextEffects(old(nextHandle))
    {
      ghost var log := effects;
      var h := nextHandle;
      CreateInputContext();
      CreateOutputContext();
      assert effects == log + [CreateContext(h, InputRate)] + [CreateContext(h + 1, OutputRate)];
    }

    /** Every step of the `try` succeeds. */
    method CompleteSetup()
      modifies this
      ensures var h := old(nextHandle);
        && State() == WithContexts(old(State())).(stream := Some(h + 2), session := Some(h + 3), nextHandle := h + 4)
        && effects == old(effects) + ContextEffects(h) + [OpenMicrophone(h + 2), Connect(h + 3, systemInstruction)]
    {
      ghost var log := effects;
      ghost var h := nextHandle;
      CreateContexts();
      OpenMicrophoneAndConnect();
      AppendAssoc(log, ContextEffects(h), [OpenMicrophone(h + 2), Connect(h + 3, systemInstruction)]);
    }

    /** `inputAudioContext.current = new AudioCtx({sampleRate: 16000})`. */
    method CreateInputContext()
      modifies this
      ensures State() == old(State()).(inputContext := Some(AudioCtx(old(nextHandle), InputRate, false)),
                                       nextHandle := old(nextHandle) + 1)
      ensures effects == old(effects) + [CreateContext(old(nextHandle), InputRate)]
    {
      var h := nextHandle;
      inputContext := Some(AudioCtx(h, InputRate, false));
      effects := effects + [CreateContext(h, InputRate)];
      nextHandle := h + 1;
    }

    /** The output context at 24000 Hz and its gain node. */
    method CreateOutputContext()
      modifies this
      ensures State() == old(State()).(outputContext := Some(AudioCtx(old(nextHandle), OutputRate, false)),
                                       outputNode := true, nextHandle := old(nextHandle) + 1)
      ensures effects == old(effects) + [CreateContext(old(nextHandle), OutputRate)]
    {
      var h := nextHandle;
      outputContext := Some(AudioCtx(h, OutputRate, false));
      effects := effects + [CreateContext(h, OutputRate)];
      nextHandle := h + 1;
      outputNode := true;
    }

    /** The microphone stream, then `ai.live.connect`, whose promise becomes the session ref. */
    method OpenMicrophoneAndConnect()
      modifies this
      ensures State() == old(State()).(stream := Some(old(nextHandle)), session := Some(old(nextHandle) + 1),
                                       nextHandle := old(nextHandle) + 2)
      ensures effects == old(effects) + [OpenMicrophone(old(nextHandle)), Connect(old(nextHandle) + 1, systemInstruction)]
    {
      var h := nextHandle;
      stream := Some(h);
      effects := effects + [OpenMicrophone(h)];
      session := Some(h + 1);
      effects := effects + [Connect(h + 1, systemInstruction)];
      nextHandle := h + 2;
    }

    /** The `catch` of `startSession`: status 'error', then `stopSession`. */
    method FailSetup()
      modifies this
      ensures State() == Stopped(old(State()).(status := Error))
      ensures effects == old(effects) + StopEffects(old(State()).(status := Error))
    {
      status := Error;
      Teardown();
    }

    /** `onopen`, for the callbacks whose captured microphone stream is `micStream`. */
    method OnOpen(micStream: nat)
      requires Valid()
      modifies this
      ensures State() == Opened(old(State()), micStream).state
      ensures effects == old(effects) + Opened(old(State()), micStream).effects
      ensures Valid()
    {
      ghost var s := State();
      ghost var log := effects;
      StepConsistent(s, log, OpenEvent(micStream));
      status := Connected;
      isActive := true;
      if inputContext.None? {
        return;
      }
      var h := nextHandle;
      processor := Some(h);
      nextHandle := h + 1;
      effects := effects + [WireProcessor(h, micStream, inputContext.value.handle)];
    }

    /** The audio half of `onmessage`. */
    method PlayChunk(now: real, msg: LiveServerMessage)
      modifies this
      ensures State() == PlayAudio(old(State()), now, msg).state
      ensures effects == old(effects) + PlayAudio(old(State()), now, msg).effects
    {
      var base64Audio := AudioOf(msg);
      if base64Audio.Some? && base64Audio.value != "" && outputContext.Some? && outputNode {
        ghost var q := QueueOf(State());
        var audioBuffer := DecodeChunk(base64Audio.value, now);
        if audioBuffer.Ok? {
          var duration := audioBuffer.value.Duration();
          ghost var id := nextHandle;
          assert Playback.StartTime(q, now) == nextStartTime;
          StartChunk(duration);
          assert QueueOf(State()) == Playback.Schedule(q, now, duration, id);
        } else {
          assert QueueOf(State()) == Playback.Drop(q, now);
        }
      }
    }

    /** `nextStartTime = Math.max(...)`, then `decode` and `decodeAudioData`. */
    method DecodeChunk(base64Audio: string, now: real) returns (audioBuffer: Result<Pcm.AudioBuffer, Pcm.DecodeError>)
      modifies this
      ensures audioBuffer == Decode(base64Audio)
      ensures State() == old(State()).(nextStartTime := Playback.Max(old(nextStartTime), now))
      ensures effects == old(effects)
    {
      nextStartTime := Playback.Max(nextStartTime, now);
      var binary := Base64.Atob(base64Audio);
      if binary.None? {
        return Err(Pcm.InvalidBase64);
      }
      var bytes := Pcm.ToBytes(binary.value);
      audioBuffer := Pcm.DecodeAudioData(bytes[..], OutputRate, 1);
    }

    /** A buffer source started at the queue end, which then moves past the chunk. */
    method StartChunk(duration: real)
      modifies this
      ensures State() == old(State()).(nextStartTime := old(nextStartTime) + duration,
                                       sources := old(sources) + {old(nextHandle)}, nextHandle := old(nextHandle) + 1)
      ensures effects == old(effects) + [StartSource(old(nextHandle), old(nextStartTime), duration)]
    {
      var id := nextHandle;
      effects := effects + [StartSource(id, nextStartTime, duration)];
      nextStartTime := nextStartTime + duration;
      sources := sources + {id};
      nextHandle := id + 1;
    }

    /** `onmessage`; `now` is the output context's `currentTime`. */
    method OnMessage(now: real, msg: LiveServerMessage)
      requires Valid()
      modifies this
      ensures State() == Message(old(State()), now, msg).state
      ensures effects == old(effects) + Message(old(State()), now, msg).effects
      ensures Valid()
    {
      ghost var s := State();
      ghost var log := effects;
      StepConsistent(s, log, MessageEvent(now, msg));
      PlayChunk(now, msg);
      if Interrupted(msg) {
        // the interruption: stop every source, clear the set, reset the queue end
        if sources != {} {
          effects := effects + [StopSources(sources)];
        }
        sources := {};
        nextStartTime := 0.0;
      }
    }

    /** `onerror`. */
    method OnError()
      requires Valid()
      modifies this
      ensures State() == Errored(old(State())) && effects == old(effects)
      ensures Valid()
    {
      ghost var s := State();
      StepConsistent(s, effects, ErrorEvent);
      status := Error;
    }

    /** `onclose`. */
    method OnClose()
      requires Valid()
      modifies this
      ensures State() == Closed(old(State())) && effects == old(effects)
      ensures Valid()
    {
      ghost var s := State();
      StepConsistent(s, effects, CloseEvent);
      isActive := false;
    }

    /** `processor.onaudioprocess` for a captured frame `inputData`. */
    method OnAudioProcess(inputData: array<real>)
      requires Valid()
      modifies this
      ensures State() == old(State())
      ensures effects == old(effects) + AudioProcess(old(State()), inputData[..])
      ensures Valid()
    {
      ghost var s := State();
      StepConsistent(s, effects, AudioEvent(inputData[..]));
      if processor.None? {
        return;
      }
      var int16 := Pcm.ToPcm16(inputData);
      var uint8 := Pcm.ByteView(int16[..]);
      var binary := Pcm.ToBinaryString(uint8);
      var base64Data := Base64.Btoa(binary);
      Base64.CodesOfFromCodes(uint8);
      if session.Some? {
        effects := effects + [SendAudio(session.value, base64Data.value)];
      }
    }

    /** The `ended` listener of source `id`. */
    method OnSourceEnded(id: nat)
      requires Valid()
      modifies this
      ensures State() == SourceEnded(old(State()), id) && effects == old(effects)
      ensures Valid()
    {
      ghost var s := State();
      StepConsistent(s, effects, EndedEvent(id));
      sources := sources - {id};
    }
  }
}
