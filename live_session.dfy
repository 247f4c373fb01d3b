/** Live mode of services/gemini.ts: the LiveSessionManager object with its
    session handle, its two audio contexts, the playback cursor and the set of
    active sources, and the callbacks that change them. The output clock
    reading, the outcome of decoding a chunk, the microphone permission and
    each captured frame are parameters; device and network effects are
    recorded in ghost logs. */
module LiveSession {
  import opened Wrappers
  import opened Playback

  /** Identity of an AudioContext or of a live session. */
  type HandleId = nat

  const InputSampleRate: nat := 16000
  const OutputSampleRate: nat := 24000

  datatype AudioContext = AudioContext(id: HandleId, sampleRate: nat)

  /** The values passed to `onStatusChange`. */
  datatype Status = Connected | Disconnected | Error

  /** One channel of one captured input buffer. */
  type Frame = seq<real>

  /** `sendRealtimeInput` on a session, carrying the encoding of a frame. */
  datatype Sent = Sent(session: HandleId, frame: Frame)

  /** Effects on devices, the network and the caller, one sequence per kind
      of effect, each in the order it happened; the order across kinds is not
      recorded. */
  datatype Log = Log(
    started: seq<Start>,       // source.start(at)
    stopped: seq<SourceId>,    // source.stop()
    closed: seq<HandleId>,     // audioContext.close()
    statuses: seq<Status>,     // onStatusChange(status)
    sent: seq<Sent>)           // session.sendRealtimeInput(...)

  // ---------------------------------------------------------------------
  // The fields of a LiveServerMessage that handleMessage reads

  datatype InlineData = InlineData(data: Option<string>)
  datatype ContentPart = ContentPart(inlineData: Option<InlineData>)
  datatype ModelTurn = ModelTurn(parts: Option<seq<ContentPart>>)
  datatype ServerContent = ServerContent(modelTurn: Option<ModelTurn>, interrupted: Option<bool>)
  datatype LiveServerMessage = LiveServerMessage(serverContent: Option<ServerContent>)

  /** `message.serverContent?.modelTurn?.parts?.[0]?.inlineData?.data`. */
  function FirstPartData(m: LiveServerMessage): Option<string>
  {
    if m.serverContent.Some? && m.serverContent.value.modelTurn.Some?
       && m.serverContent.value.modelTurn.value.parts.Some?
    then
      var parts := m.serverContent.value.modelTurn.value.parts.value;
      if |parts| > 0 && parts[0].inlineData.Some? then parts[0].inlineData.value.data else None
    else None
  }

  /** The base64 audio of a message, if the `if (base64Audio ...)` test
      accepts it: an empty string is falsy and counts as no audio. */
  function AudioPayload(m: LiveServerMessage): (r: Option<string>)
    ensures r.Some? <==> FirstPartData(m).Some? && FirstPartData(m).value != ""
    ensures r.Some? ==> r == FirstPartData(m)
  {
    match FirstPartData(m)
    case Some(data) => if data != "" then Some(data) else None
    case None => None
  }

  /** `message.serverContent?.interrupted` is truthy. */
  predicate Interrupted(m: LiveServerMessage)
  {
    m.serverContent.Some? && m.serverContent.value.interrupted == Some(true)
  }

  /** `order` lists every element of `s` exactly once. */
  ghost predicate Enumerates(order: seq<SourceId>, s: set<SourceId>)
  {
    |order| == |s| &&
    (forall x :: x in s <==> x in order) &&
    (forall i, j :: 0 <= i < j < |order| ==> order[i] != order[j])
  }

  /** `sources.forEach(s => s.stop())`: the stop effects, one per active
      source, in the set's iteration order (left unspecified). */
  method StopAll(sources: set<SourceId>) returns (order: seq<SourceId>)
    ensures |order| == |sources|
    ensures forall x :: x in sources <==> x in order
    ensures forall i, j :: 0 <= i < j < |order| ==> order[i] != order[j]
  {
    order := [];
    var rest := sources;
    while rest != {}
      invariant rest <= sources
      invariant |order| + |rest| == |sources|
      invariant forall x :: x in order <==> x in sources && x !in rest
      invariant forall i, j :: 0 <= i < j < |order| ==> order[i] != order[j]
      decreases rest
    {
      var s :| s in rest;
      order := order + [s];
      rest := rest - {s};
    }
  }

  class LiveSessionManager {
    var session: Option<HandleId>             // sessionPromise
    var inputContext: Option<AudioContext>    // inputAudioContext
    var outputContext: Option<AudioContext>   // outputAudioContext
    var nextStartTime: Time
    var sources: set<SourceId>
    /** Set once startAudioStream has attached the frame handler. */
    var capturing: bool
    /** Allocators standing for object identity: the next buffer-source node
        and the next context or session get these numbers. */
    var nextSource: SourceId
    var nextHandle: HandleId
    ghost var log: Log

    function Scheduler(): Player
      reads this
    {
      Playback.Player(nextStartTime, sources, nextSource)
    }

    ghost predicate Valid()
      reads this
    {
      Scheduler().Valid() &&
      (session.Some? ==> session.value < nextHandle) &&
      (inputContext.Some? ==> inputContext.value.id < nextHandle) &&
      (outputContext.Some? ==> outputContext.value.id < nextHandle)
    }

    constructor ()
      ensures Valid()
      ensures session == None && inputContext == None && outputContext == None
      ensures Scheduler() == Idle && !capturing
      ensures log == Log([], [], [], [], [])
    {
      session, inputContext, outputContext := None, None, None;
      nextStartTime, sources, nextSource := 0.0, {}, 0;
      capturing, nextHandle := false, 0;
      log := Log([], [], [], [], []);
    }

    /** `connect()`: two fresh contexts at 16 kHz and 24 kHz replace whatever
        was there (nothing is closed, there is no guard against a second
        call); if the microphone is granted a fresh session replaces the old
        one, otherwise the error is reported and the old session handle
        stays. */
    method Connect(micGranted: bool)
      requires Valid()
      modifies this
      ensures Valid()
      ensures inputContext == Some(AudioContext(old(nextHandle), InputSampleRate))
      ensures outputContext == Some(AudioContext(old(nextHandle) + 1, OutputSampleRate))
      ensures micGranted ==> session == Some(old(nextHandle) + 2) && log == old(log)
      ensures !micGranted ==>
        session == old(session) && log == old(log).(statuses := old(log.statuses) + [Error])
      ensures nextHandle == old(nextHandle) + (if micGranted then 3 else 2)
      ensures Scheduler() == old(Scheduler()) && capturing == old(capturing)
    {
      inputContext := Some(AudioContext(nextHandle, InputSampleRate));
      outputContext := Some(AudioContext(nextHandle + 1, OutputSampleRate));
      nextHandle := nextHandle + 2;
      if micGranted {
        session := Some(nextHandle);
        nextHandle := nextHandle + 1;
      } else {
        log := log.(statuses := log.statuses + [Error]);
      }
    }

    /** The session's `onopen` callback: reports 'connected' and starts
        streaming, which attaches the frame handler when an input context
        exists. */
    method OnOpen()
      requires Valid()
      modifies this
      ensures Valid()
      ensures log == old(log).(statuses := old(log.statuses) + [Connected])
      ensures capturing == (old(capturing) || inputContext.Some?)
      ensures Scheduler() == old(Scheduler()) && session == old(session) && nextHandle == old(nextHandle)
      ensures inputContext == old(inputContext) && outputContext == old(outputContext)
    {
      log := log.(statuses := log.statuses + [Connected]);
      if inputContext.Some? {
        capturing := true;
      }
    }

    /** The session's `onclose` callback. */
    method OnClose()
      requires Valid()
      modifies this`log
      ensures Valid()
      ensures log == old(log).(statuses := old(log.statuses) + [Disconnected])
    {
      log := log.(statuses := log.statuses + [Disconnected]);
    }

    /** The session's `onerror` callback. */
    method OnError()
      requires Valid()
      modifies this`log
      ensures Valid()
      ensures log == old(log).(statuses := old(log.statuses) + [Error])
    {
      log := log.(statuses := log.statuses + [Error]);
    }

    /** The frame handler: a captured frame is sent once on the current
        session, or dropped when there is none. */
    method OnAudioProcess(frame: Frame)
      requires Valid() && capturing
      modifies this`log
      ensures Valid()
      ensures session.Some? ==> log == old(log).(sent := old(log.sent) + [Sent(session.value, frame)])
      ensures session.None? ==> log == old(log)
    {
      if session.None? {
        return;
      }
      log := log.(sent := log.sent + [Sent(session.value, frame)]);
    }

    /** `handleMessage`: the audio branch (cursor raised to the clock, then,
        if decoding succeeds, a fresh source started at the cursor, the cursor
        advanced and the source added), followed in the same message by the
        interruption branch (stop every source, clear, cursor to zero). */
    method HandleMessage(msg: LiveServerMessage, now: Time, decode: Decode)
      requires Valid()
      modifies this
      ensures Valid()
      ensures var o := Receive(old(Scheduler()), AudioPayload(msg).Some? && old(outputContext).Some?,
                               Interrupted(msg), now, decode);
        Scheduler() == o.player &&
        log.started == old(log.started) + StartsOf(o.started) &&
        |old(log.stopped)| <= |log.stopped| &&
        log.stopped[..|old(log.stopped)|] == old(log.stopped) &&
        Enumerates(log.stopped[|old(log.stopped)|..], o.stopped)
      ensures log.closed == old(log.closed) && log.statuses == old(log.statuses) && log.sent == old(log.sent)
      ensures session == old(session) && capturing == old(capturing) && nextHandle == old(nextHandle)
      ensures inputContext == old(inputContext) && outputContext == old(outputContext)
    {
      var audio := AudioPayload(msg).Some? && outputContext.Some?;
      if audio {
        PlayChunk(now, decode);
      }
      if Interrupted(msg) {
        StopPlayback();
      }
    }

    /** The audio branch of handleMessage, past its guard. */
    method PlayChunk(now: Time, decode: Decode)
      requires Valid()
      modifies this`nextStartTime, this`nextSource, this`sources, this`log
      ensures Valid()
      ensures Scheduler() == Schedule(old(Scheduler()), now, decode).0
      ensures log == old(log).(started := old(log.started) + StartsOf(Schedule(old(Scheduler()), now, decode).1))
    {
      nextStartTime := Max(nextStartTime, now);
      match decode
      case DecodeFailed =>
      case Decoded(duration) =>
        var source := nextSource;
        nextSource := nextSource + 1;
        log := log.(started := log.started + [Start(source, nextStartTime, duration)]);
        nextStartTime := nextStartTime + duration;
        sources := sources + {source};
    }

    /** The interruption branch of handleMessage. */
    method StopPlayback()
      requires Valid()
      modifies this`nextStartTime, this`sources, this`log
      ensures Valid()
      ensures Scheduler() == Interrupt(old(Scheduler())).0
      ensures log.started == old(log.started) && log.closed == old(log.closed)
      ensures log.statuses == old(log.statuses) && log.sent == old(log.sent)
      ensures |old(log.stopped)| <= |log.stopped| &&
        log.stopped[..|old(log.stopped)|] == old(log.stopped) &&
        Enumerates(log.stopped[|old(log.stopped)|..], old(sources))
    {
      var order := StopAll(sources);
      log := log.(stopped := log.stopped + order);
      assert log.stopped[|old(log.stopped)|..] == order;
      sources := {};
      nextStartTime := 0.0;
    }

    /** A source's `ended` listener. */
    method OnSourceEnded(source: SourceId)
      requires Valid() && source < nextSource
      modifies this`sources
      ensures Valid()
      ensures Scheduler() == Ended(old(Scheduler()), source)
    {
      sources := sources - {source};
    }

    /** `disconnect()`: stops every active source and closes whichever
        contexts exist, drops the session handle and reports 'disconnected',
        on every call. The sources set, the cursor and the context handles
        are left as they were. */
    method Disconnect()
      requires Valid()
      modifies this
      ensures Valid()
      ensures session == None
      ensures |old(log.stopped)| <= |log.stopped| &&
        log.stopped[..|old(log.stopped)|] == old(log.stopped) &&
        Enumerates(log.stopped[|old(log.stopped)|..], old(sources))
      ensures log.closed == old(log.closed) + ContextIds(old(inputContext)) + ContextIds(old(outputContext))
      ensures log.statuses == old(log.statuses) + [Disconnected]
      ensures log.started == old(log.started) && log.sent == old(log.sent)
      ensures Scheduler() == old(Scheduler()) && capturing == old(capturing) && nextHandle == old(nextHandle)
      ensures inputContext == old(inputContext) && outputContext == old(outputContext)
    {
      var order := StopAll(sources);
      log := log.(stopped := log.stopped + order);
      assert log.stopped[|old(log.stopped)|..] == order;
      if inputContext.Some? {
        log := log.(closed := log.closed + [inputContext.value.id]);
      }
      if outputContext.Some? {
        log := log.(closed := log.closed + [outputContext.value.id]);
      }
      session := None;
      log := log.(statuses := log.statuses + [Disconnected]);
    }
  }

  function ContextIds(c: Option<AudioContext>): seq<HandleId>
  {
    if c.Some? then [c.value.id] else []
  }

  // ---------------------------------------------------------------------
  // Sequences of calls

  /** `disconnect` is not idempotent: a second call reports 'disconnected'
      again and closes the same contexts again. */
  method DisconnectTwice(m: LiveSessionManager)
    requires m.Valid()
    modifies m
    ensures m.log.statuses == old(m.log.statuses) + [Disconnected, Disconnected]
    ensures var closedOnce := ContextIds(old(m.inputContext)) + ContextIds(old(m.outputContext));
      m.log.closed == old(m.log.closed) + closedOnce + closedOnce
    ensures m.session == None && m.Scheduler() == old(m.Scheduler())
  {
    m.Disconnect();
    m.Disconnect();
  }

  /** Once disconnected, a frame delivered by the still-attached handler is
      dropped: nothing is sent. */
  method FrameAfterDisconnect(m: LiveSessionManager, frame: Frame)
    requires m.Valid() && m.capturing
    modifies m
    ensures m.log.sent == old(m.log.sent)
    ensures m.session == None
  {
    m.Disconnect();
    m.OnAudioProcess(frame);
  }

  /** `disconnect` closes the output context but keeps the handle, so an
      audio chunk that arrives afterwards is still started and tracked. */
  method AudioAfterDisconnect(m: LiveSessionManager, msg: LiveServerMessage, now: Time, duration: Time)
    requires m.Valid() && m.outputContext.Some?
    requires AudioPayload(msg).Some? && !Interrupted(msg)
    modifies m
    ensures m.session == None
    ensures |m.log.started| == |old(m.log.started)| + 1
    ensures m.log.started[|old(m.log.started)|].source in m.sources
    ensures m.log.started[|old(m.log.started)|].at >= now
  {
    m.Disconnect();
    m.HandleMessage(msg, now, Decoded(duration));
  }

  /** `connect` after `disconnect` keeps the old cursor while the new output
      context's clock starts again from zero, so the first chunk of the new
      session waits until that clock reaches the old cursor. */
  method ReconnectKeepsCursor(m: LiveSessionManager, msg: LiveServerMessage, now: Time, duration: Time)
    requires m.Valid()
    requires AudioPayload(msg).Some? && !Interrupted(msg)
    requires now <= m.nextStartTime
    modifies m
    ensures m.session.Some? && m.session != old(m.session)
    ensures |m.log.started| == |old(m.log.started)| + 1
    ensures m.log.started[|old(m.log.started)|].at == old(m.nextStartTime)
  {
    m.Disconnect();
    m.Connect(true);
    m.HandleMessage(msg, now, Decoded(duration));
  }
}
