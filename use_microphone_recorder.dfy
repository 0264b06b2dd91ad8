/** The `useMicrophoneRecorder` hook: the session fields it keeps in React
    state, the `chunks` ref it pushes to and reassigns, and the handlers it
    returns. `Session` is the value-level specification of one hook instance;
    `MicrophoneHook` holds the same state in fields and updates it step by
    step, each method proved to produce the state its `Session` step names. */
module UseMicrophoneRecorder {
  import opened Media

  /** What the host passes in: which callbacks are set, the recorder options
      and the optional sound options. */
  datatype HookParams = HookParams(
    hasOnStart: bool,
    hasOnStop: bool,
    hasOnChange: bool,
    hasOnData: bool,
    options: RecorderOptions,
    soundOptions: Option<SoundOptions>)

  /** One key of `{ ...defaults, ...soundOptions }`: a key the caller wrote
      wins, even when it holds undefined. */
  function Override<T>(default: T, e: Entry<T>): Option<T> {
    match e
    case Missing => Some(default)
    case Present(v) => v
  }

  /** The `constraints` memo: echo cancellation, auto gain and noise
      suppression on and two channels, each overridden by the matching key of
      `soundOptions` when the caller wrote it; never video. */
  function CaptureConstraints(soundOptions: Option<SoundOptions>): (c: MediaConstraints)
    ensures !c.video
    ensures soundOptions.None? ==> c.audio == AudioConstraints(Some(true), Some(true), Some(true), Some(2))
    ensures var so := if soundOptions.Some? then soundOptions.value else NoSoundOptions;
      && (so.echoCancellation.Missing? ==> c.audio.echoCancellation == Some(true))
      && (so.echoCancellation.Present? ==> c.audio.echoCancellation == so.echoCancellation.value)
      && (so.autoGainControl.Missing? ==> c.audio.autoGainControl == Some(true))
      && (so.autoGainControl.Present? ==> c.audio.autoGainControl == so.autoGainControl.value)
      && (so.noiseSuppression.Missing? ==> c.audio.noiseSuppression == Some(true))
      && (so.noiseSuppression.Present? ==> c.audio.noiseSuppression == so.noiseSuppression.value)
      && (so.channelCount.Missing? ==> c.audio.channelCount == Some(2))
      && (so.channelCount.Present? ==> c.audio.channelCount == so.channelCount.value)
  {
    var so := if soundOptions.Some? then soundOptions.value else NoSoundOptions;
    MediaConstraints(
      AudioConstraints(
        Override(true, so.echoCancellation),
        Override(true, so.autoGainControl),
        Override(true, so.noiseSuppression),
        Override(2, so.channelCount)),
      false)
  }

  /** Sound options in which the caller wrote every key with a value (as both
      widgets do) reach getUserMedia unchanged. */
  lemma FullSoundOptionsPassThrough(echo: bool, gain: bool, noise: bool, channels: int)
    ensures CaptureConstraints(Some(SoundOptions(Present(Some(echo)), Present(Some(gain)), Present(Some(noise)), Present(Some(channels))))).audio
         == AudioConstraints(Some(echo), Some(gain), Some(noise), Some(channels))
  {
  }

  /** Changing one key of the sound options changes only the matching constraint. */
  lemma OverrideIsPerKey(so: SoundOptions, e: Entry<bool>)
    ensures var a := CaptureConstraints(Some(so)).audio;
      var b := CaptureConstraints(Some(so.(echoCancellation := e))).audio;
      a.autoGainControl == b.autoGainControl && a.noiseSuppression == b.noiseSuppression &&
      a.channelCount == b.channelCount
  {
  }

  /** The options the MediaRecorder is built with: the requested ones when
      their MIME type is non-empty and supported, otherwise the same options
      with an empty MIME type (the platform's default container). */
  function RecorderOptionsFor(options: RecorderOptions, supported: set<string>): (o: RecorderOptions)
    ensures o.audioBitsPerSecond == options.audioBitsPerSecond
    ensures o.mimeType.Some? && IsTypeSupported(supported, o.mimeType.value)
    ensures o == options <==> options.mimeType.Some? && IsTypeSupported(supported, options.mimeType.value)
    ensures o != options ==> o.mimeType == Some("")
  {
    if Truthy(options.mimeType) && IsTypeSupported(supported, options.mimeType.value) then options
    else options.(mimeType := Some(""))
  }

  /** How the promise returned by `startRecording` ends. A denied
      getUserMedia, or a missing AudioContext, throws inside a `then`
      callback that nothing catches, so the promise never settles. */
  datatype StartOutcome = Rejected | NeverSettles | Resolved

  function StartOutcomeOf(env: StartEnv): (r: StartOutcome)
    ensures r == Resolved <==> env.hasMediaDevices && env.grant.Some? && env.hasAudioContext
    ensures r == Rejected <==> !env.hasMediaDevices
  {
    if !env.hasMediaDevices then Rejected
    else if env.grant.None? || !env.hasAudioContext then NeverSettles
    else Resolved
  }

  /** The state of one hook instance. */
  datatype Session = Session(
    mediaStream: Option<nat>,
    mediaRecorder: Option<Recorder>,
    audioContext: Option<AudioCtx>,
    analyser: Option<nat>,
    startTime: Option<int>,
    chunks: seq<Chunk>,
    emitted: seq<Callback>,
    calls: seq<PlatformCall>)
  {
    /** `if (startTime)`: unset, and also a start time of 0, is falsy. */
    predicate Started() {
      startTime.Some? && startTime.value != 0
    }

    /** The handles of a session are held together, and every artifact handed
        to the host is coherent. */
    predicate Valid() {
      (mediaRecorder.Some? ==> mediaStream.Some? && audioContext.Some? && analyser.Some? && startTime.Some?) &&
      CallbacksCoherent(emitted)
    }

    /** `onHandleChunks`: the "dataavailable" listener. */
    function OnHandleChunks(p: HookParams, c: Chunk): Session {
      this.(chunks := chunks + [c], emitted := if p.hasOnData then emitted + [DataCb(c)] else emitted)
    }

    /** `onPause`: hands the host an artifact of the buffer and keeps the buffer. */
    function OnPause(p: HookParams, now: int): Session {
      if !Started() then this
      else
        var o := PayloadObject(chunks, p.options, startTime.value, now);
        this.(calls := calls + [CreateObjectUrl(o.blob.value)],
              emitted := if p.hasOnChange then emitted + [ChangeCb(o)] else emitted)
    }

    /** `onReset`: drops the buffer and hands the host a null artifact. */
    function OnReset(p: HookParams, now: int): Session {
      if !Started() then this
      else
        this.(chunks := [],
              emitted := if p.hasOnChange then emitted + [ChangeCb(NullObject(p.options, startTime.value, now))] else emitted)
    }

    /** `onStop`: hands the host an artifact of the buffer, through onChange
        and then onStop, and empties the buffer. */
    function OnStop(p: HookParams, now: int): Session {
      if !Started() then this
      else
        var o := PayloadObject(chunks, p.options, startTime.value, now);
        this.(chunks := [],
              calls := calls + [CreateObjectUrl(o.blob.value)],
              emitted := emitted + (if p.hasOnChange then [ChangeCb(o)] else []) + (if p.hasOnStop then [StopCb(o)] else []))
    }

    /** The platform calls of the release half of `stopRecording`, in order:
        stop a recorder that is not already inactive, stop the stream's
        tracks, close the audio context. */
    function ReleaseCalls(): seq<PlatformCall> {
      (if mediaRecorder.Some? && mediaRecorder.value.state != Inactive then [RecorderStop] else []) +
      (if mediaStream.Some? then [StopTracks(mediaStream.value)] else []) +
      (if audioContext.Some? then [ContextClose] else [])
    }

    /** The release half of `stopRecording`: every handle and the start time
        are forgotten. */
    function Release(): Session {
      this.(mediaRecorder := None, mediaStream := None, audioContext := None, analyser := None, startTime := None,
            calls := calls + ReleaseCalls())
    }

    /** `stopRecording`: flush, then release recorder, stream, audio context
        and analyser, and forget the start time. */
    function StopRecording(p: HookParams, now: int): Session {
      OnStop(p, now).Release()
    }

    /** `pauseRecording`: flush a checkpoint artifact, then suspend the audio
        context and pause the recorder. */
    function PauseRecording(p: HookParams, now: int): Session {
      var s1 := OnPause(p, now);
      var s2 := if s1.audioContext.None? then s1
                else s1.(audioContext := Some(SuspendContext(s1.audioContext.value)), calls := s1.calls + [ContextSuspend]);
      if s2.mediaRecorder.None? then s2
      else s2.(mediaRecorder := Some(PauseRecorder(s2.mediaRecorder.value)), calls := s2.calls + [RecorderPause])
    }

    /** `resumeRecording`: resume the audio context and the recorder. */
    function ResumeRecording(): Session {
      var s1 := if audioContext.None? then this
                else this.(audioContext := Some(ResumeContext(audioContext.value)), calls := calls + [ContextResume]);
      if s1.mediaRecorder.None? then s1
      else s1.(mediaRecorder := Some(ResumeRecorder(s1.mediaRecorder.value)), calls := s1.calls + [RecorderResume])
    }

    /** `resetRecording`: `onReset` and then `stopRecording`; each reads
        `Date.now()` on its own, at `resetTime` and at `stopTime`. */
    function ResetRecording(p: HookParams, resetTime: int, stopTime: int): Session {
      OnReset(p, resetTime).StopRecording(p, stopTime)
    }

    /** `startRecording`, with a successful grant taken as one step. */
    function StartRecording(p: HookParams, env: StartEnv): Session {
      if !env.hasMediaDevices then this
      else
        var s1 := this.(calls := calls + [RequestMedia(CaptureConstraints(p.soundOptions))]);
        if env.grant.None? then s1
        else
          var s2 := s1.(mediaStream := Some(env.grant.value));
          if !env.hasAudioContext then s2
          else s2.Launch(p, env)
    }

    /** Once the new audio context has resumed: the recorder, built with
        `RecorderOptionsFor`, is started with a 10 ms timeslice, the stream
        is wired to the analyser, the handles and the start time are stored
        and onStart runs. */
    function Launch(p: HookParams, env: StartEnv): Session
      requires env.grant.Some?
    {
      var stream := env.grant.value;
      var recorder := Recorder(env.recorderId, stream, RecorderOptionsFor(p.options, env.supported), Recording, true);
      this.(mediaStream := Some(stream),
            mediaRecorder := Some(recorder),
            audioContext := Some(AudioCtx(env.contextId, Running)),
            analyser := Some(env.analyserId),
            startTime := Some(env.now),
            calls := calls + [ContextResume, RecorderStart(10), ConnectSource(stream)],
            emitted := if p.hasOnStart then emitted + [StartCb] else emitted)
    }

    /** The platform stops the recorder on its own, because its tracks
        ended or after an error. */
    function RecorderEnded(tracksEnded: bool): Session {
      if mediaRecorder.None? then this
      else this.(mediaRecorder := Some(EndRecorder(mediaRecorder.value, tracksEnded)))
    }
  }

  const Initial := Session(None, None, None, None, None, [], [], [])

  /** The keys of the object the hook returns. */
  const ContextKeys: set<string> := {
    "stopRecording", "pauseRecording", "resumeRecording", "resetRecording", "startRecording",
    "audioContext", "audioContextAnalyser"}

  /** Chunks delivered one after another by the recorder. */
  function DeliverAll(p: HookParams, s: Session, cs: seq<Chunk>): Session
    decreases |cs|
  {
    if cs == [] then s else DeliverAll(p, s.OnHandleChunks(p, cs[0]), cs[1..])
  }

  /** Delivered chunks end up at the end of the buffer in arrival order, each
      forwarded to onData when it is set; nothing else changes. */
  lemma {:induction false} DeliverAllAppends(p: HookParams, s: Session, cs: seq<Chunk>)
    ensures var t := DeliverAll(p, s, cs);
      t.chunks == s.chunks + cs &&
      t.emitted == s.emitted + (if p.hasOnData then DataCallbacks(cs) else []) &&
      t.mediaStream == s.mediaStream && t.mediaRecorder == s.mediaRecorder && t.audioContext == s.audioContext &&
      t.analyser == s.analyser && t.startTime == s.startTime && t.calls == s.calls
    decreases |cs|
  {
    if cs != [] {
      var c, rest := cs[0], cs[1..];
      var s' := s.OnHandleChunks(p, c);
      DeliverAllAppends(p, s', rest);
      AppendStep(s.chunks, c, rest, cs);
      if p.hasOnData {
        AppendStep(s.emitted, DataCb(c), DataCallbacks(rest), DataCallbacks(cs));
      }
    }
  }

  lemma AppendStep<T>(a: seq<T>, x: T, b: seq<T>, c: seq<T>)
    requires c == [x] + b
    ensures a + [x] + b == a + c
  {
  }

  /** Without a (truthy) start time, pause, reset and stop emit nothing and
      leave everything as it was. */
  lemma NotStartedIsNoOp(p: HookParams, s: Session, now: int)
    requires !s.Started()
    ensures s.OnPause(p, now) == s && s.OnReset(p, now) == s && s.OnStop(p, now) == s
  {
  }

  /** `onPause` hands over the buffer in order and keeps it. */
  lemma OnPauseKeepsBuffer(p: HookParams, s: Session, now: int)
    requires s.Started()
    ensures var t := s.OnPause(p, now);
      t.chunks == s.chunks && t.startTime == s.startTime && t.mediaRecorder == s.mediaRecorder &&
      t.emitted == s.emitted + (if p.hasOnChange then [ChangeCb(PayloadObject(s.chunks, p.options, s.startTime.value, now))] else [])
  {
  }

  /** `onStop` hands over the buffer in order, typed with the requested MIME
      type, to onChange and then onStop, and leaves the buffer empty. */
  lemma OnStopFlushes(p: HookParams, s: Session, now: int)
    requires s.Started()
    ensures var t := s.OnStop(p, now);
      var o := PayloadObject(s.chunks, p.options, s.startTime.value, now);
      t.chunks == [] && o.blob.value.parts == s.chunks && o.blob.value.mimeType == BlobType(p.options.mimeType) &&
      t.emitted == s.emitted + (if p.hasOnChange then [ChangeCb(o)] else []) + (if p.hasOnStop then [StopCb(o)] else [])
  {
  }

  /** `onReset` empties the buffer and hands over an artifact with no blob and no URL. */
  lemma OnResetEmitsNull(p: HookParams, s: Session, now: int)
    requires s.Started()
    ensures var t := s.OnReset(p, now);
      t.chunks == [] &&
      t.emitted == s.emitted + (if p.hasOnChange then [ChangeCb(NullObject(p.options, s.startTime.value, now))] else []) &&
      (p.hasOnChange ==> t.emitted[|s.emitted|].change.blob.None? && t.emitted[|s.emitted|].change.blobURL.None?)
  {
  }

  /** After `stopRecording` no recorder, stream, audio context, analyser or
      start time is held; the recorder is told to stop exactly when it was
      present and not inactive, the stream's tracks are stopped and the audio
      context closed when they were held. */
  lemma StopRecordingReleases(p: HookParams, s: Session, now: int)
    ensures var t := s.StopRecording(p, now);
      var u := s.OnStop(p, now);
      t.mediaRecorder.None? && t.mediaStream.None? && t.audioContext.None? && t.analyser.None? && t.startTime.None? &&
      t.chunks == u.chunks && t.emitted == u.emitted &&
      t.chunks == (if s.Started() then [] else s.chunks) &&
      |u.calls| <= |t.calls| && t.calls[..|u.calls|] == u.calls &&
      (RecorderStop in t.calls[|u.calls|..] <==> s.mediaRecorder.Some? && s.mediaRecorder.value.state != Inactive) &&
      (s.mediaStream.Some? ==> StopTracks(s.mediaStream.value) in t.calls[|u.calls|..]) &&
      (ContextClose in t.calls[|u.calls|..] <==> s.audioContext.Some?)
  {
    var u := s.OnStop(p, now);
    assert u.mediaRecorder == s.mediaRecorder && u.mediaStream == s.mediaStream && u.audioContext == s.audioContext;
    assert (u.calls + u.ReleaseCalls())[|u.calls|..] == u.ReleaseCalls();
  }

  /** Tearing down twice is the same as tearing down once. */
  lemma StopRecordingIdempotent(p: HookParams, s: Session, now: int, later: int)
    ensures var t := s.StopRecording(p, now); t.StopRecording(p, later) == t
  {
  }

  /** `resetRecording` on a started session emits the null artifact and then,
      since its `onStop` still sees the start time, a second artifact built
      from the now empty buffer. */
  lemma ResetEmitsNullThenEmptyPayload(p: HookParams, s: Session, resetTime: int, stopTime: int)
    requires s.Started()
    ensures var t := s.ResetRecording(p, resetTime, stopTime);
      var empty := PayloadObject([], p.options, s.startTime.value, stopTime);
      t.chunks == [] && t.startTime.None? &&
      t.emitted == s.emitted
        + (if p.hasOnChange then [ChangeCb(NullObject(p.options, s.startTime.value, resetTime)), ChangeCb(empty)] else [])
        + (if p.hasOnStop then [StopCb(empty)] else [])
  {
    var r := s.OnReset(p, resetTime);
    assert r.Started() && r.chunks == [];
    var empty := PayloadObject([], p.options, s.startTime.value, stopTime);
    assert r.OnStop(p, stopTime).emitted == r.emitted + (if p.hasOnChange then [ChangeCb(empty)] else []) + (if p.hasOnStop then [StopCb(empty)] else []);
  }

  /** The buffer handlers keep the session valid. */
  lemma HandlersPreserveValid(p: HookParams, s: Session, c: Chunk, now: int)
    requires s.Valid()
    ensures s.OnHandleChunks(p, c).Valid()
    ensures s.OnPause(p, now).Valid() && s.OnReset(p, now).Valid() && s.OnStop(p, now).Valid()
  {
    AppendCoherent(s.emitted, [DataCb(c)]);
    if s.Started() {
      var o := PayloadObject(s.chunks, p.options, s.startTime.value, now);
      AppendCoherent(s.emitted, [ChangeCb(o)]);
      AppendCoherent(s.emitted, [ChangeCb(NullObject(p.options, s.startTime.value, now))]);
      FlushCoherent(p, s.emitted, o);
    }
  }

  lemma FlushCoherent(p: HookParams, log: seq<Callback>, o: BlobObject)
    requires CallbacksCoherent(log) && Coherent(o)
    ensures CallbacksCoherent(log + (if p.hasOnChange then [ChangeCb(o)] else []) + (if p.hasOnStop then [StopCb(o)] else []))
  {
    var more := (if p.hasOnChange then [ChangeCb(o)] else []) + (if p.hasOnStop then [StopCb(o)] else []);
    AppendCoherent(log, more);
    assert log + (if p.hasOnChange then [ChangeCb(o)] else []) + (if p.hasOnStop then [StopCb(o)] else []) == log + more;
  }

  /** Tearing down keeps the session valid. */
  lemma TeardownPreservesValid(p: HookParams, s: Session, now: int, later: int)
    requires s.Valid()
    ensures s.StopRecording(p, now).Valid() && s.ResetRecording(p, now, later).Valid()
  {
    HandlersPreserveValid(p, s, Chunk([]), now);
    HandlersPreserveValid(p, s.OnReset(p, now), Chunk([]), later);
  }

  /** Pausing, resuming, starting and the platform ending the recorder keep
      the session valid. */
  lemma ControlsPreserveValid(p: HookParams, s: Session, now: int, env: StartEnv, tracksEnded: bool)
    requires s.Valid()
    ensures s.PauseRecording(p, now).Valid() && s.ResumeRecording().Valid()
    ensures s.StartRecording(p, env).Valid() && s.RecorderEnded(tracksEnded).Valid()
  {
    HandlersPreserveValid(p, s, Chunk([]), now);
    AppendCoherent(s.emitted, [StartCb]);
  }

  /** The recording scenario: start, three (or any number of) chunks, stop.
      The host sees onStart, each chunk through onData, and then one artifact
      whose payload is exactly the delivered chunks in order, through onChange
      and onStop; the device was requested once. */
  lemma RecordingScenario(p: HookParams, env: StartEnv, cs: seq<Chunk>, stopTime: int)
    requires StartOutcomeOf(env) == Resolved && env.now != 0
    ensures var started := Initial.StartRecording(p, env);
      var t := DeliverAll(p, started, cs).StopRecording(p, stopTime);
      var o := PayloadObject(cs, p.options, env.now, stopTime);
      t.emitted == (if p.hasOnStart then [StartCb] else [])
                 + (if p.hasOnData then DataCallbacks(cs) else [])
                 + (if p.hasOnChange then [ChangeCb(o)] else [])
                 + (if p.hasOnStop then [StopCb(o)] else []) &&
      t.chunks == [] &&
      |t.calls| > 0 && t.calls[0] == RequestMedia(CaptureConstraints(p.soundOptions)) &&
      t.mediaStream.None? && t.mediaRecorder.None? && t.audioContext.None?
  {
    var started := Initial.StartRecording(p, env);
    StartedSession(p, env);
    DeliverAllAppends(p, started, cs);
    var d := DeliverAll(p, started, cs);
    assert started.chunks + cs == cs;
    assert d.Started() && d.chunks == cs && d.calls == started.calls;
    OnStopFlushes(p, d, stopTime);
    StopRecordingReleases(p, d, stopTime);
  }

  /** What a resolved `startRecording` leaves behind in a fresh hook. */
  lemma StartedSession(p: HookParams, env: StartEnv)
    requires StartOutcomeOf(env) == Resolved
    ensures var s := Initial.StartRecording(p, env);
      var stream := env.grant.value;
      s == Session(
        Some(stream),
        Some(Recorder(env.recorderId, stream, RecorderOptionsFor(p.options, env.supported), Recording, true)),
        Some(AudioCtx(env.contextId, Running)),
        Some(env.analyserId),
        Some(env.now),
        [],
        if p.hasOnStart then [StartCb] else [],
        [RequestMedia(CaptureConstraints(p.soundOptions)), ContextResume, RecorderStart(10), ConnectSource(stream)])
  {
  }

  /** Start, chunks, pause, resume, more chunks, stop: the pause artifact
      holds the first chunks, the stop artifact holds all of them in order,
      and resuming reuses the stream and recorder without a new request. */
  lemma PauseResumeScenario(p: HookParams, env: StartEnv, first: seq<Chunk>, second: seq<Chunk>, pauseTime: int, stopTime: int)
    requires StartOutcomeOf(env) == Resolved && env.now != 0
    ensures var started := Initial.StartRecording(p, env);
      var paused := DeliverAll(p, started, first).PauseRecording(p, pauseTime);
      var resumed := paused.ResumeRecording();
      var t := DeliverAll(p, resumed, second).StopRecording(p, stopTime);
      var po := PayloadObject(first, p.options, env.now, pauseTime);
      var so := PayloadObject(first + second, p.options, env.now, stopTime);
      paused.mediaRecorder.Some? && paused.mediaRecorder.value.state == Paused &&
      resumed.mediaRecorder.Some? && resumed.mediaRecorder.value.state == Recording &&
      resumed.mediaStream == started.mediaStream && resumed.mediaRecorder.value.id == env.recorderId &&
      resumed.calls == started.calls + [CreateObjectUrl(po.blob.value), ContextSuspend, RecorderPause, ContextResume, RecorderResume] &&
      t.emitted == (if p.hasOnStart then [StartCb] else [])
                 + (if p.hasOnData then DataCallbacks(first) else [])
                 + (if p.hasOnChange then [ChangeCb(po)] else [])
                 + (if p.hasOnData then DataCallbacks(second) else [])
                 + (if p.hasOnChange then [ChangeCb(so)] else [])
                 + (if p.hasOnStop then [StopCb(so)] else [])
  {
    var started := Initial.StartRecording(p, env);
    var resumed := DeliverAll(p, started, first).PauseRecording(p, pauseTime).ResumeRecording();
    PauseResumeLeg(p, env, first, pauseTime);
    var po := PayloadObject(first, p.options, env.now, pauseTime);
    var startLog := if p.hasOnStart then [StartCb] else [];
    var dataFirst := if p.hasOnData then DataCallbacks(first) else [];
    var pauseLog := if p.hasOnChange then [ChangeCb(po)] else [];
    DeliverAllAppends(p, resumed, second);
    var e := DeliverAll(p, resumed, second);
    var dataSecond := if p.hasOnData then DataCallbacks(second) else [];
    assert e == resumed.(chunks := first + second, emitted := startLog + dataFirst + pauseLog + dataSecond);
    OnStopFlushes(p, e, stopTime);
    StopRecordingReleases(p, e, stopTime);
  }

  /** The first leg of `PauseResumeScenario`, up to the resume. */
  lemma PauseResumeLeg(p: HookParams, env: StartEnv, first: seq<Chunk>, pauseTime: int)
    requires StartOutcomeOf(env) == Resolved && env.now != 0
    ensures var started := Initial.StartRecording(p, env);
      var po := PayloadObject(first, p.options, env.now, pauseTime);
      var paused := DeliverAll(p, started, first).PauseRecording(p, pauseTime);
      paused.mediaRecorder == Some(started.mediaRecorder.value.(state := Paused)) &&
      paused.ResumeRecording() == started.(
        chunks := first,
        emitted := (if p.hasOnStart then [StartCb] else []) + (if p.hasOnData then DataCallbacks(first) else [])
                   + (if p.hasOnChange then [ChangeCb(po)] else []),
        calls := started.calls + [CreateObjectUrl(po.blob.value), ContextSuspend, RecorderPause, ContextResume, RecorderResume])
  {
    var started := Initial.StartRecording(p, env);
    var po := PayloadObject(first, p.options, env.now, pauseTime);
    var paused := DeliverAll(p, started, first).PauseRecording(p, pauseTime);
    PauseLeg(p, env, first, pauseTime);
    var resumed := paused.ResumeRecording();
    assert resumed == paused.(audioContext := Some(AudioCtx(env.contextId, Running)),
                              mediaRecorder := started.mediaRecorder,
                              calls := paused.calls + [ContextResume, RecorderResume]);
  }

  /** Start, chunks and a pause, spelled out. */
  lemma PauseLeg(p: HookParams, env: StartEnv, first: seq<Chunk>, pauseTime: int)
    requires StartOutcomeOf(env) == Resolved && env.now != 0
    ensures var started := Initial.StartRecording(p, env);
      var po := PayloadObject(first, p.options, env.now, pauseTime);
      DeliverAll(p, started, first).PauseRecording(p, pauseTime) == started.(
        chunks := first,
        audioContext := Some(AudioCtx(env.contextId, Suspended)),
        mediaRecorder := Some(started.mediaRecorder.value.(state := Paused)),
        emitted := (if p.hasOnStart then [StartCb] else []) + (if p.hasOnData then DataCallbacks(first) else [])
                   + (if p.hasOnChange then [ChangeCb(po)] else []),
        calls := started.calls + [CreateObjectUrl(po.blob.value), ContextSuspend, RecorderPause])
  {
    var started := Initial.StartRecording(p, env);
    StartedSession(p, env);
    DeliverAllAppends(p, started, first);
    var d := DeliverAll(p, started, first);
    assert started.chunks + first == first;
    assert d == started.(chunks := first, emitted := started.emitted + (if p.hasOnData then DataCallbacks(first) else []));
    var po := PayloadObject(first, p.options, env.now, pauseTime);
    assert d.OnPause(p, pauseTime) == d.(calls := d.calls + [CreateObjectUrl(po.blob.value)],
                                         emitted := d.emitted + (if p.hasOnChange then [ChangeCb(po)] else []));
  }

  /** The recorder's final "dataavailable" arrives after `stopRecording` has
      flushed the buffer; nothing clears the buffer at start, so that chunk
      opens the next session's payload. */
  lemma LateChunkJoinsNextSession(p: HookParams, s: Session, now: int, late: Chunk, env: StartEnv, cs: seq<Chunk>)
    requires s.Started()
    ensures var next := s.StopRecording(p, now).OnHandleChunks(p, late).StartRecording(p, env);
      DeliverAll(p, next, cs).chunks == [late] + cs
  {
    var next := s.StopRecording(p, now).OnHandleChunks(p, late).StartRecording(p, env);
    assert next.chunks == [late];
    DeliverAllAppends(p, next, cs);
  }

  /** When the requested MIME type is unsupported the recorder falls back to
      the platform default, yet artifacts are still labelled with (the
      normalised form of) the requested type, which is the requested type
      itself when it is already in canonical form. */
  lemma BlobTypeIsRequestedType(p: HookParams, env: StartEnv, stopTime: int)
    requires StartOutcomeOf(env) == Resolved && env.now != 0 && p.hasOnChange
    requires p.options.mimeType.Some? && p.options.mimeType.value != "" && p.options.mimeType.value !in env.supported
    ensures var started := Initial.StartRecording(p, env);
      var t := started.StopRecording(p, stopTime);
      var tag := t.emitted[|started.emitted|].change.blob.value.mimeType;
      started.mediaRecorder.value.options.mimeType == Some("") &&
      tag == NormalizeType(p.options.mimeType.value) &&
      (CanonicalType(p.options.mimeType.value) ==> tag == p.options.mimeType.value)
  {
  }

  /** `stopRecording` after the platform ended the recorder does not call
      stop() on it again, but still releases it. */
  lemma StopAfterRecorderEnded(p: HookParams, s: Session, now: int, tracksEnded: bool)
    requires s.mediaRecorder.Some?
    ensures var t := s.RecorderEnded(tracksEnded).StopRecording(p, now);
      var u := s.RecorderEnded(tracksEnded).OnStop(p, now);
      t.mediaRecorder.None? && RecorderStop !in t.calls[|u.calls|..]
  {
    StopRecordingReleases(p, s.RecorderEnded(tracksEnded), now);
  }

  /** One mounted instance of the hook. */
  class MicrophoneHook {
    const params: HookParams

    var mediaStream: Option<nat>
    var mediaRecorder: Option<Recorder>
    var audioContext: Option<AudioCtx>
    var analyser: Option<nat>
    var startTime: Option<int>
    /** `chunks.current` */
    var chunks: seq<Chunk>
    /** callbacks invoked on the host, in order */
    var emitted: seq<Callback>
    /** calls made on browser objects, in order */
    var calls: seq<PlatformCall>

    function State(): Session
      reads this
    {
      Session(mediaStream, mediaRecorder, audioContext, analyser, startTime, chunks, emitted, calls)
    }

    ghost predicate Valid()
      reads this
    {
      State().Valid()
    }

    constructor (params: HookParams)
      ensures this.params == params && State() == Initial && Valid()
    {
      this.params := params;
      mediaStream, mediaRecorder, audioContext, analyser, startTime := None, None, None, None, None;
      chunks, emitted, calls := [], [], [];
    }

    method OnHandleChunks(c: Chunk)
      requires Valid()
      modifies this
      ensures Valid() && State() == old(State()).OnHandleChunks(params, c)
    {
      HandlersPreserveValid(params, State(), c, 0);
      chunks := chunks + [c];
      if params.hasOnData {
        emitted := emitted + [DataCb(c)];
      }
    }

    method OnPause(now: int)
      requires Valid()
      modifies this
      ensures Valid() && State() == old(State()).OnPause(params, now)
    {
      HandlersPreserveValid(params, State(), Chunk([]), now);
      if startTime.Some? && startTime.value != 0 {
        var blob := Blob(chunks, BlobType(params.options.mimeType));
        var blobObject := BlobObject(Some(blob), startTime.value, now, params.options, Some(ObjectUrl(blob)));
        calls := calls + [CreateObjectUrl(blob)];
        if params.hasOnChange {
          emitted := emitted + [ChangeCb(blobObject)];
        }
      }
    }

    method OnReset(now: int)
      requires Valid()
      modifies this
      ensures Valid() && State() == old(State()).OnReset(params, now)
    {
      HandlersPreserveValid(params, State(), Chunk([]), now);
      if startTime.Some? && startTime.value != 0 {
        chunks := [];
        var blobObject := BlobObject(None, startTime.value, now, params.options, None);
        if params.hasOnChange {
          emitted := emitted + [ChangeCb(blobObject)];
        }
      }
    }

    method OnStop(now: int)
      requires Valid()
      modifies this
      ensures Valid() && State() == old(State()).OnStop(params, now)
    {
      HandlersPreserveValid(params, State(), Chunk([]), now);
      if startTime.Some? && startTime.value != 0 {
        var blob := Blob(chunks, BlobType(params.options.mimeType));
        chunks := [];
        var blobObject := BlobObject(Some(blob), startTime.value, now, params.options, Some(ObjectUrl(blob)));
        calls := calls + [CreateObjectUrl(blob)];
        var toHost := [];
        if params.hasOnChange {
          toHost := toHost + [ChangeCb(blobObject)];
        }
        if params.hasOnStop {
          toHost := toHost + [StopCb(blobObject)];
        }
        emitted := emitted + toHost;
      }
    }

    method StopRecording(now: int)
      requires Valid()
      modifies this
      ensures Valid() && State() == old(State()).StopRecording(params, now)
    {
      TeardownPreservesValid(params, State(), now, now);
      OnStop(now);
      Release();
    }

    /** The release half of `stopRecording`. */
    method Release()
      modifies this
      ensures State() == old(State()).Release()
    {
      var released: seq<PlatformCall> := [];
      if mediaRecorder.Some? {
        if mediaRecorder.value.state != Inactive {
          released := released + [RecorderStop];
        }
        mediaRecorder := None;
      }
      if mediaStream.Some? {
        released := released + [StopTracks(mediaStream.value)];
        mediaStream := None;
      }
      if audioContext.Some? {
        released := released + [ContextClose];
        audioContext := None;
      }
      if analyser.Some? {
        analyser := None;
      }
      startTime := None;
      calls := calls + released;
    }

    method PauseRecording(now: int)
      requires Valid()
      modifies this
      ensures Valid() && State() == old(State()).PauseRecording(params, now)
    {
      ControlsPreserveValid(params, State(), now, StartEnv(false, None, {}, false, 0, 0, 0, 0), false);
      OnPause(now);
      if audioContext.Some? {
        audioContext := Some(SuspendContext(audioContext.value));
        calls := calls + [ContextSuspend];
      }
      if mediaRecorder.Some? {
        mediaRecorder := Some(PauseRecorder(mediaRecorder.value));
        calls := calls + [RecorderPause];
      }
    }

    method ResumeRecording()
      requires Valid()
      modifies this
      ensures Valid() && State() == old(State()).ResumeRecording()
    {
      ControlsPreserveValid(params, State(), 0, StartEnv(false, None, {}, false, 0, 0, 0, 0), false);
      if audioContext.Some? {
        audioContext := Some(ResumeContext(audioContext.value));
        calls := calls + [ContextResume];
      }
      if mediaRecorder.Some? {
        mediaRecorder := Some(ResumeRecorder(mediaRecorder.value));
        calls := calls + [RecorderResume];
      }
    }

    method ResetRecording(resetTime: int, stopTime: int)
      requires Valid()
      modifies this
      ensures Valid() && State() == old(State()).ResetRecording(params, resetTime, stopTime)
    {
      OnReset(resetTime);
      StopRecording(stopTime);
    }

    method StartRecording(env: StartEnv) returns (outcome: StartOutcome)
      requires Valid()
      modifies this
      ensures Valid() && State() == old(State()).StartRecording(params, env)
      ensures outcome == StartOutcomeOf(env)
    {
      ControlsPreserveValid(params, State(), 0, env, false);
      if !env.hasMediaDevices {
        return Rejected;
      }
      calls := calls + [RequestMedia(CaptureConstraints(params.soundOptions))];
      if env.grant.None? {
        return NeverSettles;
      }
      mediaStream := Some(env.grant.value);
      if !env.hasAudioContext {
        return NeverSettles;
      }
      Launch(env);
      outcome := Resolved;
    }

    /** The continuation of `startRecording` once the audio context has resumed. */
    method Launch(env: StartEnv)
      requires env.grant.Some?
      modifies this
      ensures State() == old(State()).Launch(params, env)
    {
      var stream := env.grant.value;
      var recorder := Recorder(env.recorderId, stream, RecorderOptionsFor(params.options, env.supported), Inactive, true);
      var audioCtx := AudioCtx(env.contextId, Running);
      calls := calls + [ContextResume];
      if recorder.state != Recording {
        recorder := recorder.(state := Recording);
        calls := calls + [RecorderStart(10)];
      }
      calls := calls + [ConnectSource(stream)];
      startTime := Some(env.now);
      mediaRecorder := Some(recorder);
      audioContext := Some(audioCtx);
      analyser := Some(env.analyserId);
      mediaStream := Some(stream);
      if params.hasOnStart {
        emitted := emitted + [StartCb];
      }
    }

    /** The platform stops the recorder on its own. */
    method RecorderEnded(tracksEnded: bool)
      requires Valid()
      modifies this
      ensures Valid() && State() == old(State()).RecorderEnded(tracksEnded)
    {
      ControlsPreserveValid(params, State(), 0, StartEnv(false, None, {}, false, 0, 0, 0, 0), tracksEnded);
      if mediaRecorder.Some? {
        mediaRecorder := Some(EndRecorder(mediaRecorder.value, tracksEnded));
      }
    }
  }
}
