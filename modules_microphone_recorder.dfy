/** The class-based recorder of `src/modules/MicrophoneRecorder.ts`. Its chunk
    buffer, start time, stream, audio context and analyser are module-level
    variables; the model keeps them beside the instance fields `mediaRecorder`
    and `actionsOnStop` in one state, since only one instance is modelled.
    The recorder's stop event runs whichever action `actionsOnStop` holds at
    that moment: `onStop` after `startRecording`, `onReset` after
    `resetRecording`. */
module ModulesMicrophoneRecorder {
  import opened Media

  /** What the constructor stores in module-level variables. */
  datatype Params = Params(
    hasOnStart: bool,
    hasOnChange: bool,
    hasOnData: bool,
    mediaOptions: RecorderOptions,
    constraints: MediaConstraints)

  function ParamsFor(hasOnStart: bool, hasOnChange: bool, hasOnData: bool, options: RecorderOptions, soundOptions: SoundOptions): Params {
    Params(hasOnStart, hasOnChange, hasOnData, options, SoundConstraints(soundOptions))
  }

  /** The two methods `actionsOnStop` can point at. */
  datatype StopAction = RunOnStop | RunOnReset

  datatype State = State(
    chunks: seq<Chunk>,
    startTime: Option<int>,
    stream: Option<nat>,
    audioCtx: Option<AudioCtx>,
    analyser: Option<nat>,
    mediaRecorder: Option<Recorder>,
    actionsOnStop: Option<StopAction>,
    emitted: seq<Callback>,
    calls: seq<PlatformCall>)
  {
    /** A held recorder came with its stream and a start time, and either
        with an audio context and an analyser or, when the context could not
        be created, it never started; a held recorder whose stream is no
        longer active is inactive; every artifact handed to the host is
        coherent. */
    predicate Valid() {
      (mediaRecorder.Some? ==>
         stream == Some(mediaRecorder.value.stream) && startTime.Some? &&
         ((audioCtx.Some? && analyser.Some?) || (audioCtx.None? && mediaRecorder.value.state == Inactive)) &&
         (!mediaRecorder.value.streamActive ==> mediaRecorder.value.state == Inactive)) &&
      CallbacksCoherent(emitted)
    }

    /** `startRecording` throws: the held branch reaches `start(10)` on an
        inactive recorder whose stream is no longer active, and MediaRecorder
        throws NotSupportedError. */
    predicate StartThrows() {
      mediaRecorder.Some? && audioCtx.Some? &&
      mediaRecorder.value.state == Inactive && !mediaRecorder.value.streamActive
    }

    /** `ondataavailable` */
    function DataAvailable(p: Params, c: Chunk): State {
      this.(chunks := chunks + [c], emitted := if p.hasOnData then emitted + [DataCb(c)] else emitted)
    }

    /** `onPause`: an artifact of the buffer; the buffer stays. */
    function OnPause(p: Params, now: int): State
      requires startTime.Some?
    {
      var o := PayloadObject(chunks, p.mediaOptions, startTime.value, now);
      this.(calls := calls + [CreateObjectUrl(o.blob.value)],
            emitted := if p.hasOnChange then emitted + [ChangeCb(o)] else emitted)
    }

    /** `onReset`: the buffer is dropped and a null artifact handed over. */
    function OnReset(p: Params, now: int): State
      requires startTime.Some?
    {
      this.(chunks := [],
            emitted := if p.hasOnChange then emitted + [ChangeCb(NullObject(p.mediaOptions, startTime.value, now))] else emitted)
    }

    /** `onStop`: an artifact of the buffer, and the buffer is emptied. */
    function OnStop(p: Params, now: int): State
      requires startTime.Some?
    {
      var o := PayloadObject(chunks, p.mediaOptions, startTime.value, now);
      this.(chunks := [],
            calls := calls + [CreateObjectUrl(o.blob.value)],
            emitted := if p.hasOnChange then emitted + [ChangeCb(o)] else emitted)
    }

    /** `onstop`: runs the current `actionsOnStop`, if any. */
    function StopEvent(p: Params, now: int): State
      requires startTime.Some?
    {
      match actionsOnStop
      case None => this
      case Some(RunOnStop) => OnStop(p, now)
      case Some(RunOnReset) => OnReset(p, now)
    }

    /** `onpause` */
    function PauseEvent(p: Params, now: int): State
      requires startTime.Some?
    {
      OnPause(p, now)
    }

    /** `startRecording`. A held recorder is resumed (when paused) or
        restarted (when inactive); without one, a stream is acquired and a
        new recorder built, taken as one step when access is granted. */
    function StartRecording(p: Params, env: StartEnv): State {
      var s0 := this.(startTime := Some(env.now), actionsOnStop := Some(RunOnStop));
      if s0.mediaRecorder.Some? then s0.RestartHeld(p)
      else if env.hasMediaDevices then s0.Acquire(p, env)
      else s0.(calls := s0.calls + [AlertUnsupported])
    }

    /** The branch of `startRecording` taken while a recorder is held. */
    function RestartHeld(p: Params): State
      requires mediaRecorder.Some?
    {
      var s1 := if audioCtx.Some? && audioCtx.value.state == Suspended
                then this.(audioCtx := Some(ResumeContext(audioCtx.value)), calls := calls + [ContextResume])
                else this;
      var r := s1.mediaRecorder.value;
      if r.state == Paused then
        s1.(mediaRecorder := Some(ResumeRecorder(r)), calls := s1.calls + [RecorderResume])
      else if s1.audioCtx.Some? && r.state == Inactive && !r.streamActive then
        // start(10) throws; nothing after it runs
        s1.(calls := s1.calls + [RecorderStart(10)])
      else if s1.audioCtx.Some? && r.state == Inactive then
        s1.(mediaRecorder := Some(r.(state := Recording)),
            calls := s1.calls + [RecorderStart(10), ConnectSource(r.stream)],
            emitted := if p.hasOnStart then s1.emitted + [StartCb] else s1.emitted)
      else s1
    }

    /** The branch of `startRecording` that asks for the microphone. On a
        grant a recorder is built on the stream, with the configured options
        when their type is supported and with none otherwise, stored, and
        onStart runs. The shared audio context is then fetched, created on
        first use; without an AudioContext constructor that throws, and the
        recorder stays inactive. Otherwise the recorder is started once the
        context has resumed. */
    function Acquire(p: Params, env: StartEnv): State {
      var s1 := this.(calls := calls + [RequestMedia(p.constraints)]);
      if env.grant.None? then s1
      else
        var stream := env.grant.value;
        var options := if SupportsOption(env.supported, p.mediaOptions.mimeType) then p.mediaOptions else NoRecorderOptions;
        var recorder := Recorder(env.recorderId, stream, options, Inactive, true);
        var s2 := s1.(stream := Some(stream),
                      mediaRecorder := Some(recorder),
                      emitted := if p.hasOnStart then s1.emitted + [StartCb] else s1.emitted);
        if s2.audioCtx.None? && !env.hasAudioContext then s2
        else
          var ctx := if s2.audioCtx.Some? then ResumeContext(s2.audioCtx.value) else AudioCtx(env.contextId, Running);
          s2.(mediaRecorder := Some(recorder.(state := Recording)),
              audioCtx := Some(ctx),
              analyser := Some(env.analyserId),
              calls := s2.calls + [ContextResume, RecorderStart(10), ConnectSource(stream)])
    }

    /** `stopRecording(callback?)`: only a held, non-inactive recorder is
        stopped; its stream's tracks are stopped, the recorder is dropped, the
        shared analyser reset and the callback run. */
    function StopRecording(hasCallback: bool): State {
      if mediaRecorder.Some? && mediaRecorder.value.state != Inactive then
        this.(mediaRecorder := None,
              calls := calls + [RecorderStop, StopTracks(mediaRecorder.value.stream), ResetAnalyser],
              emitted := if hasCallback then emitted + [DoneCb] else emitted)
      else this
    }

    /** `pauseRecording` */
    function PauseRecording(): State {
      var s1 := if audioCtx.None? then this
                else this.(audioCtx := Some(SuspendContext(audioCtx.value)), calls := calls + [ContextSuspend]);
      if s1.mediaRecorder.None? then s1
      else s1.(mediaRecorder := Some(PauseRecorder(s1.mediaRecorder.value)), calls := s1.calls + [RecorderPause])
    }

    /** `resumeRecording` */
    function ResumeRecording(): State {
      var s1 := if audioCtx.None? then this
                else this.(audioCtx := Some(ResumeContext(audioCtx.value)), calls := calls + [ContextResume]);
      if s1.mediaRecorder.None? then s1
      else s1.(mediaRecorder := Some(ResumeRecorder(s1.mediaRecorder.value)), calls := s1.calls + [RecorderResume])
    }

    /** The platform ends the recorder on its own, because its stream's
        tracks ended or after an error: the recorder becomes inactive and
        stays held; its stop event follows. */
    function RecorderEnded(tracksEnded: bool): State {
      if mediaRecorder.None? then this
      else this.(mediaRecorder := Some(EndRecorder(mediaRecorder.value, tracksEnded)))
    }

    /** `resetRecording`: point `actionsOnStop` at `onReset`, then stop. */
    function ResetRecording(): State {
      this.(actionsOnStop := Some(RunOnReset)).StopRecording(false)
    }
  }

  const Initial := State([], None, None, None, None, None, None, [], [])

  /** Each chunk is appended at the end of the shared buffer and forwarded to
      onData when it is set. */
  lemma DataAvailableAppends(p: Params, s: State, c: Chunk)
    ensures var t := s.DataAvailable(p, c);
      t.chunks == s.chunks + [c] && |t.chunks| == |s.chunks| + 1 && t.chunks[|s.chunks|] == c &&
      t.emitted == s.emitted + (if p.hasOnData then [DataCb(c)] else [])
  {
  }

  /** `onPause` hands over the buffer and keeps it; `onStop` hands it over and
      empties it; `onReset` empties it and hands over a null artifact. */
  lemma HandlersOnBuffer(p: Params, s: State, now: int)
    requires s.startTime.Some?
    ensures s.OnPause(p, now).chunks == s.chunks
    ensures s.OnStop(p, now).chunks == [] && s.OnReset(p, now).chunks == []
    ensures p.hasOnChange ==>
      s.OnPause(p, now).emitted == s.emitted + [ChangeCb(PayloadObject(s.chunks, p.mediaOptions, s.startTime.value, now))] &&
      s.OnStop(p, now).emitted == s.emitted + [ChangeCb(PayloadObject(s.chunks, p.mediaOptions, s.startTime.value, now))] &&
      s.OnReset(p, now).emitted == s.emitted + [ChangeCb(NullObject(p.mediaOptions, s.startTime.value, now))]
  {
  }

  /** Every `startRecording` overwrites the start time and points
      `actionsOnStop` at `onStop`, whichever branch it takes. */
  lemma StartSetsTimeAndAction(p: Params, s: State, env: StartEnv)
    ensures var t := s.StartRecording(p, env);
      t.startTime == Some(env.now) && t.actionsOnStop == Some(RunOnStop)
  {
  }

  /** After `startRecording`, the recorder's stop event yields an artifact of
      the buffer and empties it. */
  lemma StopEventAfterStart(p: Params, s: State, env: StartEnv, hasCallback: bool, now: int)
    requires p.hasOnChange
    ensures var u := s.StartRecording(p, env).StopRecording(hasCallback);
      var t := u.StopEvent(p, now);
      t.chunks == [] &&
      t.emitted == u.emitted + [ChangeCb(PayloadObject(u.chunks, p.mediaOptions, env.now, now))]
  {
    StartSetsTimeAndAction(p, s, env);
  }

  /** After `resetRecording`, the recorder's stop event yields the null artifact. */
  lemma StopEventAfterReset(p: Params, s: State, now: int)
    requires s.startTime.Some? && p.hasOnChange
    ensures var u := s.ResetRecording();
      var t := u.StopEvent(p, now);
      t.chunks == [] && t.emitted == u.emitted + [ChangeCb(NullObject(p.mediaOptions, s.startTime.value, now))]
  {
  }

  /** A `startRecording` that runs between `resetRecording` and the recorder's
      stop event turns that event back into a stop: the host receives the
      buffer instead of the null artifact. */
  lemma StartBeforeStopEventUndoesReset(p: Params, s: State, env: StartEnv, now: int)
    requires p.hasOnChange
    ensures var u := s.ResetRecording().StartRecording(p, env);
      var t := u.StopEvent(p, now);
      t.emitted[|u.emitted|].change.blob.Some?
  {
    StartSetsTimeAndAction(p, s.ResetRecording(), env);
  }

  /** `stopRecording` does nothing unless a recorder is held and not
      inactive; otherwise it stops it, stops its stream's tracks and drops it. */
  lemma StopRecordingGuard(s: State, hasCallback: bool)
    ensures var t := s.StopRecording(hasCallback);
      if s.mediaRecorder.Some? && s.mediaRecorder.value.state != Inactive then
        t.mediaRecorder.None? && t.chunks == s.chunks &&
        t.calls == s.calls + [RecorderStop, StopTracks(s.mediaRecorder.value.stream), ResetAnalyser] &&
        t.emitted == s.emitted + (if hasCallback then [DoneCb] else [])
      else t == s
  {
  }

  /** After a stop that took effect, the next `startRecording` requests the
      device again and builds a new recorder. */
  lemma StartAfterStopAcquires(p: Params, s: State, hasCallback: bool, env: StartEnv)
    requires s.Valid() && s.mediaRecorder.Some? && s.mediaRecorder.value.state != Inactive
    requires env.hasMediaDevices && env.grant.Some?
    ensures var u := s.StopRecording(hasCallback);
      var t := u.StartRecording(p, env);
      t.calls[|u.calls|] == RequestMedia(p.constraints) &&
      t.mediaRecorder == Some(Recorder(env.recorderId, env.grant.value,
                                       if SupportsOption(env.supported, p.mediaOptions.mimeType) then p.mediaOptions else NoRecorderOptions,
                                       Recording, true)) &&
      t.stream == env.grant
  {
  }

  /** `startRecording` on a paused recorder resumes it and returns: no new
      stream is requested and the recorder and stream are kept. */
  lemma StartOnPausedResumes(p: Params, s: State, env: StartEnv)
    requires s.mediaRecorder.Some? && s.mediaRecorder.value.state == Paused
    ensures var t := s.StartRecording(p, env);
      t.mediaRecorder == Some(s.mediaRecorder.value.(state := Recording)) &&
      t.stream == s.stream && t.chunks == s.chunks && t.emitted == s.emitted &&
      t.calls == s.calls
        + (if s.audioCtx.Some? && s.audioCtx.value.state == Suspended then [ContextResume] else [])
        + [RecorderResume]
  {
  }

  /** Without an AudioContext constructor and with no context held yet, the
      promise callback throws once the new recorder is stored and onStart has
      run: the recorder is held but inactive, no context or analyser exists,
      and nothing was started or connected. */
  lemma AcquireWithoutAudioContext(p: Params, s: State, env: StartEnv)
    requires s.audioCtx.None? && !env.hasAudioContext && env.grant.Some?
    ensures var t := s.Acquire(p, env);
      t.mediaRecorder.Some? && t.mediaRecorder.value.state == Inactive &&
      t.mediaRecorder.value.stream == env.grant.value && t.stream == env.grant &&
      t.audioCtx.None? && t.analyser == s.analyser &&
      t.calls == s.calls + [RequestMedia(p.constraints)] &&
      t.emitted == s.emitted + (if p.hasOnStart then [StartCb] else [])
  {
  }

  /** A held recorder that never started, with no audio context, is stuck:
      a start only overwrites the start time and the stop action (the held
      branch neither resumes nor restarts it), a stop does nothing (it is
      inactive), and pausing or resuming leaves it inactive. */
  lemma StuckWithoutAudioContext(p: Params, s: State, env: StartEnv, hasCallback: bool)
    requires s.mediaRecorder.Some? && s.mediaRecorder.value.state == Inactive && s.audioCtx.None?
    ensures s.StartRecording(p, env) == s.(startTime := Some(env.now), actionsOnStop := Some(RunOnStop))
    ensures s.StopRecording(hasCallback) == s
    ensures s.PauseRecording().mediaRecorder == s.mediaRecorder && s.ResumeRecording().mediaRecorder == s.mediaRecorder
  {
  }

  /** A first start on a platform without AudioContext never records, and
      no later start or stop changes that. */
  lemma NoAudioContextNeverRecords(p: Params, env: StartEnv, later: StartEnv, hasCallback: bool)
    requires env.hasMediaDevices && env.grant.Some? && !env.hasAudioContext
    ensures var u := Initial.StartRecording(p, env);
      u.mediaRecorder.Some? && u.mediaRecorder.value.state == Inactive &&
      RecorderStart(10) !in u.calls &&
      u.StartRecording(p, later).mediaRecorder == u.mediaRecorder &&
      u.StopRecording(hasCallback) == u
  {
    var s0 := Initial.(startTime := Some(env.now), actionsOnStop := Some(RunOnStop));
    AcquireWithoutAudioContext(p, s0, env);
    var u := Initial.StartRecording(p, env);
    assert u.calls == [RequestMedia(p.constraints)];
    StuckWithoutAudioContext(p, u, later, hasCallback);
  }

  /** A held recorder that ended while a context exists is restarted by the
      next `startRecording` exactly when its stream is still active. When
      its tracks ended, `start(10)` throws: the recorder stays inactive, no
      source is connected and onStart does not run. */
  lemma RestartNeedsActiveStream(p: Params, s: State, env: StartEnv, tracksEnded: bool)
    requires s.mediaRecorder.Some? && s.audioCtx.Some?
    ensures var u := s.RecorderEnded(tracksEnded);
      var t := u.StartRecording(p, env);
      var resumed := if s.audioCtx.value.state == Suspended then [ContextResume] else [];
      (u.StartThrows() <==> tracksEnded || !s.mediaRecorder.value.streamActive) &&
      (u.StartThrows() ==>
         t.mediaRecorder == u.mediaRecorder && t.mediaRecorder.value.state == Inactive &&
         t.calls == s.calls + resumed + [RecorderStart(10)] && t.emitted == s.emitted) &&
      (!u.StartThrows() ==>
         t.mediaRecorder == Some(s.mediaRecorder.value.(state := Recording)) &&
         t.calls == s.calls + resumed + [RecorderStart(10), ConnectSource(s.mediaRecorder.value.stream)] &&
         t.emitted == s.emitted + (if p.hasOnStart then [StartCb] else []))
  {
  }

  /** Every step keeps the state valid. */
  lemma StepsPreserveValid(p: Params, s: State, c: Chunk, now: int, env: StartEnv, hasCallback: bool, tracksEnded: bool)
    requires s.Valid()
    ensures s.DataAvailable(p, c).Valid()
    ensures s.startTime.Some? ==> s.OnPause(p, now).Valid() && s.OnReset(p, now).Valid() && s.OnStop(p, now).Valid()
    ensures s.startTime.Some? ==> s.StopEvent(p, now).Valid() && s.PauseEvent(p, now).Valid()
    ensures s.StartRecording(p, env).Valid() && s.StopRecording(hasCallback).Valid()
    ensures s.PauseRecording().Valid() && s.ResumeRecording().Valid() && s.ResetRecording().Valid()
    ensures s.RecorderEnded(tracksEnded).Valid()
  {
    AppendCoherent(s.emitted, [DataCb(c)]);
    AppendCoherent(s.emitted, [StartCb]);
    AppendCoherent(s.emitted, [DoneCb]);
    if s.startTime.Some? {
      AppendCoherent(s.emitted, [ChangeCb(PayloadObject(s.chunks, p.mediaOptions, s.startTime.value, now))]);
      AppendCoherent(s.emitted, [ChangeCb(NullObject(p.mediaOptions, s.startTime.value, now))]);
    }
    var r := s.ResetRecording().(actionsOnStop := None);
    assert r.Valid();
  }

  /** One instance, together with the module-level variables it uses. */
  class MicrophoneRecorder {
    const params: Params

    // module-level variables
    var chunks: seq<Chunk>
    var startTime: Option<int>
    var stream: Option<nat>
    var audioCtx: Option<AudioCtx>
    var analyser: Option<nat>
    // instance fields
    var mediaRecorder: Option<Recorder>
    var actionsOnStop: Option<StopAction>
    /** callbacks invoked on the host, in order */
    var emitted: seq<Callback>
    /** calls made on browser objects, in order */
    var calls: seq<PlatformCall>

    function Snapshot(): State
      reads this
    {
      State(chunks, startTime, stream, audioCtx, analyser, mediaRecorder, actionsOnStop, emitted, calls)
    }

    ghost predicate Valid()
      reads this
    {
      Snapshot().Valid()
    }

    constructor (hasOnStart: bool, hasOnChange: bool, hasOnData: bool, options: RecorderOptions, soundOptions: SoundOptions)
      ensures params == ParamsFor(hasOnStart, hasOnChange, hasOnData, options, soundOptions)
      ensures params.constraints == SoundConstraints(soundOptions)
      ensures Snapshot() == Initial && Valid()
    {
      params := Params(hasOnStart, hasOnChange, hasOnData, options, SoundConstraints(soundOptions));
      chunks, startTime, stream, audioCtx, analyser := [], None, None, None, None;
      mediaRecorder, actionsOnStop := None, None;
      emitted, calls := [], [];
    }

    method DataAvailable(c: Chunk)
      requires Valid()
      modifies this
      ensures Valid() && Snapshot() == old(Snapshot()).DataAvailable(params, c)
    {
      StepsPreserveValid(params, Snapshot(), c, 0, StartEnv(false, None, {}, false, 0, 0, 0, 0), false, false);
      chunks := chunks + [c];
      if params.hasOnData {
        emitted := emitted + [DataCb(c)];
      }
    }

    method OnPause(now: int)
      requires Valid() && startTime.Some?
      modifies this
      ensures Valid() && Snapshot() == old(Snapshot()).OnPause(params, now)
    {
      StepsPreserveValid(params, Snapshot(), Chunk([]), now, StartEnv(false, None, {}, false, 0, 0, 0, 0), false, false);
      var blob := Blob(chunks, BlobType(params.mediaOptions.mimeType));
      var blobObject := BlobObject(Some(blob), startTime.value, now, params.mediaOptions, Some(ObjectUrl(blob)));
      calls := calls + [CreateObjectUrl(blob)];
      if params.hasOnChange {
        emitted := emitted + [ChangeCb(blobObject)];
      }
    }

    method OnReset(now: int)
      requires Valid() && startTime.Some?
      modifies this
      ensures Valid() && Snapshot() == old(Snapshot()).OnReset(params, now)
    {
      StepsPreserveValid(params, Snapshot(), Chunk([]), now, StartEnv(false, None, {}, false, 0, 0, 0, 0), false, false);
      chunks := [];
      var blobObject := BlobObject(None, startTime.value, now, params.mediaOptions, None);
      if params.hasOnChange {
        emitted := emitted + [ChangeCb(blobObject)];
      }
    }

    method OnStop(now: int)
      requires Valid() && startTime.Some?
      modifies this
      ensures Valid() && Snapshot() == old(Snapshot()).OnStop(params, now)
    {
      StepsPreserveValid(params, Snapshot(), Chunk([]), now, StartEnv(false, None, {}, false, 0, 0, 0, 0), false, false);
      var blob := Blob(chunks, BlobType(params.mediaOptions.mimeType));
      chunks := [];
      var blobObject := BlobObject(Some(blob), startTime.value, now, params.mediaOptions, Some(ObjectUrl(blob)));
      calls := calls + [CreateObjectUrl(blob)];
      if params.hasOnChange {
        emitted := emitted + [ChangeCb(blobObject)];
      }
    }

    /** The recorder's "stop" event. */
    method StopEvent(now: int)
      requires Valid() && startTime.Some?
      modifies this
      ensures Valid() && Snapshot() == old(Snapshot()).StopEvent(params, now)
    {
      match actionsOnStop
      case None =>
      case Some(RunOnStop) => OnStop(now);
      case Some(RunOnReset) => OnReset(now);
    }

    /** The recorder's "pause" event. */
    method PauseEvent(now: int)
      requires Valid() && startTime.Some?
      modifies this
      ensures Valid() && Snapshot() == old(Snapshot()).PauseEvent(params, now)
    {
      OnPause(now);
    }

    /** Returns whether the call threw. */
    method StartRecording(env: StartEnv) returns (threw: bool)
      requires Valid()
      modifies this
      ensures Valid() && Snapshot() == old(Snapshot()).StartRecording(params, env)
      ensures threw == old(Snapshot()).StartThrows()
    {
      StepsPreserveValid(params, Snapshot(), Chunk([]), 0, env, false, false);
      startTime := Some(env.now);
      actionsOnStop := Some(RunOnStop);
      threw := false;
      if mediaRecorder.Some? {
        threw := RestartHeld();
      } else if env.hasMediaDevices {
        Acquire(env);
      } else {
        calls := calls + [AlertUnsupported];
      }
    }

    method RestartHeld() returns (threw: bool)
      requires mediaRecorder.Some? && stream == Some(mediaRecorder.value.stream)
      modifies this
      ensures Snapshot() == old(Snapshot()).RestartHeld(params)
      ensures threw == old(Snapshot()).StartThrows()
    {
      threw := false;
      if audioCtx.Some? && audioCtx.value.state == Suspended {
        audioCtx := Some(ResumeContext(audioCtx.value));
        calls := calls + [ContextResume];
      }
      if mediaRecorder.value.state == Paused {
        mediaRecorder := Some(ResumeRecorder(mediaRecorder.value));
        calls := calls + [RecorderResume];
        return;
      }
      if audioCtx.Some? && mediaRecorder.value.state == Inactive {
        calls := calls + [RecorderStart(10)];
        if !mediaRecorder.value.streamActive {
          // NotSupportedError
          threw := true;
          return;
        }
        mediaRecorder := Some(mediaRecorder.value.(state := Recording));
        calls := calls + [ConnectSource(stream.value)];
        if params.hasOnStart {
          emitted := emitted + [StartCb];
        }
      }
    }

    method Acquire(env: StartEnv)
      modifies this
      ensures Snapshot() == old(Snapshot()).Acquire(params, env)
    {
      calls := calls + [RequestMedia(params.constraints)];
      if env.grant.None? {
        return;
      }
      stream := env.grant;
      var recorder;
      if SupportsOption(env.supported, params.mediaOptions.mimeType) {
        recorder := Recorder(env.recorderId, stream.value, params.mediaOptions, Inactive, true);
      } else {
        recorder := Recorder(env.recorderId, stream.value, NoRecorderOptions, Inactive, true);
      }
      mediaRecorder := Some(recorder);
      if params.hasOnStart {
        emitted := emitted + [StartCb];
      }
      if audioCtx.None? && !env.hasAudioContext {
        // creating the shared context throws; the recorder stays inactive
        return;
      }
      if audioCtx.Some? {
        audioCtx := Some(ResumeContext(audioCtx.value));
      } else {
        audioCtx := Some(AudioCtx(env.contextId, Running));
      }
      calls := calls + [ContextResume];
      analyser := Some(env.analyserId);
      recorder := recorder.(state := Recording);
      calls := calls + [RecorderStart(10), ConnectSource(stream.value)];
      mediaRecorder := Some(recorder);
    }

    method StopRecording(hasCallback: bool)
      requires Valid()
      modifies this
      ensures Valid() && Snapshot() == old(Snapshot()).StopRecording(hasCallback)
    {
      if mediaRecorder.Some? && mediaRecorder.value.state != Inactive {
        calls := calls + [RecorderStop, StopTracks(stream.value)];
        mediaRecorder := None;
        calls := calls + [ResetAnalyser];
        if hasCallback {
          emitted := emitted + [DoneCb];
        }
      }
    }

    method PauseRecording()
      requires Valid()
      modifies this
      ensures Valid() && Snapshot() == old(Snapshot()).PauseRecording()
    {
      if audioCtx.Some? {
        audioCtx := Some(SuspendContext(audioCtx.value));
        calls := calls + [ContextSuspend];
      }
      if mediaRecorder.Some? {
        mediaRecorder := Some(PauseRecorder(mediaRecorder.value));
        calls := calls + [RecorderPause];
      }
    }

    method ResumeRecording()
      requires Valid()
      modifies this
      ensures Valid() && Snapshot() == old(Snapshot()).ResumeRecording()
    {
      if audioCtx.Some? {
        audioCtx := Some(ResumeContext(audioCtx.value));
        calls := calls + [ContextResume];
      }
      if mediaRecorder.Some? {
        mediaRecorder := Some(ResumeRecorder(mediaRecorder.value));
        calls := calls + [RecorderResume];
      }
    }

    /** The platform ends the recorder on its own. */
    method RecorderEnded(tracksEnded: bool)
      requires Valid()
      modifies this
      ensures Valid() && Snapshot() == old(Snapshot()).RecorderEnded(tracksEnded)
    {
      if mediaRecorder.Some? {
        mediaRecorder := Some(EndRecorder(mediaRecorder.value, tracksEnded));
      }
    }

    method ResetRecording()
      requires Valid()
      modifies this
      ensures Valid() && Snapshot() == old(Snapshot()).ResetRecording()
    {
      StepsPreserveValid(params, Snapshot(), Chunk([]), 0, StartEnv(false, None, {}, false, 0, 0, 0, 0), false, false);
      actionsOnStop := Some(RunOnReset);
      StopRecording(false);
    }
  }
}
