/** The class-based recorder of `src/libs/MicrophoneRecorder.ts`. Like the
    one in `src/modules`, its buffer, start time, stream, audio context and
    analyser are module-level variables; unlike it, it reports a pause and a
    stop through separate onPause and onStop callbacks, has no reset, and
    keeps a `recordingState` field that the recorder's events drive. */
module LibsMicrophoneRecorder {
  import opened Media

  /** What the constructor stores in module-level variables. */
  datatype Params = Params(
    hasOnStart: bool,
    hasOnStop: bool,
    hasOnPause: bool,
    hasOnData: bool,
    mediaOptions: RecorderOptions,
    constraints: MediaConstraints)

  /** The `recordingState` field: "stopped", "paused" or "recording". */
  datatype RecordingState = StateStopped | StatePaused | StateRecording

  datatype State = State(
    chunks: seq<Chunk>,
    startTime: Option<int>,
    stream: Option<nat>,
    audioCtx: Option<AudioCtx>,
    analyser: Option<nat>,
    mediaRecorder: Option<Recorder>,
    recordingState: RecordingState,
    emitted: seq<Callback>,
    calls: seq<PlatformCall>)
  {
    /** A held recorder came with a stream, an audio context, an analyser and
        a start time, and is inactive once its stream is no longer active;
        every artifact handed to the host is coherent. */
    predicate Valid() {
      (mediaRecorder.Some? ==>
         stream == Some(mediaRecorder.value.stream) && audioCtx.Some? && analyser.Some? && startTime.Some? &&
         (!mediaRecorder.value.streamActive ==> mediaRecorder.value.state == Inactive)) &&
      CallbacksCoherent(emitted)
    }

    /** `startRecording` throws: the held branch reaches `start(10)` on an
        inactive recorder whose stream is no longer active, and MediaRecorder
        throws NotSupportedError. */
    predicate StartThrows() {
      mediaRecorder.Some? && audioCtx.Some? &&
      mediaRecorder.value.state == Inactive && !mediaRecorder.value.streamActive
    }

    /** `onPause`: an artifact of the buffer goes to onPause; the buffer stays. */
    function OnPause(p: Params, now: int): State
      requires startTime.Some?
    {
      var o := PayloadObject(chunks, p.mediaOptions, startTime.value, now);
      this.(calls := calls + [CreateObjectUrl(o.blob.value)],
            emitted := if p.hasOnPause then emitted + [PauseCb(o)] else emitted)
    }

    /** `onStop`: an artifact of the buffer goes to onStop; the buffer is emptied. */
    function OnStop(p: Params, now: int): State
      requires startTime.Some?
    {
      var o := PayloadObject(chunks, p.mediaOptions, startTime.value, now);
      this.(chunks := [],
            calls := calls + [CreateObjectUrl(o.blob.value)],
            emitted := if p.hasOnStop then emitted + [StopCb(o)] else emitted)
    }

    /** The recorder's "start" event. */
    function StartEvent(): State {
      this.(recordingState := StateRecording)
    }

    /** The recorder's "stop" event. */
    function StopEvent(p: Params, now: int): State
      requires startTime.Some?
    {
      this.(recordingState := StateStopped).OnStop(p, now)
    }

    /** The recorder's "pause" event. */
    function PauseEvent(p: Params, now: int): State
      requires startTime.Some?
    {
      this.(recordingState := StatePaused).OnPause(p, now)
    }

    /** The recorder's "resume" event. */
    function ResumeEvent(): State {
      this.(recordingState := StateRecording)
    }

    /** The recorder's "dataavailable" event. */
    function DataAvailable(p: Params, c: Chunk): State {
      this.(chunks := chunks + [c], emitted := if p.hasOnData then emitted + [DataCb(c)] else emitted)
    }

    /** `pauseRecording` and `resumeRecording` dereference the audio context
        without a guard: before the first grant they throw right after
        setting `recordingState`. */
    predicate ControlThrows() {
      audioCtx.None?
    }

    /** `pauseRecording`: the field is set first; the context is suspended
        and the recorder paused unless the call throws. */
    function PauseRecording(): State {
      var s0 := this.(recordingState := StatePaused);
      if s0.ControlThrows() then s0
      else
        var s1 := s0.(audioCtx := Some(SuspendContext(s0.audioCtx.value)), calls := s0.calls + [ContextSuspend]);
        if s1.mediaRecorder.None? then s1
        else s1.(mediaRecorder := Some(PauseRecorder(s1.mediaRecorder.value)), calls := s1.calls + [RecorderPause])
    }

    /** `resumeRecording`: the field is set first; the context and the
        recorder are resumed unless the call throws. */
    function ResumeRecording(): State {
      var s0 := this.(recordingState := StateRecording);
      if s0.ControlThrows() then s0
      else
        var s1 := s0.(audioCtx := Some(ResumeContext(s0.audioCtx.value)), calls := s0.calls + [ContextResume]);
        if s1.mediaRecorder.None? then s1
        else s1.(mediaRecorder := Some(ResumeRecorder(s1.mediaRecorder.value)), calls := s1.calls + [RecorderResume])
    }

    /** `startRecording`: the start time is overwritten, then a held recorder
        is resumed or restarted, or a new one is acquired. */
    function StartRecording(p: Params, env: StartEnv): State {
      var s0 := this.(startTime := Some(env.now));
      if s0.mediaRecorder.Some? then s0.RestartHeld(p)
      else if env.hasMediaDevices then s0.Acquire(p, env)
      else s0.(calls := s0.calls + [AlertUnsupported])
    }

    /** The branch of `startRecording` taken while a recorder is held. */
    function RestartHeld(p: Params): State
      requires mediaRecorder.Some?
    {
      var s1 := if audioCtx.Some? && audioCtx.value.state == Suspended
                then this.(audioCtx := Some(ResumeContext(audioCtx.value)), calls := calls + [ContextResume])
                else this;
      var r := s1.mediaRecorder.value;
      if r.state == Paused then
        s1.(mediaRecorder := Some(ResumeRecorder(r)), calls := s1.calls + [RecorderResume])
      else if s1.audioCtx.Some? && r.state == Inactive && !r.streamActive then
        // start(10) throws; nothing after it runs
        s1.(calls := s1.calls + [RecorderStart(10)])
      else if s1.audioCtx.Some? && r.state == Inactive then
        s1.(mediaRecorder := Some(r.(state := Recording)),
            calls := s1.calls + [RecorderStart(10), ConnectSource(r.stream)],
            emitted := if p.hasOnStart then s1.emitted + [StartCb] else s1.emitted)
      else s1
    }

    /** The branch of `startRecording` that asks for the microphone; on a
        grant a recorder is built on the stream, with the configured options
        when their type is supported and with none otherwise, and started
        once the shared audio context has resumed. */
    function Acquire(p: Params, env: StartEnv): State {
      var s1 := this.(calls := calls + [RequestMedia(p.constraints)]);
      if env.grant.None? then s1
      else
        var stream := env.grant.value;
        var ctx := if s1.audioCtx.Some? then ResumeContext(s1.audioCtx.value) else AudioCtx(env.contextId, Running);
        var options := if SupportsOption(env.supported, p.mediaOptions.mimeType) then p.mediaOptions else NoRecorderOptions;
        s1.(stream := Some(stream),
            mediaRecorder := Some(Recorder(env.recorderId, stream, options, Recording, true)),
            audioCtx := Some(ctx),
            analyser := Some(env.analyserId),
            calls := s1.calls + [ContextResume, RecorderStart(10), ConnectSource(stream)],
            emitted := if p.hasOnStart then s1.emitted + [StartCb] else s1.emitted)
    }

    /** `stopRecording(callback?)`: only a held, non-inactive recorder is
        stopped; `recordingState` waits for the stop event. */
    function StopRecording(hasCallback: bool): State {
      if mediaRecorder.Some? && mediaRecorder.value.state != Inactive then
        this.(mediaRecorder := None,
              calls := calls + [RecorderStop, StopTracks(mediaRecorder.value.stream), ResetAnalyser],
              emitted := if hasCallback then emitted + [DoneCb] else emitted)
      else this
    }

    /** The platform ends the recorder on its own, because its stream's
        tracks ended or after an error; its stop event follows. */
    function RecorderEnded(tracksEnded: bool): State {
      if mediaRecorder.None? then this
      else this.(mediaRecorder := Some(EndRecorder(mediaRecorder.value, tracksEnded)))
    }
  }

  const Initial := State([], None, None, None, None, None, StateStopped, [], [])

  /** The recorder's events drive `recordingState`: start and resume to
      "recording", pause to "paused", stop to "stopped". */
  lemma EventsDriveRecordingState(p: Params, s: State, now: int)
    requires s.startTime.Some?
    ensures s.StartEvent().recordingState == StateRecording
    ensures s.ResumeEvent().recordingState == StateRecording
    ensures s.PauseEvent(p, now).recordingState == StatePaused
    ensures s.StopEvent(p, now).recordingState == StateStopped
  {
  }

  /** The pause event hands the buffer to onPause and keeps it; the stop
      event hands it to onStop and empties it. */
  lemma PauseKeepsStopFlushes(p: Params, s: State, now: int)
    requires s.startTime.Some?
    ensures var o := PayloadObject(s.chunks, p.mediaOptions, s.startTime.value, now);
      s.PauseEvent(p, now).chunks == s.chunks &&
      s.PauseEvent(p, now).emitted == s.emitted + (if p.hasOnPause then [PauseCb(o)] else []) &&
      s.StopEvent(p, now).chunks == [] &&
      s.StopEvent(p, now).emitted == s.emitted + (if p.hasOnStop then [StopCb(o)] else [])
  {
  }

  /** Pausing, then stopping, without new data: the stop artifact holds the
      same chunks the pause artifact held. */
  lemma PauseThenStopSameChunks(p: Params, s: State, now1: int, now2: int)
    requires s.startTime.Some? && p.hasOnPause && p.hasOnStop
    ensures var u := s.PauseEvent(p, now1);
      var t := u.StopEvent(p, now2);
      t.emitted == s.emitted + [PauseCb(PayloadObject(s.chunks, p.mediaOptions, s.startTime.value, now1)),
                                StopCb(PayloadObject(s.chunks, p.mediaOptions, s.startTime.value, now2))] &&
      t.chunks == []
  {
    PauseKeepsStopFlushes(p, s, now1);
    PauseKeepsStopFlushes(p, s.PauseEvent(p, now1), now2);
  }

  /** `pauseRecording` sets "paused" whether or not anything records: with no
      recorder held (after a stop) the field reads "paused" while nothing is
      paused; before the first grant the call throws, and only the field has
      changed. */
  lemma PauseSetsFieldRegardless(s: State)
    requires s.mediaRecorder.None?
    ensures var t := s.PauseRecording();
      t.recordingState == StatePaused && t.mediaRecorder.None? && t.chunks == s.chunks && t.emitted == s.emitted
    ensures s.ControlThrows() ==> s.PauseRecording() == s.(recordingState := StatePaused)
  {
  }

  /** `pauseRecording` sets "paused" and `resumeRecording` sets "recording",
      whatever the field held before and whether or not the call throws. */
  lemma ControlsSetRecordingState(s: State)
    ensures s.PauseRecording().recordingState == StatePaused
    ensures s.ResumeRecording().recordingState == StateRecording
  {
  }

  /** Each chunk is appended at the end of the shared buffer and forwarded to
      onData when it is set. */
  lemma DataAvailableAppends(p: Params, s: State, c: Chunk)
    ensures var t := s.DataAvailable(p, c);
      t.chunks == s.chunks + [c] && t.chunks[|s.chunks|] == c &&
      t.emitted == s.emitted + (if p.hasOnData then [DataCb(c)] else []) &&
      t.recordingState == s.recordingState
  {
  }

  /** `stopRecording` does nothing unless a recorder is held and not
      inactive; otherwise it stops it and its stream's tracks, drops it and
      runs the callback. It never touches `recordingState`, which waits for
      the stop event. */
  lemma StopRecordingGuard(s: State, hasCallback: bool)
    ensures var t := s.StopRecording(hasCallback);
      t.recordingState == s.recordingState &&
      if s.mediaRecorder.Some? && s.mediaRecorder.value.state != Inactive then
        t.mediaRecorder.None? && t.chunks == s.chunks &&
        t.calls == s.calls + [RecorderStop, StopTracks(s.mediaRecorder.value.stream), ResetAnalyser] &&
        t.emitted == s.emitted + (if hasCallback then [DoneCb] else [])
      else t == s
  {
  }

  /** `startRecording` on a paused recorder resumes it and returns early: no
      new stream is requested and the recorder, stream and buffer are kept. */
  lemma StartOnPausedResumes(p: Params, s: State, env: StartEnv)
    requires s.mediaRecorder.Some? && s.mediaRecorder.value.state == Paused
    ensures var t := s.StartRecording(p, env);
      t.mediaRecorder == Some(s.mediaRecorder.value.(state := Recording)) &&
      t.stream == s.stream && t.chunks == s.chunks && t.emitted == s.emitted &&
      t.startTime == Some(env.now) &&
      t.calls == s.calls
        + (if s.audioCtx.Some? && s.audioCtx.value.state == Suspended then [ContextResume] else [])
        + [RecorderResume]
  {
  }

  /** The recorder is built with the configured options exactly when their
      type is supported. */
  lemma AcquireChoosesOptions(p: Params, s: State, env: StartEnv)
    requires env.grant.Some?
    ensures var t := s.Acquire(p, env);
      t.mediaRecorder.Some? && t.mediaRecorder.value.stream == env.grant.value &&
      (t.mediaRecorder.value.options == p.mediaOptions <==>
         SupportsOption(env.supported, p.mediaOptions.mimeType) || p.mediaOptions == NoRecorderOptions)
  {
  }

  /** A held recorder that ended is restarted by the next `startRecording`
      exactly when its stream is still active. When its tracks ended,
      `start(10)` throws: the recorder stays inactive, no source is connected,
      onStart does not run and `recordingState` is left as it was. */
  lemma RestartNeedsActiveStream(p: Params, s: State, env: StartEnv, tracksEnded: bool)
    requires s.Valid() && s.mediaRecorder.Some?
    ensures var u := s.RecorderEnded(tracksEnded);
      var t := u.StartRecording(p, env);
      var resumed := if s.audioCtx.value.state == Suspended then [ContextResume] else [];
      (u.StartThrows() <==> tracksEnded || !s.mediaRecorder.value.streamActive) &&
      (u.StartThrows() ==>
         t.mediaRecorder == u.mediaRecorder && t.mediaRecorder.value.state == Inactive &&
         t.calls == s.calls + resumed + [RecorderStart(10)] && t.emitted == s.emitted &&
         t.recordingState == s.recordingState) &&
      (!u.StartThrows() ==>
         t.mediaRecorder == Some(s.mediaRecorder.value.(state := Recording)) &&
         t.calls == s.calls + resumed + [RecorderStart(10), ConnectSource(s.mediaRecorder.value.stream)] &&
         t.emitted == s.emitted + (if p.hasOnStart then [StartCb] else []))
  {
  }

  /** Every step keeps the state valid. */
  lemma StepsPreserveValid(p: Params, s: State, c: Chunk, now: int, env: StartEnv, hasCallback: bool, tracksEnded: bool)
    requires s.Valid()
    ensures s.DataAvailable(p, c).Valid() && s.StartEvent().Valid() && s.ResumeEvent().Valid()
    ensures s.startTime.Some? ==> s.OnPause(p, now).Valid() && s.OnStop(p, now).Valid()
    ensures s.startTime.Some? ==> s.StopEvent(p, now).Valid() && s.PauseEvent(p, now).Valid()
    ensures s.StartRecording(p, env).Valid() && s.StopRecording(hasCallback).Valid()
    ensures s.PauseRecording().Valid() && s.ResumeRecording().Valid() && s.RecorderEnded(tracksEnded).Valid()
  {
    AppendCoherent(s.emitted, [DataCb(c)]);
    AppendCoherent(s.emitted, [StartCb]);
    AppendCoherent(s.emitted, [DoneCb]);
    if s.startTime.Some? {
      var o := PayloadObject(s.chunks, p.mediaOptions, s.startTime.value, now);
      AppendCoherent(s.emitted, [PauseCb(o)]);
      AppendCoherent(s.emitted, [StopCb(o)]);
    }
  }

  /** One instance, together with the module-level variables it uses. */
  class MicrophoneRecorder {
    const params: Params

    // module-level variables
    var chunks: seq<Chunk>
    var startTime: Option<int>
    var stream: Option<nat>
    var audioCtx: Option<AudioCtx>
    var analyser: Option<nat>
    // instance fields
    var mediaRecorder: Option<Recorder>
    var recordingState: RecordingState
    /** callbacks invoked on the host, in order */
    var emitted: seq<Callback>
    /** calls made on browser objects, in order */
    var calls: seq<PlatformCall>

    function Snapshot(): State
      reads this
    {
      State(chunks, startTime, stream, audioCtx, analyser, mediaRecorder, recordingState, emitted, calls)
    }

    ghost predicate Valid()
      reads this
    {
      Snapshot().Valid()
    }

    constructor (hasOnStart: bool, hasOnStop: bool, hasOnPause: bool, hasOnData: bool, options: RecorderOptions, soundOptions: SoundOptions)
      ensures params == Params(hasOnStart, hasOnStop, hasOnPause, hasOnData, options, SoundConstraints(soundOptions))
      ensures Snapshot() == Initial && Valid()
    {
      params := Params(hasOnStart, hasOnStop, hasOnPause, hasOnData, options, SoundConstraints(soundOptions));
      chunks, startTime, stream, audioCtx, analyser := [], None, None, None, None;
      mediaRecorder, recordingState := None, StateStopped;
      emitted, calls := [], [];
    }

    method OnPause(now: int)
      requires startTime.Some?
      modifies this
      ensures Snapshot() == old(Snapshot()).OnPause(params, now)
    {
      var blob := Blob(chunks, BlobType(params.mediaOptions.mimeType));
      var blobObject := BlobObject(Some(blob), startTime.value, now, params.mediaOptions, Some(ObjectUrl(blob)));
      calls := calls + [CreateObjectUrl(blob)];
      if params.hasOnPause {
        emitted := emitted + [PauseCb(blobObject)];
      }
    }

    method OnStop(now: int)
      requires startTime.Some?
      modifies this
      ensures Snapshot() == old(Snapshot()).OnStop(params, now)
    {
      var blob := Blob(chunks, BlobType(params.mediaOptions.mimeType));
      chunks := [];
      var blobObject := BlobObject(Some(blob), startTime.value, now, params.mediaOptions, Some(ObjectUrl(blob)));
      calls := calls + [CreateObjectUrl(blob)];
      if params.hasOnStop {
        emitted := emitted + [StopCb(blobObject)];
      }
    }

    method StartEvent()
      requires Valid()
      modifies this
      ensures Valid() && Snapshot() == old(Snapshot()).StartEvent()
    {
      recordingState := StateRecording;
    }

    method StopEvent(now: int)
      requires Valid() && startTime.Some?
      modifies this
      ensures Valid() && Snapshot() == old(Snapshot()).StopEvent(params, now)
    {
      StepsPreserveValid(params, Snapshot(), Chunk([]), now, StartEnv(false, None, {}, false, 0, 0, 0, 0), false, false);
      recordingState := StateStopped;
      OnStop(now);
    }

    method PauseEvent(now: int)
      requires Valid() && startTime.Some?
      modifies this
      ensures Valid() && Snapshot() == old(Snapshot()).PauseEvent(params, now)
    {
      StepsPreserveValid(params, Snapshot(), Chunk([]), now, StartEnv(false, None, {}, false, 0, 0, 0, 0), false, false);
      recordingState := StatePaused;
      OnPause(now);
    }

    method ResumeEvent()
      requires Valid()
      modifies this
      ensures Valid() && Snapshot() == old(Snapshot()).ResumeEvent()
    {
      recordingState := StateRecording;
    }

    method DataAvailable(c: Chunk)
      requires Valid()
      modifies this
      ensures Valid() && Snapshot() == old(Snapshot()).DataAvailable(params, c)
    {
      StepsPreserveValid(params, Snapshot(), c, 0, StartEnv(false, None, {}, false, 0, 0, 0, 0), false, false);
      chunks := chunks + [c];
      if params.hasOnData {
        emitted := emitted + [DataCb(c)];
      }
    }

    /** `completed` is false when the call throws on the missing context. */
    method PauseRecording() returns (completed: bool)
      requires Valid()
      modifies this
      ensures Valid() && Snapshot() == old(Snapshot()).PauseRecording()
      ensures completed <==> old(audioCtx).Some?
    {
      recordingState := StatePaused;
      if audioCtx.None? {
        return false;
      }
      audioCtx := Some(SuspendContext(audioCtx.value));
      calls := calls + [ContextSuspend];
      if mediaRecorder.Some? {
        mediaRecorder := Some(PauseRecorder(mediaRecorder.value));
        calls := calls + [RecorderPause];
      }
      completed := true;
    }

    /** `completed` is false when the call throws on the missing context. */
    method ResumeRecording() returns (completed: bool)
      requires Valid()
      modifies this
      ensures Valid() && Snapshot() == old(Snapshot()).ResumeRecording()
      ensures completed <==> old(audioCtx).Some?
    {
      recordingState := StateRecording;
      if audioCtx.None? {
        return false;
      }
      audioCtx := Some(ResumeContext(audioCtx.value));
      calls := calls + [ContextResume];
      if mediaRecorder.Some? {
        mediaRecorder := Some(ResumeRecorder(mediaRecorder.value));
        calls := calls + [RecorderResume];
      }
      completed := true;
    }

    /** Returns whether the call threw. */
    method StartRecording(env: StartEnv) returns (threw: bool)
      requires Valid()
      modifies this
      ensures Valid() && Snapshot() == old(Snapshot()).StartRecording(params, env)
      ensures threw == old(Snapshot()).StartThrows()
    {
      StepsPreserveValid(params, Snapshot(), Chunk([]), 0, env, false, false);
      startTime := Some(env.now);
      threw := false;
      if mediaRecorder.Some? {
        threw := RestartHeld();
      } else if env.hasMediaDevices {
        Acquire(env);
      } else {
        calls := calls + [AlertUnsupported];
      }
    }

    method RestartHeld() returns (threw: bool)
      requires mediaRecorder.Some? && stream == Some(mediaRecorder.value.stream)
      modifies this
      ensures Snapshot() == old(Snapshot()).RestartHeld(params)
      ensures threw == old(Snapshot()).StartThrows()
    {
      threw := false;
      if audioCtx.Some? && audioCtx.value.state == Suspended {
        audioCtx := Some(ResumeContext(audioCtx.value));
        calls := calls + [ContextResume];
      }
      if mediaRecorder.value.state == Paused {
        mediaRecorder := Some(ResumeRecorder(mediaRecorder.value));
        calls := calls + [RecorderResume];
        return;
      }
      if audioCtx.Some? && mediaRecorder.value.state == Inactive {
        calls := calls + [RecorderStart(10)];
        if !mediaRecorder.value.streamActive {
          // NotSupportedError
          threw := true;
          return;
        }
        mediaRecorder := Some(mediaRecorder.value.(state := Recording));
        calls := calls + [ConnectSource(stream.value)];
        if params.hasOnStart {
          emitted := emitted + [StartCb];
        }
      }
    }

    method Acquire(env: StartEnv)
      modifies this
      ensures Snapshot() == old(Snapshot()).Acquire(params, env)
    {
      calls := calls + [RequestMedia(params.constraints)];
      if env.grant.None? {
        return;
      }
      stream := env.grant;
      var recorder;
      if SupportsOption(env.supported, params.mediaOptions.mimeType) {
        recorder := Recorder(env.recorderId, stream.value, params.mediaOptions, Inactive, true);
      } else {
        recorder := Recorder(env.recorderId, stream.value, NoRecorderOptions, Inactive, true);
      }
      if params.hasOnStart {
        emitted := emitted + [StartCb];
      }
      if audioCtx.Some? {
        audioCtx := Some(ResumeContext(audioCtx.value));
      } else {
        audioCtx := Some(AudioCtx(env.contextId, Running));
      }
      calls := calls + [ContextResume];
      analyser := Some(env.analyserId);
      recorder := recorder.(state := Recording);
      calls := calls + [RecorderStart(10), ConnectSource(stream.value)];
      mediaRecorder := Some(recorder);
    }

    method StopRecording(hasCallback: bool)
      requires Valid()
      modifies this
      ensures Valid() && Snapshot() == old(Snapshot()).StopRecording(hasCallback)
    {
      if mediaRecorder.Some? && mediaRecorder.value.state != Inactive {
        calls := calls + [RecorderStop, StopTracks(stream.value)];
        mediaRecorder := None;
        calls := calls + [ResetAnalyser];
        if hasCallback {
          emitted := emitted + [DoneCb];
        }
      }
    }

    /** The platform ends the recorder on its own. */
    method RecorderEnded(tracksEnded: bool)
      requires Valid()
      modifies this
      ensures Valid() && Snapshot() == old(Snapshot()).RecorderEnded(tracksEnded)
    {
      if mediaRecorder.Some? {
        mediaRecorder := Some(EndRecorder(mediaRecorder.value, tracksEnded));
      }
    }
  }
}
