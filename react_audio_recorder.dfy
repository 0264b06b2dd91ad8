/** The `ReactAudioRecorder` component: it picks a container the platform
    supports, fills in defaults for its props, drives one instance of the
    `useMicrophoneRecorder` hook, and keeps two booleans, `record` and
    `pause`, from which the status reported to `handleStatus` is derived.
    `ReactVisualAudioRecorder` shares everything here except how the
    container is chosen and whether onStop is forwarded. */
module ReactAudioRecorder {
  import opened Media
  import opened UseMicrophoneRecorder

  /** The container a widget records into: a MIME type and a file extension. */
  datatype Negotiated = Negotiated(mimeType: Option<string>, ext: Option<string>)

  /** The `useMemo` probe: MP4 audio when supported, else WebM audio, else
      the component throws while rendering. */
  function ProbeContainer(supported: set<string>): (r: Result<Negotiated>)
    ensures r.Ok? <==> "audio/mp4" in supported || "audio/webm" in supported
    ensures r.Ok? ==> r.value.ext.Some? && r.value.mimeType == Some("audio/" + r.value.ext.value)
    ensures r.Ok? ==> IsTypeSupported(supported, r.value.mimeType.value)
    ensures "audio/mp4" in supported ==> r == Ok(Negotiated(Some("audio/mp4"), Some("mp4")))
    ensures "audio/mp4" !in supported && r.Ok? ==> r.value.ext == Some("webm")
  {
    assert "audio/" + "mp4" == "audio/mp4" && "audio/" + "webm" == "audio/webm";
    if IsTypeSupported(supported, "audio/mp4") then Ok(Negotiated(Some("audio/mp4"), Some("mp4")))
    else if IsTypeSupported(supported, "audio/webm") then Ok(Negotiated(Some("audio/webm"), Some("webm")))
    else Err(UnsupportedEnvironment)
  }

  /** The props both widgets read; an absent prop is None. */
  datatype Props = Props(
    width: Option<int>,
    height: Option<int>,
    audioBitsPerSecond: Option<int>,
    echoCancellation: Option<bool>,
    autoGainControl: Option<bool>,
    noiseSuppression: Option<bool>,
    channelCount: Option<int>,
    backgroundColor: Option<string>,
    strokeColor: Option<string>,
    className: Option<string>,
    hasOnStart: bool,
    hasOnStop: bool,
    hasOnChange: bool,
    hasOnData: bool,
    hasHandleStatus: bool)

  /** The props after destructuring with defaults. */
  datatype Settings = Settings(
    width: int,
    height: int,
    audioBitsPerSecond: int,
    echoCancellation: bool,
    autoGainControl: bool,
    noiseSuppression: bool,
    channelCount: int,
    backgroundColor: string,
    strokeColor: string,
    className: string)

  const DefaultSettings := Settings(640, 100, 128000, true, true, true, 2, "rgba(255, 255, 255, 0.5)", "#000000", "visualizer")

  function Or<T>(o: Option<T>, default: T): T {
    if o.Some? then o.value else default
  }

  /** Every prop keeps its value when given and takes its default otherwise. */
  function ResolveSettings(p: Props): (s: Settings)
    ensures p.width.Some? ==> s.width == p.width.value
    ensures p.height.Some? ==> s.height == p.height.value
    ensures p.audioBitsPerSecond.Some? ==> s.audioBitsPerSecond == p.audioBitsPerSecond.value
    ensures p.echoCancellation.Some? ==> s.echoCancellation == p.echoCancellation.value
    ensures p.autoGainControl.Some? ==> s.autoGainControl == p.autoGainControl.value
    ensures p.noiseSuppression.Some? ==> s.noiseSuppression == p.noiseSuppression.value
    ensures p.channelCount.Some? ==> s.channelCount == p.channelCount.value
    ensures p.backgroundColor.Some? ==> s.backgroundColor == p.backgroundColor.value
    ensures p.strokeColor.Some? ==> s.strokeColor == p.strokeColor.value
    ensures p.className.Some? ==> s.className == p.className.value
    ensures p.width.None? && p.height.None? && p.audioBitsPerSecond.None? &&
            p.echoCancellation.None? && p.autoGainControl.None? && p.noiseSuppression.None? &&
            p.channelCount.None? && p.backgroundColor.None? && p.strokeColor.None? && p.className.None?
            ==> s == DefaultSettings
  {
    var d := DefaultSettings;
    Settings(
      Or(p.width, d.width), Or(p.height, d.height), Or(p.audioBitsPerSecond, d.audioBitsPerSecond),
      Or(p.echoCancellation, d.echoCancellation), Or(p.autoGainControl, d.autoGainControl),
      Or(p.noiseSuppression, d.noiseSuppression), Or(p.channelCount, d.channelCount),
      Or(p.backgroundColor, d.backgroundColor), Or(p.strokeColor, d.strokeColor), Or(p.className, d.className))
  }

  /** What a widget passes to the hook: the negotiated MIME type and the
      bitrate as recorder options, and all four sound options written out.
      `forwardOnStop` is false for `ReactAudioRecorder`, which does not pass
      onStop on. */
  function HookParamsFor(p: Props, n: Negotiated, forwardOnStop: bool): HookParams {
    var s := ResolveSettings(p);
    HookParams(
      p.hasOnStart, forwardOnStop && p.hasOnStop, p.hasOnChange, p.hasOnData,
      RecorderOptions(n.mimeType, Some(s.audioBitsPerSecond)),
      Some(SoundOptions(Present(Some(s.echoCancellation)), Present(Some(s.autoGainControl)),
                        Present(Some(s.noiseSuppression)), Present(Some(s.channelCount)))))
  }

  /** The widget's settings reach getUserMedia unchanged; with no props,
      echo cancellation, auto gain and noise suppression are on and two
      channels are asked for. */
  lemma WidgetConstraints(p: Props, n: Negotiated, forwardOnStop: bool)
    ensures var s := ResolveSettings(p);
      CaptureConstraints(HookParamsFor(p, n, forwardOnStop).soundOptions).audio
        == AudioConstraints(Some(s.echoCancellation), Some(s.autoGainControl), Some(s.noiseSuppression), Some(s.channelCount))
    ensures p.echoCancellation.None? && p.autoGainControl.None? && p.noiseSuppression.None? && p.channelCount.None? ==>
      CaptureConstraints(HookParamsFor(p, n, forwardOnStop).soundOptions).audio == AudioConstraints(Some(true), Some(true), Some(true), Some(2))
  {
    var s := ResolveSettings(p);
    FullSoundOptionsPassThrough(s.echoCancellation, s.autoGainControl, s.noiseSuppression, s.channelCount);
  }

  /** A probed container is supported, so the recorder of a resolved start
      is built with exactly the widget's options. */
  lemma ProbedTypeIsUsed(p: Props, supported: set<string>, env: StartEnv, forwardOnStop: bool)
    requires ProbeContainer(supported).Ok? && env.supported == supported
    requires StartOutcomeOf(env) == Resolved
    ensures var n := ProbeContainer(supported).value;
      var s := Initial.StartRecording(HookParamsFor(p, n, forwardOnStop), env);
      s.mediaRecorder.Some? &&
      s.mediaRecorder.value.options == RecorderOptions(n.mimeType, Some(ResolveSettings(p).audioBitsPerSecond))
  {
    StartedSession(HookParamsFor(p, ProbeContainer(supported).value, forwardOnStop), env);
  }

  /** The status strings passed to `handleStatus`. */
  datatype Status = StatusPause | StatusRecording | StatusStopped
  {
    function Label(): string {
      match this
      case StatusPause => "pause"
      case StatusRecording => "recording"
      case StatusStopped => "stopped"
    }
  }

  /** The two pieces of component state behind the status. */
  datatype Flags = Flags(record: bool, pause: bool)

  /** The status a pair of flags reports: "pause" when paused while
      recording, "recording" when recording and not paused, and "stopped"
      whenever `record` is false, whatever `pause` holds. */
  function StatusOf(f: Flags): (r: Status)
    ensures r == StatusPause <==> f.record && f.pause
    ensures r == StatusRecording <==> f.record && !f.pause
    ensures r == StatusStopped <==> !f.record
    ensures r.Label() == (if f.pause && f.record then "pause" else if !f.pause && f.record then "recording" else "stopped")
  {
    if f.pause && f.record then StatusPause
    else if !f.pause && f.record then StatusRecording
    else StatusStopped
  }

  /** The imperative handle's controls, as they affect the flags. A start
      carries how the hook's promise ended: only a resolved one sets `record`. */
  datatype Control = Start(outcome: StartOutcome) | Stop | Reset | Pause | Resume

  function Apply(f: Flags, c: Control): Flags {
    match c
    case Start(o) => if o == Resolved then f.(record := true) else f
    case Stop => f.(record := false)
    case Reset => Flags(false, false)
    case Pause => f.(pause := true)
    case Resume => f.(pause := false)
  }

  /** Controls applied first to last. */
  function Replay(f: Flags, cs: seq<Control>): Flags
    decreases |cs|
  {
    if cs == [] then f else Replay(Apply(f, cs[0]), cs[1..])
  }

  /** Reference definition of `record` after a run of controls: the value
      written by the last control that writes it. */
  function RecordAfter(initial: bool, cs: seq<Control>): bool
    decreases |cs|
  {
    if cs == [] then initial
    else
      match cs[|cs| - 1]
      case Start(o) => if o == Resolved then true else RecordAfter(initial, cs[..|cs| - 1])
      case Stop => false
      case Reset => false
      case _ => RecordAfter(initial, cs[..|cs| - 1])
  }

  /** Reference definition of `pause` after a run of controls. */
  function PauseAfter(initial: bool, cs: seq<Control>): bool
    decreases |cs|
  {
    if cs == [] then initial
    else
      match cs[|cs| - 1]
      case Pause => true
      case Resume => false
      case Reset => false
      case _ => PauseAfter(initial, cs[..|cs| - 1])
  }

  lemma {:induction false} ReplaySnoc(f: Flags, cs: seq<Control>, c: Control)
    ensures Replay(f, cs + [c]) == Apply(Replay(f, cs), c)
    decreases |cs|
  {
    if cs == [] {
      assert [] + [c] == [c];
    } else {
      assert (cs + [c])[0] == cs[0];
      assert (cs + [c])[1..] == cs[1..] + [c];
      ReplaySnoc(Apply(f, cs[0]), cs[1..], c);
    }
  }

  /** Each flag holds what the last control that writes it wrote. */
  lemma {:induction false} ReplayIsLastWrite(f: Flags, cs: seq<Control>)
    ensures Replay(f, cs) == Flags(RecordAfter(f.record, cs), PauseAfter(f.pause, cs))
    decreases |cs|
  {
    if cs != [] {
      var init, c := cs[..|cs| - 1], cs[|cs| - 1];
      assert cs == init + [c];
      ReplayIsLastWrite(f, init);
      ReplaySnoc(f, init, c);
    }
  }

  /** The `handleStatus` effect runs when a flag changed. */
  function Report(hasHandleStatus: bool, before: Flags, after: Flags): seq<Status> {
    if hasHandleStatus && before != after then [StatusOf(after)] else []
  }

  /** The statuses reported over a run of controls. */
  function Reports(hasHandleStatus: bool, f: Flags, cs: seq<Control>): (r: seq<Status>)
    ensures |r| <= |cs|
    ensures !hasHandleStatus ==> r == []
    decreases |cs|
  {
    if cs == [] then []
    else
      var g := Apply(f, cs[0]);
      Report(hasHandleStatus, f, g) + Reports(hasHandleStatus, g, cs[1..])
  }

  const InitialFlags := Flags(false, false)

  /** The effect runs once on mount, so the host hears "stopped" first; from
      then on the last status it heard always describes the current flags. */
  lemma {:induction false} LastReportIsCurrent(f: Flags, cs: seq<Control>)
    ensures var log := [StatusOf(f)] + Reports(true, f, cs);
      log[|log| - 1] == StatusOf(Replay(f, cs))
    decreases |cs|
  {
    if cs != [] {
      var g := Apply(f, cs[0]);
      LastReportIsCurrent(g, cs[1..]);
      var tail := Reports(true, g, cs[1..]);
      if g != f {
        assert [StatusOf(f)] + Reports(true, f, cs) == [StatusOf(f)] + ([StatusOf(g)] + tail);
      } else {
        assert [StatusOf(f)] + Reports(true, f, cs) == [StatusOf(g)] + tail;
      }
    }
  }

  /** Pausing while stopped flips `pause`, so the effect runs and reports
      "stopped" a second time. */
  lemma PauseWhileStoppedRepeatsStopped()
    ensures Reports(true, InitialFlags, [Pause]) == [StatusStopped]
    ensures StatusOf(InitialFlags) == StatusStopped
  {
  }

  /** Stopping does not clear `pause`: after pause, stop and a resolved
      start, the widget records but reports "pause". */
  lemma StopKeepsPause()
    ensures Replay(InitialFlags, [Start(Resolved), Pause, Stop, Start(Resolved)]) == Flags(true, true)
    ensures StatusOf(Replay(InitialFlags, [Start(Resolved), Pause, Stop, Start(Resolved)])) == StatusPause
  {
    ReplayIsLastWrite(InitialFlags, [Start(Resolved), Pause, Stop, Start(Resolved)]);
  }

  /** A start whose promise does not resolve leaves the flags as they were. */
  lemma UnresolvedStartKeepsFlags(f: Flags, o: StartOutcome)
    requires o != Resolved
    ensures Apply(f, Start(o)) == f && Report(true, f, Apply(f, Start(o))) == []
  {
  }

  /** One mounted widget and its hook instance. Both components keep the
      same state and handle; they differ in the container they record into
      and in whether onStop reaches the hook. */
  class RecorderWidget {
    const props: Props
    const negotiated: Negotiated
    const forwardOnStop: bool
    const hook: MicrophoneHook
    var record: bool
    var pause: bool
    /** statuses passed to handleStatus, in order */
    var statuses: seq<Status>

    function CurrentFlags(): Flags
      reads this
    {
      Flags(record, pause)
    }

    ghost predicate Valid()
      reads this, hook
    {
      hook.Valid() && hook.params == HookParamsFor(props, negotiated, forwardOnStop)
    }

    /** The first render: the hook starts empty, both flags are false and
        no effect has run yet. */
    constructor (props: Props, negotiated: Negotiated, forwardOnStop: bool)
      ensures this.props == props && this.negotiated == negotiated && this.forwardOnStop == forwardOnStop
      ensures Valid() && fresh(hook) && hook.State() == Initial
      ensures CurrentFlags() == InitialFlags
      ensures statuses == []
    {
      this.props := props;
      this.negotiated := negotiated;
      this.forwardOnStop := forwardOnStop;
      hook := new MicrophoneHook(HookParamsFor(props, negotiated, forwardOnStop));
      record, pause := false, false;
      statuses := [];
    }

    /** The status effect as it runs at a commit: it reports the current
        status when handleStatus is set. */
    method RunStatusEffect()
      modifies this
      ensures CurrentFlags() == old(CurrentFlags())
      ensures statuses == old(statuses) + (if props.hasHandleStatus then [StatusOf(CurrentFlags())] else [])
    {
      if props.hasHandleStatus {
        statuses := statuses + [StatusOf(CurrentFlags())];
      }
    }

    /** A state update followed by the status effect. */
    method SetFlags(f: Flags)
      modifies this
      ensures CurrentFlags() == f
      ensures statuses == old(statuses) + Report(props.hasHandleStatus, old(CurrentFlags()), f)
    {
      var before := CurrentFlags();
      record, pause := f.record, f.pause;
      if props.hasHandleStatus && before != f {
        statuses := statuses + [StatusOf(f)];
      }
    }

    method Start(env: StartEnv) returns (outcome: StartOutcome)
      requires Valid()
      modifies this, hook
      ensures Valid() && hook.State() == old(hook.State()).StartRecording(hook.params, env)
      ensures outcome == StartOutcomeOf(env)
      ensures CurrentFlags() == Apply(old(CurrentFlags()), Control.Start(outcome))
      ensures statuses == old(statuses) + Reports(props.hasHandleStatus, old(CurrentFlags()), [Control.Start(outcome)])
    {
      outcome := hook.StartRecording(env);
      if outcome == Resolved {
        SetFlags(CurrentFlags().(record := true));
      }
    }

    method Stop(now: int)
      requires Valid()
      modifies this, hook
      ensures Valid() && hook.State() == old(hook.State()).StopRecording(hook.params, now)
      ensures CurrentFlags() == Apply(old(CurrentFlags()), Control.Stop)
      ensures statuses == old(statuses) + Reports(props.hasHandleStatus, old(CurrentFlags()), [Control.Stop])
    {
      SetFlags(CurrentFlags().(record := false));
      hook.StopRecording(now);
    }

    method Reset(resetTime: int, stopTime: int)
      requires Valid()
      modifies this, hook
      ensures Valid() && hook.State() == old(hook.State()).ResetRecording(hook.params, resetTime, stopTime)
      ensures CurrentFlags() == Apply(old(CurrentFlags()), Control.Reset)
      ensures statuses == old(statuses) + Reports(props.hasHandleStatus, old(CurrentFlags()), [Control.Reset])
    {
      SetFlags(Flags(false, false));
      hook.ResetRecording(resetTime, stopTime);
    }

    method Pause(now: int)
      requires Valid()
      modifies this, hook
      ensures Valid() && hook.State() == old(hook.State()).PauseRecording(hook.params, now)
      ensures CurrentFlags() == Apply(old(CurrentFlags()), Control.Pause)
      ensures statuses == old(statuses) + Reports(props.hasHandleStatus, old(CurrentFlags()), [Control.Pause])
    {
      SetFlags(CurrentFlags().(pause := true));
      hook.PauseRecording(now);
    }

    method Resume()
      requires Valid()
      modifies this, hook
      ensures Valid() && hook.State() == old(hook.State()).ResumeRecording()
      ensures CurrentFlags() == Apply(old(CurrentFlags()), Control.Resume)
      ensures statuses == old(statuses) + Reports(props.hasHandleStatus, old(CurrentFlags()), [Control.Resume])
    {
      SetFlags(CurrentFlags().(pause := false));
      hook.ResumeRecording();
    }

    /** `getFileExtension` */
    method GetFileExtension() returns (ext: Option<string>)
      ensures ext == negotiated.ext
    {
      ext := negotiated.ext;
    }
  }

  /** Mounting `ReactAudioRecorder`: when the probe finds no container,
      rendering throws and nothing is mounted; otherwise the first commit
      runs the status effect, so the host hears "stopped". onStop is never
      passed to the hook. */
  method MountAudioRecorder(props: Props, supported: set<string>) returns (r: Result<RecorderWidget>)
    ensures r.Err? <==> ProbeContainer(supported).Err?
    ensures r.Ok? ==> fresh(r.value) && fresh(r.value.hook) && r.value.Valid()
    ensures r.Ok? ==> r.value.props == props && r.value.negotiated == ProbeContainer(supported).value
    ensures r.Ok? ==> !r.value.forwardOnStop && !r.value.hook.params.hasOnStop
    ensures r.Ok? ==> r.value.hook.State() == Initial && r.value.CurrentFlags() == InitialFlags
    ensures r.Ok? ==> r.value.statuses == (if props.hasHandleStatus then [StatusStopped] else [])
  {
    var probe := ProbeContainer(supported);
    if probe.Err? {
      return Err(probe.error);
    }
    var w := new RecorderWidget(props, probe.value, false);
    w.RunStatusEffect();
    r := Ok(w);
  }
}
