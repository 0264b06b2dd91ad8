/** The `ReactVisualAudioRecorder` component: the same widget as
    `ReactAudioRecorder`, except that the caller may fix the MIME type and
    the file extension, and that onStop is passed to the hook. */
module ReactVisualAudioRecorder {
  import opened Media
  import opened UseMicrophoneRecorder
  import opened ReactAudioRecorder

  /** The `mimeType` and `ext` props. */
  datatype Overrides = Overrides(mimeType: Option<string>, ext: Option<string>)

  /** The `useMemo` choice: when either override is truthy both are taken as
      given, even an unsupported type or a missing half; otherwise the
      platform is probed as `ReactAudioRecorder` does. */
  function NegotiateWithOverride(o: Overrides, supported: set<string>): (r: Result<Negotiated>)
    ensures Truthy(o.mimeType) || Truthy(o.ext) ==> r == Ok(Negotiated(o.mimeType, o.ext))
    ensures !Truthy(o.mimeType) && !Truthy(o.ext) ==> r == ProbeContainer(supported)
    ensures r.Err? <==> !Truthy(o.mimeType) && !Truthy(o.ext) && "audio/mp4" !in supported && "audio/webm" !in supported
  {
    if Truthy(o.mimeType) || Truthy(o.ext) then Ok(Negotiated(o.mimeType, o.ext))
    else ProbeContainer(supported)
  }

  /** An overridden MIME type the platform does not support: the recorder
      falls back to its default container ("" as MIME type), yet the stop
      artifact is labelled with the overridden type (normalised by the Blob
      constructor, hence verbatim when already canonical). */
  lemma UnsupportedOverrideMislabels(props: Props, m: string, ext: Option<string>, env: StartEnv, stopTime: int)
    requires m != "" && m !in env.supported
    requires StartOutcomeOf(env) == Resolved && env.now != 0 && props.hasOnChange
    ensures var n := NegotiateWithOverride(Overrides(Some(m), ext), env.supported);
      n == Ok(Negotiated(Some(m), ext)) &&
      var p := HookParamsFor(props, n.value, true);
      var started := Initial.StartRecording(p, env);
      var t := started.StopRecording(p, stopTime);
      started.mediaRecorder.value.options.mimeType == Some("") &&
      t.emitted[|started.emitted|].change.blob.value.mimeType == NormalizeType(m) &&
      (CanonicalType(m) ==> t.emitted[|started.emitted|].change.blob.value.mimeType == m)
  {
    var n := NegotiateWithOverride(Overrides(Some(m), ext), env.supported);
    BlobTypeIsRequestedType(HookParamsFor(props, n.value, true), env, stopTime);
  }

  /** Overriding only the extension skips the probe: the recorder uses the
      platform default and artifacts carry an empty type, while
      `getFileExtension` reports the given extension. */
  lemma ExtensionOnlyOverride(props: Props, ext: string, env: StartEnv)
    requires ext != "" && StartOutcomeOf(env) == Resolved
    ensures var n := NegotiateWithOverride(Overrides(None, Some(ext)), env.supported);
      n == Ok(Negotiated(None, Some(ext))) &&
      var s := Initial.StartRecording(HookParamsFor(props, n.value, true), env);
      s.mediaRecorder.value.options.mimeType == Some("") &&
      BlobType(HookParamsFor(props, n.value, true).options.mimeType) == ""
  {
    var n := NegotiateWithOverride(Overrides(None, Some(ext)), env.supported);
    StartedSession(HookParamsFor(props, n.value, true), env);
  }

  /** The first render of `ReactVisualAudioRecorder`: when no override is
      given and the probe finds no container, rendering throws; otherwise
      the widget and its hook exist, onStop reaches the hook when the host
      sets it, and no effect has run yet. */
  method RenderVisualAudioRecorder(props: Props, o: Overrides, supported: set<string>) returns (r: Result<RecorderWidget>)
    ensures r.Err? <==> NegotiateWithOverride(o, supported).Err?
    ensures r.Err? ==> r.error == UnsupportedEnvironment
    ensures r.Ok? ==> fresh(r.value) && fresh(r.value.hook) && r.value.Valid()
    ensures r.Ok? ==> r.value.props == props && r.value.negotiated == NegotiateWithOverride(o, supported).value
    ensures r.Ok? ==> r.value.forwardOnStop && r.value.hook.params.hasOnStop == props.hasOnStop
    ensures r.Ok? ==> r.value.hook.State() == Initial && r.value.CurrentFlags() == InitialFlags && r.value.statuses == []
  {
    var choice := NegotiateWithOverride(o, supported);
    if choice.Err? {
      return Err(choice.error);
    }
    var w := new RecorderWidget(props, choice.value, true);
    r := Ok(w);
  }

  /** The first effect of the component awaits `mediaRecorderApi` from the
      hook's result, a key the hook does not return: reading `.then` of
      undefined throws a TypeError. */
  predicate ApiEffectThrows() {
    "mediaRecorderApi" !in ContextKeys
  }

  /** The hook's result has no `mediaRecorderApi`. */
  lemma ApiEffectAlwaysThrows()
    ensures ApiEffectThrows()
  {
    assert |"mediaRecorderApi"| == 16;
  }

  /** Mounting `ReactVisualAudioRecorder` never succeeds. Either rendering
      throws (negotiation failed), or the render succeeds and the first
      commit runs the effects in declaration order, the first of which
      throws; the status effect declared after it never runs, so the host
      hears no status. */
  method MountVisualAudioRecorder(props: Props, o: Overrides, supported: set<string>) returns (r: Result<RecorderWidget>, heard: seq<Status>)
    ensures r.Err?
    ensures r.error == UnsupportedEnvironment <==> NegotiateWithOverride(o, supported).Err?
    ensures r.error == EffectThrew <==> NegotiateWithOverride(o, supported).Ok?
    ensures heard == []
  {
    var rendered := RenderVisualAudioRecorder(props, o, supported);
    if rendered.Err? {
      return rendered, [];
    }
    ApiEffectAlwaysThrows();
    var w := rendered.value;
    r := if ApiEffectThrows() then Err(EffectThrew) else Ok(w);
    heard := w.statuses;
  }
}
