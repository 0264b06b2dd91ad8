/** Values shared by every variant of the recorder: encoded chunks, blobs, the
    "blob object" artifact handed to the host, the platform handles a session
    holds, and the two logs through which the model makes side effects
    visible (callbacks invoked on the host, calls made on the platform). */
module Media {

  datatype Option<+T> = None | Some(value: T)

  /** Why a widget could not be mounted: rendering threw because no container
      is available, or an effect threw at the first commit. */
  datatype Error = UnsupportedEnvironment | EffectThrew

  datatype Result<+T> = Ok(value: T) | Err(error: Error)

  /** JavaScript truthiness of an optional string: undefined and "" are falsy. */
  predicate Truthy(s: Option<string>) {
    s.Some? && s.value != ""
  }

  /** An encoded audio fragment delivered by the platform encoder; opaque here. */
  datatype Chunk = Chunk(bytes: seq<bv8>)

  /** A Blob: its parts in order and the MIME type it is labelled with. */
  datatype Blob = Blob(parts: seq<Chunk>, mimeType: string)

  /** A URL from URL.createObjectURL; dereferencing it yields its blob. */
  datatype ObjectUrl = ObjectUrl(target: Blob)

  /** MediaRecorderOptions as the source passes them around; a missing
      mimeType is JavaScript's undefined. */
  datatype RecorderOptions = RecorderOptions(mimeType: Option<string>, audioBitsPerSecond: Option<int>)

  /** The options of `new MediaRecorder(stream)` with no second argument. */
  const NoRecorderOptions := RecorderOptions(None, None)

  /** The artifact emitted at pause, stop and reset (ReactAudioRecorderBlobObject). */
  datatype BlobObject = BlobObject(
    blob: Option<Blob>,
    startTime: int,
    stopTime: int,
    options: RecorderOptions,
    blobURL: Option<ObjectUrl>)

  /** ASCII lowercase of one character. */
  function AsciiLower(c: char): char {
    if 'A' <= c <= 'Z' then (c as int + 32) as char else c
  }

  /** Every character lies in U+0020..U+007E. */
  predicate Printable(t: string) {
    forall i :: 0 <= i < |t| ==> ' ' <= t[i] <= '~'
  }

  /** A type the Blob constructor keeps as it is: printable and without ASCII
      upper-case letters. */
  predicate CanonicalType(t: string) {
    forall i :: 0 <= i < |t| ==> ' ' <= t[i] <= '~' && !('A' <= t[i] <= 'Z')
  }

  /** The Blob constructor's treatment of its `type` option (File API, Blob
      constructor): a type with a character outside U+0020..U+007E becomes
      "", any other is converted to ASCII lowercase. */
  function NormalizeType(t: string): (r: string)
    ensures CanonicalType(r)
    ensures CanonicalType(t) ==> r == t
    ensures r == "" || |r| == |t|
  {
    if Printable(t) then seq(|t|, i requires 0 <= i < |t| => AsciiLower(t[i])) else ""
  }

  /** A printable type keeps its length and is lowered character by
      character; any other type is dropped. */
  lemma NormalizeTypeLowers(t: string)
    ensures Printable(t) ==>
      (|NormalizeType(t)| == |t| && forall i :: 0 <= i < |t| ==> NormalizeType(t)[i] == AsciiLower(t[i]))
    ensures !Printable(t) ==> NormalizeType(t) == ""
  {
  }

  /** Normalising twice is normalising once. */
  lemma NormalizeTypeIdempotent(t: string)
    ensures NormalizeType(NormalizeType(t)) == NormalizeType(t)
  {
  }

  /** `new Blob(parts, { type })`: an undefined type labels the blob "",
      any other is normalised. */
  function BlobType(mimeType: Option<string>): string {
    if mimeType.Some? then NormalizeType(mimeType.value) else ""
  }

  /** A mixed-case type is lowered: "audio/WebM" labels the blob "audio/webm". */
  lemma MixedCaseTypeIsLowered()
    ensures BlobType(Some("audio/WebM")) == "audio/webm"
  {
    var t := "audio/WebM";
    assert Printable(t);
    assert NormalizeType(t) == seq(|t|, i requires 0 <= i < |t| => AsciiLower(t[i]));
  }

  /** The artifact built from the buffered chunks, typed with the options' MIME type. */
  function PayloadObject(chunks: seq<Chunk>, options: RecorderOptions, startTime: int, stopTime: int): BlobObject {
    var blob := Blob(chunks, BlobType(options.mimeType));
    BlobObject(Some(blob), startTime, stopTime, options, Some(ObjectUrl(blob)))
  }

  /** The "nothing recorded" artifact emitted on reset. */
  function NullObject(options: RecorderOptions, startTime: int, stopTime: int): BlobObject {
    BlobObject(None, startTime, stopTime, options, None)
  }

  /** An artifact's URL is present exactly when its blob is, and then leads to that blob. */
  predicate Coherent(o: BlobObject) {
    (o.blob.Some? <==> o.blobURL.Some?) &&
    (o.blobURL.Some? ==> o.blobURL.value.target == o.blob.value)
  }

  lemma PayloadObjectCarriesChunks(chunks: seq<Chunk>, options: RecorderOptions, startTime: int, stopTime: int)
    ensures var o := PayloadObject(chunks, options, startTime, stopTime);
      Coherent(o) && o.blob.Some? && o.blob.value.parts == chunks &&
      o.blobURL.value.target.parts == chunks &&
      CanonicalType(o.blob.value.mimeType) &&
      (options.mimeType.Some? && CanonicalType(options.mimeType.value) ==> o.blob.value.mimeType == options.mimeType.value) &&
      (options.mimeType.None? ==> o.blob.value.mimeType == "") &&
      o.startTime == startTime && o.stopTime == stopTime && o.options == options
  {
  }

  lemma NullObjectIsEmpty(options: RecorderOptions, startTime: int, stopTime: int)
    ensures var o := NullObject(options, startTime, stopTime);
      Coherent(o) && o.blob.None? && o.blobURL.None? && o.startTime == startTime && o.stopTime == stopTime
  {
  }

  /** MediaRecorder.state. */
  datatype RecorderState = Inactive | Recording | Paused

  /** A MediaRecorder: its identity, the stream it encodes, the options it was
      built with, its current state, and whether that stream is still active
      (MediaStream.active). */
  datatype Recorder = Recorder(id: nat, stream: nat, options: RecorderOptions, state: RecorderState, streamActive: bool)

  /** The platform ends a recorder on its own: it becomes inactive. When the
      cause is that its stream's tracks ended, the stream is no longer active;
      after an encoding error it still is. */
  function EndRecorder(r: Recorder, tracksEnded: bool): Recorder {
    r.(state := Inactive, streamActive := r.streamActive && !tracksEnded)
  }

  /** AudioContext.state. */
  datatype ContextState = Running | Suspended | Closed

  datatype AudioCtx = AudioCtx(id: nat, state: ContextState)

  /** MediaRecorder.pause(): a recording recorder becomes paused; otherwise
      nothing changes (on an inactive recorder the platform throws, which is
      not modelled). */
  function PauseRecorder(r: Recorder): (q: Recorder)
    ensures q.id == r.id && q.stream == r.stream && q.options == r.options
    ensures q.state == (if r.state == Inactive then Inactive else Paused)
  {
    match r.state
    case Recording => r.(state := Paused)
    case _ => r
  }

  /** MediaRecorder.resume(): a paused recorder records again. */
  function ResumeRecorder(r: Recorder): (q: Recorder)
    ensures q.id == r.id && q.stream == r.stream && q.options == r.options
    ensures q.state == (if r.state == Inactive then Inactive else Recording)
  {
    match r.state
    case Paused => r.(state := Recording)
    case _ => r
  }

  /** AudioContext.suspend(): a closed context stays closed (the promise rejects). */
  function SuspendContext(c: AudioCtx): (d: AudioCtx)
    ensures d.id == c.id
    ensures d.state == (if c.state == Closed then Closed else Suspended)
  {
    if c.state == Closed then c else c.(state := Suspended)
  }

  /** AudioContext.resume(): a closed context stays closed (the promise rejects). */
  function ResumeContext(c: AudioCtx): (d: AudioCtx)
    ensures d.id == c.id
    ensures d.state == (if c.state == Closed then Closed else Running)
  {
    if c.state == Closed then c else c.(state := Running)
  }

  /** MediaRecorder.isTypeSupported: the empty type is always supported
      (section "isTypeSupported" of the MediaStream Recording specification);
      otherwise the platform's own list decides. */
  predicate IsTypeSupported(supported: set<string>, mimeType: string) {
    mimeType == "" || mimeType in supported
  }

  /** `MediaRecorder.isTypeSupported(options.mimeType)` where the type may be
      undefined: undefined is converted to the string "undefined", which names
      no supported type. */
  predicate SupportsOption(supported: set<string>, mimeType: Option<string>) {
    mimeType.Some? && IsTypeSupported(supported, mimeType.value)
  }

  /** Absent key versus key present in an object literal (possibly holding undefined). */
  datatype Entry<+T> = Missing | Present(value: Option<T>)

  /** ReactAudioRecorderSoundOptions as an object literal. */
  datatype SoundOptions = SoundOptions(
    echoCancellation: Entry<bool>,
    autoGainControl: Entry<bool>,
    noiseSuppression: Entry<bool>,
    channelCount: Entry<int>)

  const NoSoundOptions := SoundOptions(Missing, Missing, Missing, Missing)

  /** Reading a key of an object literal: an absent key reads as undefined. */
  function ValueOf<T>(e: Entry<T>): Option<T> {
    match e
    case Missing => None
    case Present(v) => v
  }

  datatype AudioConstraints = AudioConstraints(
    echoCancellation: Option<bool>,
    autoGainControl: Option<bool>,
    noiseSuppression: Option<bool>,
    channelCount: Option<int>)

  /** The argument of getUserMedia. */
  datatype MediaConstraints = MediaConstraints(audio: AudioConstraints, video: bool)

  /** What the platform does when a `startRecording` runs.  */
  datatype StartEnv = StartEnv(
    hasMediaDevices: bool,   // navigator.mediaDevices exists
    grant: Option<nat>,      // the stream getUserMedia resolves with; None when access is denied
    supported: set<string>,  // the types MediaRecorder.isTypeSupported accepts
    hasAudioContext: bool,   // an AudioContext constructor exists (consulted when no context is held yet)
    recorderId: nat,
    contextId: nat,
    analyserId: nat,
    now: int)                // Date.now() once the audio context has resumed

  /** The constraints the class-based recorders build in their constructor:
      the four sound options read as they are, with no defaults; never video. */
  function SoundConstraints(so: SoundOptions): (c: MediaConstraints)
    ensures !c.video
    ensures c.audio.echoCancellation == ValueOf(so.echoCancellation)
    ensures c.audio.autoGainControl == ValueOf(so.autoGainControl)
    ensures c.audio.noiseSuppression == ValueOf(so.noiseSuppression)
    ensures c.audio.channelCount == ValueOf(so.channelCount)
    ensures so == NoSoundOptions ==> c.audio == AudioConstraints(None, None, None, None)
  {
    MediaConstraints(
      AudioConstraints(ValueOf(so.echoCancellation), ValueOf(so.autoGainControl), ValueOf(so.noiseSuppression), ValueOf(so.channelCount)),
      false)
  }

  /** Every call the model makes on a browser object, in order. */
  datatype PlatformCall =
    | RequestMedia(constraints: MediaConstraints)
    | RecorderStart(timeslice: int)
    | RecorderStop
    | RecorderPause
    | RecorderResume
    | StopTracks(stream: nat)
    | ContextSuspend
    | ContextResume
    | ContextClose
    | ConnectSource(stream: nat)
    | ResetAnalyser
    | CreateObjectUrl(blob: Blob)
    | AlertUnsupported

  /** Every host callback the model invokes, in order. */
  datatype Callback =
    | StartCb
    | ChangeCb(change: BlobObject)
    | StopCb(stopped: BlobObject)
    | PauseCb(paused: BlobObject)
    | DataCb(chunk: Chunk)
    | DoneCb

  /** The callback log entries of a run of chunk deliveries forwarded to onData. */
  function DataCallbacks(cs: seq<Chunk>): (r: seq<Callback>)
    ensures |r| == |cs|
  {
    if cs == [] then [] else [DataCb(cs[0])] + DataCallbacks(cs[1..])
  }

  /** The i-th entry forwards the i-th chunk. */
  lemma {:induction false} DataCallbacksForward(cs: seq<Chunk>, i: int)
    requires 0 <= i < |cs|
    ensures DataCallbacks(cs)[i] == DataCb(cs[i])
    decreases |cs|
  {
    if i > 0 {
      DataCallbacksForward(cs[1..], i - 1);
    }
  }

  /** Every artifact in the callback log is coherent. */
  predicate CallbacksCoherent(log: seq<Callback>) {
    forall i :: 0 <= i < |log| ==> CallbackCoherent(log[i])
  }

  predicate CallbackCoherent(cb: Callback) {
    match cb
    case ChangeCb(o) => Coherent(o)
    case StopCb(o) => Coherent(o)
    case PauseCb(o) => Coherent(o)
    case _ => true
  }

  /** Appending coherent entries to a coherent log keeps it coherent. */
  lemma AppendCoherent(log: seq<Callback>, more: seq<Callback>)
    requires CallbacksCoherent(log)
    requires forall i :: 0 <= i < |more| ==> CallbackCoherent(more[i])
    ensures CallbacksCoherent(log + more)
  {
    forall i | 0 <= i < |log + more|
      ensures CallbackCoherent((log + more)[i])
    {
      if i >= |log| {
        assert (log + more)[i] == more[i - |log|];
      }
    }
  }
}
