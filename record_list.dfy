/** The recording controller of the auto-recorder's record list: which codec and capture source a
    recording uses, how a detector result is read, and the idle/recording state machine driven by the
    manual buttons, the detector tick and the file picker. Media objects are opaque handles. */
module RecordList {
  import opened Wrappers
  import PullDetector

  // ---------------------------------------------------------------- codec choice

  const MimeCandidates: seq<string> := [
    "video/webm;codecs=vp9,opus",
    "video/webm;codecs=vp8,opus",
    "video/webm;codecs=h264,opus",
    "video/webm"
  ]

  /** Index of the first candidate at or after i that the browser accepts. */
  function FirstSupportedFrom(cands: seq<string>, supported: string -> bool, i: nat): (r: Option<nat>)
    requires i <= |cands|
    ensures r.Some? ==> i <= r.value < |cands| && supported(cands[r.value])
    ensures r.Some? ==> forall k :: i <= k < r.value ==> !supported(cands[k])
    ensures r.None? ==> forall k :: i <= k < |cands| ==> !supported(cands[k])
    decreases |cands| - i
  {
    if i == |cands| then None
    else if supported(cands[i]) then Some(i)
    else FirstSupportedFrom(cands, supported, i + 1)
  }

  /** `pickSupportedMime`: the candidates are tried in order and the first one accepted is returned;
      without a MediaRecorder (or its `isTypeSupported`) nothing is accepted. */
  method PickSupportedMime(recorderDefined: bool, supported: string -> bool) returns (mime: Option<string>)
    ensures mime.Some? <==> recorderDefined && FirstSupportedFrom(MimeCandidates, supported, 0).Some?
    ensures mime.Some? ==> mime.value == MimeCandidates[FirstSupportedFrom(MimeCandidates, supported, 0).value]
  {
    var i := 0;
    while i < |MimeCandidates|
      invariant 0 <= i <= |MimeCandidates|
      invariant recorderDefined ==> FirstSupportedFrom(MimeCandidates, supported, 0) == FirstSupportedFrom(MimeCandidates, supported, i)
    {
      var c := MimeCandidates[i];
      if recorderDefined && supported(c) {
        return Some(c);
      }
      i := i + 1;
    }
    return None;
  }

  // ---------------------------------------------------------------- detector canvas

  const DetectorMaxWidth: nat := 512

  function Max2(n: int): nat {
    if n < 2 then 2 else n
  }

  /** A 0 video dimension (metadata not loaded) stands for 1280 x 720. */
  function OrDefault(side: nat, default: nat): nat {
    if side == 0 then default else side
  }

  /** The scale factor `min(1, 512 / vw)`. */
  function Scale(vw: nat): real
    requires vw > 0
  {
    var ratio := DetectorMaxWidth as real / vw as real;
    if 1.0 <= ratio then 1.0 else ratio
  }

  /** The detector canvas: the frame is scaled down (never up) to at most 512 wide keeping its aspect,
      and neither side drops below 2. */
  function DetectorCanvasSize(videoWidth: nat, videoHeight: nat): (size: (nat, nat)) {
    ScaledCanvas(OrDefault(videoWidth, 1280), OrDefault(videoHeight, 720))
  }

  /** Both sides of a vw x vh frame scaled by the same factor, each at least 2. */
  function ScaledCanvas(vw: nat, vh: nat): (nat, nat)
    requires vw > 0
  {
    (Max2(ScaledSide(vw, vw)), Max2(ScaledSide(vh, vw)))
  }

  /** One side scaled by the frame's factor and rounded down. */
  function ScaledSide(side: nat, vw: nat): int
    requires vw > 0
  {
    (side as real * Scale(vw)).Floor
  }

  /** The real-valued scaling agrees with integer division: a scaled side is floor(side * 512 / vw). */
  lemma FloorOfRatio(side: nat, vw: nat)
    requires vw > 0
    ensures (side as real * (DetectorMaxWidth as real / vw as real)).Floor == (side * DetectorMaxWidth) / vw
  {
    var q, r := (side * DetectorMaxWidth) / vw, (side * DetectorMaxWidth) % vw;
    assert side * DetectorMaxWidth == q * vw + r;
    var x := side as real * (DetectorMaxWidth as real / vw as real);
    assert x * vw as real == (side * DetectorMaxWidth) as real;
    assert x == q as real + r as real / vw as real by {
      assert (q as real + r as real / vw as real) * vw as real == (q * vw + r) as real;
    }
    assert 0.0 <= r as real / vw as real < 1.0;
  }

  lemma DivideOut(vw: nat)
    requires vw > 0
    ensures (vw * DetectorMaxWidth) / vw == DetectorMaxWidth
  {
    var q, r := (vw * DetectorMaxWidth) / vw, (vw * DetectorMaxWidth) % vw;
    assert q * vw + r == DetectorMaxWidth * vw;
    if q < DetectorMaxWidth {
      MulLe(q + 1, DetectorMaxWidth, vw);
    } else if q > DetectorMaxWidth {
      MulLe(DetectorMaxWidth + 1, q, vw);
    }
  }

  lemma MulLe(a: int, b: int, c: nat)
    requires a <= b
    ensures a * c <= b * c
  {
    assert b * c - a * c == (b - a) * c;
  }

  /** Scaling only ever shrinks: the factor is 1 up to 512 wide and 512 / vw beyond. */
  lemma ScaleCases(vw: nat)
    requires vw > 0
    ensures vw <= DetectorMaxWidth ==> Scale(vw) == 1.0
    ensures vw > DetectorMaxWidth ==> Scale(vw) == DetectorMaxWidth as real / vw as real
  {
    var ratio := DetectorMaxWidth as real / vw as real;
    assert ratio * vw as real == DetectorMaxWidth as real;
  }

  /** A frame at most 512 wide keeps its size (each side at least 2). */
  lemma NarrowCanvas(vw: nat, vh: nat)
    requires 0 < vw <= DetectorMaxWidth
    ensures ScaledCanvas(vw, vh) == (Max2(vw), Max2(vh))
  {
    ScaleCases(vw);
    assert (vw as real * 1.0).Floor == vw;
    assert (vh as real * 1.0).Floor == vh;
  }

  /** Past 512 wide, a side is scaled by 512 / vw and rounded down. */
  lemma WideSide(side: nat, vw: nat)
    requires vw > DetectorMaxWidth
    ensures ScaledSide(side, vw) == (side * DetectorMaxWidth) / vw
  {
    ScaleCases(vw);
    FloorOfRatio(side, vw);
  }

  /** A wider frame becomes 512 wide, its height scaled by 512 / vw and rounded down. */
  lemma WideCanvas(vw: nat, vh: nat)
    requires vw > DetectorMaxWidth
    ensures ScaledCanvas(vw, vh) == (DetectorMaxWidth, Max2((vh * DetectorMaxWidth) / vw))
  {
    WideSide(vw, vw);
    WideSide(vh, vw);
    DivideOut(vw);
  }

  /** The canvas is at most 512 wide and at least 2 x 2; a frame at most 512 wide keeps its size, a
      wider one becomes 512 wide with its height scaled by the same factor, rounded down. */
  lemma DetectorCanvasBounds(videoWidth: nat, videoHeight: nat)
    ensures 2 <= DetectorCanvasSize(videoWidth, videoHeight).0 <= DetectorMaxWidth
    ensures 2 <= DetectorCanvasSize(videoWidth, videoHeight).1
    ensures OrDefault(videoWidth, 1280) <= DetectorMaxWidth ==>
      DetectorCanvasSize(videoWidth, videoHeight) == (Max2(OrDefault(videoWidth, 1280)), Max2(OrDefault(videoHeight, 720)))
    ensures OrDefault(videoWidth, 1280) > DetectorMaxWidth ==>
      DetectorCanvasSize(videoWidth, videoHeight) == (DetectorMaxWidth, Max2((OrDefault(videoHeight, 720) * DetectorMaxWidth) / OrDefault(videoWidth, 1280)))
  {
    var vw := OrDefault(videoWidth, 1280);
    var vh := OrDefault(videoHeight, 720);
    if vw > DetectorMaxWidth {
      WideCanvas(vw, vh);
    } else {
      NarrowCanvas(vw, vh);
    }
  }

  // ---------------------------------------------------------------- detector results

  /** The JavaScript values a detector can resolve to (NaN is not modelled). */
  datatype JsValue =
    | Undefined
    | Null
    | Bool(b: bool)
    | Num(n: real)
    | Str(s: string)
    | Obj(fields: map<string, JsValue>)
    | Func

  /** JavaScript truthiness, as `!!v` computes it. */
  predicate Truthy(v: JsValue) {
    match v
    case Undefined => false
    case Null => false
    case Bool(b) => b
    case Num(n) => n != 0.0
    case Str(s) => s != ""
    case Obj(_) => true
    case Func => true
  }

  predicate Nullish(v: JsValue) {
    v == Undefined || v == Null
  }

  function Field(fields: map<string, JsValue>, key: string): JsValue {
    if key in fields then fields[key] else Undefined
  }

  /** `o.k1 ?? o.k2 ?? ...`: the first non-nullish field, else the last field read. */
  function Coalesce(fields: map<string, JsValue>, keys: seq<string>): (v: JsValue)
    decreases |keys|
  {
    if |keys| == 0 then Undefined
    else if |keys| == 1 || !Nullish(Field(fields, keys[0])) then Field(fields, keys[0])
    else Coalesce(fields, keys[1..])
  }

  /** The coalesced value is the first non-nullish field, or nullish when every field is. */
  lemma {:induction false} CoalesceFirst(fields: map<string, JsValue>, keys: seq<string>)
    ensures forall k :: (0 <= k < |keys| && (forall m :: 0 <= m < k ==> Nullish(Field(fields, keys[m]))) && !Nullish(Field(fields, keys[k])))
                        ==> Coalesce(fields, keys) == Field(fields, keys[k])
    ensures (forall m :: 0 <= m < |keys| ==> Nullish(Field(fields, keys[m]))) ==> Nullish(Coalesce(fields, keys))
    decreases |keys|
  {
    if |keys| > 1 {
      CoalesceFirst(fields, keys[1..]);
      forall k | 0 < k < |keys| && (forall m :: 0 <= m < k ==> Nullish(Field(fields, keys[m]))) && !Nullish(Field(fields, keys[k]))
        ensures Coalesce(fields, keys) == Field(fields, keys[k])
      {
        assert Nullish(Field(fields, keys[0]));
        assert keys[1..][k - 1] == keys[k];
        forall m | 0 <= m < k - 1 ensures Nullish(Field(fields, keys[1..][m])) {
          assert keys[1..][m] == keys[m + 1];
        }
      }
      if forall m :: 0 <= m < |keys| ==> Nullish(Field(fields, keys[m])) {
        forall m | 0 <= m < |keys| - 1 ensures Nullish(Field(fields, keys[1..][m])) {
          assert keys[1..][m] == keys[m + 1];
        }
      }
    }
  }

  datatype Which = Start | End

  function ResultKeys(which: Which): seq<string> {
    match which
    case Start => ["pullStarted", "started", "isStart", "start"]
    case End => ["pullEnded", "ended", "isEnd", "end"]
  }

  /** How awaiting a detector went. */
  datatype Call = Threw | Returned(value: JsValue)

  /** `callBoolean`: a boolean passes through, an object gives its first non-nullish start (or end)
      field as a boolean, and a missing detector, an exception or any other value gives false. */
  function CallBoolean(hasDetector: bool, call: Call, which: Which): (b: bool)
    ensures b ==> hasDetector && call.Returned? && (call.value.Bool? || call.value.Obj?)
    ensures hasDetector && call.Returned? && call.value.Bool? ==> b == call.value.b
  {
    if !hasDetector then false
    else match call
      case Threw => false
      case Returned(Bool(r)) => r
      case Returned(Obj(fields)) => Truthy(Coalesce(fields, ResultKeys(which)))
      case Returned(_) => false
  }

  /** An object result is read through its keys in order: the first non-nullish one decides, and an
      object with none of them set is false. */
  lemma CallBooleanObject(fields: map<string, JsValue>, which: Which)
    ensures var keys := ResultKeys(which);
      forall k :: 0 <= k < |keys| && (forall m :: 0 <= m < k ==> Nullish(Field(fields, keys[m]))) && !Nullish(Field(fields, keys[k]))
        ==> CallBoolean(true, Returned(Obj(fields)), which) == Truthy(Field(fields, keys[k]))
    ensures (forall key :: key in ResultKeys(which) ==> key !in fields) ==> !CallBoolean(true, Returned(Obj(fields)), which)
  {
    var keys := ResultKeys(which);
    CoalesceFirst(fields, keys);
    if forall key :: key in keys ==> key !in fields {
      assert forall m :: 0 <= m < |keys| ==> Nullish(Field(fields, keys[m]));
    }
  }

  // ---------------------------------------------------------------- capture sources

  /** What the Electron bridge's source selector gave back. */
  datatype Selection = NoBridge | SelectThrew | NoId | SourceId(id: string)

  /** `src?.id` is truthy: a source with a non-empty id (JavaScript treats "" as false). */
  predicate HasId(sel: Selection) {
    sel.SourceId? && sel.id != ""
  }

  datatype Capture =
    | Desktop(id: string, maxFrameRate: nat)   // getUserMedia on a chosen desktop source
    | Display(audio: bool)                      // the getDisplayMedia picker

  /** `getDisplayStream`: the bridge's desktop source at 60 fps when it yields an id and getUserMedia
      accepts it, otherwise the picker with audio, otherwise the picker without audio; an IPC failure
      falls through, and `None` is the error thrown by the last attempt. */
  function DisplayStream(sel: Selection, userMediaOk: bool, withAudioOk: bool, videoOnlyOk: bool): (r: Option<Capture>)
    ensures r.Some? && r.value.Desktop? <==> HasId(sel) && userMediaOk
    ensures r.Some? && r.value.Desktop? ==> r.value == Desktop(sel.id, 60)
    ensures r == Some(Display(true)) <==> !(HasId(sel) && userMediaOk) && withAudioOk
    ensures r == Some(Display(false)) <==> !(HasId(sel) && userMediaOk) && !withAudioOk && videoOnlyOk
    ensures r.None? <==> !(HasId(sel) && userMediaOk) && !withAudioOk && !videoOnlyOk
  {
    if HasId(sel) && userMediaOk then Some(Desktop(sel.id, 60))
    else if withAudioOk then Some(Display(true))
    else if videoOnlyOk then Some(Display(false))
    else None
  }

  /** The detector's stream (lines 88-111): the desktop source at 30 fps, else the picker without audio,
      else no detector at all. */
  function DetectorStream(sel: Selection, userMediaOk: bool, videoOnlyOk: bool): (r: Option<Capture>)
    ensures r.Some? && r.value.Desktop? <==> HasId(sel) && userMediaOk
    ensures r.Some? && r.value.Desktop? ==> r.value == Desktop(sel.id, 30)
    ensures r.Some? && r.value.Display? ==> !r.value.audio
    ensures r.None? <==> !(HasId(sel) && userMediaOk) && !videoOnlyOk
  {
    if HasId(sel) && userMediaOk then Some(Desktop(sel.id, 30))
    else if videoOnlyOk then Some(Display(false))
    else None
  }

  /** A failing bridge (no bridge, a thrown selector, no id or an empty one, or a refused source) is as if there were
      no bridge: both paths go on to the picker. */
  lemma BridgeFailureFallsThrough(sel: Selection, userMediaOk: bool, withAudioOk: bool, videoOnlyOk: bool)
    requires !(HasId(sel) && userMediaOk)
    ensures DisplayStream(sel, userMediaOk, withAudioOk, videoOnlyOk) == DisplayStream(NoBridge, userMediaOk, withAudioOk, videoOnlyOk)
    ensures DetectorStream(sel, userMediaOk, videoOnlyOk) == DetectorStream(NoBridge, userMediaOk, videoOnlyOk)
  {
  }

  // ---------------------------------------------------------------- records

  datatype Status = Recording | Completed

  /** A record-list entry; the media fields are opaque handles. */
  datatype Entry = Entry(
    id: nat, name: string, startedAt: int, endedAt: Option<int>, status: Status, src: Option<string>,
    recorder: Option<nat>, chunks: Option<nat>, stream: Option<nat>, recStream: Option<nat>, cleanup: Option<nat>)

  /** The handles a started recording holds. */
  datatype Media = Media(recorder: nat, chunks: nat, stream: nat, recStream: nat, cleanup: nat)

  /** What the environment does during one `startRecording`. */
  datatype StartEnv = StartEnv(
    capture: Option<Capture>,        // the stream `getDisplayStream` resolves to, None if it throws
    message: Option<string>,         // the message of the error thrown, if any
    hasVideoTrack: bool,
    recorderBuilt: bool,             // some MediaRecorder could be constructed
    recorderStarted: bool,           // `recorder.start()` did not throw
    media: Media)

  predicate StartSucceeds(env: StartEnv) {
    env.capture.Some? && env.hasVideoTrack && env.recorderBuilt && env.recorderStarted
  }

  const NoVideoTrackMessage: string := "No video track in captured stream"
  const StartFailedMessage: string := "Failed to start recording"

  /** The component's state; `nextId` stands for `crypto.randomUUID` and `pickerClicks` counts the
      times the file picker was opened as a fallback. */
  datatype State = State(
    list: seq<Entry>, activeId: Option<nat>, isRecording: bool, isManualRecording: bool,
    error: Option<string>, nextId: nat, pickerClicks: nat)

  const Initial := State([], None, false, false, None, 0, 0)

  /** The entry `startRecording` prepends. */
  function NewEntry(id: nat, timeText: string, now: int, m: Media): Entry {
    Entry(id, "Pull " + timeText, now, None, Recording, None, Some(m.recorder), Some(m.chunks), Some(m.stream), Some(m.recStream), Some(m.cleanup))
  }

  /** The catch block: the error is shown and the file picker opened. */
  function Failed(s: State, message: Option<string>): State {
    s.(error := Some(if message.Some? then message.value else StartFailedMessage), pickerClicks := s.pickerClicks + 1)
  }

  /** `startRecording`. */
  function StartStep(s: State, env: StartEnv, timeText: string, now: int): State {
    if s.isRecording then s
    else
      var t := s.(error := None, nextId := s.nextId + 1);
      if env.capture.None? then Failed(t, env.message)
      else if !env.hasVideoTrack then Failed(t, Some(NoVideoTrackMessage))
      else if !env.recorderBuilt then Failed(t, env.message)
      else if !env.recorderStarted then Failed(t.(isRecording := true), env.message)
      else t.(isRecording := true, list := [NewEntry(s.nextId, timeText, now, env.media)] + s.list, activeId := Some(s.nextId))
  }

  predicate HasEntry(list: seq<Entry>, id: nat) {
    exists i :: 0 <= i < |list| && list[i].id == id
  }

  /** The active entry after a stop. */
  function Finished(e: Entry, endedAt: int, url: string): Entry {
    e.(status := Completed, endedAt := Some(endedAt), src := Some(url), recorder := None, chunks := None, stream := None)
  }

  function FinishActive(list: seq<Entry>, id: nat, endedAt: int, url: string): (r: seq<Entry>)
    ensures |r| == |list|
  {
    seq(|list|, i requires 0 <= i < |list| => if list[i].id == id then Finished(list[i], endedAt, url) else list[i])
  }

  /** `stopRecording`. */
  function StopStep(s: State, endedAt: int, url: string): State {
    if s.activeId.None? || !HasEntry(s.list, s.activeId.value) then s
    else s.(list := FinishActive(s.list, s.activeId.value, endedAt, url), activeId := None, isRecording := false)
  }

  /** The entry the file picker adds for a chosen file. */
  datatype PickedFile = PickedFile(name: string, url: string)

  function AddPickedStep(s: State, file: Option<PickedFile>, now: int): State {
    if file.None? then s
    else
      var e := Entry(s.nextId, file.value.name, now, Some(now), Completed, Some(file.value.url), None, None, None, None, None);
      s.(list := [e] + s.list, nextId := s.nextId + 1)
  }

  // ---------------------------------------------------------------- detector tick

  /** The start signal from a prediction, as `pullStartDetected` reads it; a null prediction is none. */
  predicate StartSignal(p: PullDetector.Prediction) {
    p.Scores? && PullDetector.PullStartDetected((p.start, p.end))
  }

  predicate EndSignal(p: PullDetector.Prediction) {
    p.Scores? && PullDetector.PullEndDetected((p.start, p.end))
  }

  /** One detector tick (the evidently intended one: the frame goes through `predictScores` first).
      The signals are suppressed while a manual recording runs; a start needs no active recording and
      an end needs one. */
  function TickStep(s: State, p: PullDetector.Prediction, env: StartEnv, timeText: string, now: int, url: string): State {
    var started := StartSignal(p) && !s.isManualRecording;
    var ended := EndSignal(p) && !s.isManualRecording;
    if started && s.activeId.None? then StartStep(s, env, timeText, now)
    else if ended && s.activeId.Some? then StopStep(s, now, url)
    else s
  }

  /** The detector functions as the tick calls them: they receive the `ImageData` itself, whose
      element 0 is `undefined`, so `scores[0][0]` throws. The constant `Threw` encodes that TypeError
      (reading a property of `undefined`), whatever the frame. */
  function DetectorOnImage(img: PullDetector.Image): Call {
    Threw
  }

  /** The tick as written: each signal is `callBoolean` of the detector applied to the frame. */
  function TickAsWritten(s: State, img: PullDetector.Image, env: StartEnv, timeText: string, now: int, url: string): State {
    var started := CallBoolean(true, DetectorOnImage(img), Start) && !s.isManualRecording;
    var ended := CallBoolean(true, DetectorOnImage(img), End) && !s.isManualRecording;
    if started && s.activeId.None? then StartStep(s, env, timeText, now)
    else if ended && s.activeId.Some? then StopStep(s, now, url)
    else s
  }

  /** As written, a tick never changes anything: the detector always fails and reads as false. */
  lemma TickAsWrittenIsInert(s: State, img: PullDetector.Image, env: StartEnv, timeText: string, now: int, url: string)
    ensures TickAsWritten(s, img, env, timeText, now, url) == s
  {
  }

  /** With the scores, a start score above 0.7 on an idle, non-manual controller starts a recording:
      exactly what the as-written tick never does. */
  lemma TickStartsOnScore(s: State, p: PullDetector.Prediction, env: StartEnv, timeText: string, now: int, url: string)
    requires StateValid(s) && s.activeId.None? && !s.isRecording && !s.isManualRecording && StartSucceeds(env)
    requires p.Scores? && |p.start| > 0 && p.start[0] > PullDetector.StartThresh
    ensures TickStep(s, p, env, timeText, now, url).activeId == Some(s.nextId)
    ensures TickStep(s, p, env, timeText, now, url).list == [NewEntry(s.nextId, timeText, now, env.media)] + s.list
  {
  }

  /** A tick starts a recording only on a start signal outside manual mode with nothing active, and stops
      one only on an end signal outside manual mode with a recording active. */
  lemma TickGuards(s: State, p: PullDetector.Prediction, env: StartEnv, timeText: string, now: int, url: string)
    requires StateValid(s)
    ensures var r := TickStep(s, p, env, timeText, now, url);
      r != s ==> (!s.isManualRecording &&
                  ((StartSignal(p) && s.activeId.None? && r == StartStep(s, env, timeText, now)) ||
                   (EndSignal(p) && s.activeId.Some? && r == StopStep(s, now, url))))
    ensures s.isManualRecording ==> TickStep(s, p, env, timeText, now, url) == s
  {
  }

  // ---------------------------------------------------------------- invariant and properties

  /** Ids are fresh and distinct, the only 'recording' entry is the active one, and an active id names
      such an entry while `isRecording` holds. */
  ghost predicate StateValid(s: State) {
    (forall i :: 0 <= i < |s.list| ==> s.list[i].id < s.nextId) &&
    (forall i, j :: 0 <= i < j < |s.list| ==> s.list[i].id != s.list[j].id) &&
    (forall i :: 0 <= i < |s.list| && s.list[i].status == Recording ==> s.activeId == Some(s.list[i].id)) &&
    (s.activeId.Some? ==> s.isRecording && exists i :: 0 <= i < |s.list| && s.list[i].id == s.activeId.value && s.list[i].status == Recording)
  }

  lemma InitialValid()
    ensures StateValid(Initial)
  {
  }

  /** At most one entry is 'recording'. */
  lemma AtMostOneRecording(s: State, i: nat, j: nat)
    requires StateValid(s) && i < |s.list| && j < |s.list|
    requires s.list[i].status == Recording && s.list[j].status == Recording
    ensures i == j
  {
    assert s.activeId == Some(s.list[i].id) && s.activeId == Some(s.list[j].id);
  }

  lemma PrependValid(s: State, e: Entry)
    requires StateValid(s) && e.id == s.nextId
    requires e.status == Recording ==> !s.isRecording
    ensures var t := s.(list := [e] + s.list, nextId := s.nextId + 1, isRecording := s.isRecording || e.status == Recording,
                        activeId := if e.status == Recording then Some(e.id) else s.activeId);
      StateValid(t)
  {
    var t := s.(list := [e] + s.list, nextId := s.nextId + 1, isRecording := s.isRecording || e.status == Recording,
                activeId := if e.status == Recording then Some(e.id) else s.activeId);
    forall i | 0 < i < |t.list| ensures t.list[i] == s.list[i - 1] {
    }
    if e.status == Recording {
      assert s.activeId.None?;
      assert t.list[0] == e;
      forall i | 0 < i < |t.list| ensures t.list[i].status != Recording {
        assert s.list[i - 1].status == Recording ==> s.activeId.Some?;
      }
    } else if s.activeId.Some? {
      var k :| 0 <= k < |s.list| && s.list[k].id == s.activeId.value && s.list[k].status == Recording;
      assert t.list[k + 1] == s.list[k];
    }
  }

  /** `startRecording` keeps the invariant. */
  lemma StartPreserves(s: State, env: StartEnv, timeText: string, now: int)
    requires StateValid(s)
    ensures StateValid(StartStep(s, env, timeText, now))
  {
    if !s.isRecording && StartSucceeds(env) {
      PrependValid(s, NewEntry(s.nextId, timeText, now, env.media));
      var t := s.(list := [NewEntry(s.nextId, timeText, now, env.media)] + s.list, nextId := s.nextId + 1,
                  isRecording := true, activeId := Some(s.nextId));
      assert StartStep(s, env, timeText, now) == t.(error := None);
    }
  }

  /** A start while recording changes nothing, so repeated starts never add a second recording. */
  lemma StartWhileRecordingIsNoOp(s: State, env: StartEnv, timeText: string, now: int)
    requires s.isRecording
    ensures StartStep(s, env, timeText, now) == s
  {
  }

  /** A successful start prepends exactly one fresh 'recording' entry, makes it active, and keeps the
      older entries. */
  lemma StartAddsOneEntry(s: State, env: StartEnv, timeText: string, now: int)
    requires StateValid(s) && !s.isRecording && StartSucceeds(env)
    ensures var r := StartStep(s, env, timeText, now);
      |r.list| == |s.list| + 1 && r.list[1..] == s.list &&
      r.list[0].status == Recording && r.activeId == Some(r.list[0].id) && r.isRecording && r.error.None? &&
      !HasEntry(s.list, r.list[0].id)
  {
    var r := StartStep(s, env, timeText, now);
    assert r.list[1..] == s.list;
    forall i | 0 <= i < |s.list| ensures s.list[i].id != s.nextId {
      assert s.list[i].id < s.nextId;
    }
  }

  /** A start that fails before `recorder.start()` shows the error, opens the picker and records
      nothing; one that fails in `recorder.start()` leaves `isRecording` set. */
  lemma StartFailure(s: State, env: StartEnv, timeText: string, now: int)
    requires !s.isRecording && !StartSucceeds(env)
    ensures var r := StartStep(s, env, timeText, now);
      r.list == s.list && r.activeId == s.activeId && r.error.Some? && r.pickerClicks == s.pickerClicks + 1 &&
      (r.isRecording <==> env.capture.Some? && env.hasVideoTrack && env.recorderBuilt)
    ensures env.capture.Some? && !env.hasVideoTrack ==> StartStep(s, env, timeText, now).error == Some(NoVideoTrackMessage)
  {
  }

  /** Once a start has failed in `recorder.start()`, neither a start nor a stop clears the flag. */
  lemma StuckAfterFailedStart(s: State, env: StartEnv, env2: StartEnv, timeText: string, now: int, url: string)
    requires StateValid(s) && !s.isRecording && env.capture.Some? && env.hasVideoTrack && env.recorderBuilt && !env.recorderStarted
    ensures var r := StartStep(s, env, timeText, now);
      r.isRecording && r.activeId == s.activeId &&
      StartStep(r, env2, timeText, now) == r &&
      StopStep(r, now, url) == r
  {
    assert s.activeId.None?;
  }

  /** `stopRecording` with an active entry completes exactly that entry, clearing its recorder, chunks
      and stream, and leaves the controller idle; with none it does nothing. */
  lemma StopOnlyActive(s: State, endedAt: int, url: string)
    ensures s.activeId.None? ==> StopStep(s, endedAt, url) == s
    ensures s.activeId.Some? && !HasEntry(s.list, s.activeId.value) ==> StopStep(s, endedAt, url) == s
    ensures var r := StopStep(s, endedAt, url);
      s.activeId.Some? && HasEntry(s.list, s.activeId.value) ==>
        r.activeId.None? && !r.isRecording && |r.list| == |s.list| &&
        (forall i :: 0 <= i < |s.list| && s.list[i].id != s.activeId.value ==> r.list[i] == s.list[i]) &&
        (forall i :: 0 <= i < |s.list| && s.list[i].id == s.activeId.value ==>
          r.list[i].status == Completed && r.list[i].endedAt == Some(endedAt) && r.list[i].src == Some(url) &&
          r.list[i].recorder.None? && r.list[i].chunks.None? && r.list[i].stream.None? &&
          r.list[i].recStream == s.list[i].recStream && r.list[i].id == s.list[i].id && r.list[i].name == s.list[i].name)
  {
  }

  /** `stopRecording` keeps the invariant. */
  lemma StopPreserves(s: State, endedAt: int, url: string)
    requires StateValid(s)
    ensures StateValid(StopStep(s, endedAt, url))
  {
    if s.activeId.Some? && HasEntry(s.list, s.activeId.value) {
      var r := StopStep(s, endedAt, url);
      forall i | 0 <= i < |r.list| ensures r.list[i].id == s.list[i].id && r.list[i].status != Recording {
        assert s.list[i].status == Recording ==> s.activeId == Some(s.list[i].id);
      }
    }
  }

  /** Picking a file prepends one completed entry with a fresh id; no choice changes nothing. */
  lemma AddPickedPreserves(s: State, file: Option<PickedFile>, now: int)
    requires StateValid(s)
    ensures StateValid(AddPickedStep(s, file, now))
    ensures file.None? ==> AddPickedStep(s, file, now) == s
    ensures file.Some? ==> var r := AddPickedStep(s, file, now);
      r.list[1..] == s.list && r.list[0].status == Completed && r.list[0].src == Some(file.value.url) &&
      r.activeId == s.activeId && r.isRecording == s.isRecording
  {
    if file.Some? {
      var r := AddPickedStep(s, file, now);
      PrependValid(s, r.list[0]);
      assert r.list[1..] == s.list;
    }
  }

  /** A tick keeps the invariant. */
  lemma TickPreserves(s: State, p: PullDetector.Prediction, env: StartEnv, timeText: string, now: int, url: string)
    requires StateValid(s)
    ensures StateValid(TickStep(s, p, env, timeText, now, url))
  {
    StartPreserves(s, env, timeText, now);
    StopPreserves(s, now, url);
  }

  // ---------------------------------------------------------------- the component

  /** The `RecordList` component's state hooks. */
  class Recorder {
    var list: seq<Entry>
    var activeId: Option<nat>
    var isRecording: bool
    var isManualRecording: bool
    var error: Option<string>
    var nextId: nat
    var pickerClicks: nat

    function Model(): State
      reads this
    {
      State(list, activeId, isRecording, isManualRecording, error, nextId, pickerClicks)
    }

    ghost predicate Valid()
      reads this
    {
      StateValid(Model())
    }

    constructor ()
      ensures Model() == Initial && Valid()
    {
      list, activeId, isRecording, isManualRecording := [], None, false, false;
      error, nextId, pickerClicks := None, 0, 0;
    }

    method Fail(message: Option<string>)
      modifies this
      ensures Model() == Failed(old(Model()), message)
    {
      error := Some(if message.Some? then message.value else StartFailedMessage);
      pickerClicks := pickerClicks + 1;
    }

    /** `startRecording` (lines 219-263). */
    method StartRecording(env: StartEnv, timeText: string, now: int)
      requires Valid()
      modifies this
      ensures Model() == StartStep(old(Model()), env, timeText, now) && Valid()
    {
      StartPreserves(Model(), env, timeText, now);
      if isRecording {
        return;
      }
      error := None;
      var id := nextId;
      nextId := nextId + 1;
      if env.capture.None? {
        Fail(env.message);
        return;
      }
      if !env.hasVideoTrack {
        Fail(Some(NoVideoTrackMessage));
        return;
      }
      if !env.recorderBuilt {
        Fail(env.message);
        return;
      }
      isRecording := true;
      if !env.recorderStarted {
        Fail(env.message);
        return;
      }
      list := [NewEntry(id, timeText, now, env.media)] + list;
      activeId := Some(id);
    }

    /** `stopRecording` (lines 265-291). */
    method StopRecording(endedAt: int, url: string)
      requires Valid()
      modifies this
      ensures Model() == StopStep(old(Model()), endedAt, url) && Valid()
    {
      StopPreserves(Model(), endedAt, url);
      if activeId.None? || !HasEntry(list, activeId.value) {
        return;
      }
      list := FinishActive(list, activeId.value, endedAt, url);
      activeId := None;
      isRecording := false;
    }

    /** `startManualRecording`: the manual flag is set before delegating. */
    method StartManualRecording(env: StartEnv, timeText: string, now: int)
      requires Valid()
      modifies this
      ensures Model() == StartStep(old(Model()).(isManualRecording := true), env, timeText, now) && Valid()
    {
      isManualRecording := true;
      StartRecording(env, timeText, now);
    }

    /** `stopManualRecording`: the manual flag is cleared before delegating. */
    method StopManualRecording(endedAt: int, url: string)
      requires Valid()
      modifies this
      ensures Model() == StopStep(old(Model()).(isManualRecording := false), endedAt, url) && Valid()
    {
      isManualRecording := false;
      StopRecording(endedAt, url);
    }

    /** One detector tick with the frame's prediction. */
    method DetectorTick(p: PullDetector.Prediction, env: StartEnv, timeText: string, now: int, url: string)
      requires Valid()
      modifies this
      ensures Model() == TickStep(old(Model()), p, env, timeText, now, url) && Valid()
    {
      var started := StartSignal(p) && !isManualRecording;
      var ended := EndSignal(p) && !isManualRecording;
      if started && activeId.None? {
        StartRecording(env, timeText, now);
      } else if ended && activeId.Some? {
        StopRecording(now, url);
      }
    }

    /** The file input's change handler. */
    method AddPickedFile(file: Option<PickedFile>, now: int)
      requires Valid()
      modifies this
      ensures Model() == AddPickedStep(old(Model()), file, now) && Valid()
    {
      AddPickedPreserves(Model(), file, now);
      if file.None? {
        return;
      }
      var e := Entry(nextId, file.value.name, now, Some(now), Completed, Some(file.value.url), None, None, None, None, None);
      list := [e] + list;
      nextId := nextId + 1;
    }
  }
}
