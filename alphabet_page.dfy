/** The alphabet practice page: the letter and reference image lookup, and the recording
    controller that collects landmark frames for `checkSign` and carries the check through to
    the backend's verdict. */
module AlphabetPage {
  import opened Optional
  import opened Text
  import opened Frames
  import opened Landmarks
  import opened TutorCheck

  /** `'ABCDEFGHIJKLMNOPQRSTUVWXYZ'.split('')`: the letters offered for practice. */
  const LETTERS: seq<string> := ["A", "B", "C", "D", "E", "F", "G", "H", "I", "J", "K", "L", "M", "N", "O", "P", "Q", "R", "S", "T", "U", "V", "W", "X", "Y", "Z"]

  /** `imageMap`: each letter's imported reference picture, named here by its asset file. */
  const IMAGE_MAP: map<string, string> := map[
    "A" := "A.jpg", "B" := "B.jpg", "C" := "C.jpg", "D" := "D.jpg", "E" := "E.jpg", "F" := "F.jpg", "G" := "G.jpg",
    "H" := "H.jpg", "I" := "I.jpg", "J" := "J.jpg", "K" := "K.jpg", "L" := "L.jpg", "M" := "M.jpg", "N" := "N.jpg",
    "O" := "O.jpg", "P" := "P.jpg", "Q" := "Q.jpg", "R" := "R.jpg", "S" := "S.jpg", "T" := "T.jpg", "U" := "U.jpg",
    "V" := "V.jpg", "W" := "W.jpg", "X" := "X.jpg", "Y" := "Y.jpg", "Z" := "Z.jpg"
  ]

  /** `imageMap[key]`, `undefined` for a key without an entry. */
  function ImageFor(key: string): (image: Option<string>)
    ensures image.Some? <==> key in IMAGE_MAP.Keys
  {
    if key in IMAGE_MAP then Some(IMAGE_MAP[key]) else None
  }

  /** The letters offered and the letters with a picture are the same: every letter has one,
      and nothing else does. */
  lemma ImagesCoverLetters()
    ensures forall key :: key in LETTERS <==> ImageFor(key).Some?
  {
    LettersHaveImages();
    ImagesAreLetters();
  }

  lemma LettersHaveImages()
    ensures forall key :: key in LETTERS ==> key in IMAGE_MAP
  {
  }

  lemma ImagesAreLetters()
    ensures forall key :: key in IMAGE_MAP ==> key in LETTERS
  {
  }

  // ---------------------------------------------------------------------------------------
  // The page's state and its events.

  /** The number of frames a recording collects before it completes on its own. */
  const TARGET_FRAMES: nat := 30

  /** A result card: the backend's verdict and its confidence. */
  datatype Shown = Shown(result: string, confidence: real)

  /** Where the pending `checkSign` call is: awaiting `recordFrames()` (whose 4-second timeout is
      still pending while `timerArmed`), or awaiting the backend with the request it sent. */
  datatype CheckPhase =
    | Idle
    | Recording(sign: string, timerArmed: bool)
    | AwaitingServer(sign: string, sequence: seq<seq<real>>)

  /** The outcome of one `/health` poll: a reply with its data, a non-2xx status, or a thrown
      error with its message. */
  datatype HealthPoll = Healthy(data: Health) | ErrorStatus | Failed(message: string)

  /** All the page's state at one moment: its React state, its refs, and the pending check. */
  datatype PageView = PageView(
    selected: Option<string>,
    referenceImage: Option<string>,
    imageLoadError: bool,
    backendHealth: Option<Health>,
    isRecording: bool,
    isChecking: bool,
    result: Option<Shown>,
    debugInfo: string,
    recordingFlag: bool,
    frames: seq<seq<real>>,
    phase: CheckPhase)

  /** A sequence the backend may receive: the frame checks pass and every frame has 126 values. */
  predicate Sendable(sequence: seq<seq<real>>) {
    FrameGate(sequence) == Send && forall i :: 0 <= i < |sequence| ==> |sequence[i]| == WIDTH
  }

  /** What holds between events: the buffer stays under 30 frames of 126 values and is empty
      unless recording; only a pending recording records; `isChecking` is set exactly while a
      check is pending; and a request in flight carries a sendable sequence. */
  predicate Consistent(v: PageView) {
    |v.frames| < TARGET_FRAMES &&
    (forall i :: 0 <= i < |v.frames| ==> |v.frames[i]| == WIDTH) &&
    (!v.recordingFlag ==> v.frames == []) &&
    (v.recordingFlag ==> v.phase.Recording? && v.phase.timerArmed) &&
    (v.isRecording ==> v.phase.Recording?) &&
    (v.isChecking <==> !v.phase.Idle?) &&
    (v.phase.AwaitingServer? ==> Sendable(v.phase.sequence))
  }

  /** A check whose recording was cut off by a reset: the recording promise is never settled,
      so `checkSign` never returns. */
  predicate Stalled(v: PageView) {
    v.phase.Recording? && !v.recordingFlag
  }

  /** A stalled check keeps `isChecking` set, so the check button stays disabled. */
  lemma StalledStaysChecking(v: PageView)
    requires Consistent(v) && Stalled(v)
    ensures v.isChecking && v.frames == []
  {
  }

  /** What the reference-image effect sets for a selection: the picture, or the error flag. */
  function ImageEffect(selected: Option<string>): (r: (Option<string>, bool))
    ensures r.0.Some? ==> !r.1
    ensures Truthy(selected) && selected.value in LETTERS ==> r == (ImageFor(selected.value), false) && r.0.Some?
    ensures !Truthy(selected) ==> r == (None, false)
  {
    if Truthy(selected) then
      var image := ImageFor(selected.value);
      if image.Some? then (image, false) else (None, true)
    else (None, false)
  }

  const CAMERA: string := "\U{1F3A5} "
  const ARROWS: string := "\U{1F504} "
  const OUTBOX: string := "\U{1F4E4} "
  const ALARM: string := "\U{23F0} "
  const WARNING: string := "\U{26A0}\U{FE0F} "

  const STARTING_CAMERA: string := CAMERA + "Starting camera..."
  const RESET_DONE: string := ARROWS + "Reset - ready to try again"
  const NO_LETTER: string := CROSS + "Please select a letter first"
  const STARTING_CHECK: string := ARROWS + "Starting sign check..."
  const RECORDING_STARTED: string := CAMERA + "Recording started... Make your sign now!"
  const NO_FRAMES: string := CROSS + "No frames captured. Make sure hands are visible!"
  const NO_LANDMARKS: string := CROSS + "No hand landmarks detected. Show your hands clearly!"

  function NoReferenceText(sign: string): string {
    CROSS + "No reference for \"" + sign + "\". Try another letter."
  }

  function ProgressText(n: nat): string {
    CAMERA + "Recording... " + Decimal(n) + "/30 frames"
  }

  function SendingText(n: nat): string {
    OUTBOX + "Sending " + Decimal(n) + " frames to backend..."
  }

  /** The rest of `checkSign` once `recordFrames()` has delivered `sequence`: an empty recording
      or one whose first frame is all zeros ends the check with its message; otherwise a request
      carrying the normalised frames is sent. Only the message, `isChecking` and the phase change. */
  function Resumed(v: PageView, sign: string, sequence: seq<seq<real>>): (w: PageView)
    ensures sequence == [] ==> w.debugInfo == NO_FRAMES
    ensures FrameGate(sequence) == NoLandmarks ==> w.debugInfo == NO_LANDMARKS
    ensures FrameGate(sequence) != Send ==> w.phase == Idle && !w.isChecking
    ensures FrameGate(sequence) == Send ==>
      w.phase == AwaitingServer(sign, Normalized(sequence)) && w.isChecking == v.isChecking &&
      w.debugInfo == SendingText(|sequence|)
    ensures w.(debugInfo := v.debugInfo, isChecking := v.isChecking, phase := v.phase) == v
  {
    match FrameGate(sequence)
    case NoFrames => v.(debugInfo := NO_FRAMES, isChecking := false, phase := Idle)
    case NoLandmarks => v.(debugInfo := NO_LANDMARKS, isChecking := false, phase := Idle)
    case Send =>
      v.(debugInfo := SendingText(|sequence|), phase := AwaitingServer(sign, Normalized(sequence)))
  }

  /** Frames of 126 values that pass the frame checks are sent exactly as recorded. */
  lemma ResumedSendsRecording(v: PageView, sign: string, sequence: seq<seq<real>>)
    requires forall i :: 0 <= i < |sequence| ==> |sequence[i]| == WIDTH
    ensures var w := Resumed(v, sign, sequence);
      (FrameGate(sequence) == Send ==> w.phase == AwaitingServer(sign, sequence) && Sendable(sequence)) &&
      (FrameGate(sequence) != Send ==> w.phase == Idle && !w.isChecking)
  {
    if FrameGate(sequence) == Send {
      var n := Normalized(sequence);
      forall i | 0 <= i < |sequence| ensures n[i] == sequence[i] {
        FitIdentity(sequence[i]);
      }
    }
  }

  /** The alphabet practice page. */
  class TutorPage {
    var selected: Option<string>
    var referenceImage: Option<string>
    var imageLoadError: bool
    var backendHealth: Option<Health>
    var isRecording: bool
    var isChecking: bool
    var result: Option<Shown>
    var debugInfo: string
    /** `isRecordingRef.current`. */
    var recordingFlag: bool
    /** `framesRef.current`. */
    var frames: seq<seq<real>>
    /** The pending `checkSign` call, with `recordingResolveRef` and the recording's timeout. */
    var phase: CheckPhase

    function View(): PageView
      reads this
    {
      PageView(selected, referenceImage, imageLoadError, backendHealth, isRecording, isChecking,
        result, debugInfo, recordingFlag, frames, phase)
    }

    predicate Valid()
      reads this
    {
      Consistent(View())
    }

    /** The page as first rendered. */
    constructor()
      ensures Valid()
      ensures View() == PageView(None, None, false, None, false, false, None, "Initializing...", false, [], Idle)
    {
      selected := None;
      referenceImage := None;
      imageLoadError := false;
      backendHealth := None;
      isRecording := false;
      isChecking := false;
      result := None;
      debugInfo := "Initializing...";
      recordingFlag := false;
      frames := [];
      phase := Idle;
    }

    /** One `/health` poll completes. */
    method HealthPolled(poll: HealthPoll)
      requires Valid()
      modifies this
      ensures Valid()
      ensures View() == match poll
        case Healthy(data) => old(View()).(backendHealth := Some(data))
        case ErrorStatus => old(View()).(backendHealth := None, debugInfo := CROSS + "Backend responded with error")
        case Failed(message) => old(View()).(backendHealth := None, debugInfo := WARNING + "Cannot connect to backend: " + message)
    {
      match poll
      case Healthy(data) =>
        backendHealth := Some(data);
      case ErrorStatus =>
        backendHealth := None;
        debugInfo := CROSS + "Backend responded with error";
      case Failed(message) =>
        backendHealth := None;
        debugInfo := WARNING + "Cannot connect to backend: " + message;
    }

    /** The effects that run when `selected` changes: the camera effect's cleanup empties the
        frame buffer and clears the recording flag; the image effect sets the picture; the
        camera effect announces the camera when a letter is selected. */
    method SelectionChanged()
      requires Valid()
      modifies this
      ensures Valid()
      ensures View() == old(View()).(frames := [], recordingFlag := false,
        referenceImage := ImageEffect(selected).0, imageLoadError := ImageEffect(selected).1,
        debugInfo := if Truthy(selected) then STARTING_CAMERA else old(debugInfo))
      ensures old(phase).Recording? ==> Stalled(View())
    {
      frames := [];
      recordingFlag := false;
      if selected.Some? && selected.value != [] {
        var image := ImageFor(selected.value);
        if image.Some? {
          referenceImage := image;
          imageLoadError := false;
        } else {
          imageLoadError := true;
          referenceImage := None;
        }
        debugInfo := STARTING_CAMERA;
      } else {
        referenceImage := None;
        imageLoadError := false;
      }
    }

    /** A letter button is clicked. */
    method Select(letter: string)
      requires Valid()
      modifies this
      ensures Valid()
      ensures selected == Some(letter) && result == None
      ensures old(selected) != Some(letter) ==>
        View() == old(View()).(selected := Some(letter), result := None, frames := [], recordingFlag := false,
          referenceImage := ImageEffect(Some(letter)).0, imageLoadError := ImageEffect(Some(letter)).1,
          debugInfo := if letter != [] then STARTING_CAMERA else "Selected: " + letter)
      ensures old(selected) == Some(letter) ==>
        View() == old(View()).(result := None, debugInfo := "Selected: " + letter)
      ensures old(Stalled(View())) || (old(selected) != Some(letter) && old(phase).Recording?) ==> Stalled(View())
    {
      var changed := selected != Some(letter);
      selected := Some(letter);
      result := None;
      debugInfo := "Selected: " + letter;
      if changed {
        SelectionChanged();
      }
    }

    /** The Stop button: the selection is cleared. */
    method Deselect()
      requires Valid()
      modifies this
      ensures Valid()
      ensures old(selected) != None ==>
        View() == old(View()).(selected := None, frames := [], recordingFlag := false,
          referenceImage := None, imageLoadError := false)
      ensures old(selected) == None ==> View() == old(View())
      ensures old(Stalled(View())) || (old(selected) != None && old(phase).Recording?) ==> Stalled(View())
    {
      if selected != None {
        selected := None;
        SelectionChanged();
      }
    }

    /** `tryAgain`, the Reset button. A pending recording is abandoned without being settled. */
    method TryAgain()
      requires Valid()
      modifies this
      ensures Valid()
      ensures View() == old(View()).(result := None, isRecording := false, recordingFlag := false,
        frames := [], debugInfo := RESET_DONE)
      ensures old(phase).Recording? ==> Stalled(View())
    {
      result := None;
      isRecording := false;
      recordingFlag := false;
      frames := [];
      debugInfo := RESET_DONE;
    }

    /** The check button is clicked (it is disabled while checking or recording): `checkSign`
        runs its early checks and, when they pass, starts `recordFrames()`. */
    method CheckSign()
      requires Valid() && !isChecking && !isRecording
      modifies this
      ensures Valid()
      ensures var gate := PreRecordGate(old(selected), old(backendHealth));
        (gate == NoLetter ==> View() == old(View()).(debugInfo := NO_LETTER)) &&
        (gate == NoReference ==> View() == old(View()).(debugInfo := NoReferenceText(old(selected).value))) &&
        (gate == Record ==>
          View() == old(View()).(isChecking := true, result := None, frames := [], isRecording := true,
            recordingFlag := true, debugInfo := RECORDING_STARTED, phase := Recording(old(selected).value, true)))
    {
      var gate := PreRecordGate(selected, backendHealth);
      if gate == NoLetter {
        debugInfo := NO_LETTER;
        return;
      }
      var signName := selected.value;
      if gate == NoReference {
        debugInfo := NoReferenceText(signName);
        return;
      }
      isChecking := true;
      result := None;
      debugInfo := STARTING_CHECK;
      RecordFrames(signName);
    }

    /** `recordFrames()`: the buffer is emptied, recording starts and the timeout is armed;
        the promise stays pending until 30 frames arrive or the timeout fires. */
    method RecordFrames(sign: string)
      requires Consistent(View().(phase := Idle, isChecking := false))
      requires isChecking && phase.Idle?
      modifies this`frames, this`isRecording, this`recordingFlag, this`debugInfo, this`phase
      ensures Valid()
      ensures View() == old(View()).(frames := [], isRecording := true, recordingFlag := true,
        debugInfo := RECORDING_STARTED, phase := Recording(sign, true))
    {
      frames := [];
      isRecording := true;
      recordingFlag := true;
      debugInfo := RECORDING_STARTED;
      phase := Recording(sign, true);
    }

    /** The continuation of `checkSign` after `await recordFrames()`. */
    method Resume(sign: string, sequence: seq<seq<real>>)
      requires Consistent(View().(phase := Idle, isChecking := false))
      requires isChecking && !recordingFlag && !isRecording && frames == []
      requires forall i :: 0 <= i < |sequence| ==> |sequence[i]| == WIDTH
      modifies this
      ensures Valid()
      ensures View() == Resumed(old(View()), sign, sequence)
    {
      ResumedSendsRecording(View(), sign, sequence);
      var check := FrameGate(sequence);
      if check == NoFrames {
        debugInfo := NO_FRAMES;
        isChecking := false;
        phase := Idle;
        return;
      }
      if check == NoLandmarks {
        debugInfo := NO_LANDMARKS;
        isChecking := false;
        phase := Idle;
        return;
      }
      var normalized := NormalizeSequence(sequence);
      debugInfo := SendingText(|normalized|);
      phase := AwaitingServer(sign, normalized);
    }

    /** `onMediaPipeResults`: the tracker's result is formatted and, while recording, pushed;
        the 30th frame completes the recording, which delivers the frames in arrival order. */
    method OnResults(t: Tracking) returns (delivered: Option<seq<seq<real>>>)
      requires Valid()
      modifies this
      ensures Valid()
      ensures delivered ==
        if old(recordingFlag) && |old(frames)| + 1 == TARGET_FRAMES then Some(old(frames) + [Formatted(t)]) else None
      ensures !old(recordingFlag) ==> View() == old(View())
      ensures old(recordingFlag) && delivered.None? ==>
        var n := |old(frames)| + 1;
        View() == old(View()).(frames := old(frames) + [Formatted(t)],
          debugInfo := if n % 5 == 0 then ProgressText(n) else old(debugInfo))
      ensures delivered.Some? ==>
        View() == Resumed(old(View()).(recordingFlag := false, isRecording := false, frames := [],
          debugInfo := ProgressText(TARGET_FRAMES)), old(phase).sign, delivered.value)
      ensures old(Stalled(View())) ==> Stalled(View())
    {
      var landmarks := FormatLandmarks(t);
      delivered := None;
      if recordingFlag {
        if |frames| + 1 < TARGET_FRAMES {
          Push(landmarks);
        } else {
          var sequence := Complete(landmarks);
          delivered := Some(sequence);
        }
      }
    }

    /** A frame is pushed while recording, short of the 30th; every fifth frame is reported. */
    method Push(landmarks: seq<real>)
      requires Valid() && recordingFlag && |frames| + 1 < TARGET_FRAMES && |landmarks| == WIDTH
      modifies this`frames, this`debugInfo
      ensures Valid()
      ensures var n := |old(frames)| + 1;
        View() == old(View()).(frames := old(frames) + [landmarks],
          debugInfo := if n % 5 == 0 then ProgressText(n) else old(debugInfo))
    {
      frames := frames + [landmarks];
      if |frames| % 5 == 0 {
        debugInfo := ProgressText(|frames|);
      }
    }

    /** The 30th frame is pushed: the recording stops, `recordingResolveRef.current` clears the
        timeout and settles the promise with the 30 frames, and `checkSign` resumes. */
    method Complete(landmarks: seq<real>) returns (sequence: seq<seq<real>>)
      requires Valid() && recordingFlag && |frames| + 1 == TARGET_FRAMES && |landmarks| == WIDTH
      modifies this
      ensures Valid()
      ensures sequence == old(frames) + [landmarks]
      ensures View() == Resumed(old(View()).(recordingFlag := false, isRecording := false, frames := [],
        debugInfo := ProgressText(TARGET_FRAMES)), old(phase).sign, sequence)
    {
      frames := frames + [landmarks];
      debugInfo := ProgressText(|frames|);
      recordingFlag := false;
      sequence := frames;
      frames := [];
      var sign := phase.sign;
      phase := Recording(sign, false);
      recordingFlag := false;
      isRecording := false;
      frames := [];
      ghost var before := View();
      assert before == old(View()).(recordingFlag := false, isRecording := false, frames := [],
        debugInfo := ProgressText(TARGET_FRAMES), phase := Recording(sign, false));
      Resume(sign, sequence);
    }

    /** The 4-second timeout of `recordFrames()` fires. It acts only while still recording, and
        then delivers the frames collected so far, possibly none. */
    method TimeoutFires() returns (delivered: Option<seq<seq<real>>>)
      requires Valid() && phase.Recording? && phase.timerArmed
      modifies this
      ensures Valid()
      ensures delivered == if old(recordingFlag) then Some(old(frames)) else None
      ensures !old(recordingFlag) ==> View() == old(View()).(phase := Recording(old(phase).sign, false))
      ensures old(recordingFlag) ==>
        View() == Resumed(old(View()).(recordingFlag := false, isRecording := false, frames := [],
          debugInfo := TimeoutText(|old(frames)|)), old(phase).sign, old(frames))
      ensures old(Stalled(View())) ==> Stalled(View())
    {
      var sign := phase.sign;
      phase := Recording(sign, false);
      delivered := None;
      if recordingFlag {
        recordingFlag := false;
        isRecording := false;
        var sequence := frames;
        frames := [];
        debugInfo := TimeoutText(|sequence|);
        delivered := Some(sequence);
        Resume(sign, sequence);
      }
    }

    /** The backend's answer to the request in flight, or the failure to get one, ends the
        check. `percent` is the confidence as `toFixed(1)` renders it in percent. */
    method ServerAnswers(x: Exchange, percent: string)
      requires Valid() && phase.AwaitingServer?
      modifies this
      ensures Valid()
      ensures var v := Conclude(x, percent);
        View() == old(View()).(result := Some(Shown(v.result, v.confidence)), debugInfo := v.status,
          isChecking := false, phase := Idle)
    {
      var verdict := Conclude(x, percent);
      result := Some(Shown(verdict.result, verdict.confidence));
      debugInfo := verdict.status;
      isChecking := false;
      phase := Idle;
    }
  }

  function TimeoutText(n: nat): string {
    if n > 0 then ALARM + "Timeout: " + Decimal(n) + " frames collected"
    else CROSS + "Timeout: No frames captured"
  }
}
