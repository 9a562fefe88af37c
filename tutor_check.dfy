/** The pure steps of `checkSign` on the alphabet practice page: the checks made before and
    after recording, the normalisation of the recorded frames, and how the backend's answer or
    failure becomes the result and the status text. */
module TutorCheck {
  import opened Optional
  import opened Text
  import opened Frames

  /** The part of the `/health` reply the page reads: the optional `available_letters`. */
  datatype Health = Health(availableLetters: Option<seq<string>>)

  /** A JavaScript string value, possibly `null`, used as a condition: truthy when non-empty. */
  predicate Truthy(s: Option<string>) {
    s.Some? && s.value != []
  }

  // ---------------------------------------------------------------------------------------
  // Before recording.

  /** How `checkSign` proceeds before it records anything. */
  datatype Gate = NoLetter | NoReference | Record

  /** The two early returns of `checkSign`: no letter selected; or a health reply is known and
      its `available_letters` is missing or does not hold the upper-cased letter. */
  function PreRecordGate(signName: Option<string>, health: Option<Health>): (g: Gate)
    ensures g == NoLetter <==> !Truthy(signName)
  {
    if !Truthy(signName) then NoLetter
    else if health.Some? &&
      !(health.value.availableLetters.Some? && Upper(signName.value) in health.value.availableLetters.value)
    then NoReference
    else Record
  }

  /** Recording starts exactly when a letter is selected and, if health is known, the backend
      lists that letter (in upper case). */
  lemma RecordGateExactly(signName: Option<string>, health: Option<Health>)
    ensures PreRecordGate(signName, health) == Record <==>
      Truthy(signName) &&
      forall h :: health == Some(h) ==>
        exists letters :: h.availableLetters == Some(letters) && Upper(signName.value) in letters
  {
    if Truthy(signName) && health.Some? && health.value.availableLetters.Some? {
      var letters := health.value.availableLetters.value;
      if Upper(signName.value) in letters {
        assert health.value.availableLetters == Some(letters);
      }
    }
  }

  /** Without a health reply the availability check is skipped. */
  lemma UnknownHealthSkipsCheck(signName: Option<string>)
    ensures PreRecordGate(signName, None) == Record <==> Truthy(signName)
  {
  }

  /** A health reply without `available_letters` blocks every letter. */
  lemma MissingLetterListBlocks(sign: string)
    requires sign != []
    ensures PreRecordGate(Some(sign), Some(Health(None))) == NoReference
  {
  }

  /** The check is blind to the case of the selected letter. */
  lemma GateIgnoresCase(sign: string, health: Option<Health>)
    ensures PreRecordGate(Some(sign), health) == PreRecordGate(Some(Upper(sign)), health)
  {
    UpperIdempotent(sign);
  }

  lemma UpperIdempotent(s: string)
    ensures Upper(Upper(s)) == Upper(s)
  {
    var u := Upper(s);
    forall i | 0 <= i < |s| ensures Upper(u)[i] == u[i] {
    }
  }

  // ---------------------------------------------------------------------------------------
  // After recording.

  /** How `checkSign` proceeds once the recording has delivered its frames. */
  datatype FrameCheck = NoFrames | NoLandmarks | Send

  /** The empty sequence is refused, and so is one whose first frame has only zeros (an empty
      first frame included). */
  function FrameGate(frames: seq<seq<real>>): (c: FrameCheck)
    ensures c == Send ==> |frames| > 0 && exists k :: 0 <= k < |frames[0]| && frames[0][k] != 0.0
    ensures c == NoFrames <==> frames == []
    ensures c == Send <==> frames != [] && !AllZero(frames[0])
  {
    if |frames| == 0 then NoFrames
    else if AllZero(frames[0]) then NoLandmarks
    else Send
  }

  /** `seq.map(...)` with the per-frame normalisation. */
  function Normalized(frames: seq<seq<real>>): (r: seq<seq<real>>)
    ensures |r| == |frames| && forall i :: 0 <= i < |r| ==> |r[i]| == WIDTH
  {
    seq(|frames|, i requires 0 <= i < |frames| => Fit(frames[i]))
  }

  /** The normalisation of the whole sequence, frame by frame. */
  method NormalizeSequence(frames: seq<seq<real>>) returns (normalized: seq<seq<real>>)
    ensures normalized == Normalized(frames)
  {
    normalized := [];
    for i := 0 to |frames|
      invariant normalized == Normalized(frames[..i])
    {
      var arr := NormalizeFrame(frames[i]);
      normalized := normalized + [arr];
    }
    assert frames[..|frames|] == frames;
  }

  /** Normalising keeps the frames, in order, each cut or padded to 126 values, and is idempotent. */
  lemma NormalizedKeepsFrames(frames: seq<seq<real>>)
    ensures forall i, k :: 0 <= i < |frames| && 0 <= k < WIDTH ==>
      Normalized(frames)[i][k] == if k < |frames[i]| then frames[i][k] else 0.0
    ensures Normalized(Normalized(frames)) == Normalized(frames)
  {
    var n := Normalized(frames);
    forall i | 0 <= i < |frames| ensures Normalized(n)[i] == n[i] {
      FitIdempotent(frames[i]);
    }
  }

  // ---------------------------------------------------------------------------------------
  // The backend's answer.

  /** The two fields of a parsed error body that are read, as strings. */
  datatype ErrorJson = ErrorJson(detail: Option<string>, message: Option<string>)

  /** The body of a non-2xx reply: `res.text()` failed (with the error's string form), or it
      gave a text that `JSON.parse` turned into an object, or could not parse. */
  datatype ErrorBody = Unreadable(reason: string) | Text(text: string, json: Option<ErrorJson>)

  /** The fields of a successful `/tutor-check` reply that the page keeps. */
  datatype Reply = Reply(result: string, confidence: Option<real>)

  /** What came back from `fetch`: it failed (an abort included), the status was not 2xx, or
      the body of a 2xx reply parsed (or not) as JSON. */
  datatype Exchange =
    | FetchFailed(name: string, message: string)
    | NotOk(status: nat, body: ErrorBody)
    | Answered(reply: Reply)
    | Unparsable(message: string)

  /** The message of the error `checkSign` throws for a non-2xx reply: `detail`, else `message`,
      else the raw text. The initial `Server error: <status>` is always overwritten. */
  function ServerErrorMessage(body: ErrorBody): (m: string)
    ensures body.Unreadable? ==> m == "Failed to read error: " + body.reason
    ensures body.Text? && body.json.Some? && Truthy(body.json.value.detail) ==>
      m == body.json.value.detail.value
    ensures body.Text? && body.json.Some? && !Truthy(body.json.value.detail) && Truthy(body.json.value.message) ==>
      m == body.json.value.message.value
    ensures body.Text? && (body.json.None? || (!Truthy(body.json.value.detail) && !Truthy(body.json.value.message))) ==>
      m == body.text
  {
    match body
    case Unreadable(reason) => "Failed to read error: " + reason
    case Text(text, None) => text
    case Text(text, Some(j)) =>
      if Truthy(j.detail) then j.detail.value
      else if Truthy(j.message) then j.message.value
      else text
  }

  const UNKNOWN_ERROR: string := "Unknown error occurred"
  const TIMEOUT_ERROR: string := "Request timeout: Server took too long"
  const CONNECT_ERROR: string := "Cannot connect to backend. Is it running on localhost:8000?"

  /** The text shown for an error caught by `checkSign`, from its `name` and `message`. */
  function FailureMessage(name: string, message: string): (m: string)
    ensures m != []
    ensures name == "AbortError" ==> m == TIMEOUT_ERROR
    ensures name != "AbortError" && (Contains(message, "fetch") || Contains(message, "network")) ==>
      m == CONNECT_ERROR
    ensures name != "AbortError" && !Contains(message, "fetch") && !Contains(message, "network") ==>
      m == (if message != [] then message else UNKNOWN_ERROR)
  {
    var m := if message != [] then message else UNKNOWN_ERROR;
    if name == "AbortError" then TIMEOUT_ERROR
    else if Contains(message, "fetch") || Contains(message, "network") then CONNECT_ERROR
    else m
  }

  /** The error thrown on the way, as its `name` and `message`; `None` when there is none. */
  function Thrown(x: Exchange): (e: Option<(string, string)>)
    ensures e.None? <==> x.Answered?
    ensures x.FetchFailed? ==> e == Some((x.name, x.message))
    ensures x.NotOk? ==> e == Some(("Error", ServerErrorMessage(x.body)))
    ensures x.Unparsable? ==> e == Some(("SyntaxError", x.message))
  {
    match x
    case FetchFailed(name, message) => Some((name, message))
    case NotOk(_, body) => Some(("Error", ServerErrorMessage(body)))
    case Answered(_) => None
    case Unparsable(message) => Some(("SyntaxError", message))
  }

  /** What the page shows when the check ends: the result, its confidence and the status text.
      `percent` is the text `toFixed(1)` gives for the confidence in percent. */
  datatype Verdict = Verdict(result: string, confidence: real, status: string)

  const CROSS: string := "\U{274C} "
  const CHECK: string := "\U{2705} "

  /** The end of `checkSign` for an exchange. */
  function Conclude(x: Exchange, percent: string): (v: Verdict)
    ensures Thrown(x).None? ==>
      v.result == x.reply.result &&
      v.confidence == (if x.reply.confidence.Some? then x.reply.confidence.value else 0.0) &&
      v.status == CHECK + "Check completed: " + x.reply.result + " (" + percent + "% confidence)"
    ensures Thrown(x).Some? ==>
      v.result == "ERROR" && v.confidence == 0.0 &&
      v.status == CROSS + FailureMessage(Thrown(x).value.0, Thrown(x).value.1)
  {
    match Thrown(x)
    case None =>
      var r := x.reply;
      Verdict(r.result, if r.confidence.Some? then r.confidence.value else 0.0,
        CHECK + "Check completed: " + r.result + " (" + percent + "% confidence)")
    case Some((name, message)) => Verdict("ERROR", 0.0, CROSS + FailureMessage(name, message))
  }

  /** Every failure ends with the result ERROR, confidence 0 and a non-empty message. */
  lemma FailureShowsError(x: Exchange, percent: string)
    requires !x.Answered?
    ensures Conclude(x, percent).result == "ERROR" && Conclude(x, percent).confidence == 0.0
    ensures |Conclude(x, percent).status| > |CROSS|
  {
  }

  /** The HTTP status of a failed reply never reaches the page. */
  lemma StatusIgnored(s1: nat, s2: nat, body: ErrorBody, percent: string)
    ensures Conclude(NotOk(s1, body), percent) == Conclude(NotOk(s2, body), percent)
  {
  }

  /** A server `detail` that mentions `fetch` or `network` is reported as a connection failure. */
  lemma DetailMentioningFetch(status: nat, text: string, detail: string, percent: string)
    requires Contains(detail, "fetch")
    ensures Conclude(NotOk(status, Text(text, Some(ErrorJson(Some(detail), None)))), percent).status ==
      CROSS + CONNECT_ERROR
  {
  }

  /** A server `detail` is shown as it is when it is not empty and mentions neither `fetch` nor
      `network`, whatever `message` and the raw text say. */
  lemma DetailShown(status: nat, text: string, detail: string, message: Option<string>, percent: string)
    requires detail != [] && !Contains(detail, "fetch") && !Contains(detail, "network")
    ensures Conclude(NotOk(status, Text(text, Some(ErrorJson(Some(detail), message)))), percent).status ==
      CROSS + detail
  {
  }

  /** An empty error body with nothing parsable shows the fallback message. */
  lemma EmptyErrorBody(status: nat, percent: string)
    ensures Conclude(NotOk(status, Text([], None)), percent).status == CROSS + UNKNOWN_ERROR
  {
    assert !Contains([], "fetch") && !Contains([], "network");
  }

  /** A missing confidence is shown as 0. */
  lemma MissingConfidenceIsZero(result: string, percent: string)
    ensures Conclude(Answered(Reply(result, None)), percent) ==
      Verdict(result, 0.0, CHECK + "Check completed: " + result + " (" + percent + "% confidence)")
  {
  }
}
