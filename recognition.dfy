/** The sign-to-speech page: a timer sends camera frames to the recogniser backend, and each
    answer updates the recognised sentence and the tracking figures shown beside the video. */
module Recognition {
  import opened Optional
  import opened Text

  /** The backend's placeholder while it is still filling its frame buffer. */
  const COLLECTING: string := "Collecting frames..."

  /** The backend's address, as the error message names it. */
  const API_URL: string := "http://localhost:8000"

  /** How a `/predict` request ends: it throws (the network fails, the body is not JSON, ...)
      with a message; the server answers with a non-2xx status; or the parsed body's fields. */
  datatype PredictReply =
    | Rejected(message: string)
    | HttpError(status: nat)
    | Prediction(bufferSize: int, handsDetected: int, confidence: real, prediction: Option<string>)

  /** A prediction that extends the sentence: truthy and not the placeholder. */
  predicate Extends(prediction: Option<string>) {
    prediction.Some? && prediction.value != [] && prediction.value != COLLECTING
  }

  /** The message of the error a failed request throws. */
  function ThrownMessage(reply: PredictReply): (m: string)
    requires !reply.Prediction?
    ensures reply.Rejected? ==> m == reply.message
    ensures reply.HttpError? ==> m == "HTTP error! status: " + Decimal(reply.status)
  {
    if reply.Rejected? then reply.message else "HTTP error! status: " + Decimal(reply.status)
  }

  /** The error shown after a failed request: it names the thrown message and the address. */
  function FailureText(message: string): (e: string)
    ensures Contains(e, message) && Contains(e, API_URL)
  {
    var head := "Failed to connect to backend: ";
    var tail := ". Make sure the server is running on ";
    var e := head + message + tail + API_URL;
    assert e == head + message + (tail + API_URL);
    ContainsInfix(head, message, tail + API_URL);
    assert e == (head + message + tail) + API_URL + [];
    ContainsInfix(head + message + tail, API_URL, []);
    e
  }

  /** `part` is found inside `before + part + after`. */
  lemma {:induction false} ContainsInfix(before: string, part: string, after: string)
    ensures Contains(before + part + after, part)
    decreases |before|
  {
    var s := before + part + after;
    if before == [] {
      assert s == part + after;
      assert part <= s;
    } else {
      assert s[1..] == before[1..] + part + after;
      ContainsInfix(before[1..], part, after);
    }
  }

  /** The sentence the page shows for the predictions appended so far: joined by single spaces. */
  function Joined(words: seq<string>): (s: string)
    ensures words == [] ==> s == []
  {
    if words == [] then []
    else if |words| == 1 then words[0]
    else Joined(words[..|words| - 1]) + " " + words[|words| - 1]
  }

  /** `s` ends with `last`. */
  predicate EndsWith(s: string, last: string) {
    |last| <= |s| && s[|s| - |last|..] == last
  }

  /** The sentence ends with the last word appended. */
  lemma JoinedEndsWithLast(words: seq<string>)
    requires words != []
    ensures EndsWith(Joined(words), words[|words| - 1])
  {
    var s, last := Joined(words), words[|words| - 1];
    if |words| > 1 {
      assert s[|s| - |last|..] == last;
    }
  }

  /** Every appended prediction is non-empty. */
  predicate NonEmptyWords(words: seq<string>) {
    forall i :: 0 <= i < |words| ==> words[i] != []
  }

  /** With non-empty words, the sentence is empty exactly when nothing was appended. */
  lemma {:induction false} JoinedEmpty(words: seq<string>)
    requires NonEmptyWords(words)
    ensures Joined(words) == [] <==> words == []
  {
    if |words| > 1 {
      assert |Joined(words)| >= 1;
    }
  }

  /** Appending a word: the word alone after nothing, otherwise after a single space. */
  lemma JoinedSnoc(words: seq<string>, w: string)
    requires NonEmptyWords(words)
    ensures Joined(words + [w]) == if Joined(words) == [] then w else Joined(words) + " " + w
  {
    JoinedEmpty(words);
    var ws := words + [w];
    if words != [] {
      assert ws[..|ws| - 1] == words;
    }
  }

  /** One more word keeps the sentence so far as a prefix. */
  lemma JoinedSnocPrefix(words: seq<string>, w: string)
    ensures Joined(words) <= Joined(words + [w])
  {
    var ws := words + [w];
    if words != [] {
      assert ws[..|ws| - 1] == words;
    }
  }

  /** The sentence so far is a prefix of the sentence after any further words. */
  lemma {:induction false} JoinedPrefix(words: seq<string>, more: seq<string>)
    ensures Joined(words) <= Joined(words + more)
    decreases |more|
  {
    if more == [] {
      assert words + more == words;
    } else {
      var init := more[..|more| - 1];
      assert words + more == (words + init) + [more[|more| - 1]];
      JoinedPrefix(words, init);
      JoinedSnocPrefix(words + init, more[|more| - 1]);
      var a, b, c := Joined(words), Joined(words + init), Joined(words + more);
      assert a == b[..|a|] && b == c[..|b|];
      assert c[..|b|][..|a|] == c[..|a|];
    }
  }

  /** All the page's recognition state at one moment. */
  datatype RecognizerView = RecognizerView(
    isRecognizing: bool,
    recognizedText: string,
    error: Option<string>,
    isProcessing: bool,
    bufferSize: int,
    handsDetected: int,
    confidence: real,
    interval: Option<nat>,
    pendingResets: nat)

  /** The sign-to-speech page's state. */
  class Recognizer {
    var isRecognizing: bool
    var recognizedText: string
    var error: Option<string>
    var isProcessing: bool
    var bufferSize: int
    var handsDetected: int
    var confidence: real
    /** `recognitionIntervalRef.current`: the handle of the 100 ms timer, or null. */
    var interval: Option<nat>
    /** `/reset` requests sent and not yet settled. */
    var pendingResets: nat
    /** The predictions appended since the last reset, in order. */
    ghost var words: seq<string>

    function View(): RecognizerView
      reads this
    {
      RecognizerView(isRecognizing, recognizedText, error, isProcessing, bufferSize, handsDetected,
        confidence, interval, pendingResets)
    }

    /** The timer runs exactly while recognising, and the sentence is the appended predictions
        joined by spaces. */
    ghost predicate Valid()
      reads this
    {
      (isRecognizing <==> interval.Some?) &&
      (interval.Some? ==> interval.value > 0) &&
      NonEmptyWords(words) && recognizedText == Joined(words)
    }

    /** The page as first rendered. */
    constructor()
      ensures Valid() && words == []
      ensures View() == RecognizerView(false, "", None, false, 0, 0, 0.0, None, 0)
    {
      isRecognizing := false;
      recognizedText := "";
      error := None;
      isProcessing := false;
      bufferSize := 0;
      handsDetected := 0;
      confidence := 0.0;
      interval := None;
      pendingResets := 0;
      words := [];
    }

    /** The start of `sendFrameToBackend`: skipped while a request is marked in progress;
        otherwise a frame is captured (`captured` says whether one could be) and a request is
        sent, or, with no frame, the attempt ends at once. */
    method SendFrame(captured: bool) returns (requested: bool)
      requires Valid()
      modifies this`isProcessing
      ensures Valid()
      ensures requested <==> !old(isProcessing) && captured
      ensures requested ==> View() == old(View()).(isProcessing := true)
      ensures !requested ==> View() == old(View())
    {
      if isProcessing {
        return false;
      }
      isProcessing := true;
      if !captured {
        isProcessing := false;
        return false;
      }
      requested := true;
    }

    /** The end of `sendFrameToBackend`: the reply's effects, then `isProcessing` cleared. */
    method ReceiveReply(reply: PredictReply)
      requires Valid()
      modifies this
      ensures Valid()
      ensures !isProcessing && old(recognizedText) <= recognizedText
      ensures !reply.Prediction? ==>
        View() == old(View()).(error := Some(FailureText(ThrownMessage(reply))), isProcessing := false) &&
        words == old(words)
      ensures reply.Prediction? && Extends(reply.prediction) ==>
        var p := reply.prediction.value;
        words == old(words) + [p] &&
        recognizedText == (if old(recognizedText) == [] then p else old(recognizedText) + " " + p) &&
        View() == old(View()).(bufferSize := reply.bufferSize, handsDetected := reply.handsDetected,
          confidence := reply.confidence, recognizedText := recognizedText, error := None, isProcessing := false)
      ensures reply.Prediction? && !Extends(reply.prediction) ==>
        View() == old(View()).(bufferSize := reply.bufferSize, handsDetected := reply.handsDetected,
          confidence := reply.confidence, isProcessing := false) &&
        words == old(words)
    {
      if reply.Prediction? {
        Apply(reply.bufferSize, reply.handsDetected, reply.confidence, reply.prediction);
      } else {
        error := Some(FailureText(ThrownMessage(reply)));
      }
      isProcessing := false;
    }

    /** The fields of a parsed `/predict` body: the figures are overwritten, and an extending
        prediction is appended and clears the error. */
    method Apply(size: int, hands: int, level: real, prediction: Option<string>)
      requires Valid()
      modifies this`bufferSize, this`handsDetected, this`confidence, this`recognizedText, this`words, this`error
      ensures Valid() && old(recognizedText) <= recognizedText
      ensures Extends(prediction) ==>
        words == old(words) + [prediction.value] &&
        recognizedText == (if old(recognizedText) == [] then prediction.value else old(recognizedText) + " " + prediction.value) &&
        View() == old(View()).(bufferSize := size, handsDetected := hands, confidence := level,
          recognizedText := recognizedText, error := None)
      ensures !Extends(prediction) ==>
        View() == old(View()).(bufferSize := size, handsDetected := hands, confidence := level) &&
        words == old(words)
    {
      bufferSize := size;
      handsDetected := hands;
      confidence := level;
      if prediction.Some? && prediction.value != [] && prediction.value != COLLECTING {
        Append(prediction.value);
        error := None;
      }
    }

    /** `setRecognizedText`'s update: the prediction alone after an empty sentence, otherwise
        after a single space. */
    method Append(p: string)
      requires Valid() && p != []
      modifies this`recognizedText, this`words
      ensures Valid() && words == old(words) + [p]
      ensures recognizedText == if old(recognizedText) == [] then p else old(recognizedText) + " " + p
      ensures old(recognizedText) <= recognizedText
    {
      JoinedSnoc(words, p);
      JoinedSnocPrefix(words, p);
      ghost var ws := words + [p];
      assert NonEmptyWords(ws) by {
        assert forall i :: 0 <= i < |words| ==> ws[i] == words[i];
      }
      recognizedText := if recognizedText != [] then recognizedText + " " + p else p;
      words := ws;
    }

    /** A `/reset` request settles: once the server answers, whatever its status, the sentence,
        the buffer size and the confidence are cleared; a rejected request changes nothing. */
    method ResetSettled(answered: bool)
      requires Valid() && pendingResets > 0
      modifies this
      ensures Valid()
      ensures answered ==>
        View() == old(View()).(recognizedText := "", bufferSize := 0, confidence := 0.0,
          pendingResets := old(pendingResets) - 1) && words == []
      ensures !answered ==>
        View() == old(View()).(pendingResets := old(pendingResets) - 1) && words == old(words)
    {
      pendingResets := pendingResets - 1;
      if answered {
        recognizedText := "";
        bufferSize := 0;
        confidence := 0.0;
        words := [];
      }
    }

    /** The Clear button, shown only while the sentence is non-empty: it sends a `/reset`
        request and changes nothing else until that request settles. */
    method Clear()
      requires Valid() && recognizedText != []
      modifies this`pendingResets
      ensures Valid() && words == old(words)
      ensures View() == old(View()).(pendingResets := old(pendingResets) + 1)
    {
      pendingResets := pendingResets + 1;
    }

    /** `handleRecognitionToggle`: turning off clears the timer and asks the server to reset;
        turning on installs a new timer, whose handle `handle` is (timer handles are positive). */
    method Toggle(handle: nat)
      requires Valid() && handle > 0
      modifies this
      ensures Valid() && words == old(words)
      ensures isRecognizing == !old(isRecognizing)
      ensures old(isRecognizing) ==>
        View() == old(View()).(isRecognizing := false, interval := None, pendingResets := old(pendingResets) + 1)
      ensures !old(isRecognizing) ==>
        View() == old(View()).(isRecognizing := true, interval := Some(handle))
    {
      if isRecognizing {
        if interval.Some? && interval.value != 0 {
          interval := None;
        }
        pendingResets := pendingResets + 1;
      } else {
        interval := Some(handle);
      }
      isRecognizing := !isRecognizing;
    }
  }
}
