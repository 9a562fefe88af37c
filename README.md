# gesturify front end: the sign-practice and recognition logic

Gesturify is a web front end for learning and recognising Indian Sign Language. This project
models in Dafny the parts of its three main pages that hold logic rather than layout, and proves
properties of them.

- **The alphabet practice page** (`AlphabetPage.tsx`). The learner picks a letter and sees its
  reference picture. Pressing "Check My Sign" records up to 30 frames of hand landmarks from the
  hand tracker, with a 4-second safety timeout. Each frame is 2 hands x 21 points x (x, y, z) =
  126 numbers. The page checks the recording, normalises it and sends it to the tutor backend,
  then shows the verdict or an error.
  - `Landmarks` models `formatLandmarks` as a loop method. It is proved equal to a value-by-value
    reference description.
  - `Frames` models the padding and cutting to 126 values.
  - `TutorCheck` models the pure steps of `checkSign`: the availability check, the frame checks,
    and how the backend's answer or error becomes the result and the status line.
  - `AlphabetPage` models the page itself as a class, `TutorPage`. Its fields are the React state
    and refs, plus the pending check. Its methods are the user's clicks, the tracker's results,
    the recording timeout and the backend's answer. Every method keeps the invariant `Consistent`,
    and each one states the page's whole new state.
  - One consequence of the code as written is proved: pressing Reset or changing letter during a
    recording leaves that recording unsettled. The `checkSign` call then never returns, and the
    check button stays disabled (`Stalled`).
- **The AI coach page** (`AICoach.tsx`). A fixed text is tokenised and each token is filed as a
  Number, an Alphabet or a Word. The tokeniser chain (replace, split, trim, filter) is modelled as
  written. It is proved equal to an independent reference: the maximal runs of token characters.
  The filing loop is a method proved against three selection functions. The three lists
  `classifyTokens` returns for the fixed input are computed and proved; the page renders only
  the Alphabet list.
- **The sign-to-speech page** (`ISLToSpeech.tsx`). A 100 ms timer sends camera frames to the
  recogniser, and each answer updates the recognised sentence and the tracking figures.
  - The class `Recognition.Recognizer` has the page's state fields and the timer handle.
  - Its invariant says the sentence is the appended predictions joined by single spaces.
  - The sentence only grows until a reset clears it.

Network replies, timer firings and the tracker's output are inputs to the methods. Each reply
the code tells apart is a separate case of those inputs. The events the model leaves out are
listed under "Left out".

## Model

| member | source | states |
|---|---|---|
| Text.Upper | src/components/AICoach.tsx:44 | upper-casing keeps the length and maps each character, `a`-`z` to `A`-`Z` and the rest unchanged |
| Text.Decimal | src/components/AlphabetPage.tsx:213 | a count is rendered as a non-empty string of decimal digits whose value is the count, with no leading zero except for 0 itself |
| Text.Contains | src/components/AlphabetPage.tsx:395 | `s.includes(part)` holds exactly when `part` occurs in `s` at some position |
| Frames.Zeros | src/components/AlphabetPage.tsx:172 | `new Array(n).fill(0)` has `n` values, all zero |
| Frames.Fit | src/components/AlphabetPage.tsx:314-318 | the normalised frame has exactly 126 values: the frame's own values where it has them, zeros after |
| Frames.NormalizeFrame | src/components/AlphabetPage.tsx:315-317 | slicing to 126, pushing zeros while shorter and slicing again gives `Fit` of the frame |
| Frames.PadAndCut | src/components/AlphabetPage.tsx:199-200 | the padding loop followed by `slice(0, 126)` gives `Fit` of its input |
| Frames.FitIdentity | src/components/AlphabetPage.tsx:198-200 | a frame that already has 126 values is left unchanged |
| Frames.FitIdempotent | src/components/AlphabetPage.tsx:314-318 | normalising twice is the same as normalising once |
| Frames.FitKeepsZeroTest | src/components/AlphabetPage.tsx:307 | normalising keeps an all-zero frame all zero; for a frame of at most 126 values it also keeps a frame with a non-zero value non-zero |
| Landmarks.PointValues | src/components/AlphabetPage.tsx:183-188 | a point contributes three values: its x, y and z if all three are numbers, otherwise three zeros |
| Landmarks.Formatted | src/components/AlphabetPage.tsx:167-201 | the formatted frame always has exactly 126 values |
| Landmarks.FormatLandmarks | src/components/AlphabetPage.tsx:167-201 | the two nested loops, then the padding and slice, compute `Formatted`: two slots of 21 points |
| Landmarks.PointsValuesAt | src/components/AlphabetPage.tsx:182-189 | inside a slot, value `j` is coordinate `j % 3` of point `j / 3` |
| Landmarks.FormattedAt | src/components/AlphabetPage.tsx:179-196 | value `k` of the frame is coordinate `k % 3` of point `(k % 63) / 3` of hand `k / 63`, or 0 when that hand is missing, not an array, shorter than 21 points, or the point is incomplete |
| Landmarks.NoHandsGiveZeros | src/components/AlphabetPage.tsx:170-173 | no result, no hand list, or an empty one gives 126 zeros |
| Landmarks.UnusableSlotIsZero | src/components/AlphabetPage.tsx:190-195 | a slot without a usable hand is all zeros |
| Landmarks.ExtraHandsIgnored | src/components/AlphabetPage.tsx:179 | hands after the second do not change the frame |
| Landmarks.ExtraPointsIgnored | src/components/AlphabetPage.tsx:180-182 | points after the 21st of a hand do not change the frame |
| TutorCheck.PreRecordGate | src/components/AlphabetPage.tsx:276-285 | `checkSign` stops with "select a letter" exactly when the letter is null or empty |
| TutorCheck.RecordGateExactly | src/components/AlphabetPage.tsx:276-285 | recording starts if and only if a letter is selected and, when a health reply is known, its `available_letters` exists and holds the upper-cased letter |
| TutorCheck.UnknownHealthSkipsCheck | src/components/AlphabetPage.tsx:282 | with no health reply, any selected letter is recorded |
| TutorCheck.MissingLetterListBlocks | src/components/AlphabetPage.tsx:282 | a health reply without `available_letters` refuses every letter |
| TutorCheck.GateIgnoresCase | src/components/AlphabetPage.tsx:282 | a letter and its upper-case form get the same decision |
| TutorCheck.UpperIdempotent | src/components/AlphabetPage.tsx:282 | upper-casing twice is upper-casing once |
| TutorCheck.FrameGate | src/components/AlphabetPage.tsx:301-311 | the "no frames" stop happens exactly for the empty recording; the request goes out exactly when the recording is non-empty and its first frame has a non-zero value |
| TutorCheck.Normalized | src/components/AlphabetPage.tsx:314-318 | normalising keeps the number of frames, and every frame has 126 values |
| TutorCheck.NormalizeSequence | src/components/AlphabetPage.tsx:314-318 | the `map` over the frames computes `Normalized` |
| TutorCheck.NormalizedKeepsFrames | src/components/AlphabetPage.tsx:314-318 | each frame keeps its values in order and is padded with zeros; normalising is idempotent |
| TutorCheck.ServerErrorMessage | src/components/AlphabetPage.tsx:353-367 | the error text of a non-2xx reply is "Failed to read error: ..." when the body is unreadable; otherwise a truthy `detail` comes first, then a truthy `message`, and the body text when the body is not JSON or neither field is truthy |
| TutorCheck.Thrown | src/components/AlphabetPage.tsx:353-374 | an error is thrown exactly when the exchange is not a parsed reply: the fetch's own error, an `Error` carrying the server's error text, or a `SyntaxError` with the parse error's message |
| TutorCheck.FailureMessage | src/components/AlphabetPage.tsx:391-397 | the caught error's text is never empty; an abort gives the timeout text; otherwise a message mentioning `fetch` or `network` gives the connection text, and any other message is shown itself, or "Unknown error occurred" when empty |
| TutorCheck.Conclude | src/components/AlphabetPage.tsx:374-400 | a parsed success shows its `result`, its confidence or 0 when missing, and "Check completed: <result> (<percent>% confidence)" after a check mark; every thrown error shows ERROR, confidence 0 and a cross followed by the failure text |
| TutorCheck.DetailShown | src/components/AlphabetPage.tsx:359-397 | a non-empty server `detail` that mentions neither `fetch` nor `network` is what the status line shows, after a cross |
| TutorCheck.FailureShowsError | src/components/AlphabetPage.tsx:388-400 | every outcome other than a parsed success ends with ERROR, confidence 0 and a non-empty message |
| TutorCheck.StatusIgnored | src/components/AlphabetPage.tsx:353-371 | the HTTP status of a failed reply never reaches the page, because `Server error: <status>` is always overwritten |
| TutorCheck.DetailMentioningFetch | src/components/AlphabetPage.tsx:361 | a server `detail` containing "fetch" is reported as a connection failure |
| TutorCheck.EmptyErrorBody | src/components/AlphabetPage.tsx:391 | an empty, unparsable error body shows "Unknown error occurred" |
| TutorCheck.MissingConfidenceIsZero | src/components/AlphabetPage.tsx:379 | a reply without a confidence is shown with confidence 0 |
| AlphabetPage.ImageFor | src/components/AlphabetPage.tsx:38-65 | a key has a picture exactly when it is a key of `imageMap` |
| AlphabetPage.ImagesCoverLetters | src/components/AlphabetPage.tsx:35-65 | the letters offered and the keys with a picture are the same set |
| AlphabetPage.LettersHaveImages | src/components/AlphabetPage.tsx:35-65 | every offered letter has a picture |
| AlphabetPage.ImagesAreLetters | src/components/AlphabetPage.tsx:38-65 | every picture belongs to an offered letter |
| AlphabetPage.ImageEffect | src/components/AlphabetPage.tsx:147-164 | a picture and the error flag are never set together; a listed letter gets its picture; no selection clears both |
| AlphabetPage.StalledStaysChecking | src/components/AlphabetPage.tsx:407-414 | once a recording has been cut off by a reset, `isChecking` stays set and the frame buffer is empty |
| AlphabetPage.Resumed | src/components/AlphabetPage.tsx:301-320 | an empty recording ends the check with "No frames captured", one whose first frame is all zeros with "No hand landmarks detected"; otherwise the normalised frames are sent for the letter with the "Sending ..." status; nothing but the status, `isChecking` and the pending check changes |
| AlphabetPage.ResumedSendsRecording | src/components/AlphabetPage.tsx:301-320 | frames of 126 values that pass the checks are sent unchanged; a recording that fails them ends the check |
| AlphabetPage.TutorPage.constructor | src/components/AlphabetPage.tsx:77-99 | the first render: nothing selected, nothing recorded, status "Initializing..." |
| AlphabetPage.TutorPage.HealthPolled | src/components/AlphabetPage.tsx:123-136 | a health reply is stored; an error status or a thrown error clears it and sets the matching status text |
| AlphabetPage.TutorPage.SelectionChanged | src/components/AlphabetPage.tsx:549-562 | on a change of letter the buffer is emptied and recording stops; the picture and error flag follow `ImageEffect`; "Starting camera..." is shown when a letter is selected; a pending recording is left stalled |
| AlphabetPage.TutorPage.Select | src/components/AlphabetPage.tsx:613-616 | clicking a letter selects it and clears the result; the selection effects run only when the letter changes |
| AlphabetPage.TutorPage.Deselect | src/components/AlphabetPage.tsx:712-713 | Stop clears the selection, picture and error flag, and the recording state |
| AlphabetPage.TutorPage.TryAgain | src/components/AlphabetPage.tsx:407-414 | Reset clears the result, the recording flags and the buffer, and leaves a pending check stalled |
| AlphabetPage.TutorPage.CheckSign | src/components/AlphabetPage.tsx:275-293 | the two early stops only set the status text; otherwise the check starts and recording begins for the selected letter |
| AlphabetPage.TutorPage.RecordFrames | src/components/AlphabetPage.tsx:234-272 | recording starts with an empty buffer, the flags set and the timeout armed |
| AlphabetPage.TutorPage.Resume | src/components/AlphabetPage.tsx:301-320 | after the recording, the check ends on either frame check or sends the normalised frames |
| AlphabetPage.TutorPage.OnResults | src/components/AlphabetPage.tsx:204-231 | a tracker result is ignored unless recording; otherwise its formatted frame is appended, progress is shown every fifth frame, and the 30th frame delivers all 30 frames in arrival order |
| AlphabetPage.TutorPage.Push | src/components/AlphabetPage.tsx:209-214 | a frame short of the 30th is appended and every fifth is reported |
| AlphabetPage.TutorPage.Complete | src/components/AlphabetPage.tsx:217-226 | the 30th frame stops the recording, disarms the timeout and resumes the check with the 30 frames |
| AlphabetPage.TutorPage.TimeoutFires | src/components/AlphabetPage.tsx:244-260 | the timeout delivers the frames so far (possibly none) only while still recording; otherwise it does nothing |
| AlphabetPage.TutorPage.ServerAnswers | src/components/AlphabetPage.tsx:374-404 | the backend's answer or error sets the result and status as `Conclude` gives them, and ends the check |
| Coach.SkipRun | src/components/AICoach.tsx:31-32 | what is left after removing a leading run: a suffix of the input, beginning outside the run |
| Coach.TakeRun | src/components/AICoach.tsx:32 | the leading run: a prefix made of run characters, ending where the input does or at a non-run character |
| Coach.ReplaceSeparators | src/components/AICoach.tsx:31 | after `replace(/[.,\/]+/g, ' ')` no separator is left, and the text is empty only if it was |
| Coach.SplitOnSpaces | src/components/AICoach.tsx:32 | `split(/\s+/)` gives at least one field, and no field contains whitespace |
| Coach.Trim | src/components/AICoach.tsx:33 | `trim()` leaves no whitespace at either end, and returns its input unchanged exactly when the input is empty or has no whitespace at either end |
| Coach.TrimEnd | src/components/AICoach.tsx:33 | removing trailing whitespace leaves a prefix that does not end with whitespace, and everything removed is whitespace |
| Coach.NonEmpty | src/components/AICoach.tsx:34 | `filter(Boolean)` keeps every non-empty field and nothing else, and drops nothing when no field is empty |
| Coach.Tokenize | src/components/AICoach.tsx:30-34 | every token of the chain is non-empty and free of whitespace |
| Coach.TokenizeIsTokens | src/components/AICoach.tsx:30-34 | the tokeniser chain gives exactly the maximal runs of token characters, in order |
| Coach.ReplaceKeepsTokens | src/components/AICoach.tsx:31 | collapsing separator runs does not change the tokens |
| Coach.SplitGivesTokens | src/components/AICoach.tsx:32-34 | on separator-free text, splitting, trimming and dropping empty fields gives its tokens |
| Coach.TokenizeShape | src/components/AICoach.tsx:30-34 | every token is non-empty and free of whitespace and separators |
| Coach.TokensAppend | src/components/AICoach.tsx:30-34 | when the join point falls outside a token, the tokens of two joined texts are the two token lists joined |
| Coach.Select | src/components/AICoach.tsx:40-49 | a selection keeps only tokens that satisfy the test and come from the list |
| Coach.ClassifyTokens | src/components/AICoach.tsx:28-52 | `classifyTokens` returns the Number, Alphabet and Word lists of the tokenised input |
| Coach.FileTokens | src/components/AICoach.tsx:40-49 | the filing loop builds the three lists: all-digit tokens unchanged; single letters and the other tokens upper-cased |
| Coach.FileOne | src/components/AICoach.tsx:41-48 | one more token extends exactly one list, by that token |
| Coach.SelectAppend | src/components/AICoach.tsx:40-49 | filing keeps the tokens' relative order |
| Coach.ClassifyAppend | src/components/AICoach.tsx:40-49 | classifying joined token lists joins the classifications |
| Coach.ExactlyOneCategory | src/components/AICoach.tsx:41-48 | every token passes exactly one of the three tests |
| Coach.PartitionCount | src/components/AICoach.tsx:40-49 | the three lists together are as long as the token list |
| Coach.NumbersExactly | src/components/AICoach.tsx:41-42 | Number holds exactly the all-digit tokens |
| Coach.AlphabetsExactly | src/components/AICoach.tsx:43-44 | Alphabet holds exactly the upper-cased single-letter tokens, each one capital letter |
| Coach.WordsExactly | src/components/AICoach.tsx:45-47 | Word holds exactly the upper-cased tokens that are neither numbers nor single letters |
| Coach.SingleSymbolIsWord | src/components/AICoach.tsx:45-47 | a one-character token that is neither a digit nor a letter is filed as a Word, though the comment says Words are longer than one character |
| Coach.TokensWeave | src/components/AICoach.tsx:30-34 | the tokens of text built from words and token-free gaps are the words |
| Coach.RawInputTokens | src/components/AICoach.tsx:5-24 | the tokens of `RAW_INPUT` are 1-6, 8, 9, A-H, HELLO, I-N, NAMASTE, O-V, X-Z |
| Coach.RawWordsClassified | src/components/AICoach.tsx:40-49 | the runs of `RAW_INPUT`'s tokens land in the expected lists |
| Coach.RawInputClassified | src/components/AICoach.tsx:132 | `classifyTokens(RAW_INPUT)` returns Numbers 1-6, 8 and 9 (no 7); Words HELLO and NAMASTE; and Alphabets A-V and X-Z (no W); of these the page renders only the Alphabet list |
| Recognition.ThrownMessage | src/components/ISLToSpeech.tsx:90-91 | a non-2xx reply throws "HTTP error! status: " followed by the status in decimal (`Decimal`, whose digits have the status as value); any other thrown error keeps its message |
| Recognition.FailureText | src/components/ISLToSpeech.tsx:109 | the error shown names both the thrown message and the server address |
| Recognition.ContainsInfix | src/components/ISLToSpeech.tsx:109 | a text built around a part contains it |
| Recognition.Joined | src/components/ISLToSpeech.tsx:101-104 | with no prediction appended the sentence is empty |
| Recognition.JoinedEndsWithLast | src/components/ISLToSpeech.tsx:101-104 | the sentence ends with the last prediction appended |
| Recognition.JoinedSnoc | src/components/ISLToSpeech.tsx:101-104 | appending a prediction gives the prediction alone after an empty sentence, otherwise the old sentence, a space and the prediction |
| Recognition.JoinedEmpty | src/components/ISLToSpeech.tsx:102 | the sentence is empty exactly when no prediction has been appended |
| Recognition.JoinedSnocPrefix | src/components/ISLToSpeech.tsx:101-104 | one append keeps the old sentence as a prefix |
| Recognition.JoinedPrefix | src/components/ISLToSpeech.tsx:101-104 | any number of appends keeps the old sentence as a prefix |
| Recognition.Recognizer.constructor | src/components/ISLToSpeech.tsx:4-10 | the initial state: not recognising, empty sentence, no error, all figures zero, no timer |
| Recognition.Recognizer.SendFrame | src/components/ISLToSpeech.tsx:67-76 | a request is sent if and only if none is marked in progress and a frame was captured; a call while processing changes nothing; a failed capture leaves `isProcessing` false |
| Recognition.Recognizer.ReceiveReply | src/components/ISLToSpeech.tsx:78-112 | a failure sets the error and leaves the sentence and figures unchanged; a reply overwrites buffer size, hands and confidence, appends an extending prediction and clears the error; `isProcessing` ends false; the old sentence stays a prefix |
| Recognition.Recognizer.Apply | src/components/ISLToSpeech.tsx:94-106 | a parsed body overwrites the three figures; a truthy prediction other than "Collecting frames..." is appended and clears the error; other predictions leave the sentence and error unchanged |
| Recognition.Recognizer.Append | src/components/ISLToSpeech.tsx:101-104 | the sentence becomes the prediction, or the old sentence, a space and the prediction, and stays the join of the appended predictions |
| Recognition.Recognizer.ResetSettled | src/components/ISLToSpeech.tsx:115-129 | a reset the server answered clears the sentence, buffer size and confidence and leaves hands detected; a rejected reset changes nothing |
| Recognition.Recognizer.Clear | src/components/ISLToSpeech.tsx:246-256 | the Clear button, offered only while the sentence is non-empty, sends a reset and changes nothing else until that reset settles |
| Recognition.Recognizer.Toggle | src/components/ISLToSpeech.tsx:132-147 | toggling flips `isRecognizing`: turning off clears the timer handle and sends a reset; turning on installs the new handle |

## Left out

- Camera access, the hand-tracking library's set-up and its frame pump (AlphabetPage.tsx:417-546, ISLToSpeech.tsx:21-49) are browser I/O and a foreign library. Only the tracker's output is modelled, as the `Tracking` input of `OnResults`.
- Status texts that the asynchronous camera start-up writes after its first `await` (AlphabetPage.tsx:508-542) are not modelled, and neither is the error the recogniser's camera start sets (ISLToSpeech.tsx:31-37). Both depend on the camera.
- Canvas capture and JPEG/base64 encoding (ISLToSpeech.tsx:51-65) are a foreign API. Whether a frame was captured is the `captured` parameter of `SendFrame`.
- `fetch`, `AbortController`, `res.text()`, `JSON.parse` and `res.json()` are I/O. Their outcomes are the `HealthPoll`, `Exchange` and `PredictReply` inputs, and their messages are strings given as parameters.
- Timers and clocks are events, not times: the recording timeout is `TimeoutFires`, each 30-second health poll is `HealthPolled`, and the 100 ms recognition timer's ticks are `SendFrame`.
- The `percent` text of the success status is `toFixed(1)` of a float, which is not modelled. It is the `percent` parameter of `Conclude` and `ServerAnswers`.
- The `distance`, `frames_processed` and `threshold_used` fields of the result card are only displayed, so they are not modelled.
- The health reply's `status`, `model_loaded` and `reference_data_loaded` fields are not modelled, because no logic reads them.
- TutorCheck.ServerErrorMessage: `detail` and `message` are modelled as optional strings. A non-string JSON value, such as an object `detail`, is not modelled.
- TutorCheck.FailureMessage: assumes the caught error has a string `message`. A thrown value without one would make `message.includes` throw inside the handler, and that path is not modelled.
- Recognition.Recognizer.SendFrame: the guard reads the current `isProcessing`. In the source, the timer callback keeps the `sendFrameToBackend` of the render that installed it, so the guard sees a stale value and overlapping requests are possible. This is a closure and event-loop effect.
- Recognition.Recognizer.ReceiveReply: replies are not paired with requests, so a reply may arrive at any time and in any order. Arrival order is an event-loop effect.
- Recognition.Recognizer.Toggle: the session id minted from `Date.now` and `Math.random` (ISLToSpeech.tsx:11) is left out, because it is only sent to the server.
- The unmount clean-ups (AlphabetPage.tsx:143, ISLToSpeech.tsx:149-156) are left out, because no state is observed after unmounting.
- The `try`/`catch` around `onMediaPipeResults` (AlphabetPage.tsx:205, 228-230) is left out, because nothing on the modelled path throws.
- Text.Upper: models `toUpperCase` on ASCII only. Non-ASCII letters, which the source would also upper-case, are left as they are.
- The JavaScript regular-expression engine is not modelled. `\d`, `[A-Za-z]` and `\s` are modelled as the character predicates of `Text`.
- Rendering (JSX) and SpeechToISL.tsx, which only embeds a frame, are not part of this model.
