/**
  The browser side of the two recognisers (`ASLCamera` and
  `LipReadingCamera` in static/camera.js): the running text they keep, the
  rule that appends a recognised sign, the start and stop of periodic
  capture, and the requests they send.

  Time is in seconds (`Date.now() / 1000`) and is an input. The camera
  stream, the canvas, the DOM and the network are not modelled; what the
  objects send is recorded, in order, in an outbox of requests, and the
  server's answers come back in as arguments of `HandlePrediction`.
 */
module Camera {
  import opened Optional
  import AslRecognition

  /** A request a camera sends: a frame to the prediction endpoint, a
      history save (`saveConversionToHistory`, metadata `{}`), or the
      server-side clear of the running text. */
  datatype Request =
    | PredictFrame
    | Save(kind: string, input: string, output: string, confidence: real, technique: string, duration: real)
    | ClearServerText

  /** The number of history saves among `requests`. */
  function SaveCount(requests: seq<Request>): nat
  {
    if requests == [] then 0
    else SaveCount(requests[..|requests| - 1]) + (if requests[|requests| - 1].Save? then 1 else 0)
  }

  lemma SaveCountAppend(requests: seq<Request>, r: Request)
    ensures SaveCount(requests + [r]) == SaveCount(requests) + (if r.Save? then 1 else 0)
  {
    assert (requests + [r])[..|requests|] == requests;
  }

  // ---------------------------------------------------------------------
  // Periodic capture.

  /** The intervals a camera has set: the ids still running, the id it
      remembers (`processingInterval`) and the id the next `setInterval`
      hands out. */
  datatype Timers = Timers(live: set<nat>, handle: Option<nat>, next: nat)

  predicate TimersValid(t: Timers)
  {
    (forall id :: id in t.live ==> id < t.next) && (t.handle.Some? ==> t.handle.value < t.next)
  }

  const NoTimers: Timers := Timers({}, None, 1)

  /** `setInterval`, whose id overwrites the remembered one without
      clearing it. */
  function Started(t: Timers): (r: Timers)
    requires TimersValid(t)
    ensures TimersValid(r)
    ensures r.live == t.live + {t.next} && t.next !in t.live
  {
    Timers(t.live + {t.next}, Some(t.next), t.next + 1)
  }

  /** `clearInterval` on the remembered id, which stays remembered. */
  function Cleared(t: Timers): (r: Timers)
    requires TimersValid(t)
    ensures TimersValid(r)
    ensures r.live <= t.live
    ensures t.handle.Some? ==> r.live == t.live - {t.handle.value}
  {
    if t.handle.Some? then Timers(t.live - {t.handle.value}, t.handle, t.next) else t
  }

  /** Starting once and stopping gives back the running intervals there
      were. */
  lemma StartThenStop(t: Timers)
    requires TimersValid(t)
    ensures Cleared(Started(t)).live == t.live
  {
  }

  /** Starting twice and stopping leaves the first interval running. */
  lemma DoubleStartLeaks(t: Timers)
    requires TimersValid(t)
    ensures t.next in Cleared(Started(Started(t))).live
  {
  }

  /** The duration a save reports: seconds since the camera started, or 0
      before it ever has. */
  function Duration(start: Option<real>, now: real): real
  {
    if start.Some? then now - start.value else 0.0
  }

  // ---------------------------------------------------------------------
  // The sign camera.

  /** The seconds after which the same sign may be appended again. */
  const AddCooldown: real := 1.0

  /** The confidence a sign needs to be appended. */
  const AddConfidence: real := 0.5

  /** What `predict_asl` answers that `handlePrediction` reads; the
      server's answer carries no `model_loaded`, which is then `None`. */
  datatype AslResult = AslResult(prediction: Option<string>, confidence: real, modelLoaded: Option<bool>)

  /** An answer that names a sign; no label, `'No Hand'` and `'Error'`
      count as no detection. */
  predicate IsSign(prediction: Option<string>)
  {
    prediction.Some? && prediction.value != "" && prediction.value != "No Hand" && prediction.value != "Error"
  }

  /** The front end's rule: a different sign OR an elapsed cooldown, and a
      confidence above 0.5. */
  predicate AddsSign(sign: string, confidence: real, lastAddedSign: Option<string>, lastAddTime: real, now: real)
  {
    (Some(sign) != lastAddedSign || now - lastAddTime > AddCooldown) && confidence > AddConfidence
  }

  /** A one-character sign (a letter) is appended bare; a longer one (a
      word) is followed by one space. */
  function WithSign(text: string, sign: string): (r: string)
    requires sign != ""
    ensures |r| == |text| + |sign| + (if |sign| == 1 then 0 else 1)
    ensures r[..|text|] == text && r[|text|..|text| + |sign|] == sign
    ensures |sign| > 1 ==> r[|r| - 1] == ' '
  {
    if |sign| == 1 then text + sign else text + sign + " "
  }

  /** Given the same last sign and the same time of it, what the back end
      appends the front end appends too when the confidence is above 0.5.
      Each side keeps its own last sign and time, so over a run they need
      not agree (`SeparateStatesDiverge`). */
  lemma BackendAcceptanceImpliesFrontend(d: AslRecognition.Detection, threshold: real,
                                         last: Option<string>, lastTime: real, now: real)
    requires AslRecognition.Accepts(d, threshold, last, lastTime, now) && d.confidence > AddConfidence
    ensures AddsSign(d.prediction.value, d.confidence, last, lastTime, now)
  {
  }

  /** The converse fails: the same sign 1.2 seconds later is appended by
      the front end and refused by the back end. */
  lemma RepeatAcceptedOnlyByFrontend()
    ensures AddsSign("A", 0.9, Some("A"), 10.0, 11.2)
    ensures !AslRecognition.Accepts(AslRecognition.Detection(Some("A"), 0.9), 0.65, Some("A"), 10.0, 11.2)
  {
  }

  /** With each side keeping its own state: after both took "A" at time 0,
      "B" at 1.0 is refused by the back end (its cooldown) and appended by
      the front end; "B" again at 1.6 is then accepted by the back end and
      refused by the front end, whose last sign is now "B". */
  lemma SeparateStatesDiverge()
    ensures !AslRecognition.Accepts(AslRecognition.Detection(Some("B"), 0.9), 0.65, Some("A"), 0.0, 1.0)
    ensures AddsSign("B", 0.9, Some("A"), 0.0, 1.0)
    ensures AslRecognition.Accepts(AslRecognition.Detection(Some("B"), 0.9), 0.65, Some("A"), 0.0, 1.6)
    ensures !AddsSign("B", 0.9, Some("B"), 1.0, 1.6)
  {
  }

  class AslCamera {
    var hasStream: bool
    var isProcessing: bool
    var timers: Timers
    var modelLoaded: bool
    var startTime: Option<real>
    var currentText: string
    var lastPrediction: Option<string>
    var lastAddedSign: Option<string>
    var lastAddTime: real
    var predictions: nat
    var detections: nat
    var requests: seq<Request>

    /** Every valid detection bumps both counters, and a save is issued for
        at most each of them. */
    ghost predicate Valid()
      reads this
    {
      TimersValid(timers) && predictions == detections && SaveCount(requests) <= detections
    }

    constructor()
      ensures Valid()
      ensures !hasStream && !isProcessing && timers == NoTimers && !modelLoaded && startTime == None
      ensures currentText == "" && lastPrediction == None && lastAddedSign == None && lastAddTime == 0.0
      ensures predictions == 0 && detections == 0 && requests == []
    {
      hasStream := false;
      isProcessing := false;
      timers := NoTimers;
      modelLoaded := false;
      startTime := None;
      currentText := "";
      lastPrediction := None;
      lastAddedSign := None;
      lastAddTime := 0.0;
      predictions := 0;
      detections := 0;
      requests := [];
    }

    /** The answer of `checkModelStatus`: a model reported available marks
        it loaded; any other answer leaves the flag. */
    method ModelStatus(available: bool)
      requires Valid()
      modifies this`modelLoaded
      ensures Valid()
      ensures modelLoaded == (old(modelLoaded) || available)
    {
      if available {
        modelLoaded := true;
      }
    }

    /** `startCamera`: when the camera is granted, the stream is kept;
        once the video also plays, the clock for save durations starts.
        `granted` says `getUserMedia` resolves and `plays` that `play()`
        does; a refusal or a failed `play()` only reports the error. */
    method StartCamera(granted: bool, plays: bool, now: real)
      requires Valid()
      modifies this`hasStream, this`startTime
      ensures Valid()
      ensures hasStream == (granted || old(hasStream))
      ensures startTime == if granted && plays then Some(now) else old(startTime)
    {
      if granted {
        hasStream := true;
        if plays {
          startTime := Some(now);
        }
      }
    }

    /** `startProcessing`: refused without a stream or without a loaded
        model; otherwise processing is on and one more interval runs. */
    method StartProcessing()
      requires Valid()
      modifies this`isProcessing, this`timers
      ensures Valid()
      ensures !hasStream || !modelLoaded ==> isProcessing == old(isProcessing) && timers == old(timers)
      ensures hasStream && modelLoaded ==> isProcessing && timers == Started(old(timers))
    {
      if !hasStream {
        return;
      }
      if !modelLoaded {
        return;
      }
      isProcessing := true;
      timers := Started(timers);
    }

    /** `stopProcessing`: processing is off and the remembered interval is
        cleared, however often it is called. */
    method StopProcessing()
      requires Valid()
      modifies this`isProcessing, this`timers
      ensures Valid()
      ensures !isProcessing && timers == Cleared(old(timers))
    {
      isProcessing := false;
      timers := Cleared(timers);
    }

    /** `stopCamera`: the stream goes and processing stops. */
    method StopCamera()
      requires Valid()
      modifies this`hasStream, this`isProcessing, this`timers
      ensures Valid()
      ensures !hasStream && !isProcessing && timers == Cleared(old(timers))
    {
      hasStream := false;
      StopProcessing();
    }

    /** `captureAndPredict`, one firing of an interval: nothing unless
        processing, otherwise one frame is sent. */
    method CaptureAndPredict() returns (sent: bool)
      requires Valid()
      modifies this`requests
      ensures Valid()
      ensures sent == old(isProcessing)
      ensures requests == old(requests) + (if sent then [PredictFrame] else [])
    {
      if !isProcessing {
        return false;
      }
      SaveCountAppend(requests, PredictFrame);
      requests := requests + [PredictFrame];
      sent := true;
    }

    /** `handlePrediction` on the server's answer; it runs whether or not
        processing is still on. */
    method HandlePrediction(result: AslResult, now: real)
      requires Valid()
      modifies this`modelLoaded, this`currentText, this`lastPrediction, this`lastAddedSign,
        this`lastAddTime, this`predictions, this`detections, this`requests
      ensures Valid()
      ensures modelLoaded == (result.modelLoaded == Some(true))
      ensures !IsSign(result.prediction) ==>
        unchanged(this`currentText, this`lastPrediction, this`lastAddedSign, this`lastAddTime,
                  this`predictions, this`detections, this`requests)
      ensures IsSign(result.prediction) ==>
        var sign := result.prediction.value;
        lastPrediction == result.prediction
        && predictions == old(predictions) + 1 && detections == old(detections) + 1
        && if AddsSign(sign, result.confidence, old(lastAddedSign), old(lastAddTime), now) then
             currentText == WithSign(old(currentText), sign)
             && lastAddedSign == Some(sign) && lastAddTime == now
             && requests == old(requests)
                  + [Save("asl-to-text", "Camera", sign, result.confidence, "yolo", Duration(startTime, now))]
           else
             currentText == old(currentText) && lastAddedSign == old(lastAddedSign)
             && lastAddTime == old(lastAddTime) && requests == old(requests)
    {
      modelLoaded := result.modelLoaded == Some(true);
      if !IsSign(result.prediction) {
        return;
      }
      var sign := result.prediction.value;
      lastPrediction := result.prediction;
      predictions := predictions + 1;
      detections := detections + 1;
      var shouldAdd := Some(sign) != lastAddedSign || now - lastAddTime > AddCooldown;
      if shouldAdd && result.confidence > AddConfidence {
        AddSign(sign, result.confidence, now);
      }
    }

    /** The adding branch of `handlePrediction`: the sign joins the text,
        becomes the last added one, and is saved to the history. */
    method AddSign(sign: string, confidence: real, now: real)
      requires Valid() && sign != "" && detections > SaveCount(requests)
      modifies this`currentText, this`lastAddedSign, this`lastAddTime, this`requests
      ensures Valid()
      ensures currentText == WithSign(old(currentText), sign)
      ensures lastAddedSign == Some(sign) && lastAddTime == now
      ensures requests == old(requests)
        + [Save("asl-to-text", "Camera", sign, confidence, "yolo", Duration(startTime, now))]
    {
      if |sign| == 1 {
        currentText := currentText + sign;
      } else {
        currentText := currentText + sign + " ";
      }
      lastAddedSign := Some(sign);
      lastAddTime := now;
      var save := Save("asl-to-text", "Camera", sign, confidence, "yolo", Duration(startTime, now));
      SaveCountAppend(requests, save);
      requests := requests + [save];
    }

    /** `clearText`: the text and the last added sign go, the time of the
        last addition stays, and the server is asked to clear too. */
    method ClearText()
      requires Valid()
      modifies this`currentText, this`lastAddedSign, this`requests
      ensures Valid()
      ensures currentText == "" && lastAddedSign == None
      ensures requests == old(requests) + [ClearServerText]
    {
      currentText := "";
      lastAddedSign := None;
      SaveCountAppend(requests, ClearServerText);
      requests := requests + [ClearServerText];
    }
  }

  // ---------------------------------------------------------------------
  // The lip camera.

  /** What `predict_lip` answers that `handlePrediction` reads. */
  datatype LipResult = LipResult(prediction: Option<string>, confidence: real, currentText: Option<string>)

  /** An answer that names a word; no label, `'No Face'` and
      `'Analyzing...'` do not. */
  predicate IsWord(prediction: Option<string>)
  {
    prediction.Some? && prediction.value != "" && prediction.value != "No Face" && prediction.value != "Analyzing..."
  }

  /** The server's running text replaces the local one when it is
      non-empty and differs from it. */
  predicate TakesText(serverText: Option<string>, localText: string)
  {
    serverText.Some? && serverText.value != "" && serverText.value != localText
  }

  class LipCamera {
    var hasStream: bool
    var isProcessing: bool
    var timers: Timers
    var startTime: Option<real>
    var currentText: string
    var currentPrediction: Option<(string, real)>
    var frames: nat
    var predictions: nat
    var wordsDetected: nat
    var requests: seq<Request>

    /** Each counted word was saved exactly once. */
    ghost predicate Valid()
      reads this
    {
      TimersValid(timers) && wordsDetected == SaveCount(requests) && wordsDetected <= predictions
    }

    constructor()
      ensures Valid()
      ensures !hasStream && !isProcessing && timers == NoTimers && startTime == None
      ensures currentText == "" && currentPrediction == None
      ensures frames == 0 && predictions == 0 && wordsDetected == 0 && requests == []
    {
      hasStream := false;
      isProcessing := false;
      timers := NoTimers;
      startTime := None;
      currentText := "";
      currentPrediction := None;
      frames := 0;
      predictions := 0;
      wordsDetected := 0;
      requests := [];
    }

    /** `startCamera`, as on the sign-language side: a granted camera keeps
        its stream, and the clock starts only once the video plays. */
    method StartCamera(granted: bool, plays: bool, now: real)
      requires Valid()
      modifies this`hasStream, this`startTime
      ensures Valid()
      ensures hasStream == (granted || old(hasStream))
      ensures startTime == if granted && plays then Some(now) else old(startTime)
    {
      if granted {
        hasStream := true;
        if plays {
          startTime := Some(now);
        }
      }
    }

    /** `startProcessing`: refused without a stream; there is no model
        check on this side. */
    method StartProcessing()
      requires Valid()
      modifies this`isProcessing, this`timers
      ensures Valid()
      ensures !hasStream ==> isProcessing == old(isProcessing) && timers == old(timers)
      ensures hasStream ==> isProcessing && timers == Started(old(timers))
    {
      if !hasStream {
        return;
      }
      isProcessing := true;
      timers := Started(timers);
    }

    /** `stopProcessing`. */
    method StopProcessing()
      requires Valid()
      modifies this`isProcessing, this`timers
      ensures Valid()
      ensures !isProcessing && timers == Cleared(old(timers))
    {
      isProcessing := false;
      timers := Cleared(timers);
    }

    /** `stopCamera`. */
    method StopCamera()
      requires Valid()
      modifies this`hasStream, this`isProcessing, this`timers
      ensures Valid()
      ensures !hasStream && !isProcessing && timers == Cleared(old(timers))
    {
      hasStream := false;
      StopProcessing();
    }

    /** `captureAndPredict`: nothing unless processing; otherwise the frame
        is counted and sent. */
    method CaptureAndPredict() returns (sent: bool)
      requires Valid()
      modifies this`frames, this`requests
      ensures Valid()
      ensures sent == old(isProcessing)
      ensures frames == old(frames) + (if sent then 1 else 0)
      ensures requests == old(requests) + (if sent then [PredictFrame] else [])
    {
      if !isProcessing {
        return false;
      }
      frames := frames + 1;
      SaveCountAppend(requests, PredictFrame);
      requests := requests + [PredictFrame];
      sent := true;
    }

    /** `handlePrediction`: every answer is counted; an answer with a word
        takes over the server's running text when that is non-empty and
        new, which counts a word and saves it. */
    method HandlePrediction(result: LipResult, now: real)
      requires Valid()
      modifies this`currentText, this`currentPrediction, this`predictions, this`wordsDetected, this`requests
      ensures Valid()
      ensures predictions == old(predictions) + 1
      ensures !IsWord(result.prediction) ==>
        unchanged(this`currentText, this`currentPrediction, this`wordsDetected, this`requests)
      ensures IsWord(result.prediction) ==>
        var word := result.prediction.value;
        currentPrediction == Some((word, result.confidence))
        && if TakesText(result.currentText, old(currentText)) then
             currentText == result.currentText.value && wordsDetected == old(wordsDetected) + 1
             && requests == old(requests)
                  + [Save("lip-reading", "Lips", word, result.confidence, "mediapipe", Duration(startTime, now))]
           else
             currentText == old(currentText) && wordsDetected == old(wordsDetected) && requests == old(requests)
    {
      predictions := predictions + 1;
      if !IsWord(result.prediction) {
        return;
      }
      var word := result.prediction.value;
      currentPrediction := Some((word, result.confidence));
      if TakesText(result.currentText, currentText) {
        currentText := result.currentText.value;
        wordsDetected := wordsDetected + 1;
        var save := Save("lip-reading", "Lips", word, result.confidence, "mediapipe", Duration(startTime, now));
        SaveCountAppend(requests, save);
        requests := requests + [save];
      }
    }

    /** `clearOutput`: the text goes and the server is asked to clear too;
        nothing else changes. */
    method ClearOutput()
      requires Valid()
      modifies this`currentText, this`requests
      ensures Valid()
      ensures currentText == "" && requests == old(requests) + [ClearServerText]
    {
      SaveCountAppend(requests, ClearServerText);
      currentText := "";
      requests := requests + [ClearServerText];
    }
  }
}
