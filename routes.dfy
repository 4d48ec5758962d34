/**
  The two prediction endpoints of app.py (`predict_asl`, `predict_lip`),
  which run a recogniser on the posted frame and store a history row for
  every word worth keeping, and `clear_lip_text`, which tolerates a missing
  lip reader.

  Flask, JSON and the base64 and image decoding are not modelled: the posted
  image is a string that is either empty or not, and what decoding and the
  recogniser's detector make of it are inputs, as are the clock and the
  formatted date.
 */
module Routes {
  import opened Optional
  import AslRecognition
  import LipReading
  import opened History

  /** An endpoint's answer: a body, or an HTTP error code and message. */
  datatype Reply<T> = Ok(body: T) | Failure(code: nat, error: string)

  /** The labels `predict_asl` stores: present, and neither "No Hand" nor "Error". */
  predicate StoresSign(prediction: string)
  {
    prediction != "" && prediction != "No Hand" && prediction != "Error"
  }

  /** The row `predict_asl` stores for a sign. */
  function SignRecord(id: nat, sign: string, confidence: real, now: real, date: string): Record
  {
    Record(id, "asl-to-text", "Camera Input", sign, confidence, "YOLOv11", 0.0,
      "{'sign': '" + sign + "'}", now, date)
  }

  /** `predict_asl`. An empty image is refused with 400; otherwise the
      frame goes through `process_image` and a stored label is saved. */
  method PredictAsl(asl: AslRecognition.AslRecognitionSystem, table: HistoryTable, image: string,
                    frame: Option<AslRecognition.Detection>, now: real, date: string)
    returns (reply: Reply<AslRecognition.Response>)
    requires asl.Valid() && table.Valid()
    modifies asl, table
    ensures asl.Valid() && table.Valid()
    ensures image == "" ==>
      reply == Failure(400, "No image data") && unchanged(asl) && unchanged(table)
    ensures image != "" ==> reply.Ok?
    ensures image != "" ==>
      (asl.State(), reply.body) == AslRecognition.Processed(old(asl.State()), frame, now)
    ensures image != "" && StoresSign(reply.body.prediction) ==>
      table.rows == old(table.rows)
        + [SignRecord(old(table.nextId), reply.body.prediction, reply.body.confidence, now, date)]
    ensures image != "" && !StoresSign(reply.body.prediction) ==> unchanged(table)
    // Only a detection above the threshold is ever stored, and every one
    // whose label is not one of the excluded words is.
    ensures |table.rows| > |old(table.rows)| ==>
      reply.Ok? && reply.body.status == AslRecognition.Success
      && frame.Some? && frame.value.prediction == Some(reply.body.prediction)
      && reply.body.confidence == frame.value.confidence > old(asl.threshold)
    ensures (image != "" && frame.Some? && AslRecognition.Present(frame.value.prediction)
             && frame.value.confidence > old(asl.threshold) && StoresSign(frame.value.prediction.value)) ==>
      |table.rows| == |old(table.rows)| + 1
  {
    if image == "" {
      return Failure(400, "No image data");
    }
    var r := asl.ProcessImage(frame, now);
    AslRecognition.ProcessedReportsDetection(old(asl.State()), frame, now);
    if StoresSign(r.prediction) {
      var _ := table.Insert("asl-to-text", "Camera Input", r.prediction, r.confidence, "YOLOv11", 0.0,
        "{'sign': '" + r.prediction + "'}", now, date);
    }
    reply := Ok(r);
  }

  /** The words `predict_lip` stores: present, scored above 0.6, and neither "No Face" nor "Analyzing...". */
  predicate StoresWord(word: Option<string>, confidence: real)
  {
    LipReading.Present(word) && confidence > LipReading.MatchFloor
    && word.value != "No Face" && word.value != "Analyzing..."
  }

  function WordRecord(id: nat, word: string, confidence: real, now: real, date: string): Record
  {
    Record(id, "lip-reading", "Lip Movement", word, confidence, "MediaPipe + Pattern Matching", 0.0,
      "{'word': '" + word + "'}", now, date)
  }

  /** The part of `predict_lip`'s answer the model keeps. */
  datatype LipResponse = LipResponse(
    prediction: string,
    confidence: real,
    currentText: string,
    status: LipReading.FrameStatus,
    sequenceLength: nat,
    minRequired: nat)

  /** `predict_lip`. A missing lip reader answers 503 and an empty image
      400; `decodeError` holds the message of an exception raised while
      decoding the image, which answers 500. Otherwise the frame goes
      through `process_frame`, a word worth keeping is saved, and a frame
      without a word answers "Analyzing...". */
  method PredictLip(lip: LipReading.LipReadingDetector?, table: HistoryTable, image: string,
                    decodeError: Option<string>, face: Option<real>, scores: seq<(string, real)>,
                    now: real, date: string)
    returns (reply: Reply<LipResponse>)
    requires lip != null ==> lip.Valid()
    requires table.Valid()
    modifies lip, table
    ensures lip != null ==> lip.Valid()
    ensures table.Valid()
    ensures lip == null ==> reply == Failure(503, "MediaPipe not available") && unchanged(table)
    ensures lip != null && image == "" ==>
      reply == Failure(400, "No image data") && unchanged(lip) && unchanged(table)
    ensures lip != null && image != "" && decodeError.Some? ==>
      reply == Failure(500, decodeError.value) && unchanged(lip) && unchanged(table)
    ensures lip != null && image != "" && decodeError.None? ==>
      reply.Ok?
      && reply.body.currentText == lip.currentText
      && reply.body.sequenceLength == |lip.openness|
      && reply.body.minRequired == LipReading.MinSequenceLength
      && (var (t, fr) := LipReading.Observe(lip.available, old(lip.State()), face, scores, now);
          lip.State() == t && reply.body.confidence == fr.confidence && reply.body.status == fr.status
          && reply.body.prediction == (if LipReading.Present(fr.word) then fr.word.value else "Analyzing..."))
      && (reply.body.prediction == "Analyzing..." ==> unchanged(table))
      && (reply.body.prediction != "Analyzing..." && reply.body.prediction != "No Face" ==>
            table.rows == old(table.rows)
              + [WordRecord(old(table.nextId), reply.body.prediction, reply.body.confidence, now, date)])
    // A stored word is the best match of the scores for a frame with a face.
    ensures |table.rows| > |old(table.rows)| ==>
      lip != null && reply.Ok? && face.Some?
      && LipReading.Best(scores) == (Some(reply.body.prediction), reply.body.confidence)
  {
    if lip == null {
      return Failure(503, "MediaPipe not available");
    }
    if image == "" {
      return Failure(400, "No image data");
    }
    if decodeError.Some? {
      return Failure(500, decodeError.value);
    }
    var r := lip.ProcessFrame(face, scores, now);
    LipReading.ObserveReportsBest(lip.available, old(lip.State()), face, scores, now);
    if StoresWord(r.word, r.confidence) {
      var _ := table.Insert("lip-reading", "Lip Movement", r.word.value, r.confidence,
        "MediaPipe + Pattern Matching", 0.0, "{'word': '" + r.word.value + "'}", now, date);
    }
    var prediction := if LipReading.Present(r.word) then r.word.value else "Analyzing...";
    reply := Ok(LipResponse(prediction, r.confidence, lip.currentText, r.status,
      |lip.openness|, LipReading.MinSequenceLength));
  }

  /** `clear_lip_text`: clears the lip reader's text when there is a lip
      reader, and answers success either way. */
  method ClearLipText(lip: LipReading.LipReadingDetector?)
    requires lip != null ==> lip.Valid()
    modifies lip
    ensures lip != null ==>
      (lip.Valid() && lip.currentText == "" && lip.lastWord == None && lip.openness == [] && lip.movement == [])
    ensures lip != null ==>
      lip.lastWordTime == old(lip.lastWordTime) && lip.totalFrames == old(lip.totalFrames)
      && lip.detections == old(lip.detections) && lip.wordsDetected == old(lip.wordsDetected)
  {
    if lip != null {
      lip.ClearText();
    }
  }
}
