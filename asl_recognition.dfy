/**
  The backend's sign recogniser (`ASLRecognitionSystem` and the threshold of
  its `YOLODetector` in app.py).

  Every processed frame yields the detector's best label and confidence,
  which are inputs here, as is the wall-clock time. A label is appended to
  the running text when it is present, clears the detector's threshold, the
  cooldown of 1.5 seconds has passed since the last appended label, and it
  differs from that label. Statistics count every decoded frame and every
  frame above the threshold.
 */
module AslRecognition {
  import opened Optional

  /** Seconds that must pass between two appended labels. */
  const Cooldown: real := 1.5

  /** The detector's threshold when the system starts, and the default of
      `adjust_sensitivity`. */
  const DefaultThreshold: real := 0.65

  /** The range `adjust_sensitivity` clamps the threshold into. */
  const MinThreshold: real := 0.3
  const MaxThreshold: real := 0.95

  /** What the detector reports for one frame: a label (Python's `None`
      when there is no box) and its confidence. */
  datatype Detection = Detection(prediction: Option<string>, confidence: real)

  /** Python truthiness of the label: `None` and `""` are both false. */
  predicate Present(p: Option<string>)
  {
    p.Some? && p.value != ""
  }

  datatype Status = Success | NoDetection | Error

  /** The response of `process_image`. */
  datatype Response = Response(prediction: string, confidence: real, currentText: string, status: Status)

  /** `max(0.3, min(0.95, x))`. */
  function Clamp(x: real): (r: real)
    ensures MinThreshold <= r <= MaxThreshold
    ensures MinThreshold <= x <= MaxThreshold ==> r == x
    ensures x < MinThreshold ==> r == MinThreshold
    ensures x > MaxThreshold ==> r == MaxThreshold
  {
    if x < MinThreshold then MinThreshold
    else if x > MaxThreshold then MaxThreshold
    else x
  }

  /** Clamping twice is clamping once. */
  lemma ClampIdempotent(x: real)
    ensures Clamp(Clamp(x)) == Clamp(x)
  {
  }

  /** Clamping keeps the order of two thresholds. */
  lemma ClampMonotone(x: real, y: real)
    requires x <= y
    ensures Clamp(x) <= Clamp(y)
  {
  }

  /** `add_space`: one space after a non-empty text that does not already
      end with one. */
  function WithSpace(s: string): string
  {
    if s != "" && s[|s| - 1] != ' ' then s + " " else s
  }

  /** `backspace`: the text without its last character. */
  function WithoutLast(s: string): string
  {
    if s != "" then s[..|s| - 1] else s
  }

  /** `add_space` leaves the empty text empty, otherwise adds at most one
      space and leaves the text ending in one. */
  lemma WithSpaceShape(s: string)
    ensures s == "" ==> WithSpace(s) == ""
    ensures WithSpace(s) == s || WithSpace(s) == s + " "
    ensures s != "" ==> WithSpace(s)[|WithSpace(s)| - 1] == ' '
  {
  }

  /** A second `add_space` changes nothing. */
  lemma WithSpaceIdempotent(s: string)
    ensures WithSpace(WithSpace(s)) == WithSpace(s)
  {
    if s != "" && s[|s| - 1] != ' ' {
      assert (s + " ")[|s|] == ' ';
    }
  }

  /** `backspace` undoes appending one character, and only shortens a
      non-empty text, by exactly one. */
  lemma WithoutLastUndoesAppend(s: string, c: char)
    ensures WithoutLast(s + [c]) == s
    ensures |WithoutLast(s)| == if s == "" then 0 else |s| - 1
  {
    assert (s + [c])[..|s|] == s;
  }

  /** The acceptance rule: a present label above the threshold, after the
      cooldown, different from the last appended label. */
  predicate Accepts(d: Detection, threshold: real, lastPrediction: Option<string>, lastTime: real, now: real)
  {
    Present(d.prediction) && d.confidence > threshold
    && now - lastTime > Cooldown && d.prediction != lastPrediction
  }

  /** A mean of values that sum to more than `n` times 0.3 exceeds 0.3. */
  lemma MeanAbove(sum: real, n: real, mean: real)
    requires n > 0.0 && sum > MinThreshold * n && mean == sum / n
    ensures mean * n == sum && mean > MinThreshold
  {
    assert mean * n == sum;
  }

  /** The fields `process_image` reads and writes. */
  datatype Recogniser = Recogniser(
    threshold: real,
    currentText: string,
    lastPrediction: Option<string>,
    lastTime: real,
    totalDetections: nat,
    successfulDetections: nat,
    totalConfidence: real)

  /** `process_image` on the recogniser `s`: the new fields and the reply. */
  function Processed(s: Recogniser, frame: Option<Detection>, now: real): (Recogniser, Response)
  {
    if frame.None? then (s, Response("Error", 0.0, s.currentText, Error))
    else
      var d := frame.value;
      var counted := s.(totalDetections := s.totalDetections + 1);
      if Present(d.prediction) && d.confidence > s.threshold then
        var hit := counted.(successfulDetections := s.successfulDetections + 1,
                            totalConfidence := s.totalConfidence + d.confidence);
        var t := if Accepts(d, s.threshold, s.lastPrediction, s.lastTime, now)
                 then hit.(currentText := s.currentText + d.prediction.value,
                           lastPrediction := d.prediction, lastTime := now)
                 else hit;
        (t, Response(d.prediction.value, d.confidence, t.currentText, Success))
      else
        (counted, Response("No Hand", 0.0, s.currentText, NoDetection))
  }

  /** A reply whose label is neither "No Hand" nor "Error" is a success that
      carries the detector's own label and confidence, which cleared the
      threshold; the threshold never changes. */
  lemma ProcessedReportsDetection(s: Recogniser, frame: Option<Detection>, now: real)
    ensures Processed(s, frame, now).0.threshold == s.threshold
    ensures var r := Processed(s, frame, now).1;
      r.prediction != "No Hand" && r.prediction != "Error" ==>
        r.status == Success && frame.Some? && frame.value.prediction == Some(r.prediction)
        && r.confidence == frame.value.confidence > s.threshold
  {
  }

  class AslRecognitionSystem {
    /** The detector's `confidence_threshold`. */
    var threshold: real
    var currentText: string
    var lastPrediction: Option<string>
    var lastTime: real
    var totalDetections: nat
    var successfulDetections: nat
    var totalConfidence: real

    /** The threshold stays in its clamp range, every counted success was
        also a counted frame, and every counted confidence cleared a
        threshold of at least 0.3. */
    ghost predicate Valid()
      reads this
    {
      MinThreshold <= threshold <= MaxThreshold
      && successfulDetections <= totalDetections
      && (successfulDetections == 0 ==> totalConfidence == 0.0)
      && (successfulDetections > 0 ==> totalConfidence > MinThreshold * successfulDetections as real)
    }

    function State(): Recogniser
      reads this
    {
      Recogniser(threshold, currentText, lastPrediction, lastTime,
        totalDetections, successfulDetections, totalConfidence)
    }

    constructor()
      ensures Valid()
      ensures threshold == DefaultThreshold && currentText == "" && lastPrediction == None && lastTime == 0.0
      ensures totalDetections == 0 && successfulDetections == 0 && totalConfidence == 0.0
    {
      threshold := DefaultThreshold;
      currentText := "";
      lastPrediction := None;
      lastTime := 0.0;
      totalDetections := 0;
      successfulDetections := 0;
      totalConfidence := 0.0;
    }

    /** `process_image`. `frame` is `None` when decoding the image raises,
        which answers "Error" and changes nothing; otherwise it holds the
        detector's output, and `now` is the clock. */
    method ProcessImage(frame: Option<Detection>, now: real) returns (r: Response)
      requires Valid()
      modifies this
      ensures Valid()
      ensures (State(), r) == Processed(old(State()), frame, now)
      ensures threshold == old(threshold)
      ensures frame.None? ==>
        r == Response("Error", 0.0, old(currentText), Error)
        && currentText == old(currentText) && lastPrediction == old(lastPrediction) && lastTime == old(lastTime)
        && totalDetections == old(totalDetections) && successfulDetections == old(successfulDetections)
        && totalConfidence == old(totalConfidence)
      ensures frame.Some? ==>
        var d := frame.value;
        var above := Present(d.prediction) && d.confidence > old(threshold);
        totalDetections == old(totalDetections) + 1
        && successfulDetections == old(successfulDetections) + (if above then 1 else 0)
        && totalConfidence == old(totalConfidence) + (if above then d.confidence else 0.0)
        && (if Accepts(d, old(threshold), old(lastPrediction), old(lastTime), now) then
              currentText == old(currentText) + d.prediction.value
              && lastPrediction == d.prediction && lastTime == now
            else
              currentText == old(currentText)
              && lastPrediction == old(lastPrediction) && lastTime == old(lastTime))
        && r == (if above then Response(d.prediction.value, d.confidence, currentText, Success)
                 else Response("No Hand", 0.0, currentText, NoDetection))
    {
      if frame.None? {
        return Response("Error", 0.0, currentText, Error);
      }
      var prediction := frame.value.prediction;
      var confidence := frame.value.confidence;
      totalDetections := totalDetections + 1;
      if Present(prediction) && confidence > threshold {
        successfulDetections := successfulDetections + 1;
        totalConfidence := totalConfidence + confidence;
        if now - lastTime > Cooldown {
          if prediction != lastPrediction {
            currentText := currentText + prediction.value;
            lastPrediction := prediction;
            lastTime := now;
          }
        }
        return Response(prediction.value, confidence, currentText, Success);
      }
      return Response("No Hand", 0.0, currentText, NoDetection);
    }

    /** `clear_text`: the text and the last label go; the time of the last
        label stays, so the cooldown still runs. */
    method ClearText()
      requires Valid()
      modifies this
      ensures Valid()
      ensures currentText == "" && lastPrediction == None
      ensures lastTime == old(lastTime) && threshold == old(threshold)
      ensures totalDetections == old(totalDetections) && successfulDetections == old(successfulDetections)
      ensures totalConfidence == old(totalConfidence)
    {
      currentText := "";
      lastPrediction := None;
    }

    /** `add_space`. */
    method AddSpace()
      requires Valid()
      modifies this
      ensures Valid()
      ensures currentText == WithSpace(old(currentText))
      ensures lastPrediction == old(lastPrediction) && lastTime == old(lastTime) && threshold == old(threshold)
      ensures totalDetections == old(totalDetections) && successfulDetections == old(successfulDetections)
      ensures totalConfidence == old(totalConfidence)
    {
      if currentText != "" && currentText[|currentText| - 1] != ' ' {
        currentText := currentText + " ";
      }
    }

    /** `backspace`. */
    method Backspace()
      requires Valid()
      modifies this
      ensures Valid()
      ensures currentText == WithoutLast(old(currentText))
      ensures lastPrediction == old(lastPrediction) && lastTime == old(lastTime) && threshold == old(threshold)
      ensures totalDetections == old(totalDetections) && successfulDetections == old(successfulDetections)
      ensures totalConfidence == old(totalConfidence)
    {
      if currentText != "" {
        currentText := currentText[..|currentText| - 1];
      }
    }

    /** `get_stats`: the counts and the mean confidence of the frames above
        the threshold, 0.0 when there were none; that mean always exceeds
        the lowest threshold. */
    method GetStats() returns (total: nat, successful: nat, average: real)
      requires Valid()
      ensures total == totalDetections && successful == successfulDetections
      ensures successful <= total
      ensures successful == 0 ==> average == 0.0
      ensures successful > 0 ==> average * successful as real == totalConfidence && average > MinThreshold
    {
      total := totalDetections;
      successful := successfulDetections;
      average := 0.0;
      if successful > 0 {
        average := totalConfidence / successful as real;
        MeanAbove(totalConfidence, successful as real, average);
      }
    }

    /** `adjust_sensitivity`: the requested threshold (0.65 when none is
        given) clamped into [0.3, 0.95]; the answer is the new threshold. */
    method AdjustSensitivity(confidence: Option<real>) returns (newThreshold: real)
      requires Valid()
      modifies this
      ensures Valid()
      ensures newThreshold == threshold
      ensures threshold == Clamp(if confidence.Some? then confidence.value else DefaultThreshold)
      ensures currentText == old(currentText) && lastPrediction == old(lastPrediction) && lastTime == old(lastTime)
      ensures totalDetections == old(totalDetections) && successfulDetections == old(successfulDetections)
      ensures totalConfidence == old(totalConfidence)
    {
      var requested := if confidence.Some? then confidence.value else DefaultThreshold;
      threshold := Clamp(requested);
      newThreshold := threshold;
    }
  }
}
