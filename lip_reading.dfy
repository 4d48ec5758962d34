/**
  The backend's lip-reading detector (`ImprovedLipReadingDetector` in
  app.py): two bounded histories of mouth measurements, a word chosen from
  per-word scores once enough frames are in, and a cooldown before the same
  running text takes another word.

  The face-mesh measurement of a frame (the mouth openness, or nothing when
  no face is found), the per-word scores the temporal analysis computes
  from the histories, and the clock are inputs.
 */
module LipReading {
  import opened Optional

  /** `deque(maxlen=30)`. */
  const MaxHistory: nat := 30

  /** `min_sequence_length`: fewer entries than this give no word. */
  const MinSequenceLength: nat := 10

  /** Seconds between two accepted words. */
  const WordCooldown: real := 2.0

  /** Scores at or below this never win. */
  const MatchFloor: real := 0.6

  /** Confidence a word needs to be appended. */
  const AcceptConfidence: real := 0.65

  /** `append` on a deque with `maxlen=30`: the oldest entry falls out when
      the deque is full. */
  function PushBounded(q: seq<real>, x: real): (r: seq<real>)
    ensures |r| == if |q| < MaxHistory then |q| + 1 else |q|
  {
    if |q| < MaxHistory then q + [x] else q[1..] + [x]
  }

  /** What a bounded push keeps is the newest entries of the unbounded
      append, ending with the new one. */
  lemma PushBoundedKeepsNewest(q: seq<real>, x: real)
    requires |q| <= MaxHistory
    ensures |PushBounded(q, x)| <= MaxHistory
    ensures PushBounded(q, x) == (q + [x])[|q| + 1 - |PushBounded(q, x)|..]
    ensures PushBounded(q, x)[|PushBounded(q, x)| - 1] == x
  {
    if |q| == MaxHistory {
      assert (q + [x])[1..] == q[1..] + [x];
    } else {
      assert (q + [x])[0..] == q + [x];
    }
  }

  function Abs(x: real): real
  {
    if x < 0.0 then -x else x
  }

  /** The scan over the word patterns in `analyze_temporal_sequence`, from
      position `i` on with the best word and score so far: a score replaces
      the best when it is strictly higher and above 0.6. `scores` holds each
      pattern's word and combined score, in the table's order. */
  function BestFrom(scores: seq<(string, real)>, i: nat, best: Option<string>, bestScore: real): (Option<string>, real)
    requires i <= |scores|
    decreases |scores| - i
  {
    if i == |scores| then (best, bestScore)
    else if scores[i].1 > bestScore && scores[i].1 > MatchFloor then BestFrom(scores, i + 1, Some(scores[i].0), scores[i].1)
    else BestFrom(scores, i + 1, best, bestScore)
  }

  /** The word the scan ends with, starting from no word and score 0.0. */
  function Best(scores: seq<(string, real)>): (Option<string>, real)
  {
    BestFrom(scores, 0, None, 0.0)
  }

  /** `best` and `bestScore` are the outcome of the scan over the first `n`
      scores: no word exactly when no score passes 0.6, and otherwise the
      first score that is strictly the highest, above 0.6. */
  predicate FirstMaximum(scores: seq<(string, real)>, n: nat, best: Option<string>, bestScore: real)
    requires n <= |scores|
  {
    (best.None? <==> forall j :: 0 <= j < n ==> scores[j].1 <= MatchFloor)
    && (best.None? ==> bestScore == 0.0)
    && (best.Some? ==>
          exists k :: 0 <= k < n && scores[k] == (best.value, bestScore)
            && bestScore > MatchFloor
            && (forall j :: 0 <= j < k ==> scores[j].1 < bestScore)
            && (forall j :: k < j < n ==> scores[j].1 <= bestScore))
  }

  /** A step of the scan that takes a new score keeps the first maximum of
      the prefix. */
  lemma {:induction false} FirstMaximumTake(scores: seq<(string, real)>, i: nat, best: Option<string>, bestScore: real)
    requires i < |scores| && FirstMaximum(scores, i, best, bestScore)
    requires scores[i].1 > bestScore && scores[i].1 > MatchFloor
    ensures FirstMaximum(scores, i + 1, Some(scores[i].0), scores[i].1)
  {
    if best.Some? {
      var k :| 0 <= k < i && scores[k] == (best.value, bestScore)
        && bestScore > MatchFloor
        && (forall j :: 0 <= j < k ==> scores[j].1 < bestScore)
        && (forall j :: k < j < i ==> scores[j].1 <= bestScore);
      assert forall j :: 0 <= j < i ==> scores[j].1 <= bestScore;
    }
    assert forall j :: 0 <= j < i ==> scores[j].1 < scores[i].1;
    assert scores[i] == (scores[i].0, scores[i].1);
  }

  /** A step of the scan that keeps its word keeps the first maximum of
      the prefix. */
  lemma {:induction false} FirstMaximumKeep(scores: seq<(string, real)>, i: nat, best: Option<string>, bestScore: real)
    requires i < |scores| && FirstMaximum(scores, i, best, bestScore)
    requires !(scores[i].1 > bestScore && scores[i].1 > MatchFloor)
    ensures FirstMaximum(scores, i + 1, best, bestScore)
  {
    if best.Some? {
      var k :| 0 <= k < i && scores[k] == (best.value, bestScore)
        && bestScore > MatchFloor
        && (forall j :: 0 <= j < k ==> scores[j].1 < bestScore)
        && (forall j :: k < j < i ==> scores[j].1 <= bestScore);
      assert forall j :: k < j < i + 1 ==> scores[j].1 <= bestScore;
      assert scores[k] == (best.value, bestScore);
    }
  }

  lemma {:induction false} BestFromFirstMaximum(scores: seq<(string, real)>, i: nat, best: Option<string>, bestScore: real)
    requires i <= |scores| && FirstMaximum(scores, i, best, bestScore)
    ensures FirstMaximum(scores, |scores|, BestFrom(scores, i, best, bestScore).0, BestFrom(scores, i, best, bestScore).1)
    decreases |scores| - i
  {
    if i < |scores| {
      if scores[i].1 > bestScore && scores[i].1 > MatchFloor {
        FirstMaximumTake(scores, i, best, bestScore);
        BestFromFirstMaximum(scores, i + 1, Some(scores[i].0), scores[i].1);
      } else {
        FirstMaximumKeep(scores, i, best, bestScore);
        BestFromFirstMaximum(scores, i + 1, best, bestScore);
      }
    }
  }

  /** The scan finds the first strictly highest score above 0.6, and no
      word exactly when no score passes 0.6. */
  lemma {:induction false} BestIsFirstMaximum(scores: seq<(string, real)>)
    ensures FirstMaximum(scores, |scores|, Best(scores).0, Best(scores).1)
  {
    BestFromFirstMaximum(scores, 0, None, 0.0);
  }

  /** Two positions that are both the first strict maximum of the scores
      are the same position. */
  lemma {:induction false} SameMaximum(scores: seq<(string, real)>, k1: nat, k2: nat)
    requires k1 < |scores| && k2 < |scores|
    requires forall j :: 0 <= j < k1 ==> scores[j].1 < scores[k1].1
    requires forall j :: k1 < j < |scores| ==> scores[j].1 <= scores[k1].1
    requires forall j :: 0 <= j < k2 ==> scores[j].1 < scores[k2].1
    requires forall j :: k2 < j < |scores| ==> scores[j].1 <= scores[k2].1
    ensures k1 == k2
  {
    var v1, v2 := scores[k1].1, scores[k2].1;
  }

  /** The position the description promises for a word. */
  lemma {:induction false} MaximumPosition(scores: seq<(string, real)>, best: Option<string>, bestScore: real) returns (k: nat)
    requires FirstMaximum(scores, |scores|, best, bestScore) && best.Some?
    ensures k < |scores| && scores[k] == (best.value, bestScore) && bestScore > MatchFloor
    ensures forall j :: 0 <= j < k ==> scores[j].1 < scores[k].1
    ensures forall j :: k < j < |scores| ==> scores[j].1 <= scores[k].1
  {
    k :| 0 <= k < |scores| && scores[k] == (best.value, bestScore)
      && bestScore > MatchFloor
      && (forall j :: 0 <= j < k ==> scores[j].1 < bestScore)
      && (forall j :: k < j < |scores| ==> scores[j].1 <= bestScore);
  }

  /** Two outcomes meeting that description over all the scores agree. */
  lemma {:induction false} FirstMaximumDeterminate(scores: seq<(string, real)>, b1: Option<string>, s1: real, b2: Option<string>, s2: real)
    requires FirstMaximum(scores, |scores|, b1, s1)
    requires FirstMaximum(scores, |scores|, b2, s2)
    ensures b1 == b2 && s1 == s2
  {
    if b1.Some? {
      var k1 := MaximumPosition(scores, b1, s1);
      assert b2.Some?;
      var k2 := MaximumPosition(scores, b2, s2);
      SameMaximum(scores, k1, k2);
    }
  }

  /** That description pins the outcome down: any word and score meeting it
      are the ones the scan returns. */
  lemma {:induction false} FirstMaximumUnique(scores: seq<(string, real)>, best: Option<string>, bestScore: real)
    requires FirstMaximum(scores, |scores|, best, bestScore)
    ensures (best, bestScore) == Best(scores)
  {
    var (w, c) := Best(scores);
    BestIsFirstMaximum(scores);
    FirstMaximumDeterminate(scores, best, bestScore, w, c);
  }

  /** The loop of `analyze_temporal_sequence` over the scores. */
  method BestMatch(scores: seq<(string, real)>) returns (best: Option<string>, bestScore: real)
    ensures (best, bestScore) == Best(scores)
    ensures best.None? <==> forall j :: 0 <= j < |scores| ==> scores[j].1 <= MatchFloor
    ensures best.None? ==> bestScore == 0.0
    ensures best.Some? ==>
      exists k :: 0 <= k < |scores| && scores[k] == (best.value, bestScore)
        && bestScore > MatchFloor
        && (forall j :: 0 <= j < k ==> scores[j].1 < bestScore)
        && (forall j :: k < j < |scores| ==> scores[j].1 <= bestScore)
  {
    best := None;
    bestScore := 0.0;
    for i := 0 to |scores|
      invariant BestFrom(scores, i, best, bestScore) == Best(scores)
    {
      var (word, total) := scores[i];
      if total > bestScore && total > MatchFloor {
        bestScore := total;
        best := Some(word);
      }
    }
    BestIsFirstMaximum(scores);
  }

  /** What `process_frame` reports about the frame. */
  datatype FrameStatus = NotAvailable | NoFace | Analyzing(frames: nat)

  datatype FrameResult = FrameResult(word: Option<string>, confidence: real, status: FrameStatus)

  /** Python truthiness of a word. */
  predicate Present(w: Option<string>)
  {
    w.Some? && w.value != ""
  }

  /** The acceptance rule of `process_frame`. */
  predicate Accepts(word: Option<string>, confidence: real, lastWord: Option<string>, lastWordTime: real, now: real)
  {
    Present(word) && confidence > AcceptConfidence
    && now - lastWordTime > WordCooldown && word != lastWord
  }

  /** The fields `process_frame` reads and writes. */
  datatype Tracker = Tracker(
    currentText: string,
    lastWord: Option<string>,
    lastWordTime: real,
    openness: seq<real>,
    movement: seq<real>,
    totalFrames: nat,
    detections: nat,
    wordsDetected: nat)

  /** `process_frame` on the fields `t`: the new fields and the report.
      With enough history the reported word is the best match of the
      scores, and an accepted word restarts both histories. */
  function Observe(available: bool, t: Tracker, face: Option<real>, scores: seq<(string, real)>, now: real)
    : (Tracker, FrameResult)
  {
    if !available then (t, FrameResult(None, 0.0, NotAvailable))
    else
      var counted := t.(totalFrames := t.totalFrames + 1);
      if face.None? then (counted.(openness := [], movement := []), FrameResult(None, 0.0, NoFace))
      else
        var pushed := PushBounded(t.openness, face.value);
        var moved := if |pushed| >= 2
                     then PushBounded(t.movement, Abs(pushed[|pushed| - 1] - pushed[|pushed| - 2]))
                     else t.movement;
        var found := if |pushed| < MinSequenceLength then (None, 0.0) else Best(scores);
        var next :=
          if Accepts(found.0, found.1, t.lastWord, t.lastWordTime, now)
          then counted.(currentText := t.currentText + found.0.value + " ", lastWord := found.0,
                        lastWordTime := now, detections := t.detections + 1,
                        wordsDetected := t.wordsDetected + 1, openness := [], movement := [])
          else counted.(openness := pushed, movement := moved);
        (next, FrameResult(found.0, found.1, Analyzing(|next.openness|)))
  }

  /** The only text a frame ever adds is the best match of the scores
      followed by one space, and only once the history holds ten entries. */
  lemma {:induction false} ObserveAppendsBest(available: bool, t: Tracker, face: Option<real>, scores: seq<(string, real)>, now: real)
    ensures var t' := Observe(available, t, face, scores, now).0;
      t'.currentText != t.currentText ==>
        available && face.Some? && |PushBounded(t.openness, face.value)| >= MinSequenceLength
        && Best(scores).0.Some? && Best(scores).1 > AcceptConfidence
        && t'.currentText == t.currentText + Best(scores).0.value + " "
  {
  }

  /** A frame reports a word only when the face mesh is available, a face
      was found and the history is long enough, and the word and score it
      reports are then the best match of the scores. */
  lemma {:induction false} ObserveReportsBest(available: bool, t: Tracker, face: Option<real>, scores: seq<(string, real)>, now: real)
    ensures var r := Observe(available, t, face, scores, now).1;
      r.word.Some? ==>
        available && face.Some? && |PushBounded(t.openness, face.value)| >= MinSequenceLength
        && (r.word, r.confidence) == Best(scores)
  {
  }

  class LipReadingDetector {
    /** Whether the face mesh could be set up. */
    const available: bool
    var currentText: string
    var lastWord: Option<string>
    var lastWordTime: real
    var openness: seq<real>
    var movement: seq<real>
    var totalFrames: nat
    var detections: nat
    var wordsDetected: nat

    /** Both histories stay within their bound, and there is never more
        movement history than openness history. */
    ghost predicate Valid()
      reads this
    {
      |movement| <= |openness| <= MaxHistory && detections == wordsDetected
    }

    function State(): Tracker
      reads this
    {
      Tracker(currentText, lastWord, lastWordTime, openness, movement, totalFrames, detections, wordsDetected)
    }

    constructor(faceMeshAvailable: bool)
      ensures Valid()
      ensures available == faceMeshAvailable
      ensures currentText == "" && lastWord == None && lastWordTime == 0.0
      ensures openness == [] && movement == []
      ensures totalFrames == 0 && detections == 0 && wordsDetected == 0
    {
      available := faceMeshAvailable;
      currentText := "";
      lastWord := None;
      lastWordTime := 0.0;
      openness := [];
      movement := [];
      totalFrames := 0;
      detections := 0;
      wordsDetected := 0;
    }

    /** `analyze_temporal_sequence`: nothing below ten openness entries,
        otherwise the best-scoring word. */
    method Analyze(scores: seq<(string, real)>) returns (word: Option<string>, confidence: real)
      ensures |openness| < MinSequenceLength ==> word == None && confidence == 0.0
      ensures word.Some? ==> |openness| >= MinSequenceLength && confidence > MatchFloor
      ensures |openness| >= MinSequenceLength ==>
        (word.None? <==> forall j :: 0 <= j < |scores| ==> scores[j].1 <= MatchFloor)
      ensures |openness| >= MinSequenceLength ==> (word, confidence) == Best(scores)
    {
      if |openness| < MinSequenceLength {
        return None, 0.0;
      }
      word, confidence := BestMatch(scores);
    }

    /** `process_frame`. `face` is the mouth openness measured on the frame,
        or `None` when no face is found; `scores` are the per-word scores of
        the temporal analysis and `now` is the clock. */
    method ProcessFrame(face: Option<real>, scores: seq<(string, real)>, now: real) returns (r: FrameResult)
      requires Valid()
      modifies this
      ensures Valid()
      ensures (State(), r) == Observe(available, old(State()), face, scores, now)
      ensures available && face.Some? && |PushBounded(old(openness), face.value)| >= MinSequenceLength ==>
        (r.word, r.confidence) == Best(scores)
      ensures !available ==>
        r == FrameResult(None, 0.0, NotAvailable)
        && totalFrames == old(totalFrames) && openness == old(openness) && movement == old(movement)
        && currentText == old(currentText) && lastWord == old(lastWord) && lastWordTime == old(lastWordTime)
        && detections == old(detections)
      ensures available ==> totalFrames == old(totalFrames) + 1
      ensures available && face.None? ==>
        r == FrameResult(None, 0.0, NoFace)
        && openness == [] && movement == []
        && currentText == old(currentText) && lastWord == old(lastWord) && lastWordTime == old(lastWordTime)
        && detections == old(detections)
      ensures available && face.Some? ==>
        var pushed := PushBounded(old(openness), face.value);
        (|pushed| < MinSequenceLength ==> r.word == None && r.confidence == 0.0)
        && (r.word.Some? ==> r.confidence > MatchFloor)
        && (if Accepts(r.word, r.confidence, old(lastWord), old(lastWordTime), now) then
              currentText == old(currentText) + r.word.value + " "
              && lastWord == r.word && lastWordTime == now
              && detections == old(detections) + 1 && wordsDetected == old(wordsDetected) + 1
              && openness == [] && movement == []
            else
              currentText == old(currentText) && lastWord == old(lastWord) && lastWordTime == old(lastWordTime)
              && detections == old(detections) && wordsDetected == old(wordsDetected)
              && openness == pushed
              && movement == (if |pushed| >= 2
                              then PushBounded(old(movement), Abs(pushed[|pushed| - 1] - pushed[|pushed| - 2]))
                              else old(movement)))
        && r.status == Analyzing(|openness|)
    {
      if !available {
        return FrameResult(None, 0.0, NotAvailable);
      }
      totalFrames := totalFrames + 1;
      if face.None? {
        openness := [];
        movement := [];
        return FrameResult(None, 0.0, NoFace);
      }
      openness := PushBounded(openness, face.value);
      if |openness| >= 2 {
        movement := PushBounded(movement, Abs(openness[|openness| - 1] - openness[|openness| - 2]));
      }
      var word, confidence := Analyze(scores);
      if Present(word) && confidence > AcceptConfidence {
        if now - lastWordTime > WordCooldown {
          if word != lastWord {
            Accept(word.value, now);
          }
        }
      }
      r := FrameResult(word, confidence, Analyzing(|openness|));
    }

    /** The accepting branch of `process_frame`: the word and a space are
        appended, it becomes the last word, both counters go up and both
        histories restart. */
    method Accept(word: string, now: real)
      requires Valid()
      modifies this`currentText, this`lastWord, this`lastWordTime, this`wordsDetected,
        this`detections, this`openness, this`movement
      ensures Valid()
      ensures currentText == old(currentText) + word + " " && lastWord == Some(word) && lastWordTime == now
      ensures detections == old(detections) + 1 && wordsDetected == old(wordsDetected) + 1
      ensures openness == [] && movement == []
    {
      currentText := currentText + word + " ";
      lastWord := Some(word);
      lastWordTime := now;
      wordsDetected := wordsDetected + 1;
      detections := detections + 1;
      openness := [];
      movement := [];
    }

    /** `clear_text`: text, last word and both histories go; the time of the
        last word stays. */
    method ClearText()
      requires Valid()
      modifies this
      ensures Valid()
      ensures currentText == "" && lastWord == None && openness == [] && movement == []
      ensures lastWordTime == old(lastWordTime) && totalFrames == old(totalFrames)
      ensures detections == old(detections) && wordsDetected == old(wordsDetected)
    {
      currentText := "";
      lastWord := None;
      openness := [];
      movement := [];
    }
  }
}
