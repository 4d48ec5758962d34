/**
  The text-to-sign player of the front end (`TextToASL` in
  static/text-to-asl.js): it posts the typed text to the converter, then
  walks a cursor over the returned words, showing one word and its
  animation per timer firing, and saves one history entry when the cursor
  runs off the end.

  The DOM is reduced to the text box's value and the frame the animation
  area shows. Each `setTimeout(() => this.playNextAnimation(), 3000)` is a
  pending step: `pending` counts the steps scheduled and not yet run, and
  `Step` is one of them firing. All pending steps run the same code, so
  which one fires first does not matter. The clock is a parameter
  (milliseconds, as `Date.now()`), and a save sent to the history module is
  appended to `saves`.
 */
module SignPlayer {
  import opened Optional
  import opened TextUtil

  /** Delay between two words, in milliseconds. */
  const StepDelay: nat := 3000

  datatype Level = Info | Success | Warning | Error

  /** A notification shown to the user. */
  datatype Notice = Note(level: Level, message: string) | Converting(count: nat)

  const EmptyInputWarning: string := "Please enter text to convert!"
  const NoWordsWarning: string := "No words to convert!"
  const NoAnimationsWarning: string := "No animations available"
  const CompleteMessage: string := "Animation complete!"
  const NothingToReplayWarning: string := "Nothing to replay!"
  const ClearedMessage: string := "Cleared!"
  const FallbackNote: string := "Animation not available"

  /** What `convertText` gets back: the converter's words and animation
      paths (`null` for a word without one), a refusal carrying the
      converter's error, or an exception thrown by `fetch` or by parsing the
      answer. */
  datatype Reply =
    | Converted(words: seq<string>, animations: seq<Option<string>>)
    | Refused(error: string)
    | Thrown(message: string)

  /** What the animation area shows for one word: the word in capitals,
      the GIF or, failing one, the fallback note, and the progress
      "position / total". */
  datatype Frame = Frame(caption: string, image: Option<string>, note: Option<string>, position: nat, total: nat)

  /** The history entry saved when playback completes. */
  datatype HistorySave = HistorySave(
    kind: string,
    input: string,
    output: string,
    confidence: real,
    technique: string,
    duration: real,
    wordCount: nat)

  /** JavaScript truthiness of a GIF path: `null`, `undefined` and `""` are false. */
  predicate Truthy(path: Option<string>)
  {
    path.Some? && path.value != ""
  }

  /** `currentAnimations[i]`, which is `undefined` past the end of the list. */
  function PathAt(animations: seq<Option<string>>, i: nat): Option<string>
  {
    if i < |animations| then animations[i] else None
  }

  /** `displayAnimation(word, gifPath)` with the cursor at `index` of
      `total` words. */
  function FrameFor(word: string, path: Option<string>, index: nat, total: nat): (f: Frame)
    ensures f.caption == Upper(word)
    ensures f.image.Some? <==> Truthy(path)
    ensures f.image.Some? ==> f.image == path && f.note == None
    ensures f.image.None? ==> f.note == Some(FallbackNote)
    ensures f.position == index + 1 && f.total == total
  {
    if Truthy(path) then Frame(Upper(word), path, None, index + 1, total)
    else Frame(Upper(word), None, Some(FallbackNote), index + 1, total)
  }

  /** The frames an uninterrupted playback of `words` shows, in order. */
  function Frames(words: seq<string>, animations: seq<Option<string>>): seq<Frame>
  {
    seq(|words|, i requires 0 <= i < |words| => FrameFor(words[i], PathAt(animations, i), i, |words|))
  }

  /** `(Date.now() - this.conversionStartTime) / 1000`; a start time that
      was never set is `null`, which counts as 0. */
  function Duration(start: Option<int>, now: int): real
  {
    (now - (if start.Some? then start.value else 0)) as real / 1000.0
  }

  /** The entry `playNextAnimation` saves at the end of `words`. */
  function CompletionSave(input: string, words: seq<string>, start: Option<int>, now: int): (s: HistorySave)
    ensures s.kind == "text-to-asl" && s.technique == "Text-to-ASL Converter" && s.confidence == 1.0
    ensures s.input == Strip(input, JavaScript)
    ensures s.output == Join(words, " ") && s.wordCount == |words|
  {
    HistorySave("text-to-asl", Strip(input, JavaScript), Join(words, " "), 1.0,
      "Text-to-ASL Converter", Duration(start, now), |words|)
  }

  class TextToAslPlayer {
    /** Whether `window.historyModule` exists. */
    const historyAvailable: bool
    /** The value of the text box. */
    var textBox: string
    var isAnimating: bool
    var animationQueue: seq<string>
    /** Unset until the first playback; modelled as empty. */
    var currentAnimations: seq<Option<string>>
    var currentAnimationIndex: nat
    var conversionStartTime: Option<int>
    /** The frame in the animation area; `None` is the placeholder. */
    var display: Option<Frame>
    /** Steps scheduled and not yet run. */
    var pending: nat
    /** Texts posted to the converter. */
    var sent: seq<string>
    var notices: seq<Notice>
    var saves: seq<HistorySave>

    /** A playback in progress always has a step scheduled, so it always
        runs on to completion. */
    ghost predicate Valid()
      reads this
    {
      isAnimating ==> pending > 0
    }

    constructor(historyAvailable: bool)
      ensures Valid()
      ensures this.historyAvailable == historyAvailable
      ensures textBox == "" && !isAnimating && animationQueue == [] && currentAnimations == []
      ensures currentAnimationIndex == 0 && conversionStartTime == None && display == None
      ensures pending == 0 && sent == [] && notices == [] && saves == []
    {
      this.historyAvailable := historyAvailable;
      textBox := "";
      isAnimating := false;
      animationQueue := [];
      currentAnimations := [];
      currentAnimationIndex := 0;
      conversionStartTime := None;
      display := None;
      pending := 0;
      sent := [];
      notices := [];
      saves := [];
    }

    /** The user types into the text box. */
    method Type(text: string)
      requires Valid()
      modifies this`textBox
      ensures Valid() && textBox == text
    {
      textBox := text;
    }

    /** `playNextAnimation`. At or past the end of the queue the playback
        stops and, when the history module exists, exactly one entry is
        saved; otherwise the current word is shown, the cursor moves on by
        one and the next step is scheduled. */
    method PlayNextAnimation(now: int)
      modifies this`isAnimating, this`currentAnimationIndex, this`display, this`pending,
        this`notices, this`saves
      ensures Valid()
      ensures old(currentAnimationIndex) >= |animationQueue| ==>
        !isAnimating
        && saves == old(saves)
             + (if historyAvailable
                then [CompletionSave(textBox, animationQueue, conversionStartTime, now)] else [])
        && notices == old(notices) + [Note(Success, CompleteMessage)]
        && unchanged(this`currentAnimationIndex, this`display, this`pending)
      ensures old(currentAnimationIndex) < |animationQueue| ==>
        display == Some(FrameFor(animationQueue[old(currentAnimationIndex)],
                                 PathAt(currentAnimations, old(currentAnimationIndex)),
                                 old(currentAnimationIndex), |animationQueue|))
        && currentAnimationIndex == old(currentAnimationIndex) + 1
        && pending == old(pending) + 1
        && unchanged(this`isAnimating, this`notices, this`saves)
    {
      if currentAnimationIndex >= |animationQueue| {
        isAnimating := false;
        if historyAvailable {
          saves := saves + [CompletionSave(textBox, animationQueue, conversionStartTime, now)];
        }
        notices := notices + [Note(Success, CompleteMessage)];
        return;
      }
      var i := currentAnimationIndex;
      display := Some(FrameFor(animationQueue[i], PathAt(currentAnimations, i), i, |animationQueue|));
      currentAnimationIndex := i + 1;
      pending := pending + 1;
    }

    /** `playAnimationSequence(animations)`: an empty list (or none at all)
        only warns; otherwise playback starts on it at the current cursor. */
    method PlayAnimationSequence(animations: seq<Option<string>>, now: int)
      requires Valid()
      modifies this`isAnimating, this`currentAnimations, this`currentAnimationIndex, this`display,
        this`pending, this`notices, this`saves
      ensures Valid()
      ensures animations == [] ==>
        notices == old(notices) + [Note(Warning, NoAnimationsWarning)]
        && unchanged(this`isAnimating, this`currentAnimations, this`currentAnimationIndex)
        && unchanged(this`display, this`pending, this`saves)
      ensures animations != [] ==> currentAnimations == animations
      ensures animations != [] && old(currentAnimationIndex) < |animationQueue| ==>
        isAnimating
        && display == Some(FrameFor(animationQueue[old(currentAnimationIndex)],
                                    PathAt(animations, old(currentAnimationIndex)),
                                    old(currentAnimationIndex), |animationQueue|))
        && currentAnimationIndex == old(currentAnimationIndex) + 1
        && pending == old(pending) + 1
        && unchanged(this`notices, this`saves)
      ensures animations != [] && old(currentAnimationIndex) >= |animationQueue| ==>
        !isAnimating
        && saves == old(saves)
             + (if historyAvailable
                then [CompletionSave(textBox, animationQueue, conversionStartTime, now)] else [])
        && notices == old(notices) + [Note(Success, CompleteMessage)]
        && unchanged(this`currentAnimationIndex, this`display, this`pending)
    {
      if animations == [] {
        notices := notices + [Note(Warning, NoAnimationsWarning)];
        return;
      }
      isAnimating := true;
      currentAnimations := animations;
      PlayNextAnimation(now);
    }

    /** One scheduled step firing. */
    method Step(now: int)
      requires Valid() && pending > 0
      modifies this`isAnimating, this`currentAnimationIndex, this`display, this`pending,
        this`notices, this`saves
      ensures Valid()
      ensures old(currentAnimationIndex) >= |animationQueue| ==>
        !isAnimating && pending == old(pending) - 1
        && saves == old(saves)
             + (if historyAvailable
                then [CompletionSave(textBox, animationQueue, conversionStartTime, now)] else [])
        && notices == old(notices) + [Note(Success, CompleteMessage)]
        && unchanged(this`currentAnimationIndex, this`display)
      ensures old(currentAnimationIndex) < |animationQueue| ==>
        display == Some(FrameFor(animationQueue[old(currentAnimationIndex)],
                                 PathAt(currentAnimations, old(currentAnimationIndex)),
                                 old(currentAnimationIndex), |animationQueue|))
        && currentAnimationIndex == old(currentAnimationIndex) + 1
        && pending == old(pending)
        && unchanged(this`isAnimating, this`notices, this`saves)
    {
      pending := pending - 1;
      PlayNextAnimation(now);
    }

    /** `convertText`. Blank input only warns and posts nothing. Otherwise
        the trimmed text is posted; a refusal or an exception is reported,
        and a word list is handed to `ShowWords`. */
    method ConvertText(reply: Reply, now: int)
      requires Valid()
      modifies this`conversionStartTime, this`sent, this`notices, this`animationQueue,
        this`currentAnimationIndex, this`isAnimating, this`currentAnimations, this`display,
        this`pending, this`saves
      ensures Valid()
      ensures saves == old(saves)
      ensures Strip(textBox, JavaScript) == [] ==>
        notices == old(notices) + [Note(Warning, EmptyInputWarning)]
        && sent == old(sent) && conversionStartTime == old(conversionStartTime)
        && animationQueue == old(animationQueue) && currentAnimations == old(currentAnimations)
        && currentAnimationIndex == old(currentAnimationIndex)
        && isAnimating == old(isAnimating) && display == old(display) && pending == old(pending)
      ensures Strip(textBox, JavaScript) != [] ==>
        sent == old(sent) + [Strip(textBox, JavaScript)] && conversionStartTime == Some(now)
      ensures Strip(textBox, JavaScript) != [] && !reply.Converted? ==>
        notices == old(notices)
          + [Note(Error, if reply.Refused? then "Conversion failed: " + reply.error
                         else "Error: " + reply.message)]
        && animationQueue == old(animationQueue) && currentAnimations == old(currentAnimations)
        && currentAnimationIndex == old(currentAnimationIndex)
        && isAnimating == old(isAnimating) && display == old(display) && pending == old(pending)
      ensures Strip(textBox, JavaScript) != [] && reply.Converted? ==>
        Shows(reply.words, reply.animations, old(notices), old(currentAnimations),
              old(currentAnimationIndex), old(isAnimating), old(display), old(pending))
    {
      var text := Strip(textBox, JavaScript);
      if text == [] {
        notices := notices + [Note(Warning, EmptyInputWarning)];
        return;
      }
      conversionStartTime := Some(now);
      sent := sent + [text];
      match reply {
        case Thrown(message) =>
          notices := notices + [Note(Error, "Error: " + message)];
        case Refused(error) =>
          notices := notices + [Note(Error, "Conversion failed: " + error)];
        case Converted(words, animations) =>
          ShowWords(words, animations, now);
      }
    }

    /** The state `ShowWords` leaves, given the state before it: the queue
        is the word list; an empty one warns; otherwise the cursor restarts
        and the animations play, or an empty animation list warns, and the
        word count is announced either way. */
    ghost predicate Shows(words: seq<string>, animations: seq<Option<string>>, notices0: seq<Notice>,
                          animations0: seq<Option<string>>, index0: nat, animating0: bool,
                          display0: Option<Frame>, pending0: nat)
      reads this
    {
      animationQueue == words
      && (words == [] ==>
            notices == notices0 + [Note(Warning, NoWordsWarning)]
            && currentAnimations == animations0 && currentAnimationIndex == index0
            && isAnimating == animating0 && display == display0 && pending == pending0)
      && (words != [] && animations == [] ==>
            notices == notices0 + [Note(Warning, NoAnimationsWarning), Converting(|words|)]
            && currentAnimationIndex == 0 && currentAnimations == animations0
            && isAnimating == animating0 && display == display0 && pending == pending0)
      && (words != [] && animations != [] ==>
            notices == notices0 + [Converting(|words|)]
            && isAnimating && currentAnimations == animations
            && display == Some(FrameFor(words[0], PathAt(animations, 0), 0, |words|))
            && currentAnimationIndex == 1 && pending == pending0 + 1)
    }

    /** The `status === 'success'` branch of `convertText`. */
    method ShowWords(words: seq<string>, animations: seq<Option<string>>, now: int)
      requires Valid()
      modifies this`notices, this`animationQueue, this`currentAnimationIndex, this`isAnimating,
        this`currentAnimations, this`display, this`pending, this`saves
      ensures Valid() && saves == old(saves)
      ensures Shows(words, animations, old(notices), old(currentAnimations),
                    old(currentAnimationIndex), old(isAnimating), old(display), old(pending))
    {
      animationQueue := words;
      if words == [] {
        notices := notices + [Note(Warning, NoWordsWarning)];
        return;
      }
      currentAnimationIndex := 0;
      PlayAnimationSequence(animations, now);
      notices := notices + [Converting(|words|)];
    }

    /** `replayAnimation`: without cached animations it only warns;
        otherwise the cursor goes back to the start and the cached
        animations play again over the current queue, with nothing posted.
        Steps still pending from an earlier playback are not cancelled. */
    method ReplayAnimation(now: int)
      requires Valid()
      modifies this`isAnimating, this`currentAnimations, this`currentAnimationIndex, this`display,
        this`pending, this`notices, this`saves
      ensures Valid() && currentAnimations == old(currentAnimations)
      ensures currentAnimations == [] ==>
        notices == old(notices) + [Note(Warning, NothingToReplayWarning)]
        && unchanged(this`isAnimating, this`currentAnimationIndex, this`display)
        && unchanged(this`pending, this`saves)
      ensures currentAnimations != [] && animationQueue != [] ==>
        isAnimating
        && display == Some(FrameFor(animationQueue[0], PathAt(currentAnimations, 0), 0, |animationQueue|))
        && currentAnimationIndex == 1 && pending == old(pending) + 1
        && unchanged(this`notices, this`saves)
      ensures currentAnimations != [] && animationQueue == [] ==>
        !isAnimating && currentAnimationIndex == 0
        && saves == old(saves)
             + (if historyAvailable
                then [CompletionSave(textBox, [], conversionStartTime, now)] else [])
        && notices == old(notices) + [Note(Success, CompleteMessage)]
        && unchanged(this`display, this`pending)
    {
      if currentAnimations == [] {
        notices := notices + [Note(Warning, NothingToReplayWarning)];
        return;
      }
      currentAnimationIndex := 0;
      isAnimating := false;
      PlayAnimationSequence(currentAnimations, now);
    }

    /** `clearAll`: empties the text box, the queue and the cached
        animations, puts back the placeholder and stops the playback. A step
        already scheduled is not cancelled. */
    method ClearAll()
      requires Valid()
      modifies this`textBox, this`display, this`animationQueue, this`currentAnimations,
        this`currentAnimationIndex, this`isAnimating, this`notices
      ensures Valid()
      ensures textBox == "" && display == None && animationQueue == [] && currentAnimations == []
      ensures currentAnimationIndex == 0 && !isAnimating
      ensures notices == old(notices) + [Note(Info, ClearedMessage)]
    {
      textBox := "";
      display := None;
      animationQueue := [];
      currentAnimations := [];
      currentAnimationIndex := 0;
      isAnimating := false;
      notices := notices + [Note(Info, ClearedMessage)];
    }
  }

  /** A player with the history module, after `text` was typed and
      converted into `words` with `animations`: the first word is on show
      and one step is pending. */
  method StartedPlayback(text: string, words: seq<string>, animations: seq<Option<string>>, start: int)
    returns (p: TextToAslPlayer)
    requires Strip(text, JavaScript) != [] && words != [] && animations != []
    ensures fresh(p) && p.Valid() && p.historyAvailable
    ensures p.textBox == text && p.conversionStartTime == Some(start)
    ensures p.animationQueue == words && p.currentAnimations == animations
    ensures p.display == Some(FrameFor(words[0], PathAt(animations, 0), 0, |words|))
    ensures p.currentAnimationIndex == 1 && p.pending == 1 && p.isAnimating && p.saves == []
  {
    p := new TextToAslPlayer(true);
    p.Type(text);
    p.ConvertText(Converted(words, animations), start);
  }

  /** A conversion of non-blank text into at least one word with
      animations, left to run: every word is shown once, in order, with its
      own animation or the fallback, and then exactly one entry is saved,
      whose output is the words joined by spaces and whose word count is
      their number. `start` is the clock when the text is posted and
      `finish` when the steps fire. */
  method PlayThrough(text: string, words: seq<string>, animations: seq<Option<string>>, start: int, finish: int)
    returns (frames: seq<Frame>, saves: seq<HistorySave>)
    requires Strip(text, JavaScript) != [] && words != [] && animations != []
    ensures frames == Frames(words, animations)
    ensures saves == [HistorySave("text-to-asl", Strip(text, JavaScript), Join(words, " "), 1.0,
                                  "Text-to-ASL Converter", Duration(Some(start), finish), |words|)]
  {
    var p := StartedPlayback(text, words, animations, start);
    frames := [p.display.value];
    while p.isAnimating
      invariant p.Valid() && p.historyAvailable
      invariant p.textBox == text && p.conversionStartTime == Some(start)
      invariant p.animationQueue == words && p.currentAnimations == animations
      invariant 1 <= p.currentAnimationIndex <= |words|
      invariant frames == Frames(words, animations)[..p.currentAnimationIndex]
      invariant p.isAnimating ==> p.pending == 1 && p.saves == []
      invariant !p.isAnimating ==>
        p.currentAnimationIndex == |words|
        && p.saves == [CompletionSave(text, words, Some(start), finish)]
      decreases |words| - p.currentAnimationIndex, p.isAnimating
    {
      p.Step(finish);
      if p.isAnimating {
        frames := frames + [p.display.value];
      }
    }
    saves := p.saves;
  }

  /** `clearAll` during a playback does not cancel the step already
      scheduled: when it fires, the cursor (0) is at the end of the emptied
      queue, so the playback "completes" and saves an entry with empty
      input and output and a word count of 0. */
  method ClearDuringPlayback(text: string, words: seq<string>, animations: seq<Option<string>>, start: int, finish: int)
    returns (saves: seq<HistorySave>, stillPending: nat)
    requires Strip(text, JavaScript) != [] && words != [] && animations != []
    ensures saves == [HistorySave("text-to-asl", "", "", 1.0, "Text-to-ASL Converter",
                                  Duration(Some(start), finish), 0)]
    ensures stillPending == 0
  {
    var p := StartedPlayback(text, words, animations, start);
    p.ClearAll();
    p.Step(finish);
    StripEmptyIff("", JavaScript);
    saves, stillPending := p.saves, p.pending;
  }

  /** `replayAnimation` during a playback of two or more words does not
      cancel the step already scheduled, so two chains of steps then run
      over the same cursor. */
  method ReplayDuringPlayback(text: string, words: seq<string>, animations: seq<Option<string>>, start: int, now: int)
    returns (stillPending: nat, cursor: nat)
    requires Strip(text, JavaScript) != [] && |words| >= 2 && animations != []
    ensures stillPending == 2 && cursor == 1
  {
    var p := StartedPlayback(text, words, animations, start);
    p.Step(now);
    assert p.currentAnimationIndex == 2 && p.pending == 1;
    p.ReplayAnimation(now);
    stillPending, cursor := p.pending, p.currentAnimationIndex;
  }
}
