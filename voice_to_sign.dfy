/**
  The browser's voice-to-sign converter (`VoiceToASL` in
  static/voice-to-asl.js): what a final transcript is turned into, and the
  listening flag the speech recogniser's callbacks drive.

  A transcript either contains one of the listed phrases, and then the
  first listed one is shown, or is split into words that are cleaned and
  shown one after another, 2.5 seconds apart. Showing a word looks it up
  after one substitution; a word with an animation shows it for 3 seconds,
  any other word a text card for 2.5 seconds.

  The DOM, the timers and the speech engine are not modelled: a display is
  the value that would be drawn, the delays are numbers in it, and what the
  engine does (raising on `start`, reporting an error) is an input.
 */
module VoiceToSign {
  import opened Optional
  import opened TextUtil
  import opened SignTables

  /** Milliseconds between two scheduled words. */
  const WordGap: nat := 2500

  /** Milliseconds an animation stays before the area is reset. */
  const GifShown: nat := 3000

  /** Milliseconds a text card stays before the area is reset. */
  const CardShown: nat := 2500

  const NoAnimationNote: string := "No animation available"

  /** The text the transcription area holds before anything was said. */
  const Placeholder: string := "Your speech will appear here..."

  /** What `displayGifForWord` draws: an animation or a text card, each
      labelled with the word in capitals and reset after a while. */
  datatype Display =
    | Gif(path: string, caption: string, resetAfter: nat)
    | TextCard(caption: string, note: string, resetAfter: nat)

  /** `displayGifForWord`: the word lower-cased, substituted once, and
      looked up. */
  function DisplayFor(v: Vocabulary, word: string): (d: Display)
    ensures d.caption == Upper(word)
    ensures d.Gif? <==> AnimationFor(v, Variation(v, Lower(word))) != ""
    ensures d.Gif? ==> d.path == v.animations[Variation(v, Lower(word))] && d.resetAfter == GifShown
    ensures d.TextCard? ==> d.note == NoAnimationNote && d.resetAfter == CardShown
  {
    var key := Variation(v, Lower(word));
    var path := AnimationFor(v, key);
    if path != "" then Gif(path, Upper(word), GifShown) else TextCard(Upper(word), NoAnimationNote, CardShown)
  }

  /** The first phrase of `phrases`, in list order, that occurs in `text`. */
  function FirstPhrase(phrases: seq<string>, text: string): (r: Option<string>)
    ensures r.None? <==> forall j :: 0 <= j < |phrases| ==> !Contains(text, phrases[j])
    ensures r.Some? ==>
      exists k :: 0 <= k < |phrases| && phrases[k] == r.value && Contains(text, r.value)
        && forall j :: 0 <= j < k ==> !Contains(text, phrases[j])
  {
    if phrases == [] then None
    else if Contains(text, phrases[0]) then Some(phrases[0])
    else
      var r := FirstPhrase(phrases[1..], text);
      assert forall j :: 1 <= j < |phrases| ==> phrases[1..][j - 1] == phrases[j];
      r
  }

  /** `word.replace(/[^\w']/g, '')`. */
  function Clean(word: string): (r: string)
    ensures |r| <= |word|
    ensures forall j :: 0 <= j < |r| ==> IsWordChar(r[j]) || r[j] == '\''
  {
    if word == [] then []
    else
      var c := word[|word| - 1];
      Clean(word[..|word| - 1]) + (if IsWordChar(c) || c == '\'' then [c] else [])
  }

  /** Cleaning works character by character: cleaning two pieces and
      putting them together gives the cleaning of the whole. */
  lemma {:induction false} CleanAppend(a: string, b: string)
    ensures Clean(a + b) == Clean(a) + Clean(b)
    decreases |b|
  {
    if b == [] {
      assert a + b == a;
    } else {
      var b' := b[..|b| - 1];
      assert (a + b)[..|a + b| - 1] == a + b';
      assert (a + b)[|a + b| - 1] == b[|b| - 1];
      CleanAppend(a, b');
    }
  }

  /** A single character survives cleaning exactly when it is a word
      character or an apostrophe. */
  lemma CleanChar(c: char)
    ensures Clean([c]) == if IsWordChar(c) || c == '\'' then [c] else []
  {
    assert [c][..0] == [];
  }

  /** Cleaning leaves nothing exactly when no character is a word character
      or an apostrophe. */
  lemma {:induction false} CleanEmptyIff(word: string)
    ensures Clean(word) == [] <==> forall j :: 0 <= j < |word| ==> !IsWordChar(word[j]) && word[j] != '\''
    decreases |word|
  {
    if word != [] {
      var w' := word[..|word| - 1];
      CleanEmptyIff(w');
      assert forall j :: 0 <= j < |w'| ==> w'[j] == word[j];
    }
  }

  /** Cleaning a cleaned word changes nothing. */
  lemma {:induction false} CleanIdempotent(word: string)
    ensures Clean(Clean(word)) == Clean(word)
  {
    CleanKeepsClean(Clean(word));
  }

  /** A word of only word characters and apostrophes is its own cleaning. */
  lemma {:induction false} CleanKeepsClean(word: string)
    requires forall j :: 0 <= j < |word| ==> IsWordChar(word[j]) || word[j] == '\''
    ensures Clean(word) == word
  {
    if word != [] {
      CleanKeepsClean(word[..|word| - 1]);
    }
  }

  /** A word shown by `displayAnimationsForWords`: its position among the
      split words, when it is shown (milliseconds after the transcript) and
      the cleaned word, which is then drawn as `DisplayFor` says. */
  datatype Scheduled = Scheduled(slot: nat, delay: nat, word: string)

  /** `item` is the word at its slot of `cleaned`, shown when its turn
      comes. */
  predicate ScheduledAt(cleaned: seq<string>, item: Scheduled)
  {
    item.slot < |cleaned| && item.delay == item.slot * WordGap
    && item.word == cleaned[item.slot] && item.word != ""
  }

  /** Every word, cleaned. */
  function CleanEach(words: seq<string>): (r: seq<string>)
    ensures |r| == |words|
  {
    seq(|words|, i requires 0 <= i < |words| => Clean(words[i]))
  }

  /** What the `i`-th cleaned word adds to the schedule: itself at its
      slot, or nothing when cleaning left nothing. */
  function SlotItems(cleaned: seq<string>, i: nat): (r: seq<Scheduled>)
    requires i < |cleaned|
    ensures |r| <= 1
    ensures |r| == 1 <==> cleaned[i] != ""
    ensures |r| == 1 ==> r[0].slot == i
  {
    if cleaned[i] != "" then [Scheduled(i, i * WordGap, cleaned[i])] else []
  }

  /** The first `n` cleaned words that are not empty, each at its
      position, in order. */
  function ScheduleUpTo(cleaned: seq<string>, n: nat): (r: seq<Scheduled>)
    requires n <= |cleaned|
    ensures |r| <= n
  {
    if n == 0 then [] else ScheduleUpTo(cleaned, n - 1) + SlotItems(cleaned, n - 1)
  }

  /** Every scheduled item shows one of the first `n` words at its slot. */
  lemma {:induction false} ScheduleSound(cleaned: seq<string>, n: nat)
    requires n <= |cleaned|
    ensures forall k :: 0 <= k < |ScheduleUpTo(cleaned, n)| ==>
      ScheduledAt(cleaned, ScheduleUpTo(cleaned, n)[k]) && ScheduleUpTo(cleaned, n)[k].slot < n
  {
    if n > 0 {
      ScheduleSound(cleaned, n - 1);
      var front := ScheduleUpTo(cleaned, n - 1);
      var last := SlotItems(cleaned, n - 1);
      var r: seq<Scheduled> := front + last;
      assert ScheduleUpTo(cleaned, n) == r;
      forall k | 0 <= k < |r|
        ensures ScheduledAt(cleaned, r[k]) && r[k].slot < n
      {
        if k < |front| {
          assert r[k] == front[k];
        } else {
          assert r[k] == last[0];
        }
      }
    }
  }

  /** The scheduled words keep the order they were said in. */
  lemma {:induction false} ScheduleOrdered(cleaned: seq<string>, n: nat)
    requires n <= |cleaned|
    ensures forall k1, k2 :: 0 <= k1 < k2 < |ScheduleUpTo(cleaned, n)| ==>
      ScheduleUpTo(cleaned, n)[k1].slot < ScheduleUpTo(cleaned, n)[k2].slot
  {
    if n > 0 {
      ScheduleOrdered(cleaned, n - 1);
      ScheduleSound(cleaned, n - 1);
      var front := ScheduleUpTo(cleaned, n - 1);
      var last := SlotItems(cleaned, n - 1);
      var r: seq<Scheduled> := front + last;
      assert ScheduleUpTo(cleaned, n) == r;
      forall k1, k2 | 0 <= k1 < k2 < |r|
        ensures r[k1].slot < r[k2].slot
      {
        assert r[k1].slot == front[k1].slot < n - 1;
        if k2 < |front| {
          assert r[k2].slot == front[k2].slot;
        } else {
          assert r[k2].slot == last[0].slot == n - 1;
        }
      }
    }
  }

  /** Every word that survives cleaning is scheduled, at its own slot. */
  lemma {:induction false} ScheduleComplete(cleaned: seq<string>, n: nat, i: nat) returns (k: nat)
    requires i < n <= |cleaned| && cleaned[i] != ""
    ensures k < |ScheduleUpTo(cleaned, n)| && ScheduleUpTo(cleaned, n)[k].slot == i
  {
    var front := ScheduleUpTo(cleaned, n - 1);
    var last := SlotItems(cleaned, n - 1);
    var r: seq<Scheduled> := front + last;
    assert ScheduleUpTo(cleaned, n) == r;
    if i == n - 1 {
      k := |front|;
      assert r[k] == last[0];
    } else {
      k := ScheduleComplete(cleaned, n - 1, i);
      assert r[k] == front[k];
    }
  }

  /** `displayAnimationsForWords`: the `i`-th word, cleaned, is shown after
      `i` times 2.5 seconds unless cleaning leaves nothing; a skipped word
      still takes its slot. */
  function Schedule(words: seq<string>): seq<Scheduled>
  {
    ScheduleUpTo(CleanEach(words), |words|)
  }

  /** The schedule is exactly the surviving words: each shown at its
      position times 2.5 seconds, in the order they were said, and none
      left out. */
  lemma ScheduleExact(words: seq<string>)
    ensures forall k :: 0 <= k < |Schedule(words)| ==>
      var item := Schedule(words)[k];
      item.slot < |words| && item.delay == item.slot * WordGap && item.word == Clean(words[item.slot]) != ""
    ensures forall k1, k2 :: 0 <= k1 < k2 < |Schedule(words)| ==>
      Schedule(words)[k1].delay < Schedule(words)[k2].delay
    ensures forall i :: 0 <= i < |words| && Clean(words[i]) != "" ==>
      exists k :: 0 <= k < |Schedule(words)| && Schedule(words)[k].slot == i
  {
    var cleaned := CleanEach(words);
    var r := Schedule(words);
    assert r == ScheduleUpTo(cleaned, |words|);
    ScheduleSound(cleaned, |words|);
    ScheduleOrdered(cleaned, |words|);
    forall i | 0 <= i < |words| && Clean(words[i]) != ""
      ensures exists k :: 0 <= k < |r| && r[k].slot == i
    {
      assert cleaned[i] == Clean(words[i]);
      var k := ScheduleComplete(cleaned, |words|, i);
    }
  }

  /** What a final transcript leads to. */
  datatype Plan =
    | PhraseShown(phrase: string, display: Display)
    | WordsScheduled(items: seq<Scheduled>)

  /** `processTranscription`, apart from the transcription area. */
  function PlanFor(v: Vocabulary, text: string): Plan
  {
    var lower := Lower(text);
    match FirstPhrase(v.phrases, lower)
    case Some(p) => PhraseShown(p, DisplayFor(v, p))
    case None => WordsScheduled(Schedule(SplitOnSpaceRuns(lower)))
  }

  /** A transcript containing a listed phrase shows exactly that phrase,
      the first listed one it contains, and no word is scheduled; any other
      transcript schedules its words. */
  lemma PlanCases(v: Vocabulary, text: string)
    ensures PlanFor(v, text).PhraseShown? <==>
      exists j :: 0 <= j < |v.phrases| && Contains(Lower(text), v.phrases[j])
    ensures PlanFor(v, text).PhraseShown? ==>
      var p := PlanFor(v, text).phrase;
      p in v.phrases && Contains(Lower(text), p) && PlanFor(v, text).display == DisplayFor(v, p)
    ensures PlanFor(v, text).WordsScheduled? ==>
      PlanFor(v, text).items == Schedule(SplitOnSpaceRuns(Lower(text)))
  {
  }

  /** What the transcription area shows after `text` arrives. */
  function Shown(current: string, text: string): (r: string)
    ensures |text| <= |r| && r[|r| - |text|..] == text
  {
    if current == Placeholder then text else current + " " + text
  }

  /** From the placeholder, successive transcripts are shown joined by
      single spaces. */
  lemma ShownJoins(a: string, b: string)
    ensures Shown(Shown(Placeholder, a), b) == if a == Placeholder then b else a + " " + b
  {
  }

  // ---------------------------------------------------------------------
  // The listening flag.

  const NotSupportedMessage: string := "Speech recognition not supported in this browser"
  const InitFailedMessage: string := "Failed to initialize speech recognition"
  const ListeningMessage: string := "Listening... Speak now!"
  const DeniedMessage: string := "Microphone access denied. Please allow microphone access."
  const UnavailableMessage: string := "Speech recognition not available"
  const StartingMessage: string := "Starting microphone..."

  /** The status message of a recogniser error other than `'no-speech'`. */
  function ErrorMessage(error: string): string
  {
    if error == "not-allowed" then DeniedMessage else "Speech recognition error: " + error
  }

  /** What `startListening` did. */
  datatype StartOutcome = Initialising | Unavailable | Stopped | Starting | StartFailed

  class Listener {
    var initialized: bool
    var hasRecognizer: bool
    var isListening: bool
    /** The last status message shown, if any. */
    var status: Option<string>

    /** Listening needs a recogniser. */
    ghost predicate Valid()
      reads this
    {
      isListening ==> hasRecognizer
    }

    constructor()
      ensures Valid()
      ensures !initialized && !hasRecognizer && !isListening && status == None
    {
      initialized := false;
      hasRecognizer := false;
      isListening := false;
      status := None;
    }

    /** `initSpeechRecognition`. `supported` says the browser has a speech
        engine, `constructs` that creating and configuring it succeeds. */
    method Init(supported: bool, constructs: bool)
      requires Valid()
      modifies this
      ensures Valid()
      ensures !supported ==>
        status == Some(NotSupportedMessage) && unchanged(this`initialized, this`hasRecognizer, this`isListening)
      ensures supported && !constructs ==>
        status == Some(InitFailedMessage) && unchanged(this`initialized, this`hasRecognizer, this`isListening)
      ensures supported && constructs ==>
        initialized && hasRecognizer && isListening == old(isListening) && status == old(status)
    {
      if !supported {
        status := Some(NotSupportedMessage);
        return;
      }
      if !constructs {
        status := Some(InitFailedMessage);
        return;
      }
      hasRecognizer := true;
      initialized := true;
    }

    /** `onstart`. */
    method OnStart()
      requires Valid() && hasRecognizer
      modifies this
      ensures Valid()
      ensures isListening && status == Some(ListeningMessage)
      ensures unchanged(this`initialized, this`hasRecognizer)
    {
      isListening := true;
      status := Some(ListeningMessage);
    }

    /** `onerror`: `'no-speech'` is ignored; any other error stops
        listening and says why. */
    method OnError(error: string)
      requires Valid()
      modifies this
      ensures Valid()
      ensures error == "no-speech" ==> unchanged(this)
      ensures error != "no-speech" ==> !isListening && status == Some(ErrorMessage(error))
      ensures unchanged(this`initialized, this`hasRecognizer)
    {
      if error == "no-speech" {
        return;
      }
      isListening := false;
      status := Some(ErrorMessage(error));
    }

    /** `onend`: while listening the engine is restarted; a restart that
        raises stops listening. */
    method OnEnd(restartThrows: bool) returns (restarted: bool)
      requires Valid()
      modifies this
      ensures Valid()
      ensures restarted <==> old(isListening) && !restartThrows
      ensures isListening == restarted
      ensures unchanged(this`initialized, this`hasRecognizer, this`status)
    {
      restarted := false;
      if isListening {
        if restartThrows {
          isListening := false;
        } else {
          restarted := true;
        }
      }
    }

    /** `stopListening`: only a listening recogniser is stopped; a stop
        that raises changes nothing. */
    method StopListening(stopThrows: bool)
      requires Valid()
      modifies this
      ensures Valid()
      ensures old(hasRecognizer && isListening) && !stopThrows ==> !isListening
      ensures !(old(hasRecognizer && isListening) && !stopThrows) ==> isListening == old(isListening)
      ensures unchanged(this`initialized, this`hasRecognizer, this`status)
    {
      if hasRecognizer && isListening {
        if !stopThrows {
          isListening := false;
        }
      }
    }

    /** `startListening`. Before initialisation it initialises and is
        called again a second later (`Initialising`); without a recogniser
        it gives up; while listening it stops instead; otherwise it starts
        the engine, whose `onstart` later sets the flag. */
    method StartListening(supported: bool, constructs: bool, stopThrows: bool, startThrows: bool, error: string)
      returns (outcome: StartOutcome)
      requires Valid()
      modifies this
      ensures Valid()
      ensures !old(initialized) ==> outcome == Initialising && isListening == old(isListening)
      // Before initialisation, the three outcomes of `Init`.
      ensures !old(initialized) && !supported ==>
        status == Some(NotSupportedMessage) && unchanged(this`initialized, this`hasRecognizer)
      ensures !old(initialized) && supported && !constructs ==>
        status == Some(InitFailedMessage) && unchanged(this`initialized, this`hasRecognizer)
      ensures !old(initialized) && supported && constructs ==>
        initialized && hasRecognizer && status == old(status)
      ensures old(initialized) ==> unchanged(this`initialized, this`hasRecognizer)
      ensures old(initialized) && !old(hasRecognizer) ==>
        outcome == Unavailable && status == Some(UnavailableMessage) && !isListening
      ensures old(initialized && hasRecognizer && isListening) ==>
        outcome == Stopped && isListening == stopThrows && status == old(status)
      ensures old(initialized && hasRecognizer && !isListening) && !startThrows ==>
        outcome == Starting && !isListening && status == Some(StartingMessage)
      ensures old(initialized && hasRecognizer && !isListening) && startThrows ==>
        outcome == StartFailed && !isListening && status == Some("Error: " + error)
    {
      if !initialized {
        Init(supported, constructs);
        return Initialising;
      }
      if !hasRecognizer {
        status := Some(UnavailableMessage);
        return Unavailable;
      }
      if isListening {
        StopListening(stopThrows);
        return Stopped;
      }
      if startThrows {
        isListening := false;
        status := Some("Error: " + error);
        return StartFailed;
      }
      status := Some(StartingMessage);
      return Starting;
    }
  }
}

/**
  The tables of static/voice-to-asl.js. The word-to-animation table is an
  object literal with repeated keys, in which a later key replaces an
  earlier one; a Dafny map display and map union do the same.
 */
module VoiceTables {
  import opened TextUtil
  import opened SignTables
  import opened VoiceToSign

  const GifsPart0: map<string, string> := map[
    "hello" := "/static/animations/hello.gif",
    "hi" := "/static/animations/hello.gif",
    "goodbye" := "/static/animations/goodbye.gif",
    "bye" := "/static/animations/goodbye.gif",
    "thank you" := "/static/animations/thank-you.gif",
    "thanks" := "/static/animations/thank-you.gif",
    "please" := "/static/animations/please.gif",
    "yes" := "/static/animations/yes.gif",
    "no" := "/static/animations/no.gif",
    "sorry" := "/static/animations/sorry.gif"
  ]

  const GifsPart1: map<string, string> := map[
    "help" := "/static/animations/help.gif",
    "love" := "/static/animations/i-love-you.gif",
    "happy" := "/static/animations/happy.gif",
    "sad" := "/static/animations/sad.gif",
    "good" := "/static/animations/good.gif",
    "bad" := "/static/animations/bad.gif",
    "water" := "/static/animations/water.gif",
    "food" := "/static/animations/food.gif",
    "eat" := "/static/animations/eat.gif",
    "drink" := "/static/animations/drink.gif"
  ]

  const GifsPart2: map<string, string> := map[
    "sleep" := "/static/animations/sleep.gif",
    "home" := "/static/animations/home.gif",
    "family" := "/static/animations/family.gif",
    "friend" := "/static/animations/friend.gif",
    "me" := "/static/animations/me.gif",
    "go" := "/static/animations/go.gif",
    "walk" := "/static/animations/walk.gif",
    "back" := "/static/animations/back.gif",
    "you" := "/static/animations/you.gif",
    "to" := "/static/animations/to.gif"
  ]

  const GifsPart3: map<string, string> := map[
    "work" := "/static/animations/work.gif",
    "name" := "/static/animations/name.gif",
    "meet" := "/static/animations/meet.gif",
    "nice" := "/static/animations/nice.gif",
    "here" := "/static/animations/here.gif",
    "goodbye" := "/static/animations/bye.gif",
    "want" := "/static/animations/want.gif",
    "how are you" := "/static/animations/how-are-you.gif",
    "appluase" := "/static/animations/applause.gif",
    "i love you" := "/static/animations/i-love-you.gif"
  ]

  const GifsPart4: map<string, string> := map[
    "good morning" := "/static/animations/good-morning.gif",
    "nice to meet you" := "/static/animations/nice-to-meet-you.gif",
    "Pardon" := "/static/animations/Pardon.gif",
    "hi" := "/static/animations/hi.gif",
    "good night" := "/static/animations/goodnight.gif",
    "good afternoon" := "/static/animations/afternoon.gif",
    "are you here" := "/static/animations/here.gif",
    "excuse me" := "/static/animations/excuse.gif",
    "see you again" := "/static/animations/again.gif"
  ]

  /** The word-to-animation table: the literal's entries in their order, in
      five consecutive slices joined by map union, whose right operand wins
      as a later key of an object literal does. */
  const Gifs: map<string, string> := GifsPart0 + GifsPart1 + GifsPart2 + GifsPart3 + GifsPart4

  const Phrases: seq<string> := [
    "how are you", "nice to meet you", "thank you", "i love you", "good morning",
    "good night", "good afternoon", "good evening", "excuse me", "are you here",
    "see you again", "you are welcome", "what is your name", "pleased to meet you"
  ]

  const Variations: map<string, string> := map[
    "hi" := "hello", "hey" := "hello", "greetings" := "hello",
    "bye" := "goodbye", "farewell" := "goodbye",
    "thanks" := "thank you", "thank" := "thank you", "thx" := "thank you",
    "plz" := "please",
    "yeah" := "yes", "yep" := "yes", "yup" := "yes",
    "nope" := "no", "nah" := "no",
    "want" := "wanna"
  ]

  function Voice(): Vocabulary
  {
    Vocabulary(Phrases, Variations, Gifs)
  }

  lemma GoodbyeInPart3()
    ensures "goodbye" in GifsPart3 && GifsPart3["goodbye"] == "/static/animations/bye.gif"
  {
  }

  lemma NoGoodbyeInPart4()
    ensures "goodbye" !in GifsPart4
  {
  }

  lemma HiInPart4()
    ensures "hi" in GifsPart4 && GifsPart4["hi"] == "/static/animations/hi.gif"
  {
  }

  /** The second `'goodbye'` is the one kept. */
  lemma RepeatedGoodbyeKeepsLast()
    ensures Gifs["goodbye"] == "/static/animations/bye.gif"
  {
    GoodbyeInPart3();
    NoGoodbyeInPart4();
  }

  /** The second `'hi'` is the one kept. */
  lemma RepeatedHiKeepsLast()
    ensures Gifs["hi"] == "/static/animations/hi.gif"
  {
    HiInPart4();
  }

  /** No lower-cased word reaches the capitalised `'Pardon'` entry. */
  lemma PardonUnreachable(word: string)
    ensures Lower(word) != "Pardon"
  {
    if |word| == 6 {
      assert Lower(word)[0] != 'P';
    }
  }

  lemma NoWannaInPart0()
    ensures "wanna" !in GifsPart0
  {
  }

  lemma NoWannaInPart1()
    ensures "wanna" !in GifsPart1
  {
  }

  lemma NoWannaInPart2()
    ensures "wanna" !in GifsPart2
  {
  }

  lemma NoWannaInPart3()
    ensures "wanna" !in GifsPart3
  {
  }

  lemma NoWannaInPart4()
    ensures "wanna" !in GifsPart4
  {
  }

  /** `'want'` is substituted by `'wanna'`, which has no animation, so the
      animation listed for `'want'` is never shown. */
  lemma WantShowsNoAnimation()
    ensures Variation(Voice(), "want") == "wanna"
    ensures AnimationFor(Voice(), "wanna") == ""
    ensures DisplayFor(Voice(), "want").TextCard?
  {
    assert Lower("want") == "want" by {
      assert forall j :: 0 <= j < 4 ==> Lower("want")[j] == "want"[j];
    }
    NoWannaInPart0();
    NoWannaInPart1();
    NoWannaInPart2();
    NoWannaInPart3();
    NoWannaInPart4();
  }
}
