/**
  The backend's text-to-sign conversion (`convert_text_to_asl`).

  The text is stripped and lower-cased, every character that is neither a
  word character, white space nor an apostrophe becomes a space, white-space
  runs collapse, and the result is split into tokens. The tokens are then
  scanned left to right: at each position not yet consumed, the longest run
  of six down to two tokens that is a listed multi-word phrase is emitted as
  one item; otherwise the single token is emitted after one substitution
  through the variations table. Every item gets the path of its animation,
  or the empty string when there is none.

  `Convert` is the specification; `ConvertTextToAsl` is the loop of the
  source, proved to compute it.
 */
module TextToSign {
  import opened TextUtil
  import opened SignTables

  /** The longest run of tokens tried as a phrase. */
  const MaxPhraseTokens: nat := 6

  const NoTextError := "No text provided"
  const NoValidTextError := "No valid text after cleaning"

  const MultiWordPhrases: seq<string> := [
    "nice to meet you",
    "are you here",
    "see you again",
    "see you later",
    "how are you",
    "thank you",
    "i love you",
    "good morning",
    "good night",
    "good afternoon",
    "good evening",
    "excuse me",
    "you are welcome",
    "what is your name",
    "pleased to meet you"
  ]

  const WordToGif: map<string, string> := map[
    "hello" := "/static/animations/hello.gif",
    "hi" := "/static/animations/hello.gif",
    "goodbye" := "/static/animations/goodbye.gif",
    "bye" := "/static/animations/goodbye.gif",
    "thank you" := "/static/animations/thank-you.gif",
    "thanks" := "/static/animations/thank-you.gif",
    "please" := "/static/animations/please.gif",
    "yes" := "/static/animations/yes.gif",
    "no" := "/static/animations/no.gif",
    "sorry" := "/static/animations/sorry.gif",
    "want" := "/static/animations/want.gif",
    "help" := "/static/animations/help.gif",
    "love" := "/static/animations/i-love-you.gif",
    "happy" := "/static/animations/happy.gif",
    "sad" := "/static/animations/sad.gif",
    "good" := "/static/animations/good.gif",
    "bad" := "/static/animations/bad.gif",
    "water" := "/static/animations/water.gif",
    "food" := "/static/animations/food.gif",
    "eat" := "/static/animations/eat.gif",
    "drink" := "/static/animations/drink.gif",
    "sleep" := "/static/animations/sleep.gif",
    "home" := "/static/animations/home.gif",
    "family" := "/static/animations/family.gif",
    "friend" := "/static/animations/friend.gif",
    "go" := "/static/animations/go.gif",
    "me" := "/static/animations/me.gif",
    "to" := "/static/animations/to.gif",
    "walk" := "/static/animations/walk.gif",
    "back" := "/static/animations/back.gif",
    "you" := "/static/animations/you.gif",
    "work" := "/static/animations/work.gif",
    "name" := "/static/animations/name.gif",
    "meet" := "/static/animations/meet.gif",
    "nice" := "/static/animations/nice.gif",
    "here" := "/static/animations/here.gif",
    "how are you" := "/static/animations/how-are-you.gif",
    "applause" := "/static/animations/applause.gif",
    "i love you" := "/static/animations/i-love-you.gif",
    "good morning" := "/static/animations/good-morning.gif",
    "nice to meet you" := "/static/animations/nice-to-meet-you.gif",
    "pardon" := "/static/animations/Pardon.gif",
    "good night" := "/static/animations/goodnight.gif",
    "good afternoon" := "/static/animations/afternoon.gif",
    "are you here" := "/static/animations/here.gif",
    "see you again" := "/static/animations/again.gif"
  ]

  const Variations: map<string, string> := map[
    "hi" := "hello",
    "hey" := "hello",
    "greetings" := "hello",
    "bye" := "goodbye",
    "farewell" := "goodbye",
    "thanks" := "thank you",
    "thank" := "thank you",
    "thx" := "thank you",
    "plz" := "please",
    "yeah" := "yes",
    "yep" := "yes",
    "yup" := "yes",
    "nope" := "no",
    "nah" := "no",
    "wanna" := "want"
  ]

  /** The backend's tables. */
  const Backend := Vocabulary(MultiWordPhrases, Variations, WordToGif)

  function Min(a: nat, b: nat): nat
  {
    if a <= b then a else b
  }

  /** `re.sub(r"[^\w\s']", ' ', s)`. */
  function MaskSymbols(s: string): string
  {
    seq(|s|, i requires 0 <= i < |s| =>
      if IsWordChar(s[i]) || IsSpace(s[i], Python) || s[i] == '\'' then s[i] else ' ')
  }

  /** `re.sub(r'\s+', ' ', s)`. */
  function CollapseSpaces(s: string): (r: string)
    ensures r == [] <==> s == []
    ensures s != [] && !IsSpace(s[0], Python) ==> r[0] == s[0]
    decreases |s|
  {
    if s == [] then []
    else if IsSpace(s[0], Python) then " " + CollapseSpaces(s[LeadingSpaces(s, Python)..])
    else [s[0]] + CollapseSpaces(s[1..])
  }

  /** The text after the two substitutions and the strip between them. */
  function Cleaned(t: string): string
  {
    CollapseSpaces(Strip(MaskSymbols(Lower(t)), Python))
  }

  /** A run of `len` tokens starting at token `start`: one emitted item. */
  datatype Span = Span(start: nat, len: nat)

  /** Tokens `i` to `i + l` spell a listed phrase. */
  predicate IsPhraseAt(v: Vocabulary, tokens: seq<string>, i: nat, l: nat)
  {
    i + l <= |tokens| && Join(tokens[i..i + l], " ") in v.phrases
  }

  /** The phrase length chosen at token `i` when lengths `len` down to 2 are
      still to be tried: the longest of them that spells a listed phrase, or
      1 when none does. */
  function PhraseLenFrom(v: Vocabulary, tokens: seq<string>, i: nat, len: nat): (r: nat)
    requires 1 <= len && i + len <= |tokens|
    ensures 1 <= r <= len
    ensures r >= 2 ==> IsPhraseAt(v, tokens, i, r)
    ensures forall l :: r < l <= len && l >= 2 ==> !IsPhraseAt(v, tokens, i, l)
    decreases len
  {
    if len < 2 then 1
    else if Join(tokens[i..i + len], " ") in v.phrases then len
    else PhraseLenFrom(v, tokens, i, len - 1)
  }

  /** How many tokens the item at token `i` consumes. */
  function PhraseLen(v: Vocabulary, tokens: seq<string>, i: nat): nat
    requires i < |tokens|
  {
    PhraseLenFrom(v, tokens, i, Min(MaxPhraseTokens, |tokens| - i))
  }

  /** The item a span emits: the phrase itself, or the single token after
      one variation. */
  function WordOf(v: Vocabulary, tokens: seq<string>, sp: Span): string
    requires 1 <= sp.len && sp.start + sp.len <= |tokens|
  {
    if sp.len >= 2 then Join(tokens[sp.start..sp.start + sp.len], " ")
    else Variation(v, tokens[sp.start])
  }

  /** The scan from token `i` on, after the items `acc` have been emitted. */
  function ScanAcc(v: Vocabulary, tokens: seq<string>, i: nat, acc: seq<string>): seq<string>
    requires i <= |tokens|
    decreases |tokens| - i
  {
    if i == |tokens| then acc
    else
      var n := PhraseLen(v, tokens, i);
      ScanAcc(v, tokens, i + n, acc + [WordOf(v, tokens, Span(i, n))])
  }

  /** The animation list sent alongside the items. */
  function AnimationsOf(v: Vocabulary, words: seq<string>): seq<string>
  {
    seq(|words|, k requires 0 <= k < |words| => AnimationFor(v, words[k]))
  }

  /** The set `{0, ..., n - 1}` of consumed token indices. */
  function Indices(n: nat): (r: set<int>)
    ensures forall j :: j in r <==> 0 <= j < n
  {
    if n == 0 then {} else Indices(n - 1) + {n - 1}
  }

  /** The backend's response, as a value. */
  datatype Conversion = Converted(words: seq<string>, animations: seq<string>) | Failed(error: string)

  /** The text after stripping and lower-casing. */
  function Prepared(text: string): string
  {
    Lower(Strip(text, Python))
  }

  /** The specification of the conversion. */
  function Convert(v: Vocabulary, text: string): Conversion
  {
    var t := Prepared(text);
    if t == [] then Failed(NoTextError)
    else if Cleaned(t) == [] then Failed(NoValidTextError)
    else
      var words := ScanAcc(v, Split(Cleaned(t)), 0, []);
      Converted(words, AnimationsOf(v, words))
  }

  /** The inner search of the scan: phrase lengths from the longest allowed
      down to 2, stopping at the first listed phrase. */
  method LongestPhraseAt(v: Vocabulary, tokens: seq<string>, i: nat) returns (phraseLen: nat, matched: bool)
    requires i < |tokens|
    ensures matched <==> phraseLen >= 2
    ensures phraseLen == PhraseLen(v, tokens, i)
  {
    phraseLen := Min(MaxPhraseTokens, |tokens| - i);
    matched := false;
    while phraseLen > 1 && !matched
      invariant 1 <= phraseLen <= Min(MaxPhraseTokens, |tokens| - i)
      invariant !matched ==> PhraseLen(v, tokens, i) == PhraseLenFrom(v, tokens, i, phraseLen)
      invariant matched ==> PhraseLen(v, tokens, i) == phraseLen >= 2
      decreases phraseLen, if matched then 0 else 1
    {
      var candidate := Join(tokens[i..i + phraseLen], " ");
      if candidate in v.phrases {
        matched := true;
      } else {
        phraseLen := phraseLen - 1;
      }
    }
  }

  /** The body of the scan at an unconsumed token `i`: the phrase search,
      the item it emits, and the consumed indices marked one by one. */
  method ItemAt(v: Vocabulary, tokens: seq<string>, i: nat, used: set<int>)
    returns (word: string, phraseLen: nat, used': set<int>)
    requires i < |tokens| && used == Indices(i)
    ensures phraseLen == PhraseLen(v, tokens, i)
    ensures word == WordOf(v, tokens, Span(i, phraseLen))
    ensures used' == Indices(i + phraseLen)
  {
    var matched;
    phraseLen, matched := LongestPhraseAt(v, tokens, i);
    used' := used;
    if matched {
      word := Join(tokens[i..i + phraseLen], " ");
      for j := i to i + phraseLen
        invariant used' == Indices(j)
      {
        used' := used' + {j};
      }
    } else {
      word := Variation(v, tokens[i]);
      used' := used' + {i};
    }
  }

  /** The scan of the conversion as the source runs it: every index is
      visited, and those already consumed by a phrase are skipped. */
  method Scan(v: Vocabulary, tokens: seq<string>) returns (words: seq<string>, animations: seq<string>)
    ensures words == ScanAcc(v, tokens, 0, [])
    ensures animations == AnimationsOf(v, words)
  {
    words := [];
    animations := [];
    var used: set<int> := {};
    ghost var cover := 0;
    var i := 0;
    while i < |tokens|
      invariant 0 <= i <= cover <= |tokens|
      invariant used == Indices(cover)
      invariant ScanAcc(v, tokens, 0, []) == ScanAcc(v, tokens, cover, words)
      invariant animations == AnimationsOf(v, words)
    {
      if i !in used {
        var word, phraseLen;
        word, phraseLen, used := ItemAt(v, tokens, i, used);
        assert i == cover;
        assert AnimationsOf(v, words + [word]) == animations + [AnimationFor(v, word)];
        words := words + [word];
        animations := animations + [AnimationFor(v, word)];
        cover := i + phraseLen;
      }
      i := i + 1;
    }
  }

  /** `convert_text_to_asl` over the given tables: the two error responses,
      then the scan. */
  method ConvertWith(v: Vocabulary, text: string) returns (r: Conversion)
    ensures r == Convert(v, text)
  {
    var t := Lower(Strip(text, Python));
    if t == [] {
      return Failed(NoTextError);
    }
    var cleaned := Cleaned(t);
    if cleaned == [] {
      return Failed(NoValidTextError);
    }
    var words, animations := Scan(v, Split(cleaned));
    r := Converted(words, animations);
  }

  /** `convert_text_to_asl` with the backend's own tables. */
  method ConvertTextToAsl(text: string) returns (r: Conversion)
    ensures r == Convert(Backend, text)
  {
    r := ConvertWith(Backend, text);
  }

  // ---------------------------------------------------------------------
  // What the scan means: a tiling of the tokens by greedy spans.

  /** The scan from token `i` on, as token runs. */
  function SpansFrom(v: Vocabulary, tokens: seq<string>, i: nat): (spans: seq<Span>)
    requires i <= |tokens|
    decreases |tokens| - i
  {
    if i == |tokens| then []
    else
      var n := PhraseLen(v, tokens, i);
      [Span(i, n)] + SpansFrom(v, tokens, i + n)
  }

  /** `spans` cut the token positions `from` up to `to` into consecutive,
      non-empty runs, in order. */
  predicate Tiles(spans: seq<Span>, from: nat, to: nat)
    decreases |spans|
  {
    if spans == [] then from == to
    else 1 <= spans[0].len && spans[0].start == from && Tiles(spans[1..], from + spans[0].len, to)
  }

  /** Every span lies inside the tokens and is not empty. */
  predicate InBounds(tokens: seq<string>, spans: seq<Span>)
  {
    forall k :: 0 <= k < |spans| ==> 1 <= spans[k].len && spans[k].start + spans[k].len <= |tokens|
  }

  lemma InBoundsTail(tokens: seq<string>, spans: seq<Span>)
    requires InBounds(tokens, spans) && spans != []
    ensures InBounds(tokens, spans[1..])
  {
    forall k | 0 <= k < |spans[1..]|
      ensures 1 <= spans[1..][k].len && spans[1..][k].start + spans[1..][k].len <= |tokens|
    {
      assert spans[1..][k] == spans[k + 1];
    }
  }

  /** The items the spans emit, in order. */
  function WordsOf(v: Vocabulary, tokens: seq<string>, spans: seq<Span>): (words: seq<string>)
    requires InBounds(tokens, spans)
    ensures |words| == |spans|
    decreases |spans|
  {
    if spans == [] then []
    else
      InBoundsTail(tokens, spans);
      [WordOf(v, tokens, spans[0])] + WordsOf(v, tokens, spans[1..])
  }

  /** The spans tile the tokens from `i` to the end: every token is consumed
      by exactly one item, in order. */
  lemma {:induction false} SpansTile(v: Vocabulary, tokens: seq<string>, i: nat)
    requires i <= |tokens|
    ensures Tiles(SpansFrom(v, tokens, i), i, |tokens|)
    decreases |tokens| - i
  {
    if i < |tokens| {
      var n := PhraseLen(v, tokens, i);
      SpansTile(v, tokens, i + n);
      assert SpansFrom(v, tokens, i)[1..] == SpansFrom(v, tokens, i + n);
    }
  }

  /** Each span is the greedy choice at its start: the longest listed
      phrase of at most six tokens, or a single token when there is none. */
  lemma {:induction false} SpansGreedy(v: Vocabulary, tokens: seq<string>, i: nat)
    requires i <= |tokens|
    ensures InBounds(tokens, SpansFrom(v, tokens, i))
    ensures forall k :: 0 <= k < |SpansFrom(v, tokens, i)| ==>
      var sp := SpansFrom(v, tokens, i)[k];
      i <= sp.start < |tokens| && sp.len == PhraseLen(v, tokens, sp.start)
    decreases |tokens| - i
  {
    if i < |tokens| {
      var n := PhraseLen(v, tokens, i);
      SpansGreedy(v, tokens, i + n);
      var spans := SpansFrom(v, tokens, i);
      assert forall k :: 1 <= k < |spans| ==> spans[k] == SpansFrom(v, tokens, i + n)[k - 1];
    }
  }

  lemma {:induction false} SpansInBounds(v: Vocabulary, tokens: seq<string>, i: nat)
    requires i <= |tokens|
    ensures InBounds(tokens, SpansFrom(v, tokens, i))
    decreases |tokens| - i
  {
    if i < |tokens| {
      var n := PhraseLen(v, tokens, i);
      SpansInBounds(v, tokens, i + n);
      var spans := SpansFrom(v, tokens, i);
      assert forall k :: 1 <= k < |spans| ==> spans[k] == SpansFrom(v, tokens, i + n)[k - 1];
    }
  }

  lemma AppendAssoc<T>(a: seq<T>, b: seq<T>, c: seq<T>)
    ensures (a + b) + c == a + (b + c)
  {
  }

  /** The scan's items are exactly the items of the greedy spans. */
  lemma {:induction false} ScanAccIsWordsOf(v: Vocabulary, tokens: seq<string>, i: nat, acc: seq<string>)
    requires i <= |tokens|
    ensures InBounds(tokens, SpansFrom(v, tokens, i))
    ensures ScanAcc(v, tokens, i, acc) == acc + WordsOf(v, tokens, SpansFrom(v, tokens, i))
    decreases |tokens| - i
  {
    SpansInBounds(v, tokens, i);
    if i < |tokens| {
      var n := PhraseLen(v, tokens, i);
      var w := WordOf(v, tokens, Span(i, n));
      var spans := SpansFrom(v, tokens, i);
      assert spans[1..] == SpansFrom(v, tokens, i + n);
      var rest := WordsOf(v, tokens, spans[1..]);
      calc {
        ScanAcc(v, tokens, i, acc);
        ScanAcc(v, tokens, i + n, acc + [w]);
        { ScanAccIsWordsOf(v, tokens, i + n, acc + [w]); }
        (acc + [w]) + rest;
        { AppendAssoc(acc, [w], rest); }
        acc + ([w] + rest);
        acc + WordsOf(v, tokens, spans);
      }
    }
  }

  /** The `k`-th item is what the `k`-th span emits. */
  lemma {:induction false} WordsOfAt(v: Vocabulary, tokens: seq<string>, spans: seq<Span>, k: nat)
    requires InBounds(tokens, spans) && k < |spans|
    ensures WordsOf(v, tokens, spans)[k] == WordOf(v, tokens, spans[k])
    decreases k
  {
    if k > 0 {
      InBoundsTail(tokens, spans);
      WordsOfAt(v, tokens, spans[1..], k - 1);
    }
  }

  // ---------------------------------------------------------------------
  // The two error responses and the shape of a success.

  /** Case mapping keeps each character's class. */
  lemma LowerCharClasses(c: char)
    ensures IsWordChar(LowerChar(c)) <==> IsWordChar(c)
    ensures LowerChar(c) == '\'' <==> c == '\''
    ensures IsSpace(LowerChar(c), Python) <==> IsSpace(c, Python)
  {
  }

  /** "No text provided" is the answer exactly when the text is all white
      space (or empty). */
  lemma NoTextIff(v: Vocabulary, text: string)
    ensures Convert(v, text) == Failed(NoTextError) <==> forall j :: 0 <= j < |text| ==> IsSpace(text[j], Python)
  {
    StripEmptyIff(text, Python);
  }

  /** Cleaning leaves nothing exactly when no character is a word character
      or an apostrophe. */
  lemma CleanedEmptyIff(t: string)
    ensures Cleaned(t) == [] <==> forall j :: 0 <= j < |t| ==> !IsWordChar(t[j]) && t[j] != '\''
  {
    var m := MaskSymbols(Lower(t));
    StripEmptyIff(m, Python);
    forall j | 0 <= j < |t|
      ensures IsSpace(m[j], Python) <==> !IsWordChar(t[j]) && t[j] != '\''
    {
      LowerCharClasses(t[j]);
    }
  }

  /** The conversion fails, with either message, exactly when the text holds
      no word character and no apostrophe. */
  lemma ConvertFailsIff(v: Vocabulary, text: string)
    ensures Convert(v, text).Failed? <==> forall j :: 0 <= j < |text| ==> !IsWordChar(text[j]) && text[j] != '\''
  {
    var t := Prepared(text);
    var a := LeadingSpaces(text, Python);
    StripBlock(text, Python);
    StripTail(text, Python);
    CleanedEmptyIff(t);
    if Convert(v, text).Failed? {
      forall j | 0 <= j < |text|
        ensures !IsWordChar(text[j]) && text[j] != '\''
      {
        if a <= j < a + |t| {
          LowerCharClasses(text[j]);
          assert t[j - a] == LowerChar(text[j]);
        }
      }
    } else {
      var j :| 0 <= j < |t| && (IsWordChar(t[j]) || t[j] == '\'');
      LowerCharClasses(text[a + j]);
    }
  }

  /** A successful conversion emits at least one item, and one animation
      path per item: the item's own, or the empty string. */
  lemma ConvertedShape(v: Vocabulary, text: string)
    requires Convert(v, text).Converted?
    ensures |Convert(v, text).words| >= 1
    ensures |Convert(v, text).animations| == |Convert(v, text).words|
    ensures forall k :: 0 <= k < |Convert(v, text).words| ==>
      Convert(v, text).animations[k] == AnimationFor(v, Convert(v, text).words[k])
  {
    var t := Prepared(text);
    var m := Strip(MaskSymbols(Lower(t)), Python);
    StripStartsWithNonSpace(MaskSymbols(Lower(t)), Python);
    var c := Cleaned(t);
    SplitEmptyIff(c);
    var tokens := Split(c);
    assert tokens != [];
    ScanAccIsWordsOf(v, tokens, 0, []);
  }

  /** A successful conversion is the greedy tiling of the tokens: the items
      consume every token exactly once and in order, each is the longest
      listed phrase starting there (at most six tokens) or else the single
      token after one variation. */
  lemma ConvertedItems(v: Vocabulary, text: string)
    requires Convert(v, text).Converted?
    ensures var tokens := Split(Cleaned(Prepared(text)));
      var spans := SpansFrom(v, tokens, 0);
      && Tiles(spans, 0, |tokens|)
      && InBounds(tokens, spans)
      && |Convert(v, text).words| == |spans|
      && (forall k :: 0 <= k < |spans| ==>
            spans[k].len == PhraseLen(v, tokens, spans[k].start)
            && Convert(v, text).words[k] == WordOf(v, tokens, spans[k]))
  {
    var tokens := Split(Cleaned(Prepared(text)));
    var spans := SpansFrom(v, tokens, 0);
    SpansTile(v, tokens, 0);
    SpansGreedy(v, tokens, 0);
    ScanAccIsWordsOf(v, tokens, 0, []);
    forall k | 0 <= k < |spans|
      ensures Convert(v, text).words[k] == WordOf(v, tokens, spans[k])
    {
      WordsOfAt(v, tokens, spans, k);
    }
  }
}
