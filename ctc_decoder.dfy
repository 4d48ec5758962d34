/**
  The lip-reading model's output decoding and its prediction guard
  (`LRS3LipReader` in model_loader.py).

  Greedy CTC decoding takes the most likely symbol id at every time step
  (the argmax over the model's logits, which is not modelled: the ids are
  the input here) and turns the id sequence into text: the blank id 0 emits
  nothing, an id equal to the one just before it emits nothing, and an id
  past the end of the symbol table emits nothing but still counts as the id
  just before the next one.
 */
module CtcDecoder {
  import opened Optional

  /** The symbol table; id `k` stands for `CharList[k]`. It is written out
      in four parts (the markers, the letters in two halves, the space and
      punctuation), which keeps facts about it cheap to prove. */
  const CharList: seq<string> := Markers + Alphabet

  const Markers: seq<string> := ["<blank>", "<unk>", "<sos/eos>"]
  const LettersAM: seq<string> := ["a", "b", "c", "d", "e", "f", "g", "h", "i", "j", "k", "l", "m"]
  const LettersNZ: seq<string> := ["n", "o", "p", "q", "r", "s", "t", "u", "v", "w", "x", "y", "z"]
  const Punctuation: seq<string> := [" ", "'", ".", ",", "!", "?", "-"]
  const Alphabet: seq<string> := LettersAM + LettersNZ + Punctuation

  /** The id of the CTC blank. */
  const Blank: nat := 0

  /** The previous id before the first time step: no real id equals it. */
  const NoPrevious: int := -1

  /** The id at time step `k` emits a symbol: it is not the blank, differs
      from the id at step `k - 1`, and names an entry of the table. */
  predicate Emits(ids: seq<nat>, k: nat)
    requires k < |ids|
  {
    ids[k] != Blank && (k == 0 || ids[k] != ids[k - 1]) && ids[k] < |CharList|
  }

  /** The symbols decoded from `ids`, as the list the loop builds. */
  function Symbols(ids: seq<nat>): seq<string>
  {
    if ids == [] then []
    else
      var k := |ids| - 1;
      Symbols(ids[..k]) + (if Emits(ids, k) then [CharList[ids[k]]] else [])
  }

  /** `''.join(chars)`. */
  function Concat(parts: seq<string>): string
  {
    if parts == [] then "" else Concat(parts[..|parts| - 1]) + parts[|parts| - 1]
  }

  /** `decode_ctc_output` on the argmax'd ids of the first batch entry. */
  method DecodeCtcOutput(ids: seq<nat>) returns (text: string)
    ensures text == Concat(Symbols(ids))
  {
    var chars: seq<string> := [];
    var prev: int := NoPrevious;
    var i := 0;
    while i < |ids|
      invariant 0 <= i <= |ids|
      invariant chars == Symbols(ids[..i])
      invariant prev == if i == 0 then NoPrevious else ids[i - 1]
    {
      var id := ids[i];
      assert ids[..i + 1][..i] == ids[..i];
      if id != Blank && id != prev {
        if id < |CharList| {
          chars := chars + [CharList[id]];
        }
      }
      prev := id;
      i := i + 1;
    }
    assert ids[..|ids|] == ids;
    text := Concat(chars);
  }

  /** No more symbols than time steps, and every symbol is a table entry
      other than the blank. */
  lemma {:induction false} SymbolsBounded(ids: seq<nat>)
    ensures |Symbols(ids)| <= |ids|
    ensures forall s :: s in Symbols(ids) ==> s in CharList[1..]
  {
    if ids != [] {
      var k := |ids| - 1;
      SymbolsBounded(ids[..k]);
      if Emits(ids, k) {
        assert CharList[ids[k]] == CharList[1..][ids[k] - 1];
      }
    }
  }

  /** The blank's own name is never emitted. */
  lemma BlankNeverEmitted(ids: seq<nat>)
    ensures "<blank>" !in Symbols(ids)
  {
    SymbolsBounded(ids);
    BlankListedOnce();
  }

  // The members from here to `BlankListedOnce` only serve its proof: every
  // entry after the blank is a single character, so none is the empty name.

  predicate SingleChars(parts: seq<string>)
  {
    forall s :: s in parts ==> |s| == 1
  }

  lemma SingleCharsConcat(a: seq<string>, b: seq<string>)
    requires SingleChars(a) && SingleChars(b)
    ensures SingleChars(a + b)
  {
  }

  lemma LettersAMSingle() ensures SingleChars(LettersAM) {}
  lemma LettersNZSingle() ensures SingleChars(LettersNZ) {}
  lemma PunctuationSingle() ensures SingleChars(Punctuation) {}

  lemma DropFirst(a: seq<string>, b: seq<string>)
    requires |a| >= 1
    ensures (a + b)[1..] == a[1..] + b
  {
  }

  /** The blank's name appears nowhere else in the table: every other
      entry is a one-character symbol or a different marker. */
  lemma BlankListedOnce()
    ensures "<blank>" !in CharList[1..]
  {
    LettersAMSingle();
    LettersNZSingle();
    PunctuationSingle();
    SingleCharsConcat(LettersAM, LettersNZ);
    SingleCharsConcat(LettersAM + LettersNZ, Punctuation);
    DropFirst(Markers, Alphabet);
    assert |"<blank>"| == 7;
  }

  /** Blanks add nothing, wherever they stand. */
  lemma {:induction false} BlankEmitsNothing(ids: seq<nat>)
    ensures Symbols(ids + [Blank]) == Symbols(ids)
  {
    assert (ids + [Blank])[..|ids|] == ids;
  }

  /** Repeating the last id adds nothing: a run of equal ids emits at most
      one symbol. */
  lemma {:induction false} RepeatEmitsNothing(ids: seq<nat>)
    requires ids != []
    ensures Symbols(ids + [ids[|ids| - 1]]) == Symbols(ids)
  {
    assert (ids + [ids[|ids| - 1]])[..|ids|] == ids;
  }

  /** The same, for a run of any length. */
  lemma {:induction false} RunEmitsOnce(ids: seq<nat>, x: nat, n: nat)
    requires n >= 1
    ensures Symbols(ids + Run(x, n)) == Symbols(ids + [x])
    decreases n
  {
    if n > 1 {
      RunEmitsOnce(ids, x, n - 1);
      var prefix := ids + Run(x, n - 1);
      assert ids + Run(x, n) == prefix + [x];
      assert prefix[|prefix| - 1] == x;
      RepeatEmitsNothing(prefix);
    }
  }

  /** `n` copies of `x`. */
  function Run(x: nat, n: nat): (r: seq<nat>)
    ensures |r| == n && forall j :: 0 <= j < n ==> r[j] == x
  {
    if n == 0 then [] else Run(x, n - 1) + [x]
  }

  /** An id past the table emits nothing, and neither does an equal id
      right after it, since it still became the previous id. */
  lemma {:induction false} OutOfRangeSuppressesRepeat(ids: seq<nat>, x: nat)
    requires x >= |CharList|
    ensures Symbols(ids + [x]) == Symbols(ids)
    ensures Symbols(ids + [x, x]) == Symbols(ids)
  {
    assert (ids + [x])[..|ids|] == ids;
    assert (ids + [x, x])[..|ids| + 1] == ids + [x];
  }

  /** The ids with every run of equal neighbours cut down to its first. */
  function Dedup(ids: seq<nat>): seq<nat>
  {
    if |ids| <= 1 then ids
    else
      var k := |ids| - 1;
      Dedup(ids[..k]) + (if ids[k] == ids[k - 1] then [] else [ids[k]])
  }

  /** The table entries of the ids that are neither the blank nor past the
      table, in order. */
  function Keep(ids: seq<nat>): seq<string>
  {
    if ids == [] then []
    else
      var k := |ids| - 1;
      Keep(ids[..k]) + Kept(ids[k])
  }

  /** The symbol one id contributes once runs are collapsed. */
  function Kept(id: nat): seq<string>
  {
    if id != Blank && id < |CharList| then [CharList[id]] else []
  }

  lemma {:induction false} KeepAppend(a: seq<nat>, b: seq<nat>)
    ensures Keep(a + b) == Keep(a) + Keep(b)
    decreases |b|
  {
    if b == [] {
      assert a + b == a;
    } else {
      var k := |b| - 1;
      KeepAppend(a, b[..k]);
      assert (a + b)[..|a + b| - 1] == a + b[..k];
      assert (a + b)[|a + b| - 1] == b[k];
      calc {
        Keep(a + b);
        Keep(a + b[..k]) + Kept(b[k]);
        Keep(a) + Keep(b[..k]) + Kept(b[k]);
        Keep(a) + (Keep(b[..k]) + Kept(b[k]));
        Keep(a) + Keep(b);
      }
    }
  }

  /** The decoding is textbook greedy CTC: collapse runs of equal ids, then
      drop blanks (and, here, ids past the table). */
  lemma {:induction false} SymbolsIsCollapseThenDrop(ids: seq<nat>)
    ensures Symbols(ids) == Keep(Dedup(ids))
  {
    if |ids| == 1 {
      assert ids[..0] == [];
    } else if |ids| > 1 {
      var k := |ids| - 1;
      var x := ids[k];
      SymbolsIsCollapseThenDrop(ids[..k]);
      var tail := if x == ids[k - 1] then [] else [x];
      assert Dedup(ids) == Dedup(ids[..k]) + tail;
      KeepAppend(Dedup(ids[..k]), tail);
      assert [x][..0] == [];
      assert Keep(tail) == (if Emits(ids, k) then [CharList[x]] else []);
    }
  }

  /** A symbol of one character per id, as an example of the whole decoding:
      "h h <blank> i" collapses to "hi". */
  lemma DecodeExample()
    ensures Concat(Symbols([10, 10, 0, 11])) == "hi"
  {
    assert [10, 10, 0, 11][..3] == [10, 10, 0];
    assert [10, 10, 0][..2] == [10, 10];
    assert [10, 10][..1] == [10];
    assert [10][..0] == [];
  }

  // ---------------------------------------------------------------------
  // The prediction guard.

  /** The fewest frames a prediction is attempted on. */
  const MinFrames: nat := 10

  /** `predict`: no word and confidence 0.0 when the model is not loaded,
      when fewer than ten frames are given, or when preprocessing yields
      nothing; otherwise what the inference gives (`None` in `inference`
      stands for an exception inside it, which also yields no word). */
  function Predict(loaded: bool, frameCount: nat, preprocessed: bool, inference: Option<(string, real)>)
    : (r: (Option<string>, real))
    ensures !loaded || frameCount < MinFrames ==> r == (None, 0.0)
    ensures r.0.None? ==> r.1 == 0.0
    ensures r.0.Some? <==> loaded && frameCount >= MinFrames && preprocessed && inference.Some?
  {
    if !loaded then (None, 0.0)
    else if frameCount < MinFrames then (None, 0.0)
    else if !preprocessed then (None, 0.0)
    else match inference
      case None => (None, 0.0)
      case Some((word, confidence)) => (Some(word), confidence)
  }
}
