/**
  The lookup tables a text-to-sign converter works from: the multi-word
  phrases it recognises, the single substitution it applies to a lone word,
  and the animation file of each known word or phrase.

  The backend and the browser's voice converter each carry their own copy
  of these tables; the algorithms are stated over any `Vocabulary`.
 */
module SignTables {

  datatype Vocabulary = Vocabulary(
    phrases: seq<string>,
    variations: map<string, string>,
    animations: map<string, string>)

  /** `variations.get(word, word)`: one substitution, never repeated. */
  function Variation(v: Vocabulary, w: string): string
  {
    if w in v.variations then v.variations[w] else w
  }

  /** `word_to_gif.get(word, '')`: the animation path, or the empty string
      when the word has none. */
  function AnimationFor(v: Vocabulary, w: string): string
  {
    if w in v.animations then v.animations[w] else ""
  }

  /** A word with no entry in the variations table is left as it is, and a
      substitution is a value of that table. */
  lemma VariationCases(v: Vocabulary, w: string)
    ensures Variation(v, w) == w || Variation(v, w) in v.variations.Values
  {
    if w in v.variations {
      assert v.variations[w] in v.variations.Values;
    }
  }
}
