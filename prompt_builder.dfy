/** utils/prompt_builder.py: `build_prompt_augmentation`, which turns the
    matches of a search into the taste-preference text added to a recipe
    prompt. */
module PromptBuilder {
  import opened PyValues
  import opened VectorIndex

  const NoPreferences := "No specific taste preferences found in history."
  const Preamble := "Personalized taste preferences: "
  const CouldNotInterpret := "Could not interpret relevant taste preferences from search results."
  const Separator := "; "

  /** The phrase for one match, with the defaults for missing fields. */
  function Phrase(rt: Runtime, md: map<string, Value>): string {
    "Consider using " + Str(rt, Get(md, "amount", PyStr("a specific amount of"))) + " "
      + Str(rt, Get(md, "unit", PyStr(""))) + " of " + Str(rt, Get(md, "ingredient", PyStr("an ingredient")))
      + " when preparing meals for " + Str(rt, Get(md, "servings", PyStr("an unspecified number of")))
      + " servings, similar to past successful " + Str(rt, Get(md, "cuisine", PyStr("a specific")))
      + " cuisine preparations."
  }

  /** The phrases of the matches, in match order. */
  function Phrases(rt: Runtime, matches: seq<Hit>): seq<string> {
    seq(|matches|, k requires 0 <= k < |matches| => Phrase(rt, matches[k].metadata))
  }

  /** `sep.join(parts)`. */
  function Join(parts: seq<string>, sep: string): string {
    if parts == [] then ""
    else if |parts| == 1 then parts[0]
    else Join(parts[..|parts| - 1], sep) + sep + parts[|parts| - 1]
  }

  /** The builder's result for a search that returned `results` (None when
      the search failed). */
  function Augmentation(rt: Runtime, results: Option<seq<Hit>>): string {
    if results.None? || results.value == [] then NoPreferences
    else Preamble + Join(Phrases(rt, results.value), Separator) + "."
  }

  lemma {:induction false} PhrasesStep(rt: Runtime, matches: seq<Hit>, i: nat)
    requires i < |matches|
    ensures Phrases(rt, matches[..i + 1]) == Phrases(rt, matches[..i]) + [Phrase(rt, matches[i].metadata)]
  {
    assert matches[..i + 1][..i] == matches[..i];
  }

  method BuildPromptAugmentation(rt: Runtime, searchResults: Option<seq<Hit>>) returns (r: string)
    ensures r == Augmentation(rt, searchResults)
  {
    if searchResults.None? || searchResults.value == [] {
      return NoPreferences;
    }
    var matches := searchResults.value;
    var augmentationParts := [];
    for i := 0 to |matches|
      invariant augmentationParts == Phrases(rt, matches[..i])
    {
      PhrasesStep(rt, matches, i);
      augmentationParts := augmentationParts + [Phrase(rt, matches[i].metadata)];
    }
    assert matches[..|matches|] == matches;
    assert |augmentationParts| == |matches|;
    if augmentationParts != [] {
      r := Preamble + Join(augmentationParts, Separator) + ".";
    } else {
      r := CouldNotInterpret;
    }
  }

  /** `sep.join(parts)` holds part `k` at its place, preceded by the
      separator unless it is the first. */
  lemma {:induction false} PhraseAt(parts: seq<string>, sep: string, k: nat) returns (off: nat)
    requires k < |parts|
    ensures off + |parts[k]| <= |Join(parts, sep)|
    ensures Join(parts, sep)[off..off + |parts[k]|] == parts[k]
    ensures k > 0 ==> off >= |sep| && Join(parts, sep)[off - |sep|..off] == sep
    ensures k == 0 ==> off == 0
  {
    var n := |parts|;
    if n == 1 {
      off := 0;
    } else {
      var init := parts[..n - 1];
      var j := Join(init, sep);
      assert Join(parts, sep) == j + sep + parts[n - 1];
      if k == n - 1 {
        off := |j| + |sep|;
        assert Join(parts, sep)[off..] == parts[k];
        assert Join(parts, sep)[off - |sep|..off] == sep;
      } else {
        off := PhraseAt(init, sep, k);
        assert init[k] == parts[k];
        assert Join(parts, sep)[..|j|] == j;
      }
    }
  }

  /** A slice of the middle piece of `a + m + b`. */
  lemma {:induction false} MiddleSlice(a: string, m: string, b: string, x: nat, y: nat)
    requires x <= y <= |m|
    ensures (a + m + b)[|a| + x..|a| + y] == m[x..y]
  {
    var s := a + m + b;
    assert s[|a|..|a| + |m|] == m;
    assert s[|a| + x..|a| + y] == s[|a|..|a| + |m|][x..y];
  }

  /** `PhraseAt` inside a text framed by `pre` and `post`. */
  lemma {:induction false} FramedPartAt(pre: string, parts: seq<string>, sep: string, post: string, k: nat)
    returns (off: nat)
    requires k < |parts|
    ensures var r := pre + Join(parts, sep) + post;
      && off + |parts[k]| <= |r| && r[off..off + |parts[k]|] == parts[k]
      && (k == 0 ==> off == |pre|)
      && (k > 0 ==> off >= |pre| + |sep| && r[off - |sep|..off] == sep)
  {
    var j := Join(parts, sep);
    var o := PhraseAt(parts, sep, k);
    off := |pre| + o;
    MiddleSlice(pre, j, post, o, o + |parts[k]|);
    if k > 0 {
      MiddleSlice(pre, j, post, o - |sep|, o);
    }
  }

  lemma {:induction false} AugmentationFrame(rt: Runtime, matches: seq<Hit>)
    requires matches != []
    ensures Augmentation(rt, Some(matches)) == Preamble + Join(Phrases(rt, matches), Separator) + "."
  {
  }

  /** `FramedPartAt` for the builder's own frame and the phrases of
      `matches`, passed as `parts`. */
  lemma {:induction false} PhrasePlaced(rt: Runtime, matches: seq<Hit>, parts: seq<string>, k: nat) returns (off: nat)
    requires k < |matches| && parts == Phrases(rt, matches)
    ensures var r := Preamble + Join(parts, Separator) + ".";
      && off + |parts[k]| <= |r| && r[off..off + |parts[k]|] == parts[k]
      && (k == 0 ==> off == |Preamble|)
      && (k > 0 ==> off >= |Preamble| + |Separator| && r[off - |Separator|..off] == Separator)
  {
    off := FramedPartAt(Preamble, parts, Separator, ".", k);
  }

  /** The phrase of every match, built from that match's own amount, unit,
      ingredient, servings and cuisine, appears in the augmentation in match
      order: the first right after the preamble, each later one after "; ". */
  lemma {:induction false} AugmentationPhraseAt(rt: Runtime, matches: seq<Hit>, k: nat) returns (off: nat)
    requires k < |matches|
    ensures off + |Phrase(rt, matches[k].metadata)| <= |Augmentation(rt, Some(matches))|
    ensures Augmentation(rt, Some(matches))[off..off + |Phrase(rt, matches[k].metadata)|] == Phrase(rt, matches[k].metadata)
    ensures k == 0 ==> off == |Preamble|
    ensures k > 0 ==> off >= |Preamble| + |Separator|
                      && Augmentation(rt, Some(matches))[off - |Separator|..off] == Separator
  {
    var parts := Phrases(rt, matches);
    off := PhrasePlaced(rt, matches, parts, k);
    AugmentationFrame(rt, matches);
    assert parts[k] == Phrase(rt, matches[k].metadata);
  }

  /** The builder never answers "Could not interpret ...": non-empty matches
      give non-empty phrases. No search result gives the fixed message, any
      match the preamble and a final full stop. */
  lemma {:induction false} AugmentationShape(rt: Runtime, results: Option<seq<Hit>>)
    ensures Augmentation(rt, results) != CouldNotInterpret
    ensures Augmentation(rt, results) == NoPreferences <==> results.None? || results.value == []
    ensures results.Some? && results.value != [] ==>
      var r := Augmentation(rt, results);
      |r| > |Preamble| && r[..|Preamble|] == Preamble && r[|r| - 1] == '.'
  {
    var r := Augmentation(rt, results);
    if results.Some? && results.value != [] {
      var j := Join(Phrases(rt, results.value), Separator);
      assert r == Preamble + (j + ".");
      assert r[0] == Preamble[0] == 'P';
      assert r[..|Preamble|] == Preamble;
      assert r[|r| - 1] == (j + ".")[|j|] == '.';
    }
  }
}
