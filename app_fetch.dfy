/** fetch_user_preference/app_fetch.py: `recommend_ingredients`, the
    `/recommend` endpoint. It answers one prompt slot per requested
    ingredient, built from that user's records ranked by weight and cut at a
    similarity threshold. Its search and prompt builder are called with
    arguments the shown implementations do not take, so both are
    parameters here. */
module Recommend {
  import opened PyValues
  import opened VectorIndex
  import opened Embedding
  import opened Pinecone
  import Ranking
  import opened PromptSlots

  /** The request body (`IngredientRequest`). */
  datatype Request = Request(userId: string, cuisine: string, ingredients: seq<string>, servings: int)

  datatype Response =
    | Prompts(prompts: seq<string>, errors: Option<seq<string>>)
    | HttpError(status: nat, detail: string)

  /** `search(query_vector=..., top_k=5, user_id=..., ingredient=...,
      min_score=...)`: Err when the call raises, Ok(None) when it answers
      with no matches. */
  type Search = (seq<real>, string, string) -> Result<Option<seq<Hit>>>

  /** `build_prompt_augmentation(filtered_matches, ingredient, servings)`. */
  type Builder = (seq<Hit>, string, int) -> Result<string>

  const InitFailed := "Pinecone initialization failed or index not available."
  const Required := "User ID, Cuisine, and at least one Ingredient are required."
  const BadServings := "Servings must be a positive integer."

  /** MINIMUM_SIMILARITY_SCORE. */
  const MinScore: real := 0.6

  /** `[i.strip() for i in ingredients if i.strip()]`. */
  function Normalise(ingredients: seq<string>): (r: seq<string>)
    ensures |r| <= |ingredients|
    ensures forall k :: 0 <= k < |r| ==> r[k] != ""
  {
    if ingredients == [] then []
    else
      var s := Strip(ingredients[|ingredients| - 1]);
      Normalise(ingredients[..|ingredients| - 1]) + (if s != "" then [s] else [])
  }

  /** Normalising keeps order, and keeps the stripped form of exactly the
      non-blank ingredients. */
  lemma {:induction false} NormaliseAppend(a: seq<string>, b: seq<string>)
    ensures Normalise(a + b) == Normalise(a) + Normalise(b)
    decreases |b|
  {
    if b == [] {
      assert a + b == a;
    } else {
      assert (a + b)[..|a + b| - 1] == a + b[..|b| - 1];
      NormaliseAppend(a, b[..|b| - 1]);
    }
  }

  lemma {:induction false} NormaliseSingle(x: string)
    ensures Normalise([x]) == if forall i :: 0 <= i < |x| ==> IsSpace(x[i]) then [] else [Strip(x)]
  {
    assert [x][..0] == [];
    StripEmptyIffBlank(x);
  }

  /** The matches that clear the threshold, in order. */
  function AboveThreshold(s: seq<Hit>): (r: seq<Hit>)
    ensures |r| <= |s|
    ensures forall k :: 0 <= k < |r| ==> r[k].score >= MinScore
    ensures multiset(r) <= multiset(s)
  {
    if s == [] then []
    else
      assert s == [s[0]] + s[1..];
      (if s[0].score >= MinScore then [s[0]] else []) + AboveThreshold(s[1..])
  }

  function ErrorSlot(rt: Runtime, ingredient: string, e: PyError): Slot {
    var msg := "Error processing '" + ingredient + "': " + ErrorText(rt, e);
    Slot(msg, Some(msg))
  }

  /** The `try` block for one non-blank ingredient: the prompt it appends on
      success, or the exception it raises. */
  function IngredientOutcome(embedder: Embedder, rt: Runtime, search: Search, build: Builder,
                             userId: string, cuisine: string, servings: int, ingredient: string): Result<string>
  {
    match Encode(embedder, ingredient + " " + cuisine + " cuisine taste")
    case Err(e) => Err(e)
    case Ok(q) =>
      match search(q, userId, ingredient)
      case Err(e) => Err(e)
      case Ok(result) =>
        var matches := if result.Some? then result.value else [];
        match SortError(matches)
        case Some(e) => Err(e)
        case None =>
          var filtered := AboveThreshold(Ranking.SortDesc(matches, Weight));
          if filtered == [] then Ok("No strong match found for '" + ingredient + "'")
          else build(filtered, ingredient, servings)
  }

  /** The body of the loop for the `index`-th ingredient: a raised exception
      is caught and reported. */
  function IngredientSlot(embedder: Embedder, rt: Runtime, search: Search, build: Builder,
                          userId: string, cuisine: string, servings: int, index: nat, ingredient: string): Slot
  {
    if ingredient == "" then Slot("Error: Invalid ingredient at index " + IntStr(index), None)
    else match IngredientOutcome(embedder, rt, search, build, userId, cuisine, servings, ingredient)
    case Err(e) => ErrorSlot(rt, ingredient, e)
    case Ok(prompt) => Slot(prompt, None)
  }

  /** The slots of `ingredients`, by position. */
  function Slots(embedder: Embedder, rt: Runtime, search: Search, build: Builder,
                 userId: string, cuisine: string, servings: int, ingredients: seq<string>): (r: seq<Slot>)
    ensures |r| == |ingredients|
  {
    if ingredients == [] then []
    else
      Slots(embedder, rt, search, build, userId, cuisine, servings, ingredients[..|ingredients| - 1])
        + [IngredientSlot(embedder, rt, search, build, userId, cuisine, servings, |ingredients| - 1, ingredients[|ingredients| - 1])]
  }

  /** The response for a request (or the HTTPException it raises). */
  function Recommendation(pm: PineconeManager, search: Search, build: Builder, req: Request): Response
    reads pm
  {
    if !pm.clientReady || !pm.indexReady then HttpError(500, InitFailed)
    else
      var userId := Strip(req.userId);
      var cuisine := Strip(req.cuisine);
      var ingredients := Normalise(req.ingredients);
      if userId == "" || cuisine == "" || ingredients == [] then HttpError(400, Required)
      else if req.servings <= 0 then HttpError(400, BadServings)
      else
        var slots := Slots(pm.embedder, pm.rt, search, build, userId, cuisine, req.servings, ingredients);
        var errors := ErrorsOf(slots);
        Prompts(PromptsOf(slots), if errors == [] then None else Some(errors))
  }

  /** `recommend_ingredients(payload)`. */
  method RecommendIngredients(pm: PineconeManager, search: Search, build: Builder, req: Request) returns (resp: Response)
    requires pm.Valid()
    ensures resp == Recommendation(pm, search, build, req)
  {
    if !pm.clientReady || !pm.indexReady {
      return HttpError(500, InitFailed);
    }
    // `pm.Valid()`: with a client the embedder attribute is set, and it is
    // truthy, so "Embedding model not available." is never answered
    var userId := Strip(req.userId);
    var cuisine := Strip(req.cuisine);
    var ingredients := Normalise(req.ingredients);
    if userId == "" || cuisine == "" || ingredients == [] {
      return HttpError(400, Required);
    }
    if req.servings <= 0 {
      return HttpError(400, BadServings);
    }
    ghost var slots: seq<Slot> := [];
    var augmentedPromptsList := [];
    var errors := [];
    for i := 0 to |ingredients|
      invariant slots == Slots(pm.embedder, pm.rt, search, build, userId, cuisine, req.servings, ingredients[..i])
      invariant augmentedPromptsList == PromptsOf(slots)
      invariant errors == ErrorsOf(slots)
    {
      var slot := IngredientSlot(pm.embedder, pm.rt, search, build, userId, cuisine, req.servings, i, ingredients[i]);
      SlotsStep(pm.embedder, pm.rt, search, build, userId, cuisine, req.servings, ingredients, i);
      Append(slots, slot);
      slots := slots + [slot];
      augmentedPromptsList := augmentedPromptsList + [slot.prompt];
      if slot.error.Some? {
        errors := errors + [slot.error.value];
      }
    }
    assert ingredients[..|ingredients|] == ingredients;
    resp := Prompts(augmentedPromptsList, if errors == [] then None else Some(errors));
  }

  lemma {:induction false} SlotsStep(embedder: Embedder, rt: Runtime, search: Search, build: Builder,
                  userId: string, cuisine: string, servings: int, ingredients: seq<string>, i: nat)
    requires i < |ingredients|
    ensures Slots(embedder, rt, search, build, userId, cuisine, servings, ingredients[..i + 1])
         == Slots(embedder, rt, search, build, userId, cuisine, servings, ingredients[..i])
            + [IngredientSlot(embedder, rt, search, build, userId, cuisine, servings, i, ingredients[i])]
  {
    assert ingredients[..i + 1][..i] == ingredients[..i];
  }

  /** Slot `k` is the loop body applied to the `k`-th ingredient. */
  lemma {:induction false} SlotAt(embedder: Embedder, rt: Runtime, search: Search, build: Builder,
                                  userId: string, cuisine: string, servings: int, ingredients: seq<string>, k: nat)
    requires k < |ingredients|
    ensures Slots(embedder, rt, search, build, userId, cuisine, servings, ingredients)[k]
         == IngredientSlot(embedder, rt, search, build, userId, cuisine, servings, k, ingredients[k])
  {
    if k < |ingredients| - 1 {
      var init := ingredients[..|ingredients| - 1];
      SlotAt(embedder, rt, search, build, userId, cuisine, servings, init, k);
    }
  }

  /** One prompt per normalised ingredient, in order: prompt `k` is the
      outcome for the `k`-th ingredient, which is never blank, so the
      invalid-ingredient branch is never taken. */
  lemma {:induction false} SlotPerIngredient(pm: PineconeManager, search: Search, build: Builder, req: Request)
    requires Recommendation(pm, search, build, req).Prompts?
    ensures var ings := Normalise(req.ingredients);
      && |Recommendation(pm, search, build, req).prompts| == |ings|
      && forall k :: 0 <= k < |ings| ==>
           (ings[k] != "" && Recommendation(pm, search, build, req).prompts[k]
             == IngredientSlot(pm.embedder, pm.rt, search, build, Strip(req.userId), Strip(req.cuisine), req.servings, k, ings[k]).prompt)
  {
    var ings := Normalise(req.ingredients);
    var slots := Slots(pm.embedder, pm.rt, search, build, Strip(req.userId), Strip(req.cuisine), req.servings, ings);
    forall k | 0 <= k < |ings|
      ensures PromptsOf(slots)[k]
           == IngredientSlot(pm.embedder, pm.rt, search, build, Strip(req.userId), Strip(req.cuisine), req.servings, k, ings[k]).prompt
    {
      SlotAt(pm.embedder, pm.rt, search, build, Strip(req.userId), Strip(req.cuisine), req.servings, ings, k);
      PromptAt(slots, k);
    }
  }

  /** An ingredient that raised puts the same message in its slot and in
      `errors`, the message names the ingredient, and nothing else adds an
      error. */
  lemma {:induction false} SlotErrors(embedder: Embedder, rt: Runtime, search: Search, build: Builder,
                   userId: string, cuisine: string, servings: int, k: nat, ingredient: string)
    ensures var s := IngredientSlot(embedder, rt, search, build, userId, cuisine, servings, k, ingredient);
      var head := "Error processing '" + ingredient + "': ";
      s.error.Some? ==> s.error.value == s.prompt && |s.prompt| >= |head| && s.prompt[..|head|] == head
  {
    var head := "Error processing '" + ingredient + "': ";
    if ingredient != "" {
      var o := IngredientOutcome(embedder, rt, search, build, userId, cuisine, servings, ingredient);
      if o.Err? {
        var msg := head + ErrorText(rt, o.error);
        assert ErrorSlot(rt, ingredient, o.error).prompt == msg;
        assert msg[..|head|] == head;
      }
    }
  }

  /** The shown `search` takes no `user_id`, `ingredient` or `min_score`
      keyword, so the call on line 71 raises TypeError whatever the query. */
  function ShownSearch(q: seq<real>, userId: string, ingredient: string): Result<Option<seq<Hit>>> {
    Err(TypeError)
  }

  /** With the shown `search`, the `try` block for an ingredient always
      raises: the model is not loaded, or the call is refused. */
  lemma {:induction false} ShownSearchFails(embedder: Embedder, rt: Runtime, build: Builder,
                                            userId: string, cuisine: string, servings: int, ingredient: string)
    ensures IngredientOutcome(embedder, rt, ShownSearch, build, userId, cuisine, servings, ingredient).Err?
  {
  }

  /** With the shown `search`, a request that passes validation gets one
      error per ingredient, whether or not the model is loaded. */
  lemma {:induction false} ShownSearchFailsEveryIngredient(pm: PineconeManager, build: Builder, req: Request)
    requires Recommendation(pm, ShownSearch, build, req).Prompts?
    ensures var r := Recommendation(pm, ShownSearch, build, req);
      r.errors.Some? && |r.errors.value| == |r.prompts| == |Normalise(req.ingredients)|
  {
    var ings := Normalise(req.ingredients);
    var slots := Slots(pm.embedder, pm.rt, ShownSearch, build, Strip(req.userId), Strip(req.cuisine), req.servings, ings);
    forall k | 0 <= k < |slots| ensures slots[k].error.Some? {
      SlotAt(pm.embedder, pm.rt, ShownSearch, build, Strip(req.userId), Strip(req.cuisine), req.servings, ings, k);
      ShownSearchFails(pm.embedder, pm.rt, build, Strip(req.userId), Strip(req.cuisine), req.servings, ings[k]);
    }
    ErrorsAll(slots);
  }

  /** Filtering keeps a value as often as it occurs when its score clears
      the threshold, and drops it otherwise. */
  lemma {:induction false} AboveThresholdCount(s: seq<Hit>, h: Hit)
    ensures multiset(AboveThreshold(s))[h] == if h.score >= MinScore then multiset(s)[h] else 0
  {
    if s != [] {
      var t := s[1..];
      AboveThresholdCount(t, h);
      assert s == [s[0]] + t;
      var head := if s[0].score >= MinScore then [s[0]] else [];
      assert AboveThreshold(s) == head + AboveThreshold(t);
      assert multiset(AboveThreshold(s)) == multiset(head) + multiset(AboveThreshold(t));
      assert multiset(s) == multiset{s[0]} + multiset(t);
    }
  }

  lemma {:induction false} AboveThresholdSorted(s: seq<Hit>)
    requires Ranking.NonIncreasing(s, Weight)
    ensures Ranking.NonIncreasing(AboveThreshold(s), Weight)
  {
    if s != [] {
      assert Ranking.NonIncreasing(s[1..], Weight);
      AboveThresholdSorted(s[1..]);
      var t := AboveThreshold(s[1..]);
      forall j | 0 <= j < |t| ensures Weight(t[j]) <= Weight(s[0]) {
        assert t[j] in multiset(s[1..]);
      }
    }
  }

  lemma {:induction false} AboveThresholdWithKey(s: seq<Hit>, w: real)
    ensures Ranking.WithKey(AboveThreshold(s), Weight, w) == AboveThreshold(Ranking.WithKey(s, Weight, w))
  {
    if s != [] {
      AboveThresholdWithKey(s[1..], w);
      var head := if s[0].score >= MinScore then [s[0]] else [];
      var t := AboveThreshold(s[1..]);
      assert AboveThreshold(s) == head + t;
      if s[0].score >= MinScore {
        assert (head + t)[1..] == t;
      } else {
        assert head + t == t;
      }
      var wk := if Weight(s[0]) == w then [s[0]] else [];
      assert Ranking.WithKey(s, Weight, w) == wk + Ranking.WithKey(s[1..], Weight, w);
      if Weight(s[0]) == w {
        assert (wk + Ranking.WithKey(s[1..], Weight, w))[1..] == Ranking.WithKey(s[1..], Weight, w);
      } else {
        assert wk + Ranking.WithKey(s[1..], Weight, w) == Ranking.WithKey(s[1..], Weight, w);
      }
    }
  }

  /** What the builder receives: only matches scoring at least 0.6, each of
      them exactly as often as it was returned, in non-increasing weight,
      and matches of equal weight in the order the search returned them. */
  lemma {:induction false} FilteredMatches(matches: seq<Hit>, w: real)
    ensures var f := AboveThreshold(Ranking.SortDesc(matches, Weight));
      && (forall k :: 0 <= k < |f| ==> f[k].score >= MinScore)
      && multiset(f) == multiset(AboveThreshold(matches))
      && Ranking.NonIncreasing(f, Weight)
      && Ranking.WithKey(f, Weight, w) == AboveThreshold(Ranking.WithKey(matches, Weight, w))
  {
    var sorted := Ranking.SortDesc(matches, Weight);
    var f := AboveThreshold(sorted);
    forall h ensures multiset(f)[h] == multiset(AboveThreshold(matches))[h] {
      AboveThresholdCount(sorted, h);
      AboveThresholdCount(matches, h);
    }
    Ranking.SortDescSorted(matches, Weight);
    AboveThresholdSorted(sorted);
    AboveThresholdWithKey(sorted, w);
    Ranking.SortDescStable(matches, Weight, w);
  }
}
