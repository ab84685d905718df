/** vector_db/pinecone_client.py: the index manager. Its state is the index
    (a map field) and the readiness flags `__init__` leaves behind; it offers
    a guarded upsert, a guarded search and the feedback update engine. */
module Pinecone {
  import opened PyValues
  import opened VectorIndex
  import opened TasteRecord
  import opened PyCompare
  import opened Embedding
  import Ranking

  /** `search`'s default `top_k`, the one the feedback engine uses. */
  const DefaultTopK: nat := 5

  /** `x['metadata']['feedback_weight']`, None when the key is missing. */
  function RawWeight(h: Hit): Value {
    Get(h.metadata, "feedback_weight", PyNone)
  }

  /** Python's `a < b` on two weights of the kinds it orders among
      themselves: two numbers by value, two strings by code points. */
  predicate WeightLess(a: Value, b: Value) {
    || (IsNumber(a) && IsNumber(b) && Num(a) < Num(b))
    || (a.PyStr? && b.PyStr? && StrLess(a.s, b.s))
  }

  /** The sort key as a real that orders the hits as Python compares their
      weights: a number by its value, a string by `StrRank`. Python compares
      numbers only with numbers and strings only with strings, so the key is
      consulted only when `SortError` says the sort goes through. */
  function Weight(h: Hit): real {
    var w := RawWeight(h);
    if IsNumber(w) then Num(w) else if w.PyStr? then StrRank(w.s) else 0.0
  }

  /** The exception `sorted(hits, key=...)` raises: KeyError when a hit has no
      weight (the key is computed for every hit first); TypeError when at
      least two hits are compared and their weights are neither all numbers
      nor all strings. Any sort compares the neighbours of its result, and
      such a list has two neighbours of kinds Python cannot compare, unless
      every weight is a list or every weight is an ObjectId: Python orders
      those, but the model reports TypeError for them too. */
  function SortError(hits: seq<Hit>): Option<PyError> {
    if exists i :: 0 <= i < |hits| && "feedback_weight" !in hits[i].metadata then Some(KeyError("feedback_weight"))
    else if && |hits| >= 2
            && !(forall i :: 0 <= i < |hits| ==> IsNumber(RawWeight(hits[i])))
            && !(forall i :: 0 <= i < |hits| ==> RawWeight(hits[i]).PyStr?)
    then Some(TypeError)
    else None
  }

  /** Once the sort goes through, comparing keys is comparing the weights as
      Python does. */
  lemma {:induction false} WeightOrder(hits: seq<Hit>, i: nat, j: nat)
    requires SortError(hits).None? && i < |hits| && j < |hits|
    ensures Weight(hits[i]) < Weight(hits[j]) <==> WeightLess(RawWeight(hits[i]), RawWeight(hits[j]))
  {
    var a, b := RawWeight(hits[i]), RawWeight(hits[j]);
    if a.PyStr? && b.PyStr? {
      StrRankOrder(a.s, b.s);
    } else if i != j {
      assert IsNumber(a) && IsNumber(b);
    }
  }

  /** The amount rule: ×1.1 for "more", ×0.9 for "less", unchanged for any
      other string. Multiplying a non-number by a float raises TypeError. */
  function NewAmount(feedback: string, amount: Value): Result<Value> {
    if feedback == "more" then
      if IsNumber(amount) then Ok(PyFloat(Num(amount) * (11.0 / 10.0))) else Err(TypeError)
    else if feedback == "less" then
      if IsNumber(amount) then Ok(PyFloat(Num(amount) * (9.0 / 10.0))) else Err(TypeError)
    else Ok(amount)
  }

  /** The weight rule: +0.5 for "perfect", unchanged otherwise. */
  function NewWeight(feedback: string, weight: Value): Result<Value> {
    if feedback == "perfect" then
      if IsNumber(weight) then Ok(PyFloat(Num(weight) + 0.5)) else Err(TypeError)
    else Ok(weight)
  }

  /** What the stored record must hold for the update to go through once it
      has been selected. */
  predicate Updatable(feedback: string, md: map<string, Value>) {
    && "amount" in md
    && ((feedback == "more" || feedback == "less") ==> IsNumber(md["amount"]))
    && (feedback == "perfect" ==> "feedback_weight" in md && IsNumber(md["feedback_weight"]))
    && "unit" in md && "servings" in md && "cuisine" in md
  }

  /** Lines 98-121 on the selected record `md`: the new amount and weight,
      the taste text rebuilt from the argument ingredient and the stored
      unit, servings and cuisine, and the record to store. The sort that
      selected `md` made sure it holds a weight. */
  function Rewrite(model: string -> seq<real>, rt: Runtime, userId: string, ingredient: string,
                   feedback: string, md: map<string, Value>): Result<Entry>
    requires "feedback_weight" in md
  {
    if "amount" !in md then Err(KeyError("amount"))
    else match NewAmount(feedback, md["amount"])
    case Err(e) => Err(e)
    case Ok(amount) =>
      match NewWeight(feedback, md["feedback_weight"])
      case Err(e) => Err(e)
      case Ok(weight) =>
        if "unit" !in md then Err(KeyError("unit"))
        else if "servings" !in md then Err(KeyError("servings"))
        else if "cuisine" !in md then Err(KeyError("cuisine"))
        else
          var text := TasteText(rt, PyStr(ingredient), amount, md["unit"], md["servings"], md["cuisine"]);
          Ok(Entry(model(text), map[
            "user_id" := PyStr(userId),
            "ingredient" := PyStr(ingredient),
            "amount" := amount,
            "unit" := md["unit"],
            "servings" := md["servings"],
            "cuisine" := md["cuisine"],
            "feedback_weight" := weight]))
  }

  /** The record a successful rewrite stores: exactly seven metadata fields
      (`original_text` is dropped), user and ingredient from the arguments,
      unit, servings and cuisine copied, the amount scaled by the feedback,
      the weight raised by 0.5 on "perfect"; its vector is the embedding of
      the text its own metadata gives. It fails exactly when `md` is not
      `Updatable`. */
  lemma {:induction false} RewriteRecord(model: string -> seq<real>, rt: Runtime, userId: string, ingredient: string,
                      feedback: string, md: map<string, Value>)
    requires "feedback_weight" in md
    ensures Rewrite(model, rt, userId, ingredient, feedback, md).Ok? <==> Updatable(feedback, md)
    ensures Rewrite(model, rt, userId, ingredient, feedback, md).Ok? ==>
      var e := Rewrite(model, rt, userId, ingredient, feedback, md).value;
      var out := e.metadata;
      && out.Keys == {"user_id", "ingredient", "amount", "unit", "servings", "cuisine", "feedback_weight"}
      && out["user_id"] == PyStr(userId) && out["ingredient"] == PyStr(ingredient)
      && out["unit"] == md["unit"] && out["servings"] == md["servings"] && out["cuisine"] == md["cuisine"]
      && (feedback == "more" ==> out["amount"] == PyFloat(Num(md["amount"]) * (11.0 / 10.0)))
      && (feedback == "less" ==> out["amount"] == PyFloat(Num(md["amount"]) * (9.0 / 10.0)))
      && (feedback != "more" && feedback != "less" ==> out["amount"] == md["amount"])
      && (feedback == "perfect" ==> out["feedback_weight"] == PyFloat(Num(md["feedback_weight"]) + 0.5))
      && (feedback != "perfect" ==> out["feedback_weight"] == md["feedback_weight"])
      && e.values == model(TasteText(rt, PyStr(ingredient), out["amount"], md["unit"], md["servings"], md["cuisine"]))
      && EmbeddingConsistent(model, rt, e)
  {
  }

  /** Lines 92-122 on a given list of hits: rank them by weight, take the
      first and rewrite it under its own id. */
  function Transition(model: string -> seq<real>, rt: Runtime, userId: string, ingredient: string,
                      feedback: string, hits: seq<Hit>): (r: Result<Write>)
    ensures hits == [] ==> r == Err(IndexError)
    ensures r.Ok? ==> exists h :: h in hits && h.id == r.value.id
  {
    match SortError(hits)
    case Some(e) => Err(e)
    case None =>
      var sorted := Ranking.SortDesc(hits, Weight);
      if sorted == [] then Err(IndexError)
      else
        var top := sorted[0];
        assert top in multiset(hits);
        match Rewrite(model, rt, userId, ingredient, feedback, top.metadata)
        case Err(e) => Err(e)
        case Ok(e) => Ok(Write(top.id, e))
  }

  /** When the transition fails, and when it does not: it needs at least one
      hit, a sort that does not raise, and a selected record that is
      `Updatable`. */
  lemma {:induction false} TransitionOkIff(model: string -> seq<real>, rt: Runtime, userId: string, ingredient: string,
                        feedback: string, hits: seq<Hit>)
    ensures Transition(model, rt, userId, ingredient, feedback, hits).Ok?
        <==> hits != [] && SortError(hits).None?
             && Updatable(feedback, Ranking.SortDesc(hits, Weight)[0].metadata)
  {
    if hits != [] && SortError(hits).None? {
      var top := Ranking.SortDesc(hits, Weight)[0];
      assert top in multiset(hits);
      RewriteRecord(model, rt, userId, ingredient, feedback, top.metadata);
    }
  }

  /** The record updated is the first hit with the largest
      `feedback_weight` in Python's order (no weight is larger, every
      earlier one is smaller), and it is rewritten under its own id. */
  lemma {:induction false} TransitionTarget(model: string -> seq<real>, rt: Runtime, userId: string, ingredient: string,
                         feedback: string, hits: seq<Hit>) returns (i: nat)
    requires Transition(model, rt, userId, ingredient, feedback, hits).Ok?
    ensures Ranking.IsFirstMax(hits, Weight, i) && "feedback_weight" in hits[i].metadata
    ensures forall j :: 0 <= j < |hits| ==> !WeightLess(RawWeight(hits[i]), RawWeight(hits[j]))
    ensures forall j :: 0 <= j < i ==> WeightLess(RawWeight(hits[j]), RawWeight(hits[i]))
    ensures Rewrite(model, rt, userId, ingredient, feedback, hits[i].metadata).Ok?
    ensures Transition(model, rt, userId, ingredient, feedback, hits).value
         == Write(hits[i].id, Rewrite(model, rt, userId, ingredient, feedback, hits[i].metadata).value)
  {
    i := Ranking.SortDescHead(hits, Weight);
    forall j | 0 <= j < |hits|
      ensures !WeightLess(RawWeight(hits[i]), RawWeight(hits[j]))
      ensures j < i ==> WeightLess(RawWeight(hits[j]), RawWeight(hits[i]))
    {
      WeightOrder(hits, i, j);
      WeightOrder(hits, j, i);
    }
  }

  /** Weights stored as strings are ranked, not rejected: of two records
      weighted "1" and "2", the "2" record is selected. */
  lemma {:induction false} TextWeightsRanked(h1: Hit, h2: Hit)
    requires "feedback_weight" in h1.metadata && h1.metadata["feedback_weight"] == PyStr("1")
    requires "feedback_weight" in h2.metadata && h2.metadata["feedback_weight"] == PyStr("2")
    ensures SortError([h1, h2]).None?
    ensures Ranking.SortDesc([h1, h2], Weight)[0] == h2
  {
    TextWeightsSortable(h1, h2);
    TextWeightOrder(h1, h2);
    assert [h1, h2][1..] == [h2] && [h2][1..] == [];
    assert Ranking.SortDesc([h2], Weight) == [h2];
    assert Ranking.SortDesc([h1, h2], Weight) == Ranking.Insert(h1, [h2], Weight);
  }

  /** Two weights that are both strings raise nothing when sorted. */
  lemma {:induction false} TextWeightsSortable(h1: Hit, h2: Hit)
    requires "feedback_weight" in h1.metadata && h1.metadata["feedback_weight"] == PyStr("1")
    requires "feedback_weight" in h2.metadata && h2.metadata["feedback_weight"] == PyStr("2")
    ensures RawWeight(h1) == PyStr("1") && RawWeight(h2) == PyStr("2")
    ensures SortError([h1, h2]).None?
  {
    assert RawWeight(h1) == PyStr("1") && RawWeight(h2) == PyStr("2");
  }

  /** The weight "1" ranks below the weight "2", as it does in Python's order of strings. */
  lemma {:induction false} TextWeightOrder(h1: Hit, h2: Hit)
    requires RawWeight(h1) == PyStr("1") && RawWeight(h2) == PyStr("2")
    ensures Weight(h1) < Weight(h2)
  {
    assert StrLess("1", "2");
    StrRankOrder("1", "2");
  }

  /** "more" then "less" is not a round trip: it leaves 0.99 of the amount. */
  lemma {:induction false} MoreThenLess(a: real)
    ensures NewAmount("more", PyFloat(a)).Ok?
    ensures NewAmount("less", NewAmount("more", PyFloat(a)).value) == Ok(PyFloat(a * (99.0 / 100.0)))
    ensures a != 0.0 ==> NewAmount("less", NewAmount("more", PyFloat(a)).value) != Ok(PyFloat(a))
  {
  }

  /** Three "perfect" feedbacks on weight 1.0 give 2.5, amount untouched. */
  lemma {:induction false} PerfectThrice(amount: Value)
    ensures NewWeight("perfect", PyFloat(1.0)) == Ok(PyFloat(1.5))
    ensures NewWeight("perfect", PyFloat(1.5)) == Ok(PyFloat(2.0))
    ensures NewWeight("perfect", PyFloat(2.0)) == Ok(PyFloat(2.5))
    ensures NewAmount("perfect", amount) == Ok(amount)
  {
  }

  class PineconeManager {
    /** `self.pinecone is not None`. */
    const clientReady: bool
    /** `self.index is not None`. */
    const indexReady: bool
    /** Whether `__init__` got as far as setting `self.embedder`. */
    const hasEmbedder: bool
    const embedder: Embedder
    const rt: Runtime
    /** The index provider's k-NN query. */
    const ann: Ann
    /** The provider's answer to an upsert request on the current records:
        None when it stores the batch, the exception the call raises
        otherwise (network or provider error). */
    const upsertFault: (Index, seq<Write>) -> Option<PyError>
    /** The records stored in the index. */
    var index: Index

    /** What `__init__` guarantees about the flags: an index only comes with a
        client, and the embedder attribute is set exactly on the path that
        created the client. */
    predicate Valid() {
      && (indexReady ==> clientReady)
      && hasEmbedder == clientReady
    }

    /** `__init__`: without an API key, or when the client fails to start,
        neither client nor index nor embedder is set; otherwise the client is
        set, the embedder is attached and the index is whatever connecting
        gave (`connected`). */
    constructor (apiKeyPresent: bool, clientStarts: bool, connected: Option<Index>,
                 embedder: Embedder, rt: Runtime, ann: Ann, upsertFault: (Index, seq<Write>) -> Option<PyError>)
      ensures Valid()
      ensures clientReady == (apiKeyPresent && clientStarts)
      ensures indexReady == (clientReady && connected.Some?)
      ensures indexReady ==> index == connected.value
      ensures this.embedder.loaded == embedder.loaded && this.embedder.model == embedder.model
      ensures this.rt == rt && this.ann == ann && this.upsertFault == upsertFault
    {
      clientReady := apiKeyPresent && clientStarts;
      indexReady := apiKeyPresent && clientStarts && connected.Some?;
      hasEmbedder := apiKeyPresent && clientStarts;
      this.embedder := embedder;
      this.rt := rt;
      this.ann := ann;
      this.upsertFault := upsertFault;
      index := if apiKeyPresent && clientStarts && connected.Some? then connected.value else map[];
    }

    /** `search`: no query when the index is unavailable or the query vector is
        not a list; otherwise the provider's answer (None if the call fails,
        including a list the client cannot read as numbers). */
    function Search(queryVector: Value, topK: nat, filter: Filter): (r: Option<seq<Hit>>)
      reads this
      ensures (!indexReady || !queryVector.PyList?) ==> r == None
      ensures r.Some? ==> SoundAnswer(index, filter, topK, r.value)
    {
      if !indexReady then None
      else if !queryVector.PyList? then None
      else match AsVector(queryVector)
        case None => None
        case Some(q) => ann(index, q, topK, filter)
    }

    /** The guards of `upsert_vectors`: the batch reaches the index only if the
        index is available, the list is non-empty, every entry is a dict with
        "id" and "values", the client can read every entry and the provider
        accepts the request. */
    predicate UpsertAccepted(vectors: seq<Value>)
      reads this
    {
      && indexReady
      && vectors != []
      && (forall i :: 0 <= i < |vectors| ==> HasIdAndValues(vectors[i]))
      && AsWrites(vectors).Some?
      && upsertFault(index, AsWrites(vectors).value).None?
    }

    method UpsertVectors(vectors: seq<Value>)
      modifies this`index
      ensures old(UpsertAccepted(vectors)) ==> index == ApplyWrites(old(index), AsWrites(vectors).value)
      ensures !old(UpsertAccepted(vectors)) ==> index == old(index)
    {
      if !indexReady {
        return;
      }
      if vectors == [] {
        return;
      }
      if !(forall i :: 0 <= i < |vectors| ==> HasIdAndValues(vectors[i])) {
        return;
      }
      var writes := AsWrites(vectors);
      if writes.None? {
        // the client raises; the exception is caught and printed
        return;
      }
      if upsertFault(index, writes.value).Some? {
        // the provider's exception is caught and printed
        return;
      }
      index := ApplyWrites(index, writes.value);
    }

    /** The whole of `update_user_taste_feedback` as a function of the current
        state: the record it writes, or the exception it raises. Only a
        record of the index that belongs to the user can be written. */
    function FeedbackEffect(userId: string, ingredient: string, feedback: string): (r: Result<Write>)
      reads this
      ensures !hasEmbedder ==> r == Err(AttributeError)
      ensures hasEmbedder && !embedder.loaded ==> r == Err(RuntimeError(NotLoadedMessage))
      ensures hasEmbedder && embedder.loaded && !indexReady ==> r == Err(AttributeError)
      ensures r.Ok? ==> r.value.id in index && "user_id" in index[r.value.id].metadata
                        && index[r.value.id].metadata["user_id"] == PyStr(userId)
      ensures r.Ok? ==> upsertFault(index, [r.value]).None?
    {
      if !hasEmbedder then Err(AttributeError)
      else match Encode(embedder, ingredient)
      case Err(e) => Err(e)
      case Ok(q) =>
        var filter := map["user_id" := PyStr(userId)];
        match Search(FloatList(q), DefaultTopK, filter)
        case None => Err(AttributeError)
        case Some(hits) =>
          var r := Transition(embedder.model, rt, userId, ingredient, feedback, hits);
          assert r.Ok? ==> exists h :: h in hits && h.id == r.value.id && Matches(filter, index[h.id].metadata);
          match r
          case Err(e) => Err(e)
          case Ok(w) =>
            match upsertFault(index, [w])
            case Some(e) => Err(e)
            case None => Ok(w)
    }

    /** `update_user_taste_feedback(user_id, ingredient, feedback)`. It returns
        None or raises (it has no handler of its own, so a rejected upsert
        raises too); on return exactly one record, under the selected id, has
        been replaced. */
    method UpdateUserTasteFeedback(userId: string, ingredient: string, feedback: string) returns (c: Completion)
      modifies this`index
      ensures old(FeedbackEffect(userId, ingredient, feedback)).Ok? ==>
        var w := old(FeedbackEffect(userId, ingredient, feedback)).value;
        c == Returned && index == old(index)[w.id := w.entry]
      ensures old(FeedbackEffect(userId, ingredient, feedback)).Err? ==>
        c == Raised(old(FeedbackEffect(userId, ingredient, feedback)).error) && index == old(index)
    {
      if !hasEmbedder {
        // `self.embedder` was never set
        return Raised(AttributeError);
      }
      var embedding := Encode(embedder, ingredient);
      if embedding.Err? {
        return Raised(embedding.error);
      }
      var response := Search(FloatList(embedding.value), DefaultTopK, map["user_id" := PyStr(userId)]);
      if response.None? {
        // `None.get("matches", [])`
        return Raised(AttributeError);
      }
      var matches := response.value;
      var sortError := SortError(matches);
      if sortError.Some? {
        return Raised(sortError.value);
      }
      var sorted := Ranking.SortDesc(matches, Weight);
      if sorted == [] {
        // `sorted_response[0]` on an empty list
        return Raised(IndexError);
      }
      var existingTaste := sorted[0].metadata;
      var pineconeId := sorted[0].id;
      assert sorted[0] in multiset(matches);
      // the guard `if not existing_taste: return` never fires: the sort key
      // made sure the metadata holds a weight
      assert existingTaste != map[];

      if "amount" !in existingTaste {
        return Raised(KeyError("amount"));
      }
      var newAmount := NewAmount(feedback, existingTaste["amount"]);
      if newAmount.Err? {
        return Raised(newAmount.error);
      }
      var newWeight := NewWeight(feedback, existingTaste["feedback_weight"]);
      if newWeight.Err? {
        return Raised(newWeight.error);
      }
      if "unit" !in existingTaste {
        return Raised(KeyError("unit"));
      }
      if "servings" !in existingTaste {
        return Raised(KeyError("servings"));
      }
      if "cuisine" !in existingTaste {
        return Raised(KeyError("cuisine"));
      }
      var tasteText := TasteText(rt, PyStr(ingredient), newAmount.value, existingTaste["unit"],
                                 existingTaste["servings"], existingTaste["cuisine"]);
      var newEmbedding := embedder.model(tasteText);
      var w := Write(pineconeId, Entry(newEmbedding, map[
        "user_id" := PyStr(userId),
        "ingredient" := PyStr(ingredient),
        "amount" := newAmount.value,
        "unit" := existingTaste["unit"],
        "servings" := existingTaste["servings"],
        "cuisine" := existingTaste["cuisine"],
        "feedback_weight" := newWeight.value]));
      var fault := upsertFault(index, [w]);
      if fault.Some? {
        return Raised(fault.value);
      }
      index := index[w.id := w.entry];
      c := Returned;
    }
  }
}
