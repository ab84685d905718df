/** The taste record as the source builds it in several places: the
    required-field check, the taste text that is the sole input of the
    embedder, and the record the batch ingestion loops produce. */
module TasteRecord {
  import opened PyValues
  import opened VectorIndex

  /** `f"{ingredient} {amount}{unit} for {servings} servings in {cuisine} cuisine"`. */
  function TasteText(rt: Runtime, ingredient: Value, amount: Value, unit: Value, servings: Value, cuisine: Value): string {
    Str(rt, ingredient) + " " + Str(rt, amount) + Str(rt, unit) + " for " + Str(rt, servings)
      + " servings in " + Str(rt, cuisine) + " cuisine"
  }

  /** The check `all([user_id is not None, ingredient, amount is not None,
      servings is not None, cuisine, _id])`: three fields only need to be
      present and not None (so 0 passes), three must be truthy. */
  predicate HasRequiredFields(doc: map<string, Value>) {
    && Get(doc, "user_id", PyNone) != PyNone
    && Truthy(Get(doc, "ingredient", PyNone))
    && Get(doc, "amount", PyNone) != PyNone
    && Get(doc, "servings", PyNone) != PyNone
    && Truthy(Get(doc, "cuisine", PyNone))
    && Truthy(Get(doc, "_id", PyNone))
  }

  /** The text a document's own fields give, with `unit` defaulting to "". */
  function DocumentText(rt: Runtime, doc: map<string, Value>): string {
    TasteText(rt, Get(doc, "ingredient", PyNone), Get(doc, "amount", PyNone),
      Get(doc, "unit", PyStr("")), Get(doc, "servings", PyNone), Get(doc, "cuisine", PyNone))
  }

  /** The index record holds a vector that is the embedding of the taste text
      its own metadata gives: no embedding drift. */
  ghost predicate EmbeddingConsistent(model: string -> seq<real>, rt: Runtime, e: Entry) {
    var md := e.metadata;
    && "ingredient" in md && "amount" in md && "unit" in md && "servings" in md && "cuisine" in md
    && e.values == model(TasteText(rt, md["ingredient"], md["amount"], md["unit"], md["servings"], md["cuisine"]))
  }

  /** The metadata ingest_data.py and app_add.py attach: the raw field values
      (no coercion), `user_id` as `str(user_id)`, the defaults for `unit` and
      `feedback_weight`, and the taste text. */
  function BatchMetadata(rt: Runtime, doc: map<string, Value>): map<string, Value> {
    map[
      "user_id" := PyStr(Str(rt, Get(doc, "user_id", PyNone))),
      "ingredient" := Get(doc, "ingredient", PyNone),
      "amount" := Get(doc, "amount", PyNone),
      "unit" := Get(doc, "unit", PyStr("")),
      "servings" := Get(doc, "servings", PyNone),
      "cuisine" := Get(doc, "cuisine", PyNone),
      "feedback_weight" := Get(doc, "feedback_weight", PyFloat(1.0)),
      "original_text" := PyStr(DocumentText(rt, doc))]
  }

  /** The `{"id", "values", "metadata"}` dict the batch loops append for one
      document that passed the required-field check. */
  function BatchVector(model: string -> seq<real>, rt: Runtime, doc: map<string, Value>): Value
    requires HasRequiredFields(doc)
  {
    VectorDict(Str(rt, doc["_id"]), model(DocumentText(rt, doc)), BatchMetadata(rt, doc))
  }

  /** A batch record is read back as the write of id `str(_id)` with the
      embedding of the taste text and the batch metadata. */
  lemma {:induction false} BatchVectorWrites(model: string -> seq<real>, rt: Runtime, doc: map<string, Value>)
    requires HasRequiredFields(doc)
    ensures AsWrite(BatchVector(model, rt, doc))
         == Some(Write(Str(rt, doc["_id"]), Entry(model(DocumentText(rt, doc)), BatchMetadata(rt, doc))))
  {
    VectorDictRoundTrip(Str(rt, doc["_id"]), model(DocumentText(rt, doc)), BatchMetadata(rt, doc));
  }

  /** The batch metadata holds the uncoerced fields and `original_text`
      equal to the taste text, so a batch record is free of embedding drift. */
  lemma {:induction false} BatchMetadataFields(model: string -> seq<real>, rt: Runtime, doc: map<string, Value>)
    requires HasRequiredFields(doc)
    ensures var md := BatchMetadata(rt, doc);
      && md["amount"] == doc["amount"] && md["servings"] == doc["servings"]
      && md["unit"] == (if "unit" in doc then doc["unit"] else PyStr(""))
      && md["feedback_weight"] == (if "feedback_weight" in doc then doc["feedback_weight"] else PyFloat(1.0))
      && md["original_text"] == PyStr(DocumentText(rt, doc))
    ensures EmbeddingConsistent(model, rt, Entry(model(DocumentText(rt, doc)), BatchMetadata(rt, doc)))
  {
    var md := BatchMetadata(rt, doc);
    assert md["ingredient"] == Get(doc, "ingredient", PyNone);
    assert md["cuisine"] == Get(doc, "cuisine", PyNone);
  }
}
