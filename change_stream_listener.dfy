/** change_stream_listener.py: `process_change_event`, which turns one
    MongoDB change event into at most one write to the index. */
module ChangeStream {
  import opened PyValues
  import opened VectorIndex
  import opened TasteRecord
  import opened Embedding
  import opened Pinecone

  type Change = map<string, Value>

  /** What `collection.find_one({"_id": ...})` gives: it raises, finds
      nothing, or finds a document. */
  datatype Lookup = LookupFailed | NotFound | Found(doc: map<string, Value>)

  /** `document_key.get("_id") if document_key else None`; a truthy
      `documentKey` that is not a dict has no `.get` and raises. */
  function ObjectIdOf(change: Change): (r: Result<Value>)
    ensures r.Err? <==> Truthy(Get(change, "documentKey", PyNone)) && !Get(change, "documentKey", PyNone).PyDict?
  {
    var key := Get(change, "documentKey", PyNone);
    if !Truthy(key) then Ok(PyNone)
    else if key.PyDict? then Ok(Get(key.fields, "_id", PyNone))
    else Err(AttributeError)
  }

  predicate IsWriteOperation(change: Change) {
    var op := Get(change, "operationType", PyNone);
    op == PyStr("insert") || op == PyStr("update") || op == PyStr("replace")
  }

  /** The document a write event is about: `fullDocument` when it is truthy,
      otherwise the document found under the event's `_id`; None when there
      is no `_id` or the lookup fails or finds nothing. */
  function ChangeDocument(change: Change, objectId: Value, findOne: Value -> Lookup): Option<Value> {
    var full := Get(change, "fullDocument", PyNone);
    if Truthy(full) then Some(full)
    else if !Truthy(objectId) then None
    else match findOne(objectId)
      case LookupFailed => None
      case NotFound => None
      case Found(d) => if d == map[] then None else Some(PyDict(d))
  }

  /** `float(amount)`, or the raw value when `float` raises. */
  function AmountNum(rt: Runtime, amount: Value): (r: Value)
    ensures IsNumber(amount) ==> r == PyFloat(Num(amount))
    ensures ToFloat(rt, amount).None? ==> r == amount
  {
    match ToFloat(rt, amount)
    case Some(x) => PyFloat(x)
    case None => amount
  }

  /** `float(feedback_weight)`, or 1.0 when `float` raises. */
  function WeightNum(rt: Runtime, weight: Value): (r: real)
    ensures IsNumber(weight) ==> r == Num(weight)
    ensures ToFloat(rt, weight).None? ==> r == 1.0
  {
    match ToFloat(rt, weight)
    case Some(x) => x
    case None => 1.0
  }

  /** Lines 101-110: the listener's metadata, with `amount` and
      `feedback_weight` coerced and `original_text` built from the raw amount. */
  function ListenerMetadata(rt: Runtime, doc: map<string, Value>): map<string, Value> {
    map[
      "user_id" := PyStr(Str(rt, Get(doc, "user_id", PyNone))),
      "ingredient" := Get(doc, "ingredient", PyNone),
      "amount" := AmountNum(rt, Get(doc, "amount", PyNone)),
      "unit" := Get(doc, "unit", PyStr("")),
      "servings" := Get(doc, "servings", PyNone),
      "cuisine" := Get(doc, "cuisine", PyNone),
      "feedback_weight" := PyFloat(WeightNum(rt, Get(doc, "feedback_weight", PyFloat(1.0)))),
      "original_text" := PyStr(DocumentText(rt, doc))]
  }

  /** The one dict the listener upserts for a valid document. */
  function ListenerVector(model: string -> seq<real>, rt: Runtime, doc: map<string, Value>): Value
    requires HasRequiredFields(doc)
  {
    VectorDict(Str(rt, doc["_id"]), model(DocumentText(rt, doc)), ListenerMetadata(rt, doc))
  }

  /** The `try` block of `process_change_event` for an event whose `_id` is
      `objectId`: the write it makes, if any. Everything raised inside it (a
      document without `.get`, an unloaded model) is caught and means no
      write. */
  function WriteEffect(embedder: Embedder, rt: Runtime, change: Change, objectId: Value, findOne: Value -> Lookup)
    : Option<Write>
  {
    if !IsWriteOperation(change) then None
    else match ChangeDocument(change, objectId, findOne)
      case None => None
      case Some(full) =>
        if !full.PyDict? || !HasRequiredFields(full.fields) || !embedder.loaded then None
        else
          var doc := full.fields;
          Some(Write(Str(rt, doc["_id"]), Entry(embedder.model(DocumentText(rt, doc)), ListenerMetadata(rt, doc))))
  }

  /** A write event whose document has the required fields, with the model
      loaded, writes the document's embedding and metadata under its `_id`. */
  lemma {:induction false} WriteEffectOf(embedder: Embedder, rt: Runtime, change: Change, objectId: Value,
                                         findOne: Value -> Lookup, full: Value)
    requires IsWriteOperation(change) && ChangeDocument(change, objectId, findOne) == Some(full)
    requires full.PyDict? && HasRequiredFields(full.fields) && embedder.loaded
    ensures WriteEffect(embedder, rt, change, objectId, findOne)
      == Some(Write(Str(rt, full.fields["_id"]),
                    Entry(embedder.model(DocumentText(rt, full.fields)), ListenerMetadata(rt, full.fields))))
  {
  }

  /** The whole of `process_change_event` on an index that is available:
      the exception that escapes (only from line 25), or the write it makes,
      if any. */
  function ChangeEffect(embedder: Embedder, rt: Runtime, change: Change, findOne: Value -> Lookup)
    : Result<Option<Write>>
  {
    match ObjectIdOf(change)
    case Err(e) => Err(e)
    case Ok(objectId) => Ok(WriteEffect(embedder, rt, change, objectId, findOne))
  }

  /** The index after `upsert_vectors([vector])` hands the one write `w` to
      the provider: stored, or unchanged when the provider raises (the
      exception is caught and printed). */
  function UpsertOutcome(fault: (Index, seq<Write>) -> Option<PyError>, idx: Index, w: Write): Index {
    if fault(idx, [w]).None? then idx[w.id := w.entry] else idx
  }

  /** `process_change_event(change, pinecone_manager, mongo_db)`, with the
      `find_one` fallback as `findOne`. */
  method ProcessChangeEvent(change: Change, pm: PineconeManager, findOne: Value -> Lookup) returns (c: Completion)
    requires pm.Valid()
    modifies pm`index
    ensures !pm.indexReady ==> pm.index == old(pm.index)
    ensures !pm.indexReady ==> (c == Returned <==> ObjectIdOf(change).Ok?)
    ensures pm.indexReady ==> match ChangeEffect(pm.embedder, pm.rt, change, findOne)
      case Err(e) => c == Raised(e) && pm.index == old(pm.index)
      case Ok(None) => c == Returned && pm.index == old(pm.index)
      case Ok(Some(w)) => c == Returned && pm.index == UpsertOutcome(pm.upsertFault, old(pm.index), w)
  {
    var documentKey := Get(change, "documentKey", PyNone);
    var mongoObjectId := PyNone;
    if Truthy(documentKey) {
      if !documentKey.PyDict? {
        return Raised(AttributeError);
      }
      mongoObjectId := Get(documentKey.fields, "_id", PyNone);
    }
    if !pm.indexReady {
      return Returned;
    }
    // `pm.Valid()`: an index comes with the embedder attribute, so reading
    // `pinecone_manager.embedder` cannot raise here
    WriteChange(change, mongoObjectId, pm, findOne);
    return Returned;
  }

  /** The `try` block of `process_change_event`. */
  method WriteChange(change: Change, mongoObjectId: Value, pm: PineconeManager, findOne: Value -> Lookup)
    requires pm.Valid() && pm.indexReady
    modifies pm`index
    ensures match WriteEffect(pm.embedder, pm.rt, change, mongoObjectId, findOne)
      case None => pm.index == old(pm.index)
      case Some(w) => pm.index == UpsertOutcome(pm.upsertFault, old(pm.index), w)
  {
    if !IsWriteOperation(change) {
      // delete or an unhandled operation type: nothing is written
      return;
    }
    var fullDocument := Get(change, "fullDocument", PyNone);
    if !Truthy(fullDocument) {
      if !Truthy(mongoObjectId) {
        return;
      }
      var fetched := findOne(mongoObjectId);
      if !fetched.Found? || fetched.doc == map[] {
        return;
      }
      fullDocument := PyDict(fetched.doc);
    }
    assert ChangeDocument(change, mongoObjectId, findOne) == Some(fullDocument);
    if !fullDocument.PyDict? {
      // `full_document.get` raises; the outer handler swallows it
      return;
    }
    var doc := fullDocument.fields;
    if !HasRequiredFields(doc) {
      return;
    }
    var tasteText := DocumentText(pm.rt, doc);
    var embedding := Encode(pm.embedder, tasteText);
    if embedding.Err? {
      // RuntimeError, caught by the outer handler
      return;
    }
    var vector := VectorDict(Str(pm.rt, doc["_id"]), embedding.value, ListenerMetadata(pm.rt, doc));
    ghost var w := Write(Str(pm.rt, doc["_id"]), Entry(embedding.value, ListenerMetadata(pm.rt, doc)));
    WriteEffectOf(pm.embedder, pm.rt, change, mongoObjectId, findOne, fullDocument);
    VectorDictRoundTrip(w.id, embedding.value, ListenerMetadata(pm.rt, doc));
    SingleWrite(pm.index, vector, w);
    assert pm.UpsertAccepted([vector]) <==> pm.upsertFault(pm.index, [w]).None?;
    pm.UpsertVectors([vector]);
  }

  /** A write event whose document fails the required-field check writes
      nothing; so do deletes and unknown operations. */
  lemma {:induction false} ChangeEffectSkips(embedder: Embedder, rt: Runtime, change: Change, findOne: Value -> Lookup)
    requires ObjectIdOf(change).Ok?
    ensures !IsWriteOperation(change) ==> ChangeEffect(embedder, rt, change, findOne) == Ok(None)
    ensures (IsWriteOperation(change) && Truthy(Get(change, "fullDocument", PyNone))
             && Get(change, "fullDocument", PyNone).PyDict?
             && !HasRequiredFields(Get(change, "fullDocument", PyNone).fields))
        ==> ChangeEffect(embedder, rt, change, findOne) == Ok(None)
  {
  }

  /** A write happens exactly for an insert, update or replace whose
      document is a dict passing the required-field check, with a loaded
      model; it is that document's vector under id `str(_id)` with the
      listener's metadata. */
  lemma {:induction false} ListenerWrites(embedder: Embedder, rt: Runtime, change: Change, findOne: Value -> Lookup)
    requires ObjectIdOf(change).Ok?
    ensures var d := ChangeDocument(change, ObjectIdOf(change).value, findOne);
      (ChangeEffect(embedder, rt, change, findOne).value.Some?
       <==> IsWriteOperation(change) && embedder.loaded && d.Some? && d.value.PyDict? && HasRequiredFields(d.value.fields))
    ensures var d := ChangeDocument(change, ObjectIdOf(change).value, findOne);
      IsWriteOperation(change) && embedder.loaded && d.Some? && d.value.PyDict? && HasRequiredFields(d.value.fields) ==>
      var doc := d.value.fields;
      ChangeEffect(embedder, rt, change, findOne)
        == Ok(Some(Write(Str(rt, doc["_id"]), Entry(embedder.model(DocumentText(rt, doc)), ListenerMetadata(rt, doc)))))
  {
  }

  /** What the listener's metadata holds: the taste text the vector is made
      from, as `original_text`; `unit` and `feedback_weight` take their
      defaults; `amount` and `feedback_weight` are stored as floats when
      `float()` accepts them, `amount` raw and the weight as 1.0 otherwise. */
  lemma {:induction false} ListenerMetadataFields(rt: Runtime, doc: map<string, Value>)
    requires HasRequiredFields(doc)
    ensures var md := ListenerMetadata(rt, doc);
      && md.Keys == {"user_id", "ingredient", "amount", "unit", "servings", "cuisine", "feedback_weight", "original_text"}
      && md["original_text"] == PyStr(DocumentText(rt, doc))
      && md["user_id"] == PyStr(Str(rt, doc["user_id"]))
      && md["unit"] == (if "unit" in doc then doc["unit"] else PyStr(""))
      && (ToFloat(rt, doc["amount"]).Some? ==> md["amount"] == PyFloat(ToFloat(rt, doc["amount"]).value))
      && (ToFloat(rt, doc["amount"]).None? ==> md["amount"] == doc["amount"])
      && ("feedback_weight" !in doc ==> md["feedback_weight"] == PyFloat(1.0))
      && ("feedback_weight" in doc && ToFloat(rt, doc["feedback_weight"]).None? ==> md["feedback_weight"] == PyFloat(1.0))
      && ("feedback_weight" in doc && ToFloat(rt, doc["feedback_weight"]).Some? ==>
            md["feedback_weight"] == PyFloat(ToFloat(rt, doc["feedback_weight"]).value))
  {
  }

  /** With no `fullDocument`, the lookup decides: no `_id`, a failed lookup
      or an empty result writes nothing. */
  lemma {:induction false} LookupFallback(embedder: Embedder, rt: Runtime, change: Change, findOne: Value -> Lookup)
    requires ObjectIdOf(change).Ok? && IsWriteOperation(change)
    requires !Truthy(Get(change, "fullDocument", PyNone))
    ensures var id := ObjectIdOf(change).value;
      (!Truthy(id) || findOne(id).LookupFailed? || findOne(id).NotFound? || findOne(id) == Found(map[]))
      ==> ChangeEffect(embedder, rt, change, findOne) == Ok(None)
  {
  }

  /** The coerced record drifts: for an integer amount the stored metadata
      says `float(amount)`, while the vector and `original_text` were made
      from the integer. The record is drift-free exactly when the model gives
      the same vector for both renderings. */
  lemma {:induction false} IntegerAmountDrift(model: string -> seq<real>, rt: Runtime, doc: map<string, Value>, i: int)
    requires HasRequiredFields(doc) && doc["amount"] == PyInt(i)
    ensures ListenerMetadata(rt, doc)["amount"] == PyFloat(i as real)
    ensures ListenerMetadata(rt, doc)["original_text"] == PyStr(DocumentText(rt, doc))
    ensures EmbeddingConsistent(model, rt, Entry(model(DocumentText(rt, doc)), ListenerMetadata(rt, doc)))
        <==> model(DocumentText(rt, doc)) == model(DocumentText(rt, doc["amount" := PyFloat(i as real)]))
  {
    var d2 := doc["amount" := PyFloat(i as real)];
    assert Get(d2, "ingredient", PyNone) == Get(doc, "ingredient", PyNone);
    assert Get(d2, "unit", PyStr("")) == Get(doc, "unit", PyStr(""));
    assert Get(d2, "servings", PyNone) == Get(doc, "servings", PyNone);
    assert Get(d2, "cuisine", PyNone) == Get(doc, "cuisine", PyNone);
  }

  /** Where there is nothing to coerce (a float amount, a float or absent
      weight), the listener writes the same record as the batch loaders, and
      that record is drift-free. */
  lemma {:induction false} ListenerAgreesWithBatch(model: string -> seq<real>, rt: Runtime, doc: map<string, Value>)
    requires HasRequiredFields(doc) && doc["amount"].PyFloat?
    requires "feedback_weight" in doc ==> doc["feedback_weight"].PyFloat?
    ensures ListenerMetadata(rt, doc) == BatchMetadata(rt, doc)
    ensures AsWrite(ListenerVector(model, rt, doc)) == AsWrite(BatchVector(model, rt, doc))
    ensures EmbeddingConsistent(model, rt, Entry(model(DocumentText(rt, doc)), ListenerMetadata(rt, doc)))
  {
    BatchVectorWrites(model, rt, doc);
    BatchMetadataFields(model, rt, doc);
  }
}
