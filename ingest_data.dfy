/** ingest_data.py: the batch ingestion of MongoDB taste documents into the
    index. The same preparation loop appears in add_user_preference/app_add.py,
    which imports it from here in the model. */
module Ingestion {
  import opened PyValues
  import opened VectorIndex
  import opened TasteRecord
  import opened Embedding
  import opened Pinecone

  type Document = map<string, Value>

  /** The documents that pass the required-field check, in input order. */
  function ValidItems(items: seq<Document>): (r: seq<Document>)
    ensures |r| <= |items|
    ensures forall k :: 0 <= k < |r| ==> HasRequiredFields(r[k])
  {
    if items == [] then []
    else
      var last := items[|items| - 1];
      ValidItems(items[..|items| - 1]) + (if HasRequiredFields(last) then [last] else [])
  }

  /** The filter keeps every valid document and nothing else. */
  lemma {:induction false} ValidItemsMembers(items: seq<Document>, d: Document)
    ensures d in ValidItems(items) <==> d in items && HasRequiredFields(d)
  {
    if items != [] {
      var init := items[..|items| - 1];
      ValidItemsMembers(init, d);
      assert items == init + [items[|items| - 1]];
    }
  }

  /** The filter commutes with concatenation, so it keeps input order. */
  lemma {:induction false} ValidItemsAppend(a: seq<Document>, b: seq<Document>)
    ensures ValidItems(a + b) == ValidItems(a) + ValidItems(b)
    decreases |b|
  {
    if b != [] {
      var b' := b[..|b| - 1];
      assert (a + b)[..|a + b| - 1] == a + b';
      ValidItemsAppend(a, b');
    } else {
      assert a + b == a;
    }
  }

  /** One step of the preparation loop: the dict appended for `item`, if any.
      An invalid document is skipped; so is one whose embedding raises
      (caught by the loop's handler). */
  function PrepareOne(embedder: Embedder, rt: Runtime, item: Document): seq<Value> {
    if HasRequiredFields(item) && embedder.loaded then [BatchVector(embedder.model, rt, item)] else []
  }

  /** What the loop leaves in `vectors_to_upsert`. */
  function Prepared(embedder: Embedder, rt: Runtime, items: seq<Document>): seq<Value> {
    if items == [] then []
    else Prepared(embedder, rt, items[..|items| - 1]) + PrepareOne(embedder, rt, items[|items| - 1])
  }

  /** The records the batch means to write: one per valid document, in
      order, none at all without a loaded model. */
  function BatchWrites(embedder: Embedder, rt: Runtime, items: seq<Document>): (r: seq<Write>)
    ensures embedder.loaded ==> |r| == |ValidItems(items)|
    ensures !embedder.loaded ==> r == []
  {
    var valid := ValidItems(items);
    if !embedder.loaded then []
    else
      seq(|valid|, k requires 0 <= k < |valid| =>
        Write(Str(rt, valid[k]["_id"]), Entry(embedder.model(DocumentText(rt, valid[k])), BatchMetadata(rt, valid[k]))))
  }

  /** The prepared dicts are the batch vectors of the valid documents. */
  lemma {:induction false} PreparedIsMap(embedder: Embedder, rt: Runtime, items: seq<Document>)
    ensures !embedder.loaded ==> Prepared(embedder, rt, items) == []
    ensures embedder.loaded ==> |Prepared(embedder, rt, items)| == |ValidItems(items)|
    ensures embedder.loaded ==> forall k :: 0 <= k < |ValidItems(items)| ==>
      Prepared(embedder, rt, items)[k] == BatchVector(embedder.model, rt, ValidItems(items)[k])
  {
    if items != [] {
      PreparedIsMap(embedder, rt, items[..|items| - 1]);
    }
  }

  /** The index client reads the prepared list as exactly the intended
      writes; in particular every entry has an id and values, so the upsert
      guard only rejects an empty list. */
  lemma {:induction false} PreparedReadsAsBatchWrites(embedder: Embedder, rt: Runtime, items: seq<Document>)
    ensures AsWrites(Prepared(embedder, rt, items)) == Some(BatchWrites(embedder, rt, items))
    ensures forall k :: 0 <= k < |Prepared(embedder, rt, items)| ==> HasIdAndValues(Prepared(embedder, rt, items)[k])
    ensures Prepared(embedder, rt, items) == [] <==> BatchWrites(embedder, rt, items) == []
  {
    PreparedIsMap(embedder, rt, items);
    var p := Prepared(embedder, rt, items);
    var valid := ValidItems(items);
    var ws := BatchWrites(embedder, rt, items);
    forall k | 0 <= k < |p| ensures AsWrite(p[k]) == Some(ws[k]) {
      BatchVectorWrites(embedder.model, rt, valid[k]);
    }
    var r := AsWrites(p);
    assert r.value == ws;
  }

  /** The loop body runs once per document; `continue` skips it. */
  method PrepareVectors(embedder: Embedder, rt: Runtime, items: seq<Document>) returns (vectors: seq<Value>)
    ensures vectors == Prepared(embedder, rt, items)
  {
    vectors := [];
    for i := 0 to |items|
      invariant vectors == Prepared(embedder, rt, items[..i])
    {
      assert items[..i + 1][..i] == items[..i];
      var item := items[i];
      if !HasRequiredFields(item) {
        continue;
      }
      var tasteText := DocumentText(rt, item);
      var embedding := Encode(embedder, tasteText);
      if embedding.Err? {
        continue;
      }
      vectors := vectors + [VectorDict(Str(rt, item["_id"]), embedding.value, BatchMetadata(rt, item))];
    }
    assert items[..|items|] == items;
  }

  /** `ingest_data_to_pinecone()` with the manager it built, and `data` as
      what MongoDB gave: None when the connection failed. Without client or
      index, or without MongoDB, nothing is written; otherwise every valid
      document is written in order, the last one under an id winning. */
  method IngestDataToPinecone(pm: PineconeManager, data: Option<seq<Document>>)
    requires pm.Valid()
    modifies pm`index
    ensures (!pm.clientReady || !pm.indexReady || data.None?) ==> pm.index == old(pm.index)
    ensures pm.clientReady && pm.indexReady && data.Some? ==>
      var writes := BatchWrites(pm.embedder, pm.rt, data.value);
      pm.index == if pm.upsertFault(old(pm.index), writes).None? then ApplyWrites(old(pm.index), writes) else old(pm.index)
  {
    if !pm.clientReady || !pm.indexReady {
      return;
    }
    if data.None? {
      return;
    }
    var userTasteData := data.value;
    var vectorsToUpsert := [];
    if userTasteData != [] {
      // `pm.Valid()`: the embedder attribute is set, and it is truthy
      vectorsToUpsert := PrepareVectors(pm.embedder, pm.rt, userTasteData);
    }
    PreparedReadsAsBatchWrites(pm.embedder, pm.rt, userTasteData);
    if vectorsToUpsert != [] {
      pm.UpsertVectors(vectorsToUpsert);
    }
  }
}
