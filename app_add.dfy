/** add_user_preference/app_add.py: the `/ingest` endpoint, the ingestion
    loop of ingest_data.py behind an HTTP response. */
module IngestEndpoint {
  import opened PyValues
  import opened VectorIndex
  import opened Pinecone
  import opened Ingestion
  import opened Embedding
  import opened TasteRecord

  /** The endpoint's outcome: a JSON `{"message": ...}` or an HTTPException. */
  datatype Response = Message(text: string) | HttpError(status: nat, detail: string)

  const InitFailed := "Pinecone initialization failed."
  const MongoFailed := "Failed to connect to MongoDB."
  const NoData := "No taste data found in MongoDB."
  const NothingValid := "No valid data to upsert into Pinecone."

  function SuccessMessage(count: nat): string {
    "Successfully upserted " + IntStr(count) + " vectors into Pinecone."
  }

  /** `ingest_data_to_pinecone()` with the manager it built and `data` as
      what MongoDB gave (None when the connection failed). */
  method IngestDataToPinecone(pm: PineconeManager, data: Option<seq<Document>>) returns (resp: Response)
    requires pm.Valid()
    modifies pm`index
    ensures !pm.clientReady || !pm.indexReady ==> resp == HttpError(500, InitFailed)
    ensures pm.clientReady && pm.indexReady && data.None? ==> resp == HttpError(500, MongoFailed)
    ensures pm.clientReady && pm.indexReady && data == Some([]) ==> resp == Message(NoData)
    ensures pm.clientReady && pm.indexReady && data.Some? && data.value != [] ==>
      var writes := BatchWrites(pm.embedder, pm.rt, data.value);
      resp == (if writes == [] then Message(NothingValid) else Message(SuccessMessage(|writes|)))
    ensures pm.clientReady && pm.indexReady && data.Some? ==>
      var writes := BatchWrites(pm.embedder, pm.rt, data.value);
      pm.index == if pm.upsertFault(old(pm.index), writes).None? then ApplyWrites(old(pm.index), writes) else old(pm.index)
    ensures (!pm.clientReady || !pm.indexReady || data.None?) ==> pm.index == old(pm.index)
  {
    if !pm.clientReady || !pm.indexReady {
      return HttpError(500, InitFailed);
    }
    if data.None? {
      return HttpError(500, MongoFailed);
    }
    var userTasteData := data.value;
    if userTasteData == [] {
      return Message(NoData);
    }
    var vectorsToUpsert := PrepareVectors(pm.embedder, pm.rt, userTasteData);
    PreparedReadsAsBatchWrites(pm.embedder, pm.rt, userTasteData);
    if vectorsToUpsert == [] {
      return Message(NothingValid);
    }
    pm.UpsertVectors(vectorsToUpsert);
    PreparedIsMap(pm.embedder, pm.rt, userTasteData);
    return Message(SuccessMessage(|vectorsToUpsert|));
  }

  /** The reported count is the number of valid documents, not the number
      of records that end up in the index: two valid documents with the same
      `_id` are reported as two vectors but add one record. */
  lemma {:induction false} ReportedCountOverstates(embedder: Embedder, rt: Runtime, d1: Document, d2: Document, idx: Index)
    requires embedder.loaded && HasRequiredFields(d1) && HasRequiredFields(d2) && d1["_id"] == d2["_id"]
    ensures |BatchWrites(embedder, rt, [d1, d2])| == 2
    ensures ApplyWrites(idx, BatchWrites(embedder, rt, [d1, d2])).Keys == idx.Keys + {Str(rt, d1["_id"])}
  {
    assert [d1, d2][..1] == [d1];
    assert [d1][..0] == [];
    assert ValidItems([d1, d2]) == [d1, d2];
    var ws := BatchWrites(embedder, rt, [d1, d2]);
    var id := Str(rt, d1["_id"]);
    assert ws[0].id == id && ws[1].id == id;
    var idx1 := idx[id := ws[0].entry];
    assert ws[1..][1..] == [];
    assert ApplyWrites(idx, ws) == ApplyWrites(idx1, ws[1..]);
    assert ApplyWrites(idx1, ws[1..]) == idx1[id := ws[1].entry];
  }
}
