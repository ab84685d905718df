/** The external vector index as the core uses it: a map from record id to
    (vector, metadata), an upsert that overwrites whole records, and a
    filtered top-k query whose ranking and scores are an oracle. */
module VectorIndex {
  import opened PyValues

  datatype Entry = Entry(values: seq<real>, metadata: map<string, Value>)

  /** The records of the default namespace, by id. */
  type Index = map<string, Entry>

  /** Exact-match metadata filter; every listed field must be equal. */
  type Filter = map<string, Value>

  /** One query match: the record's id, its similarity score and its metadata. */
  datatype Hit = Hit(id: string, score: real, metadata: map<string, Value>)

  /** One record handed to the index in an upsert. */
  datatype Write = Write(id: string, entry: Entry)

  predicate Matches(f: Filter, metadata: map<string, Value>) {
    forall k :: k in f ==> k in metadata && metadata[k] == f[k]
  }

  /** What any answer of a k-NN query promises: at most `topK` distinct
      records of the index, reported with their stored metadata, each
      satisfying the filter. Order and scores are the provider's. */
  predicate SoundAnswer(idx: Index, f: Filter, topK: nat, hits: seq<Hit>) {
    && |hits| <= topK
    && (forall i :: 0 <= i < |hits| ==>
          hits[i].id in idx && hits[i].metadata == idx[hits[i].id].metadata
          && Matches(f, hits[i].metadata))
    && (forall i, j :: 0 <= i < j < |hits| ==> hits[i].id != hits[j].id)
  }

  /** The nearest-neighbour search of the provider. `None` is a failed call
      (network or provider error). */
  type Ann = ann: (Index, seq<real>, nat, Filter) -> Option<seq<Hit>>
    | forall idx, q, k, f :: ann(idx, q, k, f).Some? ==> SoundAnswer(idx, f, k, ann(idx, q, k, f).value)
    witness (idx: Index, q: seq<real>, k: nat, f: Filter) => None

  /** A vector as the Python list of floats the callers pass around. */
  function FloatList(v: seq<real>): (r: Value)
    ensures r.PyList? && |r.items| == |v|
  {
    PyList(seq(|v|, i requires 0 <= i < |v| => PyFloat(v[i])))
  }

  /** The vector a Python list of numbers denotes; None for anything else. */
  function AsVector(v: Value): Option<seq<real>> {
    if v.PyList? && forall i :: 0 <= i < |v.items| ==> IsNumber(v.items[i])
    then Some(seq(|v.items|, i requires 0 <= i < |v.items| && IsNumber(v.items[i]) => Num(v.items[i])))
    else None
  }

  lemma {:induction false} VectorRoundTrip(v: seq<real>)
    ensures AsVector(FloatList(v)) == Some(v)
  {
    var l := FloatList(v);
    assert forall i :: 0 <= i < |v| ==> l.items[i] == PyFloat(v[i]);
    var r := AsVector(l);
    assert r.Some? && |r.value| == |v|;
    assert forall i :: 0 <= i < |v| ==> r.value[i] == v[i];
    assert r.value == v;
  }

  /** The `{"id": ..., "values": ..., "metadata": ...}` dict of an upsert. */
  function VectorDict(id: string, values: seq<real>, metadata: map<string, Value>): Value {
    PyDict(map["id" := PyStr(id), "values" := FloatList(values), "metadata" := PyDict(metadata)])
  }

  /** The check `upsert_vectors` makes before calling the index. */
  predicate HasIdAndValues(v: Value) {
    v.PyDict? && "id" in v.fields && "values" in v.fields
  }

  /** How the index client reads one dict: a string id, a list of numbers and
      an optional metadata dict. Anything else makes the client raise. */
  function AsWrite(v: Value): (r: Option<Write>)
    ensures r.Some? ==> HasIdAndValues(v)
  {
    if !HasIdAndValues(v) || !v.fields["id"].PyStr? then None
    else
      var md := Get(v.fields, "metadata", PyDict(map[]));
      match AsVector(v.fields["values"])
      case None => None
      case Some(values) =>
        if md.PyDict? then Some(Write(v.fields["id"].s, Entry(values, md.fields))) else None
  }

  /** The dict built by the callers is read back as exactly the record they
      meant to write. */
  lemma {:induction false} VectorDictRoundTrip(id: string, values: seq<real>, metadata: map<string, Value>)
    ensures AsWrite(VectorDict(id, values, metadata)) == Some(Write(id, Entry(values, metadata)))
  {
    VectorRoundTrip(values);
  }

  /** The whole batch as the client reads it; one unreadable entry makes the
      client raise before anything is sent. */
  function AsWrites(vs: seq<Value>): (r: Option<seq<Write>>)
    ensures r.Some? ==> |r.value| == |vs|
    ensures r.Some? <==> forall i :: 0 <= i < |vs| ==> AsWrite(vs[i]).Some?
    ensures r.Some? ==> forall i :: 0 <= i < |vs| ==> r.value[i] == AsWrite(vs[i]).value
  {
    if vs == [] then Some([])
    else
      var w := AsWrite(vs[0]);
      var ws := AsWrites(vs[1..]);
      if w.Some? && ws.Some? then Some([w.value] + ws.value)
      else
        assert w.None? || AsWrite(vs[1..][0]).None? || exists i :: 0 < i < |vs[1..]| && AsWrite(vs[1..][i]).None?;
        None
  }

  /** The index after upserting `ws` in order; an upsert replaces the whole
      record stored under its id. */
  function ApplyWrites(idx: Index, ws: seq<Write>): Index
    decreases |ws|
  {
    if ws == [] then idx else ApplyWrites(idx[ws[0].id := ws[0].entry], ws[1..])
  }

  function Ids(ws: seq<Write>): set<string> {
    set i | 0 <= i < |ws| :: ws[i].id
  }

  /** A batch of one readable dict writes its one record. */
  lemma {:induction false} SingleWrite(idx: Index, v: Value, w: Write)
    requires AsWrite(v) == Some(w)
    ensures HasIdAndValues(v)
    ensures AsWrites([v]) == Some([w])
    ensures ApplyWrites(idx, [w]) == idx[w.id := w.entry]
  {
    assert [v][1..] == [];
    assert AsWrites([v][1..]) == Some([]);
    assert [w] + [] == [w];
    assert [w][1..] == [];
    assert ApplyWrites(idx, [w]) == ApplyWrites(idx[w.id := w.entry], []);
  }

  /** Upsert semantics: ids outside the batch keep their record (or stay
      absent), and an id in the batch ends up with the last record written
      under it. */
  lemma {:induction false} ApplyWritesFrame(idx: Index, ws: seq<Write>)
    decreases |ws|
    ensures forall id :: id !in Ids(ws) ==>
      (id in ApplyWrites(idx, ws) <==> id in idx)
      && (id in idx ==> ApplyWrites(idx, ws)[id] == idx[id])
    ensures forall i :: 0 <= i < |ws| && (forall j :: i < j < |ws| ==> ws[j].id != ws[i].id) ==>
      ws[i].id in ApplyWrites(idx, ws) && ApplyWrites(idx, ws)[ws[i].id] == ws[i].entry
  {
    if ws != [] {
      var idx' := idx[ws[0].id := ws[0].entry];
      var rest := ws[1..];
      ApplyWritesFrame(idx', rest);
      assert forall id :: id in Ids(rest) ==> id in Ids(ws) by {
        forall id | id in Ids(rest) ensures id in Ids(ws) {
          var k :| 0 <= k < |rest| && rest[k].id == id;
          assert ws[k + 1].id == id;
        }
      }
      forall i | 0 <= i < |ws| && (forall j :: i < j < |ws| ==> ws[j].id != ws[i].id)
        ensures ws[i].id in ApplyWrites(idx, ws) && ApplyWrites(idx, ws)[ws[i].id] == ws[i].entry
      {
        if i == 0 {
          assert forall k :: 0 <= k < |rest| ==> rest[k] == ws[k + 1];
          assert ws[0].id !in Ids(rest);
        } else {
          assert rest[i - 1] == ws[i];
          forall j | i - 1 < j < |rest| ensures rest[j].id != rest[i - 1].id {
            assert rest[j] == ws[j + 1];
          }
        }
      }
    }
  }
}
