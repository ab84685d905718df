/** api/search.py: the serverless `handler(event, context)`. It checks the
    module-level initialisation, parses a POST body, and answers one
    augmented prompt per requested ingredient with an overall status. */
module SearchApi {
  import opened PyValues
  import opened VectorIndex
  import opened Embedding
  import opened Pinecone
  import PromptBuilder
  import opened PromptSlots

  /** What `json.loads(event['body'])` does: a value, a JSONDecodeError, or
      another exception (a body that is not a string, say). */
  datatype Parsed = Decoded(v: Value) | DecodeError | LoadError(e: PyError)

  datatype Body =
    | ErrorBody(error: string, details: Option<string>)
    | InputError(text: string)
    | Results(userId: Value, cuisine: Value, processed: seq<Value>, prompts: seq<string>,
              status: string, errors: seq<string>)

  datatype Response = Response(statusCode: nat, body: Body)

  const BadRequest := "Unsupported method or missing request body. Expecting POST with JSON body."
  const BadParameters := "Missing or invalid required parameters. Expecting user_id (string), cuisine (string), and ingredients (non-empty list of strings)."

  predicate ValidIngredient(v: Value) {
    v.PyStr? && Strip(v.s) != ""
  }

  /** The loop body for the `index`-th element of `ingredients`. */
  function ItemSlot(pm: PineconeManager, userId: Value, cuisine: Value, index: nat, ingredient: Value): Slot
    reads pm
  {
    if !ValidIngredient(ingredient) then Slot("Error: Invalid ingredient at index " + IntStr(index), None)
    else
      var name := ingredient.s;
      match Encode(pm.embedder, name + " " + Str(pm.rt, cuisine) + " cuisine taste")
      case Err(e) =>
        Slot("Error processing '" + name + "'", Some("Error processing '" + name + "': " + ErrorText(pm.rt, e)))
      case Ok(q) =>
        var results := pm.Search(FloatList(q), DefaultTopK, map["user_id" := userId]);
        if results.Some? && results.value != [] then Slot(PromptBuilder.Augmentation(pm.rt, results), None)
        else Slot("", None)
  }

  function Slots(pm: PineconeManager, userId: Value, cuisine: Value, items: seq<Value>): (r: seq<Slot>)
    reads pm
    ensures |r| == |items|
  {
    if items == [] then []
    else Slots(pm, userId, cuisine, items[..|items| - 1]) + [ItemSlot(pm, userId, cuisine, |items| - 1, items[|items| - 1])]
  }

  /** The overall status for `errors` out of `n` ingredients. */
  function Status(errors: nat, n: nat): string {
    if errors == 0 then "success" else if errors < n then "partial_success" else "failure"
  }

  function StatusCode(errors: nat, n: nat): nat {
    if errors == 0 then 200 else if errors < n then 207 else 500
  }

  /** `handler(event, context)` given how module initialisation went
      (`initError`: None when it succeeded, else `str(e)`), the manager it
      built, and `json.loads` as `loads`. */
  function HandlerResponse(initError: Option<string>, pm: PineconeManager, loads: Value -> Parsed,
                           event: map<string, Value>): Response
    reads pm
  {
    if initError.Some? then Response(500, ErrorBody("Service failed to initialize", initError))
    else if !pm.indexReady then Response(500, ErrorBody("Pinecone index not available", None))
    else if !(Get(event, "httpMethod", PyNone) == PyStr("POST") && Truthy(Get(event, "body", PyNone))) then
      Response(400, ErrorBody(BadRequest, None))
    else match loads(event["body"])
      case DecodeError => Response(400, ErrorBody("Invalid JSON body", None))
      case LoadError(e) => Response(400, InputError("Error processing input: " + ErrorText(pm.rt, e)))
      case Decoded(request) =>
        if !request.PyDict? then Response(400, InputError("Error processing input: " + ErrorText(pm.rt, AttributeError)))
        else
          var userId := Get(request.fields, "user_id", PyNone);
          var cuisine := Get(request.fields, "cuisine", PyNone);
          var list := Get(request.fields, "ingredients", PyNone);
          if !Truthy(userId) || !Truthy(cuisine) || !list.PyList? || list.items == [] then
            Response(400, ErrorBody(BadParameters, None))
          else ResultsFor(pm, userId, cuisine, list.items)
  }

  /** The response once the request names a user, a cuisine and a non-empty
      list of ingredients. */
  function ResultsFor(pm: PineconeManager, userId: Value, cuisine: Value, items: seq<Value>): Response
    reads pm
  {
    var slots := Slots(pm, userId, cuisine, items);
    var errors := ErrorsOf(slots);
    var n := |items|;
    Response(StatusCode(|errors|, n), Results(userId, cuisine, items, PromptsOf(slots), Status(|errors|, n), errors))
  }

  lemma {:induction false} SlotsStep(pm: PineconeManager, userId: Value, cuisine: Value, items: seq<Value>, i: nat)
    requires i < |items|
    ensures Slots(pm, userId, cuisine, items[..i + 1])
         == Slots(pm, userId, cuisine, items[..i]) + [ItemSlot(pm, userId, cuisine, i, items[i])]
  {
    assert items[..i + 1][..i] == items[..i];
  }

  method Handler(initError: Option<string>, pm: PineconeManager, loads: Value -> Parsed, event: map<string, Value>)
    returns (resp: Response)
    requires pm.Valid()
    ensures resp == HandlerResponse(initError, pm, loads, event)
  {
    if initError.Some? {
      return Response(500, ErrorBody("Service failed to initialize", initError));
    }
    if !pm.indexReady {
      return Response(500, ErrorBody("Pinecone index not available", None));
    }
    // `pm.Valid()`: with an index the embedder attribute is set, and it is
    // truthy, so "Embedding model not available" is never answered
    if !(Get(event, "httpMethod", PyNone) == PyStr("POST") && Truthy(Get(event, "body", PyNone))) {
      return Response(400, ErrorBody(BadRequest, None));
    }
    var parsed := loads(event["body"]);
    if parsed.DecodeError? {
      return Response(400, ErrorBody("Invalid JSON body", None));
    }
    if parsed.LoadError? {
      return Response(400, InputError("Error processing input: " + ErrorText(pm.rt, parsed.e)));
    }
    var requestBody := parsed.v;
    if !requestBody.PyDict? {
      // `request_body.get` on a non-dict
      return Response(400, InputError("Error processing input: " + ErrorText(pm.rt, AttributeError)));
    }
    var userId := Get(requestBody.fields, "user_id", PyNone);
    var cuisine := Get(requestBody.fields, "cuisine", PyNone);
    var ingredientList := Get(requestBody.fields, "ingredients", PyNone);
    if !Truthy(userId) || !Truthy(cuisine) || !ingredientList.PyList? || ingredientList.items == [] {
      return Response(400, ErrorBody(BadParameters, None));
    }
    var items := ingredientList.items;
    ghost var slots: seq<Slot> := [];
    var augmentedPromptsList := [];
    var errors := [];
    for i := 0 to |items|
      invariant slots == Slots(pm, userId, cuisine, items[..i])
      invariant augmentedPromptsList == PromptsOf(slots)
      invariant errors == ErrorsOf(slots)
    {
      var slot := ItemSlot(pm, userId, cuisine, i, items[i]);
      SlotsStep(pm, userId, cuisine, items, i);
      Append(slots, slot);
      slots := slots + [slot];
      augmentedPromptsList := augmentedPromptsList + [slot.prompt];
      if slot.error.Some? {
        errors := errors + [slot.error.value];
      }
    }
    assert items[..|items|] == items;
    var n := |items|;
    resp := Response(StatusCode(|errors|, n), Results(userId, cuisine, items, augmentedPromptsList, Status(|errors|, n), errors));
  }

  /** The status code and the status agree exactly: 200 with "success", 207
      with "partial_success", 500 with "failure". */
  lemma {:induction false} CodeMatchesStatus(errors: nat, n: nat)
    requires errors <= n
    ensures StatusCode(errors, n) == 200 <==> Status(errors, n) == "success"
    ensures StatusCode(errors, n) == 207 <==> Status(errors, n) == "partial_success"
    ensures StatusCode(errors, n) == 500 <==> Status(errors, n) == "failure"
    ensures Status(errors, n) == "failure" <==> errors > 0 && errors == n
  {
  }

  lemma {:induction false} SlotAt(pm: PineconeManager, userId: Value, cuisine: Value, items: seq<Value>, k: nat)
    requires k < |items|
    ensures Slots(pm, userId, cuisine, items)[k] == ItemSlot(pm, userId, cuisine, k, items[k])
  {
    if k < |items| - 1 {
      SlotAt(pm, userId, cuisine, items[..|items| - 1], k);
    }
  }

  /** An invalid ingredient gets the placeholder and no error; only an
      embedding failure adds an error; with a loaded model, a valid one that
      found nothing gets "" and one that found matches gets the builder's
      text for them. */
  lemma {:induction false} ItemSlotCases(pm: PineconeManager, userId: Value, cuisine: Value, k: nat, ingredient: Value)
    ensures var s := ItemSlot(pm, userId, cuisine, k, ingredient);
      && (!ValidIngredient(ingredient) ==> s == Slot("Error: Invalid ingredient at index " + IntStr(k), None))
      && (s.error.Some? <==> ValidIngredient(ingredient) && !pm.embedder.loaded)
    ensures ValidIngredient(ingredient) && pm.embedder.loaded ==>
      var s := ItemSlot(pm, userId, cuisine, k, ingredient);
      var query := pm.embedder.model(ingredient.s + " " + Str(pm.rt, cuisine) + " cuisine taste");
      var results := pm.Search(FloatList(query), DefaultTopK, map["user_id" := userId]);
      && ((results.None? || results.value == []) ==> s == Slot("", None))
      && (results.Some? && results.value != [] ==> s == Slot(PromptBuilder.Augmentation(pm.rt, results), None))
  {
  }

  /** Every response with results answers a POST whose body decodes to a
      dict, and is the results for that dict's own `user_id`, `cuisine` and
      `ingredients`. */
  lemma {:induction false} HandlerResults(initError: Option<string>, pm: PineconeManager, loads: Value -> Parsed,
                                          event: map<string, Value>)
    requires HandlerResponse(initError, pm, loads, event).body.Results?
    ensures initError.None? && pm.indexReady
    ensures "httpMethod" in event && event["httpMethod"] == PyStr("POST") && "body" in event
    ensures loads(event["body"]).Decoded? && loads(event["body"]).v.PyDict?
    ensures var f := loads(event["body"]).v.fields; var r := HandlerResponse(initError, pm, loads, event);
      && r.body.userId == Get(f, "user_id", PyNone)
      && r.body.cuisine == Get(f, "cuisine", PyNone)
      && Get(f, "ingredients", PyNone) == PyList(r.body.processed)
      && r == ResultsFor(pm, r.body.userId, r.body.cuisine, r.body.processed)
  {
  }

  /** The results hold one prompt per ingredient, in order. */
  lemma {:induction false} ResultsPrompts(pm: PineconeManager, userId: Value, cuisine: Value, items: seq<Value>)
    ensures var r := ResultsFor(pm, userId, cuisine, items);
      && |r.body.prompts| == |items|
      && forall k :: 0 <= k < |items| ==> r.body.prompts[k] == ItemSlot(pm, userId, cuisine, k, items[k]).prompt
  {
    var slots := Slots(pm, userId, cuisine, items);
    forall k | 0 <= k < |items|
      ensures PromptsOf(slots)[k] == ItemSlot(pm, userId, cuisine, k, items[k]).prompt
    {
      SlotAt(pm, userId, cuisine, items, k);
      PromptAt(slots, k);
    }
  }

  /** The status of the results: a loaded model means "success" and 200;
      without one, every valid ingredient errors, so the request fails with
      500 exactly when every ingredient is valid. */
  lemma {:induction false} ResultsStatus(pm: PineconeManager, userId: Value, cuisine: Value, items: seq<Value>)
    requires items != []
    ensures var r := ResultsFor(pm, userId, cuisine, items);
      && |r.body.errors| <= |items|
      && (pm.embedder.loaded ==> r.statusCode == 200 && r.body.status == "success")
      && (!pm.embedder.loaded ==>
            (r.statusCode == 500 <==> forall k :: 0 <= k < |items| ==> ValidIngredient(items[k])))
  {
    var slots := Slots(pm, userId, cuisine, items);
    forall k | 0 <= k < |items|
      ensures slots[k].error.Some? <==> ValidIngredient(items[k]) && !pm.embedder.loaded
    {
      SlotAt(pm, userId, cuisine, items, k);
      ItemSlotCases(pm, userId, cuisine, k, items[k]);
    }
    ErrorsBound(slots);
    ErrorsAll(slots);
    ErrorsNone(slots);
  }
}
