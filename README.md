# Taste-record pipeline of pinecone_rag, modelled in Dafny

pinecone_rag keeps users' ingredient preferences ("taste records") in a
vector index. Each record has an id, the embedding of a taste text such as
`"garlic 2cloves for 4 servings in Italian cuisine"`, and metadata (user,
ingredient, amount, unit, servings, cuisine, feedback weight).

This project models the rule code around that index:

- **The index manager** (`PineconeManager`). It offers a guarded upsert and a
  guarded search. Its feedback engine searches the user's five records
  nearest to the ingredient (the filter is by user only), takes the one with
  the largest feedback weight, which may belong to another ingredient,
  scales its amount or raises its weight, re-embeds it under the argument
  ingredient and writes it back under the same id.
- **The MongoDB change-stream handler.** It turns one insert, update or
  replace event into at most one write. Before that it validates the
  document, applies defaults and coerces the amount and weight.
- **The two batch loaders.** These are `ingest_data.py` and the `/ingest`
  endpoint. Each skips invalid documents and upserts the rest in one batch.
- **The prompt builder.** It turns search matches into a
  "Personalized taste preferences: ..." text.
- **The two per-ingredient request handlers.** These are the serverless
  search handler and the `/recommend` endpoint. Each answers one prompt slot
  per ingredient, in order, and reports errors.

External services become values and parameters:

- The index is a `map` from id to (vector, metadata).
- The k-NN query is an oracle whose answers are sound. It returns at most
  `top_k` distinct stored records, each matching the filter.
- Whether the provider stores an upsert batch is an oracle on the current
  index and the batch. It gives the exception the call raises otherwise.
- The sentence-transformer is an uninterpreted `string -> seq<real>` plus a
  "loaded" flag.
- How Python renders a float inside an f-string, whether `float()` accepts a
  string, and the text of an exception are fields of a `Runtime` value.
  `str()` of None, bools, ints and strings is modelled exactly.

Python's dynamic values are a `Value` datatype. Truthiness, `dict.get`,
`str.strip()` and the exceptions that escape are explicit. Amounts and
weights are reals, so 100 × 1.1 is exactly 110 here.

All modules are in the top-level directory:

- py_values.dfy: Python values, `str()`, `strip()`, `float()`.
- py_compare.dfy: Python's order on strings, and a real-valued rank that
  preserves it.
- vector_index.dfy: the index, reading an upsert batch, upsert semantics.
- ranking.dfy: `sorted(..., key, reverse=True)` as a stable insertion sort.
- embedding.dfy: the embedder.
- taste_record.dfy: the taste text, the required-field check, the batch
  record.
- pinecone_client.dfy: `PineconeManager`, as a class whose `index` field is
  updated in place.
- change_stream_listener.dfy: `process_change_event`.
- ingest_data.dfy: the batch ingestion loop.
- app_add.dfy: the `/ingest` endpoint.
- prompt_builder.dfy: `build_prompt_augmentation`.
- prompt_slots.dfy: the prompt and error lists shared by both request
  handlers.
- app_fetch.dfy: `recommend_ingredients`.
- api_search.dfy: the serverless `handler`.

Each imperative routine is a `method` with the source's loop or early
returns. It is proved equal to a specification function, or to a stated
change of the index. The lemmas are about those functions.

Where the code and the design description differ, the model follows the
code:

- "perfect" feedback adds 0.5 to the weight, not 1.0.
- `update_user_taste_feedback` returns nothing; it does not return the
  updated id.

## Model

| member | source | states |
|---|---|---|
| PyValues.DecimalDigits | vector_db/pinecone_client.py:109 | the digits of `str(n)` are decimal digits, at least one, with no leading zero for n > 0 |
| PyValues.DecimalDigitsRoundTrip | vector_db/pinecone_client.py:109 | the decimal rendering of an int reads back as that int |
| PyValues.DropLeadingSpace | fetch_user_preference/app_fetch.py:41-43 | the result is a suffix of the input whose cut-off prefix is all whitespace and which does not start with whitespace |
| PyValues.DropTrailingSpace | fetch_user_preference/app_fetch.py:41-43 | the result is a prefix of the input whose cut-off suffix is all whitespace and which does not end with whitespace |
| PyValues.StripIsTrimmedSlice | fetch_user_preference/app_fetch.py:41-43 | `s.strip()` is a contiguous slice of `s`, and everything cut off on either side is whitespace |
| PyValues.StripEnds | fetch_user_preference/app_fetch.py:41-43 | a non-empty `s.strip()` neither starts nor ends with whitespace |
| PyValues.StripEmptyIffBlank | fetch_user_preference/app_fetch.py:43 | `s.strip()` is empty exactly when every character of `s` is whitespace |
| PyValues.StripIdempotent | fetch_user_preference/app_fetch.py:41-43 | stripping twice gives the same as stripping once |
| PyCompare.StrRank | vector_db/pinecone_client.py:92 | the rank of a string lies in [0, 1), within the band its first character fixes |
| PyCompare.StrLessTotal | vector_db/pinecone_client.py:92 | Python's string order is total: two strings are equal or one is smaller |
| PyCompare.StrRankMonotone | vector_db/pinecone_client.py:92 | a string smaller in Python's order has a smaller rank |
| PyCompare.StrRankOrder | vector_db/pinecone_client.py:92 | ranks compare exactly as the strings do in Python's order, and two strings have the same rank exactly when they are equal |
| VectorIndex.FloatList | change_stream_listener.py:79 | the embedding is handed on as a Python list of the same length |
| VectorIndex.VectorRoundTrip | change_stream_listener.py:79 | the client reads a list of floats back as the vector it was made from |
| VectorIndex.AsWrite | vector_db/pinecone_client.py:141 | a dict the client can read always has "id" and "values" |
| VectorIndex.VectorDictRoundTrip | change_stream_listener.py:112-116 | the `{"id", "values", "metadata"}` dict is read as exactly the intended write |
| VectorIndex.AsWrites | vector_db/pinecone_client.py:152 | a batch is readable exactly when every entry is; it then gives one write per entry, in order |
| VectorIndex.SingleWrite | change_stream_listener.py:121 | a one-element batch of a readable dict writes that one record |
| VectorIndex.ApplyWritesFrame | vector_db/pinecone_client.py:152 | after an upsert batch, ids outside the batch keep their record or stay absent; each id in the batch holds the last record written under it |
| Ranking.Insert | vector_db/pinecone_client.py:92 | insertion adds exactly the one element |
| Ranking.SortDesc | vector_db/pinecone_client.py:92 | the sort returns a permutation of its input |
| Ranking.SortDescSorted | vector_db/pinecone_client.py:92 | the sorted list has non-increasing keys |
| Ranking.SortDescStable | fetch_user_preference/app_fetch.py:85-87 | elements of equal key keep their input order (`sorted` with `reverse=True` is stable) |
| Ranking.SortDescHead | vector_db/pinecone_client.py:92-94 | the first sorted element is the first input element with the largest key |
| Pinecone.WeightOrder | vector_db/pinecone_client.py:92 | when the sort raises nothing, comparing two hits' keys is comparing their weights as Python does: numbers by value, strings by code points |
| TasteRecord.BatchVectorWrites | ingest_data.py:68-98 | a prepared batch dict is read as the write under `str(_id)` of the taste text's embedding with the batch metadata |
| TasteRecord.BatchMetadataFields | ingest_data.py:58-59 | the batch metadata copies amount, servings and weight uncoerced, defaults unit to "" and weight to 1.0, and stores the taste text as `original_text`. The record it belongs to has no embedding drift |
| Pinecone.RewriteRecord | vector_db/pinecone_client.py:98-121 | the rewrite succeeds exactly when the selected record is updatable. The record it then stores has exactly seven fields, so `original_text` is dropped. User and ingredient come from the arguments; unit, servings and cuisine are copied. "more" scales the amount by 1.1, "less" by 0.9, anything else leaves it. "perfect" adds 0.5 to the weight, anything else leaves it. The vector embeds the text that the stored metadata gives |
| Pinecone.Transition | vector_db/pinecone_client.py:92-94 | no hits raises IndexError; a write only ever targets the id of one of the hits |
| Pinecone.TransitionOkIff | vector_db/pinecone_client.py:92-121 | the update goes through exactly when there is a hit, the sort raises neither KeyError (a hit without a weight) nor TypeError (weights Python cannot compare), and the top record is updatable |
| Pinecone.TransitionTarget | vector_db/pinecone_client.py:92-94 | the record rewritten is the first hit with the largest `feedback_weight` in Python's order: no hit's weight is larger, every earlier hit's weight is smaller. It is rewritten under its own id |
| Pinecone.TextWeightsRanked | vector_db/pinecone_client.py:92-94 | two hits weighted "1" and "2" are sorted without error, and the "2" hit comes first |
| Pinecone.TextWeightsSortable | vector_db/pinecone_client.py:92 | weights that are both strings make the sort raise nothing |
| Pinecone.TextWeightOrder | vector_db/pinecone_client.py:92 | the weight "1" ranks below the weight "2" |
| Pinecone.MoreThenLess | vector_db/pinecone_client.py:99-102 | "more" then "less" leaves 0.99 of the amount, which differs from the original unless it is 0 |
| Pinecone.PerfectThrice | vector_db/pinecone_client.py:106 | three "perfect" feedbacks take weight 1.0 to 1.5, then 2.0, then 2.5; "perfect" leaves the amount unchanged |
| Pinecone.PineconeManager.constructor | vector_db/pinecone_client.py:15-33 | without an API key, or when the client fails to start, neither client, index nor embedder is set. Otherwise the client is set, the embedder is attached and the index is what connecting gave. The provider's upsert answers are fixed at construction |
| Pinecone.PineconeManager.Search | vector_db/pinecone_client.py:171-194 | no query is made without an index or when the query vector is not a list; any answer holds at most `top_k` distinct stored records matching the filter |
| Pinecone.PineconeManager.UpsertVectors | vector_db/pinecone_client.py:132-155 | nothing is written without an index, for an empty list, for an entry lacking "id" or "values", for a batch the client cannot read, or when the provider rejects the batch (the exception is caught and only printed). Otherwise every entry is written in order |
| Pinecone.PineconeManager.FeedbackEffect | vector_db/pinecone_client.py:85-122 | with no embedder attribute the update raises AttributeError. With an unloaded model it raises the embedder's RuntimeError. With no index it raises AttributeError. A write only ever targets a stored record of the same user, and only one the provider accepts; a rejected upsert raises |
| Pinecone.PineconeManager.UpdateUserTasteFeedback | vector_db/pinecone_client.py:85-122 | on success it returns None and exactly one record, under the selected id, is replaced. On failure, including a rejected upsert at line 112, it raises and the index is unchanged |
| ChangeStream.ObjectIdOf | change_stream_listener.py:24-25 | reading the `_id` raises exactly when `documentKey` is truthy and not a dict |
| ChangeStream.AmountNum | change_stream_listener.py:89-93 | a numeric amount is stored as a float; an amount `float()` rejects is stored raw |
| ChangeStream.WeightNum | change_stream_listener.py:95-99 | a numeric weight is stored as its value; a weight `float()` rejects becomes 1.0 |
| ChangeStream.ProcessChangeEvent | change_stream_listener.py:23-134 | without an index nothing is written, and the call returns unless reading `documentKey` raised. With an index, the call raises or returns as the event's effect says; its write is stored unless the provider rejects it, which `upsert_vectors` swallows. At most one id changes |
| ChangeStream.WriteChange | change_stream_listener.py:38-121 | the try block writes the event's one record when the provider accepts it, and nothing otherwise |
| ChangeStream.WriteEffectOf | change_stream_listener.py:71-121 | a write event whose dict document has the required fields, with the model loaded, writes that document's text embedding and listener metadata under `str(_id)` |
| ChangeStream.ChangeEffectSkips | change_stream_listener.py:71-73 | deletes and unknown operations write nothing, and so does a document that fails the required-field check |
| ChangeStream.ListenerWrites | change_stream_listener.py:39-121 | a write happens exactly when the event is an insert, update or replace, the model is loaded and the document is a dict that passes the required-field check. It is then that document's text embedding under `str(_id)` with the listener metadata |
| ChangeStream.ListenerMetadataFields | change_stream_listener.py:61-110 | the listener metadata has eight keys. `original_text` is the taste text the vector was made from, and `user_id` is `str(user_id)`. Absent `unit` becomes "" and absent weight 1.0. The amount and weight are coerced by `float()`, with the raw amount or 1.0 as fallbacks |
| ChangeStream.LookupFallback | change_stream_listener.py:44-58 | with no `fullDocument`, a missing `_id`, a failing lookup, or a lookup that finds nothing or an empty document writes nothing |
| ChangeStream.IntegerAmountDrift | change_stream_listener.py:76-110 | for an int amount the stored amount is its float, while the vector and `original_text` come from the int text. The record is drift-free exactly when the model embeds both renderings alike |
| ChangeStream.ListenerAgreesWithBatch | change_stream_listener.py:89-110 | with a float amount and a float or absent weight, the listener writes the same record as the batch loaders, and that record is drift-free |
| Ingestion.ValidItems | ingest_data.py:65-66 | the kept documents are no more than the input and all pass the required-field check |
| Ingestion.ValidItemsMembers | ingest_data.py:65-66 | a document is kept exactly when it is in the input and passes the required-field check |
| Ingestion.ValidItemsAppend | ingest_data.py:48-66 | the filter commutes with concatenation, so it keeps input order and skipping never stops the batch |
| Ingestion.BatchWrites | ingest_data.py:45-46 | one write per valid document with a loaded model, none without one |
| Ingestion.PreparedIsMap | ingest_data.py:48-98 | the prepared list is the batch dict of each valid document, in input order, and is empty without a loaded model |
| Ingestion.PreparedReadsAsBatchWrites | ingest_data.py:94-98 | the client reads the prepared list as exactly the intended writes. Every entry has an id and values, and the list is empty exactly when there is nothing to write |
| Ingestion.PrepareVectors | ingest_data.py:42-98 | the loop with `continue` leaves exactly the prepared list |
| Ingestion.IngestDataToPinecone | ingest_data.py:18-115 | without client or index, or without MongoDB, the index is unchanged. Otherwise every valid document is written in order, unless the provider rejects the batch, which leaves the index unchanged |
| IngestEndpoint.IngestDataToPinecone | add_user_preference/app_add.py:13-91 | an init failure or a MongoDB failure answers 500 and writes nothing. No documents gives the no-data message, and no valid vectors the nothing-to-upsert message. Otherwise it reports the prepared count, also when the provider rejects the batch and the index stays unchanged; an accepted batch adds exactly the batch writes |
| IngestEndpoint.ReportedCountOverstates | add_user_preference/app_add.py:89-91 | two valid documents with the same `_id` are reported as 2 vectors but add one record |
| PromptBuilder.BuildPromptAugmentation | utils/prompt_builder.py:17-45 | the loop and join give exactly the specified augmentation text |
| PromptBuilder.PhraseAt | utils/prompt_builder.py:43 | `sep.join(parts)` holds each part at its place, in order, preceded by the separator unless it is the first |
| PromptBuilder.FramedPartAt | utils/prompt_builder.py:43-45 | a part placed by the join keeps its place, and the separator before it, when the joined text is framed by a prefix and a suffix |
| PromptBuilder.AugmentationFrame | utils/prompt_builder.py:39-45 | with any match the augmentation is the preamble, the phrases of the matches joined by "; ", and a full stop |
| PromptBuilder.PhrasePlaced | utils/prompt_builder.py:39-45 | the k-th phrase lies inside "preamble + joined phrases + '.'", right after the preamble when it is the first and after "; " otherwise |
| PromptBuilder.AugmentationPhraseAt | utils/prompt_builder.py:20-45 | the phrase built from the k-th match's metadata appears in the augmentation text at the offset the join gives it, right after the preamble for the first match and after "; " for every later one |
| PromptBuilder.AugmentationShape | utils/prompt_builder.py:17-18 | a missing or empty result gives exactly "No specific taste preferences found in history." Any match gives the preamble and a final full stop. "Could not interpret ..." is never returned |
| PromptSlots.PromptsOf | api/search.py:107-150 | one prompt per ingredient slot |
| PromptSlots.PromptAt | api/search.py:110-150 | prompt k is slot k's prompt |
| PromptSlots.ErrorsBound | api/search.py:108-149 | there are never more errors than ingredients |
| PromptSlots.ErrorsAll | api/search.py:159 | as many errors as ingredients exactly when every slot raised |
| PromptSlots.ErrorsNone | fetch_user_preference/app_fetch.py:104 | no errors exactly when no slot raised |
| Recommend.Normalise | fetch_user_preference/app_fetch.py:43 | the normalised list is no longer than the input and has no empty ingredient |
| Recommend.NormaliseAppend | fetch_user_preference/app_fetch.py:43 | normalising commutes with concatenation, so order is preserved |
| Recommend.NormaliseSingle | fetch_user_preference/app_fetch.py:43 | one ingredient normalises to nothing when blank, else to its stripped form |
| Recommend.AboveThreshold | fetch_user_preference/app_fetch.py:88 | every kept match scores at least 0.6, and the kept matches are a sub-multiset of the input |
| Recommend.RecommendIngredients | fetch_user_preference/app_fetch.py:34-105 | the endpoint answers exactly the specified response. It gives 500 without client or index, 400 for an empty user, cuisine or ingredient list or for servings ≤ 0, and otherwise one slot per ingredient with `errors` None when empty |
| Recommend.SlotPerIngredient | fetch_user_preference/app_fetch.py:55-100 | one prompt per normalised ingredient, in order. No ingredient is blank, so the invalid-ingredient branch is never taken |
| Recommend.SlotErrors | fetch_user_preference/app_fetch.py:97-100 | an ingredient that raised puts the same message in its slot and in `errors`, starting with "Error processing '<ingredient>': " |
| Recommend.ShownSearchFailsEveryIngredient | fetch_user_preference/app_fetch.py:71-77 | the shown `search` takes none of the keywords used, so every validated request gets one error per ingredient, whether or not the model is loaded |
| Recommend.ShownSearchFails | fetch_user_preference/app_fetch.py:71-77 | with the shown `search`, each ingredient's outcome is an error |
| Recommend.AboveThresholdCount | fetch_user_preference/app_fetch.py:88 | filtering keeps each match as often as it occurs when it scores at least 0.6, and never otherwise |
| Recommend.AboveThresholdSorted | fetch_user_preference/app_fetch.py:85-88 | filtering a list with non-increasing weights keeps it non-increasing |
| Recommend.AboveThresholdWithKey | fetch_user_preference/app_fetch.py:85-88 | filtering and selecting one weight commute |
| Recommend.FilteredMatches | fetch_user_preference/app_fetch.py:85-94 | the builder receives exactly the matches scoring at least 0.6, each as often as returned, in non-increasing weight, with ties in search order |
| SearchApi.Handler | api/search.py:38-176 | the handler answers exactly the specified response: init and index failures, the bad-request and bad-parameter answers, and the per-ingredient results |
| SearchApi.CodeMatchesStatus | api/search.py:159-173 | 200 goes with "success", 207 with "partial_success" and 500 with "failure". "failure" means every ingredient errored |
| SearchApi.ItemSlotCases | api/search.py:111-150 | an invalid ingredient gets the placeholder and no error, and only a valid ingredient with an unloaded model adds an error. With the model loaded, the slot is "" when the search returns nothing or no matches, and the augmentation of the matches otherwise |
| SearchApi.HandlerResults | api/search.py:62-161 | a results response comes only from a POST whose body decodes to a dict; its user, cuisine and processed ingredients are that body's `user_id`, `cuisine` and `ingredients`, and it is the results for them |
| SearchApi.ResultsPrompts | api/search.py:110-158 | `augmented_prompts` has one entry per input ingredient, in order |
| SearchApi.ResultsStatus | api/search.py:147-173 | there are no more errors than ingredients. A loaded model gives 200 and "success". Without one, the answer is 500 exactly when every ingredient is valid |

## Left out

- The condition `pinecone_manager.embedder` after `__init__` cannot be false. By the constructor's invariant, an index or a client comes with the embedder attribute, and an `Embedder` object is always truthy. So the "Embedding model not available" answers are never produced (vector_db/pinecone_client.py:29; change_stream_listener.py:32; ingest_data.py:45-46; fetch_user_preference/app_fetch.py:38-39; api/search.py:55-60).
- The embedding of a list: `encode` always returns a list (vector_db/embedder.py:24). So the `.tolist()` call raises AttributeError, and the second `encode` gives the same list. The "not a list" branches are therefore never taken.
- Pinecone SDK setup, `_get_or_create_index` and the module singleton are foreign client calls. They are reduced to the constructor's three inputs: API key present, client starts, and the index connected (or not).
- `PineconeManager(embedder=embedder)` is not part of this model. Every caller passes an `embedder=` keyword that `__init__(self)` does not take, which would raise TypeError at construction. The model takes the constructed manager as a parameter instead. For api/search.py, a failed construction is its `initError` input.
- Namespaces: every call uses the default namespace, which is the one index map.
- IEEE floating point is modelled as reals. Python's rendering of floats, lists and dicts inside f-strings is `Runtime.show`. Whether `float()` accepts a string is `Runtime.parseFloat`. The text of exceptions other than RuntimeError and KeyError is `Runtime.describe`.
- Recommend.RecommendIngredients takes its search and builder as parameters, because the calls at fetch_user_preference/app_fetch.py:71-77 and :94 do not match the shown signatures. Recommend.ShownSearchFailsEveryIngredient covers the shown `search`.
- Pinecone.PineconeManager.UpdateUserTasteFeedback has the three-parameter signature of line 85. The caller in update_user_preference/app_update.py passes `cuisine` and `namespace` keywords it does not take; that file is not part of this model.
- MongoDB I/O (db/mongo.py), the change-stream watch loop of change_stream_listener.py, and `get_mongo_client` failures are left out. They become the `findOne` lookup and the `data: Option<seq<Document>>` input.
- Ingestion.IngestDataToPinecone: documents are taken to be dicts, as MongoDB returns them. For a non-dict item, the handler's own `item.get('_id')` (ingest_data.py:100-101) raises AttributeError, so ingestion stops with no upsert.
- IngestEndpoint.IngestDataToPinecone: documents are taken to be dicts, as for the batch loader. For a non-dict item, the handler's `item.get('_id')` (add_user_preference/app_add.py:81-82) raises AttributeError, and `/ingest` fails with no upsert.
- Pinecone.Transition: its sort error, Pinecone.SortError, reports TypeError for two or more weights that are all lists, or all ObjectIds, though Python orders those. A mix of kinds, or weights that are None or dicts, do raise TypeError in Python.
- Pinecone.PineconeManager.UpsertVectors: the provider's answer (stored, or an exception) is the constructor's `upsertFault` oracle. Network behaviour, partial writes and the returned `upserted_count` are left out.
- HTTP and serverless plumbing (FastAPI, Mangum, `json.dumps`, response headers) is left out. `json.loads` is the `loads` parameter, and pydantic validation of `IngredientRequest` is the typed `Request`.
- lambda_function.py, main.py, the test drivers, config.py and parse.py are not part of this model. They are interactive drivers, configuration, or a credential-quoting script.
- Printing and logging are left out: every `print` call.
