/** The sentence-transformer wrapper of vector_db/embedder.py reduced to what
    the core relies on: a model that maps a text to a vector, and the
    RuntimeError `encode` raises when the model failed to load. */
module Embedding {
  import opened PyValues

  const NotLoadedMessage := "Embedding model not loaded. Cannot encode text."

  /** `model` is the sentence transformer; it is left uninterpreted. The
      wrapper always hands back a Python list (it calls `.tolist()`). */
  datatype Embedder = Embedder(loaded: bool, model: string -> seq<real>)

  /** `embedder.encode(text)`. The callers' `.encode(t).tolist()` followed by
      a second `.encode(t)` in the AttributeError handler yields the same
      list, since the model is a function of its input. */
  function Encode(e: Embedder, text: string): Result<seq<real>> {
    if e.loaded then Ok(e.model(text)) else Err(RuntimeError(NotLoadedMessage))
  }
}
