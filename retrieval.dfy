/**
 * The chunk corpus, its flat L2 vector index, and the mapping of the index's
 * ranked ordinals back to chunk texts. The embedding service and the
 * nearest-neighbour search itself are external: their answers come in as values
 * or as a function parameter.
 */
module Retrieval {
  import opened Chat

  /** One embedding vector (the service's floats, read as reals). */
  type Embedding = seq<real>

  /** A flat L2 index: one stored vector per chunk, in chunk order. */
  datatype VectorIndex = VectorIndex(dimension: nat, vectors: seq<Embedding>)

  /** The chunk texts and the index built from them, stored and reused together. */
  datatype Corpus = Corpus(texts: seq<string>, index: VectorIndex)

  /** How many chunks a search asks for (`search_docs`'s default `k`). */
  const K: int := 3

  /**
   * The nearest-neighbour search over an index: the ordinals of the `k` stored
   * vectors nearest to the query's embedding, nearest first, or None when the
   * query's embedding call or the index search fails.
   */
  type Search = (VectorIndex, string, int) -> Option<seq<int>>

  /** Every vector has the dimension of the first. */
  predicate SameDimension(vectors: seq<Embedding>)
  {
    forall i :: 0 <= i < |vectors| ==> |vectors[i]| == |vectors[0]|
  }

  /**
   * Index construction once the embedding service has answered `embedded` for
   * the chunk list. The dimension is read from the first vector, so an empty
   * chunk list fails, as does a service error or vectors of unequal length.
   */
  function CreateIndex(embedded: Option<seq<Embedding>>): (r: Option<VectorIndex>)
    ensures r.Some? <==> embedded.Some? && |embedded.value| > 0 && SameDimension(embedded.value)
    ensures r.Some? ==> r.value.vectors == embedded.value
    ensures r.Some? ==> forall i :: 0 <= i < |r.value.vectors| ==> |r.value.vectors[i]| == r.value.dimension
  {
    match embedded
    case None => None
    case Some(vectors) =>
      if |vectors| == 0 then None
      else
        var dimension := |vectors[0]|;
        if SameDimension(vectors) then Some(VectorIndex(dimension, vectors)) else None
  }

  /**
   * The corpus for a chunk list, given the embedding service's answer for it
   * (one vector per chunk).
   */
  function BuildCorpus(chunks: seq<string>, embedded: Option<seq<Embedding>>): (r: Option<Corpus>)
    requires embedded.Some? ==> |embedded.value| == |chunks|
    ensures r.Some? <==> embedded.Some? && |chunks| > 0 && SameDimension(embedded.value)
    ensures r.Some? ==> r.value.texts == chunks && Coupled(r.value)
    ensures r.Some? ==> r.value.index == CreateIndex(embedded).value
    ensures r.Some? ==> forall i :: 0 <= i < |chunks| ==> r.value.index.vectors[i] == embedded.value[i]
  {
    match CreateIndex(embedded)
    case None => None
    case Some(index) => Some(Corpus(chunks, index))
  }

  /**
   * The texts and the index have the same length and there is at least one
   * chunk, so every ordinal of the index is a valid chunk position.
   */
  predicate Coupled(corpus: Corpus)
  {
    |corpus.texts| > 0 && |corpus.index.vectors| == |corpus.texts|
  }

  /** Every ordinal names a stored vector of `index`. */
  predicate InIndex(index: VectorIndex, ranked: seq<int>)
  {
    forall j :: 0 <= j < |ranked| ==> 0 <= ranked[j] < |index.vectors|
  }

  /** The search only ever answers ordinals of the index it searched. */
  ghost predicate StaysInIndex(search: Search)
  {
    forall index, query, k :: search(index, query, k).Some? ==> InIndex(index, search(index, query, k).value)
  }

  /** The chunk texts for the ranked ordinals, in ranked order. */
  function SearchDocs(texts: seq<string>, ranked: seq<int>): (results: seq<string>)
    requires forall j :: 0 <= j < |ranked| ==> 0 <= ranked[j] < |texts|
    ensures |results| == |ranked|
    ensures forall j :: 0 <= j < |ranked| ==> results[j] == texts[ranked[j]]
  {
    if |ranked| == 0 then [] else [texts[ranked[0]]] + SearchDocs(texts, ranked[1..])
  }

  /**
   * On a coupled corpus, every ordinal the search returns can be dereferenced,
   * and every result is one of the corpus's chunks.
   */
  lemma SearchResultsAreChunks(corpus: Corpus, search: Search, query: string)
    requires Coupled(corpus) && StaysInIndex(search)
    requires search(corpus.index, query, K).Some?
    ensures var ranked := search(corpus.index, query, K).value;
      (forall j :: 0 <= j < |ranked| ==> 0 <= ranked[j] < |corpus.texts|) &&
      forall r :: r in SearchDocs(corpus.texts, ranked) ==> r in corpus.texts
  {
  }

  /**
   * Corollary of `SearchDocs`'s pointwise contract: mapping keeps the ranking, so
   * the texts for a concatenation of rankings are the concatenated texts.
   */
  lemma SearchDocsKeepsOrder(texts: seq<string>, first: seq<int>, second: seq<int>)
    requires forall j :: 0 <= j < |first| ==> 0 <= first[j] < |texts|
    requires forall j :: 0 <= j < |second| ==> 0 <= second[j] < |texts|
    ensures SearchDocs(texts, first + second) == SearchDocs(texts, first) + SearchDocs(texts, second)
  {
  }
}
