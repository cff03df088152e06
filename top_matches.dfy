/** The retrieval step of the two retrieval-only scripts (`AGENT1.py` and the
    `run_pipeline` of `masteragent.py`): embed the query with the patient
    client (three attempts, five seconds between them), score it against the
    stored ontology vectors, and keep the best `k` entries of the index. */
module TopMatches {
  import opened Clients
  import opened Retrieval
  import opened OnlineClients

  /** The default `retries` of `embed_text_online`. */
  const EmbedAttempts: nat := 3

  /** The default `sleep` of `embed_text_online`, in seconds. */
  const RetryPause: nat := 5

  /** The outside world of a retrieval: `embed(text)` is the embedding
      service's answer to each attempt at embedding `text`; `similarity` is
      the cosine similarity of a query vector against the stored vectors. */
  datatype Store = Store(
    embed: string -> nat -> Response<seq<real>>,
    similarity: seq<real> -> seq<real>,
    index: Index)

  /** Every score vector has one score per index entry. */
  ghost predicate WellFormed(store: Store) {
    forall v :: Aligned(store.index, store.similarity(v))
  }

  /** What one retrieval leaves behind: the embedding call, the scores, the
      chosen indices and the candidate list written to the output. */
  datatype Lookup = Lookup(embedded: Run<seq<real>>, sims: seq<real>, idx: seq<nat>, matches: seq<Candidate>)

  /** `q = embed_text_online(query)`, `sims = cosine_similarity(q, vecs)`,
      `idx = np.argsort(sims)[::-1][:k]` and the candidate dicts of `idx`. */
  function Retrieve(store: Store, query: string, k: nat): (l: Lookup)
    requires WellFormed(store)
    ensures FirstTry <= l.embedded.calls <= EmbedAttempts
    ensures l.sims == store.similarity(l.embedded.answer) && |l.sims| == |store.index.ids|
    ensures IsTopK(l.sims, k, l.idx)
    ensures |l.matches| == |l.idx| == MinNat(k, |store.index.ids|)
    ensures forall i, j :: 0 <= i < j < |l.matches| ==> l.matches[i].sim >= l.matches[j].sim
    ensures forall j :: 0 <= j < |l.matches| ==>
      l.matches[j] == Candidate(store.index.ids[l.idx[j]], l.sims[l.idx[j]], store.index.texts[l.idx[j]])
  {
    var e := PatientEmbedLoop(store.embed(query), EmbedAttempts, RetryPause, FirstTry, []);
    PatientEmbedOutcome(store.embed(query), EmbedAttempts, RetryPause, FirstTry, []);
    var sims := store.similarity(e.answer);
    assert Aligned(store.index, sims);
    var idx := TopIndices(sims, k);
    RankedCandidates(store.index, sims, k, idx);
    Lookup(e, sims, idx, Candidates(store.index, sims, idx))
  }

  /** The retrieval as statements, with the patient retry loop. */
  method RetrieveFor(store: Store, query: string, k: nat) returns (l: Lookup)
    requires WellFormed(store)
    ensures l == Retrieve(store, query, k)
  {
    var vec, posts, sleeps := EmbedPatiently(store.embed(query), EmbedAttempts, RetryPause);
    var sims := store.similarity(vec);
    assert Aligned(store.index, sims);
    var idx := TopIndices(sims, k);
    l := Lookup(Run(vec, posts, sleeps), sims, idx, Candidates(store.index, sims, idx));
  }

  /** An embedding service that never answers 200 costs three posts and two
      five-second sleeps, and the query is scored as the zero vector. */
  lemma UnreachableEmbedding(store: Store, query: string, k: nat)
    requires WellFormed(store)
    requires forall n :: !IsOk(store.embed(query)(n))
    ensures Retrieve(store, query, k).embedded == Run(Zeros(EmbeddingDim), EmbedAttempts, [Backoff(RetryPause), Backoff(RetryPause)])
  {
    PatientEmbedOutcome(store.embed(query), EmbedAttempts, RetryPause, FirstTry, []);
    var r := PatientEmbedLoop(store.embed(query), EmbedAttempts, RetryPause, FirstTry, []);
    assert r.calls == EmbedAttempts;
    assert r.pauses == seq(2, i => Backoff(RetryPause));
  }
}
