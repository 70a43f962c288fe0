/**
 * The threshold policy of `is_similar` in createGraphDB.py. The cosine
 * distance itself (scipy) is external: it is a parameter of the model, and a
 * NaN distance (for example from an all-zero vector) is a value of its own.
 */
module Similarity {

  /** An embedding vector as returned by the embedding provider. */
  type Embedding = seq<real>

  /** The result of scipy's `cosine(u, v)`: a distance, or NaN. */
  datatype CosineDistance = NotANumber | Defined(distance: real)

  /** Threshold for linking a new chunk to an existing one. */
  const ChunkLinkThreshold: real := 0.8

  /** `is_similar(e1, e2, threshold)`: `1 - cosine(e1, e2) > threshold`; a comparison with NaN is false. */
  predicate IsSimilar(cosine: (Embedding, Embedding) -> CosineDistance, e1: Embedding, e2: Embedding, threshold: real)
  {
    match cosine(e1, e2)
    case NotANumber => false
    case Defined(d) => 1.0 - d > threshold
  }

  /** A pair similar at a threshold is similar at every lower threshold. */
  lemma IsSimilarMonotone(cosine: (Embedding, Embedding) -> CosineDistance, e1: Embedding, e2: Embedding, t: real, t': real)
    requires t' <= t
    requires IsSimilar(cosine, e1, e2, t)
    ensures IsSimilar(cosine, e1, e2, t')
  {
  }
}
