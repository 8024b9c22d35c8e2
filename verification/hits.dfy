/** `convertHits`: keeping the hits that are field-to-value objects. */
module Hits {
  import opened Wrappers
  import opened Values
  import opened Sequences

  /** A hit document as returned to the client: its fields in the engine's order. */
  type Document = seq<(string, Value)>

  /** The document inside a hit, if the hit is an object. */
  function AsDocument(hit: Value): Option<Document> {
    if hit.Object? then Some(hit.fields) else None
  }

  /** `convertHits`: the object hits in order; every other hit is dropped. */
  function ConvertHits(hits: seq<Value>): (r: seq<Document>)
    ensures |r| <= |hits|
  {
    FilterMap(hits, AsDocument)
  }

  /**
   * The result is the order-preserving subsequence of object hits: its k-th
   * document is the k-th object hit, at a position increasing with k, and
   * every object hit is among them.
   */
  lemma {:induction false} ConvertHitsKeepsObjectsInOrder(hits: seq<Value>)
    ensures |ConvertHits(hits)| == |Kept(hits, AsDocument)|
    ensures forall k :: 0 <= k < |Kept(hits, AsDocument)| ==>
      hits[Kept(hits, AsDocument)[k]] == Object(ConvertHits(hits)[k])
    ensures forall k, l :: 0 <= k < l < |Kept(hits, AsDocument)| ==>
      Kept(hits, AsDocument)[k] < Kept(hits, AsDocument)[l]
    ensures forall i :: 0 <= i < |hits| && hits[i].Object? ==> i in Kept(hits, AsDocument)
  {
    FilterMapIsSubsequence(hits, AsDocument);
  }

  /** Nothing is dropped exactly when every hit is an object, and then each hit stays in place. */
  lemma ConvertHitsAllObjects(hits: seq<Value>)
    ensures |ConvertHits(hits)| == |hits| <==> forall i :: 0 <= i < |hits| ==> hits[i].Object?
    ensures (forall i :: 0 <= i < |hits| ==> hits[i].Object?) ==>
      |ConvertHits(hits)| == |hits| && forall i :: 0 <= i < |hits| ==> Object(ConvertHits(hits)[i]) == hits[i]
  {
    FilterMapAll(hits, AsDocument);
    assert forall i :: 0 <= i < |hits| ==> (AsDocument(hits[i]).Some? <==> hits[i].Object?);
  }
}
