/**
 * Nearest-neighbour retrieval as both `sow.py` (`retrieve_chunks`) and
 * `scripts/query_index.py` (`retrieve`) write it: embed the query, search the
 * index for k ids, and map every id of the returned row through the chunk
 * store with Python list indexing.
 */
module Retrieval {
  import opened Common

  /** Both retrieval functions ask for five results unless told otherwise. */
  const DefaultK: nat := 5

  /** `texts[i]` does not raise: Python accepts -n <= i < n. */
  predicate InPyRange(i: int, n: nat) {
    -(n as int) <= i < n
  }

  /** The position Python reads for `texts[i]`: negative ids count from the end. */
  function PyPosition(i: int, n: nat): (p: nat)
    requires InPyRange(i, n)
    ensures p < n
    ensures i >= 0 ==> p == i
    ensures i < 0 ==> p + (-i) == n
  {
    if i >= 0 then i else n + i
  }

  /** The texts of the found ids: one text per id, in id order, or IndexError
      as soon as one id is out of range. */
  function MapIds(texts: seq<string>, ids: seq<int>): (r: Result<seq<string>>)
    ensures r.Ok? <==> forall j :: 0 <= j < |ids| ==> InPyRange(ids[j], |texts|)
    ensures r.Err? ==> r.error == IndexError
    ensures r.Ok? ==> |r.value| == |ids|
    ensures r.Ok? ==> forall j :: 0 <= j < |ids| ==> r.value[j] == texts[PyPosition(ids[j], |texts|)]
  {
    if ids == [] then Ok([])
    else if !InPyRange(ids[0], |texts|) then Err(IndexError)
    else match MapIds(texts, ids[1..])
      case Err(e) => Err(e)
      case Ok(rest) => Ok([texts[PyPosition(ids[0], |texts|)]] + rest)
  }

  /** With ids that are all valid positions, retrieval is plain lookup. */
  lemma MapIdsLookup(texts: seq<string>, ids: seq<int>)
    requires forall j :: 0 <= j < |ids| ==> 0 <= ids[j] < |texts|
    ensures MapIds(texts, ids) == Ok(seq(|ids|, j requires 0 <= j < |ids| => texts[ids[j]]))
  {
    var r := MapIds(texts, ids);
    assert r.Ok?;
    assert r.value == seq(|ids|, j requires 0 <= j < |ids| => texts[ids[j]]);
  }

  /** A padding id -1 reads the last stored text rather than being dropped,
      so the result always has one entry per id of the row. */
  lemma MinusOneReadsLast(texts: seq<string>, ids: seq<int>, j: nat)
    requires texts != [] && j < |ids| && ids[j] == -1
    requires forall m :: 0 <= m < |ids| ==> InPyRange(ids[m], |texts|)
    ensures MapIds(texts, ids).Ok? && MapIds(texts, ids).value[j] == texts[|texts| - 1]
  {
  }

  /** `retrieve(question, k)`: the embedding call's failure propagates; the
      search row is mapped through `texts`. */
  function Retrieve(query: string, k: nat, texts: seq<string>, svc: Services): (r: Result<seq<string>>)
    ensures svc.embed(query).None? <==> r == Err(EmbeddingFailed)
    ensures svc.embed(query).Some? ==> r == MapIds(texts, svc.search(svc.embed(query).value, k))
  {
    match svc.embed(query)
    case None => Err(EmbeddingFailed)
    case Some(v) => MapIds(texts, svc.search(v, k))
  }
}
