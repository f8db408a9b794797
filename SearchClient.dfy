/**
 * SearchClient over an in-memory search index: the documents of the index kept under their key
 * field. Uploading a batch stores each model under its key, a later one replacing an earlier one;
 * a batch the service refuses is logged and dropped, so saving never fails. What a full-text
 * search returns is up to the service (the index is only eventually consistent): it is the
 * function `search` of the index, the query text and the number of searches made before.
 */
module SearchSdk {
  /** The index after `models` are uploaded one after the other (IndexAction.Upload), each under its key. */
  function Upload<M>(index: map<string, M>, keyOf: M -> string, models: seq<M>): map<string, M>
    decreases |models|
  {
    if models == [] then index
    else
      var last := models[|models| - 1];
      Upload(index, keyOf, models[..|models| - 1])[keyOf(last) := last]
  }

  /** A key is in the uploaded index exactly when it was there before or is the key of an uploaded model. */
  lemma {:induction false} UploadKeys<M>(index: map<string, M>, keyOf: M -> string, models: seq<M>)
    ensures forall k :: k in Upload(index, keyOf, models) <==> k in index || exists i :: 0 <= i < |models| && keyOf(models[i]) == k
    decreases |models|
  {
    if models != [] {
      var n := |models| - 1;
      UploadKeys(index, keyOf, models[..n]);
      assert forall i :: 0 <= i < n ==> models[..n][i] == models[i];
    }
  }

  /** The model under a key is the last uploaded model with that key, or the one that was there when none has it. */
  lemma {:induction false} UploadValues<M>(index: map<string, M>, keyOf: M -> string, models: seq<M>, i: nat)
    requires i < |models|
    requires forall j :: i < j < |models| ==> keyOf(models[j]) != keyOf(models[i])
    ensures keyOf(models[i]) in Upload(index, keyOf, models)
    ensures Upload(index, keyOf, models)[keyOf(models[i])] == models[i]
    decreases |models|
  {
    var n := |models| - 1;
    if i < n {
      UploadValues(index, keyOf, models[..n], i);
    }
  }

  /** A key no uploaded model has keeps its model. */
  lemma {:induction false} UploadKeeps<M>(index: map<string, M>, keyOf: M -> string, models: seq<M>, k: string)
    requires k in index
    requires forall j :: 0 <= j < |models| ==> keyOf(models[j]) != k
    ensures k in Upload(index, keyOf, models) && Upload(index, keyOf, models)[k] == index[k]
    decreases |models|
  {
    if models != [] {
      UploadKeeps(index, keyOf, models[..|models| - 1], k);
    }
  }

  /** Every model of an index keyed by `keyOf` sits under its own key, and uploading keeps it so. */
  lemma {:induction false} UploadKeyed<M>(index: map<string, M>, keyOf: M -> string, models: seq<M>)
    requires forall k :: k in index ==> keyOf(index[k]) == k
    ensures forall k :: k in Upload(index, keyOf, models) ==> keyOf(Upload(index, keyOf, models)[k]) == k
    decreases |models|
  {
    if models != [] {
      UploadKeyed(index, keyOf, models[..|models| - 1]);
    }
  }

  class SearchClient<M(==,!new)> {
    /** The [Key] field of the index. */
    const keyOf: M -> string
    /** What the service answers to a query over an index, by the number of searches made before it. */
    const search: (map<string, M>, string, nat) -> seq<M>
    /** Whether the service takes the n-th batch (RunBatchAsync logs and drops a batch it refuses). */
    const accepts: nat -> bool
    var index: map<string, M>
    var searches: nat
    var batches: nat

    /** Every document sits under its own key. */
    ghost predicate Valid()
      reads this
    {
      forall k :: k in index ==> keyOf(index[k]) == k
    }

    /** A search only lists documents of the index it searches, each once. */
    ghost predicate Sound()
    {
      forall index: map<string, M>, query, n ::
        var found := search(index, query, n);
        && (forall i :: 0 <= i < |found| ==> found[i] in index.Values)
        && (forall i, j :: 0 <= i < j < |found| ==> found[i] != found[j])
    }

    constructor (keyOf: M -> string, search: (map<string, M>, string, nat) -> seq<M>, accepts: nat -> bool)
      ensures Valid()
      ensures this.keyOf == keyOf && this.search == search && this.accepts == accepts
      ensures index == map[] && searches == 0 && batches == 0
    {
      this.keyOf := keyOf;
      this.search := search;
      this.accepts := accepts;
      index := map[];
      searches := 0;
      batches := 0;
    }

    /** The index after the n-th batch of `models`: uploaded when the service takes it, unchanged otherwise. */
    function Indexed(index: map<string, M>, n: nat, models: seq<M>): (r: map<string, M>)
      ensures !accepts(n) ==> r == index
      ensures accepts(n) ==> forall k :: k in r <==> k in index || exists i :: 0 <= i < |models| && keyOf(models[i]) == k
    {
      UploadKeys(index, keyOf, models);
      if accepts(n) then Upload(index, keyOf, models) else index
    }

    /** SaveAsync(models): one upload batch; a failure is swallowed, so it always completes. */
    method SaveAsync(models: seq<M>)
      requires Valid()
      modifies this
      ensures Valid()
      ensures index == Indexed(old(index), old(batches), models)
      ensures batches == old(batches) + 1 && searches == old(searches)
    {
      UploadKeyed(index, keyOf, models);
      if accepts(batches) {
        index := Upload(index, keyOf, models);
      }
      batches := batches + 1;
    }

    /** GetAsync(query): the documents the service finds; with a sound service, documents of the index only. */
    method GetAsync(query: string) returns (r: seq<M>)
      modifies this
      ensures r == search(old(index), query, old(searches))
      ensures Sound() ==> forall i :: 0 <= i < |r| ==> r[i] in index.Values
      ensures index == old(index) && batches == old(batches) && searches == old(searches) + 1
    {
      r := search(index, query, searches);
      searches := searches + 1;
    }
  }
}
