/**
 * BlobClient over an in-memory blob service: containers named in lower case, each mapping blob
 * names to a document and its metadata, and the client's cache of the containers it has opened.
 * The container of a document is chosen by its type (the BlobContainer attribute), here the
 * function `containerOf`.
 */
module BlobSdk {
  import opened Wrappers

  function LowerChar(c: char): char
  {
    if 'A' <= c <= 'Z' then (c as int + 32) as char else c
  }

  /** string.ToLower, for ASCII letters. */
  function Lower(s: string): (r: string)
    ensures |r| == |s|
  {
    if s == [] then [] else [LowerChar(s[0])] + Lower(s[1..])
  }

  /** Each character is lower-cased on its own. */
  lemma {:induction false} LowerAt(s: string)
    ensures forall i :: 0 <= i < |s| ==> Lower(s)[i] == LowerChar(s[i])
  {
    if s != [] {
      LowerAt(s[1..]);
    }
  }

  /** Lower-casing twice is lower-casing once, so the container name is the same at every lookup. */
  lemma LowerIdempotent(s: string)
    ensures Lower(Lower(s)) == Lower(s)
  {
    var once := Lower(s);
    LowerAt(s);
    LowerAt(once);
    assert forall i :: 0 <= i < |s| ==> LowerChar(once[i]) == once[i];
  }

  /** BlobModel<TBlobDocument>: a blob as written or read. */
  datatype BlobModel<T> = BlobModel(name: string, document: T, metadata: map<string, string>)

  /** What the service keeps under a blob name. */
  datatype StoredBlob<T> = StoredBlob(document: T, metadata: map<string, string>)

  type Container<T> = map<string, StoredBlob<T>>

  /** The service's containers and the client's container cache (_blobContainerClients). */
  datatype BlobState<T> = BlobState(service: map<string, Container<T>>, cache: set<string>)
  {
    /** The blobs of a container; a container that does not exist yet holds none. */
    function Blobs(container: string): Container<T>
    {
      if container in service then service[container] else map[]
    }

    /**
     * GetOrCreateBlobContainer: the lower-cased name; a cached container is reused as it is,
     * otherwise it is created on the service when missing and then cached.
     */
    function Open(containerName: string): (r: (BlobState<T>, string))
      ensures r.1 == Lower(containerName)
      ensures r.0.cache == cache + {r.1}
      ensures forall c :: r.0.Blobs(c) == Blobs(c)
      ensures r.1 in cache ==> r.0 == this
      ensures cache <= service.Keys ==> r.0.cache <= r.0.service.Keys
    {
      var lower := Lower(containerName);
      if lower in cache then (this, lower)
      else
        var service' := if lower in service then service else service[lower := map[]];
        (BlobState(service', cache + {lower}), lower)
    }

    /** GetBlobAsync: the blob under `name` in the container, or null. */
    function Get(containerName: string, name: string): (r: (BlobState<T>, Option<BlobModel<T>>))
      ensures r.0 == Open(containerName).0
      ensures var blobs := Blobs(Lower(containerName));
        r.1 == if name in blobs then Some(BlobModel(name, blobs[name].document, blobs[name].metadata)) else None
    {
      var opening := Open(containerName);
      var st1 := opening.0;
      var container := opening.1;
      var blobs := st1.Blobs(container);
      if name !in blobs then (st1, None)
      else (st1, Some(BlobModel(name, blobs[name].document, blobs[name].metadata)))
    }

    /** SaveBlobAsync into the container named `containerName`: refused when the name exists. */
    function Save(containerName: string, blob: BlobModel<T>): (r: (BlobState<T>, Option<Error>))
      ensures var container := Lower(containerName);
        && r.0.cache == cache + {container}
        && (r.1.Some? <==> blob.name in Blobs(container))
        && (r.1.Some? ==> r.1.value == BlobAlreadyExists(blob.name) && forall c :: r.0.Blobs(c) == Blobs(c))
        && (r.1.None? ==> r.0.Blobs(container) == Blobs(container)[blob.name := StoredBlob(blob.document, blob.metadata)])
        && (r.1.None? ==> forall c :: c != container ==> r.0.Blobs(c) == Blobs(c))
    {
      var opening := Open(containerName);
      var st1 := opening.0;
      var container := opening.1;
      var blobs := st1.Blobs(container);
      if blob.name in blobs then (st1, Some(BlobAlreadyExists(blob.name)))
      else
        var blobs' := blobs[blob.name := StoredBlob(blob.document, blob.metadata)];
        (BlobState(st1.service[container := blobs'], st1.cache), None)
    }
  }

  /** The container `base` after the blobs are written into it one after the other, a later name replacing an earlier one. */
  function Stored<T>(base: Container<T>, blobs: seq<BlobModel<T>>): Container<T>
    decreases |blobs|
  {
    if blobs == [] then base
    else
      var last := blobs[|blobs| - 1];
      Stored(base, blobs[..|blobs| - 1])[last.name := StoredBlob(last.document, last.metadata)]
  }

  /** A name is in Stored(base, blobs) exactly when it is in base or is the name of one of the blobs; other names keep their blob. */
  lemma {:induction false} StoredNames<T>(base: Container<T>, blobs: seq<BlobModel<T>>)
    ensures forall name :: name in Stored(base, blobs) <==> name in base || exists i :: 0 <= i < |blobs| && blobs[i].name == name
    ensures forall name :: name in base && (forall i :: 0 <= i < |blobs| ==> blobs[i].name != name) ==>
      Stored(base, blobs)[name] == base[name]
    decreases |blobs|
  {
    if blobs != [] {
      var n := |blobs| - 1;
      StoredNames(base, blobs[..n]);
      assert forall i :: 0 <= i < n ==> blobs[..n][i] == blobs[i];
    }
  }

  /** With pairwise distinct names, each blob is stored as it was given. */
  lemma {:induction false} StoredAt<T>(base: Container<T>, blobs: seq<BlobModel<T>>)
    requires forall i, j :: 0 <= i < j < |blobs| ==> blobs[i].name != blobs[j].name
    ensures forall i :: 0 <= i < |blobs| ==>
      blobs[i].name in Stored(base, blobs) && Stored(base, blobs)[blobs[i].name] == StoredBlob(blobs[i].document, blobs[i].metadata)
    decreases |blobs|
  {
    if blobs != [] {
      var n := |blobs| - 1;
      var prefix := blobs[..n];
      assert forall i :: 0 <= i < n ==> prefix[i] == blobs[i];
      StoredAt(base, prefix);
    }
  }

  /** With pairwise distinct names not in base, the container grows by exactly the number of blobs. */
  lemma {:induction false} StoredCount<T>(base: Container<T>, blobs: seq<BlobModel<T>>)
    requires forall i, j :: 0 <= i < j < |blobs| ==> blobs[i].name != blobs[j].name
    requires forall i :: 0 <= i < |blobs| ==> blobs[i].name !in base
    ensures |Stored(base, blobs)| == |base| + |blobs|
    decreases |blobs|
  {
    if blobs != [] {
      var n := |blobs| - 1;
      var prefix := blobs[..n];
      assert forall i :: 0 <= i < n ==> prefix[i] == blobs[i];
      StoredCount(base, prefix);
      StoredNames(base, prefix);
      assert blobs[n].name !in Stored(base, prefix);
    }
  }

  class BlobClient<T> {
    /** BlobContainerAttribute.ContainerName of each document type. */
    const containerOf: T -> string
    var service: map<string, Container<T>>
    var cache: set<string>

    function State(): BlobState<T>
      reads this
    {
      BlobState(service, cache)
    }

    /** Cached containers exist, and every blob sits in the container its document type names. */
    ghost predicate Valid()
      reads this
    {
      && cache <= service.Keys
      && forall c, n :: c in service && n in service[c] ==> Lower(containerOf(service[c][n].document)) == c
    }

    constructor (containerOf: T -> string, service: map<string, Container<T>>)
      requires forall c, n :: c in service && n in service[c] ==> Lower(containerOf(service[c][n].document)) == c
      ensures Valid()
      ensures this.containerOf == containerOf && this.service == service && this.cache == {}
    {
      this.containerOf := containerOf;
      this.service := service;
      this.cache := {};
    }

    /** BlobContainerAttribute.GetContainerName: the attribute's name, lower-cased. */
    function ContainerName(document: T): string
    {
      Lower(containerOf(document))
    }

    /** SaveBlobAsync on each blob in turn: the state after all of them and the first error, in list order. */
    function SaveAll(st: BlobState<T>, blobs: seq<BlobModel<T>>): (BlobState<T>, Option<Error>)
      decreases |blobs|
    {
      if blobs == [] then (st, None)
      else
        var before := SaveAll(st, blobs[..|blobs| - 1]);
        var last := blobs[|blobs| - 1];
        var saved := before.0.Save(ContainerName(last.document), last);
        (saved.0, FirstError(before.1, saved.1))
    }

    /** Saving blobs that all go to `container` leaves every other container as it was. */
    lemma {:induction false} SaveAllOthers(st: BlobState<T>, blobs: seq<BlobModel<T>>, container: string, other: string)
      requires forall i :: 0 <= i < |blobs| ==> ContainerName(blobs[i].document) == container
      requires other != container
      ensures SaveAll(st, blobs).0.Blobs(other) == st.Blobs(other)
      decreases |blobs|
    {
      if blobs != [] {
        var n := |blobs| - 1;
        SaveAllOthers(st, blobs[..n], container, other);
        LowerIdempotent(containerOf(blobs[n].document));
      }
    }

    /** Saving blobs with pairwise distinct names, none present yet, into one container succeeds and writes each in turn. */
    lemma {:induction false} SaveAllFreshState(st: BlobState<T>, blobs: seq<BlobModel<T>>, container: string)
      requires forall i :: 0 <= i < |blobs| ==> ContainerName(blobs[i].document) == container
      requires forall i, j :: 0 <= i < j < |blobs| ==> blobs[i].name != blobs[j].name
      requires forall i :: 0 <= i < |blobs| ==> blobs[i].name !in st.Blobs(container)
      ensures SaveAll(st, blobs).1.None?
      ensures SaveAll(st, blobs).0.Blobs(container) == Stored(st.Blobs(container), blobs)
      decreases |blobs|
    {
      if blobs != [] {
        var n := |blobs| - 1;
        var prefix := blobs[..n];
        var last := blobs[n];
        assert forall i :: 0 <= i < n ==> prefix[i] == blobs[i];
        SaveAllFreshState(st, prefix, container);
        StoredNames(st.Blobs(container), prefix);
        LowerIdempotent(containerOf(last.document));
        assert last.name !in SaveAll(st, prefix).0.Blobs(container);
      }
    }

    /**
     * Saving blobs with pairwise distinct names, none present yet, into one container succeeds
     * and adds exactly those blobs: the old ones stay, each new one is stored under its name with
     * its document and metadata, and the container grows by their number.
     */
    lemma SaveAllFresh(st: BlobState<T>, blobs: seq<BlobModel<T>>, container: string)
      requires forall i :: 0 <= i < |blobs| ==> ContainerName(blobs[i].document) == container
      requires forall i, j :: 0 <= i < j < |blobs| ==> blobs[i].name != blobs[j].name
      requires forall i :: 0 <= i < |blobs| ==> blobs[i].name !in st.Blobs(container)
      ensures var (st', error) := SaveAll(st, blobs);
        && error.None?
        && (forall name :: name in st.Blobs(container) ==> name in st'.Blobs(container) && st'.Blobs(container)[name] == st.Blobs(container)[name])
        && (forall i :: 0 <= i < |blobs| ==>
              blobs[i].name in st'.Blobs(container) && st'.Blobs(container)[blobs[i].name] == StoredBlob(blobs[i].document, blobs[i].metadata))
        && |st'.Blobs(container)| == |st.Blobs(container)| + |blobs|
    {
      SaveAllFreshState(st, blobs, container);
      StoredNames(st.Blobs(container), blobs);
      StoredAt(st.Blobs(container), blobs);
      StoredCount(st.Blobs(container), blobs);
    }

    /** The blob of a save stays under its name through later saves into the same container. */
    lemma {:induction false} SaveAllKeeps(st: BlobState<T>, blobs: seq<BlobModel<T>>, container: string, i: nat)
      requires forall i :: 0 <= i < |blobs| ==> ContainerName(blobs[i].document) == container
      requires i < |blobs|
      ensures blobs[i].name in SaveAll(st, blobs).0.Blobs(container)
      decreases |blobs|
    {
      var n := |blobs| - 1;
      LowerIdempotent(containerOf(blobs[n].document));
      if i < n {
        SaveAllKeeps(st, blobs[..n], container, i);
      }
    }

    /** A blob whose name is already in the container, or a name given twice, makes the run of saves report an error. */
    lemma {:induction false} SaveAllClash(st: BlobState<T>, blobs: seq<BlobModel<T>>, container: string, j: nat)
      requires forall i :: 0 <= i < |blobs| ==> ContainerName(blobs[i].document) == container
      requires j < |blobs|
      requires blobs[j].name in st.Blobs(container) || exists i :: 0 <= i < j && blobs[i].name == blobs[j].name
      ensures SaveAll(st, blobs).1.Some?
      decreases |blobs|
    {
      var n := |blobs| - 1;
      var prefix := blobs[..n];
      var last := blobs[n];
      var before := SaveAll(st, prefix);
      var saved := before.0.Save(ContainerName(last.document), last);
      assert SaveAll(st, blobs).1 == FirstError(before.1, saved.1);
      if j < n {
        SaveAllClash(st, prefix, container, j);
      } else {
        LowerIdempotent(containerOf(last.document));
        if last.name in st.Blobs(container) {
          SaveAllStays(st, prefix, container, last.name);
        } else {
          var i :| 0 <= i < j && blobs[i].name == last.name;
          assert prefix[i] == blobs[i];
          SaveAllKeeps(st, prefix, container, i);
        }
        assert last.name in before.0.Blobs(Lower(ContainerName(last.document)));
      }
    }

    /** A name in the container stays there through a run of saves. */
    lemma {:induction false} SaveAllStays(st: BlobState<T>, blobs: seq<BlobModel<T>>, container: string, name: string)
      requires forall i :: 0 <= i < |blobs| ==> ContainerName(blobs[i].document) == container
      requires name in st.Blobs(container)
      ensures name in SaveAll(st, blobs).0.Blobs(container)
      decreases |blobs|
    {
      if blobs != [] {
        var n := |blobs| - 1;
        LowerIdempotent(containerOf(blobs[n].document));
        SaveAllStays(st, blobs[..n], container, name);
      }
    }

    /** Two saves in a row: the state after both, and the first error. */
    lemma SaveAllPair(st: BlobState<T>, first: BlobModel<T>, second: BlobModel<T>)
      ensures var saved := st.Save(ContainerName(first.document), first);
        var saved' := saved.0.Save(ContainerName(second.document), second);
        SaveAll(st, [first, second]) == (saved'.0, FirstError(saved.1, saved'.1))
    {
      var saved := st.Save(ContainerName(first.document), first);
      assert [first][..0] == [];
      assert SaveAll(st, [first]) == (saved.0, FirstError(None, saved.1));
      assert [first, second][..1] == [first];
      assert SaveAll(st, [first, second]).0 == saved.0.Save(ContainerName(second.document), second).0;
    }

    /** SaveBlobAsync on each blob in turn (each Task object a strategy starts and then awaits together). */
    method SaveAllAsync(blobs: seq<BlobModel<T>>) returns (error: Option<Error>)
      requires Valid()
      modifies this
      ensures Valid()
      ensures (State(), error) == SaveAll(old(State()), blobs)
    {
      error := None;
      var i := 0;
      while i < |blobs|
        invariant 0 <= i <= |blobs| && Valid()
        invariant (State(), error) == SaveAll(old(State()), blobs[..i])
      {
        assert blobs[..i + 1][..i] == blobs[..i];
        var r := SaveBlobAsync(blobs[i]);
        error := FirstError(error, r);
        i := i + 1;
      }
      assert blobs[..i] == blobs;
    }

    /** GetOrCreateBlobContainer. */
    method OpenContainer(containerName: string) returns (container: string)
      requires Valid()
      modifies this
      ensures Valid()
      ensures (State(), container) == old(State()).Open(containerName)
    {
      container := Lower(containerName);
      if container in cache {
        return;
      }
      if container !in service {
        service := service[container := map[]];
      }
      cache := cache + {container};
    }

    /** GetBlobAsync<TBlob, TBlobDocument>(name), the document type being named by its container attribute. */
    method GetBlobAsync(containerName: string, name: string) returns (r: Option<BlobModel<T>>)
      requires Valid()
      modifies this
      ensures Valid()
      ensures (State(), r) == old(State()).Get(Lower(containerName), name)
      ensures r.Some? ==> r.value.name == name && ContainerName(r.value.document) == Lower(containerName)
    {
      LowerIdempotent(containerName);
      var container := OpenContainer(Lower(containerName));
      var blobs := service[container];
      if name !in blobs {
        return None;
      }
      r := Some(BlobModel(name, blobs[name].document, blobs[name].metadata));
    }

    /** SaveBlobAsync<TBlob, TBlobDocument>(blob): exists check, then upload into the document type's container. */
    method SaveBlobAsync(blob: BlobModel<T>) returns (r: Option<Error>)
      requires Valid()
      modifies this
      ensures Valid()
      ensures (State(), r) == old(State()).Save(ContainerName(blob.document), blob)
    {
      LowerIdempotent(containerOf(blob.document));
      var container := OpenContainer(ContainerName(blob.document));
      if blob.name in service[container] {
        return Some(BlobAlreadyExists(blob.name));
      }
      service := service[container := service[container][blob.name := StoredBlob(blob.document, blob.metadata)]];
      r := None;
    }
  }

  /** A saved blob reads back with its name, document and metadata. */
  lemma SaveThenGet<T>(st: BlobState<T>, containerName: string, blob: BlobModel<T>)
    requires st.Save(containerName, blob).1.None?
    ensures st.Save(containerName, blob).0.Get(containerName, blob.name).1 == Some(blob)
  {
  }

  /** Saving twice under one name in one container fails the second time and changes no blob. */
  lemma SaveTwiceFails<T>(st: BlobState<T>, containerName: string, blob: BlobModel<T>, other: BlobModel<T>)
    requires other.name == blob.name
    ensures var st' := st.Save(containerName, blob).0;
      st'.Save(containerName, other).1 == Some(BlobAlreadyExists(blob.name))
  {
  }

  /** One name under two containers is two blobs: saving into one leaves the other untouched. */
  lemma ContainersAreSeparate<T>(st: BlobState<T>, container: string, other: string, blob: BlobModel<T>)
    requires Lower(container) != Lower(other)
    ensures st.Save(container, blob).0.Blobs(Lower(other)) == st.Blobs(Lower(other))
  {
  }
}
