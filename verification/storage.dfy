/** The object-store adapter of storage/src/lib.rs: where documents and the
    index snapshot live in the bucket, how notification keys are recognised and
    stripped, and the four bucket operations. The remote bucket is the map
    `objects` from bucket-relative object paths to their bytes; a transport
    failure is an input (`reachable`) of each call. */
module BombasticStorage {
  import opened Wrappers
  import opened HexFormat

  /** Path of the document area inside the bucket. */
  const SBOM_PATH: string := "/data/sbom/"
  /** Path of the single index-snapshot slot inside the bucket. */
  const INDEX_PATH: string := "/index.sqlite"

  datatype S3Failure = Unreachable | NoSuchKey | Rejected
  datatype Error = Internal | Credentials | S3(failure: S3Failure)

  /** The object path `put` and `get` use for a document key. */
  function DocumentPath(key: string): (p: string)
    ensures |p| == |SBOM_PATH| + |key|
    ensures SBOM_PATH <= p && p[|SBOM_PATH|..] == key
  {
    SBOM_PATH + key
  }

  /** `str::strip_prefix`: the rest of `s` after `prefix`, when `s` starts with it. */
  function StripPrefix(s: string, prefix: string): (r: Option<string>)
    ensures r.Some? <==> prefix <= s
    ensures r.Some? ==> prefix + r.value == s
  {
    if prefix <= s then Some(s[|prefix|..]) else None
  }

  /** What `get_object` on `path` yields. */
  function ObjectAt(objects: map<string, Bytes>, path: string, reachable: bool): (r: Result<Bytes, Error>)
    ensures r.Success? <==> reachable && path in objects
    ensures r.Success? ==> r.value == objects[path]
    ensures !reachable ==> r == Failure(S3(Unreachable))
  {
    if !reachable then Failure(S3(Unreachable))
    else if path in objects then Success(objects[path])
    else Failure(S3(NoSuchKey))
  }

  /** Different keys are stored at different paths. */
  lemma DocumentPathInjective(k1: string, k2: string)
    requires DocumentPath(k1) == DocumentPath(k2)
    ensures k1 == k2
  {
    assert k1 == DocumentPath(k1)[|SBOM_PATH|..];
    assert k2 == DocumentPath(k2)[|SBOM_PATH|..];
  }

  /** No document path is the index path: they differ in their second character. */
  lemma DocumentPathIsNotIndexPath(key: string)
    ensures DocumentPath(key) != INDEX_PATH
  {
    assert DocumentPath(key)[1] == 'd';
  }

  /** A `get` after a successful `put` of the same key returns what was put. */
  lemma GetAfterPut(objects: map<string, Bytes>, key: string, value: Bytes)
    ensures ObjectAt(objects[DocumentPath(key) := value], DocumentPath(key), true) == Success(value)
  {
  }

  /** A `put` leaves every other document and the index snapshot as they were. */
  lemma PutLeavesTheRest(objects: map<string, Bytes>, key: string, value: Bytes, other: string, reachable: bool)
    requires other != key
    ensures var after := objects[DocumentPath(key) := value];
      && ObjectAt(after, DocumentPath(other), reachable) == ObjectAt(objects, DocumentPath(other), reachable)
      && ObjectAt(after, INDEX_PATH, reachable) == ObjectAt(objects, INDEX_PATH, reachable)
  {
    if DocumentPath(other) == DocumentPath(key) {
      DocumentPathInjective(other, key);
    }
    DocumentPathIsNotIndexPath(key);
  }

  /** A `put_index` is read back by `get_index` and leaves every document as it was. */
  lemma PutIndexLeavesDocuments(objects: map<string, Bytes>, snapshot: Bytes, key: string, reachable: bool)
    ensures var after := objects[INDEX_PATH := snapshot];
      && ObjectAt(after, INDEX_PATH, true) == Success(snapshot)
      && ObjectAt(after, DocumentPath(key), reachable) == ObjectAt(objects, DocumentPath(key), reachable)
  {
    DocumentPathIsNotIndexPath(key);
  }

  /** `Storage`: the bucket handle and the two fully qualified keys that
      notifications are compared with. */
  class Storage {
    const bucketName: string
    /** Notification keys of documents start with this. */
    const prefix: string
    /** The notification key of the index snapshot. */
    const indexPrefix: string
    /** Contents of the remote bucket, by bucket-relative object path. */
    var objects: map<string, Bytes>

    ghost predicate Valid()
    {
      prefix == bucketName + SBOM_PATH && indexPrefix == bucketName + INDEX_PATH
    }

    constructor (bucketName: string, objects: map<string, Bytes>)
      ensures Valid()
      ensures this.bucketName == bucketName && this.objects == objects
      ensures prefix == bucketName + SBOM_PATH && indexPrefix == bucketName + INDEX_PATH
    {
      this.bucketName := bucketName;
      this.prefix := bucketName + SBOM_PATH;
      this.indexPrefix := bucketName + INDEX_PATH;
      this.objects := objects;
    }

    function IsIndex(key: string): (r: bool)
      ensures Valid() ==> (r <==> key == bucketName + INDEX_PATH)
    {
      indexPrefix == key
    }

    function ExtractKey(key: string): (r: Option<string>)
      ensures r.Some? <==> prefix <= key
      ensures r.Some? ==> prefix + r.value == key
      ensures Valid() && r.Some? ==> key == bucketName + DocumentPath(r.value)
    {
      StripPrefix(key, prefix)
    }

    /** Only the exact snapshot key is recognised: no proper prefix of it and
        no extension of it. */
    lemma IsIndexExact(key: string)
      requires Valid()
      ensures IsIndex(key) <==> key == bucketName + INDEX_PATH
      ensures IsIndex(key) ==> forall n :: 0 <= n < |key| ==> !IsIndex(key[..n])
      ensures IsIndex(key) ==> forall more: string :: more != [] ==> !IsIndex(key + more)
    {
    }

    /** `extract_key` yields `s` exactly when the key is the document prefix followed by `s`. */
    lemma ExtractKeyIff(key: string, s: string)
      requires Valid()
      ensures ExtractKey(key) == Some(s) <==> key == bucketName + SBOM_PATH + s
    {
    }

    /** Round trip: whatever follows the document prefix is extracted back. */
    lemma ExtractKeyRoundTrip(s: string)
      requires Valid()
      ensures ExtractKey(prefix + s) == Some(s)
    {
    }

    /** The snapshot key is never taken for a document key. */
    lemma IndexKeyIsNotADocument(key: string)
      requires Valid()
      requires IsIndex(key)
      ensures ExtractKey(key) == None
    {
      var n := |bucketName|;
      assert key[n + 1] == 'i' && prefix[n + 1] == 'd';
    }

    /** A notification key from which a document key is extracted names the
        object that `get` of that key reads, and a `put` of a key produces a
        notification key that is extracted back to it. */
    lemma NotificationNamesObject(key: string, docKey: string)
      requires Valid()
      ensures ExtractKey(key) == Some(docKey) <==> key == bucketName + DocumentPath(docKey)
    {
      ExtractKeyIff(key, docKey);
      assert bucketName + SBOM_PATH + docKey == bucketName + (SBOM_PATH + docKey);
    }

    method Put(key: string, value: Bytes, reachable: bool) returns (r: Result<(), Error>)
      modifies this
      ensures r.Success? <==> reachable
      ensures !reachable ==> r == Failure(S3(Unreachable))
      ensures objects == if reachable then old(objects)[DocumentPath(key) := value] else old(objects)
    {
      if !reachable {
        return Failure(S3(Unreachable));
      }
      var path := SBOM_PATH + key;
      objects := objects[path := value];
      r := Success(());
    }

    method Get(key: string, reachable: bool) returns (r: Result<Bytes, Error>)
      ensures r == ObjectAt(objects, DocumentPath(key), reachable)
      ensures r.Success? <==> reachable && DocumentPath(key) in objects
      ensures r.Success? ==> r.value == objects[DocumentPath(key)]
    {
      var path := SBOM_PATH + key;
      r := ObjectAt(objects, path, reachable);
    }

    method PutIndex(snapshot: Bytes, reachable: bool) returns (r: Result<(), Error>)
      modifies this
      ensures r.Success? <==> reachable
      ensures !reachable ==> r == Failure(S3(Unreachable))
      ensures objects == if reachable then old(objects)[INDEX_PATH := snapshot] else old(objects)
    {
      if !reachable {
        return Failure(S3(Unreachable));
      }
      objects := objects[INDEX_PATH := snapshot];
      r := Success(());
    }

    method GetIndex(reachable: bool) returns (r: Result<Bytes, Error>)
      ensures r == ObjectAt(objects, INDEX_PATH, reachable)
      ensures r.Success? <==> reachable && INDEX_PATH in objects
      ensures r.Success? ==> r.value == objects[INDEX_PATH]
    {
      r := ObjectAt(objects, INDEX_PATH, reachable);
    }
  }

  /** `Storage::new`: builds both qualified keys from the bucket name; fails
      when the bucket handle cannot be created. */
  method NewStorage(bucketName: string, objects: map<string, Bytes>, bucketCreated: bool)
    returns (r: Result<Storage, Error>)
    ensures r.Success? <==> bucketCreated
    ensures !bucketCreated ==> r == Failure(S3(Rejected))
    ensures r.Success? ==>
      && fresh(r.value) && r.value.Valid() && r.value.objects == objects
      && r.value.prefix == bucketName + SBOM_PATH && r.value.indexPrefix == bucketName + INDEX_PATH
  {
    if !bucketCreated {
      return Failure(S3(Rejected));
    }
    var storage := new Storage(bucketName, objects);
    r := Success(storage);
  }
}
