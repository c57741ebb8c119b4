/**
 * The object store behind the driver: one bucket, a finite map from keys to
 * byte strings, and the calls of the minio client the driver makes on it.
 * The client library is not part of this model; what each call does is an
 * assumption written into its postcondition:
 *  - a call that changes the bucket may fail for reasons outside the driver
 *    (network, permissions, quota); a failed call changes nothing;
 *  - StatObject succeeds exactly when the name is valid and the key is present;
 *  - a listing delivers the matching keys once each, in no promised order, and
 *    may be cut short by one trailing entry that carries an error (a failure of
 *    the store, with no key);
 *  - a non-recursive listing follows the delimiter "/" convention: an object
 *    directly under the prefix is listed with its size, and every deeper key is
 *    rolled up into the zero-size "common prefix" entry of its first component.
 */
module ObjectStore {
  import opened Wrappers
  import opened Paths
  import opened DriverApi

  type Byte = b: int | 0 <= b < 256

  type Objects = map<string, seq<Byte>>

  /** One entry of a listing (minio.ObjectInfo): a key and its size, or an error. */
  datatype ObjectInfo = ObjectInfo(key: string, size: nat, err: Option<Error>)

  /** The client refuses the empty object name. */
  predicate ValidObjectName(key: string) {
    key != ""
  }

  /** The client can address an object under `key`: the name is valid and the key is present. */
  predicate Stored(objects: Objects, key: string) {
    ValidObjectName(key) && key in objects
  }

  /** minio.NewDestinationInfo: checks the object name of a copy or compose target. */
  function Destination(key: string): (r: Result<string, Error>)
    ensures r.Success? <==> ValidObjectName(key)
    ensures r.Success? ==> r.value == key
    ensures r.Failure? ==> r.error == InvalidObjectName(key)
  {
    if ValidObjectName(key) then Success(key) else Failure(InvalidObjectName(key))
  }

  /** `key` lies directly under `prefix`: no "/" after the prefix. */
  predicate Direct(key: string, prefix: string) {
    HasPrefix(key, prefix) && '/' !in key[|prefix|..]
  }

  /**
   * The entry a non-recursive listing under `prefix` shows for `key`: the key itself
   * when it lies directly under the prefix, otherwise the common prefix that ends at
   * the first "/" after `prefix`.
   */
  function ChildKey(key: string, prefix: string): (child: string)
    requires HasPrefix(key, prefix)
    ensures HasPrefix(child, prefix) && HasPrefix(key, child)
    ensures Direct(key, prefix) ==> child == key
    ensures !Direct(key, prefix) ==> HasSuffix(child, "/") && |child| > |prefix|
  {
    var rest := key[|prefix|..];
    var i := IndexOf(rest, '/');
    assert key == prefix + rest;
    if i < |rest| then
      assert (prefix + rest[..i + 1])[|prefix| + i] == '/';
      assert key[..|prefix| + i + 1] == prefix + rest[..i + 1];
      prefix + rest[..i + 1]
    else
      key
  }

  /** The keys a listing under `prefix` delivers when nothing goes wrong. */
  function ListedKeys(objects: Objects, prefix: string, recursive: bool): set<string>
  {
    if recursive then set k | k in objects && HasPrefix(k, prefix)
    else set k | k in objects && HasPrefix(k, prefix) :: ChildKey(k, prefix)
  }

  /** The size a listing reports for a delivered key; common prefixes have size 0. */
  function ListedSize(objects: Objects, prefix: string, recursive: bool, key: string): nat
  {
    if key in objects && (recursive || Direct(key, prefix)) then |objects[key]| else 0
  }

  /** An entry that a listing under `prefix` can deliver. */
  predicate Listed(objects: Objects, prefix: string, recursive: bool, o: ObjectInfo)
  {
    if o.err.None? then
      o.key in ListedKeys(objects, prefix, recursive) && o.size == ListedSize(objects, prefix, recursive, o.key)
    else
      o.key == "" && o.size == 0 && o.err == Some(Backend)
  }

  /** No entry of the listing carries an error. */
  predicate Complete(listing: seq<ObjectInfo>) {
    forall i :: 0 <= i < |listing| ==> listing[i].err.None?
  }

  function KeysOf(listing: seq<ObjectInfo>): set<string> {
    set o | o in listing :: o.key
  }

  /** The keys of the first i + 1 entries: those of the first i, and the next one's. */
  lemma KeysOfNext(listing: seq<ObjectInfo>, i: nat)
    requires i < |listing|
    ensures KeysOf(listing[..i + 1]) == KeysOf(listing[..i]) + {listing[i].key}
  {
    assert listing[..i + 1] == listing[..i] + [listing[i]];
    assert forall o :: o in listing[..i + 1] <==> o in listing[..i] || o == listing[i];
  }


  /**
   * `listing` is a possible result of ListObjects(prefix, recursive) on `objects`: only its
   * last entry may be an error, every other entry is a distinct listed key, and a listing
   * without an error delivers every listed key.
   */
  ghost predicate IsListing(objects: Objects, prefix: string, recursive: bool, listing: seq<ObjectInfo>)
  {
    && (forall i :: 0 <= i < |listing| - 1 ==> listing[i].err.None?)
    && (forall i :: 0 <= i < |listing| ==> Listed(objects, prefix, recursive, listing[i]))
    && (forall i, j :: 0 <= i < j < |listing| && listing[i].err.None? && listing[j].err.None? ==>
          listing[i].key != listing[j].key)
    && (Complete(listing) ==> KeysOf(listing) == ListedKeys(objects, prefix, recursive))
  }

  /** Every entry of a listing that carries no error has the listing's prefix. */
  lemma ListedKeysHavePrefix(objects: Objects, prefix: string, recursive: bool, listing: seq<ObjectInfo>)
    requires IsListing(objects, prefix, recursive, listing)
    ensures forall i :: 0 <= i < |listing| && listing[i].err.None? ==> HasPrefix(listing[i].key, prefix)
  {
    forall i | 0 <= i < |listing| && listing[i].err.None? ensures HasPrefix(listing[i].key, prefix) {
      assert Listed(objects, prefix, recursive, listing[i]);
    }
  }

  /** A listed key stands for some object of the bucket under the prefix that starts with it. */
  lemma ListedKeyHasObject(objects: Objects, prefix: string, recursive: bool, key: string)
    requires key in ListedKeys(objects, prefix, recursive)
    ensures exists k :: k in objects && HasPrefix(k, prefix) && HasPrefix(k, key)
  {
    if !recursive {
      var k :| k in objects && HasPrefix(k, prefix) && ChildKey(k, prefix) == key;
    } else {
      assert HasPrefix(key, key);
    }
  }

  /** Every object under the prefix shows up in a listing that is complete. */
  lemma CompleteListingShows(objects: Objects, prefix: string, recursive: bool, listing: seq<ObjectInfo>, k: string)
    requires IsListing(objects, prefix, recursive, listing) && Complete(listing)
    requires k in objects && HasPrefix(k, prefix)
    ensures exists i :: 0 <= i < |listing| && listing[i].key == (if recursive then k else ChildKey(k, prefix))
  {
    var c := if recursive then k else ChildKey(k, prefix);
    assert c in ListedKeys(objects, prefix, recursive);
    assert c in KeysOf(listing);
    var o :| o in listing && o.key == c;
    var i :| 0 <= i < |listing| && listing[i] == o;
  }

  /** Rename's copy-then-delete: the object under `src` moves to `dst`. */
  function Moved(objects: Objects, src: string, dst: string): (moved: Objects)
    requires src in objects
    ensures src != dst ==> dst in moved && moved[dst] == objects[src] && src !in moved
    ensures forall k :: k != src && k != dst ==> (k in moved <==> k in objects)
    ensures forall k :: k in objects && k != src && k != dst ==> moved[k] == objects[k]
  {
    objects[dst := objects[src]] - {src}
  }

  /** The concatenation of the objects under `keys`, in order (ComposeObject's result). */
  function Concat(objects: Objects, keys: seq<string>): (data: seq<Byte>)
    requires forall i :: 0 <= i < |keys| ==> keys[i] in objects
  {
    if keys == [] then [] else objects[keys[0]] + Concat(objects, keys[1..])
  }

  /** Some sequence holding each key of `keys` once; the order is not promised. */
  method Enumerate(keys: set<string>) returns (s: seq<string>)
    ensures forall i, j :: 0 <= i < j < |s| ==> s[i] != s[j]
    ensures forall i :: 0 <= i < |s| ==> s[i] in keys
    ensures forall k :: k in keys ==> k in s
  {
    var pending := keys;
    s := [];
    while pending != {}
      invariant pending <= keys
      invariant forall i, j :: 0 <= i < j < |s| ==> s[i] != s[j]
      invariant forall i :: 0 <= i < |s| ==> s[i] in keys && s[i] !in pending
      invariant forall k :: k in keys ==> k in s || k in pending
      decreases |pending|
    {
      var k :| k in pending;
      s := s + [k];
      pending := pending - {k};
    }
  }

  /** Every listed key, once each, with its listed size, is a complete listing. */
  lemma EnumerationIsListing(objects: Objects, prefix: string, recursive: bool,
                             keys: seq<string>, listing: seq<ObjectInfo>)
    requires forall i, j :: 0 <= i < j < |keys| ==> keys[i] != keys[j]
    requires forall i :: 0 <= i < |keys| ==> keys[i] in ListedKeys(objects, prefix, recursive)
    requires forall k :: k in ListedKeys(objects, prefix, recursive) ==> k in keys
    requires |listing| == |keys|
    requires forall i :: 0 <= i < |keys| ==>
               listing[i] == ObjectInfo(keys[i], ListedSize(objects, prefix, recursive, keys[i]), None)
    ensures IsListing(objects, prefix, recursive, listing) && Complete(listing)
  {
    var all := ListedKeys(objects, prefix, recursive);
    forall k | k in all ensures k in KeysOf(listing) {
      var i :| 0 <= i < |keys| && keys[i] == k;
      assert listing[i] in listing;
    }
  }

  /** A complete listing cut short after `n` entries by an error is a listing too. */
  lemma CutListingIsListing(objects: Objects, prefix: string, recursive: bool,
                            listing: seq<ObjectInfo>, n: nat)
    requires IsListing(objects, prefix, recursive, listing) && Complete(listing)
    requires n <= |listing|
    ensures IsListing(objects, prefix, recursive, listing[..n] + [ObjectInfo("", 0, Some(Backend))])
  {
    var cut := listing[..n] + [ObjectInfo("", 0, Some(Backend))];
    assert forall i :: 0 <= i < n ==> cut[i] == listing[i];
    assert !Complete(cut) by { assert cut[n].err.Some?; }
  }

  class Bucket {
    var objects: Objects

    constructor (init: Objects)
      ensures objects == init
    {
      objects := init;
    }

    /** StatObject: the size of a present key; refuses an invalid name and fails on a missing key. */
    function StatObject(key: string): (r: Result<ObjectInfo, Error>)
      reads this
      ensures r.Success? <==> Stored(objects, key)
      ensures r.Success? ==> r.value == ObjectInfo(key, |objects[key]|, None)
      ensures !ValidObjectName(key) ==> r == Failure(InvalidObjectName(key))
      ensures ValidObjectName(key) && key !in objects ==> r == Failure(NoSuchKey(key))
    {
      if !ValidObjectName(key) then Failure(InvalidObjectName(key))
      else if key in objects then Success(ObjectInfo(key, |objects[key]|, None))
      else Failure(NoSuchKey(key))
    }

    /** GetObject: a handle on `key`; only the name is checked, the object is fetched lazily. */
    function GetObject(key: string): (r: Result<string, Error>)
      ensures r.Success? <==> ValidObjectName(key)
      ensures r.Success? ==> r.value == key
      ensures r.Failure? ==> r.error == InvalidObjectName(key)
    {
      Destination(key)
    }

    /**
     * Seek(offset, io.SeekStart) on a handle: a negative offset is refused before the
     * first request, a missing key fails that request, and an offset past the end is EOF.
     */
    function SeekObject(key: string, offset: int): (r: Option<Error>)
      reads this
      ensures r.None? <==> key in objects && 0 <= offset <= |objects[key]|
    {
      if offset < 0 then Some(InvalidArgument)
      else if key !in objects then Some(NoSuchKey(key))
      else if offset > |objects[key]| then Some(EndOfFile)
      else None
    }

    /** PutObject: stores `data` under `key`. */
    method PutObject(key: string, data: seq<Byte>) returns (n: nat, err: Option<Error>)
      modifies this
      ensures !ValidObjectName(key) ==> err == Some(InvalidObjectName(key))
      ensures err.None? ==> objects == old(objects)[key := data] && n == |data|
      ensures err.Some? ==> objects == old(objects) && n == 0
    {
      if !ValidObjectName(key) {
        return 0, Some(InvalidObjectName(key));
      }
      var failed: bool :| true;
      if failed {
        return 0, Some(Backend);
      }
      objects := objects[key := data];
      return |data|, None;
    }

    /** RemoveObject: deletes `key`; deleting a missing key is not an error. */
    method RemoveObject(key: string) returns (err: Option<Error>)
      modifies this
      ensures !ValidObjectName(key) ==> err == Some(InvalidObjectName(key))
      ensures err.None? ==> objects == old(objects) - {key}
      ensures err.Some? ==> objects == old(objects)
    {
      if !ValidObjectName(key) {
        return Some(InvalidObjectName(key));
      }
      var failed: bool :| true;
      if failed {
        return Some(Backend);
      }
      objects := objects - {key};
      return None;
    }

    /** CopyObject: copies the object under `src` to `dst`. */
    method CopyObject(dst: string, src: string) returns (err: Option<Error>)
      modifies this
      ensures src !in old(objects) ==> err == Some(NoSuchKey(src))
      ensures src in old(objects) && src == dst ==> err == Some(InvalidCopyDest(dst))
      ensures err.None? ==> src in old(objects) && src != dst && objects == old(objects)[dst := old(objects)[src]]
      ensures err.Some? ==> objects == old(objects)
    {
      if src !in objects {
        return Some(NoSuchKey(src));
      }
      if src == dst {
        return Some(InvalidCopyDest(dst));
      }
      var failed: bool :| true;
      if failed {
        return Some(Backend);
      }
      objects := objects[dst := objects[src]];
      return None;
    }

    /** ComposeObject: stores under `dst` the concatenation of the sources, in order. */
    method ComposeObject(dst: string, srcs: seq<string>) returns (err: Option<Error>)
      modifies this
      ensures (exists i :: 0 <= i < |srcs| && srcs[i] !in old(objects)) ==> err.Some?
      ensures err.None? ==> (forall i :: 0 <= i < |srcs| ==> srcs[i] in old(objects))
      ensures err.None? ==> objects == old(objects)[dst := Concat(old(objects), srcs)]
      ensures err.Some? ==> objects == old(objects)
    {
      var i := 0;
      while i < |srcs|
        invariant 0 <= i <= |srcs|
        invariant forall j :: 0 <= j < i ==> srcs[j] in objects
      {
        if srcs[i] !in objects {
          return Some(NoSuchKey(srcs[i]));
        }
        i := i + 1;
      }
      var failed: bool :| true;
      if failed {
        return Some(Backend);
      }
      objects := objects[dst := Concat(objects, srcs)];
      return None;
    }

    /** ListObjects: enumerates the keys under `prefix`. */
    method ListObjects(prefix: string, recursive: bool) returns (listing: seq<ObjectInfo>)
      ensures IsListing(objects, prefix, recursive, listing)
    {
      var objs := objects;
      var keys := Enumerate(ListedKeys(objs, prefix, recursive));
      listing := seq(|keys|, i requires 0 <= i < |keys| =>
                       ObjectInfo(keys[i], ListedSize(objs, prefix, recursive, keys[i]), None));
      EnumerationIsListing(objs, prefix, recursive, keys, listing);
      var failed: bool :| true;
      if failed {
        var n: nat :| n <= |listing|;
        CutListingIsListing(objs, prefix, recursive, listing, n);
        listing := listing[..n] + [ObjectInfo("", 0, Some(Backend))];
      }
    }
  }
}
