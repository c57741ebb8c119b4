/**
 * The object-store Driver of driver/minio/minio.go (the driver for server v2).
 * The FTP namespace, rooted at "/", is mapped onto the flat keys of one bucket:
 * a path loses its leading "/", a directory is a zero-length object whose key
 * ends in "/" or just a prefix that other keys share, Rename copies and then
 * deletes, and a resumed upload puts a temporary object and composes it with
 * the existing one.
 */
module Minio {
  import opened Wrappers
  import opened Paths
  import opened DriverApi
  import opened ObjectStore

  /** The prefix ListDir lists under: the directory key, or "" for the root. */
  function ListDirPrefix(path: string): string {
    var p := BuildMinioDir(path);
    if p == "/" then "" else p
  }

  /** The directory prefix of every path except the root ends in "/"; the root's is empty. */
  lemma ListDirPrefixShape(path: string)
    ensures ListDirPrefix("/") == ""
    ensures ListDirPrefix(path) == "" || (ListDirPrefix(path) == BuildMinioDir(path) && HasSuffix(ListDirPrefix(path), "/"))
  {
    assert BuildMinioPath("/") == "";
  }

  /** The FileInfo ListDir hands to its callback for a listed object. */
  function EntryFor(o: ObjectInfo, prefix: string): FileInfo {
    FileInfo(TrimPrefix(o.key, prefix), o.size, HasSuffix(o.key, "/"))
  }

  /**
   * ListDir's walk over a listing: the callbacks it makes, in order, and the error it
   * returns. It skips the directory's own key, returns a listing error at once, and
   * stops after the first callback that fails.
   */
  function Walk(listing: seq<ObjectInfo>, prefix: string, visit: FileInfo -> Option<Error>): (seq<FileInfo>, Option<Error>)
  {
    if listing == [] then ([], None)
    else if listing[0].err.Some? then ([], listing[0].err)
    else if listing[0].key == prefix then Walk(listing[1..], prefix, visit)
    else
      var e := EntryFor(listing[0], prefix);
      if visit(e).Some? then ([e], visit(e))
      else
        var rest := Walk(listing[1..], prefix, visit);
        ([e] + rest.0, rest.1)
  }

  /** The entries of a directory: the listing up to its first error, without the directory itself. */
  function DirEntries(listing: seq<ObjectInfo>, prefix: string): seq<FileInfo> {
    if listing == [] || listing[0].err.Some? then []
    else if listing[0].key == prefix then DirEntries(listing[1..], prefix)
    else [EntryFor(listing[0], prefix)] + DirEntries(listing[1..], prefix)
  }

  /** The error of the first entry that carries one. */
  function FirstError(listing: seq<ObjectInfo>): Option<Error> {
    if listing == [] then None
    else if listing[0].err.Some? then listing[0].err
    else FirstError(listing[1..])
  }

  /** The callback accepts every entry of `entries`. */
  predicate Accepts(visit: FileInfo -> Option<Error>, entries: seq<FileInfo>) {
    forall j :: 0 <= j < |entries| ==> visit(entries[j]).None?
  }

  /**
   * ListDir calls back with the directory's entries in listing order and stops at the
   * first error: either a callback failed (and was the last one made), or the listing
   * failed after every entry before it was accepted. No error means every entry was
   * visited, every callback accepted, and the listing was complete.
   */
  lemma {:induction false} WalkStopsAtFirstError(listing: seq<ObjectInfo>, prefix: string, visit: FileInfo -> Option<Error>)
    ensures var calls := Walk(listing, prefix, visit).0;
            var err := Walk(listing, prefix, visit).1;
            && |calls| <= |DirEntries(listing, prefix)|
            && calls == DirEntries(listing, prefix)[..|calls|]
            && (err.None? ==> calls == DirEntries(listing, prefix) && Accepts(visit, calls) && Complete(listing))
            && (err.Some? ==>
                  (calls != [] && Accepts(visit, calls[..|calls| - 1]) && visit(calls[|calls| - 1]) == err)
                  || (calls == DirEntries(listing, prefix) && Accepts(visit, calls) && err == FirstError(listing)))
  {
    if listing == [] || listing[0].err.Some? {
    } else {
      WalkStopsAtFirstError(listing[1..], prefix, visit);
      var rest := Walk(listing[1..], prefix, visit);
      if listing[0].key == prefix {
        if rest.1.None? {
          assert Complete(listing) by {
            assert forall i :: 1 <= i < |listing| ==> listing[i] == listing[1..][i - 1];
          }
        }
      } else {
        var e := EntryFor(listing[0], prefix);
        if visit(e).None? {
          var calls := [e] + rest.0;
          assert calls[1..] == rest.0;
          if rest.1.None? {
            assert Complete(listing) by {
              assert forall i :: 1 <= i < |listing| ==> listing[i] == listing[1..][i - 1];
            }
          } else if rest.0 != [] && visit(rest.0[|rest.0| - 1]) == rest.1 && Accepts(visit, rest.0[..|rest.0| - 1]) {
            assert calls[..|calls| - 1] == [e] + rest.0[..|rest.0| - 1];
          }
        }
      }
    }
  }

  /** Walk over the suffix of a listing from position i, one step unfolded. */
  lemma WalkUnfold(listing: seq<ObjectInfo>, prefix: string, visit: FileInfo -> Option<Error>, i: nat)
    requires i < |listing|
    ensures var e := EntryFor(listing[i], prefix);
            var rest := Walk(listing[i + 1..], prefix, visit);
            Walk(listing[i..], prefix, visit) ==
              if listing[i].err.Some? then ([], listing[i].err)
              else if listing[i].key == prefix then rest
              else if visit(e).Some? then ([e], visit(e))
              else ([e] + rest.0, rest.1)
  {
    assert listing[i..][0] == listing[i];
    assert listing[i..][1..] == listing[i + 1..];
  }

  /**
   * Every directory entry is named by its key with the directory prefix removed, the
   * name is never empty (the directory's own marker is never an entry), and the entry
   * is a directory exactly when its key ends in "/".
   */
  lemma {:induction false} DirEntriesAreRenamedKeys(listing: seq<ObjectInfo>, prefix: string)
    requires forall i :: 0 <= i < |listing| && listing[i].err.None? ==> HasPrefix(listing[i].key, prefix)
    ensures forall e :: e in DirEntries(listing, prefix) ==>
              e.name != "" &&
              exists i :: 0 <= i < |listing| && listing[i].err.None? && listing[i].key == prefix + e.name &&
                          e.size == listing[i].size && e.isDir == HasSuffix(listing[i].key, "/")
  {
    if listing == [] || listing[0].err.Some? {
    } else {
      var tail := listing[1..];
      assert forall i :: 0 <= i < |tail| ==> tail[i] == listing[i + 1];
      DirEntriesAreRenamedKeys(tail, prefix);
      if listing[0].key != prefix {
        var e := EntryFor(listing[0], prefix);
        assert prefix + e.name == listing[0].key;
        assert e.name != "";
      }
    }
  }

  /** Every FileInfo ListDir hands to its callback has a non-empty name. */
  lemma WalkCallsAreNamed(objects: Objects, prefix: string, listing: seq<ObjectInfo>, visit: FileInfo -> Option<Error>)
    requires IsListing(objects, prefix, false, listing)
    ensures forall e :: e in Walk(listing, prefix, visit).0 ==> e.name != ""
  {
    ListedKeysHavePrefix(objects, prefix, false, listing);
    WalkStopsAtFirstError(listing, prefix, visit);
    DirEntriesAreRenamedKeys(listing, prefix);
    var calls := Walk(listing, prefix, visit).0;
    var entries := DirEntries(listing, prefix);
    forall e | e in calls ensures e.name != "" {
      var j :| 0 <= j < |calls| && calls[j] == e;
      assert entries[..|calls|][j] == entries[j];
      assert e in entries;
    }
  }

  /**
   * Every key of the listing other than the directory's own shows up as an entry, as
   * long as no error entry comes before it.
   */
  lemma {:induction false} DirEntriesShowListed(listing: seq<ObjectInfo>, prefix: string, i: nat)
    requires i < |listing| && listing[i].key != prefix
    requires forall j :: 0 <= j <= i ==> listing[j].err.None?
    ensures EntryFor(listing[i], prefix) in DirEntries(listing, prefix)
  {
    var tail := listing[1..];
    assert listing[0].err.None?;
    if i == 0 {
      assert DirEntries(listing, prefix) == [EntryFor(listing[0], prefix)] + DirEntries(tail, prefix);
    } else {
      forall j | 0 <= j <= i - 1
        ensures tail[j].err.None?
      {
        assert tail[j] == listing[j + 1];
      }
      assert tail[i - 1] == listing[i];
      DirEntriesShowListed(tail, prefix, i - 1);
      if listing[0].key == prefix {
        assert DirEntries(listing, prefix) == DirEntries(tail, prefix);
      } else {
        assert DirEntries(listing, prefix) == [EntryFor(listing[0], prefix)] + DirEntries(tail, prefix);
      }
    }
  }

  /**
   * A complete listing of a directory shows each of its immediate children: every key
   * below the directory other than its marker appears as the entry named by its first
   * path component after the prefix.
   */
  lemma DirEntriesCoverChildren(objects: Objects, prefix: string, listing: seq<ObjectInfo>, k: string)
    requires IsListing(objects, prefix, false, listing) && Complete(listing)
    requires k in objects && HasPrefix(k, prefix) && k != prefix
    ensures exists e :: e in DirEntries(listing, prefix) && prefix + e.name == ChildKey(k, prefix)
  {
    CompleteListingShows(objects, prefix, false, listing, k);
    var i :| 0 <= i < |listing| && listing[i].key == ChildKey(k, prefix);
    assert ChildKey(k, prefix) != prefix;
    DirEntriesShowListed(listing, prefix, i);
    var e := EntryFor(listing[i], prefix);
    assert prefix + e.name == listing[i].key;
  }

  /**
   * After DeleteDir has walked a complete recursive listing of `prefix`, exactly the keys
   * that start with the prefix are gone; every other key keeps its object.
   */
  lemma DeleteDirRemovesEveryPrefixedKey(objects: Objects, prefix: string, listing: seq<ObjectInfo>)
    requires IsListing(objects, prefix, true, listing) && Complete(listing)
    ensures objects - KeysOf(listing[..|listing|]) == map k | k in objects && !HasPrefix(k, prefix) :: objects[k]
  {
    assert listing[..|listing|] == listing;
  }

  /**
   * As written, DeleteDir lists under the path without its trailing "/", so removing
   * "/dir" also removes the unrelated object "dirt".
   */
  lemma DeleteDirTakesSibling(listing: seq<ObjectInfo>)
    requires IsListing(map["dir/a" := [], "dirt" := []], BuildMinioPath("/dir"), true, listing)
    requires Complete(listing)
    ensures "dirt" in KeysOf(listing) && "dir/a" in KeysOf(listing)
  {
    assert BuildMinioPath("/dir") == "dir";
    assert HasPrefix("dirt", "dir") && HasPrefix("dir/a", "dir");
    assert "dirt" in ListedKeys(map["dir/a" := [], "dirt" := []], "dir", true);
    assert "dir/a" in ListedKeys(map["dir/a" := [], "dirt" := []], "dir", true);
  }

  /** The intended effect of deleting a directory: its marker and descendants go, nothing else. */
  function IntendedDeleteDir(objects: Objects, path: string): Objects {
    map k | k in objects && !HasPrefix(k, BuildMinioDir(path)) :: objects[k]
  }

  /**
   * Deleting with the directory key as prefix removes every descendant and keeps every
   * sibling whose name merely extends the directory's name.
   */
  lemma IntendedDeleteDirKeepsSiblings(objects: Objects, path: string, suffix: string)
    requires suffix != [] && suffix[0] != '/'
    requires !HasSuffix(BuildMinioPath(path), "/")
    ensures BuildMinioPath(path) + suffix in objects ==>
              BuildMinioPath(path) + suffix in IntendedDeleteDir(objects, path) &&
              IntendedDeleteDir(objects, path)[BuildMinioPath(path) + suffix] == objects[BuildMinioPath(path) + suffix]
    ensures BuildMinioPath(path) + "/" + suffix !in IntendedDeleteDir(objects, path)
  {
    DirKeySparesSiblings(path, suffix);
  }

  /**
   * The marker MakeDir stores for a path is the very key Stat's directory test looks up
   * for that path, so once it is stored Stat reports the path as a directory (unless an
   * object sits under the path's own key).
   */
  lemma MakeDirMarkerMakesDirectory(objects: Objects, path: string)
    requires !HasPrefix(BuildMinioPath(path), "/")
    ensures BuildMinioDir(BuildMinioPath(path)) == BuildMinioDir(path)
    ensures BuildMinioDir(BuildMinioPath(path)) in objects[BuildMinioDir(path) := []]
  {
    var v := BuildMinioPath(path);
    assert BuildMinioPath(v) == v by {
      if |v| > 0 { assert v[..1] != "/"; }
    }
  }

  /** The key a resumed upload is staged under. */
  function TempKey(key: string): string {
    key + ".tmp"
  }

  /** The sources PutFile composes on the resume path: the temporary object, then the original. */
  function ResumeSources(key: string, temp: string): seq<string> {
    [temp, key]
  }

  /** As written, a resumed upload stores the uploaded bytes FOLLOWED by the original object. */
  lemma ResumeComposesUploadFirst(objects: Objects, key: string, data: seq<Byte>)
    requires key in objects
    ensures var staged := objects[TempKey(key) := data];
            Concat(staged, ResumeSources(key, TempKey(key))) == data + objects[key]
  {
    var staged := objects[TempKey(key) := data];
    assert TempKey(key) != key by { assert |TempKey(key)| > |key|; }
    assert Concat(staged, [key]) == objects[key];
  }

  /**
   * Resuming the one-byte object [1] at offset 1 with the upload [2] yields [2, 1]:
   * the byte before the offset is no longer the original's.
   */
  lemma ResumePrependsUpload()
    ensures var objects: Objects := map["f" := [1]];
            var staged := objects[TempKey("f") := [2]];
            Concat(staged, ResumeSources("f", TempKey("f"))) == [2, 1] &&
            Concat(staged, ResumeSources("f", TempKey("f")))[..1] != objects["f"]
  {
    var objects: Objects := map["f" := [1]];
    ResumeComposesUploadFirst(objects, "f", [2]);
  }

  /** The composition a resume evidently intends: the original, then the uploaded bytes. */
  function IntendedResumeSources(key: string, temp: string): seq<string> {
    [key, temp]
  }

  /**
   * With the intended order a resumed upload at offset |original| keeps the original
   * bytes before that offset and has the uploaded bytes from it on.
   */
  lemma IntendedResumeAppends(objects: Objects, key: string, data: seq<Byte>)
    requires key in objects
    ensures var staged := objects[TempKey(key) := data];
            var result := Concat(staged, IntendedResumeSources(key, TempKey(key)));
            result == objects[key] + data &&
            result[..|objects[key]|] == objects[key] && result[|objects[key]|..] == data
  {
    var staged := objects[TempKey(key) := data];
    assert TempKey(key) != key by { assert |TempKey(key)| > |key|; }
    assert Concat(staged, [TempKey(key)]) == data;
  }

  /**
   * The loop of ListDir over the listing it receives: one callback per entry other than
   * the directory's own key, returning at the first error entry or failing callback.
   */
  method VisitListing(objects: seq<ObjectInfo>, p: string, visit: FileInfo -> Option<Error>)
    returns (calls: seq<FileInfo>, err: Option<Error>)
    ensures (calls, err) == Walk(objects, p, visit)
  {
    calls := [];
    var i := 0;
    while i < |objects|
      invariant 0 <= i <= |objects|
      invariant Walk(objects, p, visit).0 == calls + Walk(objects[i..], p, visit).0
      invariant Walk(objects, p, visit).1 == Walk(objects[i..], p, visit).1
    {
      var obj := objects[i];
      WalkUnfold(objects, p, visit, i);
      ghost var rest := Walk(objects[i + 1..], p, visit);
      if obj.err.Some? {
        assert calls + [] == calls;
        return calls, obj.err;
      }
      // the directory's own marker is not an entry
      if obj.key == p {
        assert Walk(objects[i..], p, visit) == rest;
        i := i + 1;
        continue;
      }
      var info := EntryFor(obj, p);
      ghost var before := calls;
      calls := calls + [info];
      var cbErr := visit(info);
      if cbErr.Some? {
        assert Walk(objects[i..], p, visit) == ([info], cbErr);
        return calls, cbErr;
      }
      assert Walk(objects[i..], p, visit) == ([info] + rest.0, rest.1);
      assert before + ([info] + rest.0) == calls + rest.0;
      i := i + 1;
    }
    assert objects[i..] == [] && calls + [] == calls;
    return calls, None;
  }

  /**
   * The loop of DeleteDir over the listing it receives: removes each entry's key in
   * turn and returns at the first error entry or failed removal. `removed` entries
   * were removed.
   */
  method RemoveListed(bucket: Bucket, objects: seq<ObjectInfo>) returns (err: Option<Error>, ghost removed: nat)
    modifies bucket
    ensures removed <= |objects| && Complete(objects[..removed])
    ensures bucket.objects == old(bucket.objects) - KeysOf(objects[..removed])
    ensures err.None? ==> removed == |objects|
    ensures err.Some? ==> removed < |objects|
  {
    var i := 0;
    while i < |objects|
      invariant 0 <= i <= |objects|
      invariant Complete(objects[..i])
      invariant bucket.objects == old(bucket.objects) - KeysOf(objects[..i])
    {
      var obj := objects[i];
      if obj.err.Some? {
        return obj.err, i;
      }
      var removeErr := bucket.RemoveObject(obj.key);
      if removeErr.Some? {
        return removeErr, i;
      }
      KeysOfNext(objects, i);
      assert Complete(objects[..i + 1]) by {
        assert forall j :: 0 <= j < i ==> objects[..i + 1][j] == objects[..i][j];
      }
      i := i + 1;
    }
    return None, i;
  }

  class Driver {
    const bucket: Bucket

    constructor (bucket: Bucket)
      ensures this.bucket == bucket
    {
      this.bucket := bucket;
    }

    /**
     * isDir: a path is a directory when its marker exists or some key lies under its
     * directory key. The error result is nil on every path.
     */
    method IsDir(path: string) returns (dir: bool, err: Option<Error>, ghost listing: seq<ObjectInfo>)
      ensures err == None
      ensures BuildMinioDir(path) in bucket.objects ==> dir
      ensures dir ==> exists k :: k in bucket.objects && HasPrefix(k, BuildMinioDir(path))
      ensures !dir ==> IsListing(bucket.objects, BuildMinioDir(path), false, listing) &&
                       (Complete(listing) ==> forall k :: k in bucket.objects ==> !HasPrefix(k, BuildMinioDir(path)))
    {
      var p := BuildMinioDir(path);
      var info := bucket.StatObject(p);
      if info.Failure? {
        var objects := bucket.ListObjects(p, false);
        listing := objects;
        var i := 0;
        while i < |objects|
          invariant 0 <= i <= |objects|
          invariant forall j :: 0 <= j < i ==> !HasPrefix(objects[j].key, p)
        {
          if HasPrefix(objects[i].key, p) {
            assert Listed(bucket.objects, p, false, objects[i]);
            ListedKeyHasObject(bucket.objects, p, false, objects[i].key);
            return true, None, listing;
          }
          i := i + 1;
        }
        if Complete(listing) {
          forall k | k in bucket.objects ensures !HasPrefix(k, p) {
            if HasPrefix(k, p) {
              CompleteListingShows(bucket.objects, p, false, listing, k);
            }
          }
        }
        return false, None, listing;
      }
      listing := [];
      assert HasPrefix(p, p);
      return HasSuffix(info.value.key, "/"), None, listing;
    }

    /**
     * Stat: the root is always a directory; an existing key is a file, or a directory
     * when it ends in "/"; a missing key is a directory when its marker exists or keys
     * lie under it, and is otherwise "Not a directory".
     */
    method Stat(path: string) returns (r: Result<FileInfo, Error>, ghost listing: seq<ObjectInfo>)
      ensures path == "/" ==> r == Success(FileInfo("/", 0, true))
      ensures path != "/" && Stored(bucket.objects, BuildMinioPath(path)) ==>
                r == Success(FileInfo(BuildMinioPath(path), |bucket.objects[BuildMinioPath(path)]|,
                                      HasSuffix(BuildMinioPath(path), "/")))
      ensures (path != "/" && !Stored(bucket.objects, BuildMinioPath(path)) &&
               BuildMinioDir(BuildMinioPath(path)) in bucket.objects) ==>
                r == Success(FileInfo(path, 0, true))
      ensures path != "/" && !Stored(bucket.objects, BuildMinioPath(path)) && r.Success? ==>
                r.value == FileInfo(path, 0, true) &&
                exists k :: k in bucket.objects && HasPrefix(k, BuildMinioDir(BuildMinioPath(path)))
      ensures path != "/" && !Stored(bucket.objects, BuildMinioPath(path)) && r.Failure? ==>
                r.error == NotADirectory &&
                IsListing(bucket.objects, BuildMinioDir(BuildMinioPath(path)), false, listing) &&
                (Complete(listing) ==>
                   forall k :: k in bucket.objects ==> !HasPrefix(k, BuildMinioDir(BuildMinioPath(path))))
    {
      if path == "/" {
        return Success(FileInfo("/", 0, true)), [];
      }
      var p := BuildMinioPath(path);
      var objInfo := bucket.StatObject(p);
      if objInfo.Failure? {
        // IsDir's error is nil on every path (its postcondition), so the error test of
        // the source never fires.
        var isDir, _, l := IsDir(p);
        listing := l;
        if isDir {
          return Success(FileInfo(path, 0, true)), listing;
        }
        return Failure(NotADirectory), listing;
      }
      var isDir := HasSuffix(objInfo.value.key, "/");
      return Success(FileInfo(p, objInfo.value.size, isDir)), [];
    }

    /**
     * ListDir: calls `visit` on each immediate child of the directory, named relative to
     * it, skipping the directory's own marker, and stops at the first listing or
     * callback error. `calls` are the FileInfo values the callback received.
     */
    method ListDir(path: string, visit: FileInfo -> Option<Error>)
      returns (calls: seq<FileInfo>, err: Option<Error>, ghost listing: seq<ObjectInfo>)
      ensures IsListing(bucket.objects, ListDirPrefix(path), false, listing)
      ensures (calls, err) == Walk(listing, ListDirPrefix(path), visit)
      ensures forall e :: e in calls ==> e.name != ""
    {
      var p := BuildMinioDir(path);
      if p == "/" {
        p := "";
      }
      var objects := bucket.ListObjects(p, false);
      listing := objects;
      assert p == ListDirPrefix(path);
      WalkCallsAreNamed(bucket.objects, p, listing, visit);
      calls, err := VisitListing(objects, p, visit);
    }

    /**
     * DeleteDir: removes, one by one, every key a recursive listing of the path (without
     * a trailing "/") delivers, and stops at the first listing or removal error. The
     * listing is taken as one snapshot before the first removal.
     */
    method DeleteDir(path: string) returns (err: Option<Error>, ghost listing: seq<ObjectInfo>, ghost removed: nat)
      modifies bucket
      ensures IsListing(old(bucket.objects), BuildMinioPath(path), true, listing)
      ensures removed <= |listing| && Complete(listing[..removed])
      ensures bucket.objects == old(bucket.objects) - KeysOf(listing[..removed])
      ensures err.None? ==> removed == |listing|
      ensures err.Some? ==> removed < |listing|
    {
      var p := BuildMinioPath(path);
      var objects := bucket.ListObjects(p, true);
      listing := objects;
      err, removed := RemoveListed(bucket, objects);
    }

    /** DeleteFile: removes the object under the path's key. */
    method DeleteFile(path: string) returns (err: Option<Error>)
      modifies bucket
      ensures BuildMinioPath(path) == "" ==> err == Some(InvalidObjectName(""))
      ensures err.None? ==> bucket.objects == old(bucket.objects) - {BuildMinioPath(path)}
      ensures err.Some? ==> bucket.objects == old(bucket.objects)
    {
      err := bucket.RemoveObject(BuildMinioPath(path));
    }

    /**
     * Rename: copy, then delete the source. If the copy fails nothing changes; if the
     * delete fails the copy stays; in both cases the source is intact.
     */
    method Rename(fromPath: string, toPath: string) returns (err: Option<Error>)
      modifies bucket
      ensures BuildMinioPath(toPath) == "" ==> err == Some(InvalidObjectName("")) && bucket.objects == old(bucket.objects)
      ensures BuildMinioPath(fromPath) !in old(bucket.objects) ==> err.Some? && bucket.objects == old(bucket.objects)
      ensures err.None? ==>
                BuildMinioPath(fromPath) in old(bucket.objects) && BuildMinioPath(fromPath) != BuildMinioPath(toPath) &&
                bucket.objects == Moved(old(bucket.objects), BuildMinioPath(fromPath), BuildMinioPath(toPath))
      ensures err.Some? ==>
                bucket.objects == old(bucket.objects) ||
                (BuildMinioPath(fromPath) in old(bucket.objects) &&
                 bucket.objects == old(bucket.objects)[BuildMinioPath(toPath) := old(bucket.objects)[BuildMinioPath(fromPath)]])
      ensures err.Some? && BuildMinioPath(fromPath) in old(bucket.objects) ==>
                BuildMinioPath(fromPath) in bucket.objects &&
                bucket.objects[BuildMinioPath(fromPath)] == old(bucket.objects)[BuildMinioPath(fromPath)]
    {
      var src := BuildMinioPath(fromPath);
      var dst := Destination(BuildMinioPath(toPath));
      if dst.Failure? {
        return Some(dst.error);
      }
      var copyErr := bucket.CopyObject(dst.value, src);
      if copyErr.Some? {
        return copyErr;
      }
      err := bucket.RemoveObject(BuildMinioPath(fromPath));
    }

    /** MakeDir: stores a zero-length marker object under the directory key. */
    method MakeDir(path: string) returns (err: Option<Error>)
      modifies bucket
      ensures err.None? ==> bucket.objects == old(bucket.objects)[BuildMinioDir(path) := []]
      ensures err.Some? ==> bucket.objects == old(bucket.objects)
    {
      var dirPath := BuildMinioDir(path);
      var _, putErr := bucket.PutObject(dirPath, []);
      err := putErr;
    }

    /**
     * GetFile: the bytes of the object from `offset` on, and how many there are. The
     * offset must lie within the object, its end included.
     */
    method GetFile(path: string, offset: int) returns (n: int, content: seq<Byte>, err: Option<Error>)
      ensures err.None? <==>
                BuildMinioPath(path) != "" && BuildMinioPath(path) in bucket.objects &&
                0 <= offset <= |bucket.objects[BuildMinioPath(path)]|
      ensures err.None? ==>
                content == bucket.objects[BuildMinioPath(path)][offset..] &&
                n == |content| == |bucket.objects[BuildMinioPath(path)]| - offset
      ensures err.Some? ==> n == 0 && content == []
      ensures BuildMinioPath(path) == "" ==> err == Some(InvalidObjectName(""))
      ensures BuildMinioPath(path) != "" && offset < 0 ==> err == Some(InvalidArgument)
      ensures BuildMinioPath(path) != "" && offset >= 0 && BuildMinioPath(path) !in bucket.objects ==>
                err == Some(NoSuchKey(BuildMinioPath(path)))
      ensures BuildMinioPath(path) != "" && BuildMinioPath(path) in bucket.objects &&
              offset > |bucket.objects[BuildMinioPath(path)]| ==>
                err == Some(EndOfFile)
    {
      var key := BuildMinioPath(path);
      var obj := bucket.GetObject(key);
      if obj.Failure? {
        return 0, [], Some(obj.error);
      }
      var seekErr := bucket.SeekObject(obj.value, offset);
      if seekErr.Some? {
        return 0, [], seekErr;
      }
      // object.Stat(): the seek above already fetched the object's info, so this succeeds.
      var info := bucket.StatObject(obj.value);
      content := bucket.objects[key][offset..];
      return info.value.size - offset, content, None;
    }

    /**
     * PutFile: with offset -1 the object is overwritten with `data`. Any other offset
     * resumes an upload: it must equal the size of the existing object, `data` is put
     * under a temporary key and composed with the object (temporary object first), and
     * the temporary key is deleted afterwards on every outcome, its error ignored.
     * `staged` is the bucket just before that deletion.
     */
    method PutFile(destPath: string, data: seq<Byte>, offset: int) returns (n: int, err: Option<Error>, ghost staged: Objects)
      modifies bucket
      ensures offset == -1 ==> staged == bucket.objects
      ensures offset == -1 && err.None? ==> bucket.objects == old(bucket.objects)[BuildMinioPath(destPath) := data] && n == |data|
      ensures offset == -1 && err.Some? ==> bucket.objects == old(bucket.objects) && n == 0
      ensures offset == -1 && BuildMinioPath(destPath) == "" ==> err == Some(InvalidObjectName(""))
      ensures offset != -1 ==>
                bucket.objects == staged - {BuildMinioPath(TempKey(BuildMinioPath(destPath)))} || bucket.objects == staged
      ensures offset != -1 && !Stored(old(bucket.objects), BuildMinioPath(destPath)) ==>
                staged == old(bucket.objects) && n == 0 &&
                err == Some(if BuildMinioPath(destPath) == "" then InvalidObjectName("")
                            else NoSuchKey(BuildMinioPath(destPath)))
      ensures offset != -1 && Stored(old(bucket.objects), BuildMinioPath(destPath)) &&
              offset != |old(bucket.objects)[BuildMinioPath(destPath)]| ==>
                err == Some(OffsetMismatch(offset, |old(bucket.objects)[BuildMinioPath(destPath)]|)) &&
                staged == old(bucket.objects) && n == 0
      ensures offset != -1 && Stored(old(bucket.objects), BuildMinioPath(destPath)) &&
              offset == |old(bucket.objects)[BuildMinioPath(destPath)]| && err.None? ==>
                var p := BuildMinioPath(destPath);
                var withTemp := old(bucket.objects)[TempKey(p) := data];
                n == |data| && staged == withTemp[p := Concat(withTemp, ResumeSources(p, TempKey(p)))]
      ensures offset != -1 && err.Some? ==>
                staged == old(bucket.objects) ||
                staged == old(bucket.objects)[TempKey(BuildMinioPath(destPath)) := data]
    {
      var p := BuildMinioPath(destPath);
      if offset == -1 {
        n, err := bucket.PutObject(p, data);
        staged := bucket.objects;
        return;
      }
      var tempFile := TempKey(p);
      assert tempFile != p by { assert |tempFile| > |p|; }
      var info := bucket.StatObject(p);
      if info.Failure? {
        n, err := 0, Some(info.error);
      } else if offset != info.value.size {
        n, err := 0, Some(OffsetMismatch(offset, info.value.size));
      } else {
        var size, putErr := bucket.PutObject(tempFile, data);
        if putErr.Some? {
          n, err := size, putErr;
        } else {
          // NewDestinationInfo checks the name StatObject has already accepted, so its
          // error return is never taken.
          var dst := Destination(p);
          assert dst.Success?;
          var composeErr := bucket.ComposeObject(dst.value, ResumeSources(p, tempFile));
          n, err := size, composeErr;
        }
      }
      staged := bucket.objects;
      // deferred: delete the temporary object; a failure is only logged
      var _ := DeleteFile(tempFile);
    }
  }
}
