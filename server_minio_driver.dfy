/**
 * The earlier object-store driver of driver_minio.go (MinioDriver, for the
 * original server). It maps paths onto keys the same way but keeps no directory
 * markers: a path is a directory when any key starts with it, MakeDir succeeds
 * without touching the bucket, ChangeDir is not implemented, every listed entry
 * is a file named by its full key, a positive download offset is refused (a
 * negative one is ignored), and appending on upload is not supported.
 */
module Server {
  import opened Wrappers
  import opened Paths
  import opened DriverApi
  import opened ObjectStore

  /** The directory test of this driver: some key starts with the path's key. */
  ghost predicate HasKeyUnder(objects: Objects, path: string) {
    exists k :: k in objects && HasPrefix(k, BuildMinioPath(path))
  }

  /**
   * The FileInfo values ListDir hands to its callback, and its error: each listed key
   * in turn, as a file named by the whole key, up to the first listing or callback error.
   */
  function LegacyWalk(listing: seq<ObjectInfo>, visit: FileInfo -> Option<Error>): (seq<FileInfo>, Option<Error>)
  {
    if listing == [] then ([], None)
    else if listing[0].err.Some? then ([], listing[0].err)
    else
      var e := FileInfo(listing[0].key, listing[0].size, false);
      if visit(e).Some? then ([e], visit(e))
      else
        var rest := LegacyWalk(listing[1..], visit);
        ([e] + rest.0, rest.1)
  }

  /**
   * ListDir calls back once per listed entry, in listing order, with the entry's full key
   * as the name and never as a directory. It stops at the first error: the last callback's,
   * or the listing's after every earlier entry was accepted. Without an error the listing
   * was complete and every entry was visited.
   */
  lemma {:induction false} LegacyWalkVisitsListing(listing: seq<ObjectInfo>, visit: FileInfo -> Option<Error>)
    ensures var calls := LegacyWalk(listing, visit).0;
            var err := LegacyWalk(listing, visit).1;
            && |calls| <= |listing|
            && (forall j :: 0 <= j < |calls| ==>
                  listing[j].err.None? && calls[j] == FileInfo(listing[j].key, listing[j].size, false))
            && (forall j :: 0 <= j < |calls| - 1 ==> visit(calls[j]).None?)
            && (err.None? ==> |calls| == |listing| && Complete(listing) && forall j :: 0 <= j < |calls| ==> visit(calls[j]).None?)
            && (err.Some? ==>
                  (calls != [] && visit(calls[|calls| - 1]) == err) ||
                  (|calls| < |listing| && listing[|calls|].err == err &&
                   forall j :: 0 <= j < |calls| ==> visit(calls[j]).None?))
  {
    if listing == [] || listing[0].err.Some? {
    } else {
      var e := FileInfo(listing[0].key, listing[0].size, false);
      if visit(e).None? {
        var tail := listing[1..];
        LegacyWalkVisitsListing(tail, visit);
        var rest := LegacyWalk(tail, visit);
        var calls := [e] + rest.0;
        assert forall j :: 1 <= j < |calls| ==> calls[j] == rest.0[j - 1] && listing[j] == tail[j - 1];
        if rest.1.None? {
          assert Complete(listing) by {
            assert forall i :: 1 <= i < |listing| ==> listing[i] == tail[i - 1];
          }
        }
      }
    }
  }

  /**
   * The loop of ListDir over the listing it receives: one callback per entry, returning
   * at the first error entry or failing callback.
   */
  method VisitListing(objects: seq<ObjectInfo>, visit: FileInfo -> Option<Error>)
    returns (calls: seq<FileInfo>, err: Option<Error>)
    ensures (calls, err) == LegacyWalk(objects, visit)
  {
    calls := [];
    var i := 0;
    while i < |objects|
      invariant 0 <= i <= |objects|
      invariant LegacyWalk(objects, visit).0 == calls + LegacyWalk(objects[i..], visit).0
      invariant LegacyWalk(objects, visit).1 == LegacyWalk(objects[i..], visit).1
    {
      var obj := objects[i];
      assert objects[i..][0] == obj && objects[i..][1..] == objects[i + 1..];
      ghost var rest := LegacyWalk(objects[i + 1..], visit);
      if obj.err.Some? {
        assert calls + [] == calls;
        return calls, obj.err;
      }
      var info := FileInfo(obj.key, obj.size, false);
      ghost var before := calls;
      calls := calls + [info];
      var cbErr := visit(info);
      if cbErr.Some? {
        return calls, cbErr;
      }
      assert LegacyWalk(objects[i..], visit) == ([info] + rest.0, rest.1);
      assert before + ([info] + rest.0) == calls + rest.0;
      i := i + 1;
    }
    assert objects[i..] == [] && calls + [] == calls;
    return calls, None;
  }

  /**
   * As written, listing "/dir" lists under "dir" without the "/": the sibling "dirt" is
   * one of the entries, and the directory's own contents show up only as "dir/".
   */
  lemma ListDirShowsSibling(listing: seq<ObjectInfo>)
    requires IsListing(map["dir/a" := [], "dirt" := []], BuildMinioPath("/dir"), false, listing)
    requires Complete(listing)
    ensures "dirt" in KeysOf(listing) && "dir/" in KeysOf(listing) && "dir/a" !in KeysOf(listing)
  {
    var objects: Objects := map["dir/a" := [], "dirt" := []];
    assert BuildMinioPath("/dir") == "dir";
    assert HasPrefix("dirt", "dir") && Direct("dirt", "dir");
    assert HasPrefix("dir/a", "dir") && !Direct("dir/a", "dir");
    assert ChildKey("dirt", "dir") == "dirt";
    assert ChildKey("dir/a", "dir") == "dir/" by {
      assert "dir/a"[3..] == "/a";
      assert IndexOf("/a", '/') == 0;
    }
    assert "dir/a" !in ListedKeys(objects, "dir", false) by {
      assert !HasSuffix("dir/a", "/");
    }
  }

  /**
   * As written, DeleteDir("/dir") removes what a non-recursive listing of "dir" delivers:
   * the sibling "dirt" is removed while the directory's file "dir/a" survives.
   */
  lemma DeleteDirRemovesSiblingKeepsChild(listing: seq<ObjectInfo>)
    requires IsListing(map["dir/a" := [], "dirt" := []], BuildMinioPath("/dir"), false, listing)
    requires Complete(listing)
    ensures var after: Objects := map["dir/a" := [], "dirt" := []] - KeysOf(listing);
            "dirt" !in after && "dir/a" in after
  {
    ListDirShowsSibling(listing);
  }

  /** The directory test evidently intended: some key starts with the directory key. */
  ghost predicate IntendedIsDirectory(objects: Objects, path: string) {
    exists k :: k in objects && HasPrefix(k, BuildMinioDir(path))
  }

  /**
   * As written a file "dirt" makes "/dir" a directory; the intended test does not, and
   * still finds "/dir" once a file lies below it.
   */
  lemma IsDirSeesSibling()
    ensures HasKeyUnder(map["dirt" := []], "/dir")
    ensures !IntendedIsDirectory(map["dirt" := []], "/dir")
    ensures IntendedIsDirectory(map["dir/a" := []], "/dir")
  {
    assert BuildMinioPath("/dir") == "dir";
    assert HasPrefix("dirt", "dir");
    DirKeySparesSiblings("/dir", "t");
    DirKeySparesSiblings("/dir", "a");
    assert "dir" + "/" + "a" == "dir/a";
  }

  /**
   * With the intended test, a bucket whose only key extends the directory's name without
   * a "/" has no directory there; a key below the directory makes one.
   */
  lemma IntendedIsDirectoryIgnoresSiblings(path: string, suffix: string, data: seq<Byte>)
    requires suffix != [] && suffix[0] != '/'
    requires !HasSuffix(BuildMinioPath(path), "/")
    ensures !IntendedIsDirectory(map[BuildMinioPath(path) + suffix := data], path)
    ensures IntendedIsDirectory(map[BuildMinioPath(path) + "/" + suffix := data], path)
  {
    DirKeySparesSiblings(path, suffix);
  }

  /**
   * The loop of DeleteDir over the listing it receives: removes each entry's key in
   * turn and returns at the first error entry or failed removal. `removed` entries
   * were removed.
   */
  method RemoveListed(bucket: Bucket, objects: seq<ObjectInfo>) returns (err: Option<Error>, ghost removed: nat)
    modifies bucket
    ensures removed <= |objects| && Complete(objects[..removed])
    ensures bucket.objects == old(bucket.objects) - KeysOf(objects[..removed])
    ensures err.None? ==> removed == |objects|
    ensures err.Some? ==> removed < |objects|
  {
    var i := 0;
    while i < |objects|
      invariant 0 <= i <= |objects|
      invariant Complete(objects[..i])
      invariant bucket.objects == old(bucket.objects) - KeysOf(objects[..i])
    {
      var obj := objects[i];
      if obj.err.Some? {
        return obj.err, i;
      }
      var removeErr := bucket.RemoveObject(obj.key);
      if removeErr.Some? {
        return removeErr, i;
      }
      KeysOfNext(objects, i);
      assert Complete(objects[..i + 1]) by {
        assert forall j :: 0 <= j < i ==> objects[..i + 1][j] == objects[..i][j];
      }
      i := i + 1;
    }
    return None, i;
  }

  class MinioDriver {
    const bucket: Bucket

    constructor (bucket: Bucket)
      ensures this.bucket == bucket
    {
      this.bucket := bucket;
    }

    /** ChangeDir is not supported. */
    method ChangeDir(path: string) returns (err: Option<Error>)
      ensures err == Some(NotImplemented)
    {
      return Some(NotImplemented);
    }

    /**
     * isDir: a path is a directory when the listing under its key delivers a first entry;
     * an error entry first is returned as the error.
     */
    method IsDir(path: string) returns (dir: bool, err: Option<Error>)
      ensures err.None? ==> (dir <==> HasKeyUnder(bucket.objects, path))
      ensures err.Some? ==> !dir && err == Some(Backend)
    {
      var p := BuildMinioPath(path);
      var objects := bucket.ListObjects(p, false);
      // the range loop returns in its first iteration
      if |objects| > 0 {
        var obj := objects[0];
        if obj.err.Some? {
          assert Listed(bucket.objects, p, false, obj);
          return false, obj.err;
        }
        assert Listed(bucket.objects, p, false, obj);
        ListedKeyHasObject(bucket.objects, p, false, obj.key);
        return true, None;
      }
      if HasKeyUnder(bucket.objects, path) {
        var k :| k in bucket.objects && HasPrefix(k, p);
        CompleteListingShows(bucket.objects, p, false, objects, k);
      }
      return false, None;
    }

    /**
     * Stat: the root is a directory; an existing key is a file, even when it ends in "/";
     * a missing key is a directory when some key starts with it.
     */
    method Stat(path: string) returns (r: Result<FileInfo, Error>)
      ensures path == "/" ==> r == Success(FileInfo("/", 0, true))
      ensures path != "/" && Stored(bucket.objects, BuildMinioPath(path)) ==>
                r == Success(FileInfo(BuildMinioPath(path), |bucket.objects[BuildMinioPath(path)]|, false))
      ensures path != "/" && !Stored(bucket.objects, BuildMinioPath(path)) && r.Success? ==>
                r.value == FileInfo(path, 0, true) && HasKeyUnder(bucket.objects, path)
      ensures path != "/" && !Stored(bucket.objects, BuildMinioPath(path)) && r.Failure? ==>
                r.error == Backend || (r.error == NotADirectory && !HasKeyUnder(bucket.objects, path))
      ensures path != "/" && !Stored(bucket.objects, BuildMinioPath(path)) && r.Failure? && HasKeyUnder(bucket.objects, path) ==>
                r.error == Backend
    {
      if path == "/" {
        return Success(FileInfo("/", 0, true));
      }
      var p := BuildMinioPath(path);
      var objInfo := bucket.StatObject(p);
      if objInfo.Failure? {
        var isDir, err := IsDir(path);
        if err.Some? {
          return Failure(err.value);
        } else if isDir {
          return Success(FileInfo(path, 0, true));
        }
        return Failure(NotADirectory);
      }
      return Success(FileInfo(p, objInfo.value.size, false));
    }

    /**
     * ListDir: calls `visit` on each key the non-recursive listing under the path's key
     * delivers, as a file named by the full key, and stops at the first error. Every
     * name handed to the callback starts with the path's key, and none is a directory.
     */
    method ListDir(path: string, visit: FileInfo -> Option<Error>)
      returns (calls: seq<FileInfo>, err: Option<Error>, ghost listing: seq<ObjectInfo>)
      ensures IsListing(bucket.objects, BuildMinioPath(path), false, listing)
      ensures (calls, err) == LegacyWalk(listing, visit)
      ensures forall j :: 0 <= j < |calls| ==> !calls[j].isDir && HasPrefix(calls[j].name, BuildMinioPath(path))
    {
      var p := BuildMinioPath(path);
      var objects := bucket.ListObjects(p, false);
      listing := objects;
      ListedKeysHavePrefix(bucket.objects, p, false, listing);
      LegacyWalkVisitsListing(listing, visit);
      calls, err := VisitListing(objects, visit);
    }

    /**
     * DeleteDir: removes, one by one, every key the non-recursive listing under the path's
     * key delivers, and stops at the first listing or removal error.
     */
    method DeleteDir(path: string) returns (err: Option<Error>, ghost listing: seq<ObjectInfo>, ghost removed: nat)
      modifies bucket
      ensures IsListing(old(bucket.objects), BuildMinioPath(path), false, listing)
      ensures removed <= |listing| && Complete(listing[..removed])
      ensures bucket.objects == old(bucket.objects) - KeysOf(listing[..removed])
      ensures err.None? ==> removed == |listing|
      ensures err.Some? ==> removed < |listing|
    {
      var p := BuildMinioPath(path);
      var objects := bucket.ListObjects(p, false);
      listing := objects;
      err, removed := RemoveListed(bucket, objects);
    }

    /** DeleteFile: removes the object under the path's key. */
    method DeleteFile(path: string) returns (err: Option<Error>)
      modifies bucket
      ensures BuildMinioPath(path) == "" ==> err == Some(InvalidObjectName(""))
      ensures err.None? ==> bucket.objects == old(bucket.objects) - {BuildMinioPath(path)}
      ensures err.Some? ==> bucket.objects == old(bucket.objects)
    {
      err := bucket.RemoveObject(BuildMinioPath(path));
    }

    /**
     * Rename: copy, then delete the source. If the copy fails nothing changes; if the
     * delete fails the copy stays; in both cases the source is intact.
     */
    method Rename(fromPath: string, toPath: string) returns (err: Option<Error>)
      modifies bucket
      ensures BuildMinioPath(toPath) == "" ==> err == Some(InvalidObjectName("")) && bucket.objects == old(bucket.objects)
      ensures BuildMinioPath(fromPath) !in old(bucket.objects) ==> err.Some? && bucket.objects == old(bucket.objects)
      ensures err.None? ==>
                BuildMinioPath(fromPath) in old(bucket.objects) && BuildMinioPath(fromPath) != BuildMinioPath(toPath) &&
                bucket.objects == Moved(old(bucket.objects), BuildMinioPath(fromPath), BuildMinioPath(toPath))
      ensures err.Some? ==>
                bucket.objects == old(bucket.objects) ||
                (BuildMinioPath(fromPath) in old(bucket.objects) &&
                 bucket.objects == old(bucket.objects)[BuildMinioPath(toPath) := old(bucket.objects)[BuildMinioPath(fromPath)]])
      ensures err.Some? && BuildMinioPath(fromPath) in old(bucket.objects) ==>
                BuildMinioPath(fromPath) in bucket.objects &&
                bucket.objects[BuildMinioPath(fromPath)] == old(bucket.objects)[BuildMinioPath(fromPath)]
    {
      var src := BuildMinioPath(fromPath);
      var dst := Destination(BuildMinioPath(toPath));
      if dst.Failure? {
        return Some(dst.error);
      }
      var copyErr := bucket.CopyObject(dst.value, src);
      if copyErr.Some? {
        return copyErr;
      }
      err := bucket.RemoveObject(BuildMinioPath(fromPath));
    }

    /** MakeDir: accepted and does nothing; directories exist only through their files. */
    method MakeDir(path: string) returns (err: Option<Error>)
      ensures err == None
    {
      return None;
    }

    /**
     * GetFile: the whole object and its size. A positive offset is not supported; a
     * negative one is ignored.
     */
    method GetFile(path: string, offset: int) returns (n: int, content: seq<Byte>, err: Option<Error>)
      ensures offset > 0 ==> err == Some(NotImplemented)
      ensures err.None? <==> offset <= 0 && BuildMinioPath(path) != "" && BuildMinioPath(path) in bucket.objects
      ensures err.None? ==> content == bucket.objects[BuildMinioPath(path)] && n == |content|
      ensures err.Some? ==> n == 0 && content == []
      ensures offset <= 0 && BuildMinioPath(path) == "" ==> err == Some(InvalidObjectName(""))
      ensures offset <= 0 && BuildMinioPath(path) != "" && BuildMinioPath(path) !in bucket.objects ==>
                err == Some(NoSuchKey(BuildMinioPath(path)))
    {
      if offset > 0 {
        return 0, [], Some(NotImplemented);
      }
      var key := BuildMinioPath(path);
      var handle := bucket.GetObject(key);
      if handle.Failure? {
        return 0, [], Some(handle.error);
      }
      var info := bucket.StatObject(handle.value);
      if info.Failure? {
        return 0, [], Some(info.error);
      }
      return info.value.size, bucket.objects[key], None;
    }

    /** PutFile: overwrites the object with `data`; appending is not supported. */
    method PutFile(destPath: string, data: seq<Byte>, appendData: bool) returns (n: int, err: Option<Error>)
      modifies bucket
      ensures appendData ==> n == 0 && err == Some(NotImplemented) && bucket.objects == old(bucket.objects)
      ensures !appendData && BuildMinioPath(destPath) == "" ==> err == Some(InvalidObjectName(""))
      ensures !appendData && err.None? ==> bucket.objects == old(bucket.objects)[BuildMinioPath(destPath) := data] && n == |data|
      ensures !appendData && err.Some? ==> bucket.objects == old(bucket.objects) && n == 0
    {
      if !appendData {
        n, err := bucket.PutObject(BuildMinioPath(destPath), data);
        return;
      }
      return 0, Some(NotImplemented);
    }
  }
}
