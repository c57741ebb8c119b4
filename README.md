# Object-store storage driver of netftp, modelled in Dafny

netftp is an FTP server whose file operations go through a pluggable storage
Driver. This project models the Driver that keeps files in one bucket of an
S3-compatible object store (minio). It models both revisions in the
repository, each as written:

- `driver/minio/minio.go`, the `Driver` used by the second server: module
  `Minio`, class `Minio.Driver`;
- `driver_minio.go`, the older `MinioDriver`: module `Server`, class
  `Server.MinioDriver`.

The FTP namespace is rooted at `/`, while a bucket holds flat keys. Both
drivers build a key by dropping one leading `/` (`Paths.BuildMinioPath`).
The newer driver also builds directory keys that end in `/`
(`Paths.BuildMinioDir`).

In the newer driver, a directory is either a zero-length marker object under
its directory key or a prefix that other keys share. Operations work as follows:

- Stat looks the key up first and then asks `isDir`.
- ListDir lists under the directory key, names every entry relative to it and
  skips the directory's own marker.
- Rename copies the object and then removes the source.
- PutFile with an offset stages the upload under `<key>.tmp`, composes it with
  the existing object and removes the staged object.

The older driver keeps no markers: a path is a directory when any key starts
with its key. MakeDir succeeds without touching the bucket, and ChangeDir
always reports "not implemented". GetFile refuses a positive offset and
ignores a negative one, and PutFile refuses to append.

### The object store

The minio client library is not part of this model. The bucket is the class
`ObjectStore.Bucket`, whose field `objects: map<string, seq<Byte>>` holds the
bucket's contents. Each client call the drivers make is a member whose
postcondition states what this model assumes that call does:

- `PutObject`, `RemoveObject`, `CopyObject` and `ComposeObject` may fail for
  reasons outside the driver (network, permissions). The choice is
  nondeterministic. A failed call reports `Backend` and changes nothing.
- `StatObject`, `PutObject`, `RemoveObject`, `GetObject` and `Destination`
  (the client's `NewDestinationInfo`) refuse the empty object name. So in the
  newer PutFile, the error return after `NewDestinationInfo`
  (driver/minio/minio.go:283-285) is never taken: StatObject has already
  accepted the same name.
- `RemoveObject` of a key that is not present succeeds, as deletion does in S3.
- `StatObject` succeeds exactly when the name is valid and the key is present
  (`ObjectStore.Stored`). `GetObject` only checks the name; the object is
  fetched later.
- `CopyObject` fails when the source is missing or when source and
  destination are the same key.
- `ComposeObject` fails when a source is missing. On success it stores the
  concatenation of the sources, in order (`ObjectStore.Concat`).
- `SeekObject` (the `Seek` of the object handle) handles these cases, in order:
  - a negative offset is invalid;
  - a missing object is `NoSuchKey`;
  - an offset past the end is end-of-file;
  - any offset up to and including the size succeeds.
- `ListObjects(prefix, recursive)` (`ObjectStore.IsListing`) behaves as follows:
  - It delivers each listed key once, in no promised order.
  - It may be cut short by one final error entry that carries no key.
  - A recursive listing delivers every key under the prefix.
  - A non-recursive listing follows the `/` delimiter convention: a key
    directly under the prefix is delivered with its size, and a deeper key is
    rolled up into the zero-size common prefix of its first component
    (`ObjectStore.ChildKey`).

Callbacks (`ListDir`'s `callback`) are total functions
`FileInfo -> Option<Error>`. A `FileInfo` has a name, a size and a
directory flag.

## Model

| member | source | states |
|---|---|---|
| Paths.BuildMinioPath | driver/minio/minio.go:52-54 | a path starting with "/" loses exactly that one character; any other path is its own key (the older driver's copy at driver_minio.go:34-36 is identical) |
| Paths.TrimPrefix | driver/minio/minio.go:53 | the result glued after the prefix gives back the input when the input has the prefix; otherwise the input is unchanged |
| Paths.BuildMinioDir | driver/minio/minio.go:56-62 | the directory key ends in "/", extends the path's key by at most that one "/", and equals the key when the key already ends in "/" |
| Paths.BuildMinioDirIdempotent | driver/minio/minio.go:56-62 | building the directory key of a directory key changes nothing, whenever the path's key does not itself start with "/" |
| Paths.BuildMinioDirNotIdempotentOnDoubleSlash | driver/minio/minio.go:56-62 | for "//a" the directory key "/a/" rebuilds to "a/", so the side condition above is needed |
| Paths.DirKeySparesSiblings | driver/minio/minio.go:56-62 | the directory key of "dir" is a prefix of every key below "dir/" and of no key "dir" + s where s does not start with "/" |
| ObjectStore.Bucket.StatObject | driver/minio/minio.go:97 | succeeds exactly for a valid, present key, with its size; the empty name is InvalidObjectName and a missing key NoSuchKey |
| ObjectStore.Bucket.GetObject | driver/minio/minio.go:229 | a handle exactly for a valid name, whether or not the key is present; the empty name is InvalidObjectName |
| ObjectStore.Destination | driver/minio/minio.go:207 | accepts exactly the valid names, returning the name itself; the empty name is InvalidObjectName |
| ObjectStore.Bucket.PutObject | driver/minio/minio.go:222 | the empty name is refused; on success the key holds exactly the data and the count is its length; on failure nothing changes and the count is 0 |
| ObjectStore.Bucket.RemoveObject | driver/minio/minio.go:192 | the empty name is refused; on success exactly that key is gone, present or not; on failure nothing changes |
| ObjectStore.Bucket.SeekObject | driver/minio/minio.go:238 | no error exactly when the object exists and 0 <= offset <= size; otherwise InvalidArgument, NoSuchKey or EndOfFile in that order |
| ObjectStore.Bucket.ListObjects | driver/minio/minio.go:154 | the listing is one `IsListing` allows for the bucket's contents, prefix and recursion (distinct keys, at most one final error entry, complete unless cut short) |
| ObjectStore.Bucket.CopyObject | driver/minio/minio.go:212 | fails with NoSuchKey for a missing source and refuses a copy onto itself; on success the destination holds the source's bytes and nothing else changes |
| ObjectStore.Bucket.ComposeObject | driver/minio/minio.go:287 | fails when any source is missing; on success the destination holds the sources' bytes concatenated in order and nothing else changes |
| ObjectStore.ListedKeysHavePrefix | driver/minio/minio.go:100-102 | every non-error entry of a listing starts with the listing's prefix |
| ObjectStore.ListedKeyHasObject | driver/minio/minio.go:100-104 | every delivered key, common prefixes included, stands for a real object under the prefix that starts with it |
| ObjectStore.CompleteListingShows | driver/minio/minio.go:100-109 | a listing without an error shows every object under the prefix, as itself (recursive) or as its child entry (non-recursive) |
| ObjectStore.Moved | driver/minio/minio.go:205-217 | moving src to dst leaves dst holding src's bytes, src gone, and every other key unchanged |
| Minio.Driver.IsDir | driver/minio/minio.go:94-113 | the error is always nil; an existing directory marker makes a directory; a directory answer means some key lies under the directory key; a no means the listing found none and, when complete, no key lies under it |
| Minio.Driver.Stat | driver/minio/minio.go:116-143 | "/" is a directory; an existing key is reported with its key, size and a directory flag exactly when it ends in "/"; a missing key (or the empty name) is a directory named by the path whenever its marker exists, and a directory only when some key lies under its directory key; otherwise it is "Not a directory" |
| Minio.ListDirPrefixShape | driver/minio/minio.go:150-153 | the root lists under "", every other directory under a prefix ending in "/" |
| Minio.Driver.ListDir | driver/minio/minio.go:146-178 | the callbacks made and the error returned are those of `Walk` over a possible listing under the directory prefix, and no callback gets an empty name |
| Minio.VisitListing | driver/minio/minio.go:155-175 | the loop over the listing returns exactly the callbacks and error `Walk` describes |
| Minio.WalkStopsAtFirstError | driver/minio/minio.go:155-175 | the callbacks are a prefix of the directory's entries in listing order; nil means all entries were visited and accepted and the listing was complete; an error is the last callback's or the listing's first error after every entry before it was accepted |
| Minio.DirEntriesAreRenamedKeys | driver/minio/minio.go:160-170 | every entry's name is non-empty, prefix + name is a listed key, and the size and directory flag are that key's |
| Minio.WalkCallsAreNamed | driver/minio/minio.go:160-172 | every FileInfo the callback receives has a non-empty name |
| Minio.DirEntriesShowListed | driver/minio/minio.go:155-175 | every entry of a complete listing other than the directory's own key becomes an entry |
| Minio.DirEntriesCoverChildren | driver/minio/minio.go:146-178 | a complete listing shows every object below the directory as the entry of its immediate child |
| Minio.Driver.DeleteDir | driver/minio/minio.go:181-197 | removes, in listing order, the keys of a recursive listing under the path's key (no "/"), stopping at the first error; the new bucket is the old minus exactly the keys removed |
| Minio.RemoveListed | driver/minio/minio.go:187-195 | the loop removes the listed keys in order and stops at the first error entry or failed removal; the new bucket is the old one minus exactly the keys of the entries before that point, none of which is an error entry |
| Minio.DeleteDirRemovesEveryPrefixedKey | driver/minio/minio.go:185-195 | after a complete listing, exactly the keys starting with the prefix are gone and every other key keeps its bytes |
| Minio.DeleteDirTakesSibling | driver/minio/minio.go:185-186 | deleting "/dir" from {"dir/a", "dirt"} lists, and so removes, the unrelated "dirt" |
| Minio.IntendedDeleteDirKeepsSiblings | driver/minio/minio.go:185-186 | deleting under the directory key keeps "dir" + s (s not starting with "/") with its bytes and removes every "dir/" + s |
| Minio.Driver.DeleteFile | driver/minio/minio.go:200-202 | removes the path's key and nothing else, or fails and changes nothing; the empty key is refused |
| Minio.Driver.Rename | driver/minio/minio.go:205-217 | on success the object moved from the source key to a different destination key; a missing source or a refused destination changes nothing; on any error the source is intact, and at most the copy was made |
| Minio.Driver.MakeDir | driver/minio/minio.go:220-224 | on success a zero-length marker is stored under the directory key; on failure nothing changes |
| Minio.MakeDirMarkerMakesDirectory | driver/minio/minio.go:220-224 | the marker MakeDir stores is exactly the key Stat's directory test looks up for the same path, so by Stat's marker clause the path then reads as a directory |
| Minio.Driver.GetFile | driver/minio/minio.go:227-249 | succeeds exactly for an existing, non-empty key and 0 <= offset <= size, returning the bytes from offset on and their count size - offset; otherwise InvalidObjectName, InvalidArgument, NoSuchKey or EndOfFile |
| Minio.Driver.PutFile | driver/minio/minio.go:252-288 | offset -1 overwrites the object with the data; any other offset fails (InvalidObjectName for the empty name, NoSuchKey for a missing key, an offset mismatch otherwise) unless the object exists and the offset equals its size, in which case the data is staged under key.tmp and the object becomes the composition of the temporary object and the original; the temporary key is then deleted whatever happened |
| Minio.ResumeComposesUploadFirst | driver/minio/minio.go:278-287 | the resume composition as written yields the uploaded bytes followed by the original bytes |
| Minio.ResumePrependsUpload | driver/minio/minio.go:278-287 | resuming [1] at offset 1 with [2] yields [2, 1], whose first byte is no longer the original's |
| Minio.IntendedResumeAppends | driver/minio/minio.go:278-287 | composing the original first yields the original bytes up to the offset followed by the uploaded bytes |
| Server.MinioDriver.ChangeDir | driver_minio.go:30-32 | always reports "not implemented" |
| Server.MinioDriver.IsDir | driver_minio.go:80-92 | with no error, a directory exactly when some key starts with the path's key (no "/" appended); a listing error is returned with a no |
| Server.IsDirSeesSibling | driver_minio.go:83-84 | a lone file "dirt" makes "/dir" a directory for this test, but not for the test on the directory key, which does see "dir/a" |
| Server.IntendedIsDirectoryIgnoresSiblings | driver_minio.go:83-84 | testing under the directory key ignores a key "dir" + s (s not starting with "/") and finds a key "dir/" + s |
| Server.MinioDriver.Stat | driver_minio.go:94-122 | "/" is a directory; an existing key is a file with its size, never a directory; a missing key (or the empty name) is a directory named by the path exactly when some key starts with its key, unless the listing fails; otherwise "Not a directory" |
| Server.MinioDriver.ListDir | driver_minio.go:124-145 | the callbacks made and the error returned are those of `LegacyWalk` over a possible non-recursive listing under the path's key; every name passed to the callback starts with the path's key and none is a directory |
| Server.VisitListing | driver_minio.go:130-142 | the loop over the listing returns exactly the callbacks and error `LegacyWalk` describes |
| Server.LegacyWalkVisitsListing | driver_minio.go:130-142 | the j-th callback is the j-th entry as a file named by its full key; all but the last are accepted; nil means the listing was complete and all were accepted; an error is the last callback's or the next listing entry's |
| Server.ListDirShowsSibling | driver_minio.go:128-129 | listing "/dir" over {"dir/a", "dirt"} shows "dirt" and the common prefix "dir/", never "dir/a" |
| Server.MinioDriver.DeleteDir | driver_minio.go:147-163 | removes, in listing order, the keys of a non-recursive listing under the path's key, stopping at the first error; the new bucket is the old minus exactly the keys removed |
| Server.RemoveListed | driver_minio.go:153-161 | the loop removes the listed keys in order and stops at the first error entry or failed removal; the new bucket is the old one minus exactly the keys of the entries before that point, none of which is an error entry |
| Server.DeleteDirRemovesSiblingKeepsChild | driver_minio.go:151-160 | deleting "/dir" from {"dir/a", "dirt"} removes "dirt" and leaves "dir/a" |
| Server.MinioDriver.DeleteFile | driver_minio.go:165-167 | removes the path's key and nothing else, or fails and changes nothing; the empty key is refused |
| Server.MinioDriver.Rename | driver_minio.go:169-181 | on success the object moved from the source key to a different destination key; a missing source or a refused destination changes nothing; on any error the source is intact, and at most the copy was made |
| Server.MinioDriver.MakeDir | driver_minio.go:183-185 | always succeeds and changes nothing |
| Server.MinioDriver.GetFile | driver_minio.go:187-202 | a positive offset is "not implemented"; otherwise (a negative offset is ignored) an existing, non-empty key yields the whole object and its size, a missing one NoSuchKey |
| Server.MinioDriver.PutFile | driver_minio.go:204-210 | appending is "not implemented" and changes nothing; otherwise the object is overwritten with the data, or the put fails and nothing changes |

## Left out

- The drivers' constructors and factories (`NewDriver`, `MinioDriverFactory`) and `MinioDriver.Init`. They connect to the store and create the bucket, which is I/O.
- Channels and `doneCh`. A listing is modelled as one sequence taken before the loop, so a concurrent writer to the bucket is not modelled.
- Streams. Uploaded data is a byte sequence. GetFile returns the bytes it would stream, and closing the handle is not modelled.
- `minioFileInfo`'s ModTime, Sys, Mode, Owner and Group, and the older driver's `Perm`. They are metadata that no operation here depends on.
- Error texts and the log line of PutFile's deferred delete. The model uses typed errors, and the deferred delete's error is dropped, as in the source.
- The tests and `example/main.go`.
- Sizes and offsets are unbounded integers. The source's `int64` cannot overflow with object sizes of real stores, so no wrap-around is modelled.
- Minio.Driver.GetFile: an offset equal to the object's size succeeds with zero bytes. It follows the client's assumed Seek, not a check in the driver, although the Driver interface describes an offset beyond the end as an error.
- Minio.Driver.PutFile: the bucket just before the deferred delete is returned as the ghost value `staged`. The postcondition relates the final bucket to it: either the staged key was removed or nothing changed. It does not repeat the composition in terms of the final bucket.
- Minio.Driver.DeleteDir: the postcondition states the effect for every possible listing. That exactly the prefixed keys disappear is proved separately, and only for a complete listing (`Minio.DeleteDirRemovesEveryPrefixedKey`).

## Findings

| source | as written | input that shows it | evidently intended | confidence | as-written member | corrected member |
|---|---|---|---|---|---|---|
| driver/minio/minio.go:278-281 | a resumed upload composes the temporary object first and the original second | object "f" = [1], PutFile("/f", [2], 1) stores [2, 1] | the original bytes followed by the upload, [1, 2] | not executed | Minio.ResumePrependsUpload | Minio.IntendedResumeAppends |
| driver/minio/minio.go:185-186 | DeleteDir lists recursively under the path's key without a trailing "/" | bucket {"dir/a", "dirt"}, DeleteDir("/dir") also removes "dirt" | remove only the keys under "dir/" | not executed | Minio.DeleteDirTakesSibling | Minio.IntendedDeleteDirKeepsSiblings |
| driver_minio.go:151-152 | DeleteDir removes the entries of a non-recursive listing under the key without "/" | bucket {"dir/a", "dirt"}, DeleteDir("/dir") removes "dirt" and the absent "dir/", and keeps "dir/a" | remove the keys under "dir/" and keep "dirt" | not executed | Server.DeleteDirRemovesSiblingKeepsChild | Minio.IntendedDeleteDirKeepsSiblings |
| driver_minio.go:83-84 | isDir tests for keys that start with the path's key without "/" | bucket {"dirt"}, Stat("/dir") reports a directory | a directory only when some key lies under "dir/" | not executed | Server.IsDirSeesSibling | Server.IntendedIsDirectoryIgnoresSiblings |
