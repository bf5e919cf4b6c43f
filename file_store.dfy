/** The file store: the metadata rows of the user's uploaded files, with the
    upload, the insert and its compensating removal, and the lookup-first
    deletion. */
module FileStore {
  import opened Wrappers
  import opened Types
  import opened Text
  import opened Seqs

  /** The storage and table calls the store makes, in order. */
  datatype FileCall =
    | Upload(path: string)
    | InsertRow(row: FileInsert)
    | RemoveObjects(paths: seq<string>)
    | DeleteRow(id: string)

  /** The row `addFile` inserts: the picked file's name, type and size, the
      owner and the storage path, each overridable by the caller's metadata,
      plus whatever else the metadata carries. */
  datatype FileInsert = FileInsert(
    name: string, fileType: string, size: int, userId: string, path: string,
    url: Option<string>, category: Option<string>, notes: Option<string>)

  /** `${userId}/${file.name}`. */
  function UploadPath(userId: string, name: string): (p: string)
    ensures p == userId + "/" + name
    ensures |p| == |userId| + 1 + |name| && p[|userId|] == '/'
  {
    userId + "/" + name
  }

  /** `{ name, type, size, user_id, path, ...metadata }`: metadata, spread
      last, wins wherever it carries a field. */
  function NewRow(file: LocalFile, userId: string, metadata: FileFields): (row: FileInsert)
    ensures metadata.name.Some? ==> row.name == metadata.name.value
    ensures metadata.name.None? ==> row.name == file.name
    ensures metadata.fileType.Some? ==> row.fileType == metadata.fileType.value
    ensures metadata.fileType.None? ==> row.fileType == file.fileType
    ensures metadata.size.Some? ==> row.size == metadata.size.value
    ensures metadata.size.None? ==> row.size == file.size
    ensures metadata.userId.Some? ==> row.userId == metadata.userId.value
    ensures metadata.userId.None? ==> row.userId == userId
    ensures metadata.path.Some? ==> row.path == metadata.path.value
    ensures metadata.path.None? ==> row.path == UploadPath(userId, file.name)
    ensures row.url == metadata.url && row.category == metadata.category && row.notes == metadata.notes
  {
    FileInsert(Pick(metadata.name, file.name), Pick(metadata.fileType, file.fileType),
               Pick(metadata.size, file.size), Pick(metadata.userId, userId),
               Pick(metadata.path, UploadPath(userId, file.name)),
               metadata.url, metadata.category, metadata.notes)
  }

  /** `{ ...f, ...metadata }`. */
  function MergeFile(f: SecureFile, metadata: FileFields): (r: SecureFile)
    ensures r.id == f.id && r.createdAt == f.createdAt && r.updatedAt == f.updatedAt
    ensures metadata == FileFields(None, None, None, None, None, None, None, None) ==> r == f
  {
    f.(name := Pick(metadata.name, f.name), fileType := Pick(metadata.fileType, f.fileType),
       size := Pick(metadata.size, f.size), userId := Pick(metadata.userId, f.userId),
       path := Pick(metadata.path, f.path), url := Pick(metadata.url, f.url),
       category := PickOption(metadata.category, f.category), notes := PickOption(metadata.notes, f.notes))
  }

  /** Every field the metadata carries takes its value; every other keeps
      the file's. */
  lemma MergeFileTakesMetadata(f: SecureFile, m: FileFields)
    ensures m.name.Some? ==> MergeFile(f, m).name == m.name.value
    ensures m.name.None? ==> MergeFile(f, m).name == f.name
    ensures m.fileType.Some? ==> MergeFile(f, m).fileType == m.fileType.value
    ensures m.fileType.None? ==> MergeFile(f, m).fileType == f.fileType
    ensures m.size.Some? ==> MergeFile(f, m).size == m.size.value
    ensures m.size.None? ==> MergeFile(f, m).size == f.size
    ensures m.userId.Some? ==> MergeFile(f, m).userId == m.userId.value
    ensures m.userId.None? ==> MergeFile(f, m).userId == f.userId
    ensures m.path.Some? ==> MergeFile(f, m).path == m.path.value
    ensures m.path.None? ==> MergeFile(f, m).path == f.path
    ensures m.url.Some? ==> MergeFile(f, m).url == m.url.value
    ensures m.url.None? ==> MergeFile(f, m).url == f.url
    ensures m.category.Some? ==> MergeFile(f, m).category == m.category
    ensures m.category.None? ==> MergeFile(f, m).category == f.category
    ensures m.notes.Some? ==> MergeFile(f, m).notes == m.notes
    ensures m.notes.None? ==> MergeFile(f, m).notes == f.notes
  {
  }

  /** The list after a confirmed metadata update. */
  function Updated(fs: seq<SecureFile>, id: string, metadata: FileFields): (r: seq<SecureFile>)
    ensures |r| == |fs|
    ensures forall i :: 0 <= i < |fs| ==> r[i] == if fs[i].id == id then MergeFile(fs[i], metadata) else fs[i]
  {
    UpdateWhere(fs, id, FileId, (f: SecureFile) => MergeFile(f, metadata))
  }

  lemma UpdateKeepsIds(fs: seq<SecureFile>, id: string, metadata: FileFields)
    ensures KeySet(Updated(fs, id, metadata), FileId) == KeySet(fs, FileId)
    ensures UniqueKeys(fs, FileId) ==> UniqueKeys(Updated(fs, id, metadata), FileId)
  {
    UpdateWhereKeepsKeys(fs, id, FileId, (f: SecureFile) => MergeFile(f, metadata));
  }

  /** The storage key `deleteFile` removes: the last '/'-separated segment of
      the url's path. */
  function RemovalKey(pathname: string): (k: string)
    ensures '/' !in k
    ensures |k| <= |pathname| && k == pathname[|pathname| - |k|..]
  {
    LastSegment(pathname, '/')
  }

  /** The key removed on deletion never has the `${userId}/${name}` form of
      an uploaded object: it is a bare name one level up. */
  lemma RemovalKeyIsNotUploadPath(pathname: string, userId: string, name: string)
    ensures RemovalKey(pathname) != UploadPath(userId, name)
  {
    var p := UploadPath(userId, name);
    assert p[|userId|] == '/';
    assert '/' in p;
  }

  /** For a url path ending in `${userId}/${name}` with a name free of '/',
      the removed key is that name. */
  lemma RemovalKeyOfUploadedUrl(prefix: string, userId: string, name: string)
    requires '/' !in name
    ensures RemovalKey(prefix + UploadPath(userId, name)) == name
  {
    assert prefix + UploadPath(userId, name) == (prefix + userId) + ['/'] + name;
    LastSegmentOfJoin(prefix + userId, '/', name);
  }

  class FileStore {
    var files: seq<SecureFile>
    var loading: bool
    var error: Option<string>

    constructor ()
      ensures files == [] && !loading && error == None
    {
      files, loading, error := [], false, None;
    }

    /** `fetchFiles`: the fetched rows replace the list as they are. */
    method FetchFiles(user: Option<User>, reply: Result<seq<SecureFile>, string>)
      modifies this
      ensures !loading
      ensures user.None? ==> files == old(files) && error == Some("Not authenticated")
      ensures user.Some? && reply.Failure? ==> files == old(files) && error == Some(reply.error)
      ensures user.Some? && reply.Success? ==> files == reply.value && error == None
    {
      loading := true;
      if user.None? {
        error, loading := Some("Not authenticated"), false;
        return;
      }
      if reply.Failure? {
        error, loading := Some(reply.error), false;
        return;
      }
      files, error := reply.value, None;
      loading := false;
    }

    /** `addFile`: upload, then insert the metadata row; a failed insert
        removes the object just uploaded. Every error is recorded and passed
        on (`Fail`). `calls` are the remote calls made, in order. */
    method AddFile(file: LocalFile, metadata: FileFields, user: Option<User>,
                   uploadError: Option<string>, inserted: Result<SecureFile, string>)
      returns (outcome: Outcome<string>, calls: seq<FileCall>)
      modifies this
      ensures !loading
      ensures outcome.Fail? <==> error.Some?
      ensures outcome.Fail? ==> files == old(files) && error == Some(outcome.error)
      ensures user.None? ==> outcome == Fail("Not authenticated") && calls == []
      ensures user.Some? && uploadError.Some? ==>
        outcome == Fail(uploadError.value) && calls == [Upload(UploadPath(user.value.id, file.name))]
      ensures user.Some? && uploadError.None? && inserted.Failure? ==>
        var path := UploadPath(user.value.id, file.name);
        (&& outcome == Fail(inserted.error)
         && calls == [Upload(path), InsertRow(NewRow(file, user.value.id, metadata)), RemoveObjects([path])])
      ensures user.Some? && uploadError.None? && inserted.Success? ==>
        (&& outcome == Pass && files == [inserted.value] + old(files)
         && calls == [Upload(UploadPath(user.value.id, file.name)), InsertRow(NewRow(file, user.value.id, metadata))])
    {
      loading, error := true, None;
      calls := [];
      if user.None? {
        outcome := Fail("Not authenticated");
      } else {
        var path := UploadPath(user.value.id, file.name);
        calls := calls + [Upload(path)];
        if uploadError.Some? {
          outcome := Fail(uploadError.value);
        } else {
          calls := calls + [InsertRow(NewRow(file, user.value.id, metadata))];
          if inserted.Failure? {
            calls := calls + [RemoveObjects([path])];
            outcome := Fail(inserted.error);
          } else {
            files := [inserted.value] + files;
            outcome := Pass;
          }
        }
      }
      if outcome.Fail? {
        error := Some(outcome.error);
      }
      loading := false;
    }

    /** `updateFile`; errors are recorded only. */
    method UpdateFile(id: string, metadata: FileFields, updateError: Option<string>)
      modifies this
      ensures !loading
      ensures updateError.Some? ==> files == old(files) && error == updateError
      ensures updateError.None? ==> files == Updated(old(files), id, metadata) && error == None
    {
      loading := true;
      if updateError.Some? {
        error, loading := updateError, false;
        return;
      }
      files, error := Updated(files, id, metadata), None;
      loading := false;
    }

    /** `deleteFile`. `pathnameOf` is `new URL(url).pathname` (or its parse
        error); `storageError` and `deleteError` are the backend's answers.
        Errors are recorded only. */
    method DeleteFile(id: string, pathnameOf: string -> Result<string, string>,
                      storageError: Option<string>, deleteError: Option<string>)
      returns (calls: seq<FileCall>)
      modifies this
      ensures !loading
      ensures id !in KeySet(old(files), FileId) ==> calls == [] && files == old(files) && error == Some("File not found")
      ensures id in KeySet(old(files), FileId) ==>
        var f := FindKey(old(files), id, FileId).value;
        var parsed := pathnameOf(f.url);
        (&& (parsed.Failure? ==> calls == [] && files == old(files) && error == Some(parsed.error))
         && (parsed.Success? && RemovalKey(parsed.value) != "" && storageError.Some? ==>
               calls == [RemoveObjects([RemovalKey(parsed.value)])] && files == old(files) && error == storageError)
         && (parsed.Success? && (RemovalKey(parsed.value) == "" || storageError.None?) ==>
               (&& calls == (if RemovalKey(parsed.value) == "" then [] else [RemoveObjects([RemovalKey(parsed.value)])]) + [DeleteRow(id)]
                && (deleteError.Some? ==> files == old(files) && error == deleteError)
                && (deleteError.None? ==> files == WithoutKey(old(files), id, FileId) && error == None))))
    {
      loading := true;
      var found := FindKey(files, id, FileId);
      if found.None? {
        calls := [];
        error, loading := Some("File not found"), false;
        return;
      }
      var parsed := pathnameOf(found.value.url);
      if parsed.Failure? {
        calls := [];
        error, loading := Some(parsed.error), false;
        return;
      }
      calls := RemoveFound(id, RemovalKey(parsed.value), storageError, deleteError);
    }

    /** The part of `deleteFile` after the row was found and its URL parsed:
        remove the stored object under `key` (skipped when `key` is empty),
        then delete the row. */
    method RemoveFound(id: string, key: string, storageError: Option<string>, deleteError: Option<string>)
      returns (calls: seq<FileCall>)
      modifies this
      ensures !loading
      ensures key != "" && storageError.Some? ==>
        calls == [RemoveObjects([key])] && files == old(files) && error == storageError
      ensures key == "" || storageError.None? ==>
        (&& calls == (if key == "" then [] else [RemoveObjects([key])]) + [DeleteRow(id)]
         && (deleteError.Some? ==> files == old(files) && error == deleteError)
         && (deleteError.None? ==> files == WithoutKey(old(files), id, FileId) && error == None))
    {
      calls := [];
      if key != "" {
        calls := calls + [RemoveObjects([key])];
        if storageError.Some? {
          error, loading := storageError, false;
          return;
        }
      }
      calls := calls + [DeleteRow(id)];
      if deleteError.Some? {
        error, loading := deleteError, false;
        return;
      }
      files, error := WithoutKey(files, id, FileId), None;
      loading := false;
    }
  }
}
