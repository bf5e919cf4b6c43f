/** The Files page: the name/type search and category filter, the category
    options, the submit that either edits metadata or uploads, the delete
    confirmation and the download guard. */
module FilesPage {
  import opened Wrappers
  import opened Types
  import opened Text
  import opened Seqs
  import FileStore
  import NotesPage

  /** The search term occurs, ignoring case, in the name or the type; the
      chosen category, if any, matches. */
  predicate FileMatches(f: SecureFile, search: string, category: string) {
    && (IncludesIgnoringCase(f.name, search) || IncludesIgnoringCase(f.fileType, search))
    && (category == "" || f.category == Some(category))
  }

  /** `filteredFiles`. */
  function FilterFiles(fs: seq<SecureFile>, search: string, category: string): (r: seq<SecureFile>)
    ensures forall f :: f in r <==> f in fs && FileMatches(f, search, category)
    ensures IsSubseq(r, fs)
  {
    Filter(fs, f => FileMatches(f, search, category))
  }

  lemma UnfilteredKeepsAllFiles(fs: seq<SecureFile>)
    ensures FilterFiles(fs, "", "") == fs
  {
    forall f | f in fs ensures FileMatches(f, "", "") {
      IncludesEmpty(Lower(f.name));
    }
  }

  /** `categories`: each non-empty category of the files, once. */
  function FileCategories(fs: seq<SecureFile>): (r: seq<string>)
    ensures NoDuplicates(r)
    ensures forall c :: c in r <==> c != "" && exists i :: 0 <= i < |fs| && fs[i].category == Some(c)
  {
    DistinctPresent(fs, (f: SecureFile) => f.category)
  }

  const PathMissing: string := "File path not found"
  const DownloadFailed: string := "Failed to download file. Please try again."

  /** The backend's replies to the submit: to the upload, the insert and the
      metadata update. */
  datatype FileReplies = FileReplies(
    user: Option<User>, uploadError: Option<string>, inserted: Result<SecureFile, string>,
    updateError: Option<string>)

  datatype FilesAction = DeleteFileAction(id: string)

  const DeleteMessage: string := "Are you sure you want to delete this file? This action cannot be undone."

  class FilesPage {
    const store: FileStore.FileStore
    var isModalOpen: bool
    var selectedFile: Option<SecureFile>
    var confirmAction: Option<NotesPage.Pending<FilesAction>>
    var isConfirmDialogOpen: bool

    constructor (store: FileStore.FileStore, openForm: bool)
      ensures this.store == store && isModalOpen == openForm && selectedFile == None
      ensures confirmAction == None && !isConfirmDialogOpen
    {
      this.store := store;
      isModalOpen := openForm;
      selectedFile := None;
      confirmAction := None;
      isConfirmDialogOpen := false;
    }

    /** `handleSubmit`. Editing only updates the metadata of the selected
        file and never uploads; a new file is uploaded. A failed upload or
        insert propagates, so the modal stays open with the selection. */
    method HandleSubmit(file: LocalFile, metadata: FileFields, replies: FileReplies)
      returns (outcome: Outcome<string>, calls: seq<FileStore.FileCall>)
      modifies this, store
      ensures confirmAction == old(confirmAction) && isConfirmDialogOpen == old(isConfirmDialogOpen)
      ensures old(selectedFile).Some? ==>
        (&& outcome == Pass && calls == []
         && store.files == (if replies.updateError.None?
                            then FileStore.Updated(old(store.files), old(selectedFile).value.id, metadata)
                            else old(store.files)))
      ensures old(selectedFile).None? && replies.user.None? ==>
        outcome == Fail("Not authenticated") && calls == [] && isModalOpen == old(isModalOpen)
      ensures old(selectedFile).None? && replies.user.Some? ==>
        |calls| > 0 && calls[0] == FileStore.Upload(FileStore.UploadPath(replies.user.value.id, file.name))
      ensures old(selectedFile).None? && outcome.Pass? ==>
        replies.inserted.Success? && store.files == [replies.inserted.value] + old(store.files)
      ensures outcome.Pass? ==> !isModalOpen && selectedFile == None
      ensures outcome.Fail? ==> (&& isModalOpen == old(isModalOpen) && selectedFile == old(selectedFile)
                                 && store.files == old(store.files) && store.error == Some(outcome.error))
    {
      if selectedFile.Some? {
        store.UpdateFile(selectedFile.value.id, metadata, replies.updateError);
        outcome, calls := Pass, [];
      } else {
        outcome, calls := store.AddFile(file, metadata, replies.user, replies.uploadError, replies.inserted);
        if outcome.Fail? {
          return;
        }
      }
      isModalOpen := false;
      selectedFile := None;
    }

    method HandleDelete(id: string)
      modifies this
      ensures confirmAction == Some(NotesPage.Pending(DeleteFileAction(id), "Delete File", DeleteMessage))
      ensures isConfirmDialogOpen && isModalOpen == old(isModalOpen) && selectedFile == old(selectedFile)
    {
      confirmAction := Some(NotesPage.Pending(DeleteFileAction(id), "Delete File", DeleteMessage));
      isConfirmDialogOpen := true;
    }

    /** The confirm button: `deleteFile` through the store, then close. */
    method Confirm(pathnameOf: string -> Result<string, string>, storageError: Option<string>,
                   deleteError: Option<string>)
      returns (calls: seq<FileStore.FileCall>)
      modifies this, store
      ensures !isConfirmDialogOpen && confirmAction == old(confirmAction)
      ensures old(confirmAction).None? ==> calls == [] && store.files == old(store.files)
      ensures old(confirmAction).Some? ==>
        var id := old(confirmAction).value.action.id;
        (&& (store.files == old(store.files) || store.files == WithoutKey(old(store.files), id, FileId))
         && (store.files != old(store.files) ==> calls != [] && calls[|calls| - 1] == FileStore.DeleteRow(id)))
    {
      calls := [];
      if confirmAction.Some? {
        calls := store.DeleteFile(confirmAction.value.action.id, pathnameOf, storageError, deleteError);
      }
      isConfirmDialogOpen := false;
    }
  }

  /** `handleDownload`: a file without a path is refused before any request;
      otherwise its path is requested, and a failure is reported with the
      backend's message or, when that is empty, a fixed one. `requested` is
      the path asked for, `alert` what the user is told. */
  method HandleDownload(file: SecureFile, downloadError: Option<string>)
    returns (requested: Option<string>, alert: Option<string>)
    ensures file.path == "" ==> requested == None && alert == Some(PathMissing)
    ensures file.path != "" ==> requested == Some(file.path)
    ensures file.path != "" && downloadError.None? ==> alert == None
    ensures file.path != "" && downloadError.Some? ==> alert == Some(OrElse(downloadError, DownloadFailed))
    ensures alert.Some? ==> alert.value != ""
  {
    if file.path == "" {
      return None, Some(PathMissing);
    }
    requested := Some(file.path);
    if downloadError.Some? {
      alert := Some(OrElse(downloadError, DownloadFailed));
    } else {
      alert := None;
    }
  }
}
