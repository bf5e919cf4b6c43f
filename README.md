# A verified model of a personal vault app

The app keeps three kinds of private data for a signed-in user on a hosted
backend: notes, stored passwords and uploaded files. The browser client holds
one store per kind (zustand stores) plus an auth store with the user, the
session and a six-digit one-time code. Pages render these stores and change
them through store operations that first ask the backend.

This project models the client logic that decides what happens around those
remote calls:

- **The one-time-code gate.** A session code is generated on the Dashboard.
  No stored password is shown (Passwords page, password card) until that exact
  code is typed. Deleting the account (Profile page) needs a password re-check
  and then a freshly generated code.
- **Account deletion.** It runs as a fixed sequence of backend calls. Every
  step's failure is only logged; only the final stage (service key, admin
  deletion of the auth user) can abort it.
- **The list stores.**
  - The note store keeps three lists (active, archived, trashed). Archive,
    unarchive, trash, restore and delete each move one note between them.
  - The password and file stores prepend, merge by id and filter by id. They
    also validate their input and compensate failed steps.
- **Pure helpers.** These cover:
  - the search, category and tag filters and the option lists of every page;
  - the note sort;
  - the duplicate-free tag editor;
  - the security score;
  - file-extension and file-type lookups;
  - the navigation highlight rule.

Each remote call becomes an input of the operation that makes it: an error
message (`Option<string>`), or the reply it returns (`Result`). The same holds
for `Math.random`, which becomes a draw `0 <= n < 900000`, and for the ciphers,
which become function parameters of type `(text, key) -> text`. Stores and page
components whose state changes in place are classes. Four of them keep a
snapshot function: `NoteStore.Contents`, `PasswordsPage.State`,
`PasswordItem.State` and `NoteForm.Tags`. Their methods are proved equal to a
pure transition on that snapshot, and the properties are proved about those
transitions. The other classes state their new fields directly in their
`ensures`, often through pure functions of the old state such as
`PasswordStore.Updated` or `TrashPage.DeleteAll`. These classes are
`AuthStore`, `PasswordStore`, `FileStore`, `ProfilePage`, `Dashboard`,
`NotesPage`, `ArchivePage`, `TrashPage` and `FilesPage`.

Files, one module per source file plus shared helpers:

| file | module | models |
|---|---|---|
| wrappers.dfy | Wrappers | Option, Result, Outcome, JS truthiness and `||` defaults |
| text.dfy | Text | ASCII lower-casing, `includes`, `startsWith`, `trim`, last `split` segment |
| seqs.dfy | Seqs | filter, subsequence, distinct values, keyed lists, stable insertion sort |
| types.dfy | Types | the records of the notes, passwords and files tables |
| auth_store.dfy | AuthStore | project/src/store/authStore.ts |
| passwords_page.dfy | PasswordsPage | project/src/pages/Passwords.tsx |
| password_item.dfy | PasswordItem | project/src/components/PasswordItem.tsx |
| profile_page.dfy | ProfilePage | project/src/pages/Profile.tsx |
| dashboard.dfy | Dashboard | project/src/pages/Dashboard.tsx |
| note_store.dfy | NoteStore | project/src/store/noteStore.ts |
| password_store.dfy | PasswordStore | project/src/store/passwordStore.ts |
| file_store.dfy | FileStore | project/src/store/fileStore.ts |
| note_form.dfy | NoteForm | project/src/components/NoteForm.tsx |
| notes_page.dfy | NotesPage | project/src/pages/Notes.tsx |
| archive_page.dfy | ArchivePage | project/src/pages/Archive.tsx |
| trash_page.dfy | TrashPage | project/src/pages/Trash.tsx |
| files_page.dfy | FilesPage | project/src/pages/Files.tsx |
| utils.dfy | Utils | project/src/lib/utils.ts |
| layout.dfy | Layout | project/src/components/Layout.tsx |

One observation from the file store's code is recorded as a lemma and not as a
finding. `deleteFile` removes the storage key made of the last `/`-segment of
the file's url path. It does not remove the `${userId}/${name}` path that
`addFile` uploaded. `FileStore.RemovalKeyIsNotUploadPath` proves that the
removed key is never of the uploaded form. Whether the storage layer resolves
the bare name anyway cannot be seen from the client code, so the model keeps
the behaviour as written.

## Model

| member | source | states |
|---|---|---|
| AuthStore.CodeFromDraw | project/src/store/authStore.ts:38 | the code for a draw n is six decimal digits with a non-zero first digit, and it denotes 100000 + n |
| AuthStore.DecimalString | project/src/store/authStore.ts:38 | `toString` of a natural number is a non-empty digit string without a leading zero |
| AuthStore.DecimalRoundTrip | project/src/store/authStore.ts:38 | reading the decimal string back gives the number |
| AuthStore.DecimalLength | project/src/store/authStore.ts:38 | a number in [10^k, 10^(k+1)) has k+1 digits |
| AuthStore.CodeFromDrawInjective | project/src/store/authStore.ts:38 | two draws give the same code iff they are equal |
| AuthStore.AuthStore.GenerateOneTimeCode | project/src/store/authStore.ts:34-47 | the code becomes CodeFromDraw(draw), a valid six-digit code; it is not yet shown; loading ends; the error is cleared; user and session are unchanged |
| AuthStore.AuthStore.MarkOneTimeCodeAsShown | project/src/store/authStore.ts:49-64 | the shown flag becomes true only with a user and a successful profile update; with no user or a failed update nothing changes |
| AuthStore.AuthStore.InitializeSession | project/src/store/authStore.ts:66-109 | the session and user are adopted; the decrypted stored code and its flag are taken only for a session whose profile read succeeded with a non-empty code, and otherwise kept; a failed session read only ends loading |
| AuthStore.AuthStore.RefreshSession | project/src/store/authStore.ts:201-222 | fails iff the session read fails or, with no session, the refresh fails; then user and session are cleared and the error passed on; otherwise the current or refreshed session is adopted and returned |
| AuthStore.DeletionGuard | project/src/store/authStore.ts:227-230 | the first failing guard, in order 'Not authenticated', 'No one-time code generated', 'Invalid one-time code'; none iff all pass |
| AuthStore.StoragePaths | project/src/store/authStore.ts:278 | one path per listed name, each `${userId}/${name}` |
| AuthStore.StorageRemoval | project/src/store/authStore.ts:277-286 | the storage removal is called iff the listing is present and non-empty, with exactly the StoragePaths |
| AuthStore.DeletionFailure | project/src/store/authStore.ts:289-314 | the final stage aborts iff the service key is missing ('Service role key is not configured') or the admin deletion fails ('Failed to delete account completely') |
| AuthStore.DeletionCalls | project/src/store/authStore.ts:232-320 | the four row deletions in table order and the storage listing always come first; the admin deletion happens iff a key is configured; the global sign-out happens iff the final stage succeeds |
| AuthStore.StepFailuresDoNotStopDeletion | project/src/store/authStore.ts:238-285 | the answers of the row and storage deletions change neither the calls made nor the outcome |
| AuthStore.FinalStageComesLast | project/src/store/authStore.ts:232-314 | the first five calls do not depend on whether a service key is configured, and a non-empty listing is removed in every run; there are at most eight calls; the sign-out, when made, is last, right after the admin deletion; a failed admin deletion is the last call |
| AuthStore.AuthStore.DeleteAccount | project/src/store/authStore.ts:224-329 | a failing guard fails with its message and makes no call; otherwise the calls are DeletionCalls and the outcome is DeletionFailure; user, session and code are cleared only on success, and on failure are kept with the error recorded; loading ends |
| AuthStore.AuthStore.FinalStage | project/src/store/authStore.ts:288-328 | the calls are DeletionTail and the outcome is DeletionFailure: a missing key fails before any call, an admin error fails after the admin deletion, and success clears user, session and code and ends with the global sign-out; a failure keeps them and records its message |
| PasswordsPage.Toggle | project/src/pages/Passwords.tsx:55-64 | a shown password is hidden alone, with no prompt; a hidden one opens the prompt with an empty code and error and becomes pending; toggling never reveals anything |
| PasswordsPage.TypeCode | project/src/pages/Passwords.tsx:302 | typing changes only the code |
| PasswordsPage.Verify | project/src/pages/Passwords.tsx:66-76 | the session code plus a pending id reveal that id alone, close the prompt and clear it; anything else only sets 'Invalid verification code'; nothing else is revealed |
| PasswordsPage.Close | project/src/pages/Passwords.tsx:285-290 | closing reveals nothing, and clears the prompt and the pending id |
| PasswordsPage.RevealNeedsCode | project/src/pages/Passwords.tsx:55-76 | after any run of clicks, a hidden password is revealed only if a session code exists and it was typed (or already stood in the prompt, or is empty) |
| PasswordsPage.Attempts | project/src/pages/Passwords.tsx:73-75 | a list of wrong attempts is one type-and-submit pair per code |
| PasswordsPage.NoLockout | project/src/pages/Passwords.tsx:73-75 | after any number of wrong codes, typing the session code still reveals the pending password |
| PasswordsPage.DisplayedPassword | project/src/pages/Passwords.tsx:219 | the plaintext is shown iff the entry is marked shown, and the fixed mask otherwise |
| PasswordsPage.FilterPasswords | project/src/pages/Passwords.tsx:80-88 | keeps, in order, exactly the passwords whose title, username or url contains the search ignoring case and whose category matches the selected one |
| PasswordsPage.UnfilteredKeepsAll | project/src/pages/Passwords.tsx:80-88 | an empty search with no category keeps every password, in order |
| PasswordsPage.Categories | project/src/pages/Passwords.tsx:78 | the category options are duplicate-free and are exactly the non-empty categories present |
| PasswordsPage.PasswordsPage.TogglePasswordVisibility | project/src/pages/Passwords.tsx:55-64 | the gate state becomes Toggle of the old state |
| PasswordsPage.PasswordsPage.SetVerificationCode | project/src/pages/Passwords.tsx:302 | the gate state becomes TypeCode of the old state |
| PasswordsPage.PasswordsPage.HandleVerifyCode | project/src/pages/Passwords.tsx:66-76 | the gate state becomes Verify of the old state against the auth store's code |
| PasswordsPage.PasswordsPage.CloseVerificationModal | project/src/pages/Passwords.tsx:285-290 | the gate state becomes Close of the old state |
| PasswordsPage.PasswordsPage.HandleSubmit | project/src/pages/Passwords.tsx:36-44 | with a selection, the list becomes Updated by the form (unchanged when the update is refused) and the modal closes; otherwise the store's add runs; a failed add propagates, so the modal and selection stay and the list is unchanged; a successful add prepends the row with the typed password |
| PasswordsPage.PasswordsPage.HandleDelete | project/src/pages/Passwords.tsx:46-53 | a pending delete for that id with its title and message; the dialog opens |
| PasswordsPage.PasswordsPage.Confirm | project/src/pages/Passwords.tsx:46-53 | the pending delete removes that id from the store's list unless the backend refuses; the dialog closes |
| PasswordItem.ShowPrompt | project/src/components/PasswordItem.tsx:24-26 | the eye button always opens the prompt and changes nothing else, even when the password is shown |
| PasswordItem.TypeItemCode | project/src/components/PasswordItem.tsx:101 | typing changes only the code |
| PasswordItem.VerifyItem | project/src/components/PasswordItem.tsx:28-37 | a code equal to the session code reveals the password and closes and clears the prompt; anything else (no session code too) only sets the error; revealed afterwards iff revealed before or matched |
| PasswordItem.CloseItemPrompt | project/src/components/PasswordItem.tsx:85-89 | closing clears the prompt and keeps the reveal flag |
| PasswordItem.RevealIsPermanent | project/src/components/PasswordItem.tsx:14-37 | once revealed, the card stays revealed after any sequence of events |
| PasswordItem.ItemRevealNeedsCode | project/src/components/PasswordItem.tsx:28-33 | a hidden card is revealed only by a run in which a session code exists and was typed (or already stood in the prompt, or is empty) |
| PasswordItem.DisplayedText | project/src/components/PasswordItem.tsx:46 | the plaintext is shown iff revealed, the mask otherwise |
| PasswordItem.PasswordItem.HandleShowPassword | project/src/components/PasswordItem.tsx:24-26 | the card's state becomes ShowPrompt of the old state |
| PasswordItem.PasswordItem.SetVerificationCode | project/src/components/PasswordItem.tsx:101 | the card's state becomes TypeItemCode of the old state |
| PasswordItem.PasswordItem.VerifyAndShowPassword | project/src/components/PasswordItem.tsx:28-37 | the card's state becomes VerifyItem of the old state against the auth store's code |
| PasswordItem.PasswordItem.CloseModal | project/src/components/PasswordItem.tsx:85-89 | the card's state becomes CloseItemPrompt of the old state |
| ProfilePage.PhoneFallback | project/src/pages/Profile.tsx:50-65 | the phone is saved iff the update succeeds; it is saved in the metadata iff the error mentions 'SMS provider' and the metadata update succeeds; any other phone error or metadata error is the failure |
| ProfilePage.FinalCheck | project/src/pages/Profile.tsx:169-177 | 'No verification code generated' without a code, 'Invalid verification code' for a mismatch, and none iff the typed code is the session code |
| ProfilePage.PageCheckImpliesStoreGuard | project/src/pages/Profile.tsx:169-179 | for a signed-in user, the page's checks pass iff the store's deletion guards pass |
| ProfilePage.ProfilePage.HandlePasswordChange | project/src/pages/Profile.tsx:103-127 | a mismatch sets 'New passwords do not match!', sends nothing and keeps the form; otherwise the new password is sent; success clears the form and reports success; failure shows the backend's message |
| ProfilePage.ProfilePage.HandleDeleteAccount | project/src/pages/Profile.tsx:129-136 | clears the error and opens the password re-check |
| ProfilePage.ProfilePage.SetPassword | project/src/pages/Profile.tsx:425 | typing changes only the password |
| ProfilePage.ProfilePage.SetVerificationCode | project/src/pages/Profile.tsx:475 | typing changes only the code |
| ProfilePage.ProfilePage.HandlePasswordVerification | project/src/pages/Profile.tsx:138-163 | a failed re-check shows 'Incorrect password. Please try again.', keeps the modal and generates no code; success closes it, clears the password, generates a fresh code (with the store's error cleared and loading ended) and opens the final step |
| ProfilePage.ProfilePage.HandleVerifyAndDelete | project/src/pages/Profile.tsx:165-187 | a failed page check shows its message and calls nothing; otherwise the store's deletion runs; on success the modal closes, the code clears and the page goes to /login; on failure the store's error is shown and the modal stays |
| ProfilePage.ProfilePage.CancelConfirm | project/src/pages/Profile.tsx:411-415 | closes the re-check and clears the password and the error |
| ProfilePage.ProfilePage.CancelDelete | project/src/pages/Profile.tsx:484-488 | closes the final step and clears the code and the error |
| Dashboard.Points | project/src/pages/Dashboard.tsx:70-78 | a password earns at most 6 points, exactly 6 iff it has length at least 12 and all four character classes, and at most 4 when shorter than 8 |
| Dashboard.TotalPoints | project/src/pages/Dashboard.tsx:69-79 | the total is at most 6 per password |
| Dashboard.RoundIsNearest | project/src/pages/Dashboard.tsx:83 | the rounding lies within one half of the exact quotient, halves upward |
| Dashboard.SecurityScore | project/src/pages/Dashboard.tsx:65-84 | the score lies in [0, 100] and is 0 with no passwords |
| Dashboard.CapNeverApplies | project/src/pages/Dashboard.tsx:82-83 | the rounded percentage never exceeds 100, so the cap does not change the score |
| Dashboard.AllStrongScoresHundred | project/src/pages/Dashboard.tsx:82-83 | when every password earns 6 points the score is exactly 100 |
| Dashboard.CalculateSecurityScore | project/src/pages/Dashboard.tsx:65-84 | the accumulating loop returns SecurityScore of the passwords |
| Dashboard.GeneratedCodeStopsRegeneration | project/src/pages/Dashboard.tsx:27 | once a code is generated the dashboard's condition no longer fires |
| Dashboard.Recent | project/src/pages/Dashboard.tsx:226 | at most the first five entries, in store order |
| Dashboard.Dashboard.CheckOneTimeCode | project/src/pages/Dashboard.tsx:25-38 | a code is generated and the modal opened only when no code is cached and none was shown; otherwise nothing changes |
| Dashboard.Dashboard.HandleCloseOneTimeCodeModal | project/src/pages/Dashboard.tsx:59-62 | the modal closes and the code is marked shown as markOneTimeCodeAsShown does |
| NoteStore.Archived | project/src/store/noteStore.ts:281-284 | the id leaves the active list, the server row is prepended to the archive, and the trash is untouched |
| NoteStore.Unarchived | project/src/store/noteStore.ts:303-306 | the id leaves the archive, the row is prepended to the active list, and the trash is untouched |
| NoteStore.Trashed | project/src/store/noteStore.ts:325-329 | the id leaves the active list and the archive, and the row is prepended to the trash |
| NoteStore.Restored | project/src/store/noteStore.ts:348-351 | the id leaves the trash, the row is prepended to the active list, and the archive is untouched |
| NoteStore.Deleted | project/src/store/noteStore.ts:368-372 | the id leaves all three lists and every other note stays |
| NoteStore.Merge | project/src/store/noteStore.ts:249 | the merged note keeps its id, owner, creation time and archive and trash stamps, and carries the new update time |
| NoteStore.MergeIdempotent | project/src/store/noteStore.ts:249 | merging the same patch twice is merging it once |
| NoteStore.MergeTakesPatch | project/src/store/noteStore.ts:249 | for each of the eight editable fields (title, subtitle, content, category, tags, background colour, font family, font size), a field the patch carries takes the patch's value and an absent one keeps the note's |
| NoteStore.MergeEmptyPatch | project/src/store/noteStore.ts:249 | an empty patch only renews the update time |
| NoteStore.Patched | project/src/store/noteStore.ts:246-262 | in all three lists, the entries with the id are merged and every other entry is unchanged, position by position |
| NoteStore.ArchiveKeepsWellFormed | project/src/store/noteStore.ts:281-284 | archiving an active note keeps every id in at most one place, now the archive |
| NoteStore.UnarchiveKeepsWellFormed | project/src/store/noteStore.ts:303-306 | unarchiving keeps the ids unique, the note now active only |
| NoteStore.TrashKeepsWellFormed | project/src/store/noteStore.ts:325-329 | trashing from either list keeps the ids unique, the note now in the trash only |
| NoteStore.RestoreKeepsWellFormed | project/src/store/noteStore.ts:348-351 | restoring keeps the ids unique, the note now active only |
| NoteStore.DeleteKeepsWellFormed | project/src/store/noteStore.ts:368-372 | deleting keeps the ids unique |
| NoteStore.PatchKeepsWellFormed | project/src/store/noteStore.ts:246-262 | an update keeps the ids, and their uniqueness |
| NoteStore.MovesTouchNoOtherNote | project/src/store/noteStore.ts:281-372 | a note with another id is in the same lists before and after every move |
| NoteStore.NewRow | project/src/store/noteStore.ts:143-156 | missing fields become '', [], '#ffffff', 'JetBrains Mono', '16px'; the content is encrypted under the user id; both time stamps are now |
| NoteStore.EmptyFormDefaults | project/src/store/noteStore.ts:143-156 | a note with no fields inserts exactly the documented default row |
| NoteStore.UpdatePayload | project/src/store/noteStore.ts:229-236 | the payload is the patch with the new update time, its content encrypted only when non-empty |
| NoteStore.DecryptContents | project/src/store/noteStore.ts:48-53 | one row per fetched row, only its content decrypted |
| NoteStore.NoteStore.FetchNotes | project/src/store/noteStore.ts:32-60 | the active list becomes the decrypted rows; no user or a failed read records the error and changes no list; loading ends |
| NoteStore.NoteStore.FetchArchivedNotes | project/src/store/noteStore.ts:62-90 | as FetchNotes, for the archive |
| NoteStore.NoteStore.FetchTrashedNotes | project/src/store/noteStore.ts:92-119 | as FetchNotes, for the trash |
| NoteStore.NoteStore.AddNote | project/src/store/noteStore.ts:121-221 | each failing step (auth, user, probe, insert, no row) records its own message and changes no list; otherwise NewRow is sent and the inserted row, decrypted, is prepended to the active list |
| NoteStore.NoteStore.UpdateNote | project/src/store/noteStore.ts:223-268 | with a user it sends UpdatePayload; on success the lists become Patched; on failure or no user they are unchanged and the error is recorded |
| NoteStore.NoteStore.ArchiveNote | project/src/store/noteStore.ts:270-290 | success gives Archived of the old lists; failure records the error and changes nothing |
| NoteStore.NoteStore.UnarchiveNote | project/src/store/noteStore.ts:292-312 | success gives Unarchived of the old lists; failure changes nothing |
| NoteStore.NoteStore.MoveToTrash | project/src/store/noteStore.ts:314-335 | success gives Trashed of the old lists; failure changes nothing |
| NoteStore.NoteStore.RestoreFromTrash | project/src/store/noteStore.ts:337-357 | success gives Restored of the old lists; failure changes nothing |
| NoteStore.NoteStore.DeleteNote | project/src/store/noteStore.ts:359-378 | success gives Deleted of the old lists; failure changes nothing |
| NoteStore.NoteStore.PermanentlyDelete | project/src/store/noteStore.ts:380-382 | exactly DeleteNote |
| PasswordStore.InsertErrorMessage | project/src/store/passwordStore.ts:77-83 | code '42P01' becomes the missing-table message; any other error is prefixed 'Failed to save password: ' |
| PasswordStore.InsertErrorMessageDistinct | project/src/store/passwordStore.ts:53-87 | an insert error's message differs from the no-data and missing-fields messages |
| PasswordStore.InsertRow | project/src/store/passwordStore.ts:62-75 | the inserted row is the submitted fields with the password encrypted, plus the owner and the creation time |
| PasswordStore.UpdatePayload | project/src/store/passwordStore.ts:110-118 | the patch sent has its password encrypted only when non-empty, and is otherwise the patch |
| PasswordStore.MergePassword | project/src/store/passwordStore.ts:122-126 | the merged entry keeps its id, owner and time stamps |
| PasswordStore.MergeKeepsPlaintext | project/src/store/passwordStore.ts:122-126 | each of the six editable fields the patch carries takes the patch's value and each absent one keeps the entry's; so the local entry gets the typed password, not the ciphertext sent |
| PasswordStore.DecryptPasswords | project/src/store/passwordStore.ts:36-41 | one entry per fetched row, only the password decrypted |
| PasswordStore.Updated | project/src/store/passwordStore.ts:122-126 | only the entries with the id are merged; the others stay in place |
| PasswordStore.UpdateKeepsIds | project/src/store/passwordStore.ts:122-128 | an update keeps the set of ids and their uniqueness |
| PasswordStore.DeleteRemovesId | project/src/store/passwordStore.ts:146-147 | deletion removes exactly that id and keeps the others unique |
| PasswordStore.AddKeepsUnique | project/src/store/passwordStore.ts:90-94 | prepending a row with a new id keeps the ids unique |
| PasswordStore.PasswordStore.FetchPasswords | project/src/store/passwordStore.ts:21-47 | the list becomes the decrypted rows and the error clears; no user or a failed read records the error and keeps the list |
| PasswordStore.PasswordStore.AddPassword | project/src/store/passwordStore.ts:49-102 | no user fails with 'Not authenticated. Please sign in.' and missing fields with 'Title, username, and password are required', both before any insert; otherwise InsertRow is sent; success prepends the row with the plaintext password; every failure is recorded and returned |
| PasswordStore.PasswordStore.UpdatePassword | project/src/store/passwordStore.ts:104-134 | with a user it sends UpdatePayload; success gives Updated of the list; failure only records the error |
| PasswordStore.PasswordStore.DeletePassword | project/src/store/passwordStore.ts:136-153 | success removes the id and keeps the order of the rest; failure only records the error |
| FileStore.UploadPath | project/src/store/fileStore.ts:47 | the upload path is `${userId}/${name}` |
| FileStore.NewRow | project/src/store/fileStore.ts:66-73 | every field the metadata carries overrides the file's name, type, size, owner and path |
| FileStore.MergeFile | project/src/store/fileStore.ts:110-114 | the merged file keeps its id and time stamps; empty metadata changes nothing |
| FileStore.MergeFileTakesMetadata | project/src/store/fileStore.ts:110-114 | each of the eight metadata fields the update carries takes its value, and each absent one keeps the file's |
| FileStore.Updated | project/src/store/fileStore.ts:110-114 | only the entries with the id are merged; the others stay in place |
| FileStore.UpdateKeepsIds | project/src/store/fileStore.ts:110-116 | an update keeps the set of ids and their uniqueness |
| FileStore.RemovalKey | project/src/store/fileStore.ts:131 | the removed key is the last '/'-free suffix of the url path |
| FileStore.RemovalKeyIsNotUploadPath | project/src/store/fileStore.ts:47-135 | the removed key is never of the uploaded `${userId}/${name}` form |
| FileStore.RemovalKeyOfUploadedUrl | project/src/store/fileStore.ts:131 | for a url path ending in the upload path, the removed key is the bare file name |
| FileStore.FileStore.FetchFiles | project/src/store/fileStore.ts:20-39 | the list becomes the fetched rows; no user or a failed read records the error and keeps it |
| FileStore.FileStore.AddFile | project/src/store/fileStore.ts:41-98 | with a user, the upload comes first, then the insert of NewRow; a failed insert removes the uploaded path; success prepends the row; every failure is recorded and returned with the list unchanged |
| FileStore.FileStore.UpdateFile | project/src/store/fileStore.ts:100-122 | success gives Updated of the list; failure only records the error |
| FileStore.FileStore.DeleteFile | project/src/store/fileStore.ts:124-155 | an unknown id fails with 'File not found' and an unparsable url with the parse error, both before any call; an empty key skips the storage removal; a storage error stops it before the row delete; otherwise the row delete is called and, if it succeeds, the id is filtered out |
| FileStore.FileStore.RemoveFound | project/src/store/fileStore.ts:132-153 | an empty key skips the storage removal; a storage error stops before the row delete and is recorded; otherwise the row delete is called, and on success the id is filtered out and the error cleared |
| NoteForm.InitialForm | project/src/components/NoteForm.tsx:12-21 | the edited note's fields, each missing one defaulted to '', [], '#ffffff', 'JetBrains Mono', '16px' |
| NoteForm.Submitted | project/src/components/NoteForm.tsx:26-29 | the typed title, content and tags are passed on as present fields, so an update overwrites them |
| NoteForm.BlankFormMatchesStoreDefaults | project/src/components/NoteForm.tsx:12-21 | an untouched new form inserts the same row as a note with no fields |
| NoteForm.AddTag | project/src/components/NoteForm.tsx:31-39 | the trimmed input is appended, and the input cleared, iff it is non-blank and new; otherwise nothing changes |
| NoteForm.RemoveTag | project/src/components/NoteForm.tsx:41-46 | every occurrence of the tag goes, and the others keep their order |
| NoteForm.StepKeepsGoodTags | project/src/components/NoteForm.tsx:31-46 | one typing, add or remove keeps the tags duplicate-free, non-empty and trimmed |
| NoteForm.TagsStayDistinct | project/src/components/NoteForm.tsx:31-46 | from tags that are also non-empty and trimmed (a new form's empty list), any sequence of typing, adds and removes keeps the tags duplicate-free, non-empty and trimmed |
| NoteForm.StepKeepsNoDuplicates | project/src/components/NoteForm.tsx:31-46 | from any duplicate-free tags, one typing, add or remove keeps them duplicate-free |
| NoteForm.TagsStayDuplicateFree | project/src/components/NoteForm.tsx:12-46 | from any duplicate-free tags, including an edited note's stored tags, any sequence of typing, adds and removes keeps them duplicate-free |
| NoteForm.NoteForm.SetTagInput | project/src/components/NoteForm.tsx:23 | typing changes only the tag input |
| NoteForm.NoteForm.HandleAddTag | project/src/components/NoteForm.tsx:31-39 | the tag state becomes AddTag of the old one; the other fields are unchanged |
| NoteForm.NoteForm.HandleRemoveTag | project/src/components/NoteForm.tsx:41-46 | the tag state becomes RemoveTag of the old one; the other fields are unchanged |
| NoteForm.NoteForm.HandleSubmit | project/src/components/NoteForm.tsx:26-29 | returns the form as Submitted |
| NotesPage.FilterNotes | project/src/pages/Notes.tsx:63-72 | keeps, in order, exactly the notes whose title, subtitle or content contains the search ignoring case and whose category and tag match |
| NotesPage.UnfilteredKeepsAllNotes | project/src/pages/Notes.tsx:64-71 | no search, category or tag keeps every note, in order |
| NotesPage.NoteCategories | project/src/pages/Notes.tsx:60 | the category options are duplicate-free and exactly the non-empty categories present |
| NotesPage.NoteTags | project/src/pages/Notes.tsx:61 | the tag options are duplicate-free and exactly the tags of any note |
| NotesPage.DescendingSwapsArguments | project/src/pages/Notes.tsx:73-87 | descending order is the ascending comparison with the notes swapped |
| NotesPage.ComparatorAsymmetric | project/src/pages/Notes.tsx:73-87 | with an asymmetric collation, the comparator never orders a pair both ways |
| NotesPage.VisibleNotes | project/src/pages/Notes.tsx:63-87 | the shown notes are a permutation of the filtered notes |
| NotesPage.VisibleNotesSorted | project/src/pages/Notes.tsx:73-87 | the shown notes are in comparator order whenever the collation is asymmetric |
| NotesPage.VisibleNotesStable | project/src/pages/Notes.tsx:73-87 | the sort is stable: the notes that tie on the sort value, taken in display order, are exactly those notes in store order, when the collation ranks a string level with itself |
| Seqs.DistinctPrefix | project/src/pages/Notes.tsx:60-61 | `new Set` keeps first-occurrence order: the distinct values of any prefix come first in the distinct values of the whole list, in the same order |
| NotesPage.NotesPage.HandleSubmit | project/src/pages/Notes.tsx:32-40 | with a selection, the lists become Patched on success; otherwise the one added note is prepended; the modal closes and the selection clears either way |
| NotesPage.NotesPage.HandleDelete | project/src/pages/Notes.tsx:42-49 | a pending delete for the id, with its title and message; the dialog opens. The message says the note will be moved to trash, but the confirmed action is `deleteNote`, which deletes the row for good (see NotesPage.NotesPage.Confirm) |
| NotesPage.NotesPage.HandleArchive | project/src/pages/Notes.tsx:51-58 | a pending archive for the id, with its title and message; the dialog opens |
| NotesPage.NotesPage.Confirm | project/src/pages/Notes.tsx:42-58 | delete gives Deleted (all lists, not the trash); archive gives Archived; a refusal changes nothing; the dialog closes |
| ArchivePage.DialogType | project/src/pages/Archive.tsx:243 | 'danger' iff the title contains 'Trash', 'info' otherwise |
| ArchivePage.DialogTypes | project/src/pages/Archive.tsx:48-64 | the trash dialog is 'danger' and the unarchive dialog 'info' |
| ArchivePage.ArchivePage.FilteredNotes | project/src/pages/Archive.tsx:27-36 | exactly the archived notes that match the search, category and tag, in order |
| ArchivePage.ArchivePage.Categories | project/src/pages/Archive.tsx:24 | duplicate-free, and exactly the non-empty categories of the archive |
| ArchivePage.ArchivePage.Tags | project/src/pages/Archive.tsx:25 | duplicate-free, and exactly the tags of the archive |
| ArchivePage.ArchivePage.HandleUnarchive | project/src/pages/Archive.tsx:48-55 | a pending unarchive for the id with its message, shown as 'info' |
| ArchivePage.ArchivePage.HandleMoveToTrash | project/src/pages/Archive.tsx:57-64 | a pending move to trash for the id with its message, shown as 'danger' |
| ArchivePage.ArchivePage.Confirm | project/src/pages/Archive.tsx:48-64 | unarchive gives Unarchived; trash gives Trashed; a refusal changes nothing; the dialog closes |
| TrashPage.DeleteAllStep | project/src/pages/Trash.tsx:45-47 | deleting one more note of the snapshot extends the fold by one delete |
| TrashPage.AllDeletedGone | project/src/pages/Trash.tsx:44-48 | when every delete succeeds, no note of the snapshot is left in any list |
| TrashPage.OthersSurvive | project/src/pages/Trash.tsx:44-48 | a note whose id is not in the snapshot stays in whichever lists held it |
| TrashPage.DeleteAllKeepsWellFormed | project/src/pages/Trash.tsx:44-48 | the ids stay unique however many deletes succeed |
| TrashPage.TrashPage.FilteredNotes | project/src/pages/Trash.tsx:58-67 | exactly the trashed notes that match the search, category and tag, in order |
| TrashPage.TrashPage.Categories | project/src/pages/Trash.tsx:55 | duplicate-free, and exactly the non-empty categories of the trash |
| TrashPage.TrashPage.Tags | project/src/pages/Trash.tsx:56 | duplicate-free, and exactly the tags of the trash |
| TrashPage.TrashPage.HandleRestore | project/src/pages/Trash.tsx:24-31 | a pending restore for the id, with its message; the dialog opens |
| TrashPage.TrashPage.HandlePermanentDelete | project/src/pages/Trash.tsx:33-40 | a pending permanent delete for the id, with its message; the dialog opens |
| TrashPage.TrashPage.HandleEmptyTrash | project/src/pages/Trash.tsx:42-53 | callable only while the trash holds a note, as the button at Trash.tsx line 87 is rendered only then; the pending Empty Trash captures the trash as it is now, so its snapshot is never empty |
| TrashPage.TrashPage.EmptyTrash | project/src/pages/Trash.tsx:44-48 | one permanentlyDelete per note of the snapshot, in order; the lists end as the fold of those deletes |
| TrashPage.TrashPage.Confirm | project/src/pages/Trash.tsx:24-53 | restore gives Restored, permanent delete gives Deleted, and Empty Trash the fold over its snapshot; a refusal changes nothing; the dialog closes |
| FilesPage.FilterFiles | project/src/pages/Files.tsx:112-119 | keeps, in order, exactly the files whose name or type contains the search ignoring case and whose category matches |
| FilesPage.UnfilteredKeepsAllFiles | project/src/pages/Files.tsx:112-119 | an empty search with no category keeps every file, in order |
| FilesPage.FileCategories | project/src/pages/Files.tsx:110 | duplicate-free, and exactly the non-empty categories present |
| FilesPage.FilesPage.HandleSubmit | project/src/pages/Files.tsx:31-39 | editing only updates the selected file's metadata and makes no upload call; a new file is uploaded to its user path first; a failed add propagates and keeps the modal |
| FilesPage.FilesPage.HandleDelete | project/src/pages/Files.tsx:41-48 | a pending delete for the id with its message; the dialog opens |
| FilesPage.FilesPage.Confirm | project/src/pages/Files.tsx:41-48 | the list either stays or loses exactly that id, and it loses the id only after the row delete call; the dialog closes |
| FilesPage.HandleDownload | project/src/pages/Files.tsx:50-100 | a file without a path is refused with 'File path not found' before any request; otherwise its path is requested, and a failure is reported with the backend's message or the fixed fallback |
| Utils.GetFileExtension | project/src/lib/utils.ts:1-4 | the result holds no '.' and no upper-case letter; a name without '.' gives the whole name lower-cased, and a trailing '.' gives '' |
| Utils.ExtensionOfJoin | project/src/lib/utils.ts:1-4 | for `stem.ext` with ext free of '.', the result is ext lower-cased |
| Utils.GetFileTypeColor | project/src/lib/utils.ts:6-67 | a listed extension gets its class and anything else 'text-gray-400' |
| Utils.ColorIsPaletteClass | project/src/lib/utils.ts:6-67 | every result is a `text-<colour>-400` class of the palette |
| Utils.ColorIsCaseSensitive | project/src/lib/utils.ts:66 | 'pdf' is red but 'PDF' gets the default |
| Utils.GetFileTypeIcon | project/src/lib/utils.ts:69-118 | each icon category is chosen iff the lower-cased extension is in its group; the default iff it is in none |
| Utils.IconIgnoresCase | project/src/lib/utils.ts:70 | the icon does not depend on the case of the extension |
| Layout.IsActive | project/src/components/Layout.tsx:67-72 | '/' is active iff the path is exactly '/'; any other entry is active iff the path starts with its own |
| Layout.SubpathsStayActive | project/src/components/Layout.tsx:71 | every path below an entry's own lights that entry |
| Layout.PrefixRuleIsTextual | project/src/components/Layout.tsx:68-71 | '/passwordsX' lights '/passwords', and '/passwords' does not light '/' |
| Layout.MenuItems | project/src/components/Layout.tsx:58-65 | six entries in order, each count the length of its store list, and no count for the dashboard |
| Layout.OwnPageActive | project/src/components/Layout.tsx:58-72 | each entry is active on its own page, and the dashboard is active on no other entry's page |
| Layout.Redirect | project/src/components/Layout.tsx:40-44 | the page goes to /login iff nobody is signed in |
| Layout.RedirectLeavesLayout | project/src/components/Layout.tsx:40-72 | the redirect target '/login' lights none of the six menu entries, so a signed-out visitor leaves the frame |

## Left out

- Encryption: the cipher library is not part of this model. `encrypt` and `decrypt` are parameters, and no round trip between them is assumed.
- Network I/O: every auth, table and storage call of the hosted backend is left out. Its outcome (an error message, or the reply) is an input of the operation that makes it.
- Concurrency: the `onAuthStateChange` listener, overlapping asynchronous store calls and several open tabs are left out. Every operation is taken as atomic and sequential.
- `Math.random` is left out as a random source. It is the bounded integer `Draw`.
- Floating point: the security score uses exact rational rounding, with halves rounding up as `Math.round` does for non-negative values. Binary floating-point error in `score / maxScore * 100` is not modelled.
- `formatFileSize` and every date formatter: floating point and locale, not modelled.
- `localeCompare` in the note sort is the abstract parameter `collate`. Order and stability are proved under the properties of it they need: asymmetry, and a string compares level with itself.
- `new Date(..).getTime()` in the note sort is the abstract parameter `time`. A NaN time, which would make the comparator inconsistent, is not modelled.
- Lower-casing covers ASCII only; full Unicode `toLowerCase` is not modelled.
- String lengths count characters, not UTF-16 code units.
- `getFileTypeIcon`'s SVG strings: the result is an icon category.
- `colorMap[ext]` on a JavaScript object: it would also answer inherited keys such as 'constructor'. It is modelled as a map of the listed keys only.
- `new URL(file.url).pathname` in `deleteFile` is the parameter `pathnameOf`. A url that does not parse is its `Failure`.
- `decrypt` throwing on a malformed ciphertext is not modelled.
- NoteStore.Merge, PasswordStore.MergePassword: the patch types hold only the editable fields, so the merged entry keeps its id, owner and time stamps by construction. The source's `Partial<Note>` and `Partial<Password>` could also carry those fields, but every caller passes form fields only.
- FileStore.MergeFile: only the id and the time stamps are kept by construction. `FileFields` is `Partial<SecureFile>` without those, so an update may overwrite `userId` and `path`, as the source's may. The files page itself sends only `notes` and `category`.
- Column naming is not modelled: the model's fields are the client's names, not the snake_case columns of the tables.
- UI glue is not modelled: modal and dialog components, the password and file forms, routing, JSX, the view-mode and sidebar toggles, clipboard copy, and the Blob download after a successful file fetch.
- Login and register pages are not modelled, nor the store's `signIn`, `signUp`, `signOut` and `resetPassword`. These are network flows with trivial checks. The Layout's sign-out confirmation is left out with them.
- Profile's `handleProfileUpdate` is modelled only for its phone branch (`ProfilePage.PhoneFallback`). The basic update, the two session refreshes and the 'expired' redirect are left out.
- Profile's `handleVerifyPhone` is not modelled; it is a single remote call.
- The two record files disagree: only `types/index.ts` has `archived_at`. The model's `Note` follows `types.ts` and adds `archivedAt` from `types/index.ts`.
- FilesPage.FilesPage.Confirm: states only that the list is unchanged or loses exactly the id, and that a loss comes after the row delete. The exact case split is stated by `FileStore.FileStore.DeleteFile`, which it calls.
- NotesPage.NotesPage.HandleSubmit: for a successful add it states that one note is prepended and the rest unchanged. The exact row is stated by `NoteStore.NoteStore.AddNote`.
