/** The records the stores keep: notes, stored passwords and uploaded files,
    each a row of the hosted database, plus the signed-in user. */
module Types {
  import opened Wrappers

  /** The authenticated user; `id` is also the key the contents are
      encrypted with. */
  datatype User = User(id: string, email: string)

  datatype Session = Session(accessToken: string, user: User)

  /** A row of the `notes` table. */
  datatype Note = Note(
    id: string,
    title: string,
    subtitle: Option<string>,
    content: string,
    category: Option<string>,
    tags: Option<seq<string>>,
    backgroundColor: Option<string>,
    fontFamily: Option<string>,
    fontSize: Option<string>,
    createdAt: string,
    updatedAt: string,
    archivedAt: Option<string>,
    deletedAt: Option<string>,
    userId: string)

  /** The editable fields of a note, each present or absent, as the note form
      submits them (`Partial<Note>` without the server-assigned fields). */
  datatype NoteFields = NoteFields(
    title: Option<string>,
    subtitle: Option<string>,
    content: Option<string>,
    category: Option<string>,
    tags: Option<seq<string>>,
    backgroundColor: Option<string>,
    fontFamily: Option<string>,
    fontSize: Option<string>)

  /** A row of the `passwords` table. */
  datatype Password = Password(
    id: string,
    title: string,
    username: string,
    password: string,
    url: Option<string>,
    website: Option<string>,
    category: Option<string>,
    notes: Option<string>,
    createdAt: string,
    updatedAt: string,
    userId: string)

  /** The editable fields of a stored password, as the password form submits
      them. */
  datatype PasswordFields = PasswordFields(
    title: Option<string>,
    username: Option<string>,
    password: Option<string>,
    url: Option<string>,
    notes: Option<string>,
    category: Option<string>)

  /** A row of the `files` table: the metadata of one uploaded object. */
  datatype SecureFile = SecureFile(
    id: string,
    name: string,
    size: int,
    fileType: string,
    path: string,
    url: string,
    category: Option<string>,
    notes: Option<string>,
    createdAt: string,
    updatedAt: string,
    userId: string)

  /** Caller-supplied file metadata (`Partial<SecureFile>`). */
  datatype FileFields = FileFields(
    name: Option<string>,
    fileType: Option<string>,
    size: Option<int>,
    userId: Option<string>,
    path: Option<string>,
    url: Option<string>,
    category: Option<string>,
    notes: Option<string>)

  /** A file picked in the browser: what `File` exposes to the upload. */
  datatype LocalFile = LocalFile(name: string, fileType: string, size: nat)

  /** `encrypt(text, key)` / `decrypt(text, key)`: AES under the user's id,
      taken as given functions; nothing is assumed about them. */
  type Cipher = (string, string) -> string

  function NoteId(n: Note): string { n.id }

  function PasswordId(p: Password): string { p.id }

  function FileId(f: SecureFile): string { f.id }
}
