/** The application frame: which menu entry is highlighted, the counts shown
    beside the entries, and the redirect of a signed-out visitor. */
module Layout {
  import opened Wrappers
  import opened Types
  import opened Text
  import NoteStore
  import PasswordStore
  import FileStore

  /** `isActive`: the dashboard entry only on '/' itself, every other entry
      on any path that starts with its own, so '/passwordsX' still lights
      '/passwords'. */
  function IsActive(pathname: string, path: string): (active: bool)
    ensures path == "/" ==> (active <==> pathname == "/")
    ensures path != "/" ==> (active <==> |path| <= |pathname| && pathname[..|path|] == path)
  {
    if path == "/" then pathname == "/" else StartsWith(pathname, path)
  }

  /** Every page's own path, and any path below it, lights that entry. */
  lemma SubpathsStayActive(path: string, rest: string)
    requires path != "/"
    ensures IsActive(path + rest, path)
  {
    assert (path + rest)[..|path|] == path;
  }

  /** The prefix rule lets a longer name match: '/passwordsX' lights '/passwords'. */
  lemma PrefixRuleIsTextual()
    ensures IsActive("/passwordsX", "/passwords")
    ensures !IsActive("/passwords", "/")
  {
    SubpathsStayActive("/passwords", "X");
  }

  /** One entry of `menuItems`; the dashboard has no count. */
  datatype MenuItem = MenuItem(path: string, name: string, count: Option<nat>)

  /** `menuItems`, its counts read from the stores. */
  function MenuItems(notes: NoteStore.NoteStore, passwords: PasswordStore.PasswordStore, files: FileStore.FileStore)
    : (items: seq<MenuItem>)
    reads notes, passwords, files
    ensures |items| == 6 && items[0] == MenuItem("/", "Dashboard", None)
    ensures items[1].path == "/passwords" && items[1].count == Some(|passwords.passwords|)
    ensures items[2].path == "/files" && items[2].count == Some(|files.files|)
    ensures items[3].path == "/notes" && items[3].count == Some(|notes.notes|)
    ensures items[4].path == "/archive" && items[4].count == Some(|notes.archivedNotes|)
    ensures items[5].path == "/trash" && items[5].count == Some(|notes.trashedNotes|)
  {
    [ MenuItem("/", "Dashboard", None),
      MenuItem("/passwords", "Passwords", Some(|passwords.passwords|)),
      MenuItem("/files", "Files", Some(|files.files|)),
      MenuItem("/notes", "Notes", Some(|notes.notes|)),
      MenuItem("/archive", "Archive", Some(|notes.archivedNotes|)),
      MenuItem("/trash", "Trash", Some(|notes.trashedNotes|)) ]
  }

  /** Each entry is highlighted on its own page, and the dashboard entry on
      no other entry's page. */
  lemma OwnPageActive(notes: NoteStore.NoteStore, passwords: PasswordStore.PasswordStore, files: FileStore.FileStore, i: nat)
    requires i < 6
    ensures IsActive(MenuItems(notes, passwords, files)[i].path, MenuItems(notes, passwords, files)[i].path)
    ensures i > 0 ==> !IsActive(MenuItems(notes, passwords, files)[i].path, "/")
  {
  }

  /** The effect of a change of user: with nobody signed in, go to /login. */
  function Redirect(user: Option<User>): (target: Option<string>)
    ensures target.Some? <==> user.None?
    ensures target.Some? ==> target.value == "/login"
  {
    if user.None? then Some("/login") else None
  }

  /** The redirect leaves the frame: its target lights no menu entry. */
  lemma RedirectLeavesLayout(notes: NoteStore.NoteStore, passwords: PasswordStore.PasswordStore, files: FileStore.FileStore,
                             user: Option<User>, i: nat)
    requires i < 6
    ensures Redirect(user).Some? ==> !IsActive(Redirect(user).value, MenuItems(notes, passwords, files)[i].path)
  {
    var path := MenuItems(notes, passwords, files)[i].path;
    if i > 0 && |path| <= |"/login"| {
      assert "/login"[1] == 'l' && path[1] != 'l';
      assert "/login"[..|path|][1] != path[1];
    }
  }
}
