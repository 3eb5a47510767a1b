/**
 * The macOS rewrite (src/menu.js:591-651) as a function of the top-level list.
 *
 * `DarwinRewrite` states the outcome of the fixed sequence of splices: help
 * loses its first three entries, file its last two, view its first one, an
 * app menu built from the moved entries is put in front, and a window menu is
 * put just before the last menu. `MenuState.MenuBar.AdaptToPlatform` performs
 * the splices one by one and is proved to reach this value.
 */
module Darwin {
  import opened Wrappers
  import opened MenuItems
  import MenuData

  /** `{submenu: [], role: 'services'}` */
  function ServicesMenu(): Item {
    Role("services").(submenu := Present([]))
  }

  /** The "Text" submenu of native editing roles. */
  function TextMenu(): Item {
    Menu("Text", [Role("cut"), Role("copy"), Role("paste"), Role("selectall")])
  }

  /** The app menu put in front, from the two moved help entries and the moved Preferences entry. */
  function AppMenu(appName: string, info: Item, updates: Item, preferences: Item): Item {
    Menu(appName, [
      Role("about"), info, updates,
      Separator(), preferences,
      Separator(), ServicesMenu(), TextMenu(),
      Separator(), Role("hide"), Role("hideothers"),
      Separator(), Role("quit")
    ])
  }

  /** The window menu inserted before the last top-level menu. */
  function WindowMenu(): Item {
    Role("window").(submenu := Present([
      Blank().(caption := Some("New Window"), clickMain := Some("newWindow"), enabled := Some(true)),
      Role("minimize"),
      Separator(),
      Role("front")
    ]))
  }

  /** `findMenuItem(tag)` finds a menu with a `submenu` of at least `n` entries. */
  predicate HasMenu(data: seq<Item>, tag: string, n: nat) {
    var k := FindMenuIndex(data, tag);
    k.Some? && data[k.value].submenu.Present? && |data[k.value].submenu.items| >= n
  }

  /** What the splices need of the tree: help with 3 entries, file with 2, view with 1. */
  predicate DarwinReady(data: seq<Item>) {
    HasMenu(data, "help", 3) && HasMenu(data, "file", 2) && HasMenu(data, "view", 1)
  }

  function IndexOf(data: seq<Item>, tag: string): (k: nat)
    requires FindMenuIndex(data, tag).Some?
    ensures k < |data|
  {
    FindMenuIndex(data, tag).value
  }

  function SubmenuOf(data: seq<Item>, tag: string): seq<Item>
    requires FindMenuIndex(data, tag).Some? && data[IndexOf(data, tag)].submenu.Present?
  {
    data[IndexOf(data, tag)].submenu.items
  }

  /** The top-level list after the first two splices: help and file trimmed. */
  function HelpFileTrimmed(data: seq<Item>): (t: seq<Item>)
    requires DarwinReady(data)
    ensures |t| == |data| && Tags(t) == Tags(data)
  {
    var h, f := IndexOf(data, "help"), IndexOf(data, "file");
    var help, file := SubmenuOf(data, "help"), SubmenuOf(data, "file");
    data[h := data[h].(submenu := Present(help[3..]))]
        [f := data[f].(submenu := Present(file[..|file| - 2]))]
  }

  /** The top-level list with help, file and view trimmed and nothing inserted yet. */
  function Trimmed(data: seq<Item>): (t: seq<Item>)
    requires DarwinReady(data)
    ensures |t| == |data| && Tags(t) == Tags(data)
    ensures forall j :: 0 <= j < |data| ==> t[j] == data[j].(submenu := t[j].submenu)
    ensures forall j :: 0 <= j < |data| && data[j].tag !in {Some("help"), Some("file"), Some("view")} ==>
              t[j] == data[j]
  {
    var v, view := IndexOf(data, "view"), SubmenuOf(data, "view");
    HelpFileTrimmed(data)[v := data[v].(submenu := Present(view[1..]))]
  }

  /** `app` put in front of `t` and the window menu put just before its last entry. */
  function Inserted(app: Item, t: seq<Item>): seq<Item>
    requires |t| > 0
  {
    [app] + t[..|t| - 1] + [WindowMenu()] + t[|t| - 1..]
  }

  /** The top-level list after the macOS rewrite. */
  function DarwinRewrite(data: seq<Item>, appName: string): (r: seq<Item>)
    requires DarwinReady(data)
    ensures |r| == |data| + 2
    ensures r[0] == AppMenu(appName, SubmenuOf(data, "help")[0], SubmenuOf(data, "help")[1],
                            SubmenuOf(data, "file")[|SubmenuOf(data, "file")| - 1])
  {
    var help, file := SubmenuOf(data, "help"), SubmenuOf(data, "file");
    Inserted(AppMenu(appName, help[0], help[1], file[|file| - 1]), Trimmed(data))
  }

  /** Changing the entry at index `v` of `t` before the insertions is changing it at its shifted place after. */
  lemma InsertedUpdate(app: Item, t: seq<Item>, v: nat, x: Item)
    requires v < |t|
    ensures Inserted(app, t)[Shifted(v, |t|) := x] == Inserted(app, t[v := x])
  {
    var n := |t|;
    var a, b := Inserted(app, t)[Shifted(v, n) := x], Inserted(app, t[v := x]);
    assert |a| == |b| == n + 2;
    forall j | 0 <= j < n + 2 ensures a[j] == b[j] {
      if 0 < j < n {
        assert b[j] == t[v := x][j - 1];
      } else if j == n + 1 {
        assert b[j] == t[v := x][n - 1];
      }
    }
  }

  /** Where the entry at index `j` of an `n`-entry list sits after the two insertions. */
  function Shifted(j: nat, n: nat): nat {
    if j + 1 < n then j + 1 else j + 2
  }

  /** The entries of `t` sit at their shifted places after the insertions; the two new entries are untagged. */
  lemma InsertedPlaces(app: Item, t: seq<Item>)
    requires |t| > 0 && app.tag == None
    ensures var r, n := Inserted(app, t), |t|;
      && |r| == n + 2 && r[0] == app && r[n] == WindowMenu()
      && (forall j :: 0 <= j < n ==> r[Shifted(j, n)] == t[j])
      && Tags(r) == [None] + Tags(t)[..n - 1] + [None] + Tags(t)[n - 1..]
  {
    var r, n := Inserted(app, t), |t|;
    forall j | 0 <= j < n
      ensures r[Shifted(j, n)] == t[j]
    {
      if j + 1 < n {
        assert r[j + 1] == t[..n - 1][j];
      } else {
        assert r[n + 1] == t[n - 1..][0];
      }
    }
    var tags := [None] + Tags(t)[..n - 1] + [None] + Tags(t)[n - 1..];
    forall j | 0 <= j < n + 2
      ensures Tags(r)[j] == tags[j]
    {
      if 0 < j < n {
        assert Shifted(j - 1, n) == j;
      } else if j == n + 1 {
        assert Shifted(n - 1, n) == j;
      }
    }
  }

  /** The entries of the trimmed list, each at its shifted place. */
  lemma DarwinPlaces(data: seq<Item>, appName: string)
    requires DarwinReady(data)
    ensures var r, n := DarwinRewrite(data, appName), |data|;
      && |r| == n + 2
      && r[n] == WindowMenu()
      && forall j :: 0 <= j < n ==> r[Shifted(j, n)] == Trimmed(data)[j]
  {
    var help, file := SubmenuOf(data, "help"), SubmenuOf(data, "file");
    InsertedPlaces(AppMenu(appName, help[0], help[1], file[|file| - 1]), Trimmed(data));
  }

  /**
   * The top level gains exactly two untagged menus, the app menu at index 0
   * and the window menu just before the last menu; the original menus keep
   * their order and every key but `submenu`, and a menu other than help,
   * file and view is not changed at all.
   */
  lemma DarwinTopLevel(data: seq<Item>, appName: string)
    requires DarwinReady(data)
    ensures var r, n := DarwinRewrite(data, appName), |data|;
      && |r| == n + 2
      && r[0].tag == None && r[n] == WindowMenu()
      && Tags(r) == [None] + Tags(data)[..n - 1] + [None] + Tags(data)[n - 1..]
      && (forall j :: 0 <= j < n ==> r[Shifted(j, n)] == data[j].(submenu := r[Shifted(j, n)].submenu))
      && (forall j :: 0 <= j < n && data[j].tag !in {Some("help"), Some("file"), Some("view")} ==>
            r[Shifted(j, n)] == data[j])
  {
    DarwinTags(data, appName);
    DarwinPlaces(data, appName);
  }

  /** The tags after the rewrite: an untagged entry in front and one before the last. */
  lemma DarwinTags(data: seq<Item>, appName: string)
    requires DarwinReady(data)
    ensures var n := |data|;
      Tags(DarwinRewrite(data, appName)) == [None] + Tags(data)[..n - 1] + [None] + Tags(data)[n - 1..]
  {
    var help, file := SubmenuOf(data, "help"), SubmenuOf(data, "file");
    InsertedPlaces(AppMenu(appName, help[0], help[1], file[|file| - 1]), Trimmed(data));
  }

  /** Lookups by tag are unaffected by untagged entries put in front and before the last entry. */
  lemma {:induction false} FindAfterInsertions(data: seq<Item>, r: seq<Item>, str: string)
    requires |data| > 0 && |r| == |data| + 2
    requires Tags(r) == [None] + Tags(data)[..|data| - 1] + [None] + Tags(data)[|data| - 1..]
    ensures FindMenuIndex(r, str) == match FindMenuIndex(data, str)
      case None => None
      case Some(k) => Some(Shifted(k, |data|))
  {
    var n := |data|;
    forall j | 0 <= j < n
      ensures r[Shifted(j, n)].tag == data[j].tag
    {
      assert Tags(r)[Shifted(j, n)] == Tags(data)[j];
    }
    assert r[0].tag == Tags(r)[0] == None;
    assert r[n].tag == Tags(r)[n] == None;
    match FindMenuIndex(data, str)
    case None =>
      assert FindMenuIndex(r, str) == None;
    case Some(k) =>
      forall i | 0 <= i < Shifted(k, n)
        ensures r[i].tag != Some(str)
      {
        if i != 0 && i != n {
          var j := if i < n then i - 1 else n - 1;
          assert Shifted(j, n) == i;
        }
      }
      FindMenuIndexIsFirst(r, str, Shifted(k, n));
  }

  /**
   * After the rewrite, looking up help, file and view finds the trimmed
   * menus: help without its first three entries, file without its last two,
   * view without its first; looking up any other tag finds what it found
   * before.
   */
  lemma DarwinLookups(data: seq<Item>, appName: string, str: string)
    requires DarwinReady(data)
    ensures var r := DarwinRewrite(data, appName);
      var help, file, view := SubmenuOf(data, "help"), SubmenuOf(data, "file"), SubmenuOf(data, "view");
      && FindMenuItem(r, "help") == Some(data[IndexOf(data, "help")].(submenu := Present(help[3..])))
      && FindMenuItem(r, "file") == Some(data[IndexOf(data, "file")].(submenu := Present(file[..|file| - 2])))
      && FindMenuItem(r, "view") == Some(data[IndexOf(data, "view")].(submenu := Present(view[1..])))
      && (str !in {"help", "file", "view"} ==> FindMenuItem(r, str) == FindMenuItem(data, str))
  {
    var r, n, t := DarwinRewrite(data, appName), |data|, Trimmed(data);
    DarwinTopLevel(data, appName);
    DarwinPlaces(data, appName);
    FindAfterInsertions(data, r, "help");
    FindAfterInsertions(data, r, "file");
    FindAfterInsertions(data, r, "view");
    FindAfterInsertions(data, r, str);
    var h, f, v := IndexOf(data, "help"), IndexOf(data, "file"), IndexOf(data, "view");
    assert h != f && h != v && f != v;
  }

  /**
   * The app menu: the native about role, help's first two entries, a
   * separator, file's last entry (Preferences), a separator, the services
   * role with an empty submenu, the "Text" submenu, a separator, hide and
   * hide-others, a separator and quit, in this order; it has no tag.
   */
  lemma DarwinAppMenu(data: seq<Item>, appName: string)
    requires DarwinReady(data)
    ensures var r := DarwinRewrite(data, appName);
      var help, file := SubmenuOf(data, "help"), SubmenuOf(data, "file");
      && r[0].tag == None && r[0].caption == Some(appName) && r[0].role == None
      && r[0].submenu == Present([Role("about")] + help[..2] + [Separator(), file[|file| - 1]]
                                 + [Separator(), ServicesMenu(), TextMenu()]
                                 + [Separator(), Role("hide"), Role("hideothers")]
                                 + [Separator(), Role("quit")])
  {
  }

  /** The canonical tree meets the rewrite's needs, with file first, view eighth and help last. */
  lemma CanonicalDarwinReady(appName: string, appVersion: string)
    ensures var data := MenuData.Canonical("darwin", appName, appVersion);
      && DarwinReady(data)
      && IndexOf(data, "file") == 0 && IndexOf(data, "view") == 7 && IndexOf(data, "help") == 8
      && |SubmenuOf(data, "help")| == 5 && |SubmenuOf(data, "file")| == 13
  {
    var data := MenuData.Canonical("darwin", appName, appVersion);
    var tags := Tags(data);
    assert forall j :: 0 <= j < 9 ==> data[j].tag == tags[j];
    FindMenuIndexIsFirst(data, "file", 0);
    FindMenuIndexIsFirst(data, "view", 7);
    FindMenuIndexIsFirst(data, "help", 8);
    assert data[0] == MenuData.FileMenu() && data[7] == MenuData.ViewMenu("darwin");
    assert data[8] == MenuData.HelpMenu(appName, appVersion);
  }

  /**
   * On the canonical tree the rewrite yields the top-level order [app, file,
   * play, edit, find, navigation, engines, tools, view, window, help].
   */
  lemma CanonicalDarwinOrder(appName: string, appVersion: string)
    ensures var data := MenuData.Canonical("darwin", appName, appVersion);
      DarwinReady(data) &&
      Tags(DarwinRewrite(data, appName)) ==
        [None, Some("file"), Some("play"), Some("edit"), Some("find"), Some("navigation"),
         Some("engines"), Some("tools"), Some("view"), None, Some("help")]
  {
    var data := MenuData.Canonical("darwin", appName, appVersion);
    CanonicalDarwinReady(appName, appVersion);
    DarwinTags(data, appName);
    var tags := Tags(data);
    assert tags[..8] == [Some("file"), Some("play"), Some("edit"), Some("find"), Some("navigation"),
                         Some("engines"), Some("tools"), Some("view")];
    assert tags[8..] == [Some("help")];
  }

  /**
   * On the canonical tree the app menu holds the version line, "Check for
   * Updates" and "Preferences…" in its second, third and fifth places.
   */
  lemma CanonicalDarwinAppMenu(appName: string, appVersion: string)
    ensures var data := MenuData.Canonical("darwin", appName, appVersion);
      DarwinReady(data) &&
      var app := DarwinRewrite(data, appName)[0];
      && app.submenu.Present? && |app.submenu.items| == 13
      && app.submenu.items[1].caption == Some(appName + " v" + appVersion)
      && app.submenu.items[2].clickMain == Some("checkForUpdates")
      && app.submenu.items[4].caption == Some("&Preferences…")
  {
    var data := MenuData.Canonical("darwin", appName, appVersion);
    CanonicalDarwinReady(appName, appVersion);
    DarwinAppMenu(data, appName);
    var help, file := SubmenuOf(data, "help"), SubmenuOf(data, "file");
    assert help == MenuData.HelpMenu(appName, appVersion).submenu.items;
    assert file == MenuData.FileMenu().submenu.items;
  }

  /**
   * The rewrite cannot run twice on the canonical tree: help keeps only two
   * entries, so the needs of a second rewrite fail.
   */
  lemma CanonicalDarwinRunsOnce(appName: string, appVersion: string)
    ensures var data := MenuData.Canonical("darwin", appName, appVersion);
      DarwinReady(data) && !DarwinReady(DarwinRewrite(data, appName))
  {
    var data := MenuData.Canonical("darwin", appName, appVersion);
    CanonicalDarwinReady(appName, appVersion);
    DarwinLookups(data, appName, "help");
    var r := DarwinRewrite(data, appName);
    assert |SubmenuOf(data, "help")[3..]| == 2;
    assert FindMenuItem(r, "help").value == r[FindMenuIndex(r, "help").value];
  }

  /**
   * The last splice of the rewrite, done after the insertions: the view menu
   * found in the list with the app and window menus is the original view menu
   * moved to its shifted place, and dropping its first entry there gives the
   * rewritten list.
   */
  lemma ViewAfterInsertions(data: seq<Item>, appName: string)
    requires DarwinReady(data)
    ensures var help, file := SubmenuOf(data, "help"), SubmenuOf(data, "file");
      var d := Inserted(AppMenu(appName, help[0], help[1], file[|file| - 1]), HelpFileTrimmed(data));
      var k := Shifted(IndexOf(data, "view"), |data|);
      && FindMenuIndex(d, "view") == Some(k)
      && d[k] == data[IndexOf(data, "view")]
      && d[k := d[k].(submenu := Present(d[k].submenu.items[1..]))] == DarwinRewrite(data, appName)
  {
    var help, file := SubmenuOf(data, "help"), SubmenuOf(data, "file");
    var app := AppMenu(appName, help[0], help[1], file[|file| - 1]);
    var t2 := HelpFileTrimmed(data);
    var v := IndexOf(data, "view");
    assert IndexOf(data, "help") != v && IndexOf(data, "file") != v;
    InsertedPlaces(app, t2);
    FindAfterInsertions(t2, Inserted(app, t2), "view");
    FindMenuIndexByTags(t2, data, "view");
    var x := data[v].(submenu := Present(SubmenuOf(data, "view")[1..]));
    InsertedUpdate(app, t2, v, x);
  }
}
