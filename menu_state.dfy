/**
 * The module-level state of src/menu.js: the top-level list `data`, the
 * macOS block that splices it in place (lines 591-651), the id pass run over
 * it (line 665) and `clone()` with its default argument (line 669).
 */
module MenuState {
  import opened Wrappers
  import opened MenuItems
  import MenuData
  import opened Darwin
  import opened MenuIds
  import opened MenuClone

  /** The tree after the platform step, before ids are assigned. */
  function Adapted(platform: string, appName: string, appVersion: string): seq<Item> {
    var data := MenuData.Canonical(platform, appName, appVersion);
    if platform == "darwin" then
      CanonicalDarwinReady(appName, appVersion);
      DarwinRewrite(data, appName)
    else data
  }

  /** The exported tree: the adapted tree with ids from the top level down. */
  function Published(platform: string, appName: string, appVersion: string): (r: seq<Item>)
    ensures |r| == if platform == "darwin" then 11 else 9
    ensures forall i :: 0 <= i < |r| ==> r[i].id == Some(IdOf([i]))
  {
    Stamped(Adapted(platform, appName, appVersion), [])
  }

  class MenuBar {
    var data: seq<Item>

    /** Loading the module: build `data`, adapt it to the platform, assign ids. */
    constructor (platform: string, appName: string, appVersion: string)
      ensures data == Published(platform, appName, appVersion)
    {
      data := MenuData.Canonical(platform, appName, appVersion);
      new;
      CanonicalDarwinReady(appName, appVersion);
      AdaptToPlatform(platform, appName);
      AssignIds();
    }

    /**
     * The `if (process.platform === 'darwin')` block: on macOS its three
     * steps one after the other, elsewhere nothing.
     */
    method AdaptToPlatform(platform: string, appName: string)
      requires platform == "darwin" ==> DarwinReady(data)
      modifies this
      ensures platform == "darwin" ==> data == DarwinRewrite(old(data), appName)
      ensures platform != "darwin" ==> data == old(data)
    {
      if platform == "darwin" {
        ghost var original := data;
        ViewAfterInsertions(original, appName);
        AddAppMenu(appName);
        AddWindowMenu();
        RemoveToggleMenuBar();
      }
    }

    /**
     * "Add 'App' menu": take the first three help entries and the last two
     * file entries out, and put in front an app menu made of the about
     * role, the first two taken help entries, Preferences and native roles.
     */
    method AddAppMenu(appName: string)
      requires DarwinReady(data)
      modifies this
      ensures var help, file := SubmenuOf(old(data), "help"), SubmenuOf(old(data), "file");
        data == [AppMenu(appName, help[0], help[1], file[|file| - 1])] + HelpFileTrimmed(old(data))
    {
      var appMenu := [Role("about")];
      var helpIndex := FindMenuIndex(data, "help").value;
      var helpItems := data[helpIndex].submenu.items;
      var items := helpItems[..3];
      data := data[helpIndex := data[helpIndex].(submenu := Present(helpItems[3..]))];
      appMenu := appMenu + items[..2];

      FindMenuIndexByTags(data, old(data), "file");
      var fileIndex := FindMenuIndex(data, "file").value;
      var fileItems := data[fileIndex].submenu.items;
      assert helpIndex == IndexOf(old(data), "help") && fileIndex == IndexOf(old(data), "file");
      assert helpItems == SubmenuOf(old(data), "help") && fileItems == SubmenuOf(old(data), "file");
      var removed := fileItems[|fileItems| - 2..];
      data := data[fileIndex := data[fileIndex].(submenu := Present(fileItems[..|fileItems| - 2]))];
      var preferenceItem := removed[1];
      assert preferenceItem == fileItems[|fileItems| - 1];
      appMenu := appMenu + [
        Separator(), preferenceItem,
        Separator(), ServicesMenu(), TextMenu(),
        Separator(), Role("hide"), Role("hideothers"),
        Separator(), Role("quit")
      ];
      assert appMenu == [
        Role("about"), helpItems[0], helpItems[1],
        Separator(), preferenceItem,
        Separator(), ServicesMenu(), TextMenu(),
        Separator(), Role("hide"), Role("hideothers"),
        Separator(), Role("quit")
      ];
      assert Menu(appName, appMenu) == AppMenu(appName, helpItems[0], helpItems[1], fileItems[|fileItems| - 1]);

      data := [Menu(appName, appMenu)] + data;
    }

    /** "Add 'Window' menu": `data.splice(data.length - 1, 0, windowMenu)`. */
    method AddWindowMenu()
      requires |data| > 1
      modifies this
      ensures data == Inserted(old(data)[0], old(data)[1..])
    {
      data := data[..|data| - 1] + [WindowMenu()] + data[|data| - 1..];
    }

    /** "Remove 'Toggle Menu Bar' menu item": drop the first entry of view. */
    method RemoveToggleMenuBar()
      requires HasMenu(data, "view", 1)
      modifies this
      ensures var k := IndexOf(old(data), "view");
        data == old(data)[k := old(data)[k].(submenu := Present(old(data)[k].submenu.items[1..]))]
    {
      var viewIndex := FindMenuIndex(data, "view").value;
      var viewItems := data[viewIndex].submenu.items;
      data := data[viewIndex := data[viewIndex].(submenu := Present(viewItems[1..]))];
    }

    /** `generateIds(data)`. */
    method AssignIds()
      modifies this
      ensures data == Stamped(old(data), [])
    {
      data := GenerateIds(data, "", []);
    }

    /**
     * `clone()`: the default argument is the whole tree. The tree holds no
     * `undefined`, so the clone as written gives the same value.
     */
    method CloneData() returns (r: JsValue)
      ensures r == MenuToJs(data)
      ensures UndefinedFree(MenuToJs(data)) && r == CloneAsWritten(MenuToJs(data), MenuToJs(data))
    {
      r := Clone(MenuToJs(data));
      CloneOfMenu(data);
      CloneAsWrittenOnMenu(data);
    }
  }
}
