/**
 * The canonical, platform-neutral menu tree `data` (src/menu.js:16-585).
 *
 * Labels are the keys handed to the translator `t`; each `click` callback is
 * named by the controller call it makes. The three accelerators that depend
 * on `process.platform` take the platform as a parameter, and the first help
 * entry's label is built from the application's name and version.
 */
module MenuData {
  import opened Wrappers
  import opened MenuItems

  function FileMenu(): Item {
    TopMenu("file", "&File", [
      Action("&New", Some("CmdOrCtrl+N"), "newFile"),
      Blank().(caption := Some("New &Window"), accelerator := Some("CmdOrCtrl+Shift+N"),
               clickMain := Some("newWindow"), enabled := Some(true)),
      Separator(),
      Action("&Open…", Some("CmdOrCtrl+O"), "loadFile"),
      Action("&Save", Some("CmdOrCtrl+S"), "saveFile"),
      Action("Sa&ve As…", Some("CmdOrCtrl+Shift+S"), "saveFileAs"),
      Separator(),
      Menu("&Clipboard", [
        Action("&Load SGF", None, "loadSgfFromClipboard"),
        Action("&Copy SGF", None, "copySgfToClipboard"),
        Action("Copy &ASCII Diagram", None, "copyAsciiDiagram")
      ]),
      Separator(),
      Action("Game &Info", Some("CmdOrCtrl+I"), "openInfoDrawer"),
      Action("&Manage Games…", Some("CmdOrCtrl+Shift+M"), "openGameChooser"),
      Separator(),
      Action("&Preferences…", Some("CmdOrCtrl+,"), "openPreferences")
    ])
  }

  function PlayMenu(): Item {
    TopMenu("play", "&Play", [
      Action("&Toggle Player", None, "togglePlayer"),
      Separator(),
      Action("&Select Point", Some("CmdOrCtrl+L"), "selectPoint"),
      Action("&Pass", Some("CmdOrCtrl+P"), "pass"),
      Action("&Resign", None, "resign"),
      Separator(),
      Action("&Estimate", None, "estimate"),
      Action("Sc&ore", None, "score")
    ])
  }

  function ToolItem(caption: string, digit: string, tool: string): Item {
    Action(caption, Some("CmdOrCtrl+" + digit), tool)
  }

  function EditMenu(platform: string): Item {
    TopMenu("edit", "&Edit", [
      Action("&Undo", Some("CmdOrCtrl+Z"), "undo"),
      Action("Re&do", Some(if platform == "win32" then "CmdOrCtrl+Y" else "CmdOrCtrl+Shift+Z"), "redo"),
      Separator(),
      Action("Toggle &Edit Mode", Some("CmdOrCtrl+E"), "toggleEditMode"),
      Menu("&Select Tool", [
        ToolItem("&Stone Tool", "1", "selectStoneTool"),
        ToolItem("&Cross Tool", "2", "selectCrossTool"),
        ToolItem("&Triangle Tool", "3", "selectTriangleTool"),
        ToolItem("S&quare Tool", "4", "selectSquareTool"),
        ToolItem("C&ircle Tool", "5", "selectCircleTool"),
        ToolItem("&Line Tool", "6", "selectLineTool"),
        ToolItem("&Arrow Tool", "7", "selectArrowTool"),
        ToolItem("La&bel Tool", "8", "selectLabelTool"),
        ToolItem("&Number Tool", "9", "selectNumberTool")
      ]),
      Separator(),
      Action("&Copy Variation", None, "copyVariation"),
      Action("Cu&t Variation", None, "cutVariation"),
      Action("&Paste Variation", None, "pasteVariation"),
      Separator(),
      Action("Make Main &Variation", None, "makeMainVariation"),
      Action("Shift &Left", None, "shiftVariationLeft"),
      Action("Shift Ri&ght", None, "shiftVariationRight"),
      Separator(),
      Action("&Flatten", None, "flattenVariation"),
      Action("&Remove Node",
             Some(if platform == "darwin" then "CmdOrCtrl+Backspace" else "CmdOrCtrl+Delete"), "removeNode"),
      Action("Remove &Other Variations", None, "removeOtherVariations")
    ])
  }

  function FindMenu(): Item {
    TopMenu("find", "Fin&d", [
      Action("Toggle &Find Mode", Some("CmdOrCtrl+F"), "toggleFindMode"),
      Action("Find &Next", Some("F3"), "findNext"),
      Action("Find &Previous", Some("Shift+F3"), "findPrevious"),
      Separator(),
      Action("Toggle &Hotspot", Some("CmdOrCtrl+B"), "toggleHotspot"),
      Action("Jump to Ne&xt Hotspot", Some("F2"), "nextHotspot"),
      Action("Jump to Pre&vious Hotspot", Some("Shift+F2"), "previousHotspot")
    ])
  }

  function NavigationMenu(): Item {
    TopMenu("navigation", "&Navigation", [
      Action("&Back", Some("Up"), "goBack"),
      Action("&Forward", Some("Down"), "goForward"),
      Separator(),
      Action("Go to &Previous Fork", Some("CmdOrCtrl+Up"), "goToPreviousFork"),
      Action("Go to &Next Fork", Some("CmdOrCtrl+Down"), "goToNextFork"),
      Separator(),
      Action("Go to Previous Commen&t", Some("CmdOrCtrl+Shift+Up"), "goToPreviousComment"),
      Action("Go to Next &Comment", Some("CmdOrCtrl+Shift+Down"), "goToNextComment"),
      Separator(),
      Action("Go to Be&ginning", Some("Home"), "goToBeginning"),
      Action("Go to &End", Some("End"), "goToEnd"),
      Separator(),
      Action("Go to &Main Variation", Some("CmdOrCtrl+Left"), "goToMainVariation"),
      Action("Go to Previous &Variation", Some("Left"), "goToPreviousVariation"),
      Action("Go to Next Va&riation", Some("Right"), "goToNextVariation"),
      Separator(),
      Action("Go to Move N&umber", Some("CmdOrCtrl+G"), "goToMoveNumber"),
      Separator(),
      Action("Go to Ne&xt Game", Some("CmdOrCtrl+PageDown"), "goToNextGame"),
      Action("Go to Previou&s Game", Some("CmdOrCtrl+PageUp"), "goToPreviousGame")
    ])
  }

  function EnginesMenu(): Item {
    TopMenu("engines", "Eng&ines", [
      Action("Manage &Engines…", None, "manageEngines"),
      Separator(),
      Action("&Attach…", None, "openInfoDrawer"),
      Action("&Detach", None, "detachEngines"),
      Action("&Suspend", None, "suspendEngines").(enabled := Some(true)),
      Separator(),
      Action("S&ynchronize", Some("F6"), "syncEngines"),
      Action("Toggle A&nalysis", Some("F4"), "toggleAnalysis"),
      Action("Start &Playing", Some("F5"), "startPlaying"),
      Action("Generate &Move", Some("F10"), "generateMove"),
      Separator(),
      Action("Toggle &GTP Console", None, "toggleConsole"),
      Action("&Clear Console", None, "clearConsole")
    ])
  }

  function ToolsMenu(): Item {
    TopMenu("tools", "&Tools", [
      Action("Toggle Auto&play Mode", None, "toggleAutoplayMode"),
      Action("Toggle &Guess Mode", None, "toggleGuessMode"),
      Separator(),
      Action("Clean &Markup…", None, "openCleanMarkup"),
      Action("&Edit SGF Properties…", None, "openAdvancedProperties"),
      Separator(),
      Action("&Rotate Clockwise", None, "rotateClockwise"),
      Action("Rotate &Anticlockwise", None, "rotateAnticlockwise")
    ])
  }

  /** A toggle: `{label, accelerator?, checked: key, click}`. */
  function Toggle(caption: string, accelerator: Option<string>, setting: string): Item {
    Action(caption, accelerator, "toggle:" + setting).(checked := Some(setting))
  }

  function ViewMenu(platform: string): Item {
    TopMenu("view", "&View", [
      Action("Toggle Menu &Bar", None, "toggle:view.show_menubar"),
      Action("Toggle &Full Screen",
             Some(if platform == "darwin" then "CmdOrCtrl+Shift+F" else "F11"), "toggleFullScreen"),
      Separator(),
      Toggle("Show &Coordinates", Some("CmdOrCtrl+Shift+C"), "view.show_coordinates"),
      Toggle("Show Move N&umbers", None, "view.show_move_numbers"),
      Toggle("Show Move Colori&zation", None, "view.show_move_colorization"),
      Toggle("Show &Next Moves", None, "view.show_next_moves"),
      Toggle("Show &Sibling Variations", None, "view.show_siblings"),
      Separator(),
      Toggle("Show Game &Tree", Some("CmdOrCtrl+T"), "view.show_graph"),
      Toggle("Show Co&mments", Some("CmdOrCtrl+Shift+T"), "view.show_comments"),
      Separator(),
      Menu("Z&oom", [
        Action("&Increase", Some("CmdOrCtrl+Plus"), "zoomIn"),
        Action("&Decrease", Some("CmdOrCtrl+-"), "zoomOut"),
        Action("&Reset", Some("CmdOrCtrl+0"), "resetZoom")
      ])
    ])
  }

  function HelpMenu(appName: string, appVersion: string): Item {
    TopMenu("help", "&Help", [
      Blank().(caption := Some(appName + " v" + appVersion), enabled := Some(false)),
      Blank().(caption := Some("Check for &Updates"), clickMain := Some("checkForUpdates"),
               enabled := Some(true)),
      Separator(),
      Action("GitHub &Repository", None, "openRepository"),
      Action("Report &Issue", None, "openIssues")
    ])
  }

  /** The top-level list `data`, in source order. */
  function Canonical(platform: string, appName: string, appVersion: string): (data: seq<Item>)
    ensures Tags(data) == [Some("file"), Some("play"), Some("edit"), Some("find"), Some("navigation"),
                           Some("engines"), Some("tools"), Some("view"), Some("help")]
  {
    [FileMenu(), PlayMenu(), EditMenu(platform), FindMenu(), NavigationMenu(),
     EnginesMenu(), ToolsMenu(), ViewMenu(platform), HelpMenu(appName, appVersion)]
  }
}
