# Sabaki application menu: a Dafny model

This project models the structural core of Sabaki's `src/menu.js`. The
application menu is an ordered list of top-level menus. Each menu has an
internal `_label` key (`file`, `play`, `edit`, `find`, `navigation`,
`engines`, `tools`, `view`, `help`) and a `submenu` list. An entry of that
list is an action, a toggle (a `checked` settings key), a separator, a native
role, or a nested submenu.

The model covers four operations:

- the lookup `findMenuItem`;
- the macOS rewrite, a fixed sequence of in-place splices that builds the app
  menu and the window menu;
- the depth-first id pass `generateIds`;
- the structural copy `exports.clone`.

Modules, one per component:

- `Wrappers`: `Option`.
- `MenuItems`: the entry record `Item` (one field per object key the file
  uses) and the lookup.
- `MenuData`: the canonical tree exactly as the file writes it. Labels are the
  keys passed to the translator. Each `click` callback is named by what it
  does.
- `Darwin`: the macOS rewrite as a function of the top-level list, with its
  lemmas.
- `MenuIds`: ids as index paths, their rendering, the id pass and uniqueness.
- `MenuClone`: JavaScript values, the clone, and the menu tree's encoding as a
  JavaScript value.
- `MenuState`: the module-level `data` as the class `MenuBar`. Its methods
  splice `data` step by step, run the id pass over it and clone it.

The splice of two entries at `length - 2` (src/menu.js:603) removes the file
menu's last two entries, a separator and Preferences, and the model does the
same. Nothing in
the code guards against a second run of the macOS block. In the model, the
rewrite's precondition fails on its own output for the canonical tree
(`Darwin.CanonicalDarwinRunsOnce`).

## Model

| member | source | states |
|---|---|---|
| `MenuItems.FindMenuItem` | src/menu.js:587 | The result is an entry whose `_label` is `str`, so an entry without `_label` (the app or window menu) is never returned. No earlier entry has that key. The result is absent exactly when no entry has that key. |
| `MenuItems.FindMenuIndex` | src/menu.js:587 | The position of the entry `findMenuItem` returns: the first index whose `_label` is `str`, or none if no index has it. |
| `MenuItems.FindMenuIndexIsFirst` | src/menu.js:587 | The first index carrying the key is exactly what the lookup returns. |
| `MenuItems.FindMenuIndexByTags` | src/menu.js:587 | The lookup depends only on the `_label` keys of the top level. |
| `MenuData.Canonical` | src/menu.js:16-585 | The canonical tree's top-level keys are file, play, edit, find, navigation, engines, tools, view, help, in that order. |
| `Darwin.DarwinRewrite` | src/menu.js:591-651 | The whole macOS block as a function of the top-level list: it grows by two, and entry 0 is the app menu built from help's first two entries and file's last entry. |
| `Darwin.HelpFileTrimmed` | src/menu.js:596-603 | The first two splices keep the length and every `_label` of the top level. |
| `Darwin.Trimmed` | src/menu.js:596-650 | The three splices change only the `submenu` of the menus they hit. Every menu other than help, file and view is unchanged. |
| `Darwin.InsertedPlaces` | src/menu.js:626-645 | The `unshift` and the splice at `length - 1` leave every old entry at its shifted index. They add exactly two untagged entries: one in front, one before the last. |
| `Darwin.DarwinPlaces` | src/menu.js:626-645 | After the rewrite, each trimmed menu sits at its shifted index, and the window menu sits just before the last entry. |
| `Darwin.DarwinTags` | src/menu.js:626-645 | After the rewrite, the top-level keys are an untagged entry, the old keys but the last, another untagged entry, then the last old key. |
| `Darwin.DarwinTopLevel` | src/menu.js:591-651 | The top level grows by two, with the app menu at 0 and the window menu before the last menu. The old menus keep their order and every key except `submenu`. Menus other than help, file and view are unchanged. |
| `Darwin.FindAfterInsertions` | src/menu.js:649 | After the two insertions, a lookup by key finds the same menu at its shifted place, or nothing if it found nothing before. |
| `Darwin.DarwinLookups` | src/menu.js:594-650 | After the rewrite, help lacks its first three entries, file its last two and view its first. A lookup of any other key finds what it found before. |
| `Darwin.DarwinAppMenu` | src/menu.js:594-629 | The app menu holds, in order: about, help's first two entries, separator, file's last entry, separator, services (empty submenu), the Text submenu, separator, hide, hideothers, separator, quit. It has no `_label`. |
| `Darwin.ViewAfterInsertions` | src/menu.js:647-650 | The view lookup made after the insertions finds the original view menu. Dropping its first entry there gives the rewritten list. |
| `Darwin.CanonicalDarwinReady` | src/menu.js:591-651 | The canonical tree meets the splices' needs: file is entry 0, view entry 7, help entry 8; help has 5 entries and file 13. |
| `Darwin.CanonicalDarwinOrder` | src/menu.js:591-651 | On the canonical tree, the rewrite yields the order app, file, play, edit, find, navigation, engines, tools, view, window, help. |
| `Darwin.CanonicalDarwinAppMenu` | src/menu.js:562-624 | On the canonical tree, the app menu has 13 entries. Entries 1, 2 and 4 are the version line, "Check for Updates" and "Preferences…". |
| `Darwin.CanonicalDarwinRunsOnce` | src/menu.js:591-651 | After one rewrite of the canonical tree, the needs of a second rewrite no longer hold. |
| `MenuState.Published` | src/menu.js:16-665 | The exported tree has 11 top-level menus on `darwin` and 9 elsewhere. Top-level entry i has id `"i"`. |
| `MenuState.MenuBar.AdaptToPlatform` | src/menu.js:591-651 | On `darwin`, `data` becomes the rewritten list. On any other platform, `data` is unchanged. |
| `MenuState.MenuBar.AddAppMenu` | src/menu.js:592-629 | The help and file splices and the `unshift` of the app menu built from the removed entries. |
| `MenuState.MenuBar.AddWindowMenu` | src/menu.js:631-645 | The window menu is inserted just before the last top-level entry. |
| `MenuState.MenuBar.RemoveToggleMenuBar` | src/menu.js:647-650 | The first entry of the menu found as view is dropped. |
| `MenuState.MenuBar.AssignIds` | src/menu.js:665 | `data` becomes the stamped tree with the empty prefix. |
| `MenuState.MenuBar.CloneData` | src/menu.js:669-679 | `clone()` with no argument returns a value structurally equal to the whole tree. The tree holds no `undefined`, so the clone as written returns the same value. |
| `MenuState.MenuBar.constructor` | src/menu.js:16-665 | Loading the module builds the canonical tree, adapts it to the platform and assigns ids. |
| `MenuIds.NatToString` | src/menu.js:657 | A sibling index renders as a non-empty string of decimal digits. It has two or more digits exactly when the index is at least 10. |
| `MenuIds.NatToStringInjective` | src/menu.js:657 | Different indices render differently. |
| `MenuIds.IdOf` | src/menu.js:657 | The id of a position is non-empty. |
| `MenuIds.PrefixOf` | src/menu.js:660 | The prefix for children is empty only at the top level, and otherwise ends in '-'. |
| `MenuIds.IdOfInjective` | src/menu.js:655-663 | Two index paths that render to the same id are equal. |
| `MenuIds.StampedItem` | src/menu.js:656-661 | One entry after the callback: its id is the one rendered from its path, its `submenu` key is present exactly when it was, and no other key changes. |
| `MenuIds.Stamped` | src/menu.js:655-663 | A sibling list after `generateIds`: same length, and entry i gets the id rendered from the parent's path followed by i. |
| `MenuIds.GenerateIds` | src/menu.js:655-663 | The walk with prefix `PrefixOf(path)` returns the stamped list. |
| `MenuIds.StampItem` | src/menu.js:656-661 | One callback sets `id = idPrefix + i` and recurses with `id + "-"` exactly when the entry has a `submenu` key. |
| `MenuIds.StampedAt` | src/menu.js:655-663 | The pass keeps every position. The entry at path p gets the id rendered from p, including entries under an empty or role-carrying `submenu`. |
| `MenuIds.StampedIdsUnique` | src/menu.js:655-665 | Two positions of the stamped tree that carry the same id are the same position. |
| `MenuIds.StampedKeepsFields` | src/menu.js:655-663 | The pass changes no key but `id`, and no length or order. |
| `MenuIds.StampedIdempotent` | src/menu.js:655-665 | Ids already present do not matter: a second pass changes nothing. |
| `MenuIds.StampedIdsByShape` | src/menu.js:655-663 | Trees of the same shape get the same id at every position, whatever their labels or other keys. |
| `MenuClone.CloneOf` | src/menu.js:669-679 | Arrays stay arrays of the same length, and objects keep exactly their keys in order. `null` becomes `{}`. Every other value is returned as is. The result holds no `null`. |
| `MenuClone.Clone` | src/menu.js:669-679 | The loops rebuild arrays element by element and objects key by key. The result equals `CloneOf(x)`, and equals `x` when `x` holds no `null`. |
| `MenuClone.CloneOfNullFree` | src/menu.js:669-679 | A value without `null` is cloned into a structurally equal value. |
| `MenuClone.CloneOfIdempotent` | src/menu.js:669-679 | Cloning a clone changes nothing. |
| `MenuClone.MenuToJsNullFree` | src/menu.js:16-585 | The encoded menu tree holds no `null`. |
| `MenuClone.CloneOfMenu` | src/menu.js:667-679 | Cloning the menu tree yields a structurally equal tree. |
| `MenuClone.CloneAsWritten` | src/menu.js:669-679 | `clone` as written, with the default argument applied to every `undefined`. The result holds no `undefined` and no `null`, arrays keep their length and objects their keys. |
| `MenuClone.MenuToJsUndefinedFree` | src/menu.js:16-585 | The encoded menu tree holds no `undefined`. |
| `MenuClone.CloneAsWrittenOnMenu` | src/menu.js:667-679 | On the menu tree, `clone` as written and the corrected clone return the same value. |
| `MenuClone.CloneAsWrittenAgrees` | src/menu.js:669-679 | On values without `undefined`, the clone as written and the corrected clone agree. |
| `MenuClone.CloneAsWrittenReplacesUndefined` | src/menu.js:669 | As written, `clone([undefined])` returns an array holding a copy of the whole tree, not `[undefined]`. |

## Left out

- The `click` callbacks and everything they call: the controller, clipboard, shell, dialogs and game tree. Each is an opaque name in `click`. Only its presence matters to the operations modelled.
- Translation with `t`: labels hold the key or template passed to it. The version line is `appName + " v" + appVersion`, and the app menu's label is the application name.
- The settings store and the helpers `toggleSetting`, `selectTool` and `treePosition`: these are external state used only inside callbacks.
- The zoom-factor arithmetic (`± .1`, `Math.max`): floating point inside callbacks.
- `app.getName()`, `app.getVersion()` and `process.platform`: they become the parameters `appName`, `appVersion` and `platform`. The three platform-dependent accelerators take `platform`.
- `require` and the exports plumbing: the `clone` property that `exports.clone` hangs on the exported array is not part of the modelled tree.
- MenuState.MenuBar.AdaptToPlatform: entries are values, so the model does not capture that the moved help and Preferences entries stay the same objects. The canonical tree shares no object between two places.
- MenuIds.GenerateIds: returns the stamped list instead of writing `id` into shared objects. With aliasing, an object reachable twice would keep the last id written. The canonical tree has none.
- MenuClone.Clone: a value model cannot state that every container of the result is fresh, so "mutating the clone never touches the original" is not captured. What is proved is structural equality.
- MenuClone.ItemToJs: objects list their keys in one fixed order rather than each literal's own order. For `for ... in`, an object is its own enumerable keys, with none inherited.

## Findings

| source | as written | input that shows it | evidently intended | confidence | as-written member | corrected member |
|---|---|---|---|---|---|---|
| src/menu.js:669 | `function(x = data)` applies the default whenever the argument is `undefined`, including in the recursive calls. An `undefined` array element or property value is therefore replaced by a copy of the whole menu tree. If `data` itself held `undefined`, the recursion would not end. | `clone([undefined])` | `[undefined]`: a non-object value is returned unchanged (line 678) | not executed; follows from JavaScript's default-parameter rule | `MenuClone.CloneAsWrittenReplacesUndefined` | `MenuClone.Clone` |
