/**
 * The node model of the menu tree (src/menu.js:16-585).
 *
 * Every entry of the menu is a JavaScript object literal whose keys are all
 * optional; which keys are present makes it an action, a toggle, a separator,
 * a role reference or a nested menu. An `Item` keeps one field per key the
 * file uses, so the code's own tests (`'submenu' in item`, `item._label ===
 * str`) read off the record directly.
 */
module MenuItems {
  import opened Wrappers

  /** The `submenu` key: absent, or present with its ordered children. */
  datatype Children = Absent | Present(items: seq<Item>)

  datatype Item = Item(
    tag: Option<string>,         // `_label`: the internal key of a top-level menu
    caption: Option<string>,     // `label` (a Dafny keyword), as handed to the translator
    accelerator: Option<string>,
    enabled: Option<bool>,
    checked: Option<string>,     // the settings key whose value is the check mark
    click: Option<string>,       // name of the local `click` callback
    clickMain: Option<string>,   // name of the action run by the main process
    kind: Option<string>,        // `type`; the file only ever uses 'separator'
    role: Option<string>,        // a native menu role
    submenu: Children,
    id: Option<string>)          // written by the id pass

  /** An object literal with no keys at all. */
  function Blank(): Item {
    Item(None, None, None, None, None, None, None, None, None, Absent, None)
  }

  /** `{label, accelerator?, click}` */
  function Action(caption: string, accelerator: Option<string>, click: string): Item {
    Blank().(caption := Some(caption), accelerator := accelerator, click := Some(click))
  }

  /** `{type: 'separator'}` */
  function Separator(): Item {
    Blank().(kind := Some("separator"))
  }

  /** `{role}` */
  function Role(role: string): Item {
    Blank().(role := Some(role))
  }

  /** `{label, submenu}` */
  function Menu(caption: string, items: seq<Item>): Item {
    Blank().(caption := Some(caption), submenu := Present(items))
  }

  /** `{_label, label, submenu}`: a top-level menu carrying its lookup key. */
  function TopMenu(tag: string, caption: string, items: seq<Item>): Item {
    Menu(caption, items).(tag := Some(tag))
  }

  /** The `_label` keys of the top-level entries, in order. */
  function Tags(data: seq<Item>): (r: seq<Option<string>>)
    ensures |r| == |data|
    ensures forall j :: 0 <= j < |data| ==> r[j] == data[j].tag
  {
    seq(|data|, j requires 0 <= j < |data| => data[j].tag)
  }

  /** Index of the first entry at or after `from` whose `_label` is `str`. */
  function FindFrom(data: seq<Item>, str: string, from: nat): (r: Option<nat>)
    requires from <= |data|
    ensures r.Some? ==> from <= r.value < |data| && data[r.value].tag == Some(str)
    ensures r.Some? ==> forall j :: from <= j < r.value ==> data[j].tag != Some(str)
    ensures r.None? ==> forall j :: from <= j < |data| ==> data[j].tag != Some(str)
    decreases |data| - from
  {
    if from == |data| then None
    else if data[from].tag == Some(str) then Some(from)
    else FindFrom(data, str, from + 1)
  }

  /** Position of the entry `findMenuItem(str)` returns. */
  function FindMenuIndex(data: seq<Item>, str: string): (r: Option<nat>)
    ensures r.Some? ==> r.value < |data| && data[r.value].tag == Some(str)
    ensures r.Some? ==> forall j :: 0 <= j < r.value ==> data[j].tag != Some(str)
    ensures r.None? ==> forall j :: 0 <= j < |data| ==> data[j].tag != Some(str)
  {
    FindFrom(data, str, 0)
  }

  /**
   * `findMenuItem(str)`: the first top-level entry whose `_label` is `str`,
   * or nothing (JavaScript's `undefined`) when there is none.
   */
  function FindMenuItem(data: seq<Item>, str: string): (r: Option<Item>)
    ensures r.Some? ==> r.value.tag == Some(str)
    ensures r.Some? <==> exists j :: 0 <= j < |data| && data[j].tag == Some(str)
    ensures r.Some? ==> exists k :: (0 <= k < |data| && data[k] == r.value
              && forall j :: 0 <= j < k ==> data[j].tag != Some(str))
  {
    match FindMenuIndex(data, str)
    case None => None
    case Some(k) => Some(data[k])
  }

  /** The first index carrying `str` is what the lookup returns. */
  lemma {:induction false} FindMenuIndexIsFirst(data: seq<Item>, str: string, k: nat)
    requires k < |data| && data[k].tag == Some(str)
    requires forall j :: 0 <= j < k ==> data[j].tag != Some(str)
    ensures FindMenuIndex(data, str) == Some(k)
  {
  }

  /** The lookup sees only the `_label` keys. */
  lemma {:induction false} FindMenuIndexByTags(a: seq<Item>, b: seq<Item>, str: string)
    requires Tags(a) == Tags(b)
    ensures FindMenuIndex(a, str) == FindMenuIndex(b, str)
  {
    assert |a| == |Tags(a)| == |Tags(b)| == |b|;
    forall j | 0 <= j < |a| ensures a[j].tag == b[j].tag {
      assert Tags(a)[j] == Tags(b)[j];
    }
    if FindMenuIndex(a, str).Some? {
      FindMenuIndexIsFirst(b, str, FindMenuIndex(a, str).value);
    }
  }
}
