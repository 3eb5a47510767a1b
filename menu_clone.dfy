/**
 * `exports.clone` (src/menu.js:669-679) over a model of JavaScript values.
 *
 * An array is rebuilt element by element, an object key by key in its
 * enumeration order, and every other value (strings, numbers, booleans,
 * functions) is returned as it is. `typeof null` is 'object', so `null`
 * becomes an empty object. The published menu tree is encoded as such a
 * value by `MenuToJs`.
 */
module MenuClone {
  import opened Wrappers
  import opened MenuItems

  /** A JavaScript value; an object lists its enumerable keys in `for ... in` order. */
  datatype JsValue =
    | Undefined
    | Null
    | Bool(b: bool)
    | Num(n: real)
    | Str(s: string)
    | Func(name: string)
    | Arr(elems: seq<JsValue>)
    | Obj(props: seq<Prop>)

  datatype Prop = Prop(key: string, value: JsValue)

  function Keys(props: seq<Prop>): (keys: seq<string>)
    ensures |keys| == |props|
  {
    seq(|props|, i requires 0 <= i < |props| => props[i].key)
  }

  predicate NullFree(x: JsValue) {
    match x
    case Null => false
    case Arr(es) => forall i :: 0 <= i < |es| ==> NullFree(es[i])
    case Obj(ps) => forall i :: 0 <= i < |ps| ==> NullFree(ps[i].value)
    case _ => true
  }

  /**
   * The structural copy the clone makes: the same value with every `null`
   * replaced by an empty object.
   */
  function CloneOf(x: JsValue): (r: JsValue)
    ensures x.Arr? <==> r.Arr?
    ensures x.Arr? ==> |r.elems| == |x.elems|
    ensures x.Obj? ==> r.Obj? && Keys(r.props) == Keys(x.props)
    ensures x.Null? ==> r == Obj([])
    ensures !x.Arr? && !x.Obj? && !x.Null? ==> r == x
    ensures NullFree(r)
  {
    match x
    case Null => Obj([])
    case Arr(es) => Arr(seq(|es|, i requires 0 <= i < |es| => CloneOf(es[i])))
    case Obj(ps) => Obj(seq(|ps|, i requires 0 <= i < |ps| => Prop(ps[i].key, CloneOf(ps[i].value))))
    case _ => x
  }

  /** A value without `null` anywhere is cloned into a structurally equal value. */
  lemma {:induction false} CloneOfNullFree(x: JsValue)
    requires NullFree(x)
    ensures CloneOf(x) == x
  {
    match x
    case Arr(es) =>
      forall i | 0 <= i < |es| ensures CloneOf(es[i]) == es[i] {
        CloneOfNullFree(es[i]);
      }
    case Obj(ps) =>
      forall i | 0 <= i < |ps| ensures CloneOf(ps[i].value) == ps[i].value {
        CloneOfNullFree(ps[i].value);
      }
    case _ =>
  }

  /** Cloning a clone changes nothing. */
  lemma CloneOfIdempotent(x: JsValue)
    ensures CloneOf(CloneOf(x)) == CloneOf(x)
  {
    CloneOfNullFree(CloneOf(x));
  }

  /** `clone(x)`: the recursion with its loops, building fresh containers. */
  method Clone(x: JsValue) returns (r: JsValue)
    ensures r == CloneOf(x)
    ensures NullFree(x) ==> r == x
    decreases x
  {
    match x {
      case Arr(elems) =>
        var out: seq<JsValue> := [];
        var i := 0;
        while i < |elems|
          invariant 0 <= i <= |elems|
          invariant |out| == i
          invariant forall k :: 0 <= k < i ==> out[k] == CloneOf(elems[k])
        {
          var c := Clone(elems[i]);
          out := out + [c];
          i := i + 1;
        }
        r := Arr(out);
      case Null =>
        r := Obj([]);
      case Obj(props) =>
        var result: seq<Prop> := [];
        var i := 0;
        while i < |props|
          invariant 0 <= i <= |props|
          invariant |result| == i
          invariant forall k :: 0 <= k < i ==> result[k] == Prop(props[k].key, CloneOf(props[k].value))
        {
          var c := Clone(props[i].value);
          result := result + [Prop(props[i].key, c)];
          i := i + 1;
        }
        r := Obj(result);
      case _ =>
        r := x;
    }
    if NullFree(x) {
      CloneOfNullFree(x);
    }
  }

  predicate UndefinedFree(x: JsValue) {
    match x
    case Undefined => false
    case Arr(es) => forall i :: 0 <= i < |es| ==> UndefinedFree(es[i])
    case Obj(ps) => forall i :: 0 <= i < |ps| ==> UndefinedFree(ps[i].value)
    case _ => true
  }

  /**
   * The clone as written: `function(x = data)` substitutes the default
   * argument whenever `x` is `undefined`, also in the recursive calls, so an
   * `undefined` element or property is replaced by a copy of the whole tree
   * `root`. (If `root` held an `undefined`, the recursion would not end; the
   * menu tree holds none, see `MenuToJsUndefinedFree`.)
   */
  function CloneAsWritten(x: JsValue, root: JsValue): (r: JsValue)
    requires UndefinedFree(root)
    ensures UndefinedFree(r) && NullFree(r)
    ensures x.Arr? ==> r.Arr? && |r.elems| == |x.elems|
    ensures x.Obj? ==> r.Obj? && Keys(r.props) == Keys(x.props)
    decreases if UndefinedFree(x) then 0 else 1, x
  {
    match x
    case Undefined => CloneAsWritten(root, root)
    case Null => Obj([])
    case Arr(es) => Arr(seq(|es|, i requires 0 <= i < |es| => CloneAsWritten(es[i], root)))
    case Obj(ps) => Obj(seq(|ps|, i requires 0 <= i < |ps| => Prop(ps[i].key, CloneAsWritten(ps[i].value, root))))
    case _ => x
  }

  /** Without `undefined` the written clone and the intended clone agree. */
  lemma {:induction false} CloneAsWrittenAgrees(x: JsValue, root: JsValue)
    requires UndefinedFree(root) && UndefinedFree(x)
    ensures CloneAsWritten(x, root) == CloneOf(x)
  {
    match x
    case Arr(es) =>
      forall i | 0 <= i < |es| ensures CloneAsWritten(es[i], root) == CloneOf(es[i]) {
        CloneAsWrittenAgrees(es[i], root);
      }
    case Obj(ps) =>
      forall i | 0 <= i < |ps| ensures CloneAsWritten(ps[i].value, root) == CloneOf(ps[i].value) {
        CloneAsWrittenAgrees(ps[i].value, root);
      }
    case _ =>
  }

  /**
   * The discrepancy: cloning the one-element array `[undefined]` against a
   * non-empty tree yields `[copy of the tree]` instead of `[undefined]`.
   */
  lemma CloneAsWrittenReplacesUndefined(root: JsValue)
    requires UndefinedFree(root)
    ensures CloneAsWritten(Arr([Undefined]), root) == Arr([CloneOf(root)])
    ensures CloneAsWritten(Arr([Undefined]), root) != CloneOf(Arr([Undefined]))
  {
    CloneAsWrittenAgrees(root, root);
    assert CloneOf(Arr([Undefined])).elems[0] == Undefined;
  }

  function OptStr(key: string, v: Option<string>): seq<Prop> {
    match v
    case None => []
    case Some(s) => [Prop(key, Str(s))]
  }

  function OptFunc(key: string, v: Option<string>): seq<Prop> {
    match v
    case None => []
    case Some(name) => [Prop(key, Func(name))]
  }

  function OptBool(key: string, v: Option<bool>): seq<Prop> {
    match v
    case None => []
    case Some(b) => [Prop(key, Bool(b))]
  }

  /** The keys of an entry before `submenu`, those present, in the model's key order. */
  function LeafProps(item: Item): seq<Prop> {
    OptStr("_label", item.tag) + OptStr("label", item.caption) + OptStr("accelerator", item.accelerator)
    + OptBool("enabled", item.enabled) + OptStr("checked", item.checked) + OptFunc("click", item.click)
    + OptStr("clickMain", item.clickMain) + OptStr("type", item.kind) + OptStr("role", item.role)
  }

  /** A menu entry as the JavaScript object it is, with only its present keys. */
  function ItemToJs(item: Item): JsValue
    decreases item
  {
    Obj(LeafProps(item)
        + (match item.submenu
           case Absent => []
           case Present(kids) => [Prop("submenu", MenuToJs(kids))])
        + OptStr("id", item.id))
  }

  /** A list of menu entries as a JavaScript array. */
  function MenuToJs(menu: seq<Item>): JsValue
    decreases menu
  {
    Arr(seq(|menu|, i requires 0 <= i < |menu| => ItemToJs(menu[i])))
  }

  lemma {:induction false} MenuToJsNullFree(menu: seq<Item>)
    ensures NullFree(MenuToJs(menu))
    decreases menu
  {
    forall i | 0 <= i < |menu| ensures NullFree(ItemToJs(menu[i])) {
      ItemToJsNullFree(menu[i]);
    }
  }

  lemma {:induction false} ItemToJsNullFree(item: Item)
    ensures NullFree(ItemToJs(item))
    decreases item
  {
    var sub := match item.submenu
      case Absent => []
      case Present(kids) => [Prop("submenu", MenuToJs(kids))];
    if item.submenu.Present? {
      MenuToJsNullFree(item.submenu.items);
    }
    LeafPropsNullFree(item);
    assert PropsNullFree(sub) && PropsNullFree(OptStr("id", item.id));
    PropsNullFreeConcat(LeafProps(item), sub);
    PropsNullFreeConcat(LeafProps(item) + sub, OptStr("id", item.id));
  }

  lemma LeafPropsNullFree(item: Item)
    ensures PropsNullFree(LeafProps(item))
  {
    var front := OptStr("_label", item.tag) + OptStr("label", item.caption) + OptStr("accelerator", item.accelerator);
    var middle := OptBool("enabled", item.enabled) + OptStr("checked", item.checked) + OptFunc("click", item.click);
    var back := OptStr("clickMain", item.clickMain) + OptStr("type", item.kind) + OptStr("role", item.role);
    PropsNullFreeConcat(OptStr("_label", item.tag), OptStr("label", item.caption));
    PropsNullFreeConcat(OptStr("_label", item.tag) + OptStr("label", item.caption), OptStr("accelerator", item.accelerator));
    PropsNullFreeConcat(OptBool("enabled", item.enabled), OptStr("checked", item.checked));
    PropsNullFreeConcat(OptBool("enabled", item.enabled) + OptStr("checked", item.checked), OptFunc("click", item.click));
    PropsNullFreeConcat(OptStr("clickMain", item.clickMain), OptStr("type", item.kind));
    PropsNullFreeConcat(OptStr("clickMain", item.clickMain) + OptStr("type", item.kind), OptStr("role", item.role));
    PropsNullFreeConcat(front, middle);
    PropsNullFreeConcat(front + middle, back);
    assert LeafProps(item) == front + middle + back;
  }

  predicate PropsNullFree(ps: seq<Prop>) {
    forall i :: 0 <= i < |ps| ==> NullFree(ps[i].value)
  }

  lemma PropsNullFreeConcat(a: seq<Prop>, b: seq<Prop>)
    requires PropsNullFree(a) && PropsNullFree(b)
    ensures PropsNullFree(a + b)
  {
    forall i | 0 <= i < |a + b| ensures NullFree((a + b)[i].value) {
      if i >= |a| {
        assert (a + b)[i] == b[i - |a|];
      }
    }
  }

  lemma {:induction false} MenuToJsUndefinedFree(menu: seq<Item>)
    ensures UndefinedFree(MenuToJs(menu))
    decreases menu
  {
    forall i | 0 <= i < |menu| ensures UndefinedFree(ItemToJs(menu[i])) {
      ItemToJsUndefinedFree(menu[i]);
    }
  }

  lemma {:induction false} ItemToJsUndefinedFree(item: Item)
    ensures UndefinedFree(ItemToJs(item))
    decreases item
  {
    var sub := match item.submenu
      case Absent => []
      case Present(kids) => [Prop("submenu", MenuToJs(kids))];
    if item.submenu.Present? {
      MenuToJsUndefinedFree(item.submenu.items);
    }
    LeafPropsUndefinedFree(item);
    assert PropsUndefinedFree(sub) && PropsUndefinedFree(OptStr("id", item.id));
    PropsUndefinedFreeConcat(LeafProps(item), sub);
    PropsUndefinedFreeConcat(LeafProps(item) + sub, OptStr("id", item.id));
  }

  lemma LeafPropsUndefinedFree(item: Item)
    ensures PropsUndefinedFree(LeafProps(item))
  {
    var front := OptStr("_label", item.tag) + OptStr("label", item.caption) + OptStr("accelerator", item.accelerator);
    var middle := OptBool("enabled", item.enabled) + OptStr("checked", item.checked) + OptFunc("click", item.click);
    var back := OptStr("clickMain", item.clickMain) + OptStr("type", item.kind) + OptStr("role", item.role);
    PropsUndefinedFreeConcat(OptStr("_label", item.tag), OptStr("label", item.caption));
    PropsUndefinedFreeConcat(OptStr("_label", item.tag) + OptStr("label", item.caption), OptStr("accelerator", item.accelerator));
    PropsUndefinedFreeConcat(OptBool("enabled", item.enabled), OptStr("checked", item.checked));
    PropsUndefinedFreeConcat(OptBool("enabled", item.enabled) + OptStr("checked", item.checked), OptFunc("click", item.click));
    PropsUndefinedFreeConcat(OptStr("clickMain", item.clickMain), OptStr("type", item.kind));
    PropsUndefinedFreeConcat(OptStr("clickMain", item.clickMain) + OptStr("type", item.kind), OptStr("role", item.role));
    PropsUndefinedFreeConcat(front, middle);
    PropsUndefinedFreeConcat(front + middle, back);
    assert LeafProps(item) == front + middle + back;
  }

  predicate PropsUndefinedFree(ps: seq<Prop>) {
    forall i :: 0 <= i < |ps| ==> UndefinedFree(ps[i].value)
  }

  lemma PropsUndefinedFreeConcat(a: seq<Prop>, b: seq<Prop>)
    requires PropsUndefinedFree(a) && PropsUndefinedFree(b)
    ensures PropsUndefinedFree(a + b)
  {
    forall i | 0 <= i < |a + b| ensures UndefinedFree((a + b)[i].value) {
      if i >= |a| {
        assert (a + b)[i] == b[i - |a|];
      }
    }
  }

  /** On the menu tree, `clone()` as written and the corrected clone agree. */
  lemma CloneAsWrittenOnMenu(menu: seq<Item>)
    ensures UndefinedFree(MenuToJs(menu))
    ensures CloneAsWritten(MenuToJs(menu), MenuToJs(menu)) == CloneOf(MenuToJs(menu))
  {
    MenuToJsUndefinedFree(menu);
    CloneAsWrittenAgrees(MenuToJs(menu), MenuToJs(menu));
  }

  /** Cloning the menu tree gives a structurally equal tree. */
  lemma CloneOfMenu(menu: seq<Item>)
    ensures CloneOf(MenuToJs(menu)) == MenuToJs(menu)
  {
    MenuToJsNullFree(menu);
    CloneOfNullFree(MenuToJs(menu));
  }
}
