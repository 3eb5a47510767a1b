/**
 * The id pass `generateIds` (src/menu.js:655-665).
 *
 * The item at sibling index `i` under prefix `p` gets `id = p + i`, and the
 * children of an item with a `submenu` key are walked with prefix `id + "-"`.
 * An id is therefore determined by the item's index path from the top level;
 * `IdOf` renders a path exactly as that string concatenation does, and the
 * uniqueness of ids follows from the uniqueness of paths.
 */
module MenuIds {
  import opened Wrappers
  import opened MenuItems

  predicate IsDigits(s: string) {
    forall k :: 0 <= k < |s| ==> '0' <= s[k] <= '9'
  }

  function Digit(d: nat): (c: char)
    requires d < 10
    ensures '0' <= c <= '9'
    ensures c as int - '0' as int == d
  {
    ('0' as int + d) as char
  }

  /** JavaScript's rendering of a non-negative integer in `idPrefix + i`. */
  function NatToString(n: nat): (s: string)
    ensures |s| > 0 && IsDigits(s)
    ensures n >= 10 <==> |s| >= 2
  {
    if n < 10 then [Digit(n)] else NatToString(n / 10) + [Digit(n % 10)]
  }

  lemma {:induction false} NatToStringInjective(a: nat, b: nat)
    requires NatToString(a) == NatToString(b)
    ensures a == b
  {
    if a >= 10 && b >= 10 {
      var sa, sb := NatToString(a / 10), NatToString(b / 10);
      assert NatToString(a) == sa + [Digit(a % 10)];
      assert NatToString(b) == sb + [Digit(b % 10)];
      assert sa == NatToString(a)[..|sa|] == NatToString(b)[..|sb|] == sb;
      NatToStringInjective(a / 10, b / 10);
      assert Digit(a % 10) == NatToString(a)[|sa|] == Digit(b % 10);
    } else {
      assert [Digit(a)] == NatToString(a);
    }
  }

  /** The id the pass gives the item at index path `path` (non-empty). */
  function IdOf(path: seq<nat>): (s: string)
    requires |path| > 0
    ensures |s| > 0
    decreases |path|, 0
  {
    PrefixOf(path[..|path| - 1]) + NatToString(path[|path| - 1])
  }

  /** The `idPrefix` the pass uses for the children of the item at `path`; `""` at the top. */
  function PrefixOf(path: seq<nat>): (s: string)
    ensures s == [] <==> path == []
    ensures s != [] ==> s[|s| - 1] == '-'
    decreases |path|, 1
  {
    if path == [] then "" else IdOf(path) + "-"
  }

  /** Splitting `X + u` where `u` is all digits and `X` is empty or ends in '-'. */
  lemma DigitSuffixSplit(x: string, u: string, y: string, v: string)
    requires x == [] || x[|x| - 1] == '-'
    requires y == [] || y[|y| - 1] == '-'
    requires |u| > 0 && IsDigits(u) && |v| > 0 && IsDigits(v)
    requires x + u == y + v
    ensures x == y && u == v
  {
    var w := x + u;
    assert x == w[..|x|] && y == (y + v)[..|y|];
    assert u == w[|x|..] && v == (y + v)[|y|..];
  }

  /** Different index paths never render to the same id. */
  lemma {:induction false} IdOfInjective(p: seq<nat>, q: seq<nat>)
    requires |p| > 0 && |q| > 0
    requires IdOf(p) == IdOf(q)
    ensures p == q
    decreases |p|
  {
    var p', q' := p[..|p| - 1], q[..|q| - 1];
    DigitSuffixSplit(PrefixOf(p'), NatToString(p[|p| - 1]), PrefixOf(q'), NatToString(q[|q| - 1]));
    NatToStringInjective(p[|p| - 1], q[|q| - 1]);
    if p' != [] {
      var ip, iq := IdOf(p'), IdOf(q');
      assert ip + "-" == iq + "-";
      assert ip == (ip + "-")[..|ip|] == (iq + "-")[..|iq|] == iq;
      IdOfInjective(p', q');
    }
    assert p == p' + [p[|p| - 1]] && q == q' + [q[|q| - 1]];
  }

  lemma IdOfChild(path: seq<nat>, i: nat)
    ensures IdOf(path + [i]) == PrefixOf(path) + NatToString(i)
  {
    assert (path + [i])[..|path|] == path;
  }

  /** The item `generateIds` leaves at index path `path`: its id set, its children walked. */
  function StampedItem(item: Item, path: seq<nat>): (r: Item)
    requires |path| > 0
    ensures r.id == Some(IdOf(path))
    ensures r == item.(id := r.id, submenu := r.submenu)
    ensures r.submenu.Present? == item.submenu.Present?
    decreases item
  {
    var withId := item.(id := Some(IdOf(path)));
    match item.submenu
    case Absent => withId
    case Present(kids) => withId.(submenu := Present(Stamped(kids, path)))
  }

  /** The sibling list `menu` after `generateIds(menu, PrefixOf(path))`. */
  function Stamped(menu: seq<Item>, path: seq<nat>): (r: seq<Item>)
    ensures |r| == |menu|
    ensures forall i :: 0 <= i < |menu| ==> r[i].id == Some(IdOf(path + [i]))
    decreases menu
  {
    seq(|menu|, i requires 0 <= i < |menu| => StampedItem(menu[i], path + [i]))
  }

  /**
   * `generateIds(menu, idPrefix)`. The `forEach` callback is `StampItem`;
   * the value model returns the updated list instead of writing into shared
   * objects.
   */
  method GenerateIds(menu: seq<Item>, idPrefix: string, ghost path: seq<nat>) returns (r: seq<Item>)
    requires idPrefix == PrefixOf(path)
    ensures r == Stamped(menu, path)
    decreases menu
  {
    r := [];
    var i := 0;
    while i < |menu|
      invariant 0 <= i <= |menu|
      invariant r == Stamped(menu, path)[..i]
    {
      var item := StampItem(menu[i], i, idPrefix, path);
      r := r + [item];
      i := i + 1;
    }
  }

  /** One call of the `forEach` callback: `item.id = idPrefix + i`, then recurse into `submenu`. */
  method StampItem(item: Item, i: nat, idPrefix: string, ghost path: seq<nat>) returns (r: Item)
    requires idPrefix == PrefixOf(path)
    ensures r == StampedItem(item, path + [i])
    decreases item
  {
    IdOfChild(path, i);
    var id := idPrefix + NatToString(i);
    r := item.(id := Some(id));
    if r.submenu.Present? {
      var kids := GenerateIds(item.submenu.items, id + "-", path + [i]);
      r := r.(submenu := Present(kids));
    }
  }

  /** The item reached from the list `menu` by following the index path `path`. */
  function ItemAt(menu: seq<Item>, path: seq<nat>): (r: Option<Item>)
    ensures r.Some? ==> |path| > 0
    decreases |path|
  {
    if |path| == 0 || path[0] >= |menu| then None
    else if |path| == 1 then Some(menu[path[0]])
    else match menu[path[0]].submenu
      case Absent => None
      case Present(kids) => ItemAt(kids, path[1..])
  }

  /**
   * After the pass, the item at relative path `p` under base path `base` is
   * the original item stamped with `IdOf(base + p)`; the pass adds and drops
   * no positions.
   */
  lemma {:induction false} StampedAt(menu: seq<Item>, base: seq<nat>, p: seq<nat>)
    ensures ItemAt(Stamped(menu, base), p).Some? <==> ItemAt(menu, p).Some?
    ensures ItemAt(menu, p).Some? ==>
              ItemAt(Stamped(menu, base), p) == Some(StampedItem(ItemAt(menu, p).value, base + p))
    ensures ItemAt(menu, p).Some? ==> ItemAt(Stamped(menu, base), p).value.id == Some(IdOf(base + p))
    decreases |p|
  {
    if |p| > 1 && p[0] < |menu| {
      var item := menu[p[0]];
      assert Stamped(menu, base)[p[0]] == StampedItem(item, base + [p[0]]);
      if item.submenu.Present? {
        StampedAt(item.submenu.items, base + [p[0]], p[1..]);
        assert base + [p[0]] + p[1..] == base + p;
      }
    } else if |p| == 1 {
      assert p == [p[0]];
    }
  }

  /** Every id in the stamped tree belongs to exactly one position. */
  lemma StampedIdsUnique(menu: seq<Item>, p: seq<nat>, q: seq<nat>)
    requires ItemAt(Stamped(menu, []), p).Some? && ItemAt(Stamped(menu, []), q).Some?
    requires ItemAt(Stamped(menu, []), p).value.id == ItemAt(Stamped(menu, []), q).value.id
    ensures p == q
  {
    StampedAt(menu, [], p);
    StampedAt(menu, [], q);
    assert [] + p == p && [] + q == q;
    IdOfInjective(p, q);
  }

  /** The tree with every `id` key removed. */
  function EraseIds(menu: seq<Item>): (r: seq<Item>)
    decreases menu
  {
    seq(|menu|, i requires 0 <= i < |menu| => EraseItemIds(menu[i]))
  }

  function EraseItemIds(item: Item): Item
    decreases item
  {
    match item.submenu
    case Absent => item.(id := None)
    case Present(kids) => item.(id := None, submenu := Present(EraseIds(kids)))
  }

  /** The pass changes no key but `id`, and no length or order. */
  lemma {:induction false} StampedKeepsFields(menu: seq<Item>, path: seq<nat>)
    ensures EraseIds(Stamped(menu, path)) == EraseIds(menu)
    decreases menu
  {
    forall i | 0 <= i < |menu|
      ensures EraseIds(Stamped(menu, path))[i] == EraseIds(menu)[i]
    {
      StampedItemKeepsFields(menu[i], path + [i]);
    }
  }

  lemma {:induction false} StampedItemKeepsFields(item: Item, path: seq<nat>)
    requires |path| > 0
    ensures EraseItemIds(StampedItem(item, path)) == EraseItemIds(item)
    decreases item
  {
    if item.submenu.Present? {
      StampedKeepsFields(item.submenu.items, path);
    }
  }

  /** Ids do not depend on ids already present: a second pass changes nothing. */
  lemma {:induction false} StampedIdempotent(menu: seq<Item>, path: seq<nat>)
    ensures Stamped(Stamped(menu, path), path) == Stamped(menu, path)
    decreases menu
  {
    forall i | 0 <= i < |menu|
      ensures Stamped(Stamped(menu, path), path)[i] == Stamped(menu, path)[i]
    {
      StampedItemIdempotent(menu[i], path + [i]);
    }
  }

  lemma {:induction false} StampedItemIdempotent(item: Item, path: seq<nat>)
    requires |path| > 0
    ensures StampedItem(StampedItem(item, path), path) == StampedItem(item, path)
    decreases item
  {
    if item.submenu.Present? {
      StampedIdempotent(item.submenu.items, path);
    }
  }

  /** Two lists have the same positions: the same lengths and the same `submenu` keys, all the way down. */
  predicate SameShape(a: seq<Item>, b: seq<Item>)
    decreases a
  {
    |a| == |b| && forall i :: 0 <= i < |a| ==> SameItemShape(a[i], b[i])
  }

  predicate SameItemShape(x: Item, y: Item)
    decreases x
  {
    match x.submenu
    case Absent => y.submenu.Absent?
    case Present(kids) => y.submenu.Present? && SameShape(kids, y.submenu.items)
  }

  /**
   * Ids depend on the shape of the tree only: trees that differ in labels,
   * accelerators, roles or any other key get the same id at every position.
   */
  lemma {:induction false} StampedIdsByShape(a: seq<Item>, b: seq<Item>, base: seq<nat>, p: seq<nat>)
    requires SameShape(a, b)
    ensures ItemAt(Stamped(a, base), p).Some? <==> ItemAt(Stamped(b, base), p).Some?
    ensures ItemAt(Stamped(a, base), p).Some? ==>
              ItemAt(Stamped(a, base), p).value.id == ItemAt(Stamped(b, base), p).value.id
    decreases |p|
  {
    StampedAt(a, base, p);
    StampedAt(b, base, p);
    if |p| > 1 && p[0] < |a| {
      assert SameItemShape(a[p[0]], b[p[0]]);
      if a[p[0]].submenu.Present? {
        var kids := a[p[0]].submenu.items;
        StampedIdsByShape(kids, b[p[0]].submenu.items, base + [p[0]], p[1..]);
        StampedAt(kids, base + [p[0]], p[1..]);
        StampedAt(b[p[0]].submenu.items, base + [p[0]], p[1..]);
      }
    }
  }
}
