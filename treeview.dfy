/** The part of a ttk.Treeview the views and controllers rely on: items with
    an id, a parent ('' for the top level), a text and a tuple of values,
    kept in insertion order; a selection; and the serial counter from which
    Tk names items inserted without an explicit id. */
module Treeview {
  import opened Common
  import opened Schema

  datatype Item = Item(iid: string, parent: string, text: string, values: seq<SqlValue>)

  /** The ids in use. */
  function IidsOf(items: seq<Item>): set<string> {
    set i | 0 <= i < |items| :: items[i].iid
  }

  /** The first item with id `iid`. */
  function FindItem(items: seq<Item>, iid: string): (r: Option<Item>)
    ensures r.Some? <==> iid in IidsOf(items)
    ensures r.Some? ==> r.value in items && r.value.iid == iid
  {
    if |items| == 0 then None
    else if items[0].iid == iid then Some(items[0])
    else
      var r := FindItem(items[1..], iid);
      assert IidsOf(items) == {items[0].iid} + IidsOf(items[1..]) by {
        assert forall i :: 1 <= i < |items| ==> items[i] == items[1..][i - 1];
      }
      r
  }

  /** The text of an item; '' for an unknown id. */
  function ItemText(items: seq<Item>, iid: string): string {
    match FindItem(items, iid)
    case Some(it) => it.text
    case None => ""
  }

  /** The children of `p`, in insertion order. */
  function ChildrenOf(items: seq<Item>, p: string): seq<string> {
    if |items| == 0 then []
    else (if items[0].parent == p then [items[0].iid] else []) + ChildrenOf(items[1..], p)
  }

  /** The descendants of `p` in display (preorder) order; `fuel` bounds the depth. */
  function Subtree(items: seq<Item>, p: string, fuel: nat): seq<string>
    decreases fuel, 0
  {
    if fuel == 0 then [] else Forest(items, ChildrenOf(items, p), fuel - 1)
  }

  function Forest(items: seq<Item>, cs: seq<string>, fuel: nat): seq<string>
    decreases fuel, |cs|
  {
    if |cs| == 0 then [] else [cs[0]] + Subtree(items, cs[0], fuel) + Forest(items, cs[1..], fuel)
  }

  /** The model's name for the n-th automatically named item (Tk spells
      the serial in hexadecimal, which the model does not follow). */
  function AutoIid(n: nat): string { "I" + NatToString(n) }

  lemma AutoIidInjective(a: nat, b: nat)
    requires AutoIid(a) == AutoIid(b)
    ensures a == b
  {
    assert AutoIid(a)[1..] == NatToString(a);
    assert AutoIid(b)[1..] == NatToString(b);
    NatToStringInjective(a, b);
  }

  lemma {:induction false} SubsetSize<T>(a: set<T>, b: set<T>)
    requires a <= b
    ensures |a| <= |b|
    decreases |a|
  {
    if a != {} {
      var x :| x in a;
      SubsetSize(a - {x}, b - {x});
    }
  }

  /** Ids are unique and non-empty, and every parent is the top level or an
      earlier item. */
  predicate WellFormed(items: seq<Item>) {
    && (forall i, j :: 0 <= i < j < |items| ==> items[i].iid != items[j].iid)
    && (forall j :: 0 <= j < |items| ==> items[j].iid != "")
    && (forall j :: 0 <= j < |items| ==>
          items[j].parent == "" || exists i :: 0 <= i < j && items[i].iid == items[j].parent)
  }

  /** With unique ids, an item is found at its own position. */
  lemma {:induction false} FindUnique(items: seq<Item>, i: nat)
    requires WellFormed(items) && i < |items|
    ensures FindItem(items, items[i].iid) == Some(items[i])
    ensures FindIndex(items, items[i].iid) == i
  {
    var r := FindItem(items, items[i].iid).value;
    var k :| 0 <= k < |items| && items[k] == r;
    FindFirst(items, items[i].iid, i);
  }

  /** FindItem returns the first item with the id. */
  lemma {:induction false} FindFirst(items: seq<Item>, iid: string, i: nat)
    requires i < |items| && items[i].iid == iid
    requires forall j :: 0 <= j < |items| && j != i ==> items[j].iid != iid
    ensures FindItem(items, iid) == Some(items[i])
  {
    if i > 0 {
      assert items[0].iid != iid;
      FindFirst(items[1..], iid, i - 1);
    }
  }

  /** Appending an item adds it to its parent's children and changes no
      other list of children. */
  lemma {:induction false} ChildrenOfAppend(items: seq<Item>, it: Item, p: string)
    ensures ChildrenOf(items + [it], p) == ChildrenOf(items, p) + (if it.parent == p then [it.iid] else [])
  {
    if |items| == 0 {
      assert items + [it] == [it];
    } else {
      assert (items + [it])[1..] == items[1..] + [it];
      ChildrenOfAppend(items[1..], it, p);
    }
  }

  /** The texts from the topmost ancestor of `iid` down to `iid` itself. */
  function Lineage(items: seq<Item>, iid: string): (r: seq<string>)
    requires WellFormed(items) && iid in IidsOf(items)
    ensures |r| >= 1 && r[|r| - 1] == FindItem(items, iid).value.text
    decreases FindIndex(items, iid)
  {
    var it := FindItem(items, iid).value;
    if it.parent == "" then [it.text]
    else
      ParentEarlier(items, iid);
      Lineage(items, it.parent) + [it.text]
  }

  /** The parent of an item is an item that comes before it. */
  lemma ParentEarlier(items: seq<Item>, iid: string)
    requires WellFormed(items) && iid in IidsOf(items) && FindItem(items, iid).value.parent != ""
    ensures FindItem(items, iid).value.parent in IidsOf(items)
    ensures FindIndex(items, FindItem(items, iid).value.parent) < FindIndex(items, iid)
  {
    var j := FindIndex(items, iid);
    FindUnique(items, j);
    var i :| 0 <= i < j && items[i].iid == items[j].parent;
    FindUnique(items, i);
  }

  /** One step up the lineage: the parent's lineage, then the item's text. */
  lemma LineageStep(items: seq<Item>, iid: string)
    requires WellFormed(items) && iid in IidsOf(items)
    ensures var it := FindItem(items, iid).value;
            && (it.parent != "" ==> it.parent in IidsOf(items) && FindIndex(items, it.parent) < FindIndex(items, iid))
            && Lineage(items, iid) == (if it.parent == "" then [] else Lineage(items, it.parent)) + [it.text]
  {
    if FindItem(items, iid).value.parent != "" {
      ParentEarlier(items, iid);
    }
  }

  /** Appending an item adds its id to the ids in use. */
  lemma IidsAppend(items: seq<Item>, it: Item)
    ensures IidsOf(items + [it]) == IidsOf(items) + {it.iid}
  {
    assert forall i :: 0 <= i < |items| ==> (items + [it])[i] == items[i];
    assert (items + [it])[|items|] == it;
  }

  /** The names tried so far are those from `first` up to `serial`; a taken
      name is one more of them, and there are no more of them than names in use. */
  lemma NameTaken(ids: set<string>, tried: set<string>, first: nat, serial: nat)
    requires tried <= ids && AutoIid(serial) in ids && first <= serial
    requires forall x :: x in tried ==> exists k :: first <= k < serial && x == AutoIid(k)
    ensures AutoIid(serial) !in tried && |tried + {AutoIid(serial)}| <= |ids|
    ensures forall x :: x in tried + {AutoIid(serial)} ==> exists k :: first <= k < serial + 1 && x == AutoIid(k)
  {
    if AutoIid(serial) in tried {
      var k :| first <= k < serial && AutoIid(serial) == AutoIid(k);
      AutoIidInjective(k, serial);
    }
    SubsetSize(tried + {AutoIid(serial)}, ids);
    forall x | x in tried + {AutoIid(serial)}
      ensures exists k :: first <= k < serial + 1 && x == AutoIid(k)
    {
      if x == AutoIid(serial) {
        assert first <= serial;
      } else {
        var k :| first <= k < serial && x == AutoIid(k);
        assert first <= k < serial + 1;
      }
    }
  }

  /** An item with a fresh, non-empty id under the top level or an existing
      item can be appended. */
  lemma WellFormedAppend(items: seq<Item>, it: Item)
    requires WellFormed(items) && it.iid != "" && it.iid !in IidsOf(items)
    requires it.parent == "" || it.parent in IidsOf(items)
    ensures WellFormed(items + [it]) && IidsOf(items + [it]) == IidsOf(items) + {it.iid}
  {
    IidsAppend(items, it);
    var s := items + [it];
    assert forall i :: 0 <= i < |items| ==> s[i] == items[i];
    if it.parent != "" {
      var j := FindIndex(items, it.parent);
      assert s[j].iid == it.parent;
    }
  }

  class Tree {
    var items: seq<Item>
    var selected: set<string>
    var serial: nat

    /** The items form a tree and only items are selected. */
    predicate Valid()
      reads this
    {
      WellFormed(items) && selected <= IidsOf(items)
    }

    constructor ()
      ensures Valid() && items == [] && selected == {} && serial == 0
    {
      items := [];
      selected := {};
      serial := 0;
    }

    predicate Exists(iid: string)
      reads this
    {
      iid in IidsOf(items)
    }

    /** `tree.parent(iid)`: '' for a top-level item. */
    function Parent(iid: string): string
      reads this
    {
      match FindItem(items, iid)
      case Some(it) => it.parent
      case None => ""
    }

    /** `tree.item(iid, 'text')` */
    function Text(iid: string): string
      reads this
    {
      ItemText(items, iid)
    }

    /** `tree.item(iid, 'values')` */
    function Values(iid: string): seq<SqlValue>
      reads this
    {
      match FindItem(items, iid)
      case Some(it) => it.values
      case None => []
    }

    /** `tree.get_children(p)` */
    function Children(p: string): seq<string>
      reads this
    {
      ChildrenOf(items, p)
    }

    /** `tree.selection()`: the selected items in display order. */
    function Selection(): seq<string>
      reads this
    {
      var order := Subtree(items, "", |items| + 1);
      Filter(order, selected)
    }

    /** `tree.insert(parent, 'end', text=..., values=...)` without an id: Tk
        advances its serial counter until the generated name is unused. */
    method Insert(parent: string, text: string, values: seq<SqlValue>) returns (iid: string)
      requires Valid() && (parent == "" || Exists(parent))
      modifies this
      ensures Valid()
      ensures !old(Exists(iid)) && iid != ""
      ensures items == old(items) + [Item(iid, parent, text, values)]
      ensures selected == old(selected)
    {
      serial := serial + 1;
      iid := AutoIid(serial);
      ghost var first := serial;
      ghost var tried: set<string> := {};
      while iid in IidsOf(items)
        invariant items == old(items) && selected == old(selected)
        invariant tried <= IidsOf(items)
        invariant iid == AutoIid(serial) && serial >= first
        invariant forall x :: x in tried ==> exists k :: first <= k < serial && x == AutoIid(k)
        decreases |IidsOf(items)| - |tried|
      {
        NameTaken(IidsOf(items), tried, first, serial);
        tried := tried + {iid};
        serial := serial + 1;
        iid := AutoIid(serial);
      }
      WellFormedAppend(items, Item(iid, parent, text, values));
      items := items + [Item(iid, parent, text, values)];
    }

    /** `tree.insert(parent, 'end', iid=iid, text=...)`: Tk refuses an id that
        is already in use, the root's id "" included (a TclError). */
    method InsertWithId(parent: string, iid: string, text: string) returns (ok: bool)
      requires Valid() && (parent == "" || Exists(parent))
      modifies this
      ensures Valid()
      ensures ok <==> iid != "" && !old(Exists(iid))
      ensures ok ==> items == old(items) + [Item(iid, parent, text, [])]
      ensures !ok ==> items == old(items)
      ensures selected == old(selected) && serial == old(serial)
    {
      if iid == "" || iid in IidsOf(items) {
        return false;
      }
      WellFormedAppend(items, Item(iid, parent, text, []));
      items := items + [Item(iid, parent, text, [])];
      ok := true;
    }

    /** Deleting every top-level item deletes the whole tree. */
    method DeleteAll()
      modifies this
      ensures Valid() && items == [] && selected == {} && serial == old(serial)
    {
      items := [];
      selected := {};
    }

    /** `selection_set(iid)` */
    method SelectionSet(iid: string)
      requires Valid() && Exists(iid)
      modifies this
      ensures Valid() && selected == {iid} && items == old(items) && serial == old(serial)
    {
      selected := {iid};
    }

    /** `selection_add(iid)` */
    method SelectionAdd(iid: string)
      requires Valid() && Exists(iid)
      modifies this
      ensures Valid() && selected == old(selected) + {iid} && items == old(items) && serial == old(serial)
    {
      selected := selected + {iid};
    }

    /** `selection_remove(iid)` */
    method SelectionRemove(iid: string)
      requires Valid()
      modifies this
      ensures Valid() && selected == old(selected) - {iid} && items == old(items) && serial == old(serial)
    {
      selected := selected - {iid};
    }
  }

  /** The elements of `order` that are in `keep`, in order. */
  function Filter(order: seq<string>, keep: set<string>): (r: seq<string>)
    ensures forall x :: x in r <==> x in order && x in keep
  {
    if |order| == 0 then []
    else (if order[0] in keep then [order[0]] else []) + Filter(order[1..], keep)
  }

  /** An item is among its parent's children. */
  lemma {:induction false} ChildrenOfHas(items: seq<Item>, i: nat)
    requires i < |items|
    ensures items[i].iid in ChildrenOf(items, items[i].parent)
  {
    if i > 0 {
      ChildrenOfHas(items[1..], i - 1);
    }
  }

  /** A forest lists each of its roots followed by that root's subtree. */
  lemma {:induction false} ForestHas(items: seq<Item>, cs: seq<string>, fuel: nat, k: nat)
    requires k < |cs|
    ensures cs[k] in Forest(items, cs, fuel)
    ensures forall z :: z in Subtree(items, cs[k], fuel) ==> z in Forest(items, cs, fuel)
  {
    if k > 0 {
      ForestHas(items, cs[1..], fuel, k - 1);
    }
  }

  /** An item is no deeper than its position allows. */
  lemma {:induction false} LineageBound(items: seq<Item>, iid: string)
    requires WellFormed(items) && iid in IidsOf(items)
    ensures |Lineage(items, iid)| <= FindIndex(items, iid) + 1
    decreases FindIndex(items, iid)
  {
    LineageStep(items, iid);
    var it := FindItem(items, iid).value;
    if it.parent != "" {
      LineageBound(items, it.parent);
    }
  }

  /** Everything displayed under `a` is displayed under `b`. */
  ghost predicate Within(items: seq<Item>, a: string, fa: nat, b: string, fb: nat) {
    forall z :: z in Subtree(items, a, fa) ==> z in Subtree(items, b, fb)
  }

  /** A child is displayed under its parent, and so is its own subtree. */
  lemma ChildDisplayed(items: seq<Item>, p: string, fuel: nat, c: string)
    requires fuel >= 1 && c in ChildrenOf(items, p)
    ensures c in Subtree(items, p, fuel) && Within(items, c, fuel - 1, p, fuel)
  {
    var cs := ChildrenOf(items, p);
    var k :| 0 <= k < |cs| && cs[k] == c;
    ForestHas(items, cs, fuel - 1, k);
  }

  /** With enough fuel, an item and everything below it are displayed. */
  lemma {:induction false} SubtreeHas(items: seq<Item>, i: nat, fuel: nat)
    requires WellFormed(items) && i < |items| && |Lineage(items, items[i].iid)| <= fuel
    ensures items[i].iid in Subtree(items, "", fuel)
    ensures Within(items, items[i].iid, fuel - |Lineage(items, items[i].iid)|, "", fuel)
    decreases i
  {
    var iid := items[i].iid;
    LineageStep(items, iid);
    FindUnique(items, i);
    ChildrenOfHas(items, i);
    var p := items[i].parent;
    if p == "" {
      ChildDisplayed(items, "", fuel, iid);
    } else {
      var j := FindIndex(items, p);
      var depth := |Lineage(items, p)|;
      SubtreeHas(items, j, fuel);
      ChildDisplayed(items, p, fuel - depth, iid);
    }
  }

  /** Every item is displayed. */
  lemma ItemDisplayed(items: seq<Item>, i: nat, fuel: nat)
    requires WellFormed(items) && i < |items| && |items| <= fuel
    ensures items[i].iid in Subtree(items, "", fuel)
  {
    FindUnique(items, i);
    LineageBound(items, items[i].iid);
    SubtreeHas(items, i, fuel);
  }

  /** `tree.selection()` holds exactly the selected items. */
  lemma SelectionIsSelected(items: seq<Item>, selected: set<string>)
    requires WellFormed(items) && selected <= IidsOf(items)
    ensures forall x :: x in Filter(Subtree(items, "", |items| + 1), selected) <==> x in selected
  {
    var order := Subtree(items, "", |items| + 1);
    forall x | x in selected
      ensures x in order
    {
      var i :| 0 <= i < |items| && items[i].iid == x;
      ItemDisplayed(items, i, |items| + 1);
    }
  }

  /** The position of an id in use. */
  ghost function FindIndex(items: seq<Item>, iid: string): (i: nat)
    requires iid in IidsOf(items)
    ensures i < |items| && items[i].iid == iid
  {
    var i :| 0 <= i < |items| && items[i].iid == iid; i
  }
}
