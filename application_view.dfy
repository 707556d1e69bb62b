/** The main window's behaviour around its treeview: how a click moves the
    selection, when a change of selection reaches the controller, how the
    language and category nodes are found or created, and how the window is
    maximized and restored. Widgets, styles and the title bar are not part
    of this model; the treeview is the `Tree` of module Treeview. */
module ApplicationView {
  import opened Common
  import opened Treeview

  /** `MAIN_WINDOW_SIZE`, the geometry the window starts with. */
  const MainWindowSize := "800x600"

  /** The geometry string that fills a screen of the given size. */
  function FullScreen(width: nat, height: nat): string {
    NatToString(width) + "x" + NatToString(height) + "+0+0"
  }

  /** The window's size state: whether it is maximized, the geometry Tk
      reports for it, and the geometry saved when it was last maximized. */
  datatype Window = Window(isMaximized: bool, geometry: string, prevGeom: string)

  /** The maximize/restore button: a maximized window gets its saved
      geometry back; any other window saves its geometry and fills the
      screen. */
  function Toggled(w: Window, width: nat, height: nat): Window {
    if w.isMaximized then w.(geometry := w.prevGeom, isMaximized := false)
    else Window(true, FullScreen(width, height), w.geometry)
  }

  /** Maximizing then restoring gives back the geometry the window had. */
  lemma RestoreAfterMaximize(w: Window, width: nat, height: nat)
    requires !w.isMaximized
    ensures Toggled(w, width, height).isMaximized
    ensures Toggled(w, width, height).geometry == FullScreen(width, height)
    ensures var r := Toggled(Toggled(w, width, height), width, height);
            !r.isMaximized && r.geometry == w.geometry
  {
  }

  /** The part of the view a click changes: the selection and the item the
      previous click landed on. */
  datatype ClickState = ClickState(selected: set<string>, lastClicked: Option<string>)

  /** A click on `row` ('' when the click is on no row). */
  function Clicked(s: ClickState, row: string): ClickState {
    if row == "" then s.(lastClicked := None)
    else if s.lastClicked == Some(row) then
      ClickState(if row in s.selected then s.selected - {row} else s.selected + {row}, Some(row))
    else ClickState({row}, Some(row))
  }

  /** A click on no row forgets the last click and keeps the selection; a
      click on an item remembers it; repeating the last click toggles that
      item alone; a click on another item selects exactly it. */
  lemma ClickCases(s: ClickState, row: string)
    ensures row == "" ==> Clicked(s, row) == ClickState(s.selected, None)
    ensures row != "" ==> Clicked(s, row).lastClicked == Some(row)
    ensures row != "" && s.lastClicked == Some(row) ==>
              (row in Clicked(s, row).selected <==> row !in s.selected) &&
              Clicked(s, row).selected - {row} == s.selected - {row}
    ensures row != "" && s.lastClicked != Some(row) ==> Clicked(s, row).selected == {row}
  {
  }

  /** Clicking the same item twice in a row leaves the selection as it was
      when that item had already been the last click, and otherwise ends
      with nothing selected. */
  lemma {:induction false} DoubleClick(s: ClickState, row: string)
    requires row != ""
    ensures s.lastClicked == Some(row) ==> Clicked(Clicked(s, row), row).selected == s.selected
    ensures s.lastClicked != Some(row) ==> Clicked(Clicked(s, row), row).selected == {}
  {
    ClickCases(s, row);
    ClickCases(Clicked(s, row), row);
    if s.lastClicked == Some(row) {
      assert Clicked(Clicked(s, row), row).selected == s.selected by {
        if row in s.selected {
          assert Clicked(s, row).selected + {row} == s.selected;
        } else {
          assert Clicked(s, row).selected - {row} == s.selected;
        }
      }
    }
  }

  /** Whether the item `iid` carries the text `title`. */
  predicate Titled(items: seq<Item>, iid: string, title: string) {
    ItemText(items, iid) == title
  }

  /** The position of the first child in `cs` whose text is `title`. */
  function FirstTitled(items: seq<Item>, cs: seq<string>, title: string): (r: Option<nat>)
    ensures r.Some? ==> r.value < |cs| && Titled(items, cs[r.value], title)
    ensures r.Some? ==> forall k :: 0 <= k < r.value ==> !Titled(items, cs[k], title)
    ensures r.None? ==> forall k :: 0 <= k < |cs| ==> !Titled(items, cs[k], title)
  {
    if |cs| == 0 then None
    else if Titled(items, cs[0], title) then Some(0)
    else match FirstTitled(items, cs[1..], title)
      case None => None
      case Some(k) => Some(k + 1)
  }

  class ApplicationView {
    const tree: Tree
    const screenWidth: nat
    const screenHeight: nat
    var lastClickedItem: Option<string>
    var lastSelectedItem: Option<string>
    /** The contents of the code text widget. */
    var codeText: string
    /** The items passed to the controller's `on_tree_select`, in order. */
    var selectCalls: seq<string>
    var isMaximized: bool
    var geometry: string
    var prevGeom: string

    predicate Valid()
      reads this, tree
    {
      tree.Valid()
    }

    function WindowState(): Window
      reads this
    {
      Window(isMaximized, geometry, prevGeom)
    }

    function ClickView(): ClickState
      reads this, tree
    {
      ClickState(tree.selected, lastClickedItem)
    }

    /** `__init__` with `setup_main_window`: nothing clicked or selected yet,
        the window at its initial size and not maximized. The centring that
        `center_window` adds ("WxH+X+Y") is folded into the abstract
        geometry, which records the size only. */
    constructor (tree: Tree, screenWidth: nat, screenHeight: nat)
      ensures this.tree == tree && this.screenWidth == screenWidth && this.screenHeight == screenHeight
      ensures lastClickedItem == None && lastSelectedItem == None
      ensures codeText == "" && selectCalls == []
      ensures WindowState() == Window(false, MainWindowSize, "")
    {
      this.tree := tree;
      this.screenWidth := screenWidth;
      this.screenHeight := screenHeight;
      lastClickedItem := None;
      lastSelectedItem := None;
      codeText := "";
      selectCalls := [];
      isMaximized := false;
      geometry := MainWindowSize;
      prevGeom := "";
    }

    /** `maximize_restore_window()` */
    method MaximizeRestore()
      modifies this
      ensures WindowState() == Toggled(old(WindowState()), screenWidth, screenHeight)
      ensures lastClickedItem == old(lastClickedItem) && lastSelectedItem == old(lastSelectedItem)
      ensures codeText == old(codeText) && selectCalls == old(selectCalls)
    {
      if isMaximized {
        geometry := prevGeom;
        isMaximized := false;
      } else {
        prevGeom := geometry;
        geometry := FullScreen(screenWidth, screenHeight);
        isMaximized := true;
      }
    }

    /** `display_snippet_code(code)`: the code text shows `code` only. */
    method DisplaySnippetCode(code: string)
      modifies this
      ensures codeText == code
      ensures lastClickedItem == old(lastClickedItem) && lastSelectedItem == old(lastSelectedItem)
      ensures selectCalls == old(selectCalls) && WindowState() == old(WindowState())
    {
      codeText := code;
    }

    /** `on_tree_click(event)`, with `row` the result of `identify_row`
        ('' when the click is on no row). */
    method OnTreeClick(row: string)
      requires Valid() && (row == "" || tree.Exists(row))
      modifies this, tree
      ensures Valid()
      ensures ClickView() == Clicked(old(ClickView()), row)
      ensures row == "" ==> lastClickedItem == None && tree.selected == old(tree.selected)
      ensures row != "" && old(lastClickedItem) == Some(row) ==>
                tree.selected == if row in old(tree.selected) then old(tree.selected) - {row}
                                 else old(tree.selected) + {row}
      ensures row != "" && old(lastClickedItem) != Some(row) ==> tree.selected == {row}
      ensures row != "" ==> lastClickedItem == Some(row)
      ensures tree.items == old(tree.items) && tree.serial == old(tree.serial)
      ensures lastSelectedItem == old(lastSelectedItem) && codeText == old(codeText)
      ensures selectCalls == old(selectCalls) && WindowState() == old(WindowState())
    {
      if row == "" {
        lastClickedItem := None;
        return;
      }
      var current := tree.Selection();
      SelectionIsSelected(tree.items, tree.selected);
      if lastClickedItem == Some(row) {
        if row in current {
          tree.SelectionRemove(row);
        } else {
          tree.SelectionAdd(row);
        }
      } else {
        tree.SelectionSet(row);
      }
      lastClickedItem := Some(row);
    }

    /** `on_selection_change()`: the first selected item in display order
        goes to the controller when it differs from the last one sent; an
        empty selection clears the code text and forgets the last one. */
    method OnSelectionChange()
      requires Valid()
      modifies this
      ensures tree.selected == {} ==>
                codeText == "" && lastSelectedItem == None && selectCalls == old(selectCalls)
      ensures tree.selected != {} ==>
                |tree.Selection()| > 0 && tree.Selection()[0] in tree.selected &&
                var first := tree.Selection()[0];
                && lastSelectedItem == Some(first)
                && codeText == old(codeText)
                && selectCalls == old(selectCalls) + if old(lastSelectedItem) == Some(first) then [] else [first]
      ensures lastClickedItem == old(lastClickedItem) && WindowState() == old(WindowState())
    {
      var current := tree.Selection();
      SelectionIsSelected(tree.items, tree.selected);
      if |current| > 0 {
        var item := current[0];
        assert item in tree.selected;
        if Some(item) != lastSelectedItem {
          lastSelectedItem := Some(item);
          selectCalls := selectCalls + [item];
        }
      } else {
        codeText := "";
        lastSelectedItem := None;
      }
    }

    /** `find_or_create_node(parent, title)`: the first child of `parent`
        titled `title`, or else a new last child with that title. */
    method FindOrCreateNode(parent: string, title: string) returns (iid: string)
      requires Valid() && (parent == "" || tree.Exists(parent))
      modifies tree
      ensures Valid() && tree.Exists(iid) && tree.Text(iid) == title
      ensures var found := FirstTitled(old(tree.items), old(tree.Children(parent)), title);
              found.Some? ==> iid == old(tree.Children(parent))[found.value] && tree.items == old(tree.items)
      ensures FirstTitled(old(tree.items), old(tree.Children(parent)), title).None? ==>
                && !old(tree.Exists(iid))
                && tree.items == old(tree.items) + [Item(iid, parent, title, [])]
                && tree.Children(parent) == old(tree.Children(parent)) + [iid]
      ensures tree.selected == old(tree.selected)
    {
      var cs := tree.Children(parent);
      var k := 0;
      while k < |cs|
        invariant 0 <= k <= |cs|
        invariant forall j :: 0 <= j < k ==> !Titled(tree.items, cs[j], title)
      {
        if tree.Text(cs[k]) == title {
          ChildExists(tree.items, parent, cs[k]);
          FirstTitledAt(tree.items, cs, title, k);
          return cs[k];
        }
        k := k + 1;
      }
      FirstTitledNone(tree.items, cs, title);
      ghost var before := tree.items;
      iid := tree.Insert(parent, title, []);
      ChildrenOfAppend(before, Item(iid, parent, title, []), parent);
      FindUnique(tree.items, |before|);
    }
  }

  /** A titled child with no titled child before it is the first one. */
  lemma FirstTitledAt(items: seq<Item>, cs: seq<string>, title: string, k: nat)
    requires k < |cs| && Titled(items, cs[k], title)
    requires forall j :: 0 <= j < k ==> !Titled(items, cs[j], title)
    ensures FirstTitled(items, cs, title) == Some(k)
  {
  }

  /** With no titled child there is no first one. */
  lemma FirstTitledNone(items: seq<Item>, cs: seq<string>, title: string)
    requires forall j :: 0 <= j < |cs| ==> !Titled(items, cs[j], title)
    ensures FirstTitled(items, cs, title).None?
  {
  }

  /** A child listed under `p` is an item. */
  lemma {:induction false} ChildExists(items: seq<Item>, p: string, c: string)
    requires c in ChildrenOf(items, p)
    ensures c in IidsOf(items)
  {
    if items[0].parent == p && items[0].iid == c {
    } else {
      ChildExists(items[1..], p, c);
      assert IidsOf(items[1..]) <= IidsOf(items) by {
        forall x | x in IidsOf(items[1..]) ensures x in IidsOf(items) {
          var i :| 0 <= i < |items[1..]| && items[1..][i].iid == x;
          assert items[i + 1].iid == x;
        }
      }
    }
  }
}
