/** The shopping-basket page: the list of items with their check boxes and
    quantities, the category tabs, the select-all toggle, clearing the checked
    items and the text shared for them.

    The page works on the items its script found when it loaded (`tracked`);
    items added later get their own quantity and check-box handlers but are
    invisible to the tabs, to select-all and to sharing, while clearing, which
    queries the page afresh, reaches them too. */
module ShoppingBasket {
  import opened Base
  import opened Text

  datatype BasketItem = BasketItem(
    name: string,
    description: string,
    category: string,
    quantity: nat,
    checked: bool,
    visible: bool,
    tracked: bool)

  /** The tab filter: `all` shows everything, any other tab its own category. */
  predicate Shows(tab: string, category: string) {
    tab == "all" || category == tab
  }

  /** An item the select-all button and the counts consider. */
  predicate Selectable(item: BasketItem) {
    item.tracked && item.visible
  }

  /** The number of visible, tracked check boxes. */
  function VisibleCount(items: seq<BasketItem>): (n: nat)
    ensures n <= |items|
    ensures n == |Filter(items, Selectable)|
  {
    if items == [] then 0 else (if Selectable(items[0]) then 1 else 0) + VisibleCount(items[1..])
  }

  function CheckedVisibleCount(items: seq<BasketItem>): (n: nat)
    ensures n <= VisibleCount(items)
  {
    if items == [] then 0
    else (if Selectable(items[0]) && items[0].checked then 1 else 0) + CheckedVisibleCount(items[1..])
  }

  /** The flag `updateSelectAllButton` computes. */
  predicate AllSelected(items: seq<BasketItem>) {
    CheckedVisibleCount(items) > 0 && CheckedVisibleCount(items) == VisibleCount(items)
  }

  /** The flag holds exactly when there is a visible item and every visible
      item is checked. */
  lemma {:induction false} AllSelectedMeans(items: seq<BasketItem>)
    ensures AllSelected(items) <==>
      (exists i | 0 <= i < |items| :: Selectable(items[i])) &&
      (forall i | 0 <= i < |items| && Selectable(items[i]) :: items[i].checked)
  {
    CountsZero(items);
    CountsEqual(items);
  }

  // Helper for AllSelectedMeans: no visible item means a zero count.
  lemma {:induction false} CountsZero(items: seq<BasketItem>)
    ensures VisibleCount(items) == 0 <==> forall i | 0 <= i < |items| :: !Selectable(items[i])
  {
    if items != [] {
      CountsZero(items[1..]);
      assert forall i | 1 <= i < |items| :: items[i] == items[1..][i - 1];
    }
  }

  // Helper for AllSelectedMeans: the counts agree exactly when every visible item is checked.
  lemma {:induction false} CountsEqual(items: seq<BasketItem>)
    ensures CheckedVisibleCount(items) == VisibleCount(items) <==>
      forall i | 0 <= i < |items| && Selectable(items[i]) :: items[i].checked
  {
    if items != [] {
      CountsEqual(items[1..]);
      assert forall i | 1 <= i < |items| :: items[i] == items[1..][i - 1];
    }
  }

  /** Every tracked item shown or hidden for the tab; others untouched. */
  function Filtered(items: seq<BasketItem>, tab: string): (r: seq<BasketItem>)
    ensures |r| == |items|
  {
    seq(|items|, i requires 0 <= i < |items| =>
      if items[i].tracked then items[i].(visible := Shows(tab, items[i].category)) else items[i])
  }

  /** Every visible tracked item set to `checked`; others untouched. */
  function VisibleSetTo(items: seq<BasketItem>, checked: bool): (r: seq<BasketItem>)
    ensures |r| == |items|
  {
    seq(|items|, i requires 0 <= i < |items| =>
      if Selectable(items[i]) then items[i].(checked := checked) else items[i])
  }

  /** Every checked item unchecked with its quantity back at 1. */
  function Cleared(items: seq<BasketItem>): (r: seq<BasketItem>)
    ensures |r| == |items|
  {
    seq(|items|, i requires 0 <= i < |items| =>
      if items[i].checked then items[i].(checked := false, quantity := 1) else items[i])
  }

  predicate AnyChecked(items: seq<BasketItem>) {
    exists i | 0 <= i < |items| :: items[i].checked
  }

  /** After a tab is chosen, a tracked item is visible exactly when the tab shows
      its category; nothing but visibility changes. */
  lemma FilteredShows(items: seq<BasketItem>, tab: string)
    ensures forall i | 0 <= i < |items| && items[i].tracked ::
      Filtered(items, tab)[i].visible <==> Shows(tab, items[i].category)
    ensures forall i | 0 <= i < |items| :: Filtered(items, tab)[i].(visible := items[i].visible) == items[i]
  {
  }

  /** Select-all's own flag agrees with the recomputed one whenever something is
      visible: after selecting, all visible items are checked, after deselecting
      none is. */
  lemma {:induction false} SelectAllAgrees(items: seq<BasketItem>, checked: bool)
    requires exists i | 0 <= i < |items| :: Selectable(items[i])
    ensures AllSelected(VisibleSetTo(items, checked)) == checked
  {
    var r := VisibleSetTo(items, checked);
    assert forall i | 0 <= i < |items| :: Selectable(r[i]) == Selectable(items[i]);
    AllSelectedMeans(r);
    if !checked {
      var i :| 0 <= i < |items| && Selectable(items[i]);
      assert Selectable(r[i]) && !r[i].checked;
    }
  }

  /** With nothing visible, select-all still raises its flag, which the
      recomputed flag never shows. */
  lemma SelectAllOnEmptyView(items: seq<BasketItem>)
    requires forall i | 0 <= i < |items| :: !Selectable(items[i])
    ensures !AllSelected(VisibleSetTo(items, true))
  {
    var r := VisibleSetTo(items, true);
    assert forall i | 0 <= i < |items| :: !Selectable(r[i]);
    CountsZero(r);
  }

  /** Clearing leaves nothing checked, and touches checked items only. */
  lemma ClearedUnchecks(items: seq<BasketItem>)
    ensures !AnyChecked(Cleared(items))
    ensures forall i | 0 <= i < |items| && !items[i].checked :: Cleared(items)[i] == items[i]
    ensures forall i | 0 <= i < |items| && items[i].checked :: Cleared(items)[i].quantity == 1
  {
  }

  /** Clearing twice is clearing once. */
  lemma ClearedIdempotent(items: seq<BasketItem>)
    ensures Cleared(Cleared(items)) == Cleared(items)
  {
  }

  // ---------------------------------------------------------------- quantities

  /** One click on plus or minus: minus only above 0; reaching 0 unchecks. */
  function Bumped(item: BasketItem, plus: bool): (r: BasketItem)
    ensures plus ==> r.quantity == item.quantity + 1
    ensures !plus ==> r.quantity == if item.quantity > 0 then item.quantity - 1 else 0
    ensures r.checked == (item.checked && r.quantity != 0)
    ensures r.(quantity := item.quantity, checked := item.checked) == item
  {
    var q := if plus then item.quantity + 1 else if item.quantity > 0 then item.quantity - 1 else item.quantity;
    if q == 0 then item.(quantity := q, checked := false) else item.(quantity := q)
  }

  /** Minus after plus restores the item, unless it was a checked item at 0,
      which the return to 0 unchecks. */
  lemma MinusUndoesPlus(item: BasketItem)
    requires item.quantity > 0 || !item.checked
    ensures Bumped(Bumped(item, true), false) == item
  {
  }

  /** Plus after a minus that did not reach 0 restores the item. */
  lemma PlusUndoesMinus(item: BasketItem)
    requires item.quantity > 1
    ensures Bumped(Bumped(item, false), true) == item
  {
  }

  // --------------------------------------------------------------------- share

  const ShareHeader: string := "📝 我的购菜清单：\n\n"
  const ShareFooter: string := "\n🍳 来自 ChefMate 应用"

  /** The line for the n-th shared item. */
  function ShareLine(n: nat, item: BasketItem): string {
    NatToString(n) + ". " + item.name + " - " + item.description + " × " + NatToString(item.quantity) + "\n"
  }

  /** The lines for `items`, numbered from `n`. */
  function ShareLines(items: seq<BasketItem>, n: nat): string {
    if items == [] then "" else ShareLine(n, items[0]) + ShareLines(items[1..], n + 1)
  }

  /** The tracked items that are checked, in page order (hidden ones included). */
  function SharedItems(items: seq<BasketItem>): (r: seq<BasketItem>)
    ensures |r| <= |items|
    ensures forall k | 0 <= k < |r| :: r[k] in items && r[k].tracked && r[k].checked
    ensures forall i | 0 <= i < |items| :: items[i].tracked && items[i].checked ==> items[i] in r
  {
    if items == [] then []
    else
      var rest := SharedItems(items[..|items| - 1]);
      var last := items[|items| - 1];
      assert forall i | 0 <= i < |items| - 1 :: items[i] == items[..|items| - 1][i];
      if last.tracked && last.checked then rest + [last] else rest
  }

  /** Lines for a list split in two: the second part's numbers continue the first's. */
  lemma {:induction false} ShareLinesAppend(a: seq<BasketItem>, b: seq<BasketItem>, n: nat)
    ensures ShareLines(a + b, n) == ShareLines(a, n) + ShareLines(b, n + |a|)
  {
    if a == [] {
      assert a + b == b;
    } else {
      ShareLinesAppend(a[1..], b, n + 1);
      ShareLinesUnfold(a, b, n);
      Regroup(ShareLines(a + b, n), ShareLine(n, a[0]), ShareLines(a[1..] + b, n + 1),
              ShareLines(a[1..], n + 1), ShareLines(b, n + |a|), ShareLines(a, n));
    }
  }

  // Helper for ShareLinesAppend: one unfolding at the front of a + b.
  lemma ShareLinesUnfold(a: seq<BasketItem>, b: seq<BasketItem>, n: nat)
    requires a != []
    ensures ShareLines(a + b, n) == ShareLine(n, a[0]) + ShareLines(a[1..] + b, n + 1)
  {
    assert (a + b)[1..] == a[1..] + b;
    assert (a + b)[0] == a[0];
  }

  // Helper for BuildShareText: the lines of a list with one more item.
  lemma ShareLinesSnoc(s: seq<BasketItem>, x: BasketItem, n: nat)
    ensures ShareLines(s + [x], n) == ShareLines(s, n) + ShareLine(n + |s|, x)
  {
    ShareLinesAppend(s, [x], n);
    assert ShareLines([x], n + |s|) == ShareLine(n + |s|, x) + ShareLines([], n + |s| + 1);
  }

  /** The shared text is the header, one line per shared item, then the footer. */
  function ShareText(items: seq<BasketItem>): string {
    ShareHeader + ShareLines(SharedItems(items), 1) + ShareFooter
  }

  /** Clearing leaves nothing to share. */
  lemma NothingSharedAfterClear(items: seq<BasketItem>)
    ensures SharedItems(Cleared(items)) == []
  {
    ClearedUnchecks(items);
    NoneCheckedNoneShared(Cleared(items));
  }

  // Helper for NothingSharedAfterClear.
  lemma {:induction false} NoneCheckedNoneShared(items: seq<BasketItem>)
    requires !AnyChecked(items)
    ensures SharedItems(items) == []
  {
    if items != [] {
      var p := items[..|items| - 1];
      assert !AnyChecked(p) by {
        assert forall i | 0 <= i < |p| :: p[i] == items[i];
      }
      NoneCheckedNoneShared(p);
      assert !items[|items| - 1].checked;
    }
  }

  // ------------------------------------------------------------------ the page

  class BasketPage {
    var items: seq<BasketItem>
    var isAllSelected: bool

    /** The page as loaded: every item is tracked; the active tab is applied. */
    constructor(initial: seq<BasketItem>, activeTab: string)
      requires forall i | 0 <= i < |initial| :: initial[i].tracked
      ensures items == Filtered(initial, activeTab)
      ensures isAllSelected == AllSelected(items)
    {
      items := Filtered(initial, activeTab);
      isAllSelected := AllSelected(Filtered(initial, activeTab));
    }

    /** `updateSelectAllButton`. */
    method UpdateSelectAllButton()
      modifies this
      ensures items == old(items)
      ensures isAllSelected <==> CheckedVisibleCount(items) > 0 && CheckedVisibleCount(items) == VisibleCount(items)
    {
      var visible := VisibleCount(items);
      var checkedCount := CheckedVisibleCount(items);
      if checkedCount == 0 {
        isAllSelected := false;
      } else if checkedCount == visible {
        isAllSelected := true;
      } else {
        isAllSelected := false;
      }
    }

    /** A tab was chosen: each tracked item shown or hidden, then the flag recomputed. */
    method SelectCategory(tab: string)
      modifies this
      ensures items == Filtered(old(items), tab)
      ensures isAllSelected == AllSelected(items)
    {
      var i := 0;
      while i < |items|
        invariant 0 <= i <= |items| && |items| == |old(items)|
        invariant forall j | 0 <= j < i :: items[j] == Filtered(old(items), tab)[j]
        invariant forall j | i <= j < |items| :: items[j] == old(items)[j]
      {
        if items[i].tracked {
          items := items[i := items[i].(visible := Shows(tab, items[i].category))];
        }
        i := i + 1;
      }
      UpdateSelectAllButton();
    }

    /** A click on plus or minus of item `index`; the flag is left as it was. */
    method ChangeQuantity(index: int, plus: bool)
      requires 0 <= index < |items|
      modifies this
      ensures items == old(items)[index := Bumped(old(items)[index], plus)]
      ensures isAllSelected == old(isAllSelected)
    {
      var currentQuantity := items[index].quantity;
      if plus {
        currentQuantity := currentQuantity + 1;
      } else if currentQuantity > 0 {
        currentQuantity := currentQuantity - 1;
      }
      items := items[index := items[index].(quantity := currentQuantity)];
      if currentQuantity == 0 {
        items := items[index := items[index].(checked := false)];
      }
    }

    /** The user ticked or unticked item `index`; the flag is recomputed. */
    method SetChecked(index: int, checked: bool)
      requires 0 <= index < |items|
      modifies this
      ensures items == old(items)[index := old(items)[index].(checked := checked)]
      ensures isAllSelected == AllSelected(items)
    {
      items := items[index := items[index].(checked := checked)];
      UpdateSelectAllButton();
    }

    /** The select-all button: every visible tracked item takes the negation of
        the flag, then the flag flips. */
    method SelectAll()
      modifies this
      ensures items == VisibleSetTo(old(items), !old(isAllSelected))
      ensures isAllSelected == !old(isAllSelected)
    {
      var target := !isAllSelected;
      var i := 0;
      while i < |items|
        invariant 0 <= i <= |items| && |items| == |old(items)|
        invariant forall j | 0 <= j < i :: items[j] == VisibleSetTo(old(items), target)[j]
        invariant forall j | i <= j < |items| :: items[j] == old(items)[j]
      {
        if Selectable(items[i]) {
          items := items[i := items[i].(checked := target)];
        }
        i := i + 1;
      }
      isAllSelected := target;
    }

    /** The clear button: nothing when no item is checked or the user declines;
        otherwise every checked item (tracked or not) is unchecked and reset to 1. */
    method ClearSelected(confirmed: bool)
      modifies this
      ensures items == if AnyChecked(old(items)) && confirmed then Cleared(old(items)) else old(items)
      ensures isAllSelected == old(isAllSelected)
    {
      if !(exists i | 0 <= i < |items| :: items[i].checked) || !confirmed {
        return;
      }
      var i := 0;
      while i < |items|
        invariant 0 <= i <= |items| && |items| == |old(items)|
        invariant forall j | 0 <= j < i :: items[j] == Cleared(old(items))[j]
        invariant isAllSelected == old(isAllSelected)
        invariant forall j | i <= j < |items| :: items[j] == old(items)[j]
      {
        if items[i].checked {
          items := items[i := items[i].(checked := false, quantity := 1)];
        }
        i := i + 1;
      }
    }

    /** The share button: refused when no tracked item is checked, otherwise
        the text listing them. */
    method Share() returns (text: Option<string>)
      ensures SharedItems(items) == [] ==> text.None?
      ensures SharedItems(items) != [] ==> text == Some(ShareText(items))
    {
      var checkedItems: seq<BasketItem> := [];
      var i := 0;
      while i < |items|
        invariant 0 <= i <= |items|
        invariant checkedItems == SharedItems(items[..i])
      {
        assert items[..i + 1][..i] == items[..i];
        if items[i].tracked && items[i].checked {
          checkedItems := checkedItems + [items[i]];
        }
        i := i + 1;
      }
      assert items[..i] == items;
      if |checkedItems| == 0 {
        return None;
      }
      var shareText := BuildShareText(checkedItems);
      return Some(shareText);
    }

    /** The add button with the prompt's answer (`None` when cancelled): a
        non-blank name is appended, trimmed, as a custom, unchecked item of
        quantity 1 in category `all`, which the page's own lists never pick up. */
    method AddItem(answer: Option<string>)
      modifies this
      ensures answer.Some? && Trim(answer.value, Js) != "" ==>
        items == old(items) + [BasketItem(Trim(answer.value, Js), "自定义添加", "all", 1, false, true, false)]
      ensures answer.None? || Trim(answer.value, Js) == "" ==> items == old(items)
      ensures isAllSelected == old(isAllSelected)
    {
      if answer.Some? && answer.value != "" && Trim(answer.value, Js) != "" {
        items := items + [BasketItem(Trim(answer.value, Js), "自定义添加", "all", 1, false, true, false)];
      }
    }
  }

  // Helper for BuildShareText: the text so far after one more line.
  lemma ShareTextStep(items: seq<BasketItem>, k: nat)
    requires k < |items|
    ensures ShareHeader + ShareLines(items[..k + 1], 1) == ShareHeader + ShareLines(items[..k], 1) + ShareLine(k + 1, items[k])
  {
    assert items[..k + 1] == items[..k] + [items[k]];
    ShareLinesSnoc(items[..k], items[k], 1);
  }

  /** The text for the given items: the header, the numbered lines, the footer. */
  method BuildShareText(checkedItems: seq<BasketItem>) returns (shareText: string)
    ensures shareText == ShareHeader + ShareLines(checkedItems, 1) + ShareFooter
  {
    shareText := ShareHeader;
    var k := 0;
    while k < |checkedItems|
      invariant 0 <= k <= |checkedItems|
      invariant shareText == ShareHeader + ShareLines(checkedItems[..k], 1)
    {
      ShareTextStep(checkedItems, k);
      shareText := shareText + ShareLine(k + 1, checkedItems[k]);
      k := k + 1;
    }
    assert checkedItems[..k] == checkedItems;
    shareText := shareText + ShareFooter;
  }

  /** An added item changes neither the counts nor the shared text. */
  lemma {:induction false} UntrackedIsIgnored(items: seq<BasketItem>, extra: BasketItem)
    requires !extra.tracked
    ensures VisibleCount(items + [extra]) == VisibleCount(items)
    ensures CheckedVisibleCount(items + [extra]) == CheckedVisibleCount(items)
    ensures SharedItems(items + [extra]) == SharedItems(items)
  {
    assert (items + [extra])[..|items|] == items;
    CountsAppend(items, extra);
  }

  // Helper for UntrackedIsIgnored: counting over a list with one more item.
  lemma {:induction false} CountsAppend(items: seq<BasketItem>, extra: BasketItem)
    ensures VisibleCount(items + [extra]) == VisibleCount(items) + (if Selectable(extra) then 1 else 0)
    ensures CheckedVisibleCount(items + [extra]) ==
      CheckedVisibleCount(items) + (if Selectable(extra) && extra.checked then 1 else 0)
  {
    if items != [] {
      CountsAppend(items[1..], extra);
      assert (items + [extra])[1..] == items[1..] + [extra];
    }
  }
}
