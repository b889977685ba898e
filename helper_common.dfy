/**
 * List helpers shared by the smart-editor screens: membership in a constant
 * list, the search-form filter, and the four chevron buttons that move the
 * checked rows of a list up or down.
 */
module HelperCommon {
  import opened JsCore

  /** `_isContains(value, arr)`: `arr.some(v => v === value)`. */
  function IsContains<T(==)>(value: T, arr: seq<T>): (r: bool)
    ensures r <==> value in arr
  {
    if arr == [] then false
    else arr[0] == value || IsContains(value, arr[1..])
  }

  // ---------------------------------------------------------------------------
  // Search form

  /** A list row as the filter sees it: field name to text. */
  type Row = map<string, string>

  /** Whether one row passes the filter. With a search field the row's value for
      that field must contain the text; without one, some non-empty option key's
      value must. Reading a field the row lacks throws (`undefined.includes`),
      which is `None`. */
  function RowMatches(field: string, keys: seq<string>, text: string, row: Row): (r: Option<bool>)
    ensures field != "" ==> (r.None? <==> field !in row)
    ensures field != "" && field in row ==> r == Some(Contains(row[field], text))
    ensures field == "" && r == Some(true) ==>
      exists i :: 0 <= i < |keys| && keys[i] != "" && keys[i] in row && Contains(row[keys[i]], text)
    ensures field == "" && r == Some(false) ==>
      forall i :: 0 <= i < |keys| && keys[i] != "" ==> keys[i] in row && !Contains(row[keys[i]], text)
    ensures field == "" && r.None? ==> exists i :: 0 <= i < |keys| && keys[i] != "" && keys[i] !in row
  {
    if field != "" then
      if field in row then Some(Contains(row[field], text)) else None
    else AnyKeyMatches(keys, text, row)
  }

  /** The `for` loop over the option keys, which stops at the first match. */
  function AnyKeyMatches(keys: seq<string>, text: string, row: Row): (r: Option<bool>)
    ensures r == Some(true) ==>
      exists i :: 0 <= i < |keys| && keys[i] != "" && keys[i] in row && Contains(row[keys[i]], text)
    ensures r == Some(false) ==>
      forall i :: 0 <= i < |keys| && keys[i] != "" ==> keys[i] in row && !Contains(row[keys[i]], text)
    ensures r.None? ==> exists i :: 0 <= i < |keys| && keys[i] != "" && keys[i] !in row
  {
    if keys == [] then Some(false)
    else if keys[0] == "" then
      var r := AnyKeyMatches(keys[1..], text, row);
      assert forall i :: 1 <= i < |keys| ==> keys[i] == keys[1..][i - 1];
      r
    else if keys[0] !in row then None
    else if Contains(row[keys[0]], text) then Some(true)
    else
      var r := AnyKeyMatches(keys[1..], text, row);
      assert forall i :: 1 <= i < |keys| ==> keys[i] == keys[1..][i - 1];
      r
  }

  /** `onFilter(items)`: the rows that pass, in their order; `None` when a row
      makes the filter throw. */
  function OnFilter(field: string, keys: seq<string>, text: string, items: seq<Row>): (r: Option<seq<Row>>)
    ensures r.Some? <==> forall i :: 0 <= i < |items| ==> RowMatches(field, keys, text, items[i]).Some?
    ensures r.Some? ==> |r.value| <= |items|
    ensures r.Some? ==> forall row :: row in r.value ==> row in items && RowMatches(field, keys, text, row) == Some(true)
    ensures r.Some? ==> forall i :: 0 <= i < |items| && RowMatches(field, keys, text, items[i]) == Some(true) ==> items[i] in r.value
  {
    if items == [] then Some([])
    else
      var head := RowMatches(field, keys, text, items[0]);
      var rest := OnFilter(field, keys, text, items[1..]);
      assert forall i :: 1 <= i < |items| ==> items[i] == items[1..][i - 1];
      if head.None? || rest.None? then None
      else Some(if head.value then [items[0]] + rest.value else rest.value)
  }

  /** One row is kept when it matches, dropped when it does not, and makes
      the whole filter throw when a field it needs is missing. */
  lemma OnFilterSingle(field: string, keys: seq<string>, text: string, row: Row)
    ensures OnFilter(field, keys, text, [row]) ==
      match RowMatches(field, keys, text, row)
      case None => None
      case Some(true) => Some([row])
      case Some(false) => Some([])
  {
    assert [row][1..] == [] && [row] + [] == [row];
    assert OnFilter(field, keys, text, [row][1..]) == Some([]);
  }

  /** The filter works row by row: filtering a concatenation concatenates the
      results in order, and throws when either part throws. */
  lemma {:induction false} OnFilterAppend(field: string, keys: seq<string>, text: string, a: seq<Row>, b: seq<Row>)
    ensures var ra, rb := OnFilter(field, keys, text, a), OnFilter(field, keys, text, b);
      OnFilter(field, keys, text, a + b) == if ra.Some? && rb.Some? then Some(ra.value + rb.value) else None
    decreases |a|
  {
    if a == [] {
      assert a + b == b;
      var rb := OnFilter(field, keys, text, b);
      if rb.Some? {
        assert [] + rb.value == rb.value;
      }
    } else {
      assert (a + b)[0] == a[0] && (a + b)[1..] == a[1..] + b;
      OnFilterAppend(field, keys, text, a[1..], b);
      var ra', rb := OnFilter(field, keys, text, a[1..]), OnFilter(field, keys, text, b);
      if ra'.Some? && rb.Some? {
        assert [a[0]] + (ra'.value + rb.value) == ([a[0]] + ra'.value) + rb.value;
      }
    }
  }

  // ---------------------------------------------------------------------------
  // Chevron buttons

  /** A row with a check box. */
  datatype CombineItem = CombineItem(checked: bool, value: string)

  /** The rows whose check box is `checked`, in their order (`filter`). */
  function Picked(s: seq<CombineItem>, checked: bool): (r: seq<CombineItem>)
    ensures |r| <= |s|
  {
    if s == [] then [] else (if s[0].checked == checked then [s[0]] else []) + Picked(s[1..], checked)
  }

  lemma {:induction false} PickedAppend(a: seq<CombineItem>, b: seq<CombineItem>, checked: bool)
    ensures Picked(a + b, checked) == Picked(a, checked) + Picked(b, checked)
  {
    if a != [] {
      assert (a + b)[0] == a[0];
      assert (a + b)[1..] == a[1..] + b;
      PickedAppend(a[1..], b, checked);
      var h := if a[0].checked == checked then [a[0]] else [];
      assert Picked(a + b, checked) == h + (Picked(a[1..], checked) + Picked(b, checked));
      assert h + (Picked(a[1..], checked) + Picked(b, checked)) == (h + Picked(a[1..], checked)) + Picked(b, checked);
    } else {
      assert a + b == b;
    }
  }

  /** Picking twice changes nothing; picking the other state gives nothing. */
  lemma {:induction false} PickedPicked(s: seq<CombineItem>, checked: bool)
    ensures Picked(Picked(s, checked), checked) == Picked(s, checked)
    ensures Picked(Picked(s, checked), !checked) == []
  {
    if s != [] {
      PickedPicked(s[1..], checked);
      PickedAppend(if s[0].checked == checked then [s[0]] else [], Picked(s[1..], checked), checked);
      PickedAppend(if s[0].checked == checked then [s[0]] else [], Picked(s[1..], checked), !checked);
    }
  }

  lemma {:induction false} PickedSplits(s: seq<CombineItem>)
    ensures multiset(Picked(s, false)) + multiset(Picked(s, true)) == multiset(s)
  {
    if s != [] {
      PickedSplits(s[1..]);
      assert s == [s[0]] + s[1..];
      var h := [s[0]];
      assert Picked(s, s[0].checked) == h + Picked(s[1..], s[0].checked);
      assert Picked(s, !s[0].checked) == Picked(s[1..], !s[0].checked);
      assert multiset(s) == multiset(h) + multiset(s[1..]);
    }
  }

  /** Both classes keep their members and their relative order. */
  ghost predicate KeepsClasses(s: seq<CombineItem>, r: seq<CombineItem>)
  {
    Picked(r, true) == Picked(s, true) && Picked(r, false) == Picked(s, false)
  }

  /** Keeping both classes makes the result a rearrangement of the rows. */
  lemma KeepsClassesPermutes(s: seq<CombineItem>, r: seq<CombineItem>)
    requires KeepsClasses(s, r)
    ensures multiset(r) == multiset(s) && |r| == |s|
  {
    PickedSplits(s);
    PickedSplits(r);
    assert |multiset(r)| == |multiset(s)|;
  }

  /** clickDoubbleDown: unchecked rows first, then the checked ones. */
  function AllDown(s: seq<CombineItem>): seq<CombineItem>
  {
    Picked(s, false) + Picked(s, true)
  }

  /** clickDoubbleUp: checked rows first, then the unchecked ones. */
  function AllUp(s: seq<CombineItem>): seq<CombineItem>
  {
    Picked(s, true) + Picked(s, false)
  }

  lemma AllDownKeepsClasses(s: seq<CombineItem>)
    ensures KeepsClasses(s, AllDown(s))
    ensures multiset(AllDown(s)) == multiset(s)
  {
    PickedAppend(Picked(s, false), Picked(s, true), true);
    PickedAppend(Picked(s, false), Picked(s, true), false);
    PickedPicked(s, true);
    PickedPicked(s, false);
    KeepsClassesPermutes(s, AllDown(s));
  }

  lemma AllUpKeepsClasses(s: seq<CombineItem>)
    ensures KeepsClasses(s, AllUp(s))
    ensures multiset(AllUp(s)) == multiset(s)
  {
    PickedAppend(Picked(s, true), Picked(s, false), true);
    PickedAppend(Picked(s, true), Picked(s, false), false);
    PickedPicked(s, true);
    PickedPicked(s, false);
    KeepsClassesPermutes(s, AllUp(s));
  }

  /** Pressing double-down twice is the same as pressing it once. */
  lemma AllDownIdempotent(s: seq<CombineItem>)
    ensures AllDown(AllDown(s)) == AllDown(s)
  {
    AllDownKeepsClasses(s);
  }

  /** `_combineItem(items, start, to)`: the row at `start` is spliced out and
      back in at `to`, unless `to` is outside the list or a checked row. */
  function Combine(s: seq<CombineItem>, start: nat, to: int): (r: seq<CombineItem>)
    requires start < |s|
    ensures |r| == |s|
  {
    if to < 0 || to >= |s| || s[to].checked then s
    else InsertAt(RemoveAt(s, start), to, s[start])
  }

  /** A target outside the list, or a checked target row, leaves the rows as they were. */
  lemma CombineBlocked(s: seq<CombineItem>, start: nat, to: int)
    requires start < |s| && (to < 0 || to >= |s| || s[to].checked)
    ensures Combine(s, start, to) == s
  {
  }

  /** Combining with a neighbour swaps the two rows. */
  lemma CombineNext(s: seq<CombineItem>, k: nat)
    requires k + 1 < |s| && !s[k + 1].checked
    ensures Combine(s, k, k + 1) == s[k := s[k + 1]][k + 1 := s[k]]
  {
    var t := RemoveAt(s, k);
    assert t == s[..k] + s[k + 1..];
  }

  lemma CombinePrevious(s: seq<CombineItem>, k: nat)
    requires 1 <= k < |s| && !s[k - 1].checked
    ensures Combine(s, k, k - 1) == s[k - 1 := s[k]][k := s[k - 1]]
  {
    MoveBack(s, k);
  }

  lemma MoveBack<T>(s: seq<T>, k: nat)
    requires 1 <= k < |s|
    ensures InsertAt(RemoveAt(s, k), k - 1, s[k]) == s[k - 1 := s[k]][k := s[k - 1]]
  {
    var t := s[..k] + s[k + 1..];
    assert RemoveAt(s, k) == t;
    var r := t[..k - 1] + [s[k]] + t[k - 1..];
    assert InsertAt(t, k - 1, s[k]) == r;
    var w := s[k - 1 := s[k]][k := s[k - 1]];
    assert |r| == |w|;
    forall i | 0 <= i < |r|
      ensures r[i] == w[i]
    {
      if i < k - 1 {
        assert r[i] == t[i] == s[i];
      } else if i == k - 1 {
      } else {
        assert r[i] == t[i - 1];
      }
    }
  }

  lemma PickedPairSwap(a: seq<CombineItem>, x: CombineItem, y: CombineItem, c: seq<CombineItem>, b: bool)
    requires x.checked != y.checked
    ensures Picked(a + [x, y] + c, b) == Picked(a + [y, x] + c, b)
  {
    PickedAppend(a + [x, y], c, b);
    PickedAppend(a, [x, y], b);
    PickedAppend(a + [y, x], c, b);
    PickedAppend(a, [y, x], b);
    PickedPair(x, y, b);
  }

  lemma PickedPair(x: CombineItem, y: CombineItem, b: bool)
    requires x.checked != y.checked
    ensures Picked([x, y], b) == Picked([y, x], b)
  {
    assert [x, y][1..] == [y];
    assert [y, x][1..] == [x];
    assert [x][1..] == [] && [y][1..] == [];
  }

  /** Swapping a checked row with an unchecked neighbour keeps both classes. */
  lemma SwapKeepsClasses(s: seq<CombineItem>, k: nat)
    requires k + 1 < |s| && s[k].checked != s[k + 1].checked
    ensures KeepsClasses(s, s[k := s[k + 1]][k + 1 := s[k]])
  {
    var r := s[k := s[k + 1]][k + 1 := s[k]];
    assert s == s[..k] + [s[k], s[k + 1]] + s[k + 2..];
    assert r == s[..k] + [s[k + 1], s[k]] + s[k + 2..];
    PickedPairSwap(s[..k], s[k], s[k + 1], s[k + 2..], true);
    PickedPairSwap(s[..k], s[k], s[k + 1], s[k + 2..], false);
  }

  lemma CombineDownKeeps(s: seq<CombineItem>, k: nat)
    requires k < |s| && s[k].checked
    ensures KeepsClasses(s, Combine(s, k, k + 1))
  {
    if k + 1 < |s| && !s[k + 1].checked {
      CombineNext(s, k);
      SwapKeepsClasses(s, k);
    }
  }

  lemma CombineUpKeeps(s: seq<CombineItem>, k: nat)
    requires k < |s| && s[k].checked
    ensures KeepsClasses(s, Combine(s, k, k - 1))
  {
    if k >= 1 && !s[k - 1].checked {
      CombinePrevious(s, k);
      SwapKeepsClasses(s, k - 1);
    }
  }

  /** One step of clickDown's loop at `index`. */
  function DownStep(s: seq<CombineItem>, index: nat): (r: seq<CombineItem>)
    requires index < |s|
    ensures |r| == |s|
  {
    if !s[index].checked then s else Combine(s, index, index + 1)
  }

  /** One step of clickUp's loop at `index`. */
  function UpStep(s: seq<CombineItem>, index: nat): (r: seq<CombineItem>)
    requires index < |s|
    ensures |r| == |s|
  {
    if !s[index].checked then s else Combine(s, index, index - 1)
  }

  /** clickDown's loop over positions `i - 1` down to 0. */
  function DownPass(s: seq<CombineItem>, i: nat): (r: seq<CombineItem>)
    requires i <= |s|
    ensures |r| == |s|
    decreases i
  {
    if i == 0 then s else DownPass(DownStep(s, i - 1), i - 1)
  }

  /** clickUp's loop over positions `i` up to the last. */
  function UpPass(s: seq<CombineItem>, i: nat): (r: seq<CombineItem>)
    requires i <= |s|
    ensures |r| == |s|
    decreases |s| - i
  {
    if i == |s| then s else UpPass(UpStep(s, i), i + 1)
  }

  /** clickDown only swaps checked rows with unchecked ones: both classes keep
      their members and order. */
  lemma {:induction false} DownPassKeepsClasses(s: seq<CombineItem>, i: nat)
    requires i <= |s|
    ensures KeepsClasses(s, DownPass(s, i))
    decreases i
  {
    if i > 0 {
      if s[i - 1].checked {
        CombineDownKeeps(s, i - 1);
      }
      DownPassKeepsClasses(DownStep(s, i - 1), i - 1);
    }
  }

  lemma {:induction false} UpPassKeepsClasses(s: seq<CombineItem>, i: nat)
    requires i <= |s|
    ensures KeepsClasses(s, UpPass(s, i))
    decreases |s| - i
  {
    if i < |s| {
      if s[i].checked {
        CombineUpKeeps(s, i);
      }
      UpPassKeepsClasses(UpStep(s, i), i + 1);
    }
  }

  lemma SwapFirstTwo<T>(a: T, b: T, x: T)
    ensures [a, b, x][0 := b][1 := a] == [b, a, x]
  {
  }

  lemma SwapLastTwo<T>(a: T, b: T, x: T)
    ensures [a, b, x][1 := x][2 := b] == [a, x, b]
  {
  }

  /** A checked row above an unchecked one trades places with it. */
  lemma DownStepSwaps(s: seq<CombineItem>, k: nat)
    requires k + 1 < |s| && s[k].checked && !s[k + 1].checked
    ensures DownStep(s, k) == s[k := s[k + 1]][k + 1 := s[k]]
  {
    CombineNext(s, k);
  }

  /** An unchecked row, the last row, or a checked row above a checked one stays put. */
  lemma DownStepStays(s: seq<CombineItem>, k: nat)
    requires k < |s| && (!s[k].checked || k + 1 == |s| || s[k + 1].checked)
    ensures DownStep(s, k) == s
  {
  }

  /** An unchecked row, the first row, or a checked row below a checked one stays put. */
  lemma UpStepStays(s: seq<CombineItem>, k: nat)
    requires k < |s| && (!s[k].checked || k == 0 || s[k - 1].checked)
    ensures UpStep(s, k) == s
  {
  }

  /** A checked row below an unchecked one trades places with it. */
  lemma UpStepSwaps(s: seq<CombineItem>, k: nat)
    requires 1 <= k < |s| && s[k].checked && !s[k - 1].checked
    ensures UpStep(s, k) == s[k - 1 := s[k]][k := s[k - 1]]
  {
    CombinePrevious(s, k);
  }

  /** A run of checked rows moves down past the unchecked row below it as a block. */
  lemma DownMovesBlock(c: CombineItem, u: CombineItem)
    requires c.checked && !u.checked
    ensures DownPass([c, c, u], 3) == [u, c, c]
  {
    DownFirstSwap(c, u);
    DownSecondSwap(c, u);
    assert DownPass([c, u, c], 1) == DownPass([u, c, c], 0);
    assert DownPass([c, c, u], 2) == DownPass([c, u, c], 1);
    assert DownStep([c, c, u], 2) == [c, c, u];
  }

  lemma DownFirstSwap(c: CombineItem, u: CombineItem)
    requires c.checked && !u.checked
    ensures DownStep([c, c, u], 1) == [c, u, c]
  {
    DownStepSwaps([c, c, u], 1);
    SwapLastTwo(c, c, u);
  }

  lemma DownSecondSwap(c: CombineItem, u: CombineItem)
    requires c.checked && !u.checked
    ensures DownStep([c, u, c], 0) == [u, c, c]
  {
    DownStepSwaps([c, u, c], 0);
    SwapFirstTwo(c, u, c);
  }

  /** A run of checked rows moves up past the unchecked row above it as a block. */
  lemma UpMovesBlock(c: CombineItem, u: CombineItem)
    requires c.checked && !u.checked
    ensures UpPass([u, c, c], 0) == [c, c, u]
  {
    UpFirstSwap(c, u);
    UpSecondSwap(c, u);
    assert UpPass([c, u, c], 2) == UpPass([c, c, u], 3);
    assert UpPass([u, c, c], 1) == UpPass([c, u, c], 2);
    assert UpStep([u, c, c], 0) == [u, c, c];
  }

  lemma UpFirstSwap(c: CombineItem, u: CombineItem)
    requires c.checked && !u.checked
    ensures UpStep([u, c, c], 1) == [c, u, c]
  {
    UpStepSwaps([u, c, c], 1);
    SwapFirstTwo(u, c, c);
  }

  lemma UpSecondSwap(c: CombineItem, u: CombineItem)
    requires c.checked && !u.checked
    ensures UpStep([c, u, c], 2) == [c, c, u]
  {
    UpStepSwaps([c, u, c], 2);
    SwapLastTwo(c, u, c);
  }

  /** `items.splice(0, items.length, ...res)` */
  method WriteBack(items: array<CombineItem>, res: seq<CombineItem>)
    requires |res| == items.Length
    modifies items
    ensures items[..] == res
  {
    forall i | 0 <= i < items.Length {
      items[i] := res[i];
    }
  }

  method ClickDoubbleDown(items: array<CombineItem>)
    modifies items
    ensures items[..] == AllDown(old(items[..]))
    ensures KeepsClasses(old(items[..]), items[..]) && multiset(items[..]) == multiset(old(items[..]))
  {
    var res := Picked(items[..], false) + Picked(items[..], true);
    AllDownKeepsClasses(items[..]);
    WriteBack(items, res);
  }

  method ClickDoubbleUp(items: array<CombineItem>)
    modifies items
    ensures items[..] == AllUp(old(items[..]))
    ensures KeepsClasses(old(items[..]), items[..]) && multiset(items[..]) == multiset(old(items[..]))
  {
    var res := Picked(items[..], true) + Picked(items[..], false);
    AllUpKeepsClasses(items[..]);
    WriteBack(items, res);
  }

  method ClickDown(items: array<CombineItem>)
    modifies items
    ensures items[..] == DownPass(old(items[..]), items.Length)
    ensures KeepsClasses(old(items[..]), items[..]) && multiset(items[..]) == multiset(old(items[..]))
  {
    var res := items[..];
    var index := |res| - 1;
    while index >= 0
      invariant -1 <= index < |res| == items.Length
      invariant DownPass(res, index + 1) == DownPass(items[..], items.Length)
    {
      if res[index].checked {
        res := Combine(res, index, index + 1);
      }
      index := index - 1;
    }
    DownPassKeepsClasses(items[..], items.Length);
    KeepsClassesPermutes(items[..], res);
    WriteBack(items, res);
  }

  method ClickUp(items: array<CombineItem>)
    modifies items
    ensures items[..] == UpPass(old(items[..]), 0)
    ensures KeepsClasses(old(items[..]), items[..]) && multiset(items[..]) == multiset(old(items[..]))
  {
    var res := items[..];
    var index := 0;
    while index < |res|
      invariant 0 <= index <= |res| == items.Length
      invariant UpPass(res, index) == UpPass(items[..], 0)
    {
      if res[index].checked {
        res := Combine(res, index, index - 1);
      }
      index := index + 1;
    }
    UpPassKeepsClasses(items[..], 0);
    KeepsClassesPermutes(items[..], res);
    WriteBack(items, res);
  }
}
