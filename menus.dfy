/** The side-menu store: the menu tree for the signed-in auth level, the
    indices of the selected item at each of the three levels, and the
    operations that open and close menu items. Menu items are values; the
    store replaces its tree as a whole. */
module Menus {
  import opened JsCore

  /** Height in pixels of one menu row. */
  const MenuHeight: int := 42

  datatype Menu = Menu(menu: string, path: string, active: bool, height: int, children: seq<Menu>)

  /** The three static menu trees of the application. */
  datatype MenuLists = MenuLists(full: seq<Menu>, media: seq<Menu>, member: seq<Menu>)

  /** An item closed by releaseMenu. */
  function Shut(m: Menu): Menu
  {
    m.(active := false, height := 0)
  }

  /** `a` and `b` have the same items, titles and paths at every level. */
  ghost predicate Shape(a: seq<Menu>, b: seq<Menu>)
    decreases a
  {
    |a| == |b|
    && forall k :: 0 <= k < |a| ==>
      a[k].menu == b[k].menu && a[k].path == b[k].path && Shape(a[k].children, b[k].children)
  }

  /** The first index from `i` on of an open item that has children, or |ms|. */
  function FirstOpen(ms: seq<Menu>, i: nat): (b: nat)
    requires i <= |ms|
    ensures i <= b <= |ms|
    ensures b < |ms| ==> ms[b].active && ms[b].children != []
    ensures forall k :: i <= k < b ==> !(ms[k].active && ms[k].children != [])
    decreases |ms| - i
  {
    if i == |ms| then i
    else if ms[i].active && ms[i].children != [] then i
    else FirstOpen(ms, i + 1)
  }

  /** releaseMenu over ms[i..]; ReleasedFromSpec says what it does. */
  function ReleasedFrom(ms: seq<Menu>, i: nat): (r: seq<Menu>)
    requires i <= |ms|
    ensures |r| == |ms| - i
    decreases ms, |ms| - i
  {
    if i == |ms| then []
    else if ms[i].active && ms[i].children != [] then
      [Shut(ms[i]).(children := ReleasedFrom(ms[i].children, 0))] + ms[i + 1..]
    else
      [if ms[i].active then Shut(ms[i]) else ms[i]] + ReleasedFrom(ms, i + 1)
  }

  /** releaseMenu over ms[i..]: the open items are shut up to and including
      the first open item with children, whose children are released in
      turn; the scan then stops and the later items are kept. */
  lemma {:induction false} ReleasedFromSpec(ms: seq<Menu>, i: nat)
    requires i <= |ms|
    ensures var r, b := ReleasedFrom(ms, i), FirstOpen(ms, i);
      (forall j :: 0 <= j < |r| && i + j < b ==> r[j] == if ms[i + j].active then Shut(ms[i + j]) else ms[i + j])
      && (b < |ms| ==> r[b - i] == Shut(ms[b]).(children := ReleasedFrom(ms[b].children, 0)))
      && (forall j :: 0 <= j < |r| && b < i + j ==> r[j] == ms[i + j])
    decreases |ms| - i
  {
    var r, b := ReleasedFrom(ms, i), FirstOpen(ms, i);
    if i == |ms| {
    } else if ms[i].active && ms[i].children != [] {
      assert b == i;
      assert r[1..] == ms[i + 1..];
    } else {
      ReleasedFromSpec(ms, i + 1);
      var t := ReleasedFrom(ms, i + 1);
      assert b == FirstOpen(ms, i + 1);
      assert r == [if ms[i].active then Shut(ms[i]) else ms[i]] + t;
      forall j | 1 <= j < |r|
        ensures r[j] == t[j - 1]
      {
      }
    }
  }

  lemma {:induction false} ShapeSame(ms: seq<Menu>)
    ensures Shape(ms, ms)
    decreases ms
  {
    forall k | 0 <= k < |ms|
      ensures Shape(ms[k].children, ms[k].children)
    {
      ShapeSame(ms[k].children);
    }
  }

  /** Releasing keeps every item, title and path. */
  lemma {:induction false} ReleasedShape(ms: seq<Menu>)
    ensures Shape(Released(ms), ms)
    decreases ms
  {
    var r, b := Released(ms), FirstOpen(ms, 0);
    ReleasedFromSpec(ms, 0);
    assert r == ReleasedFrom(ms, 0);
    forall k | 0 <= k < |ms|
      ensures r[k].menu == ms[k].menu && r[k].path == ms[k].path && Shape(r[k].children, ms[k].children)
    {
      if k < b {
        assert r[k] == if ms[k].active then Shut(ms[k]) else ms[k];
        ShapeSame(ms[k].children);
      } else if k == b {
        ReleasedShape(ms[b].children);
      } else {
        assert r[k] == ms[k];
        ShapeSame(ms[k].children);
      }
    }
  }

  /** releaseMenu on the whole tree; ReleasedShape says it keeps every item. */
  function Released(ms: seq<Menu>): (r: seq<Menu>)
    ensures |r| == |ms|
  {
    ReleasedFrom(ms, 0)
  }

  /** releaseMenu(menu): the scan of the source, with its early exit. */
  method ReleaseMenu(ms: seq<Menu>) returns (r: seq<Menu>)
    ensures r == Released(ms)
    decreases ms
  {
    ghost var b, rel := FirstOpen(ms, 0), ReleasedFrom(ms, 0);
    r := ms;
    var i := 0;
    while i < |r|
      invariant 0 <= i <= b && |r| == |ms|
      invariant forall j :: 0 <= j < i ==> r[j] == if ms[j].active then Shut(ms[j]) else ms[j]
      invariant forall j :: i <= j < |r| ==> r[j] == ms[j]
    {
      var item := r[i];
      if item.active {
        if item.children != [] {
          var c := ReleaseMenu(item.children);
          r := r[i := Shut(item).(children := c)];
          ReleasedFromSpec(ms, 0);
          assert forall j :: 0 <= j < |r| ==> r[j] == rel[j];
          return;
        }
        r := r[i := Shut(item)];
      }
      i := i + 1;
    }
    forall j | 0 <= j < |r|
      ensures r[j] == rel[j]
    {
      ReleasedFromSpec(ms, 0);
      assert ReleasedFrom(ms, 0)[j] == if ms[j].active then Shut(ms[j]) else ms[j];
    }
  }

  /** No item is active at any level. */
  ghost predicate NoneActive(ms: seq<Menu>)
    decreases ms
  {
    forall k :: 0 <= k < |ms| ==> !ms[k].active && NoneActive(ms[k].children)
  }

  /** The active items form a single chain from the top: at most one active
      item per list, inactive items have nothing active below them. */
  ghost predicate Chain(ms: seq<Menu>)
    decreases ms
  {
    (forall j, k :: 0 <= j < |ms| && 0 <= k < |ms| && ms[j].active && ms[k].active ==> j == k)
    && forall k :: 0 <= k < |ms| ==>
      if ms[k].active then Chain(ms[k].children) else NoneActive(ms[k].children)
  }

  /** The first active index from `i` on, or |ms|. */
  function FirstActive(ms: seq<Menu>, i: nat): (k: nat)
    requires i <= |ms|
    ensures i <= k <= |ms| && (k < |ms| ==> ms[k].active)
    ensures forall j :: i <= j < k ==> !ms[j].active
    decreases |ms| - i
  {
    if i == |ms| || ms[i].active then i else FirstActive(ms, i + 1)
  }

  /** The indices of the active items, following the first active item down. */
  function ActivePath(ms: seq<Menu>): seq<int>
    decreases ms
  {
    var k := FirstActive(ms, 0);
    if k < |ms| then [k] + ActivePath(ms[k].children) else []
  }

  lemma {:induction false} NoneActiveChain(ms: seq<Menu>)
    requires NoneActive(ms)
    ensures Chain(ms) && ActivePath(ms) == []
  {
    forall k | 0 <= k < |ms|
      ensures NoneActive(ms[k].children)
    {
    }
    assert FirstActive(ms, 0) == |ms|;
  }

  /** Releasing a chain leaves nothing active. */
  lemma {:induction false} ChainReleased(ms: seq<Menu>)
    requires Chain(ms)
    ensures NoneActive(Released(ms))
    decreases ms
  {
    var r := Released(ms);
    var b := FirstOpen(ms, 0);
    ReleasedFromSpec(ms, 0);
    assert r == ReleasedFrom(ms, 0);
    forall k | 0 <= k < |r|
      ensures !r[k].active && NoneActive(r[k].children)
    {
      if k < b {
        assert r[k] == if ms[k].active then Shut(ms[k]) else ms[k];
        if ms[k].active {
          assert ms[k].children == [];
        }
      } else if k == b {
        ChainReleased(ms[b].children);
      } else {
        assert ms[b].active;
        assert !ms[k].active && r[k] == ms[k];
      }
    }
  }

  /** Making item `k` of a list with nothing active the active one. */
  lemma {:induction false} Lift(ms: seq<Menu>, k: int, y: Menu)
    requires NoneActive(ms) && 0 <= k < |ms|
    requires y.active && Chain(y.children)
    ensures Chain(ms[k := y]) && ActivePath(ms[k := y]) == [k] + ActivePath(y.children)
  {
    var t := ms[k := y];
    forall j | 0 <= j < |t| && j != k
      ensures !t[j].active && NoneActive(t[j].children)
    {
    }
    assert FirstActive(t, 0) == k by {
      assert forall j :: 0 <= j < k ==> !t[j].active;
      FirstActiveIs(t, 0, k);
    }
  }

  lemma {:induction false} FirstActiveIs(ms: seq<Menu>, i: nat, k: nat)
    requires i <= k < |ms| && ms[k].active
    requires forall j :: i <= j < k ==> !ms[j].active
    ensures FirstActive(ms, i) == k
    decreases k - i
  {
    if i < k {
      FirstActiveIs(ms, i + 1, k);
    }
  }

  /** The selected indices exist in `ms`: the ones activeMenu dereferences. */
  predicate CanActivate(ms: seq<Menu>, main: int, sub: int, final: int)
  {
    0 <= main < |ms|
    && (sub > -1 ==> sub < |ms[main].children|)
    && (final > -1 ==> sub > -1 && sub < |ms[main].children| && final < |ms[main].children[sub].children|)
  }

  lemma ShapeKeeps(a: seq<Menu>, b: seq<Menu>, main: int, sub: int, final: int)
    requires Shape(a, b) && CanActivate(b, main, sub, final)
    ensures CanActivate(a, main, sub, final)
  {
    if sub > -1 {
      assert Shape(a[main].children, b[main].children);
    }
  }

  /** The second half of activeMenu, on the released tree: the main item opens
      to the height of its children (plus those of the sub item), the sub item
      opens when it has children, the final item is marked. */
  function Activate(rs: seq<Menu>, main: int, sub: int, final: int): (r: seq<Menu>)
    requires CanActivate(rs, main, sub, final)
    ensures |r| == |rs| && forall k :: 0 <= k < |rs| && k != main ==> r[k] == rs[k]
    ensures r[main].active && r[main].menu == rs[main].menu && r[main].path == rs[main].path
    ensures |r[main].children| == |rs[main].children|
    ensures r[main].height == MenuHeight * |rs[main].children|
      + (if sub > -1 then MenuHeight * |rs[main].children[sub].children| else 0)
    ensures forall k :: 0 <= k < |rs[main].children| && k != sub ==> r[main].children[k] == rs[main].children[k]
    ensures sub > -1 ==>
      var s, s0 := r[main].children[sub], rs[main].children[sub];
      s.active && s.menu == s0.menu && s.path == s0.path && |s.children| == |s0.children|
      && s.height == (if s0.children != [] then MenuHeight * |s0.children| else s0.height)
      && forall k :: 0 <= k < |s0.children| ==>
        s.children[k] == if k == final then s0.children[k].(active := true) else s0.children[k]
  {
    var m := rs[main];
    if sub > -1 then
      var s := m.children[sub];
      var s1 := s.(active := true, height := if s.children != [] then MenuHeight * |s.children| else s.height);
      var s2 := if final > -1 then s1.(children := s1.children[final := s1.children[final].(active := true)]) else s1;
      rs[main := m.(active := true, height := MenuHeight * |m.children| + MenuHeight * |s.children|,
                    children := m.children[sub := s2])]
    else
      rs[main := m.(active := true, height := MenuHeight * |m.children|)]
  }

  /** activeMenu: release, then open the selection. */
  function Activated(ms: seq<Menu>, main: int, sub: int, final: int): (r: seq<Menu>)
    requires CanActivate(ms, main, sub, final)
    ensures |r| == |ms| && r[main].active
  {
    ReleasedShape(ms);
    ShapeKeeps(Released(ms), ms, main, sub, final);
    Activate(Released(ms), main, sub, final)
  }

  /** activeMenu on a tree whose active items form a chain: afterwards the
      active items are exactly main, sub (if set) and final (if set). */
  lemma ActivatedChain(ms: seq<Menu>, main: int, sub: int, final: int)
    requires Chain(ms) && CanActivate(ms, main, sub, final)
    ensures var r := Activated(ms, main, sub, final);
      Chain(r)
      && ActivePath(r) == [main] + (if sub > -1 then [sub] + (if final > -1 then [final] else []) else [])
  {
    var rs := Released(ms);
    ReleasedShape(ms);
    ShapeKeeps(rs, ms, main, sub, final);
    ChainReleased(ms);
    var r := Activate(rs, main, sub, final);
    var m := rs[main];
    assert NoneActive(m.children);
    if sub > -1 {
      var s := m.children[sub];
      assert NoneActive(s.children);
      var inner := r[main].children[sub].children;
      if final > -1 {
        assert NoneActive(s.children[final].children);
        NoneActiveChain(s.children[final].children);
        Lift(s.children, final, s.children[final].(active := true));
        assert inner == s.children[final := s.children[final].(active := true)];
      } else {
        assert inner == s.children;
        NoneActiveChain(s.children);
      }
      Lift(m.children, sub, r[main].children[sub]);
      assert r[main].children == m.children[sub := r[main].children[sub]];
    } else {
      NoneActiveChain(m.children);
    }
    Lift(rs, main, r[main]);
    assert r == rs[main := r[main]];
  }

  /** The active triple after setActive(depth, index) picks a new index: the
      index is recorded at `depth` and the deeper levels are cleared. */
  function Chosen(a: seq<int>, depth: int, index: int): (r: seq<int>)
    requires |a| == 3 && 0 <= depth < 3
    ensures |r| == 3 && r[depth] == index
    ensures forall k :: 0 <= k < depth ==> r[k] == a[k]
    ensures forall k :: depth < k < 3 ==> r[k] == -1
  {
    if depth == 0 then [index, -1, -1]
    else if depth == 1 then [a[0], index, -1]
    else [a[0], a[1], index]
  }

  /** The value of `path[depth]`, if the path has that many segments. */
  function Segment(segments: seq<string>, depth: int): Option<string>
  {
    if 0 <= depth < |segments| then Some(segments[depth]) else None
  }

  /** The index of the first item whose path is `p`, or -1. */
  function FindPath(ms: seq<Menu>, p: Option<string>): (r: int)
    ensures -1 <= r < |ms|
    ensures r >= 0 ==> p == Some(ms[r].path) && forall k :: 0 <= k < r ==> p != Some(ms[k].path)
    ensures r == -1 <==> forall k :: 0 <= k < |ms| ==> p != Some(ms[k].path)
    decreases |ms|
  {
    if |ms| == 0 then -1
    else
      var r := FindPath(ms[..|ms| - 1], p);
      if r >= 0 then r else if p == Some(ms[|ms| - 1].path) then |ms| - 1 else -1
  }

  /** The list reached from `ms` by following the selected indices down to
      level `depth` (1 is the top). */
  function Level(ms: seq<Menu>, a: seq<int>, depth: int): seq<Menu>
    requires |a| == 3 && 1 <= depth <= 3
  {
    if depth == 1 then ms
    else if depth == 2 then (if 0 <= a[0] < |ms| then ms[a[0]].children else [])
    else if 0 <= a[0] < |ms| && 0 <= a[1] < |ms[a[0]].children| then ms[a[0]].children[a[1]].children
    else []
  }

  /** The indices setActiveMenu records from level `depth` of `menu` down: the
      first item whose path is the segment at that level, then, while that
      item has children, the same in its children. The walk stops at a leaf
      or where no item matches. */
  function Walk(menu: seq<Menu>, depth: int, segments: seq<string>): (w: seq<int>)
    requires 1 <= depth <= 3
    ensures |w| <= 4 - depth
    ensures w == [] <==> FindPath(menu, Segment(segments, depth)) == -1
    ensures w != [] ==> w[0] == FindPath(menu, Segment(segments, depth))
    decreases 4 - depth
  {
    var i := FindPath(menu, Segment(segments, depth));
    if i < 0 then []
    else if menu[i].children == [] || depth == 3 then [i]
    else [i] + Walk(menu[i].children, depth + 1, segments)
  }

  /** One step of the walk, at the index found on level `depth`. */
  lemma WalkFound(menu: seq<Menu>, depth: int, segments: seq<string>, i: int)
    requires 1 <= depth <= 3 && 0 <= i < |menu| && FindPath(menu, Segment(segments, depth)) == i
    ensures menu[i].children == [] || depth == 3 ==>
      Walk(menu, depth, segments) == [i] && WalkReachesLeaf(menu, depth, segments)
    ensures menu[i].children != [] && depth < 3 ==>
      Walk(menu, depth, segments) == [i] + Walk(menu[i].children, depth + 1, segments)
      && (WalkReachesLeaf(menu, depth, segments) <==> WalkReachesLeaf(menu[i].children, depth + 1, segments))
  {
  }

  /** Whether that walk ends at a leaf (and so opens the selection) rather
      than at a level where no item matches. */
  predicate WalkReachesLeaf(menu: seq<Menu>, depth: int, segments: seq<string>)
    requires 1 <= depth <= 3
    decreases 4 - depth
  {
    var i := FindPath(menu, Segment(segments, depth));
    i >= 0 && (menu[i].children == [] || depth == 3 || WalkReachesLeaf(menu[i].children, depth + 1, segments))
  }

  /** The active triple after a walk from level `depth` records `w`: the
      shallower indices are kept, `w` follows, and the rest is cleared. */
  function Recorded(a: seq<int>, depth: int, w: seq<int>): (r: seq<int>)
    requires |a| == 3 && 1 <= depth <= 3 && |w| <= 4 - depth
    ensures |r| == 3
    ensures r[..depth - 1] == a[..depth - 1] && r[depth - 1..depth - 1 + |w|] == w
    ensures forall k :: depth - 1 + |w| <= k < 3 ==> r[k] == -1
  {
    a[..depth - 1] + w + seq(4 - depth - |w|, _ => -1)
  }

  /** Recording `i` and then the walk below it is recording the longer walk. */
  lemma RecordedStep(a: seq<int>, depth: int, i: int, w: seq<int>)
    requires |a| == 3 && 1 <= depth < 3 && |w| <= 3 - depth
    ensures Recorded(a[depth - 1 := i], depth + 1, w) == Recorded(a, depth, [i] + w)
  {
    assert a[depth - 1 := i][..depth] == a[..depth - 1] + [i];
  }

  /** With nothing selected from `depth` on, a walk that stops at once keeps
      the triple, and one that selects a leaf records just that index. */
  lemma RecordedNone(a: seq<int>, depth: int)
    requires |a| == 3 && 1 <= depth <= 3
    requires forall k :: depth - 1 <= k < 3 ==> a[k] == -1
    ensures Recorded(a, depth, []) == a
  {
  }

  lemma RecordedLeaf(a: seq<int>, depth: int, i: int)
    requires |a| == 3 && 1 <= depth <= 3
    requires forall k :: depth - 1 <= k < 3 ==> a[k] == -1
    ensures Recorded(a, depth, [i]) == a[depth - 1 := i]
  {
  }

  /** `after` is what activeMenu makes of `before` for the selection `a`. */
  ghost predicate Opened(before: seq<Menu>, after: seq<Menu>, a: seq<int>)
    requires |a| == 3
  {
    CanActivate(before, a[0], a[1], a[2]) && after == Activated(before, a[0], a[1], a[2])
  }

  /** Where setActiveMenu may be called: `menu` is the list at level `depth`
      reached through the selected indices, the tree below it is no deeper
      than the three levels, and nothing from `depth` on is selected yet. */
  ghost predicate Placed(ms: seq<Menu>, a: seq<int>, menu: seq<Menu>, depth: int)
  {
    |a| == 3 && 1 <= depth <= 3
    && menu == Level(ms, a, depth) && Fits(menu, 4 - depth)
    && (depth >= 2 ==> 0 <= a[0] < |ms|)
    && (depth == 3 ==> 0 <= a[0] < |ms| && 0 <= a[1] < |ms[a[0]].children|)
    && forall k :: depth - 1 <= k < 3 ==> a[k] == -1
  }

  /** Selecting an item with children places the walk one level down. */
  lemma PlacedStep(ms: seq<Menu>, a: seq<int>, menu: seq<Menu>, depth: int, i: int)
    requires Placed(ms, a, menu, depth) && 0 <= i < |menu| && menu[i].children != []
    ensures depth < 3 && Placed(ms, a[depth - 1 := i], menu[i].children, depth + 1)
  {
    assert Fits(menu[i].children, 3 - depth) && menu[i].children[0] == menu[i].children[0];
  }

  /** Selecting an item names existing items at every selected level. */
  lemma PlacedLeaf(ms: seq<Menu>, a: seq<int>, menu: seq<Menu>, depth: int, i: int)
    requires Placed(ms, a, menu, depth) && 0 <= i < |menu|
    ensures var b := a[depth - 1 := i]; CanActivate(ms, b[0], b[1], b[2])
  {
  }

  /** Every list of `ms` lies at most `levels` levels deep. */
  ghost predicate Fits(ms: seq<Menu>, levels: nat)
    decreases ms
  {
    forall k :: 0 <= k < |ms| ==> levels >= 1 && Fits(ms[k].children, levels - 1)
  }

  class MenusStore {
    var menus: seq<Menu>
    var active: seq<int>

    ghost predicate Valid()
      reads this
    {
      |active| == 3
    }

    /** The store as created, before the menus are chosen. */
    constructor ()
      ensures Valid() && menus == [] && active == [-1, -1, -1]
    {
      menus := [];
      active := [-1, -1, -1];
    }

    /** setMenus: the media tree for MEDIA, the member tree for MEMBER, the
        full tree otherwise (including no stored auth level). */
    method SetMenus(authLevel: Option<string>, lists: MenuLists)
      modifies this`menus
      ensures authLevel == Some("MEDIA") ==> menus == lists.media
      ensures authLevel == Some("MEMBER") ==> menus == lists.member
      ensures authLevel != Some("MEDIA") && authLevel != Some("MEMBER") ==> menus == lists.full
    {
      if authLevel == Some("MEDIA") {
        menus := lists.media;
      } else if authLevel == Some("MEMBER") {
        menus := lists.member;
      } else {
        menus := lists.full;
      }
    }

    /** activeMenu: release the open items, then open the selected ones. */
    method ActiveMenu()
      requires Valid() && CanActivate(menus, active[0], active[1], active[2])
      modifies this`menus
      ensures Valid()
      ensures menus == Activated(old(menus), active[0], active[1], active[2])
    {
      var rs := ReleaseMenu(menus);
      ReleasedShape(menus);
      ShapeKeeps(rs, menus, active[0], active[1], active[2]);
      menus := Activate(rs, active[0], active[1], active[2]);
    }

    /** setActive(depth, index): the same index again toggles the top-level
        item `menus[index]` (closing it, or reopening the selection); a new
        index is recorded and the selection reopened. */
    method SetActive(depth: int, index: int)
      requires Valid() && 0 <= depth < 3
      requires active[depth] == index ==>
        0 <= index < |menus| && (!menus[index].active ==> CanActivate(menus, active[0], active[1], active[2]))
      requires active[depth] != index ==>
        var a := Chosen(active, depth, index); CanActivate(menus, a[0], a[1], a[2])
      modifies this
      ensures Valid()
      ensures old(active[depth]) == index ==> active == old(active)
      ensures old(active[depth]) == index && old(menus[index].active) ==>
        menus == old(menus)[index := old(menus[index]).(active := false)]
      ensures old(active[depth]) == index && !old(menus[index].active) ==>
        menus == Activated(old(menus), active[0], active[1], active[2])
      ensures old(active[depth]) != index ==>
        active == Chosen(old(active), depth, index)
        && menus == Activated(old(menus), active[0], active[1], active[2])
    {
      if active[depth] == index {
        if menus[index].active {
          menus := menus[index := menus[index].(active := false)];
        } else {
          ActiveMenu();
        }
        return;
      }
      active := Chosen(active, depth, index);
      ActiveMenu();
    }

    /** setActiveMenu(menu, depth): record the first item of `menu` whose path
        is segment `depth` of the location and descend into it; a leaf opens
        the selection; no match stops the walk. Called at creation, when
        nothing below `depth` is selected yet. Afterwards the triple holds
        the indices of the whole walk, and the tree is opened for them
        exactly when the walk ended at a leaf (so a path that stops matching
        part-way leaves the tree as it was, with the indices recorded). */
    method SetActiveMenu(menu: seq<Menu>, depth: int, segments: seq<string>)
      requires Valid() && 1 <= depth <= 3 && Placed(menus, active, menu, depth)
      modifies this
      ensures Valid()
      ensures FindPath(menu, Segment(segments, depth)) == -1 ==> active == old(active) && menus == old(menus)
      ensures var i := FindPath(menu, Segment(segments, depth));
        i >= 0 ==> active[depth - 1] == i
      ensures active == Recorded(old(active), depth, Walk(menu, depth, segments))
      ensures WalkReachesLeaf(menu, depth, segments) ==> Opened(old(menus), menus, active)
      ensures !WalkReachesLeaf(menu, depth, segments) ==> menus == old(menus)
      decreases 4 - depth
    {
      var i := 0;
      while i < |menu|
        invariant 0 <= i <= |menu|
        invariant forall k :: 0 <= k < i ==> Segment(segments, depth) != Some(menu[k].path)
      {
        var item := menu[i];
        if Segment(segments, depth) == Some(item.path) {
          assert FindPath(menu, Segment(segments, depth)) == i;
          ghost var a0 := active;
          if item.children != [] {
            PlacedStep(menus, active, menu, depth, i);
          } else {
            PlacedLeaf(menus, active, menu, depth, i);
          }
          active := active[depth - 1 := i];
          WalkFound(menu, depth, segments, i);
          if item.children != [] {
            assert menus == old(menus);
            SetActiveMenu(item.children, depth + 1, segments);
            RecordedStep(a0, depth, i, Walk(item.children, depth + 1, segments));
          } else {
            RecordedLeaf(a0, depth, i);
            ActiveMenu();
          }
          return;
        }
        i := i + 1;
      }
      RecordedNone(active, depth);
    }
  }
}
