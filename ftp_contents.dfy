/**
 * The FTP contents store: the listed directory entries and files, the files
 * the user has ticked (kept in ticking order, by object identity) and the
 * roles that switch the toolbar buttons on.
 */
module FtpContents {
  import opened JsCore

  /** CONTENT_TYPE: 'N', 'D' and 'F'. */
  datatype ContentType = NoContent | Dir | File

  /** FTP_CONTENTS_ROLE */
  datatype Role = UploadButton | NewFolderButton | ReloadButton | DeleteButton
                | AllCheckbox | ContextMenu | ImageViewer

  /** An entry as the server lists it (name, size, type, last-modified, path, src). */
  datatype ContentItem = ContentItem(name: string, path: string, size: int, kind: ContentType,
                                     lastModified: string, src: Option<string>)

  /** A listed entry together with its view state. */
  class ContentOptionItem {
    const info: ContentItem
    var show: bool
    var checked: bool

    /** `Object.assign({ show: false, checked: false }, item)` */
    constructor (info: ContentItem)
      ensures this.info == info && !show && !checked
    {
      this.info := info;
      show := false;
      checked := false;
    }
  }

  /** What the store looks at in an entry. */
  datatype View = View(kind: ContentType, show: bool, checked: bool)

  function ViewOf(o: ContentOptionItem): View
    reads o
  {
    View(o.info.kind, o.show, o.checked)
  }

  function Views(items: seq<ContentOptionItem>): (r: seq<View>)
    reads items
    ensures |r| == |items|
    ensures forall i :: 0 <= i < |items| ==> r[i] == ViewOf(items[i])
  {
    seq(|items|, i reads items requires 0 <= i < |items| => ViewOf(items[i]))
  }

  predicate Distinct<T(==)>(s: seq<T>)
  {
    forall i, j :: 0 <= i < j < |s| ==> s[i] != s[j]
  }

  predicate IsVisibleFile(v: View) { v.kind == File && v.show }

  /** `list.filter(item => item.type === FILE && item.show).length` */
  function VisibleFileCount(vs: seq<View>): nat
  {
    if vs == [] then 0
    else VisibleFileCount(vs[..|vs| - 1]) + (if IsVisibleFile(vs[|vs| - 1]) then 1 else 0)
  }

  /** Visible files that are ticked. */
  function CheckedFileCount(vs: seq<View>): nat
  {
    if vs == [] then 0
    else CheckedFileCount(vs[..|vs| - 1]) + (if IsVisibleFile(vs[|vs| - 1]) && vs[|vs| - 1].checked then 1 else 0)
  }

  /** An entry after a select-all / deselect-all pass. */
  function AllCheckedView(v: View, value: bool): View
  {
    if IsVisibleFile(v) then v.(checked := value) else v
  }

  /** The list's views after a select-all / deselect-all pass. */
  function AllChecked(vs: seq<View>, value: bool): (ws: seq<View>)
    ensures |ws| == |vs|
    ensures forall i :: 0 <= i < |vs| ==> ws[i] == AllCheckedView(vs[i], value)
  {
    seq(|vs|, i requires 0 <= i < |vs| => AllCheckedView(vs[i], value))
  }

  /** The entries among the first `n` that a select-all / deselect-all pass
      changes, in list order. */
  function Flipped(items: seq<ContentOptionItem>, vs: seq<View>, value: bool, n: nat): (r: seq<ContentOptionItem>)
    requires n <= |items| == |vs|
    ensures |r| <= n
  {
    if n == 0 then []
    else
      Flipped(items, vs, value, n - 1)
      + (if IsVisibleFile(vs[n - 1]) && vs[n - 1].checked != value then [items[n - 1]] else [])
  }

  /** Ticking all appends exactly the visible files that were not yet ticked. */
  lemma {:induction false} FlippedOnCount(items: seq<ContentOptionItem>, vs: seq<View>, n: nat)
    requires n <= |items| == |vs|
    ensures |Flipped(items, vs, true, n)| + CheckedFileCount(vs[..n]) == VisibleFileCount(vs[..n])
  {
    if n > 0 {
      FlippedOnCount(items, vs, n - 1);
      assert vs[..n][..n - 1] == vs[..n - 1];
    }
  }

  lemma {:induction false} AllCheckedCounts(vs: seq<View>, value: bool)
    ensures VisibleFileCount(AllChecked(vs, value)) == VisibleFileCount(vs)
    ensures CheckedFileCount(AllChecked(vs, value)) == (if value then VisibleFileCount(vs) else 0)
  {
    if vs != [] {
      var n := |vs| - 1;
      AllCheckedCounts(vs[..n], value);
      assert AllChecked(vs, value)[..n] == AllChecked(vs[..n], value);
    }
  }

  /** Unticking an entry that ticking just appended gives the ticked list back,
      when the entry was not ticked before; otherwise its earlier occurrence
      goes instead and only the multiset comes back. */
  lemma TickThenUntick(checkedList: seq<ContentOptionItem>, self: ContentOptionItem)
    ensures var t := checkedList + [self]; var i := IndexOf(t, self);
      0 <= i < |t| && multiset(t[..i] + t[i + 1..]) == multiset(checkedList)
      && (self !in checkedList ==> t[..i] + t[i + 1..] == checkedList)
  {
    var t := checkedList + [self];
    var i := IndexOf(t, self);
    assert self in t && t[i] == self;
    if i < |checkedList| {
      assert checkedList == checkedList[..i] + [self] + checkedList[i + 1..];
      assert t[..i] + t[i + 1..] == checkedList[..i] + checkedList[i + 1..] + [self];
    } else {
      assert t[..i] + t[i + 1..] == checkedList;
    }
  }

  class ContentsStore {
    var isForceReload: bool
    var directory: seq<ContentOptionItem>
    var list: seq<ContentOptionItem>
    var checkedList: seq<ContentOptionItem>
    var roles: seq<Role>

    /** The listed entries are distinct objects (setList creates each anew). */
    ghost predicate Valid()
      reads this
    {
      Distinct(list)
    }

    constructor ()
      ensures Valid()
      ensures !isForceReload && directory == [] && list == [] && checkedList == [] && roles == []
    {
      isForceReload := false;
      directory := [];
      list := [];
      checkedList := [];
      roles := [];
    }

    /** `roles.splice(0, roles.length, ...arr)` */
    method SetRoles(arr: seq<Role>)
      modifies this`roles
      ensures roles == arr
    {
      roles := arr;
    }

    method SetIsForceReload(value: bool)
      modifies this`isForceReload
      ensures isForceReload == value
    {
      isForceReload := value;
    }

    /** setDirectory: every entry is copied into a new object with `show` false. */
    method SetDirectory(arr: seq<ContentItem>)
      modifies this`directory
      ensures |directory| == |arr| && Distinct(directory)
      ensures forall i :: 0 <= i < |arr| ==>
        fresh(directory[i]) && directory[i].info == arr[i] && !directory[i].show
    {
      directory := Wrap(arr);
    }

    /** setList: every entry is copied into a new object, unshown and unticked;
        the ticked files are left as they were. */
    method SetList(arr: seq<ContentItem>)
      modifies this`list
      ensures Valid()
      ensures |list| == |arr|
      ensures forall i :: 0 <= i < |arr| ==>
        fresh(list[i]) && list[i].info == arr[i] && !list[i].show && !list[i].checked
    {
      list := Wrap(arr);
    }

    /** Ticks or unticks one entry; only FILE entries react. Ticking appends the
        entry (even if it is already there), unticking removes its first
        occurrence. */
    method SetListChecked(self: ContentOptionItem, value: bool)
      modifies this`checkedList, self
      ensures self.show == old(self.show)
      ensures self.info.kind != File ==> checkedList == old(checkedList) && self.checked == old(self.checked)
      ensures self.info.kind == File ==> self.checked == value
      ensures self.info.kind == File && value ==> checkedList == old(checkedList) + [self]
      ensures self.info.kind == File && !value ==>
        var i := IndexOf(old(checkedList), self);
        checkedList == (if i < 0 then old(checkedList) else old(checkedList)[..i] + old(checkedList)[i + 1..])
      ensures self.info.kind == File && !value ==>
        multiset(checkedList) == multiset(old(checkedList)) - multiset{self}
    {
      if self.info.kind == File {
        self.checked := value;
        var index := |checkedList|;
        if !value {
          index := IndexOf(checkedList, self);
          if index >= 0 {
            checkedList := RemoveAt(checkedList, index);
          }
        } else {
          checkedList := InsertAt(checkedList, index, self);
        }
      }
    }

    /** Ticks (or unticks) every visible FILE entry of the list. Ticking appends
        the entries that change, in list order; unticking empties the ticked list. */
    method SetListAllChecked(value: bool)
      requires Valid()
      modifies this`checkedList, list
      ensures Valid()
      ensures Views(list) == AllChecked(old(Views(list)), value)
      ensures value ==> checkedList == old(checkedList) + Flipped(list, old(Views(list)), true, |list|)
      ensures !value ==> checkedList == []
      ensures value && old(|checkedList| == CheckedFileCount(Views(list))) ==> IsTotalChecked()
    {
      ghost var v0 := Views(list);
      var arr := CheckAll(list, value);
      if value {
        checkedList := checkedList + arr;
        FlippedOnCount(list, v0, |list|);
        assert v0[..|list|] == v0;
        AllCheckedCounts(v0, value);
      } else {
        checkedList := [];
      }
    }

    /** gtIsTotalChecked */
    predicate IsTotalChecked()
      reads this, list
    {
      VisibleFileCount(Views(list)) == |checkedList|
    }

    /** getCheckedSortedIndex: the position of the first identical entry, or -1. */
    function CheckedSortedIndex(find: ContentOptionItem): (r: int)
      reads this
      ensures r == -1 <==> find !in checkedList
      ensures r >= 0 ==> r < |checkedList| && checkedList[r] == find && find !in checkedList[..r]
    {
      IndexOf(checkedList, find)
    }

    /** gtHasRole: `!!roles.find(item => item === role)` */
    predicate HasRole(role: Role)
      reads this
      ensures HasRole(role) <==> role in roles
    {
      IndexOf(roles, role) >= 0
    }
  }

  /** The loop of setListAllChecked: sets `checked` of every visible FILE entry
      to `value` and collects, when ticking, the entries that changed. */
  method CheckAll(items: seq<ContentOptionItem>, value: bool) returns (arr: seq<ContentOptionItem>)
    requires Distinct(items)
    modifies items
    ensures Views(items) == AllChecked(old(Views(items)), value)
    ensures arr == if value then Flipped(items, old(Views(items)), value, |items|) else []
  {
    ghost var v0 := Views(items);
    arr := [];
    var index := 0;
    while index < |items|
      invariant 0 <= index <= |items|
      invariant value ==> arr == Flipped(items, v0, value, index)
      invariant !value ==> arr == []
      invariant forall j :: 0 <= j < |items| ==> items[j].info.kind == v0[j].kind
      invariant forall j :: 0 <= j < |items| ==> items[j].show == v0[j].show
      invariant forall j :: 0 <= j < index ==> items[j].checked == AllCheckedView(v0[j], value).checked
      invariant forall j :: index <= j < |items| ==> items[j].checked == v0[j].checked
    {
      var item := items[index];
      ghost var v := v0[index];
      var flip := item.info.kind == File && item.show && item.checked != value;
      assert flip == (IsVisibleFile(v) && v.checked != value);
      assert Flipped(items, v0, value, index + 1) == Flipped(items, v0, value, index) + (if flip then [item] else []);
      if flip {
        item.checked := value;
        if value {
          arr := arr + [item];
        }
      }
      index := index + 1;
    }
    assert Views(items) == AllChecked(v0, value);
  }

  /** `arr.map(item => Object.assign({ show: false, ... }, item))` */
  method Wrap(arr: seq<ContentItem>) returns (res: seq<ContentOptionItem>)
    ensures |res| == |arr| && Distinct(res)
    ensures forall i :: 0 <= i < |arr| ==>
      fresh(res[i]) && res[i].info == arr[i] && !res[i].show && !res[i].checked
  {
    res := [];
    var i := 0;
    while i < |arr|
      invariant 0 <= i <= |arr| && |res| == i && Distinct(res)
      invariant forall k :: 0 <= k < i ==>
        fresh(res[k]) && res[k].info == arr[k] && !res[k].show && !res[k].checked
    {
      var o := new ContentOptionItem(arr[i]);
      res := res + [o];
      i := i + 1;
    }
  }
}
