/**
 * The web-FTP helpers: file-extension tests by regular expression, the list of
 * accepted upload types, the upload item (its icons and its one-shot result
 * state) and the builder of the folder tree.
 */
module FtpHelper {
  import opened JsCore

  // ---------------------------------------------------------------------------
  // Extension tests

  /** The character classes of extensionRegExp (`[a-zA-Z]`), imageRegExp
      (`[jpg|jpeg|png|gif]`) and codeRegExp (`[js|css]`). The latter two are
      character classes, not alternatives: they accept any run of their letters. */
  datatype CharClass = Letters | ImageChars | CodeChars

  predicate InClass(k: CharClass, c: char)
  {
    match k
    case Letters => IsAsciiLetter(c)
    case ImageChars =>
      c == 'j' || c == 'p' || c == 'g' || c == '|' || c == 'e' || c == 'n' || c == 'i' || c == 'f'
    case CodeChars => c == 'j' || c == 's' || c == '|' || c == 'c'
  }

  /** `/\.{1}(K{min,})$/` matches `s` with its dot at position `p`. */
  predicate MatchesAt(s: string, k: CharClass, min: nat, p: int)
  {
    0 <= p < |s| && s[p] == '.' && |s| - (p + 1) >= min
    && forall i :: p < i < |s| ==> InClass(k, s[i])
  }

  /** `s.lastIndexOf('.')` */
  function LastDot(s: string): (p: int)
    ensures -1 <= p < |s|
    ensures p >= 0 ==> s[p] == '.'
    ensures forall i :: p < i < |s| ==> s[i] != '.'
  {
    if s == [] then -1
    else if s[|s| - 1] == '.' then |s| - 1
    else LastDot(s[..|s| - 1])
  }

  /** `re.exec(s)`: the position of the matched dot. The match is unique, so
      the leftmost match the engine reports is this one. */
  function Exec(s: string, k: CharClass, min: nat): (r: Option<nat>)
    ensures r.Some? ==> MatchesAt(s, k, min, r.value) && r.value == LastDot(s)
    ensures forall p :: MatchesAt(s, k, min, p) ==> r == Some(p)
  {
    var p := LastDot(s);
    if p >= 0 && |s| - (p + 1) >= min && (forall i :: p < i < |s| ==> InClass(k, s[i])) then Some(p)
    else None
  }

  /** getExtension(str, index): index 0 gives the dot and the extension, 1 the
      extension alone, any other index `undefined` (None); no match gives ''. */
  function GetExtension(s: string, index: int): (r: Option<string>)
    ensures (forall p :: !MatchesAt(s, Letters, 2, p)) ==> r == Some("")
    ensures MatchesAt(s, Letters, 2, LastDot(s)) ==>
      var ext := s[LastDot(s) + 1..];
      |ext| >= 2 && (forall i :: 0 <= i < |ext| ==> IsAsciiLetter(ext[i]))
      && r == (if index == 0 then Some(['.'] + ext) else if index == 1 then Some(ext) else None)
  {
    match Exec(s, Letters, 2)
    case None => Some("")
    case Some(p) =>
      assert s[p..] == ['.'] + s[p + 1..];
      if index == 0 then Some(s[p..]) else if index == 1 then Some(s[p + 1..]) else None
  }

  /** isImage: the lower-cased name ends in '.' and three or more of j, p, g,
      |, e, n, i, f. */
  predicate IsImage(s: string)
    ensures IsImage(s) <==> exists p :: MatchesAt(Lower(s), ImageChars, 3, p)
  {
    Exec(Lower(s), ImageChars, 3).Some?
  }

  /** isCode: the lower-cased name ends in '.' and two or more of j, s, |, c. */
  predicate IsCode(s: string)
    ensures IsCode(s) <==> exists p :: MatchesAt(Lower(s), CodeChars, 2, p)
  {
    Exec(Lower(s), CodeChars, 2).Some?
  }

  lemma ImageUpperCase()
    ensures IsImage("a.JPEG")
  {
    assert Lower("a.JPEG") == "a.jpeg";
    assert MatchesAt("a.jpeg", ImageChars, 3, 1);
  }

  /** The character class accepts a name that is no image type at all. */
  lemma ImageAnyRun()
    ensures IsImage(".pig")
  {
    assert Lower(".pig") == ".pig";
    assert MatchesAt(".pig", ImageChars, 3, 0);
  }

  lemma ImageTooShort()
    ensures !IsImage("d.jp")
  {
    assert Lower("d.jp") == "d.jp";
    assert LastDot("d.jp") == 1;
  }

  lemma ImageOtherLetters()
    ensures !IsImage("c.bmp")
  {
    assert Lower("c.bmp") == "c.bmp";
    assert LastDot("c.bmp") == 1;
  }

  lemma CodeAnyRun()
    ensures IsCode("c.ss")
  {
    assert Lower("c.ss") == "c.ss";
    assert MatchesAt("c.ss", CodeChars, 2, 1);
  }

  lemma CodeOtherLetters()
    ensures !IsCode("d.ts")
  {
    assert Lower("d.ts") == "d.ts";
    assert LastDot("d.ts") == 1;
  }

  // ---------------------------------------------------------------------------
  // Accepted upload types

  const ImageAccepts: seq<string> := [".jpg", ".jpeg", ".png", ".gif"]
  const CodeAccepts: seq<string> := [".js", ".css"]
  const FileAccepts: seq<string> := [".pdf"]

  /** getInpuFileAccepts(image = true, code = true, file = false) */
  function InputFileAccepts(image: bool, code: bool, file: bool): (r: seq<string>)
    ensures |r| == (if image then 4 else 0) + (if code then 2 else 0) + (if file then 1 else 0)
    ensures image ==> r[..4] == ImageAccepts
    ensures code ==> var k := if image then 4 else 0; r[k..k + 2] == CodeAccepts
    ensures file ==> r[|r| - 1] == ".pdf"
    ensures forall x :: x in r <==>
      (image && x in ImageAccepts) || (code && x in CodeAccepts) || (file && x in FileAccepts)
  {
    var r0: seq<string> := [];
    var r1 := if image then r0 + ImageAccepts else r0;
    var r2 := if code then r1 + CodeAccepts else r1;
    if file then r2 + FileAccepts else r2
  }

  lemma DefaultAccepts()
    ensures InputFileAccepts(true, true, false) == [".jpg", ".jpeg", ".png", ".gif", ".js", ".css"]
  {
  }

  // ---------------------------------------------------------------------------
  // Upload items

  /** `_contentIcon.path`: mdiFolder, mdiImage, mdiCodeNotEqualVariant, mdiTextBox. */
  datatype ContentIcon = FolderIcon | ImageIcon | CodeIcon | TextIcon

  /** `_statusIcon`: mdiRadioboxBlank; mdiCheckCircle in green; mdiAlertCircle in red. */
  datatype StatusIcon = PendingIcon | SuccessIcon | FailureIcon

  /** The content icon the `title` setter chooses. */
  function ContentIconOf(title: string): (icon: ContentIcon)
    ensures icon == FolderIcon <==> forall p :: !MatchesAt(title, Letters, 2, p)
    ensures icon == ImageIcon <==> (exists p :: MatchesAt(title, Letters, 2, p)) && IsImage(title)
    ensures icon == CodeIcon <==> (exists p :: MatchesAt(title, Letters, 2, p)) && !IsImage(title) && IsCode(title)
  {
    var ext := GetExtension(title, 0);
    if ext == Some("") then FolderIcon
    else if IsImage(title) then ImageIcon
    else if IsCode(title) then CodeIcon
    else TextIcon
  }

  /** The upload state of an item: `_statusCode`, `_statusIcon`, `_errorMessage`. */
  datatype UploadStatus = UploadStatus(code: int, icon: StatusIcon, errorMessage: Option<string>)

  const InitialStatus := UploadStatus(-1, PendingIcon, None)

  /** setResult on a status: the new status and whether the call throws. */
  function SetResultStatus(st: UploadStatus, code: int, message: string): (r: (UploadStatus, bool))
    ensures r.1 <==> st.code >= 0
    ensures r.1 ==> r.0 == st
    ensures !r.1 ==> r.0.code == code
    ensures !r.1 ==> (r.0.icon == SuccessIcon <==> code == 200) && (r.0.icon == PendingIcon <==> code == -1)
    ensures !r.1 ==> r.0.errorMessage == (if code == 200 || code == -1 then st.errorMessage else Some(message))
  {
    if st.code >= 0 then (st, true)
    else if code == -1 then (st.(code := code, icon := PendingIcon), false)
    else if code == 200 then (st.(code := code, icon := SuccessIcon), false)
    else (UploadStatus(code, FailureIcon, Some(message)), false)
  }

  /** A run of setResult calls: the final status and how many calls threw. */
  function Replay(st: UploadStatus, calls: seq<(int, string)>): (r: (UploadStatus, nat))
    ensures r.1 <= |calls|
    decreases |calls|
  {
    if calls == [] then (st, 0)
    else
      var step := SetResultStatus(st, calls[0].0, calls[0].1);
      var rest := Replay(step.0, calls[1..]);
      (rest.0, rest.1 + if step.1 then 1 else 0)
  }

  /** Once a code >= 0 is recorded, every later call throws and changes nothing. */
  lemma {:induction false} Settled(st: UploadStatus, calls: seq<(int, string)>)
    requires st.code >= 0
    ensures Replay(st, calls) == (st, |calls|)
    decreases |calls|
  {
    if calls != [] {
      Settled(st, calls[1..]);
    }
  }

  /** The first code >= 0 in a run from an open status is the one that stays, and
      exactly the calls after it throw. */
  lemma {:induction false} FirstFinalCodeStays(st: UploadStatus, calls: seq<(int, string)>, k: nat)
    requires st.code < 0
    requires k < |calls| && calls[k].0 >= 0
    requires forall j :: 0 <= j < k ==> calls[j].0 < 0
    ensures Replay(st, calls).0.code == calls[k].0
    ensures Replay(st, calls).1 == |calls| - k - 1
    decreases k
  {
    var step := SetResultStatus(st, calls[0].0, calls[0].1);
    if k == 0 {
      Settled(step.0, calls[1..]);
    } else {
      FirstFinalCodeStays(step.0, calls[1..], k - 1);
    }
  }

  /** The file an upload item carries. */
  datatype UploadFile = UploadFile(name: string, size: nat)

  /** ActionItemClass (the interval timer is not modelled). */
  class ActionItem {
    var title: string
    var progress: real
    var statusCode: int
    var errorMessage: Option<string>
    var contentIcon: ContentIcon
    var statusIcon: StatusIcon
    var file: Option<UploadFile>

    function Status(): UploadStatus
      reads this
    {
      UploadStatus(statusCode, statusIcon, errorMessage)
    }

    /** `new ActionItemClass({ name, file })` */
    constructor (name: string, file: Option<UploadFile>)
      ensures title == name && contentIcon == ContentIconOf(name)
      ensures Status() == InitialStatus && progress == 0.0 && this.file == file
    {
      this.title := name;
      progress := 0.0;
      statusCode := -1;
      errorMessage := None;
      statusIcon := PendingIcon;
      this.file := file;
      contentIcon := ContentIconOf(name);
    }

    /** `get errorMessage()`: the message, or '' before any failure. */
    function ErrorMessageText(): (r: string)
      reads this
      ensures errorMessage.None? ==> r == ""
      ensures errorMessage.Some? ==> r == errorMessage.value
    {
      match errorMessage
      case None => ""
      case Some(m) => m
    }

    /** `set title(title)`: stores the title and picks the content icon. */
    method SetTitle(title: string)
      modifies this
      ensures this.title == title && contentIcon == ContentIconOf(title)
      ensures Status() == old(Status()) && progress == old(progress) && file == old(file)
    {
      this.title := title;
      contentIcon := ContentIconOf(title);
    }

    /** setResult(code, message = ''): `thrown` is the Error raised when a code
        >= 0 was already recorded; then nothing changes. */
    method SetResult(code: int, message: string) returns (thrown: bool)
      modifies this
      ensures (Status(), thrown) == SetResultStatus(old(Status()), code, message)
      ensures title == old(title) && contentIcon == old(contentIcon)
      ensures progress == old(progress) && file == old(file)
    {
      if statusCode >= 0 {
        return true;
      }
      thrown := false;
      statusCode := code;
      if code == -1 {
        statusIcon := PendingIcon;
      } else if code == 200 {
        statusIcon := SuccessIcon;
      } else {
        statusIcon := FailureIcon;
        errorMessage := Some(message);
      }
    }

    /** getProgressPercent: 0 for no progress, the whole part below 100, and
        100 from there on. */
    function ProgressPercent(): (r: int)
      reads this
      ensures progress == 0.0 ==> r == 0
      ensures progress != 0.0 && progress < 100.0 ==> r as real <= progress < r as real + 1.0
      ensures progress >= 100.0 ==> r == 100
      ensures 0.0 <= progress ==> 0 <= r <= 100
    {
      if progress == 0.0 then 0
      else if progress < 100.0 then progress.Floor
      else 100
    }
  }

  // ---------------------------------------------------------------------------
  // Folder tree

  /** TreeViewOption: a title and, optionally, the child folders. */
  datatype TreeViewOption = TreeViewOption(title: string, children: Children)

  /** `children?: TreeViewOption[]`: absent, or a (possibly empty) list. */
  datatype Children = NoChildren | ChildList(items: seq<TreeViewOption>)

  /** TreeViewItemClass. `Repr` is the set of nodes below this one. */
  class TreeViewItem {
    var title: string
    var opend: bool
    var active: bool
    var depth: int
    var parent: TreeViewItem?
    var children: Option<seq<TreeViewItem>>
    ghost var Repr: set<TreeViewItem>

    /** `new TreeViewItemClass(arg, depth)`: a depth of 0 or undefined becomes 1. */
    constructor (arg: TreeViewOption, depth: Option<int>)
      ensures title == arg.title && !opend && !active && parent == null && children.None?
      ensures this.depth == (if depth.Some? && depth.value != 0 then depth.value else 1)
      ensures Repr == {}
    {
      title := arg.title;
      opend := false;
      active := false;
      this.depth := if depth.Some? && depth.value != 0 then depth.value else 1;
      parent := null;
      children := None;
      Repr := {};
    }
  }

  /** Node `n` was built from `opt` under `p` with requested depth `d`: its
      title, depth and parent are right, and its children (present exactly when
      `opt` has a children list) were built the same way one level down. */
  ghost predicate Built(n: TreeViewItem, opt: TreeViewOption, d: int, p: TreeViewItem?)
    reads n, n.Repr
    decreases n.Repr
  {
    n.title == opt.title && !n.opend && !n.active && n.parent == p
    && n.depth == (if d != 0 then d else 1)
    && n !in n.Repr
    && (n.children.Some? <==> opt.children.ChildList?)
    && (opt.children.ChildList? ==>
      |n.children.value| == |opt.children.items|
      && forall k :: 0 <= k < |n.children.value| ==>
        var c := n.children.value[k];
        c in n.Repr && c.Repr <= n.Repr && c !in c.Repr
        && Built(c, opt.children.items[k], n.depth + 1, n))
  }

  /** The nodes of a list and everything below them. */
  ghost function Nodes(arr: seq<TreeViewItem>): set<TreeViewItem>
    reads set i | 0 <= i < |arr| :: arr[i]
  {
    set i, o | 0 <= i < |arr| && o in {arr[i]} + arr[i].Repr :: o
  }

  /** _addItems(children, parent): one new node per entry, in order, each built
      recursively below `parent`; a parent without a children list gets `[]`
      as soon as there is an entry. */
  method AddItems(children: seq<TreeViewOption>, parent: TreeViewItem?) returns (arr: seq<TreeViewItem>)
    modifies (if parent == null then {} else {parent})`children
    ensures |arr| == |children|
    ensures parent != null ==>
      parent.children == (if children != [] && old(parent.children).None? then Some([]) else old(parent.children))
    ensures forall i :: 0 <= i < |arr| ==>
      fresh(arr[i]) && fresh(arr[i].Repr)
      && Built(arr[i], children[i], if parent == null then 1 else parent.depth + 1, parent)
    ensures forall i, j :: 0 <= i < j < |arr| ==> arr[i] != arr[j] && arr[i] !in arr[j].Repr && arr[j] !in arr[i].Repr
    ensures fresh(Nodes(arr))
    decreases children
  {
    arr := [];
    var index := 0;
    while index < |children|
      invariant 0 <= index <= |children| && |arr| == index
      invariant parent != null ==>
        parent.children == (if index > 0 && old(parent.children).None? then Some([]) else old(parent.children))
      invariant forall i :: 0 <= i < index ==>
        fresh(arr[i]) && fresh(arr[i].Repr)
        && Built(arr[i], children[i], if parent == null then 1 else parent.depth + 1, parent)
      invariant forall i, j :: 0 <= i < j < index ==> arr[i] != arr[j] && arr[i] !in arr[j].Repr && arr[j] !in arr[i].Repr
    {
      var item := children[index];
      var depth := 1;
      if parent != null {
        if parent.children.None? {
          parent.children := Some([]);
        }
        depth := parent.depth + 1;
      }
      var ltem := NewNode(item, parent, depth);
      arr := arr + [ltem];
      index := index + 1;
    }
  }

  /** One step of _addItems: the node for `item` and, recursively, its children. */
  method NewNode(item: TreeViewOption, parent: TreeViewItem?, depth: int) returns (ltem: TreeViewItem)
    ensures fresh(ltem) && fresh(ltem.Repr) && Built(ltem, item, depth, parent)
    decreases item
  {
    ltem := new TreeViewItem(item, Some(depth));
    if parent != null {
      ltem.parent := parent;
    }
    if item.children.ChildList? {
      var result := AddItems(item.children.items, ltem);
      forall k | 0 <= k < |result|
        ensures ltem != result[k] && ltem !in result[k].Repr
      {
        assert result[k] in {result[k]} + result[k].Repr;
      }
      ghost var below := Nodes(result);
      LinkChildren(ltem, result, item.children.items);
      assert ltem.Repr == below;
    }
  }

  /** `ltem.children = result`, with the ghost set of the nodes below kept up to date. */
  method LinkChildren(ltem: TreeViewItem, result: seq<TreeViewItem>, items: seq<TreeViewOption>)
    requires |result| == |items| && ltem !in Nodes(result)
    requires forall k :: 0 <= k < |result| ==> Built(result[k], items[k], ltem.depth + 1, ltem)
    modifies ltem`children, ltem`Repr
    ensures ltem.children == Some(result) && ltem.Repr == Nodes(result) && ltem !in ltem.Repr
    ensures forall k :: 0 <= k < |result| ==>
      result[k] in ltem.Repr && result[k].Repr <= ltem.Repr && result[k] !in result[k].Repr
      && Built(result[k], items[k], ltem.depth + 1, ltem)
  {
    ltem.children := Some(result);
    ltem.Repr := Nodes(result);
    forall k | 0 <= k < |result|
      ensures result[k] in ltem.Repr && result[k].Repr <= ltem.Repr && result[k] !in result[k].Repr
      ensures Built(result[k], items[k], ltem.depth + 1, ltem)
    {
      assert result[k] in {result[k]} + result[k].Repr;
    }
  }
}
