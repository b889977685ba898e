/**
 * The smart-editor store: the page being edited (its uid and configuration),
 * the ordered list of sections placed on it, and a per-category cache of
 * pick-list options filled from server responses.
 */
module SmartEditor {
  import opened JsCore
  import Util

  // ---------------------------------------------------------------------------
  // Page configuration

  /** The eleven fields of a page's configuration; the flags are 0 or 1. */
  datatype PageConfig = PageConfig(
    layoutUid: string, mobilePageUid: string, backPageUid: string, scriptUid: string,
    pageName: string, pageCode: string, htmlPath: string,
    isUseMobilePage: int, isUseBackPage: int, isUseScript: int, isOn: int)

  const EmptyConfig := PageConfig("", "", "", "", "", "", "", 0, 0, 0, 0)

  /** `isOn ? 'ON' : 'OFF'` */
  function OnOff(isOn: int): (r: string)
    ensures r == "ON" <==> isOn != 0
  {
    if isOn != 0 then "ON" else "OFF"
  }

  // ---------------------------------------------------------------------------
  // Sections

  /** A section's configuration object, field name to value. */
  type SectionFields = map<string, JsValue>

  const RelUidField := "pageSectionRelUid"

  datatype Section = Section(key: int, pageSectionRelUid: string, sectionType: string, config: SectionFields)

  /** The configuration object a caller hands to setSection, which may write into it. */
  class SectionConfig {
    var fields: SectionFields

    constructor (fields: SectionFields)
      ensures this.fields == fields
    {
      this.fields := fields;
    }
  }

  ghost predicate DistinctKeys(ss: seq<Section>)
  {
    forall i, j :: 0 <= i < j < |ss| ==> ss[i].key != ss[j].key
  }

  ghost predicate KeysBelow(ss: seq<Section>, n: int)
  {
    forall i :: 0 <= i < |ss| ==> ss[i].key < n
  }

  /** The insertion point setAddSectionIndex plans for a list of `len`
      sections when section `index` was picked. */
  function PlannedIndex(len: nat, index: int): (r: int)
    ensures r >= 0 <==> 0 <= index < len - 1
    ensures r >= 0 ==> r == index + 1 && 1 <= r < len
    ensures r < 0 ==> r == -1 || (index < -1 && r == index + 1)
  {
    if index < len - 1 && index != -1 then index + 1 else -1
  }

  /** Where setSection puts a new section: spliced in at a non-negative
      planned index, pushed at the end otherwise. */
  function PlaceSection(ss: seq<Section>, addIndex: int, s: Section): (r: seq<Section>)
    ensures |r| == |ss| + 1
    ensures multiset(r) == multiset(ss) + multiset{s}
    ensures addIndex < 0 || addIndex >= |ss| ==> r == ss + [s]
  {
    if addIndex >= 0 then InsertAt(ss, addIndex, s) else ss + [s]
  }

  /** sortSection: the section at `index` is spliced out and spliced back in
      one place further down (`sort == 1`) or up (any other value). Both
      splices clamp their start, so an index before the first section moves
      the first one. */
  function MoveSection(ss: seq<Section>, index: int, sort: int): (r: seq<Section>)
    requires ss != [] && index < |ss|
    ensures |r| == |ss|
    ensures multiset(r) == multiset(ss)
  {
    var k := SpliceStart(|ss|, index);
    var t := RemoveAt(ss, index);
    InsertAt(t, if sort == 1 then index + 1 else index - 1, ss[k])
  }

  lemma InsertFreshKey(ss: seq<Section>, k: int, s: Section)
    requires DistinctKeys(ss)
    requires forall i :: 0 <= i < |ss| ==> ss[i].key != s.key
    ensures DistinctKeys(InsertAt(ss, k, s))
  {
    var r := InsertAt(ss, k, s);
    var p := SpliceStart(|ss|, k);
    assert forall i :: 0 <= i < |r| ==> r[i] == if i < p then ss[i] else if i == p then s else ss[i - 1];
  }

  lemma RemoveKeepsKeys(ss: seq<Section>, index: int, n: int)
    requires DistinctKeys(ss) && KeysBelow(ss, n)
    ensures var r := RemoveAt(ss, index); DistinctKeys(r) && KeysBelow(r, n)
    ensures var k := SpliceStart(|ss|, index);
      k < |ss| ==> forall i :: 0 <= i < |RemoveAt(ss, index)| ==> RemoveAt(ss, index)[i].key != ss[k].key
  {
    var r := RemoveAt(ss, index);
    var k := SpliceStart(|ss|, index);
    if k < |ss| {
      assert forall i :: 0 <= i < |r| ==> r[i] == if i < k then ss[i] else ss[i + 1];
    }
  }

  lemma MoveKeepsKeys(ss: seq<Section>, index: int, sort: int, n: int)
    requires ss != [] && index < |ss|
    requires DistinctKeys(ss) && KeysBelow(ss, n)
    ensures DistinctKeys(MoveSection(ss, index, sort)) && KeysBelow(MoveSection(ss, index, sort), n)
  {
    var k := SpliceStart(|ss|, index);
    RemoveKeepsKeys(ss, index, n);
    var t := RemoveAt(ss, index);
    InsertFreshKey(t, if sort == 1 then index + 1 else index - 1, ss[k]);
    var r := MoveSection(ss, index, sort);
    forall i | 0 <= i < |r|
      ensures r[i].key < n
    {
      assert r[i] in multiset(ss);
    }
  }

  lemma PlaceFreshKey(ss: seq<Section>, addIndex: int, s: Section, n: int)
    requires DistinctKeys(ss) && KeysBelow(ss, n) && s.key == n
    ensures DistinctKeys(PlaceSection(ss, addIndex, s)) && KeysBelow(PlaceSection(ss, addIndex, s), n + 1)
  {
    var r := PlaceSection(ss, addIndex, s);
    if addIndex >= 0 {
      InsertFreshKey(ss, addIndex, s);
    }
    forall i | 0 <= i < |r|
      ensures r[i].key < n + 1
    {
      assert r[i] in multiset(ss) + multiset{s};
    }
  }

  /** A new section lands immediately below the section that was picked. */
  lemma PlannedInsertLandsBelow(ss: seq<Section>, index: int, s: Section)
    requires 0 <= index < |ss|
    ensures PlaceSection(ss, PlannedIndex(|ss|, index), s) == ss[..index + 1] + [s] + ss[index + 1..]
  {
    if index == |ss| - 1 {
      assert ss[..index + 1] == ss;
    }
  }

  /** Without a picked section (or with one outside the list) it is appended. */
  lemma UnplannedInsertAppends(ss: seq<Section>, index: int, s: Section)
    requires index < 0 || index >= |ss|
    ensures PlaceSection(ss, PlannedIndex(|ss|, index), s) == ss + [s]
  {
  }

  /** addSectionIndex is not advanced by setSection: two sections added in a
      row at the same planned index come out in reverse order. */
  lemma {:induction false} StickyIndexStacks(ss: seq<Section>, k: nat, s1: Section, s2: Section)
    requires k <= |ss|
    ensures PlaceSection(PlaceSection(ss, k, s1), k, s2) == ss[..k] + [s2, s1] + ss[k..]
  {
    var r1 := PlaceSection(ss, k, s1);
    assert r1 == ss[..k] + [s1] + ss[k..];
    assert r1[..k] == ss[..k] && r1[k..] == [s1] + ss[k..];
  }

  /** Moving a section down (sort 1) that is not the last swaps it with its successor. */
  lemma MoveDownSwaps(ss: seq<Section>, index: int)
    requires 0 <= index < |ss| - 1
    ensures MoveSection(ss, index, 1) == ss[index := ss[index + 1]][index + 1 := ss[index]]
  {
    var t := RemoveAt(ss, index);
    assert t == ss[..index] + ss[index + 1..];
  }

  /** Moving a section up (any other sort value) that is not the first swaps it with its predecessor. */
  lemma MoveUpSwaps(ss: seq<Section>, index: int, sort: int)
    requires 1 <= index < |ss| && sort != 1
    ensures MoveSection(ss, index, sort) == ss[index - 1 := ss[index]][index := ss[index - 1]]
  {
    var t := RemoveAt(ss, index);
    assert t == ss[..index] + ss[index + 1..];
  }

  /** Moving the last section down leaves the list as it was. */
  lemma MoveLastDownStays(ss: seq<Section>)
    requires |ss| >= 1
    ensures MoveSection(ss, |ss| - 1, 1) == ss
  {
    var t := RemoveAt(ss, |ss| - 1);
    assert t == ss[..|ss| - 1];
  }

  /** Moving the first section up does not stay put: splice(-1, 0, x) puts it
      just before the last section. */
  lemma MoveFirstUpWraps(ss: seq<Section>, sort: int)
    requires |ss| >= 2 && sort != 1
    ensures MoveSection(ss, 0, sort) == ss[1..|ss| - 1] + [ss[0], ss[|ss| - 1]]
  {
    var t := RemoveAt(ss, 0);
    assert t == ss[1..];
    assert t[..|t| - 1] == ss[1..|ss| - 1];
  }

  // ---------------------------------------------------------------------------
  // Options

  /** The option categories, `SmartPageOptionTypes`. */
  datatype Category = Page | Layout | Script | InputForm | RollingBanner | RollingList | Import | Comment | Template

  const AllCategories: set<Category> :=
    {Page, Layout, Script, InputForm, RollingBanner, RollingList, Import, Comment, Template}

  /** The category's name as the source spells it. */
  function Flag(c: Category): string
  {
    match c
    case Page => "page"
    case Layout => "layout"
    case Script => "script"
    case InputForm => "inputForm"
    case RollingBanner => "rollingBanner"
    case RollingList => "rollingList"
    case Import => "import"
    case Comment => "comment"
    case Template => "template"
  }

  /** The response code that marks a successful fetch of the category. */
  function SuccessCode(c: Category): string
  {
    match c
    case Layout => "SMART_LAYOUT_GET_SUCCESS"
    case Page => "SMART_PAGE_GET_SUCCESS"
    case Script => "SMART_SCRIPT_GET_SUCCESS"
    case InputForm => "SMART_INPUT_FORM_GET_SUCCESS"
    case RollingBanner => "SMART_LIST_BANNER_GRP_GET_SUCCESS"
    case RollingList => "SMART_LIST_ROLLING_GRP_GET_SUCCESS"
    case Import => "SMART_IMPORT_GET_SUCCESS"
    case Comment => "SMART_COMMENT_GRP_GET_SUCCESS"
    case Template => "TEMPLATES_GET_SUCCESS"
  }

  /** A pick-list entry. */
  datatype OptionItem = OptionItem(text: string, value: JsValue, add: Option<JsValue>, code: Option<JsValue>)

  /** What the fetch of a category produced: a response, or a thrown error. */
  datatype OptionsResponse =
    | Responded(code: string, results: map<string, seq<Record>>)
    | Failed(error: Util.CaughtError)

  /** `_getTypeByKeys`: the record field holding the uid, and the "Grp" infix. */
  function TypeByKeys(c: Category): (r: (string, string))
    ensures r.1 == "Grp" <==> c in {RollingBanner, RollingList, Comment}
    ensures r.1 == "" <==> c !in {RollingBanner, RollingList, Comment}
    ensures c in {Layout, Page, Script, Template} ==> r.0 == Flag(c) + "Uid"
    ensures c !in {Layout, Page, Script, Template} ==> r.0 == "comp" + UpperFirst(Flag(c)) + r.1 + "Uid"
  {
    var flag := Flag(c);
    var grp := if flag in ["rollingBanner", "rollingList", "comment"] then "Grp" else "";
    var key := flag + grp + "Uid";
    if flag !in ["layout", "page", "script", "template"] then
      ("comp" + UpperFirst(flag) + grp + "Uid", grp)
    else (key, grp)
  }

  /** The field of `results` that holds the category's records. */
  function ListKey(c: Category): string
  {
    Flag(c) + TypeByKeys(c).1 + "s"
  }

  /** The record field that holds an entry's display name. */
  function NameKey(c: Category): string
  {
    Flag(c) + TypeByKeys(c).1 + "Name"
  }

  /** The record and field names the derivation produces, category by category. */
  lemma PageFieldNames()
    ensures TypeByKeys(Page) == ("pageUid", "") && ListKey(Page) == "pages" && NameKey(Page) == "pageName"
  {
    assert Flag(Page) == "page";
    assert "page" !in ["rollingBanner", "rollingList", "comment"];
    assert TypeByKeys(Page).1 == "";
    assert "page" in ["layout", "page", "script", "template"];
    assert TypeByKeys(Page).0 == "page" + "" + "Uid" == "pageUid";
    assert TypeByKeys(Page) == (TypeByKeys(Page).0, TypeByKeys(Page).1);
  }

  lemma TemplateFieldNames()
    ensures TypeByKeys(Template) == ("templateUid", "") && ListKey(Template) == "templates"
  {
    assert Flag(Template) == "template";
    assert TypeByKeys(Template).1 == "";
    assert TypeByKeys(Template).0 == "template" + "" + "Uid" == "templateUid";
    assert TypeByKeys(Template) == (TypeByKeys(Template).0, TypeByKeys(Template).1);
  }

  lemma InputFormFieldNames()
    ensures TypeByKeys(InputForm) == ("compInputFormUid", "") && ListKey(InputForm) == "inputForms"
  {
    assert Flag(InputForm) == "inputForm";
    assert TypeByKeys(InputForm).1 == "";
    assert AsciiUpper('i') == 'I';
    assert UpperFirst("inputForm") == "InputForm";
    assert TypeByKeys(InputForm).0 == "comp" + "InputForm" + "" + "Uid" == "compInputFormUid";
    assert TypeByKeys(InputForm) == (TypeByKeys(InputForm).0, TypeByKeys(InputForm).1);
  }

  lemma RollingBannerFieldNames()
    ensures TypeByKeys(RollingBanner) == ("compRollingBannerGrpUid", "Grp")
    ensures ListKey(RollingBanner) == "rollingBannerGrps" && NameKey(RollingBanner) == "rollingBannerGrpName"
  {
    RollingBannerKeys();
    assert "rollingBanner" + "Grp" + "s" == "rollingBannerGrps";
    assert "rollingBanner" + "Grp" + "Name" == "rollingBannerGrpName";
  }

  lemma RollingBannerKeys()
    ensures Flag(RollingBanner) == "rollingBanner"
    ensures TypeByKeys(RollingBanner) == ("compRollingBannerGrpUid", "Grp")
  {
    RollingBannerGrp();
    assert TypeByKeys(RollingBanner).0 == "comp" + "RollingBanner" + "Grp" + "Uid" == "compRollingBannerGrpUid";
    assert TypeByKeys(RollingBanner) == (TypeByKeys(RollingBanner).0, TypeByKeys(RollingBanner).1);
  }

  lemma RollingBannerGrp()
    ensures Flag(RollingBanner) == "rollingBanner"
    ensures TypeByKeys(RollingBanner).1 == "Grp"
    ensures UpperFirst("rollingBanner") == "RollingBanner"
  {
    assert AsciiUpper('r') == 'R';
  }

  lemma CommentFieldNames()
    ensures TypeByKeys(Comment) == ("compCommentGrpUid", "Grp") && ListKey(Comment) == "commentGrps"
  {
    assert Flag(Comment) == "comment";
    assert TypeByKeys(Comment).1 == "Grp";
    assert AsciiUpper('c') == 'C';
    assert UpperFirst("comment") == "Comment";
    assert TypeByKeys(Comment).0 == "comp" + "Comment" + "Grp" + "Uid" == "compCommentGrpUid";
    assert TypeByKeys(Comment) == (TypeByKeys(Comment).0, TypeByKeys(Comment).1);
    assert "comment" + "Grp" + "s" == "commentGrps";
  }

  lemma CategoryListed(c: Category)
    ensures c in AllCategories
  {
    match c
    case Page =>
    case Layout =>
    case Script =>
    case InputForm =>
    case RollingBanner =>
    case RollingList =>
    case Import =>
    case Comment =>
    case Template =>
  }

  /** The record-to-entry mapping inside optionCall. */
  function OptionOf(c: Category, rec: Record): (o: OptionItem)
    ensures o.value == Get(rec, TypeByKeys(c).0)
    ensures c != Page ==> o.text == ToStr(Get(rec, NameKey(c))) && o.code.None?
    ensures c == Page ==> o.text == ToStr(Get(rec, NameKey(c))) + " (" + ToStr(Get(rec, "pageCode")) + ")"
    ensures c == Page ==> o.add == Some(JStr(if Truthy(Get(rec, "isOn")) then "ON" else "OFF"))
                          && o.code == Some(Get(rec, "pageCode"))
    ensures c == Template ==> o.add == Some(Get(rec, "sourceCode"))
    ensures c != Page && c != Template ==> o.add.None?
  {
    var keyUid := TypeByKeys(c).0;
    var text := ToStr(Get(rec, NameKey(c))) + (if c == Page then " (" + ToStr(Get(rec, "pageCode")) + ")" else "");
    if c == Page then
      OptionItem(text, Get(rec, keyUid), Some(JStr(if Truthy(Get(rec, "isOn")) then "ON" else "OFF")), Some(Get(rec, "pageCode")))
    else if c == Template then
      OptionItem(text, Get(rec, keyUid), Some(Get(rec, "sourceCode")), None)
    else
      OptionItem(text, Get(rec, keyUid), None, None)
  }

  function OptionsOf(c: Category, records: seq<Record>): (r: seq<OptionItem>)
    ensures |r| == |records|
    ensures forall i :: 0 <= i < |records| ==> r[i] == OptionOf(c, records[i])
  {
    seq(|records|, i requires 0 <= i < |records| => OptionOf(c, records[i]))
  }

  /** The option cache after optionCall(c) received `resp`. */
  function Refreshed(options: map<Category, seq<OptionItem>>, c: Category, resp: OptionsResponse): map<Category, seq<OptionItem>>
  {
    if resp.Responded? && resp.code == SuccessCode(c) && ListKey(c) in resp.results && |resp.results[ListKey(c)]| > 0
    then options[c := OptionsOf(c, resp.results[ListKey(c)])]
    else options
  }

  /** The cache of category `c` is replaced exactly when the response carries
      c's success code and a non-empty record list; no other category changes. */
  lemma RefreshedExactly(options: map<Category, seq<OptionItem>>, c: Category, resp: OptionsResponse)
    requires c in options
    ensures Refreshed(options, c, resp).Keys == options.Keys
    ensures forall d :: d in options && d != c ==> Refreshed(options, c, resp)[d] == options[d]
    ensures Refreshed(options, c, resp)[c] != options[c] ==>
      resp.Responded? && resp.code == SuccessCode(c) && ListKey(c) in resp.results
      && |resp.results[ListKey(c)]| > 0
      && Refreshed(options, c, resp)[c] == OptionsOf(c, resp.results[ListKey(c)])
    ensures resp.Failed? || resp.code != SuccessCode(c) ==> Refreshed(options, c, resp) == options
  {
  }

  /** A success code of one category does not refresh another. */
  lemma SuccessCodesDistinct(c: Category, d: Category)
    requires c != d
    ensures SuccessCode(c) != SuccessCode(d)
  {
  }

  /** The text of the first entry whose
      value is `uid`, or '' when there is none. */
  function OptionName(items: seq<OptionItem>, uid: string): string
  {
    if items == [] then ""
    else if items[0].value == JStr(uid) then items[0].text
    else OptionName(items[1..], uid)
  }

  /** The lookup finds the first entry listing `uid`. */
  lemma {:induction false} OptionNameFirst(items: seq<OptionItem>, uid: string, i: nat)
    requires i < |items| && items[i].value == JStr(uid)
    requires forall j :: 0 <= j < i ==> items[j].value != JStr(uid)
    ensures OptionName(items, uid) == items[i].text
  {
    if i > 0 {
      assert items[1..][i - 1] == items[i];
      OptionNameFirst(items[1..], uid, i - 1);
    }
  }

  /** With no entry listing `uid` the lookup gives ''. */
  lemma {:induction false} OptionNameMissing(items: seq<OptionItem>, uid: string)
    requires forall i :: 0 <= i < |items| ==> items[i].value != JStr(uid)
    ensures OptionName(items, uid) == ""
  {
    if items != [] {
      OptionNameMissing(items[1..], uid);
    }
  }

  /** changePageOption's effect on one entry. */
  function Rename(item: OptionItem, uid: string, name: string, add: string): OptionItem
  {
    if item.value == JStr(uid) then item.(text := name, add := Some(JStr(add))) else item
  }

  /** changePageOption: every entry with value `uid` is renamed (the `return`
      inside forEach does not stop the loop), the others are kept. */
  function Renamed(items: seq<OptionItem>, uid: string, name: string, add: string): (r: seq<OptionItem>)
    ensures |r| == |items|
    ensures forall i :: 0 <= i < |items| ==> r[i] == Rename(items[i], uid, name, add)
  {
    if items == [] then [] else [Rename(items[0], uid, name, add)] + Renamed(items[1..], uid, name, add)
  }

  /** After a rename, looking `uid` up gives the new name, if `uid` was listed. */
  lemma {:induction false} RenamedLookup(items: seq<OptionItem>, uid: string, name: string, add: string)
    requires exists i :: 0 <= i < |items| && items[i].value == JStr(uid)
    ensures OptionName(Renamed(items, uid, name, add), uid) == name
  {
    if items[0].value != JStr(uid) {
      var r := Renamed(items, uid, name, add);
      assert r[1..] == Renamed(items[1..], uid, name, add);
      assert exists i :: 0 <= i < |items[1..]| && items[1..][i].value == JStr(uid) by {
        var i :| 0 <= i < |items| && items[i].value == JStr(uid);
        assert items[1..][i - 1].value == JStr(uid);
      }
      RenamedLookup(items[1..], uid, name, add);
    }
  }

  /** A rename does not change what other uids look up to. */
  lemma {:induction false} RenamedOtherLookup(items: seq<OptionItem>, uid: string, name: string, add: string, other: string)
    requires other != uid
    ensures OptionName(Renamed(items, uid, name, add), other) == OptionName(items, other)
  {
    if items != [] {
      var r := Renamed(items, uid, name, add);
      assert r[1..] == Renamed(items[1..], uid, name, add);
      RenamedOtherLookup(items[1..], uid, name, add, other);
    }
  }

  // ---------------------------------------------------------------------------
  // The store

  class EditorStore {
    var pageUid: string
    var pageConfig: PageConfig
    var sections: seq<Section>
    var addSectionIndex: int
    var sort: bool
    var sortMode: bool
    /** `_sectionCount`, the key the next section gets. */
    var sectionCount: int
    var options: map<Category, seq<OptionItem>>

    /** Every category has a cache, and section keys are distinct stamps
        below the counter. */
    ghost predicate Valid()
      reads this
    {
      OptionsValid() && SectionsValid()
    }

    ghost predicate OptionsValid()
      reads this`options
    {
      forall c: Category :: c in options
    }

    ghost predicate SectionsValid()
      reads this`sections, this`sectionCount
    {
      KeysBelow(sections, sectionCount) && DistinctKeys(sections)
    }

    constructor ()
      ensures Valid()
      ensures pageUid == "" && pageConfig == EmptyConfig
      ensures sections == [] && addSectionIndex == -1 && !sort && !sortMode && sectionCount == 1
      ensures options == map c | c in AllCategories :: []
    {
      pageUid := "";
      pageConfig := EmptyConfig;
      sections := [];
      addSectionIndex := -1;
      sort := false;
      sortMode := false;
      sectionCount := 1;
      options := map c | c in AllCategories :: [];
      new;
      forall c: Category
        ensures c in options
      {
        CategoryListed(c);
      }
    }

    /** `isSetConfig` */
    predicate IsSetConfig()
      reads this
    {
      pageConfig.pageName != "" && pageConfig.layoutUid != ""
    }

    method UpdatePageConfig(config: PageConfig)
      modifies this`pageConfig
      ensures pageConfig == config
      ensures IsSetConfig() <==> config.pageName != "" && config.layoutUid != ""
    {
      pageConfig := pageConfig.(layoutUid := config.layoutUid, mobilePageUid := config.mobilePageUid,
        backPageUid := config.backPageUid, scriptUid := config.scriptUid, pageName := config.pageName,
        pageCode := config.pageCode, htmlPath := config.htmlPath, isUseMobilePage := config.isUseMobilePage,
        isUseBackPage := config.isUseBackPage, isUseScript := config.isUseScript, isOn := config.isOn);
    }

    method SetPageUid(uid: string)
      modifies this`pageUid
      ensures pageUid == uid
    {
      pageUid := uid;
    }

    method ClearPageConfig()
      modifies this`pageUid, this`pageConfig
      ensures pageUid == "" && pageConfig == EmptyConfig
      ensures !IsSetConfig()
    {
      pageUid := "";
      pageConfig := EmptyConfig;
    }

    method SortSwitching()
      modifies this`sort
      ensures sort == !old(sort)
    {
      sort := !sort;
    }

    method ToggleSortMode()
      modifies this`sortMode
      ensures sortMode == !old(sortMode)
    {
      sortMode := !sortMode;
    }

    method SetAddSectionIndex(index: int)
      modifies this`addSectionIndex
      ensures addSectionIndex == PlannedIndex(|sections|, index)
    {
      addSectionIndex := -1;
      if index < |sections| - 1 && index != -1 {
        addSectionIndex := index + 1;
      }
    }

    /** Stamps the new section with the counter, writes a non-empty
        `pageSectionRelUid` into the caller's config first and stores a copy
        of that config. */
    method SetSection(sectionType: string, config: SectionConfig, pageSectionRelUid: string)
      requires Valid()
      modifies this`sections, this`sectionCount, config
      ensures Valid()
      ensures config.fields == if pageSectionRelUid != "" then old(config.fields)[RelUidField := JStr(pageSectionRelUid)]
                               else old(config.fields)
      ensures sectionCount == old(sectionCount) + 1
      ensures sections == PlaceSection(old(sections), addSectionIndex,
                                       Section(old(sectionCount), pageSectionRelUid, sectionType, config.fields))
    {
      if pageSectionRelUid != "" {
        config.fields := config.fields[RelUidField := JStr(pageSectionRelUid)];
      }
      var added := Section(sectionCount, pageSectionRelUid, sectionType, config.fields);
      PlaceFreshKey(sections, addSectionIndex, added, sectionCount);
      sectionCount := sectionCount + 1;
      if addSectionIndex >= 0 {
        sections := InsertAt(sections, addSectionIndex, added);
      } else {
        sections := sections + [added];
      }
    }

    /** `sections[index].config = config`; an index outside the list throws. */
    method UpdateSection(index: int, config: SectionFields) returns (thrown: bool)
      requires Valid()
      modifies this`sections
      ensures Valid()
      ensures thrown <==> !(0 <= index < |old(sections)|)
      ensures sections == if thrown then old(sections) else old(sections)[index := old(sections)[index].(config := config)]
    {
      if !(0 <= index < |sections|) {
        return true;
      }
      sections := sections[index := sections[index].(config := config)];
      thrown := false;
    }

    method RemoveSection(index: int)
      requires Valid()
      modifies this`sections
      ensures Valid()
      ensures sections == RemoveAt(old(sections), index)
    {
      RemoveKeepsKeys(sections, index, sectionCount);
      sections := RemoveAt(sections, index);
    }

    method RemoveSectionAll()
      requires Valid()
      modifies this`sections
      ensures Valid()
      ensures sections == []
    {
      sections := [];
    }

    /** `sections[index]`, undefined outside the list. */
    function GetSection(index: int): (r: Option<Section>)
      reads this
      ensures r.Some? <==> 0 <= index < |sections|
      ensures r.Some? ==> r.value == sections[index]
    {
      if 0 <= index < |sections| then Some(sections[index]) else None
    }

    method SortSection(index: int, sort: int)
      requires Valid()
      requires sections != [] && index < |sections|
      modifies this`sections
      ensures Valid()
      ensures sections == MoveSection(old(sections), index, sort)
    {
      MoveKeepsKeys(sections, index, sort, sectionCount);
      var section := sections[SpliceStart(|sections|, index)];
      sections := RemoveAt(sections, index);
      if sort == 1 {
        sections := InsertAt(sections, index + 1, section);
      } else {
        sections := InsertAt(sections, index - 1, section);
      }
    }

    method ResetEditor()
      requires Valid()
      modifies this`pageUid, this`pageConfig, this`sort, this`sortMode, this`sections, this`sectionCount, this`addSectionIndex
      ensures Valid()
      ensures pageUid == "" && pageConfig == EmptyConfig && !sort && !sortMode
      ensures sections == [] && sectionCount == 0 && addSectionIndex == -1
    {
      ClearPageConfig();
      sort := false;
      sortMode := false;
      sections := [];
      sectionCount := 0;
      addSectionIndex := -1;
    }

    /** `setOption(flag, opt)`: stores the options of one category. */
    method SetOption(c: Category, opt: seq<OptionItem>)
      requires Valid()
      modifies this`options
      ensures Valid()
      ensures options == old(options)[c := opt]
    {
      options := options[c := opt];
    }

    /** The response-handling half of optionCall. `caught` is the error its
        catch block hands to axiosErrorCatch: the thrown error of a failed
        fetch, or the TypeError of reading the length of a record list the
        response lacks. */
    method OptionCall(c: Category, resp: OptionsResponse) returns (caught: Option<Util.CaughtError>)
      requires Valid()
      modifies this`options
      ensures Valid()
      ensures options == Refreshed(old(options), c, resp)
      ensures caught == if resp.Failed? then Some(resp.error)
                        else if resp.code == SuccessCode(c) && ListKey(c) !in resp.results then Some(Util.NonAxiosError)
                        else None
    {
      if resp.Failed? {
        return Some(resp.error);
      }
      caught := None;
      if resp.code == SuccessCode(c) {
        var listKey := ListKey(c);
        if listKey !in resp.results {
          return Some(Util.NonAxiosError);
        }
        var records := resp.results[listKey];
        if |records| > 0 {
          SetOption(c, OptionsOf(c, records));
        }
      }
    }

    /** Prepends the newly saved page to the page options and makes it current. */
    method AddPageOption(uid: string)
      requires Valid()
      modifies this`options, this`pageUid
      ensures Valid()
      ensures options == old(options)[Page := [OptionItem(pageConfig.pageName, JStr(uid), Some(JStr(OnOff(pageConfig.isOn))), None)]
                                              + old(options)[Page]]
      ensures pageUid == uid
      ensures OptionName(options[Page], uid) == pageConfig.pageName
    {
      var entry := OptionItem(pageConfig.pageName, JStr(uid), Some(JStr(OnOff(pageConfig.isOn))), None);
      options := options[Page := [entry] + options[Page]];
      SetPageUid(uid);
    }

    method ChangePageOption(uid: string)
      requires Valid()
      modifies this`options
      ensures Valid()
      ensures options == old(options)[Page := Renamed(old(options)[Page], uid, pageConfig.pageName, OnOff(pageConfig.isOn))]
    {
      var items := options[Page];
      var add := OnOff(pageConfig.isOn);
      var i := 0;
      while i < |items|
        invariant 0 <= i <= |items| && |items| == |old(options)[Page]|
        invariant forall j :: 0 <= j < i ==> items[j] == Rename(old(options)[Page][j], uid, pageConfig.pageName, add)
        invariant forall j :: i <= j < |items| ==> items[j] == old(options)[Page][j]
      {
        if items[i].value == JStr(uid) {
          items := items[i := items[i].(text := pageConfig.pageName, add := Some(JStr(add)))];
        }
        i := i + 1;
      }
      assert items == Renamed(old(options)[Page], uid, pageConfig.pageName, add);
      options := options[Page := items];
    }

    /** `getOptionName` */
    function GetOptionName(c: Category, uid: string): string
      requires Valid()
      reads this
    {
      OptionName(options[c], uid)
    }
  }
}
