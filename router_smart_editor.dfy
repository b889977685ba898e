/**
 * The route guard of `/smart/components/:type`: the path type names one of
 * five page-section component kinds; the route then carries that kind's code,
 * its title and the preview component to show, and any other type is sent
 * to the input-form page.
 */
module RouterSmartEditor {
  import opened JsCore

  /** The PAGE_SECTION_TYPE code values (also the COMP_PATH keys and the
      previewComponent values, which are the same names). */
  datatype SectionType = IMAGE | TEXT | INPUT_FORM | FIXED_BANNER | ROLLING_BANNER | ROLLING_LIST | IMPORT | COMMENT | CODE

  /** CodeItemType: a code value and its display text. */
  datatype CodeItem = CodeItem(val: SectionType, txt: string)

  /** COMP_PATH, in its declaration order: component key and path type. */
  const CompPath: seq<(SectionType, string)> := [
    (INPUT_FORM, "input-form"),
    (ROLLING_BANNER, "rolling-banner"),
    (ROLLING_LIST, "list-rolling"),
    (COMMENT, "comment"),
    (IMPORT, "import")
  ]

  /** The five PAGE_SECTION_TYPE codes the guard accepts, in its order. */
  const Codes: seq<CodeItem> := [
    CodeItem(INPUT_FORM, "입력폼"),
    CodeItem(ROLLING_BANNER, "롤링 배너"),
    CodeItem(ROLLING_LIST, "리스트 롤링"),
    CodeItem(COMMENT, "댓글"),
    CodeItem(IMPORT, "임포트")
  ]

  /** The position of the first entry with that path type, or -1. */
  function PathIndex(paths: seq<(SectionType, string)>, pathType: string): (r: int)
    ensures -1 <= r < |paths|
    ensures r >= 0 ==> paths[r].1 == pathType && forall k :: 0 <= k < r ==> paths[k].1 != pathType
    ensures r == -1 <==> forall k :: 0 <= k < |paths| ==> paths[k].1 != pathType
  {
    if |paths| == 0 then -1
    else if paths[0].1 == pathType then 0
    else var r := PathIndex(paths[1..], pathType); if r == -1 then -1 else r + 1
  }

  /** `Object.keys(paths).find(key => paths[key] === type)` */
  function KeyOfPath(paths: seq<(SectionType, string)>, pathType: string): Option<SectionType>
  {
    var i := PathIndex(paths, pathType);
    if i < 0 then None else Some(paths[i].0)
  }

  /** `codes.find(code => code.VAL === key)`; an undefined key matches no
      code, since every code value is a string. */
  function CodeOfKey(codes: seq<CodeItem>, key: Option<SectionType>): (r: Option<CodeItem>)
    ensures key.None? ==> r.None?
    ensures r.Some? ==> r.value in codes && r.value.val == key.value
    ensures key.Some? && r.None? ==> forall i :: 0 <= i < |codes| ==> codes[i].val != key.value
  {
    if key.None? || |codes| == 0 then None
    else if codes[0].val == key.value then Some(codes[0])
    else CodeOfKey(codes[1..], key)
  }

  /** The `switch (code.VAL)` over the five kinds; other values leave the
      preview type null. */
  function PreviewOf(val: SectionType): (r: Option<SectionType>)
    ensures r.Some? <==> val in {INPUT_FORM, ROLLING_BANNER, ROLLING_LIST, COMMENT, IMPORT}
    ensures r.Some? ==> r.value == val
  {
    match val
    case INPUT_FORM => Some(INPUT_FORM)
    case ROLLING_BANNER => Some(ROLLING_BANNER)
    case ROLLING_LIST => Some(ROLLING_LIST)
    case COMMENT => Some(COMMENT)
    case IMPORT => Some(IMPORT)
    case _ => None
  }

  /** What the guard does: redirect, or let the route through with the meta
      fields `compCode`, `title` and `preViewComponentType` set. */
  datatype Resolution =
    | Redirect(path: string)
    | Resolved(code: CodeItem, title: string, previewType: Option<SectionType>)

  /** Every COMP_PATH key is the value of the code at the same place. */
  lemma KeysAreCodes(i: int)
    requires 0 <= i < |CompPath|
    ensures CodeOfKey(Codes, Some(CompPath[i].0)) == Some(Codes[i])
  {
  }

  /** The `beforeEnter` guard of `/smart/components/:type`. */
  function ResolveComponent(pathType: string): (r: Resolution)
    ensures r.Redirect? <==> forall i :: 0 <= i < |CompPath| ==> CompPath[i].1 != pathType
    ensures r.Redirect? ==> r.path == "/smart/components/input-form"
    ensures r.Resolved? ==> r.code in Codes && r.title == r.code.txt && r.previewType == Some(r.code.val)
  {
    FoundKeyHasCode(pathType);
    Resolve(CodeOfKey(Codes, KeyOfPath(CompPath, pathType)))
  }

  /** A key found for the path type always has its code. */
  lemma FoundKeyHasCode(pathType: string)
    ensures KeyOfPath(CompPath, pathType).Some? ==> CodeOfKey(Codes, KeyOfPath(CompPath, pathType)).Some?
  {
    var i := PathIndex(CompPath, pathType);
    if i >= 0 {
      KeysAreCodes(i);
    }
  }

  /** Meta fields from the code found, or the redirect to the input form. */
  function Resolve(code: Option<CodeItem>): (r: Resolution)
    ensures r.Redirect? <==> code.None?
    ensures r.Redirect? ==> r.path == "/smart/components/input-form"
    ensures r.Resolved? ==> r.code == code.value && r.title == code.value.txt
  {
    if code.None? then Redirect("/smart/components/" + CompPath[0].1)
    else Resolved(code.value, code.value.txt, PreviewOf(code.value.val))
  }

  /** The i-th path type resolves to the i-th code: INPUT_FORM, ROLLING_BANNER,
      ROLLING_LIST, COMMENT and IMPORT. */
  lemma {:induction false} ResolvePathType(i: int)
    requires 0 <= i < |CompPath|
    ensures ResolveComponent(CompPath[i].1) == Resolved(Codes[i], Codes[i].txt, Some(Codes[i].val))
  {
    assert PathIndex(CompPath, CompPath[i].1) == i;
    KeysAreCodes(i);
  }

  /** A type outside the five, such as the code value itself, redirects. */
  lemma ResolveUnknownType()
    ensures ResolveComponent("INPUT_FORM") == Redirect("/smart/components/input-form")
    ensures ResolveComponent("") == Redirect("/smart/components/input-form")
  {
  }
}
