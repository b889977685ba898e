/**
 * The constant code tables and what is made of them: option lists for select
 * boxes, and the client-category tree that is built node by node and then
 * flattened back into plain objects.
 */
module ConstCodes {

  /** A code table entry: the key it is stored under, its VAL and TXT, and
      its sub-codes in declaration order. */
  datatype Code = Code(key: string, val: string, txt: string, subs: seq<Code>)

  /** One own property of a code object, in `for..in` order: VAL and TXT
      hold strings, every other key a sub-code. */
  datatype Prop = TextProp(name: string, text: string) | CodeProp(code: Code)
  {
    function Key(): string
    {
      match this
      case TextProp(name, _) => name
      case CodeProp(code) => code.key
    }
  }

  /** The properties of a code object: VAL and TXT first, as every table
      declares them, then the sub-codes. */
  function Props(c: Code): (ps: seq<Prop>)
    ensures |ps| == |c.subs| + 2
    ensures ps[0] == TextProp("VAL", c.val) && ps[1] == TextProp("TXT", c.txt)
    ensures forall j :: 2 <= j < |ps| ==> ps[j] == CodeProp(c.subs[j - 2])
  {
    [TextProp("VAL", c.val), TextProp("TXT", c.txt)] + seq(|c.subs|, j requires 0 <= j < |c.subs| => CodeProp(c.subs[j]))
  }

  /** An object holds each key once, so no sub-code sits under VAL or TXT. */
  predicate KeysOk(es: seq<Code>)
    decreases es
  {
    forall j :: 0 <= j < |es| ==> es[j].key != "VAL" && es[j].key != "TXT" && KeysOk(es[j].subs)
  }

  // ---------------------------------------------------------------------------
  // The tables used here

  function Leaf(key: string, txt: string): Code
  {
    Code(key, key, txt, [])
  }

  const Gender: Code := Code("GENDER", "GENDER", "성별", [
    Code("MALE", "M", "남", []),
    Code("FEMALE", "F", "여", []),
    Code("ALL", "A", "남/여", [])
  ])

  const ClientCategory: Code := Code("CLIENT_CATEGORY", "CLIENT_CATEGORY", "광고주 카테고리", [
    Code("MEDICAL", "MEDICAL", "건강/의료", [
      Leaf("FEMALE", "건강보조식품(여성)"), Leaf("MALE", "건강보조식품(남성)"),
      Leaf("ALL", "건강보조식품(공용)"), Leaf("CHILD", "건강보조식품(유아/청소년)"),
      Leaf("DIET", "다이이트식품"), Leaf("HOSPITAL", "병원/의원/의료기관"),
      Leaf("DEVICE", "의료기기"), Leaf("INFO", "건강정보/서비스"), Leaf("ETC", "기타")]),
    Code("BEAUTY", "BEAUTY", "화장품/미용", [
      Leaf("CARE", "미용케어/서비스"), Leaf("COSMETIC", "화장품/미용기기"), Leaf("ETC", "기타")]),
    Code("FOOD", "FOOD", "식품/음료", [
      Leaf("DIET", "다이어트식품"), Leaf("MALE", "남성식품"), Leaf("FEMALE", "여성식품"),
      Leaf("ALL", "공용식품"), Leaf("ETC", "기타")]),
    Code("HOME", "HOME", "전자/가전", [Leaf("APPLIANCE", "주방/생활가전"), Leaf("ETC", "기타")]),
    Code("FASHION", "FASHION", "의류/패션", [
      Leaf("CLOTH", "의류/패션잡화"), Leaf("LUXURY", "명품브랜드"), Leaf("SPORT", "스포츠/아웃도어"),
      Leaf("ETC", "기타")]),
    Code("CAR", "CAR", "자동차/수송", [
      Leaf("RENT", "렌터카/카쉐어링"), Leaf("SERVICE", "자동차용품/서비스"), Leaf("ETC", "기타")]),
    Code("BUSINESS", "BUSINESS", "비즈니스/전문서비스", [Leaf("LAW", "볍률서비스"), Leaf("ETC", "기타")]),
    Code("EDUCATION", "EDUCATION", "교육/취업", [Leaf("CLASS", "강의/자격증/평생교육"), Leaf("ETC", "기타")]),
    Code("FINANCE", "FINANCE", "금융", [Leaf("STOCK", "증권"), Leaf("ETC", "기타")]),
    Code("ENTERTAIN", "ENTERTAIN", "엔터테인먼트", [Leaf("SHOW", "공연/전시"), Leaf("ETC", "기타")])
  ])

  // ---------------------------------------------------------------------------
  // Option lists

  datatype OptionItem = OptionItem(text: string, value: string)

  /** The option list of a table: one item per sub-code, in order. */
  function OptionsOf(es: seq<Code>): (r: seq<OptionItem>)
    ensures |r| == |es|
    ensures forall j :: 0 <= j < |es| ==> r[j] == OptionItem(es[j].txt, es[j].val)
  {
    seq(|es|, j requires 0 <= j < |es| => OptionItem(es[j].txt, es[j].val))
  }

  /** getConstCodeOptions: walk the table's keys, skip VAL and TXT, and push
      `{text: TXT, value: VAL}` of every sub-code. */
  method GetConstCodeOptions(codes: Code) returns (options: seq<OptionItem>)
    requires KeysOk(codes.subs)
    ensures options == OptionsOf(codes.subs)
  {
    var props := Props(codes);
    options := [];
    var k := 0;
    while k < |props|
      invariant 0 <= k <= |props|
      invariant |options| == (if k < 2 then 0 else k - 2)
      invariant forall j :: 0 <= j < |options| ==> options[j] == OptionItem(codes.subs[j].txt, codes.subs[j].val)
    {
      var prop := props[k];
      if prop.Key() != "TXT" && prop.Key() != "VAL" {
        var code := prop.code;
        options := options + [OptionItem(code.txt, code.val)];
      }
      k := k + 1;
    }
  }

  /** The sub-code stored under `key`, if any. */
  function FindSub(es: seq<Code>, key: string): (r: Option<Code>)
    ensures r.Some? ==> exists j :: 0 <= j < |es| && es[j] == r.value && es[j].key == key
    ensures r.None? <==> forall j :: 0 <= j < |es| ==> es[j].key != key
  {
    if es == [] then None
    else if es[0].key == key then Some(es[0])
    else FindSub(es[1..], key)
  }

  datatype Option<+T> = None | Some(value: T)

  /** getConstCodeCategoryOptions(key): the same walk over one category of
      CLIENT_CATEGORY; an unknown key reads `undefined`, whose walk is empty. */
  method GetConstCodeCategoryOptions(key: string) returns (options: seq<OptionItem>)
    ensures FindSub(ClientCategory.subs, key).None? ==> options == []
    ensures FindSub(ClientCategory.subs, key).Some? ==> options == OptionsOf(FindSub(ClientCategory.subs, key).value.subs)
  {
    ClientCategoryKeysOk();
    var codes := FindSub(ClientCategory.subs, key);
    options := [];
    if codes.Some? {
      SubKeysOk(ClientCategory.subs, key);
      options := GetConstCodeOptions(codes.value);
    }
  }

  lemma {:induction false} SubKeysOk(es: seq<Code>, key: string)
    requires KeysOk(es) && FindSub(es, key).Some?
    ensures KeysOk(FindSub(es, key).value.subs)
  {
    if es[0].key != key {
      assert KeysOk(es[1..]) by {
        forall j | 0 <= j < |es[1..]| ensures es[1..][j].key != "VAL" && es[1..][j].key != "TXT" && KeysOk(es[1..][j].subs) {
          assert es[1..][j] == es[j + 1];
        }
      }
      SubKeysOk(es[1..], key);
    }
  }

  lemma ClientCategoryKeysOk()
    ensures KeysOk(ClientCategory.subs)
  {
    forall j | 0 <= j < |ClientCategory.subs|
      ensures KeysOk(ClientCategory.subs[j].subs)
    {
      var es := ClientCategory.subs[j].subs;
      forall i | 0 <= i < |es| ensures KeysOk(es[i].subs) {
        assert es[i].subs == [];
      }
    }
  }

  /** GENDER gives M, F and A, in that order. */
  lemma GenderOptions()
    ensures OptionsOf(Gender.subs) == [OptionItem("남", "M"), OptionItem("여", "F"), OptionItem("남/여", "A")]
  {
    var r := OptionsOf(Gender.subs);
    assert r[0] == OptionItem("남", "M") && r[1] == OptionItem("여", "F") && r[2] == OptionItem("남/여", "A");
  }

  // ---------------------------------------------------------------------------
  // The category tree

  /** CategoryCodeItemType: the plain object `toPlainObj` returns. */
  datatype Plain = Plain(txt: string, val: string, codes: seq<Plain>)

  /** The plain objects of a list of codes, each with its own sub-codes below it. */
  function PlainList(es: seq<Code>): (r: seq<Plain>)
    decreases es
    ensures |r| == |es|
  {
    if es == [] then []
    else [Plain(es[0].txt, es[0].val, PlainList(es[0].subs))] + PlainList(es[1..])
  }

  /** The j-th plain object is the one of the j-th code. */
  lemma {:induction false} PlainListAt(es: seq<Code>, j: nat)
    requires j < |es|
    ensures PlainList(es)[j] == PlainOf(es[j])
  {
    if j > 0 {
      PlainListAt(es[1..], j - 1);
    }
  }

  /** The plain object of a whole table. */
  function PlainOf(c: Code): Plain
  {
    Plain(c.txt, c.val, PlainList(c.subs))
  }

  /** The category tree and the option list agree: the i-th category of the
      tree carries the text and value of the i-th option, and below it the
      options of that category. */
  lemma {:induction false} TreeMatchesOptions(c: Code)
    ensures |PlainOf(c).codes| == |OptionsOf(c.subs)|
    ensures forall j :: 0 <= j < |c.subs| ==>
      var p := PlainOf(c).codes[j];
      p.txt == OptionsOf(c.subs)[j].text && p.val == OptionsOf(c.subs)[j].value
      && |p.codes| == |OptionsOf(c.subs[j].subs)|
      && forall i :: 0 <= i < |p.codes| ==>
        p.codes[i].txt == OptionsOf(c.subs[j].subs)[i].text && p.codes[i].val == OptionsOf(c.subs[j].subs)[i].value
  {
    forall j | 0 <= j < |c.subs|
      ensures var p := PlainOf(c).codes[j];
        p.txt == OptionsOf(c.subs)[j].text && p.val == OptionsOf(c.subs)[j].value
        && |p.codes| == |OptionsOf(c.subs[j].subs)|
        && forall i :: 0 <= i < |p.codes| ==>
          p.codes[i].txt == OptionsOf(c.subs[j].subs)[i].text && p.codes[i].val == OptionsOf(c.subs[j].subs)[i].value
    {
      PlainListAt(c.subs, j);
      var p := PlainOf(c).codes[j];
      forall i | 0 <= i < |p.codes| ensures p.codes[i].txt == c.subs[j].subs[i].txt && p.codes[i].val == c.subs[j].subs[i].val {
        PlainListAt(c.subs[j].subs, i);
      }
    }
  }

  /** CLIENT_CATEGORY becomes a root with its ten categories below. */
  lemma ClientCategoryTree()
    ensures |PlainOf(ClientCategory).codes| == 10
  {
  }

  class CategoryNode {
    const VAL: string
    const TXT: string
    var parent: CategoryNode?
    var children: Option<seq<CategoryNode>>
    /** The nodes below this one. */
    ghost var Repr: set<CategoryNode>

    constructor (val: string, txt: string)
      ensures VAL == val && TXT == txt && parent == null && children.None? && Repr == {}
    {
      VAL := val;
      TXT := txt;
      parent := null;
      children := None;
      Repr := {};
    }

    /** Every child lies below this node, and so does everything below it. */
    ghost predicate Valid()
      reads this, Repr
      decreases Repr
    {
      this !in Repr
      && (children.Some? ==>
        forall i :: 0 <= i < |children.value| ==>
          var c := children.value[i];
          c in Repr && c.Repr <= Repr && c !in c.Repr && c.Valid())
    }

    /** The plain object of the subtree; a node without a children list has
        no codes. */
    ghost function ToPlain(): Plain
      requires Valid()
      reads this, Repr
      decreases Repr, |Kids()| + 1
    {
      Plain(TXT, VAL, PlainFrom(0))
    }

    ghost function Kids(): seq<CategoryNode>
      reads this
    {
      if children.Some? then children.value else []
    }

    /** The plain objects of the children from the `i`-th on. */
    ghost function PlainFrom(i: nat): (r: seq<Plain>)
      requires Valid() && i <= |Kids()|
      reads this, Repr
      decreases Repr, |Kids()| - i
      ensures |r| == |Kids()| - i
    {
      if i == |Kids()| then []
      else
        var c := Kids()[i];
        assert c in Repr && c.Repr <= Repr && c !in c.Repr && c.Valid();
        [c.ToPlain()] + PlainFrom(i + 1)
    }

    /** The j-th entry from the i-th child on is that child's plain object. */
    lemma {:induction false} PlainFromAt(i: nat, j: nat)
      requires Valid() && i + j < |Kids()|
      ensures Kids()[i + j].Valid() && PlainFrom(i)[j] == Kids()[i + j].ToPlain()
      decreases j
    {
      var c := Kids()[i];
      assert c in Repr && c.Valid();
      if j > 0 {
        PlainFromAt(i + 1, j - 1);
        assert PlainFrom(i) == [c.ToPlain()] + PlainFrom(i + 1);
      } else {
        assert PlainFrom(i)[0] == c.ToPlain();
      }
    }

    /** addChild(value): a new node under this one, appended to its children
        (made `[]` first when missing) and returned. */
    method AddChild(val: string, txt: string) returns (child: CategoryNode)
      modifies this`children
      ensures fresh(child) && child.VAL == val && child.TXT == txt
      ensures child.parent == this && child.children.None? && child.Repr == {}
      ensures children == Some((if old(children).Some? then old(children).value else []) + [child])
    {
      if children.None? {
        children := Some([]);
      }
      child := new CategoryNode(val, txt);
      child.parent := this;
      children := Some(children.value + [child]);
    }

    /** addItem(value): this node's children list is made `[]` when missing;
        a new node with this node's parent is pushed onto the parent's
        children list, if the parent has one, and this node is returned. */
    method AddItem(val: string, txt: string) returns (r: CategoryNode)
      modifies this`children, (if parent == null then {} else {parent})`children
      ensures r == this && parent == old(parent)
      ensures var base := if old(children).Some? then old(children).value else [];
        if parent == null then children == Some(base)
        else
          var before := if parent == this then Some(base) else old(parent.children);
          (parent != this ==> children == Some(base))
          && (before.None? ==> parent.children.None?)
          && (before.Some? ==>
            parent.children.Some? && |parent.children.value| == |before.value| + 1
            && parent.children.value[..|before.value|] == before.value
            && var c := parent.children.value[|before.value|];
            fresh(c) && c.VAL == val && c.TXT == txt && c.parent == parent && c.children.None?)
    {
      if children.None? {
        children := Some([]);
      }
      var child := new CategoryNode(val, txt);
      child.parent := parent;
      if parent != null && parent.children.Some? {
        parent.children := Some(parent.children.value + [child]);
      }
      r := this;
    }

    /** toPlainObj: TXT, VAL and the plain objects of the children, in order. */
    method ToPlainObj() returns (p: Plain)
      requires Valid()
      ensures p == ToPlain()
      decreases Repr
    {
      var cs := if children.Some? then children.value else [];
      var codes: seq<Plain> := [];
      var i := 0;
      while i < |cs|
        invariant 0 <= i <= |cs| && |codes| == i
        invariant forall j :: 0 <= j < i ==> codes[j] == cs[j].ToPlain()
      {
        assert cs[i] in Repr;
        var item := cs[i].ToPlainObj();
        codes := codes + [item];
        i := i + 1;
      }
      forall j | 0 <= j < |codes| ensures codes[j] == PlainFrom(0)[j] {
        PlainFromAt(0, j);
      }
      p := Plain(TXT, VAL, codes);
    }
  }

  /** The nodes `cs`, all inside `R`, are valid trees built from the first
      `|cs|` codes of `subs`. */
  ghost predicate Built(cs: seq<CategoryNode>, subs: seq<Code>, R: set<CategoryNode>)
    reads R
  {
    |cs| <= |subs|
    && forall j :: 0 <= j < |cs| ==>
      cs[j] in R && cs[j].Repr <= R && cs[j] !in cs[j].Repr && cs[j].Valid()
      && cs[j].ToPlain() == PlainOf(subs[j])
  }

  lemma {:induction false} BuiltExtend(cs: seq<CategoryNode>, subs: seq<Code>, R: set<CategoryNode>, child: CategoryNode)
    requires Built(cs, subs, R) && |cs| < |subs|
    requires child !in child.Repr && child.Valid() && child.ToPlain() == PlainOf(subs[|cs|])
    ensures Built(cs + [child], subs, R + {child} + child.Repr)
  {
    var R' := R + {child} + child.Repr;
    forall j | 0 <= j < |cs| + 1
      ensures (cs + [child])[j] in R' && (cs + [child])[j].Repr <= R'
    {
    }
  }

  /** A node holding exactly the built children is valid and flattens to the codes. */
  lemma {:induction false} BuiltNode(node: CategoryNode, codes: Code, cs: seq<CategoryNode>)
    requires Built(cs, codes.subs, node.Repr) && |cs| == |codes.subs| && node !in node.Repr
    requires node.children == (if cs == [] then None else Some(cs))
    requires node.TXT == codes.txt && node.VAL == codes.val
    ensures node.Valid() && node.ToPlain() == PlainOf(codes)
  {
    assert node.Kids() == cs;
    assert node.Valid();
    var p := node.ToPlain();
    assert p.codes == PlainList(codes.subs) by {
      forall j | 0 <= j < |cs| ensures p.codes[j] == PlainList(codes.subs)[j] {
        node.PlainFromAt(0, j);
        PlainListAt(codes.subs, j);
        assert p.codes[j] == cs[j].ToPlain();
      }
    }
  }

  /** A node without children flattens to a code without sub-codes. */
  lemma LeafPlain(n: CategoryNode, code: Code)
    requires n.children.None? && n.Repr == {} && |Props(code)| <= 2
    requires n.TXT == code.txt && n.VAL == code.val
    ensures n !in n.Repr && n.Valid() && n.ToPlain() == PlainOf(code)
  {
    assert n.Kids() == [] && code.subs == [];
  }

  /** _CreateClientCategoryNode(node, codes): one child per sub-code, in order,
      filled the same way when the sub-code has keys besides VAL and TXT. */
  method CreateCategoryNode(node: CategoryNode, codes: Code)
    requires KeysOk(codes.subs) && node.children.None? && node.Repr == {}
    requires node.TXT == codes.txt && node.VAL == codes.val
    modifies node
    ensures node.Valid() && fresh(node.Repr) && node.parent == old(node.parent)
    ensures node.ToPlain() == PlainOf(codes)
    decreases codes, 1
  {
    var props := Props(codes);
    ghost var cs: seq<CategoryNode> := [];
    var k := 0;
    while k < |props|
      invariant 0 <= k <= |props| && |cs| == (if k < 2 then 0 else k - 2)
      invariant node.children == (if cs == [] then None else Some(cs))
      invariant node.parent == old(node.parent)
      invariant node !in node.Repr && fresh(node.Repr)
      invariant Built(cs, codes.subs, node.Repr)
    {
      var prop := props[k];
      if prop.Key() != "VAL" && prop.Key() != "TXT" {
        var code := prop.code;
        assert code == codes.subs[k - 2] && KeysOk(code.subs);
        cs := AddCategory(node, code, cs, codes.subs);
      }
      k := k + 1;
    }
    BuiltNode(node, codes, cs);
  }

  /** One pass of the loop above: `node.addChild` for the code, then the
      child is filled. */
  method AddCategory(node: CategoryNode, code: Code, ghost cs: seq<CategoryNode>, ghost subs: seq<Code>)
    returns (ghost cs': seq<CategoryNode>)
    requires |cs| < |subs| && subs[|cs|] == code && KeysOk(code.subs)
    requires node.children == (if cs == [] then None else Some(cs))
    requires node !in node.Repr && Built(cs, subs, node.Repr)
    modifies node
    ensures |cs'| == |cs| + 1 && cs'[..|cs|] == cs && node.children == Some(cs')
    ensures node !in node.Repr && Built(cs', subs, node.Repr) && fresh(node.Repr - old(node.Repr))
    ensures node.parent == old(node.parent)
    decreases code, 3
  {
    ghost var R := node.Repr;
    var child := node.AddChild(code.val, code.txt);
    assert child !in R && Built(cs, subs, R);
    FillCategory(child, code);
    assert Built(cs, subs, R);
    BuiltExtend(cs, subs, R, child);
    ghost var R' := R + {child} + child.Repr;
    assert node !in R';
    node.Repr := R';
    cs' := cs + [child];
  }

  /** The recursive call is made only for a code with keys besides VAL and
      TXT; a leaf is already complete. */
  method FillCategory(child: CategoryNode, code: Code)
    requires KeysOk(code.subs) && child.children.None? && child.Repr == {}
    requires child.TXT == code.txt && child.VAL == code.val
    modifies child
    ensures child !in child.Repr && child.Valid() && fresh(child.Repr) && child.ToPlain() == PlainOf(code)
    decreases code, 2
  {
    if |Props(code)| > 2 {
      CreateCategoryNode(child, code);
    } else {
      LeafPlain(child, code);
    }
  }

  /** useConstCodeCategory(root): the tree built from the table and flattened
      again gives the table's own shape. */
  method UseConstCodeCategory(root: Code) returns (p: Plain)
    requires KeysOk(root.subs)
    ensures p == PlainOf(root)
  {
    var rootNode := new CategoryNode(root.val, root.txt);
    CreateCategoryNode(rootNode, root);
    p := rootNode.ToPlainObj();
  }
}
