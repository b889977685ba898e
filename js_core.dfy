/**
 * JavaScript semantics shared by the stores and helpers: `undefined` as an
 * Option, Array.prototype.splice/findIndex, String.prototype.replace with a
 * one-character pattern, `includes`, `trim`, integer `toString`, and the
 * truncating remainder operator.
 */
module JsCore {

  /** `None` stands for JavaScript `undefined`. */
  datatype Option<+T> = None | Some(value: T)

  /** A field value of a JSON record: a string, an integer or `undefined`
      (what reading a missing field gives). */
  datatype JsValue = JUndefined | JStr(s: string) | JNum(n: int)

  /** A JSON object received from the server. */
  type Record = map<string, JsValue>

  /** `rec[key]` */
  function Get(rec: Record, key: string): JsValue
  {
    if key in rec then rec[key] else JUndefined
  }

  /** JavaScript truthiness of a field value. */
  predicate Truthy(v: JsValue)
  {
    match v
    case JUndefined => false
    case JStr(s) => s != ""
    case JNum(n) => n != 0
  }

  /** The text a template literal or `+ ''` makes of a value. */
  function ToStr(v: JsValue): string
  {
    match v
    case JUndefined => "undefined"
    case JStr(s) => s
    case JNum(n) => IntToString(n)
  }

  // ---------------------------------------------------------------------------
  // Arrays

  /** The start position Array.prototype.splice actually uses: negative
      positions count from the end, and the result is clamped to [0, len]. */
  function SpliceStart(len: nat, start: int): (k: nat)
    ensures k <= len
  {
    if start < 0 then (if len + start < 0 then 0 else len + start)
    else if start > len then len
    else start
  }

  /** `s.splice(start, 0, x)` */
  function InsertAt<T>(s: seq<T>, start: int, x: T): (r: seq<T>)
    ensures |r| == |s| + 1
    ensures var k := SpliceStart(|s|, start);
      r[k] == x && r[..k] == s[..k] && r[k + 1..] == s[k..]
    ensures multiset(r) == multiset(s) + multiset{x}
  {
    var k := SpliceStart(|s|, start);
    assert s == s[..k] + s[k..];
    s[..k] + [x] + s[k..]
  }

  /** `s.splice(start, 1)`: removes the element at the normalised start, if any. */
  function RemoveAt<T>(s: seq<T>, start: int): (r: seq<T>)
    ensures var k := SpliceStart(|s|, start);
      if k < |s| then
        |r| == |s| - 1 && r[..k] == s[..k] && r[k..] == s[k + 1..]
        && multiset(r) + multiset{s[k]} == multiset(s)
      else r == s
  {
    var k := SpliceStart(|s|, start);
    if k < |s| then
      assert s == s[..k] + [s[k]] + s[k + 1..];
      s[..k] + s[k + 1..]
    else s
  }

  /** Removing what was just inserted at an in-range position gives the list back. */
  lemma RemoveInsert<T>(s: seq<T>, k: nat, x: T)
    requires k <= |s|
    ensures RemoveAt(InsertAt(s, k, x), k) == s
  {
    var r := InsertAt(s, k, x);
    assert RemoveAt(r, k) == r[..k] + r[k + 1..];
    assert s == s[..k] + s[k..];
  }

  /** `s.findIndex(item => item === x)` (and `indexOf`) */
  function IndexOf<T(==)>(s: seq<T>, x: T): (i: int)
    ensures -1 <= i < |s|
    ensures i == -1 <==> x !in s
    ensures i >= 0 ==> s[i] == x && x !in s[..i]
  {
    if s == [] then -1
    else if s[0] == x then 0
    else
      var j := IndexOf(s[1..], x);
      assert s[1..][..j + 1] == s[1..j + 2] by { if j >= 0 { assert s[1..][..j + 1] == s[1..][..j + 1]; } }
      if j < 0 then -1 else j + 1
  }

  // ---------------------------------------------------------------------------
  // Characters and strings

  predicate IsDigit(c: char) { '0' <= c <= '9' }

  predicate IsAsciiLetter(c: char) { 'a' <= c <= 'z' || 'A' <= c <= 'Z' }

  predicate AllDigits(s: string) { forall i :: 0 <= i < |s| ==> IsDigit(s[i]) }

  /** ASCII case mapping; other characters are left as they are. */
  function AsciiUpper(c: char): char
  {
    if 'a' <= c <= 'z' then (c as int - 32) as char else c
  }

  function AsciiLower(c: char): char
  {
    if 'A' <= c <= 'Z' then (c as int + 32) as char else c
  }

  function Lower(s: string): (r: string)
    ensures |r| == |s|
    ensures forall i :: 0 <= i < |s| ==> r[i] == AsciiLower(s[i])
  {
    if s == [] then [] else [AsciiLower(s[0])] + Lower(s[1..])
  }

  /** `c.toUpperCase() + s.slice(1)` as in `charAt(0).toUpperCase()`. */
  function UpperFirst(s: string): (r: string)
    ensures |r| == |s|
    ensures s != [] ==> r[0] == AsciiUpper(s[0]) && r[1..] == s[1..]
  {
    if s == [] then [] else [AsciiUpper(s[0])] + s[1..]
  }

  /** `s.includes(sub)` */
  predicate Contains(s: string, sub: string)
  {
    exists i :: 0 <= i <= |s| && OccursAt(s, sub, i)
  }

  predicate OccursAt(s: string, sub: string, i: nat)
  {
    i + |sub| <= |s| && s[i..i + |sub|] == sub
  }

  /** `s.replace(c, rep)` for a one-character pattern: only the first occurrence
      is replaced (the replacement strings used in this code hold no `$`). */
  function ReplaceFirst(s: string, c: char, rep: string): (r: string)
    ensures c !in s ==> r == s
  {
    var i := IndexOf(s, c);
    if i < 0 then s else s[..i] + rep + s[i + 1..]
  }

  lemma {:induction false} IndexOfAfter<T>(a: seq<T>, x: T, b: seq<T>)
    requires x !in a
    ensures IndexOf(a + [x] + b, x) == |a|
  {
    if a != [] {
      assert (a + [x] + b)[1..] == a[1..] + [x] + b;
      IndexOfAfter(a[1..], x, b);
    }
  }

  /** Replacing the first `c` of a string whose prefix `a` holds no `c`. */
  lemma ReplaceFirstAt(a: string, b: string, c: char, rep: string)
    requires c !in a
    ensures ReplaceFirst(a + [c] + b, c, rep) == a + rep + b
  {
    var s := a + [c] + b;
    IndexOfAfter(a, c, b);
    assert s[..|a|] == a && s[|a| + 1..] == b;
  }

  lemma DigitsLack(s: string, c: char)
    requires AllDigits(s) && !IsDigit(c)
    ensures c !in s
  {
  }

  /** `s.replace(/c/g, rep)` */
  function ReplaceAllChar(s: string, c: char, rep: string): (r: string)
    ensures c !in rep ==> c !in r
    ensures c !in s ==> r == s
    ensures s != [] && s[0] != c ==> r != [] && r[0] == s[0]
  {
    if s == [] then []
    else (if s[0] == c then rep else [s[0]]) + ReplaceAllChar(s[1..], c, rep)
  }

  /** A single character becomes `rep` when it is `c` and stays otherwise. */
  lemma ReplaceAllCharSingle(x: char, c: char, rep: string)
    ensures ReplaceAllChar([x], c, rep) == if x == c then rep else [x]
  {
    assert [x][1..] == [];
  }

  /** The global replacement works character by character: it distributes over
      concatenation, so every `c` is replaced and every other character is
      kept, in order. */
  lemma {:induction false} ReplaceAllCharAppend(a: string, b: string, c: char, rep: string)
    ensures ReplaceAllChar(a + b, c, rep) == ReplaceAllChar(a, c, rep) + ReplaceAllChar(b, c, rep)
    decreases |a|
  {
    if a == [] {
      assert a + b == b;
    } else {
      assert (a + b)[0] == a[0] && (a + b)[1..] == a[1..] + b;
      ReplaceAllCharAppend(a[1..], b, c, rep);
    }
  }

  /** The white-space and line-terminator characters String.prototype.trim removes. */
  predicate IsJsSpace(c: char)
  {
    c == ' ' || c == '\t' || c == '\n' || c == '\r' || c == '\U{000B}' || c == '\U{000C}'
    || c == '\U{00A0}' || c == '\U{FEFF}' || c == '\U{1680}' || ('\U{2000}' <= c <= '\U{200A}')
    || c == '\U{2028}' || c == '\U{2029}' || c == '\U{202F}' || c == '\U{205F}' || c == '\U{3000}'
  }

  function TrimStart(s: string): (r: string)
    ensures |r| <= |s| && r == s[|s| - |r|..]
    ensures r != [] ==> !IsJsSpace(r[0])
    ensures forall i :: 0 <= i < |s| - |r| ==> IsJsSpace(s[i])
  {
    if s != [] && IsJsSpace(s[0]) then TrimStart(s[1..]) else s
  }

  function TrimEnd(s: string): (r: string)
    ensures |r| <= |s| && r == s[..|r|]
    ensures r != [] ==> !IsJsSpace(r[|r| - 1])
    ensures forall i :: |r| <= i < |s| ==> IsJsSpace(s[i])
  {
    if s != [] && IsJsSpace(s[|s| - 1]) then TrimEnd(s[..|s| - 1]) else s
  }

  /** `s.trim()` */
  function Trim(s: string): (r: string)
    ensures r != [] ==> !IsJsSpace(r[0]) && !IsJsSpace(r[|r| - 1])
  {
    TrimEnd(TrimStart(s))
  }

  // ---------------------------------------------------------------------------
  // Numbers

  function DigitChar(d: nat): (c: char)
    requires d < 10
    ensures IsDigit(c) && c as int - '0' as int == d
  {
    ('0' as int + d) as char
  }

  /** Decimal digits of a natural number, most significant first. */
  function NatToString(n: nat): (s: string)
    ensures |s| >= 1 && AllDigits(s)
    decreases n
  {
    if n < 10 then [DigitChar(n)] else NatToString(n / 10) + [DigitChar(n % 10)]
  }

  /** `n.toString()` for an integer-valued number. */
  function IntToString(n: int): string
  {
    if n < 0 then "-" + NatToString(-n) else NatToString(n)
  }

  /** Reads back a string of decimal digits. */
  function ParseNat(s: string): nat
    requires AllDigits(s)
  {
    if s == [] then 0
    else ParseNat(s[..|s| - 1]) * 10 + (s[|s| - 1] as int - '0' as int)
  }

  lemma {:induction false} NatToStringRoundTrip(n: nat)
    ensures ParseNat(NatToString(n)) == n
    decreases n
  {
    if n >= 10 {
      var s := NatToString(n);
      assert s[..|s| - 1] == NatToString(n / 10);
      NatToStringRoundTrip(n / 10);
    }
  }

  lemma {:induction false} NatToStringLength(n: nat)
    ensures |NatToString(n)| == 1 <==> n < 10
    decreases n
  {
    if n >= 10 {
      NatToStringLength(n / 10);
    }
  }

  /** JavaScript's `%`: `a - b * q`, where the quotient `q` is `a / b` truncated
      toward zero, so the remainder takes the sign of the dividend. */
  function JsRem(a: int, b: int): (r: int)
    requires b > 0
    ensures a >= 0 ==> 0 <= r < b && r == a - b * (a / b)
    ensures a <= 0 ==> -b < r <= 0 && r == a + b * ((-a) / b)
  {
    if a >= 0 then a % b else -((-a) % b)
  }

  /** Properties every object inherits from `Object.prototype`: looked up by
      name on a plain object literal, each gives a truthy value that the
      literal never declared. */
  const InheritedNames: set<string> := {
    "constructor", "hasOwnProperty", "isPrototypeOf", "propertyIsEnumerable",
    "toLocaleString", "toString", "valueOf", "__proto__",
    "__defineGetter__", "__defineSetter__", "__lookupGetter__", "__lookupSetter__"
  }
}
