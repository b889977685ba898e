/**
 * The pure helpers of the `util` class: empty-string fallback, server boolean
 * conversion, the named regular-expression lookup, token-based date
 * formatting, the toast decision for a failed API call, and spreadsheet
 * column names.
 */
module Util {
  import opened JsCore
  import opened ApiResponse

  /** `ifEmpty(v, recover)`: a string is falsy exactly when it is empty. */
  function IfEmpty(v: string, recover: string): (r: string)
    ensures v != "" ==> r == v
    ensures v == "" ==> r == recover
  {
    if v != "" then v else recover
  }

  lemma IfEmptyIdempotent(v: string, recover: string)
    ensures IfEmpty(IfEmpty(v, recover), recover) == IfEmpty(v, recover)
    ensures recover != "" ==> IfEmpty(v, recover) != ""
  {
  }

  // ---------------------------------------------------------------------------
  // getBoolean

  /** The `boolean | string` argument of `getBoolean`. */
  datatype BoolOrString = Bool(b: bool) | Str(s: string)

  predicate Truthy(v: BoolOrString)
  {
    match v
    case Bool(b) => b
    case Str(s) => s != ""
  }

  /** `booleanYN`: Y = 1, N = 0. */
  const BooleanY := 1
  const BooleanN := 0

  function GetBoolean(v: BoolOrString): (r: int)
    ensures r == BooleanY || r == BooleanN
    ensures r == BooleanY <==> Truthy(v)
  {
    if Truthy(v) then BooleanY else BooleanN
  }

  // ---------------------------------------------------------------------------
  // getRegExp

  /** The names of `patterns`; the expressions themselves are not modelled. */
  const PatternNames: seq<string> := [
    "hanengnum", "eng", "engnum", "han", "id", "num", "wordnum", "password", "domain",
    "url", "email", "tel", "code", "jsonKey", "domainName", "domainWithoutProtocol",
    "domainSearch", "TLD"
  ]

  /** A pattern of the table, known by its name. */
  datatype Pattern = Pattern(name: string)

  /** What `getRegExp` gives: a pattern of the table, the member every object
      inherits under that name (a truthy value that is not an expression), or
      the thrown message. */
  datatype RegExpResult = Found(pattern: Pattern) | Inherited(name: string) | Thrown(message: string)

  const PatternNotFound := "해당 정규식 패턴 타입을 찾을 수 없습니다."

  /** `getRegExp(flag)`: `this.patterns[flag]` when that is truthy, which it
      also is for a name `patterns` inherits; the thrown message otherwise. */
  function GetRegExp(flag: string): (r: RegExpResult)
    ensures r.Found? <==> flag in PatternNames
    ensures r.Found? ==> r.pattern.name == flag
    ensures r.Inherited? <==> flag in InheritedNames
    ensures r.Inherited? ==> r.name == flag
    ensures r.Thrown? <==> flag !in PatternNames && flag !in InheritedNames
    ensures r.Thrown? ==> r.message == PatternNotFound
  {
    if flag in PatternNames then Found(Pattern(flag))
    else if flag in InheritedNames then Inherited(flag)
    else Thrown(PatternNotFound)
  }

  /** No pattern name is an inherited one, so the two lookups never overlap,
      and "toString" is returned rather than thrown. */
  lemma GetRegExpInherited()
    ensures forall k :: 0 <= k < |PatternNames| ==> PatternNames[k] !in InheritedNames
    ensures GetRegExp("toString") == Inherited("toString")
    ensures GetRegExp("phone") == Thrown(PatternNotFound)
  {
  }

  // ---------------------------------------------------------------------------
  // getDateFormat

  /** The local components a `Date` reports; `month` is `getMonth() + 1`. */
  datatype DateTime = DateTime(year: int, month: int, day: int, hours: int, minutes: int, seconds: int)

  predicate Plausible(d: DateTime)
  {
    d.year >= 0 && 1 <= d.month <= 12 && 1 <= d.day <= 31
    && 0 <= d.hours < 24 && 0 <= d.minutes < 60 && 0 <= d.seconds < 60
  }

  /** `(n < 10) ? `0${n}` : n.toString()`: for a non-negative number, at least
      two digits that read back as the number. */
  function Pad(n: int): (r: string)
    ensures 0 <= n ==> AllDigits(r) && |r| >= 2 && ParseNat(r) == n
  {
    if n < 0 then "0" + IntToString(n)
    else if n < 10 then
      LeadingZero(n);
      "0" + IntToString(n)
    else
      NatToStringRoundTrip(n);
      IntToString(n)
  }

  lemma LeadingZero(n: nat)
    requires n < 10
    ensures ParseNat("0" + NatToString(n)) == n
  {
    var r := "0" + NatToString(n);
    assert r[..|r| - 1] == "0" && "0"[..0] == [];
  }

  /** `year.toString().substr(0, 2)`: the first two characters of the year's
      text, or all of it when it is shorter. */
  function Century(year: int): (r: string)
    ensures var ys := IntToString(year);
      |r| == (if |ys| < 2 then |ys| else 2) && r == ys[..|r|]
  {
    var ys := IntToString(year);
    if |ys| <= 2 then ys else ys[..2]
  }

  /** For a four-digit year, `substr(0, 2)` gives the hundreds: the digits
      of `year / 100`. */
  lemma {:induction false} CenturyOfFourDigitYear(year: int)
    requires 1000 <= year < 10000
    ensures Century(year) == NatToString(year / 100)
    ensures ParseNat(Century(year)) == year / 100
  {
    var q1 := year / 10;
    var q2 := q1 / 10;
    assert q2 == year / 100;
    assert 10 <= q2 < 100;
    NatToStringLength(q2 / 10);
    assert |NatToString(q2)| == 2;
    assert NatToString(q1) == NatToString(q2) + [DigitChar(q1 % 10)];
    assert NatToString(year) == NatToString(q2) + [DigitChar(q1 % 10)] + [DigitChar(year % 10)];
    assert Century(year) == NatToString(year)[..2];
    NatToStringRoundTrip(q2);
  }

  /** `getDateFormat(d, format)` on the date's components (no day offset): each
      token letter is replaced at its first occurrence only, in the order
      Y m d y n j, then H i s h M c. */
  function FormatDate(format: string, d: DateTime): string
  {
    ReplaceTime(ReplaceDate(format, d), d)
  }

  function ReplaceDate(format: string, d: DateTime): string
  {
    var v1 := ReplaceFirst(format, 'Y', IntToString(d.year));
    var v2 := ReplaceFirst(v1, 'm', Pad(d.month));
    var v3 := ReplaceFirst(v2, 'd', Pad(d.day));
    var v4 := ReplaceFirst(v3, 'y', Century(d.year));
    var v5 := ReplaceFirst(v4, 'n', IntToString(d.month));
    ReplaceFirst(v5, 'j', IntToString(d.day))
  }

  function ReplaceTime(v: string, d: DateTime): string
  {
    var w1 := ReplaceFirst(v, 'H', Pad(d.hours));
    var w2 := ReplaceFirst(w1, 'i', Pad(d.minutes));
    var w3 := ReplaceFirst(w2, 's', Pad(d.seconds));
    var w4 := ReplaceFirst(w3, 'h', IntToString(d.hours));
    var w5 := ReplaceFirst(w4, 'M', IntToString(d.minutes));
    ReplaceFirst(w5, 'c', IntToString(d.seconds))
  }

  /** Digits and the separators '-', ':', '/' and ' ': no token letter among them. */
  predicate TokenFree(s: string)
  {
    forall i :: 0 <= i < |s| ==> IsDigit(s[i]) || s[i] == '-' || s[i] == ':' || s[i] == '/' || s[i] == ' '
  }

  lemma TokenFreeLacks(s: string, c: char)
    requires TokenFree(s) && IsAsciiLetter(c)
    ensures c !in s
  {
  }

  lemma DigitsTokenFree(s: string)
    requires AllDigits(s)
    ensures TokenFree(s)
  {
  }

  lemma TokenFreeAppend(a: string, b: string)
    requires TokenFree(a) && TokenFree(b)
    ensures TokenFree(a + b)
  {
  }

  /** A token after a token-free prefix is the first one. */
  lemma ReplaceAfterTokenFree(a: string, c: char, b: string, rep: string)
    requires TokenFree(a) && IsAsciiLetter(c)
    ensures ReplaceFirst(a + [c] + b, c, rep) == a + rep + b
  {
    TokenFreeLacks(a, c);
    ReplaceFirstAt(a, b, c, rep);
  }

  /** Once no token letter is left, the later replacements change nothing. */
  lemma ReplaceShortTokenFree(v: string, d: DateTime)
    requires TokenFree(v)
    ensures ReplaceFirst(ReplaceFirst(ReplaceFirst(v, 'y', Century(d.year)), 'n', IntToString(d.month)), 'j', IntToString(d.day)) == v
  {
    TokenFreeLacks(v, 'y');
    TokenFreeLacks(v, 'n');
    TokenFreeLacks(v, 'j');
  }

  lemma ReplaceTimeTokenFree(v: string, d: DateTime)
    requires TokenFree(v)
    ensures ReplaceTime(v, d) == v
  {
    TokenFreeLacks(v, 'H');
    TokenFreeLacks(v, 'i');
    TokenFreeLacks(v, 's');
    TokenFreeLacks(v, 'h');
    TokenFreeLacks(v, 'M');
    TokenFreeLacks(v, 'c');
  }

  lemma ReplaceTimeLacking(v: string, d: DateTime)
    requires 'H' !in v && 'i' !in v && 's' !in v && 'h' !in v && 'M' !in v && 'c' !in v
    ensures ReplaceTime(v, d) == v
  {
  }

  lemma ReplaceDateLacking(v: string, d: DateTime)
    requires 'Y' !in v && 'm' !in v && 'd' !in v && 'y' !in v && 'n' !in v && 'j' !in v
    ensures ReplaceDate(v, d) == v
  {
  }

  /** Three tokens, each followed by a token-free separator, replaced in turn;
      the first token opens the format and the third closes it. */
  lemma ReplaceFirstOfThree(c1: char, sep1: string, rest: string, r1: string)
    requires IsAsciiLetter(c1)
    ensures ReplaceFirst([c1] + sep1 + rest, c1, r1) == r1 + sep1 + rest
  {
    assert [c1] + sep1 + rest == [] + [c1] + (sep1 + rest);
    ReplaceAfterTokenFree([], c1, sep1 + rest, r1);
  }

  lemma ReplaceSecondOfThree(r1: string, sep1: string, c2: char, rest: string, r2: string)
    requires TokenFree(r1) && TokenFree(sep1) && IsAsciiLetter(c2)
    ensures ReplaceFirst(r1 + sep1 + [c2] + rest, c2, r2) == r1 + sep1 + r2 + rest
  {
    TokenFreeAppend(r1, sep1);
    ReplaceAfterTokenFree(r1 + sep1, c2, rest, r2);
  }

  lemma ReplaceThirdOfThree(prefix: string, c3: char, r3: string)
    requires TokenFree(prefix) && IsAsciiLetter(c3)
    ensures ReplaceFirst(prefix + [c3], c3, r3) == prefix + r3
  {
    assert prefix + [c3] == prefix + [c3] + [];
    ReplaceAfterTokenFree(prefix, c3, [], r3);
    assert prefix + r3 + [] == prefix + r3;
  }

  /** The default format 'Y-m-d' yields the year, the padded month and the padded day. */
  lemma FormatDefault(d: DateTime)
    requires Plausible(d)
    ensures FormatDate("Y-m-d", d) == IntToString(d.year) + "-" + Pad(d.month) + "-" + Pad(d.day)
  {
    var ys, ms, ds := IntToString(d.year), Pad(d.month), Pad(d.day);
    DigitsTokenFree(ys);
    DigitsTokenFree(ms);
    DigitsTokenFree(ds);
    assert "Y-m-d" == ['Y'] + "-" + "m-d";
    ReplaceFirstOfThree('Y', "-", "m-d", ys);
    assert ys + "-" + "m-d" == ys + "-" + ['m'] + "-d";
    ReplaceSecondOfThree(ys, "-", 'm', "-d", ms);
    var p := ys + "-" + ms + "-";
    TokenFreeAppend(ys, "-");
    TokenFreeAppend(ys + "-", ms);
    TokenFreeAppend(ys + "-" + ms, "-");
    assert ys + "-" + ms + "-d" == p + ['d'];
    ReplaceThirdOfThree(p, 'd', ds);
    TokenFreeAppend(p, ds);
    ReplaceShortTokenFree(p + ds, d);
    ReplaceTimeTokenFree(p + ds, d);
  }

  /** 'H:i:s' yields the padded hours, minutes and seconds. */
  lemma FormatClock(d: DateTime)
    requires Plausible(d)
    ensures FormatDate("H:i:s", d) == Pad(d.hours) + ":" + Pad(d.minutes) + ":" + Pad(d.seconds)
  {
    ReplaceDateLacking("H:i:s", d);
    ReplaceTimeClock(d);
  }

  lemma ReplaceTimeClock(d: DateTime)
    requires Plausible(d)
    ensures ReplaceTime("H:i:s", d) == Pad(d.hours) + ":" + Pad(d.minutes) + ":" + Pad(d.seconds)
  {
    var hs, ms, ss := Pad(d.hours), Pad(d.minutes), Pad(d.seconds);
    DigitsTokenFree(hs);
    DigitsTokenFree(ms);
    DigitsTokenFree(ss);
    assert "H:i:s" == ['H'] + ":" + "i:s";
    ReplaceFirstOfThree('H', ":", "i:s", hs);
    assert hs + ":" + "i:s" == hs + ":" + ['i'] + ":s";
    ReplaceSecondOfThree(hs, ":", 'i', ":s", ms);
    var p := hs + ":" + ms + ":";
    TokenFreeAppend(hs, ":");
    TokenFreeAppend(hs + ":", ms);
    TokenFreeAppend(hs + ":" + ms, ":");
    assert hs + ":" + ms + ":s" == p + ['s'];
    ReplaceThirdOfThree(p, 's', ss);
    TokenFreeAppend(p, ss);
    TokenFreeLacks(p + ss, 'h');
    TokenFreeLacks(p + ss, 'M');
    TokenFreeLacks(p + ss, 'c');
  }

  /** Only the first occurrence of a token is replaced: 'Y/Y' keeps its second Y. */
  lemma FormatFirstOccurrenceOnly(d: DateTime)
    requires Plausible(d)
    ensures FormatDate("Y/Y", d) == IntToString(d.year) + "/Y"
  {
    var ys := IntToString(d.year);
    DigitsTokenFree(ys);
    assert "Y/Y" == ['Y'] + "/" + "Y";
    ReplaceFirstOfThree('Y', "/", "Y", ys);
    var v := ys + "/" + "Y";
    TokenFreeAppend(ys, "/");
    LacksBeforeY(ys + "/", 'm');
    LacksBeforeY(ys + "/", 'd');
    LacksBeforeY(ys + "/", 'y');
    LacksBeforeY(ys + "/", 'n');
    LacksBeforeY(ys + "/", 'j');
    LacksBeforeY(ys + "/", 'H');
    LacksBeforeY(ys + "/", 'i');
    LacksBeforeY(ys + "/", 's');
    LacksBeforeY(ys + "/", 'h');
    LacksBeforeY(ys + "/", 'M');
    LacksBeforeY(ys + "/", 'c');
    assert ReplaceFirst(ReplaceFirst(ReplaceFirst(ReplaceFirst(ReplaceFirst(v, 'm', Pad(d.month)), 'd', Pad(d.day)), 'y', Century(d.year)), 'n', IntToString(d.month)), 'j', IntToString(d.day)) == v;
    ReplaceTimeLacking(v, d);
  }

  lemma LacksBeforeY(p: string, c: char)
    requires TokenFree(p) && IsAsciiLetter(c) && c != 'Y'
    ensures c !in p + "Y"
  {
    TokenFreeLacks(p, c);
  }

  // ---------------------------------------------------------------------------
  // axiosErrorCatch

  /** The `data` of a response: missing (null or undefined), or a body whose
      `code` field is read; a body lacking `code` looks up as `Other`. */
  datatype ResponseData = NoData | Body(code: ApiCode)

  /** What the catch handler can receive: an axios error, with or without a
      response, or any other thrown value. */
  datatype CaughtError = AxiosError(response: Option<ResponseData>) | NonAxiosError

  datatype ToastColor = Warning | Danger

  /** `Toast({ color, message })`; the message is whatever the lookup gave. */
  datatype Toast = Toast(color: ToastColor, message: Message)

  /** What the handler does: nothing visible (a log line, or no response), a
      toast, or a TypeError from destructuring missing response data. */
  datatype CatchOutcome = Quiet | Shown(toast: Toast) | TypeError

  const ContactSupport := "Error : 고객센터에 문의를 남겨주세요."

  /** `axiosErrorCatch(err)`. */
  function AxiosErrorCatch(err: CaughtError): (o: CatchOutcome)
    ensures o.Quiet? <==> err.NonAxiosError? || err.response.None?
    ensures o.TypeError? <==> err == AxiosError(Some(NoData))
    ensures o.Shown? && HasMessage(err.response.value.code) ==>
      o.toast == Toast(Warning, GetApiErrorMessage(err.response.value.code))
    ensures o.Shown? && !HasMessage(err.response.value.code) ==>
      o.toast == Toast(Danger, Entry(ContactSupport))
    ensures o.Shown? && o.toast.color == Warning ==>
      o.toast.message.InheritedMember? || (o.toast.message.Entry? && o.toast.message.text != "")
  {
    match err
    case NonAxiosError => Quiet
    case AxiosError(None) => Quiet
    case AxiosError(Some(NoData)) => TypeError
    case AxiosError(Some(Body(code))) =>
      if HasMessage(code) then Shown(Toast(Warning, GetApiErrorMessage(code)))
      else Shown(Toast(Danger, Entry(ContactSupport)))
  }

  /** A declared code missing from the table, and a table entry that means '',
      both end in the generic danger toast. */
  lemma UnlistedAndEmptyCodesGetDangerToast()
    ensures AxiosErrorCatch(AxiosError(Some(Body(INVALID_TOKEN)))) == Shown(Toast(Danger, Entry(ContactSupport)))
    ensures AxiosErrorCatch(AxiosError(Some(Body(BAD_REQUEST)))) == Shown(Toast(Danger, Entry(ContactSupport)))
  {
    DeclaredWithoutMessage();
    BadRequestMessageEmpty();
  }

  /** A code spelled like an inherited property looks up a truthy member, so
      the warning toast is shown with that member as its message. */
  lemma InheritedCodeGetsWarningToast()
    ensures AxiosErrorCatch(AxiosError(Some(Body(Other("constructor"))))) ==
      Shown(Toast(Warning, InheritedMember("constructor")))
  {
    InheritedCodeHasMessage();
  }

  // ---------------------------------------------------------------------------
  // getExcelColumn

  /** `String.fromCharCode(i + 65)` */
  function Letter(i: nat): (c: char)
    requires i < 26
    ensures 'A' <= c <= 'Z'
  {
    (65 + i) as char
  }

  /** `arr[i]` of the 26-letter array, rendered by a template literal:
      an index outside the array reads `undefined`. */
  function LetterOrUndefined(i: int): string
  {
    if 0 <= i < 26 then [Letter(i)] else "undefined"
  }

  /** `getExcelColumn(index)` as written; `None` stands for the `undefined` of a negative index. */
  function ExcelColumnAsWritten(index: int): Option<string>
  {
    if index >= 26 then Some(LetterOrUndefined(index / 26 - 1) + LetterOrUndefined(index % 26))
    else if 0 <= index then Some([Letter(index)])
    else None
  }

  /** Past "ZZ" the first letter runs off the array. */
  lemma ExcelColumnAsWrittenPastZZ()
    ensures ExcelColumnAsWritten(701) == Some("ZZ")
    ensures ExcelColumnAsWritten(702) == Some("undefinedA")
  {
    assert 701 / 26 - 1 == 25 && 701 % 26 == 25 && Letter(25) == 'Z';
    assert LetterOrUndefined(25) + LetterOrUndefined(25) == "ZZ";
    assert 702 / 26 - 1 == 26 && 702 % 26 == 0 && Letter(0) == 'A';
    assert LetterOrUndefined(26) + LetterOrUndefined(0) == "undefinedA";
  }

  /** Spreadsheet column names: bijective base 26 (A..Z, AA..ZZ, AAA, ...). */
  function ExcelColumnName(index: nat): (s: string)
    ensures |s| >= 1 && forall i :: 0 <= i < |s| ==> 'A' <= s[i] <= 'Z'
    decreases index
  {
    if index < 26 then [Letter(index)]
    else ExcelColumnName(index / 26 - 1) + [Letter(index % 26)]
  }

  predicate IsColumnName(s: string)
  {
    |s| >= 1 && forall i :: 0 <= i < |s| ==> 'A' <= s[i] <= 'Z'
  }

  /** The index a column name stands for. */
  function ExcelColumnIndex(s: string): nat
    requires IsColumnName(s)
    decreases |s|
  {
    var last := s[|s| - 1] as int - 65;
    if |s| == 1 then last
    else (ExcelColumnIndex(s[..|s| - 1]) + 1) * 26 + last
  }

  lemma {:induction false} ExcelColumnRoundTrip(index: nat)
    ensures ExcelColumnIndex(ExcelColumnName(index)) == index
    decreases index
  {
    if index >= 26 {
      var s := ExcelColumnName(index);
      assert s[..|s| - 1] == ExcelColumnName(index / 26 - 1);
      ExcelColumnRoundTrip(index / 26 - 1);
    }
  }

  lemma {:induction false} ExcelColumnNameOfIndex(s: string)
    requires IsColumnName(s)
    ensures ExcelColumnName(ExcelColumnIndex(s)) == s
    decreases |s|
  {
    if |s| > 1 {
      var p := s[..|s| - 1];
      ExcelColumnNameOfIndex(p);
      var n := ExcelColumnIndex(s);
      var last := s[|s| - 1] as int - 65;
      assert n / 26 - 1 == ExcelColumnIndex(p) && n % 26 == last;
      assert s == p + [s[|s| - 1]];
    }
  }

  /** Below 702 the code as written produces the column name. */
  lemma ExcelColumnAsWrittenAgrees(index: int)
    requires 0 <= index < 702
    ensures ExcelColumnAsWritten(index) == Some(ExcelColumnName(index))
  {
    if index >= 26 {
      assert index / 26 - 1 < 26;
      assert ExcelColumnName(index / 26 - 1) == [Letter(index / 26 - 1)];
    }
  }
}
