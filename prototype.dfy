/**
 * The string extensions of `prototype.ts`: line breaks to `<br>`, the named
 * pattern test, phone-number and company-serial dashes, the Korean object
 * particle, and first-letter capitalisation.
 */
module Prototype {
  import opened JsCore

  // ---------------------------------------------------------------------------
  // nl2br

  /** `s.nl2br()`: '' for a blank string, else the trimmed string with every
      line feed turned into `<br>` (the global replacement of JsCore, whose
      character-by-character meaning JsCore.ReplaceAllCharSingle and
      JsCore.ReplaceAllCharAppend state). */
  function Nl2Br(s: string): (r: string)
    ensures Trim(s) == [] <==> r == []
    ensures Trim(s) != [] ==> r == ReplaceAllChar(Trim(s), '\n', "<br>")
    ensures '\n' !in r
    ensures '\n' !in Trim(s) ==> r == Trim(s)
  {
    var t := Trim(s);
    if |t| > 0 then ReplaceAllChar(t, '\n', "<br>") else ""
  }

  /** The two ends of a trimmed string are kept: neither is a line feed. */
  lemma Nl2BrEnds(s: string)
    requires Trim(s) != []
    ensures var t, r := Trim(s), Nl2Br(s);
      r != [] && r[0] == t[0] && r[|r| - 1] == t[|t| - 1]
  {
    var t := Trim(s);
    var n := |t| - 1;
    assert t == t[..n] + [t[n]];
    ReplaceAllCharAppend(t[..n], [t[n]], '\n', "<br>");
    ReplaceAllCharSingle(t[n], '\n', "<br>");
  }

  lemma {:induction false} TrimStartNoSpace(s: string)
    requires s != [] ==> !IsJsSpace(s[0])
    ensures TrimStart(s) == s
  {
  }

  lemma {:induction false} TrimEndNoSpace(s: string)
    requires s != [] ==> !IsJsSpace(s[|s| - 1])
    ensures TrimEnd(s) == s
  {
  }

  /** nl2br applied twice changes nothing more. */
  lemma Nl2BrIdempotent(s: string)
    ensures Nl2Br(Nl2Br(s)) == Nl2Br(s)
  {
    var t := Trim(s);
    if |t| > 0 {
      var r := Nl2Br(s);
      Nl2BrEnds(s);
      TrimStartNoSpace(r);
      TrimEndNoSpace(r);
      assert Trim(r) == r;
    }
  }

  // ---------------------------------------------------------------------------
  // patternCheck

  /** The keys of `patternCase`; the expressions themselves are not modelled. */
  const PatternFlags: set<string> := {"eng", "engnum", "hanengnum", "id", "num", "wordnum", "email"}

  datatype CheckResult = Checked(ok: bool) | TypeError

  /** `s.patternCheck(flag)` as written: `test(flag, s)` stands for running the
      named expression. An inherited property name passes the truthiness test
      and the call to its missing `test` method throws. */
  function PatternCheckAsWritten(s: string, flag: string, test: (string, string) -> bool): (r: CheckResult)
    ensures flag in PatternFlags ==> r == Checked(test(flag, s))
    ensures flag in InheritedNames ==> r == TypeError
    ensures flag !in PatternFlags && flag !in InheritedNames ==> r == Checked(false)
  {
    if flag in PatternFlags then Checked(test(flag, s))
    else if flag in InheritedNames then TypeError
    else Checked(false)
  }

  lemma PatternCheckAsWrittenThrows(test: (string, string) -> bool)
    ensures PatternCheckAsWritten("abc", "toString", test) == TypeError
  {
  }

  /** `s.patternCheck(flag)` as intended: every name outside the table gives false. */
  function PatternCheck(s: string, flag: string, test: (string, string) -> bool): (r: bool)
    ensures flag !in PatternFlags ==> !r
    ensures flag in PatternFlags ==> r == test(flag, s)
  {
    flag in PatternFlags && test(flag, s)
  }

  /** The corrected check agrees with the code wherever the code does not throw. */
  lemma PatternCheckAgrees(s: string, flag: string, test: (string, string) -> bool)
    ensures PatternCheckAsWritten(s, flag, test).Checked? <==> flag !in InheritedNames
    ensures PatternCheckAsWritten(s, flag, test).Checked? ==>
      PatternCheckAsWritten(s, flag, test).ok == PatternCheck(s, flag, test)
  {
    assert PatternFlags !! InheritedNames;
  }

  // ---------------------------------------------------------------------------
  // phoneNumber and companySerial

  /** `s` with a dash after its first `a` and its first `a + b` characters. */
  function Dashed(s: string, a: nat, b: nat): (r: string)
    requires a + b <= |s|
    ensures |r| == |s| + 2 && r[a] == '-' && r[a + b + 1] == '-'
  {
    s[..a] + "-" + s[a..a + b] + "-" + s[a + b..]
  }

  /** The string without its dashes. */
  function Undash(s: string): (r: string)
  {
    if s == [] then [] else (if s[0] == '-' then [] else [s[0]]) + Undash(s[1..])
  }

  lemma {:induction false} UndashAppend(a: string, b: string)
    ensures Undash(a + b) == Undash(a) + Undash(b)
  {
    if a == [] {
      assert a + b == b;
    } else {
      assert (a + b)[0] == a[0];
      assert (a + b)[1..] == a[1..] + b;
      UndashAppend(a[1..], b);
    }
  }

  lemma {:induction false} UndashDigits(s: string)
    requires AllDigits(s)
    ensures Undash(s) == s
  {
    if s != [] {
      UndashDigits(s[1..]);
    }
  }

  lemma {:induction false} UndashJoined(p: string, q: string, t: string)
    requires AllDigits(p) && AllDigits(q) && AllDigits(t)
    ensures Undash(p + "-" + q + "-" + t) == p + q + t
  {
    var dash: string := "-";
    assert Undash(dash) == [];
    UndashDigits(p);
    UndashDigits(q);
    UndashDigits(t);
    UndashAppend(p, dash);
    UndashAppend(p + dash, q);
    UndashAppend(p + dash + q, dash);
    UndashAppend(p + dash + q + dash, t);
  }

  /** Taking the dashes out of a dashed string of digits gives it back. */
  lemma DashedRoundTrip(s: string, a: nat, b: nat)
    requires a + b <= |s| && AllDigits(s)
    ensures Undash(Dashed(s, a, b)) == s
  {
    var p, q, t := s[..a], s[a..a + b], s[a + b..];
    assert AllDigits(p) && AllDigits(q) && AllDigits(t) by {
      forall i | 0 <= i < |q| ensures IsDigit(q[i]) { assert q[i] == s[a + i]; }
      forall i | 0 <= i < |t| ensures IsDigit(t[i]) { assert t[i] == s[a + b + i]; }
    }
    UndashJoined(p, q, t);
    assert p + q + t == s;
  }

  /** `s.phoneNumber()`: /^(\d{2,3})(\d{3,4})(\d{4})$/ with greedy groups, so
      11 digits split 3-4-4, 10 digits 3-3-4 and 9 digits 2-3-4. */
  function PhoneNumber(s: string): (r: string)
    ensures !(AllDigits(s) && 9 <= |s| <= 11) ==> r == s
    ensures AllDigits(s) && 9 <= |s| <= 11 ==>
      exists a: nat, b: nat :: 2 <= a <= 3 && 3 <= b <= 4 && a + b + 4 == |s| && r == Dashed(s, a, b)
  {
    if AllDigits(s) && |s| == 11 then Dashed(s, 3, 4)
    else if AllDigits(s) && |s| == 10 then Dashed(s, 3, 3)
    else if AllDigits(s) && |s| == 9 then Dashed(s, 2, 3)
    else s
  }

  /** The greedy split: the first group takes three digits whenever the rest can
      still match, the second group four. */
  lemma PhoneNumberGreedy(s: string)
    requires AllDigits(s) && 9 <= |s| <= 11
    ensures |s| >= 10 ==> PhoneNumber(s)[3] == '-'
    ensures |s| == 9 ==> PhoneNumber(s)[2] == '-'
    ensures |s| == 11 ==> PhoneNumber(s)[8] == '-'
  {
  }

  /** Only dashes are added. */
  lemma PhoneNumberDigitsKept(s: string)
    requires AllDigits(s)
    ensures Undash(PhoneNumber(s)) == s
  {
    if 9 <= |s| <= 11 {
      if |s| == 11 {
        DashedRoundTrip(s, 3, 4);
      } else if |s| == 10 {
        DashedRoundTrip(s, 3, 3);
      } else {
        DashedRoundTrip(s, 2, 3);
      }
    } else {
      UndashDigits(s);
    }
  }

  /** `s.companySerial()`: exactly ten digits become 3-2-5. */
  function CompanySerial(s: string): (r: string)
    ensures !(AllDigits(s) && |s| == 10) ==> r == s
    ensures AllDigits(s) && |s| == 10 ==> |r| == 12 && r[3] == '-' && r[6] == '-' && Undash(r) == s
  {
    if AllDigits(s) && |s| == 10 then
      DashedRoundTrip(s, 3, 2);
      Dashed(s, 3, 2)
    else s
  }

  // ---------------------------------------------------------------------------
  // josaFormat

  /** The last UTF-16 code unit of a character (`charCodeAt`): characters past
      the Basic Multilingual Plane end in a low surrogate. */
  function LastCodeUnit(c: char): (u: int)
    ensures 0 <= u < 0x10000
    ensures c as int < 0x10000 ==> u == c as int
  {
    if c as int < 0x10000 then c as int else 0xDC00 + (c as int - 0x10000) % 0x400
  }

  /** The first Hangul syllable, 가, and the number of final consonants (27) plus none. */
  const HangulBase: int := 44032
  const FinalCount: int := 28

  /** `s.josaFormat(formats)`: '' when there is no last character (or it is
      U+0000); otherwise `s` followed by formats[0] when the JavaScript
      remainder of (code - 44032) by 28 is positive, else formats[1], or by
      nothing when that entry is missing. */
  function JosaFormat(s: string, formats: seq<string>): (r: string)
    ensures s == [] || LastCodeUnit(s[|s| - 1]) == 0 ==> r == ""
    ensures s != [] && LastCodeUnit(s[|s| - 1]) != 0 ==>
      var final := JsRem(LastCodeUnit(s[|s| - 1]) - HangulBase, FinalCount) > 0;
      |r| >= |s| && r[..|s|] == s
      && (final && |formats| > 0 ==> r[|s|..] == formats[0])
      && (!final && |formats| > 1 ==> r[|s|..] == formats[1])
      && ((final && |formats| == 0) || (!final && |formats| <= 1) ==> r == s)
  {
    var code := if s == [] then 0 else LastCodeUnit(s[|s| - 1]);
    if code == 0 then ""
    else
      var index := if JsRem(code - HangulBase, FinalCount) > 0 then 0 else 1;
      s + (if index < |formats| then formats[index] else "")
  }

  /** For a Hangul syllable the first form is chosen exactly when the syllable
      ends in a consonant. */
  lemma JosaHangul(s: string, formats: seq<string>)
    requires s != [] && 0xAC00 <= s[|s| - 1] as int <= 0xD7A3 && |formats| >= 2
    ensures JosaFormat(s, formats) == s + (if (s[|s| - 1] as int - 0xAC00) % 28 != 0 then formats[0] else formats[1])
  {
  }

  /** Below 가 the remainder is never positive, so the second form is chosen. */
  lemma JosaBelowHangul(s: string, formats: seq<string>)
    requires s != [] && 0 < s[|s| - 1] as int < HangulBase && |formats| >= 2
    ensures JosaFormat(s, formats) == s + formats[1]
  {
  }

  lemma JosaExamples()
    ensures JosaFormat("책", ["을", "를"]) == "책을"
    ensures JosaFormat("나", ["을", "를"]) == "나를"
    ensures JosaFormat("", ["을", "를"]) == ""
    ensures JosaFormat("나", ["이"]) == "나"
  {
    var book: string := "책";
    var me: string := "나";
    assert book[0] as int == 0xCC45;
    assert me[0] as int == 0xB098;
  }

  // ---------------------------------------------------------------------------
  // firstWordUpperCase

  /** `s.firstWordUpperCase()`: the first character upper-cased. */
  function FirstWordUpperCase(s: string): (r: string)
    ensures |r| == |s|
    ensures s != [] ==> r[0] == AsciiUpper(s[0]) && r[1..] == s[1..]
  {
    UpperFirst(s)
  }

  lemma FirstWordUpperCaseIdempotent(s: string)
    ensures FirstWordUpperCase(FirstWordUpperCase(s)) == FirstWordUpperCase(s)
  {
    if s != [] {
      var r := FirstWordUpperCase(s);
      assert AsciiUpper(AsciiUpper(s[0])) == AsciiUpper(s[0]);
      assert FirstWordUpperCase(r) == [r[0]] + r[1..];
      assert r == [r[0]] + r[1..];
    }
  }
}
