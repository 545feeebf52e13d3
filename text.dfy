/**
 * Python string helpers the source relies on, restricted to ASCII:
 * `str(int)`, `int(str)` on digit strings, `str.isdigit`, `str.lower`,
 * `str.title`, `",".join`, `str.split`, `str.replace(" ", "")`, `in` on strings
 * and the thousands separator of the `,` format specifier.
 */
module Text {

  import opened Wrappers

  predicate IsDigit(c: char) { '0' <= c <= '9' }

  predicate IsUpper(c: char) { 'A' <= c <= 'Z' }

  predicate IsLower(c: char) { 'a' <= c <= 'z' }

  predicate IsLetter(c: char) { IsUpper(c) || IsLower(c) }

  /** Python's `str.isdigit`: non-empty and every character a digit. */
  predicate IsDigits(s: string) {
    |s| > 0 && forall i :: 0 <= i < |s| ==> IsDigit(s[i])
  }

  predicate AllDigits(s: string) {
    forall i :: 0 <= i < |s| ==> IsDigit(s[i])
  }

  function DigitChar(d: nat): (c: char)
    requires d < 10
    ensures IsDigit(c) && c as int - '0' as int == d
  {
    ('0' as int + d) as char
  }

  /** The value of a string of decimal digits, as Python's `int` reads it. */
  function DigitsValue(s: string): nat
    requires AllDigits(s)
  {
    if s == [] then 0
    else DigitsValue(s[..|s| - 1]) * 10 + (s[|s| - 1] as int - '0' as int)
  }

  /** Python's `str` of a non-negative integer. */
  function NatToString(n: nat): (s: string)
    ensures IsDigits(s)
  {
    if n < 10 then [DigitChar(n)] else NatToString(n / 10) + [DigitChar(n % 10)]
  }

  /** Python's `str` of an integer. */
  function IntToString(i: int): (s: string)
    ensures |s| > 0
    ensures i >= 0 ==> s == NatToString(i)
    ensures i < 0 ==> s == "-" + NatToString(-i)
  {
    if i >= 0 then NatToString(i) else "-" + NatToString(-i)
  }

  /** `int(str(n)) == n`. */
  lemma {:induction false} NatToStringRoundTrip(n: nat)
    ensures DigitsValue(NatToString(n)) == n
  {
    if n >= 10 {
      var p := NatToString(n / 10);
      NatToStringRoundTrip(n / 10);
      var s := p + [DigitChar(n % 10)];
      assert s[..|s| - 1] == p;
    }
  }

  /** Decimal strings of distinct numbers are distinct. */
  lemma NatToStringInjective(m: nat, n: nat)
    requires NatToString(m) == NatToString(n)
    ensures m == n
  {
    NatToStringRoundTrip(m);
    NatToStringRoundTrip(n);
  }

  /** Python's `int(s)` for the strings it is applied to here: `None` stands for `ValueError`. */
  function ParseNat(s: string): (r: Option<nat>)
    ensures r.Some? <==> IsDigits(s)
  {
    if IsDigits(s) then Some(DigitsValue(s)) else None
  }

  predicate StartsWith(s: string, prefix: string) {
    |prefix| <= |s| && s[..|prefix|] == prefix
  }

  predicate OccursAt(s: string, sub: string, i: int) {
    0 <= i <= |s| - |sub| && s[i..i + |sub|] == sub
  }

  /** Python's `sub in s`. */
  predicate Contains(s: string, sub: string) {
    exists i :: 0 <= i <= |s| && OccursAt(s, sub, i)
  }

  function LowerChar(c: char): (r: char)
    ensures IsUpper(c) ==> IsLower(r)
    ensures !IsUpper(c) ==> r == c
  {
    if IsUpper(c) then (c as int + 32) as char else c
  }

  function UpperChar(c: char): (r: char)
    ensures IsLower(c) ==> IsUpper(r)
    ensures !IsLower(c) ==> r == c
  {
    if IsLower(c) then (c as int - 32) as char else c
  }

  /** Python's `str.lower` on ASCII letters. */
  function Lower(s: string): (r: string)
    ensures |r| == |s|
    ensures forall i :: 0 <= i < |s| ==> r[i] == LowerChar(s[i])
  {
    if s == [] then [] else [LowerChar(s[0])] + Lower(s[1..])
  }

  /** Lower-casing twice is lower-casing once. */
  lemma LowerIdempotent(s: string)
    ensures Lower(Lower(s)) == Lower(s)
  {
  }

  /**
   * Python's `str.title`: a letter is upper-cased when the character before it
   * is not a letter, and lower-cased otherwise.
   */
  function Title(s: string): string
  {
    TitleAfter(s, false)
  }

  /** `Title` of the rest of a string, `afterLetter` telling whether the character before it is a letter. */
  function TitleAfter(s: string, afterLetter: bool): string
  {
    if s == [] then []
    else [if afterLetter then LowerChar(s[0]) else UpperChar(s[0])] + TitleAfter(s[1..], IsLetter(s[0]))
  }

  /** Title case keeps the length and cases each letter by the character before it. */
  lemma {:induction false} TitleAfterSpec(s: string, afterLetter: bool)
    ensures |TitleAfter(s, afterLetter)| == |s|
    ensures forall i :: 0 <= i < |s| ==>
      TitleAfter(s, afterLetter)[i] == if (if i == 0 then afterLetter else IsLetter(s[i - 1])) then LowerChar(s[i]) else UpperChar(s[i])
  {
    if s != [] {
      TitleAfterSpec(s[1..], IsLetter(s[0]));
      var r := TitleAfter(s, afterLetter);
      forall i | 1 <= i < |s|
        ensures r[i] == if IsLetter(s[i - 1]) then LowerChar(s[i]) else UpperChar(s[i])
      {
        assert r[i] == TitleAfter(s[1..], IsLetter(s[0]))[i - 1];
        assert s[1..][i - 1] == s[i];
        if i > 1 {
          assert s[1..][i - 2] == s[i - 1];
        }
      }
    }
  }

  /** `Title`: a letter is upper-cased at the start and after a character that is not a letter. */
  lemma TitleSpec(s: string)
    ensures |Title(s)| == |s|
    ensures forall i :: 0 <= i < |s| ==>
      Title(s)[i] == if i == 0 || !IsLetter(s[i - 1]) then UpperChar(s[i]) else LowerChar(s[i])
  {
    TitleAfterSpec(s, false);
  }

  /** Python's `sep.join(parts)`. */
  function Join(sep: string, parts: seq<string>): string
  {
    if |parts| == 0 then ""
    else if |parts| == 1 then parts[0]
    else parts[0] + sep + Join(sep, parts[1..])
  }

  /** Python's `s.split(sep)` for a one-character separator: never empty. */
  function Split(s: string, sep: char): (r: seq<string>)
    ensures |r| > 0
    ensures forall k :: 0 <= k < |r| ==> sep !in r[k]
  {
    if s == [] then [""]
    else if s[0] == sep then [""] + Split(s[1..], sep)
    else
      var rest := Split(s[1..], sep);
      [[s[0]] + rest[0]] + rest[1..]
  }

  /** Python's `s.replace(c, "")`. */
  function Remove(s: string, c: char): (r: string)
    ensures c !in r
  {
    if s == [] then [] else (if s[0] == c then [] else [s[0]]) + Remove(s[1..], c)
  }

  lemma {:induction false} RemoveAbsent(s: string, c: char)
    requires c !in s
    ensures Remove(s, c) == s
  {
    if s != [] {
      RemoveAbsent(s[1..], c);
    }
  }

  lemma {:induction false} RemoveAppend(a: string, b: string, c: char)
    ensures Remove(a + b, c) == Remove(a, c) + Remove(b, c)
  {
    if a == [] {
      assert a + b == b;
    } else {
      assert (a + b)[1..] == a[1..] + b;
      RemoveAppend(a[1..], b, c);
    }
  }

  lemma {:induction false} SplitAppend(a: string, b: string, sep: char)
    requires sep !in a
    ensures Split(a + [sep] + b, sep) == [a] + Split(b, sep)
  {
    if a == [] {
      assert a + [sep] + b == [sep] + b;
      assert ([sep] + b)[1..] == b;
    } else {
      assert (a + [sep] + b)[1..] == a[1..] + [sep] + b;
      SplitAppend(a[1..], b, sep);
      assert [a[0]] + a[1..] == a;
    }
  }

  lemma {:induction false} SplitNoSep(a: string, sep: char)
    requires sep !in a
    ensures Split(a, sep) == [a]
  {
    if a != [] {
      SplitNoSep(a[1..], sep);
      assert [a[0]] + a[1..] == a;
    }
  }

  /** Splitting a join gives back its parts when no part holds the separator. */
  lemma {:induction false} SplitJoin(parts: seq<string>, sep: char)
    requires |parts| > 0
    requires forall k :: 0 <= k < |parts| ==> sep !in parts[k]
    ensures Split(Join([sep], parts), sep) == parts
  {
    if |parts| == 1 {
      SplitNoSep(parts[0], sep);
    } else {
      SplitJoin(parts[1..], sep);
      SplitAppend(parts[0], Join([sep], parts[1..]), sep);
      assert [parts[0]] + parts[1..] == parts;
    }
  }

  /** Digits grouped in threes from the right, joined with commas. */
  function Grouped(digits: string): (r: string)
    decreases |digits|
  {
    if |digits| <= 3 then digits
    else Grouped(digits[..|digits| - 3]) + "," + digits[|digits| - 3..]
  }

  /** Python's `f"{i:,}"` for an integer. */
  function Thousands(i: int): string
  {
    if i >= 0 then Grouped(NatToString(i)) else "-" + Grouped(NatToString(-i))
  }

  /** Dropping the separators restores the plain decimal digits. */
  lemma {:induction false} GroupedUngroups(digits: string)
    requires AllDigits(digits)
    ensures Remove(Grouped(digits), ',') == digits
    decreases |digits|
  {
    if |digits| <= 3 {
      RemoveAbsent(digits, ',');
    } else {
      var hd, tl := digits[..|digits| - 3], digits[|digits| - 3..];
      assert AllDigits(hd) by {
        forall k | 0 <= k < |hd| ensures IsDigit(hd[k]) {
          assert hd[k] == digits[k];
        }
      }
      GroupedUngroups(hd);
      var g := Grouped(hd);
      assert Remove(",", ',') == [];
      calc {
        Remove(Grouped(digits), ',');
        Remove(g + "," + tl, ',');
        { RemoveAppend(g + ",", tl, ','); }
        Remove(g + ",", ',') + Remove(tl, ',');
        { RemoveAppend(g, ",", ','); RemoveAbsent(tl, ','); }
        Remove(g, ',') + tl;
        hd + tl;
        { assert hd + tl == digits; }
        digits;
      }
    }
  }

  /** `f"{i:,}"` with the commas removed is `str(i)`. */
  lemma ThousandsIsDecimal(i: int)
    ensures Remove(Thousands(i), ',') == IntToString(i)
  {
    if i >= 0 {
      GroupedUngroups(NatToString(i));
    } else {
      GroupedUngroups(NatToString(-i));
      RemoveAppend("-", Grouped(NatToString(-i)), ',');
    }
  }

  /** Python's `<=` on strings: lexicographic by code point, a prefix first. */
  predicate StrLe(a: string, b: string)
  {
    a == [] || (b != [] && (a[0] < b[0] || (a[0] == b[0] && StrLe(a[1..], b[1..]))))
  }

  lemma {:induction false} StrLeTotal(a: string, b: string)
    ensures StrLe(a, b) || StrLe(b, a)
  {
    if a != [] && b != [] && a[0] == b[0] {
      StrLeTotal(a[1..], b[1..]);
    }
  }

  lemma {:induction false} StrLeTrans(a: string, b: string, c: string)
    requires StrLe(a, b) && StrLe(b, c)
    ensures StrLe(a, c)
  {
    if a != [] && b != [] && c != [] && a[0] == b[0] && b[0] == c[0] {
      StrLeTrans(a[1..], b[1..], c[1..]);
    }
  }

  // ---------------------------------------------------------------------------
  // Python's `int(str)`

  /** The ASCII characters `int` skips around a number (`str.isspace` on ASCII). */
  predicate IsSpace(c: char)
  {
    c == ' ' || 9 <= c as int <= 13 || 28 <= c as int <= 31
  }

  function TrimStart(s: string): (r: string)
    ensures r == [] || !IsSpace(r[0])
    ensures |r| <= |s| && r == s[|s| - |r|..]
  {
    if s != [] && IsSpace(s[0]) then TrimStart(s[1..]) else s
  }

  function TrimEnd(s: string): (r: string)
    ensures r == [] || !IsSpace(r[|r| - 1])
    ensures |r| <= |s| && r == s[..|r|]
  {
    if s != [] && IsSpace(s[|s| - 1]) then TrimEnd(s[..|s| - 1]) else s
  }

  /** Digits with single underscores between them, as `int` accepts them. */
  predicate IsNumeral(s: string)
  {
    && |s| > 0 && IsDigit(s[0])
    && (forall i :: 0 <= i < |s| ==> IsDigit(s[i]) || s[i] == '_')
    && (forall i :: 0 <= i < |s| && s[i] == '_' ==> i + 1 < |s| && IsDigit(s[i + 1]))
  }

  /**
   * Python's `int(s)` in base 10 on ASCII text: surrounding white space is
   * skipped, one sign is allowed, underscores may separate digits; `None`
   * stands for `ValueError`.
   */
  function PyInt(s: string): (r: Option<int>)
  {
    var t := TrimEnd(TrimStart(s));
    var negative := t != [] && t[0] == '-';
    var body := if t != [] && (t[0] == '+' || t[0] == '-') then t[1..] else t;
    if !IsNumeral(body) then None
    else
      assert AllDigits(Remove(body, '_')) by { RemoveKeepsDigits(body); }
      var v: int := DigitsValue(Remove(body, '_'));
      Some(if negative then -v else v)
  }

  lemma {:induction false} RemoveKeepsDigits(s: string)
    requires forall i :: 0 <= i < |s| ==> IsDigit(s[i]) || s[i] == '_'
    ensures AllDigits(Remove(s, '_'))
  {
    if s != [] {
      RemoveKeepsDigits(s[1..]);
    }
  }

  /** `int` accepts text the plain digit reading of `implicit_cast` accepts, with the same value. */
  lemma PyIntOfDigits(s: string)
    requires IsDigits(s)
    ensures PyInt(s) == Some(DigitsValue(s) as int)
  {
    assert !IsSpace(s[0]) && !IsSpace(s[|s| - 1]);
    assert TrimStart(s) == s;
    assert TrimEnd(s) == s;
    assert forall i :: 0 <= i < |s| ==> s[i] != '_';
    RemoveAbsent(s, '_');
  }

  /** `int` reads back every decimal string `str` writes. */
  lemma PyIntOfString(n: nat)
    ensures PyInt(NatToString(n)) == Some(n)
  {
    PyIntOfDigits(NatToString(n));
    NatToStringRoundTrip(n);
  }

  /** Removing a character from a join removes it from the separator and every part. */
  lemma {:induction false} RemoveJoin(sep: string, parts: seq<string>, c: char)
    ensures Remove(Join(sep, parts), c) == Join(Remove(sep, c), seq(|parts|, i requires 0 <= i < |parts| => Remove(parts[i], c)))
    decreases |parts|
  {
    var rs := seq(|parts|, i requires 0 <= i < |parts| => Remove(parts[i], c));
    if |parts| >= 2 {
      RemoveJoin(sep, parts[1..], c);
      var tail := seq(|parts| - 1, i requires 0 <= i < |parts| - 1 => Remove(parts[1..][i], c));
      assert tail == rs[1..];
      RemoveAppend(parts[0] + sep, Join(sep, parts[1..]), c);
      RemoveAppend(parts[0], sep, c);
    }
  }
}
