/**
 * The regular expressions of the spreadsheet checks. Each is compiled with
 * `re.MULTILINE` and applied with `re.match`, so it is anchored at the start
 * of the cell text and its `$` holds at the end of the text or before any
 * line break. Digit classes are ASCII here.
 */
module Patterns {

  import opened Text

  /** `$` under `re.MULTILINE`: at the end of the text or before a line break. */
  predicate LineEndAt(s: string, i: int)
  {
    i == |s| || (0 <= i < |s| && s[i] == '\n')
  }

  /** The text up to its first line break. */
  function FirstLine(s: string): (r: string)
    ensures '\n' !in r
    ensures Text.StartsWith(s, r) && LineEndAt(s, |r|)
  {
    if s == [] || s[0] == '\n' then []
    else [s[0]] + FirstLine(s[1..])
  }

  /** The number of leading ASCII digits. */
  function DigitRun(s: string): (n: nat)
    ensures n <= |s|
    ensures forall i :: 0 <= i < n ==> IsDigit(s[i])
    ensures n < |s| ==> !IsDigit(s[n])
  {
    if s != [] && IsDigit(s[0]) then 1 + DigitRun(s[1..]) else 0
  }

  predicate IsCallsignChar(c: char)
  {
    IsUpper(c) || IsDigit(c)
  }

  /** `^[A-Z0-9]{3}-[A-Z0-9]{3}$`: a carrier callsign such as "K7Q-BQL". */
  predicate CallsignMatch(s: string)
  {
    && |s| >= 7
    && IsCallsignChar(s[0]) && IsCallsignChar(s[1]) && IsCallsignChar(s[2])
    && s[3] == '-'
    && IsCallsignChar(s[4]) && IsCallsignChar(s[5]) && IsCallsignChar(s[6])
    && LineEndAt(s, 7)
  }

  const InaraPrefix := "https://inara.cz/station/"

  /** `^https:\/\/inara\.cz\/station\/\d+$`: an Inara station page. */
  predicate InaraUrlMatch(s: string)
  {
    && Text.StartsWith(s, InaraPrefix)
    && var n := DigitRun(s[|InaraPrefix|..]);
       n > 0 && LineEndAt(s, |InaraPrefix| + n)
  }

  /**
   * The language of `(?:\d+, ?)*(?:\d+)?` on one line: digit groups, each but
   * possibly the last followed by a comma and at most one space.
   */
  predicate IdListLine(t: string)
    decreases |t|
  {
    t == [] ||
    var n := DigitRun(t);
    && n > 0
    && (n == |t| ||
        (t[n] == ',' &&
         var rest := t[n + 1..];
         IdListLine(if rest != [] && rest[0] == ' ' then rest[1..] else rest)))
  }

  /**
   * `^(?:\d+, ?)*(?:\d+)?$`: the pattern never consumes a line break, so it
   * matches exactly when the first line is such a list.
   */
  predicate IdListMatch(s: string)
  {
    IdListLine(FirstLine(s))
  }

  /**
   * `^W1|W2|...|Wn$` as written: `|` binds loosest, so the first alternatives
   * only need to start the text and only the last must end a line.
   */
  predicate AlternationAsWritten(words: seq<string>, s: string)
  {
    exists i :: 0 <= i < |words| &&
      Text.StartsWith(s, words[i]) && (i < |words| - 1 || LineEndAt(s, |words[i]|))
  }

  /** The evidently intended reading of `^W1|W2|...|Wn$`: the text is one of the words. */
  predicate OneOf(words: seq<string>, s: string)
  {
    s in words
  }

  /** Every text the intended pattern accepts, the written one accepts too. */
  lemma OneOfAcceptedAsWritten(words: seq<string>, s: string)
    requires OneOf(words, s)
    ensures AlternationAsWritten(words, s)
  {
    var i :| 0 <= i < |words| && words[i] == s;
    assert s[..|words[i]|] == words[i];
  }

  /** The market words of the carrier sheet. */
  const MarketWords: seq<string> := ["Buying", "Selling", "Unlisted"]

  /** The login services of the CAPI sheet. */
  const ServiceWords: seq<string> := ["Frontier", "Steam", "Epic"]

  /** The task stages of the restock and rescue sheets. */
  const StageWords: seq<string> := ["Pending", "Underway", "Complete", "Aborted"]

  /** The patterns of the checks, by meaning; `Words` uses the intended reading. */
  datatype Pattern = Callsign | InaraUrl | IdList | Words(words: seq<string>)

  predicate Matches(p: Pattern, s: string)
  {
    match p
    case Callsign => CallsignMatch(s)
    case InaraUrl => InaraUrlMatch(s)
    case IdList => IdListMatch(s)
    case Words(ws) => OneOf(ws, s)
  }

  /** The text of a pattern as the program prints it. */
  function Source(p: Pattern): (r: string)
    ensures '\n' !in r
  {
    match p
    case Callsign => "^[A-Z0-9]{3}-[A-Z0-9]{3}$"
    case InaraUrl => "^https:\\/\\/inara\\.cz\\/station\\/\\d+$"
    case IdList => "^(?:\\d+, ?)*(?:\\d+)?$"
    case Words(ws) =>
      if forall i :: 0 <= i < |ws| ==> '\n' !in ws[i] then "^" + JoinNoBreak("|", ws) + "$" else "^$"
  }

  /** `sep.join(ws)` for words without line breaks has no line break. */
  function JoinNoBreak(sep: string, ws: seq<string>): (r: string)
    requires '\n' !in sep
    requires forall i :: 0 <= i < |ws| ==> '\n' !in ws[i]
    ensures '\n' !in r
    ensures r == Join(sep, ws)
  {
    if |ws| == 0 then ""
    else if |ws| == 1 then ws[0]
    else ws[0] + sep + JoinNoBreak(sep, ws[1..])
  }

  /** A callsign-checked cell holds a callsign on its first line, never more than seven characters of it. */
  lemma CallsignFirstLine(s: string)
    requires CallsignMatch(s)
    ensures |FirstLine(s)| == 7
  {
    FirstLineAt(s, 7);
  }

  /** The first line ends at the first line break. */
  lemma {:induction false} FirstLineAt(s: string, n: nat)
    requires n <= |s| && '\n' !in s[..n] && LineEndAt(s, n)
    ensures FirstLine(s) == s[..n]
  {
    if n > 0 {
      assert s[0] in s[..n];
      assert s[1..][..n - 1] == s[1..n];
      assert forall c :: c in s[1..n] ==> c in s[..n];
      FirstLineAt(s[1..], n - 1);
    }
  }
}
