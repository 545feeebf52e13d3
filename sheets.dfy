/**
 * Spreadsheet cells and the row checks of the storage layer: the implicit
 * cast of a cell to the expected type, the validation of a row against a
 * table of checks and the message that explains a failed validation.
 */
module Sheets {

  import opened Wrappers
  import opened Text
  import opened Patterns
  import opened Seqs

  /**
   * A cell as the Sheets API returns it unformatted, or a value the code
   * writes into a row; `Null` is Python's `None`.
   */
  datatype Cell = Str(s: string) | Int(i: int) | Float(x: real) | Bool(b: bool) | Null

  type Row = seq<Cell>
  type Table = seq<Row>

  /** The failures of the sheet layer. */
  datatype SheetError =
    | NotLoaded           // `AttributeError`: the sheet has not been pulled
    | NoSuchSheet         // `KeyError` on a sheet name
    | BadCredentials      // `PermissionError`: the Google token is invalid
    | ApiFailure(status: int)  // an `HttpError` other than 500, 502 and 503
    | IndexError          // a row shorter than the header row
    | HeaderMismatch      // a checked header is missing from the sheet
    | NoColumn(key: string)  // `list.index` on a header that is not there
    | NoLocation          // the `assert` on a carrier's deploy location

  /** The number a cell stands for in Python arithmetic and comparisons (`True` is 1). */
  function Numeric(c: Cell): Option<real>
  {
    match c
    case Int(i) => Some(i as real)
    case Float(x) => Some(x)
    case Bool(b) => Some(if b then 1.0 else 0.0)
    case _ => None
  }

  /** Python's `==` between cell values: numbers by value, text by text, `None` only with itself. */
  predicate PyEq(a: Cell, b: Cell)
  {
    if Numeric(a).Some? || Numeric(b).Some? then Numeric(a) == Numeric(b) else a == b
  }

  /** Cell equality is an equivalence. */
  lemma PyEqEquivalence(a: Cell, b: Cell, c: Cell)
    ensures PyEq(a, a)
    ensures PyEq(a, b) ==> PyEq(b, a)
    ensures PyEq(a, b) && PyEq(b, c) ==> PyEq(a, c)
  {
  }

  /** Python's truth value of a cell. */
  predicate Truthy(c: Cell)
  {
    match c
    case Str(s) => s != ""
    case Int(i) => i != 0
    case Float(x) => x != 0.0
    case Bool(b) => b
    case Null => false
  }

  /** The integer a cell that passed an `int` check stands for (`bool` is a subclass of `int`). */
  function AsInt(c: Cell): int
  {
    match c
    case Int(i) => i
    case Bool(b) => if b then 1 else 0
    case _ => 0
  }

  // ---------------------------------------------------------------------------
  // Types and the implicit cast

  /** The types the checks expect. */
  datatype Kind = StrKind | IntKind | FloatKind | BoolKind

  function TypeName(k: Kind): (r: string)
    ensures '\n' !in r
  {
    match k
    case StrKind => "str"
    case IntKind => "int"
    case FloatKind => "float"
    case BoolKind => "bool"
  }

  /** `isinstance(value, type)`: booleans are integers too. */
  predicate IsInstance(v: Cell, k: Kind)
  {
    match k
    case StrKind => v.Str?
    case IntKind => v.Int? || v.Bool?
    case FloatKind => v.Float?
    case BoolKind => v.Bool?
  }

  /** `issubclass(type, int)`. */
  predicate IsIntType(k: Kind)
  {
    k == IntKind || k == BoolKind
  }

  /**
   * `implicit_cast`: an integer (or boolean) becomes a float when a float is
   * expected, digit text becomes an integer when an integer type is expected,
   * and everything else is left as it is.
   */
  function ImplicitCast(v: Cell, k: Kind): (r: Cell)
    ensures k == FloatKind && (v.Int? || v.Bool?) ==> r == Float(Numeric(v).value)
    ensures IsIntType(k) && v.Str? && IsDigits(v.s) ==> r == Int(DigitsValue(v.s))
    ensures !(k == FloatKind && (v.Int? || v.Bool?)) && !(IsIntType(k) && v.Str? && IsDigits(v.s)) ==> r == v
  {
    if k == FloatKind && (v.Int? || v.Bool?) then Float(Numeric(v).value)
    else if IsIntType(k) && v.Str? && IsDigits(v.s) then Int(DigitsValue(v.s))
    else v
  }

  /** Casting keeps the number a cell stands for, and casting twice is casting once. */
  lemma CastProperties(v: Cell, k: Kind)
    ensures Numeric(v).Some? ==> Numeric(ImplicitCast(v, k)) == Numeric(v)
    ensures ImplicitCast(ImplicitCast(v, k), k) == ImplicitCast(v, k)
    ensures IsInstance(v, k) && k != StrKind ==> ImplicitCast(v, k) == v || k == FloatKind
  {
  }

  /** Digit text expected as an integer is read as the integer it spells. */
  lemma CastReadsDigits(n: nat, k: Kind)
    requires IsIntType(k)
    ensures ImplicitCast(Str(NatToString(n)), k) == Int(n)
  {
    NatToStringRoundTrip(n);
  }

  // ---------------------------------------------------------------------------
  // Row validation

  /** One check: the expected type, whether `None` is allowed (`T | None`) and an optional pattern. */
  datatype Check = Check(kind: Kind, optional: bool, pattern: Option<Pattern>)

  /** `str(value)` for the cells a pattern can be applied to; float text is not modelled. */
  function PatternText(v: Cell): Option<string>
  {
    match v
    case Str(s) => Some(s)
    case Int(i) => Some(IntToString(i))
    case Bool(b) => Some(if b then "True" else "False")
    case _ => None
  }

  /** Whether a value passes the pattern of a check (always, without one). */
  predicate PatternOk(p: Option<Pattern>, v: Cell)
  {
    p.None? || (PatternText(v).Some? && Matches(p.value, PatternText(v).value))
  }

  /** `headers.index(key)`: the first column whose header is the key. */
  function Column(headers: Row, key: string): (r: Option<nat>)
    ensures r.Some? ==> r.value < |headers| && headers[r.value] == Str(key)
    ensures r.Some? ==> forall j :: 0 <= j < r.value ==> headers[j] != Str(key)
    ensures r.None? <==> Str(key) !in headers
  {
    if headers == [] then None
    else if headers[0] == Str(key) then Some(0)
    else
      match Column(headers[1..], key)
      case None => None
      case Some(j) => Some(j + 1)
  }

  /** What one key of a row comes to: loaded with a value, or invalid with the offending value. */
  datatype Verdict = Loaded(value: Cell) | Invalid(value: Cell)

  /**
   * The verdict on one present cell: a blank cell is `None` for an optional
   * key and invalid otherwise; any other cell is cast (unless `strict`) and is
   * invalid with the cast value when it has the wrong type or fails the
   * pattern.
   */
  function JudgeCell(cell: Cell, c: Check, strict: bool): (r: Verdict)
    ensures cell == Str("") ==> r == if c.optional then Loaded(Null) else Invalid(Null)
    ensures cell != Str("") ==>
      var v := if strict then cell else ImplicitCast(cell, c.kind);
      r.value == v && (r.Loaded? <==> IsInstance(v, c.kind) && PatternOk(c.pattern, v))
  {
    if cell == Str("") then (if c.optional then Loaded(Null) else Invalid(Null))
    else
      var v := if strict then cell else ImplicitCast(cell, c.kind);
      if !IsInstance(v, c.kind) then Invalid(v)
      else if !PatternOk(c.pattern, v) then Invalid(v)
      else Loaded(v)
  }

  /**
   * One key of `validate_row`: a header that is missing is invalid with
   * `None`, a header beyond the end of the row is an `IndexError`, and a
   * present cell is judged by `JudgeCell`.
   */
  function Judge(headers: Row, row: Row, key: string, c: Check, strict: bool): (r: Result<Verdict, SheetError>)
    ensures Column(headers, key).None? ==> r == Ok(Invalid(Null))
    ensures r.Err? <==> Column(headers, key).Some? && Column(headers, key).value >= |row|
    ensures r.Err? ==> r.error == IndexError
    ensures r.Ok? && Column(headers, key).Some? ==> r.value == JudgeCell(row[Column(headers, key).value], c, strict)
  {
    match Column(headers, key)
    case None => Ok(Invalid(Null))
    case Some(i) =>
      if i >= |row| then Err(IndexError)
      else Ok(JudgeCell(row[i], c, strict))
  }

  /** A loaded value is `None` for an optional key, or has the expected type and passes the pattern. */
  lemma LoadedIsWellTyped(headers: Row, row: Row, key: string, c: Check, strict: bool)
    requires Judge(headers, row, key, c, strict).Ok?
    requires Judge(headers, row, key, c, strict).value.Loaded?
    ensures var v := Judge(headers, row, key, c, strict).value.value;
      (v == Null && c.optional) || (IsInstance(v, c.kind) && PatternOk(c.pattern, v))
  {
  }

  /** The outcome of `validate_row`: the loaded values by key, and the invalid keys in check order. */
  datatype Validation = Validation(loaded: map<string, Cell>, invalid: seq<(string, Cell)>)

  function InvalidKeys(inv: seq<(string, Cell)>): (ks: seq<string>)
    ensures |ks| == |inv|
    ensures forall i :: 0 <= i < |inv| ==> ks[i] == inv[i].0
  {
    if inv == [] then [] else InvalidKeys(inv[..|inv| - 1]) + [inv[|inv| - 1].0]
  }

  function Keys(checks: seq<(string, Check)>): (ks: seq<string>)
    ensures |ks| == |checks|
    ensures forall i :: 0 <= i < |checks| ==> ks[i] == checks[i].0
  {
    if checks == [] then [] else Keys(checks[..|checks| - 1]) + [checks[|checks| - 1].0]
  }

  /** No key is checked twice (the checks are a dictionary). */
  predicate DistinctKeys(checks: seq<(string, Check)>)
  {
    forall i, j :: 0 <= i < j < |checks| ==> checks[i].0 != checks[j].0
  }

  /** A validation with one more key's verdict written into it. */
  function Record(v: Validation, key: string, verdict: Verdict): Validation
  {
    match verdict
    case Loaded(x) => Validation(v.loaded[key := x], v.invalid)
    case Invalid(x) => Validation(v.loaded, v.invalid + [(key, x)])
  }

  /** A key's verdict is what the validation shows for it, in exactly one of its two parts. */
  predicate Recorded(v: Validation, key: string, verdict: Verdict)
  {
    match verdict
    case Loaded(x) => key in v.loaded && v.loaded[key] == x && key !in InvalidKeys(v.invalid)
    case Invalid(x) => key !in v.loaded && (key, x) in v.invalid
  }

  /** `validate_row` over the checks in order; the first `IndexError` ends it. */
  function Validated(headers: Row, row: Row, checks: seq<(string, Check)>, strict: bool): Result<Validation, SheetError>
  {
    if checks == [] then Ok(Validation(map[], []))
    else
      var (key, c) := checks[|checks| - 1];
      match Validated(headers, row, checks[..|checks| - 1], strict)
      case Err(e) => Err(e)
      case Ok(v) =>
        match Judge(headers, row, key, c, strict)
        case Err(e) => Err(e)
        case Ok(verdict) => Ok(Record(v, key, verdict))
  }

  lemma InvalidKeysAppend(inv: seq<(string, Cell)>, p: (string, Cell))
    ensures InvalidKeys(inv + [p]) == InvalidKeys(inv) + [p.0]
  {
    assert (inv + [p])[..|inv|] == inv;
  }

  /** Recording another key leaves what is recorded for a key as it was. */
  lemma RecordKeeps(v: Validation, key: string, verdict: Verdict, k: string, w: Verdict)
    requires k != key && Recorded(v, k, w)
    ensures Recorded(Record(v, key, verdict), k, w)
  {
    if verdict.Invalid? {
      InvalidKeysAppend(v.invalid, (key, verdict.value));
    }
  }

  /** Recording a key adds it to exactly one of the two parts. */
  lemma RecordKeys(v: Validation, key: string, verdict: Verdict)
    ensures Record(v, key, verdict).loaded.Keys == v.loaded.Keys + if verdict.Loaded? then {key} else {}
    ensures InvalidKeys(Record(v, key, verdict).invalid) == InvalidKeys(v.invalid) + if verdict.Invalid? then [key] else []
  {
    if verdict.Invalid? {
      InvalidKeysAppend(v.invalid, (key, verdict.value));
    }
  }

  /** A key seen for the first time is recorded with its verdict. */
  lemma RecordNew(v: Validation, key: string, verdict: Verdict)
    requires key !in v.loaded && key !in InvalidKeys(v.invalid)
    ensures Recorded(Record(v, key, verdict), key, verdict)
  {
  }

  /** `validate_row` fails exactly when some checked header lies beyond the end of the row. */
  lemma {:induction false} ValidatedFails(headers: Row, row: Row, checks: seq<(string, Check)>, strict: bool)
    ensures Validated(headers, row, checks, strict).Err? <==>
      exists i :: 0 <= i < |checks| && Judge(headers, row, checks[i].0, checks[i].1, strict).Err?
  {
    if checks != [] {
      var init := checks[..|checks| - 1];
      ValidatedFails(headers, row, init, strict);
      assert forall i :: 0 <= i < |init| ==> checks[i] == init[i];
    }
  }

  /**
   * When `validate_row` succeeds with distinct keys, it holds checked keys
   * only, and every checked key is recorded with its own verdict: a loaded key
   * with its value in `loaded` and not in `invalid`, an invalid key in
   * `invalid` with its value and not in `loaded`.
   */
  lemma ValidatedRecords(headers: Row, row: Row, checks: seq<(string, Check)>, strict: bool)
    requires DistinctKeys(checks)
    requires Validated(headers, row, checks, strict).Ok?
    ensures var v := Validated(headers, row, checks, strict).value;
      && (forall k :: k in v.loaded ==> k in Keys(checks))
      && (forall k :: k in InvalidKeys(v.invalid) ==> k in Keys(checks))
      && forall i :: 0 <= i < |checks| ==> Recorded(v, checks[i].0, JudgedValue(headers, row, checks[i], strict))
  {
    var ks, vs := Keys(checks), Verdicts(headers, row, checks, strict);
    assert Distinct(ks) by {
      forall i, j | 0 <= i < j < |ks| ensures ks[i] != ks[j] {
        assert ks[i] == checks[i].0 && ks[j] == checks[j].0;
      }
    }
    ValidatedAsRecords(headers, row, checks, strict);
    RecordAllKeys(ks, vs);
    RecordAllHolds(ks, vs);
    forall i | 0 <= i < |checks|
      ensures Recorded(RecordAll(ks, vs), checks[i].0, JudgedValue(headers, row, checks[i], strict))
    {
      assert ks[i] == checks[i].0 && vs[i] == JudgedValue(headers, row, checks[i], strict);
    }
  }

  /**
   * When `validate_row` finds nothing invalid, every checked key is loaded
   * with `None` (an optional key) or a value of its type that its pattern accepts.
   */
  lemma CleanLoaded(headers: Row, row: Row, checks: seq<(string, Check)>, strict: bool, i: nat)
    requires DistinctKeys(checks) && i < |checks|
    requires Validated(headers, row, checks, strict).Ok? && Validated(headers, row, checks, strict).value.invalid == []
    ensures var d := Validated(headers, row, checks, strict).value.loaded;
      && checks[i].0 in d
      && ((d[checks[i].0] == Null && checks[i].1.optional)
          || (IsInstance(d[checks[i].0], checks[i].1.kind) && PatternOk(checks[i].1.pattern, d[checks[i].0])))
  {
    var v := Validated(headers, row, checks, strict).value;
    ValidatedRecords(headers, row, checks, strict);
    ValidatedFails(headers, row, checks, strict);
    var verdict := JudgedValue(headers, row, checks[i], strict);
    assert Recorded(v, checks[i].0, verdict);
    assert Judge(headers, row, checks[i].0, checks[i].1, strict).Ok?;
    LoadedIsWellTyped(headers, row, checks[i].0, checks[i].1, strict);
  }

  /** When `validate_row` finds nothing invalid, every check judged its cell loaded with the value it holds. */
  lemma CleanJudged(headers: Row, row: Row, checks: seq<(string, Check)>, strict: bool, i: nat)
    requires DistinctKeys(checks) && i < |checks|
    requires Validated(headers, row, checks, strict).Ok? && Validated(headers, row, checks, strict).value.invalid == []
    ensures var d := Validated(headers, row, checks, strict).value.loaded;
      checks[i].0 in d && Judge(headers, row, checks[i].0, checks[i].1, strict) == Ok(Loaded(d[checks[i].0]))
  {
    var v := Validated(headers, row, checks, strict).value;
    ValidatedRecords(headers, row, checks, strict);
    ValidatedFails(headers, row, checks, strict);
    assert Recorded(v, checks[i].0, JudgedValue(headers, row, checks[i], strict));
    assert Judge(headers, row, checks[i].0, checks[i].1, strict).Ok?;
  }

  /** The verdict of every check, in order. */
  function Verdicts(headers: Row, row: Row, checks: seq<(string, Check)>, strict: bool): seq<Verdict>
  {
    seq(|checks|, i requires 0 <= i < |checks| => JudgedValue(headers, row, checks[i], strict))
  }

  /** The validation that records each verdict in turn under its key. */
  function RecordAll(ks: seq<string>, vs: seq<Verdict>): Validation
    requires |ks| == |vs|
  {
    if ks == [] then Validation(map[], [])
    else Record(RecordAll(ks[..|ks| - 1], vs[..|vs| - 1]), ks[|ks| - 1], vs[|vs| - 1])
  }

  /** A successful `validate_row` records each check's verdict in turn. */
  lemma {:induction false} ValidatedAsRecords(headers: Row, row: Row, checks: seq<(string, Check)>, strict: bool)
    requires Validated(headers, row, checks, strict).Ok?
    ensures Validated(headers, row, checks, strict).value == RecordAll(Keys(checks), Verdicts(headers, row, checks, strict))
  {
    if checks != [] {
      var n := |checks| - 1;
      var init := checks[..n];
      ValidatedLast(headers, row, checks, strict);
      ValidatedAsRecords(headers, row, init, strict);
      var ks, vs := Keys(checks), Verdicts(headers, row, checks, strict);
      assert ks[..n] == Keys(init);
      assert vs[..n] == Verdicts(headers, row, init, strict);
      assert ks[n] == checks[n].0 && vs[n] == JudgedValue(headers, row, checks[n], strict);
    }
  }

  /** A successful `validate_row` is the one of all checks but the last, with the last verdict recorded. */
  lemma ValidatedLast(headers: Row, row: Row, checks: seq<(string, Check)>, strict: bool)
    requires checks != [] && Validated(headers, row, checks, strict).Ok?
    ensures var init := checks[..|checks| - 1];
      && Validated(headers, row, init, strict).Ok?
      && Validated(headers, row, checks, strict)
        == Ok(Record(Validated(headers, row, init, strict).value, checks[|checks| - 1].0, JudgedValue(headers, row, checks[|checks| - 1], strict)))
  {
  }

  /** Recording every verdict in turn adds no key but the recorded ones. */
  lemma {:induction false} RecordAllKeys(ks: seq<string>, vs: seq<Verdict>)
    requires |ks| == |vs|
    ensures forall k :: k in RecordAll(ks, vs).loaded ==> k in ks
    ensures forall k :: k in InvalidKeys(RecordAll(ks, vs).invalid) ==> k in ks
  {
    if ks != [] {
      var n := |ks| - 1;
      var pk, pv := ks[..n], vs[..n];
      RecordAllKeys(pk, pv);
      var v := RecordAll(pk, pv);
      assert RecordAll(ks, vs) == Record(v, ks[n], vs[n]);
      RecordKeys(v, ks[n], vs[n]);
      forall k | k in pk ensures k in ks {
        var j :| 0 <= j < n && pk[j] == k;
        assert ks[j] == k;
      }
    }
  }

  /** Under distinct keys, recording every verdict in turn keeps each one. */
  lemma {:induction false} RecordAllHolds(ks: seq<string>, vs: seq<Verdict>)
    requires |ks| == |vs| && Distinct(ks)
    ensures forall i :: 0 <= i < |ks| ==> Recorded(RecordAll(ks, vs), ks[i], vs[i])
  {
    if ks != [] {
      var n := |ks| - 1;
      var pk, pv := ks[..n], vs[..n];
      RecordAllHolds(pk, pv);
      RecordAllKeys(pk, pv);
      var v := RecordAll(pk, pv);
      assert ks[n] !in pk;
      forall i | 0 <= i < n ensures Recorded(v, ks[i], vs[i]) {
        assert pk[i] == ks[i] && pv[i] == vs[i];
      }
      RecordsExtend(ks, vs, v);
    }
  }

  /** The verdict of one check, when it has one. */
  function JudgedValue(headers: Row, row: Row, check: (string, Check), strict: bool): Verdict
  {
    var j := Judge(headers, row, check.0, check.1, strict);
    if j.Ok? then j.value else Invalid(Null)
  }

  /** Recording the verdict of the last of distinct keys keeps the verdicts of the earlier ones and adds its own. */
  lemma RecordsExtend(ks: seq<string>, vs: seq<Verdict>, v: Validation)
    requires |ks| == |vs| > 0 && Distinct(ks)
    requires forall i :: 0 <= i < |ks| - 1 ==> Recorded(v, ks[i], vs[i])
    requires ks[|ks| - 1] !in v.loaded && ks[|ks| - 1] !in InvalidKeys(v.invalid)
    ensures forall i :: 0 <= i < |ks| ==> Recorded(Record(v, ks[|ks| - 1], vs[|ks| - 1]), ks[i], vs[i])
  {
    var n := |ks| - 1;
    forall i | 0 <= i < |ks| ensures Recorded(Record(v, ks[n], vs[n]), ks[i], vs[i]) {
      if i < n {
        RecordKeeps(v, ks[n], vs[n], ks[i], vs[i]);
      } else {
        RecordNew(v, ks[n], vs[n]);
      }
    }
  }

  /** A row whose every checked key loads validates with nothing invalid, each key holding its own value. */
  lemma AllLoaded(headers: Row, row: Row, checks: seq<(string, Check)>, strict: bool, vals: seq<Cell>)
    requires DistinctKeys(checks) && |vals| == |checks|
    requires forall i :: 0 <= i < |checks| ==>
      && Judge(headers, row, checks[i].0, checks[i].1, strict).Ok?
      && Judge(headers, row, checks[i].0, checks[i].1, strict) == Ok(Loaded(vals[i]))
    ensures Validated(headers, row, checks, strict).Ok?
    ensures Validated(headers, row, checks, strict).value.invalid == []
    ensures forall i :: 0 <= i < |checks| ==>
      && checks[i].0 in Validated(headers, row, checks, strict).value.loaded
      && Validated(headers, row, checks, strict).value.loaded[checks[i].0] == vals[i]
  {
    ValidatedFails(headers, row, checks, strict);
    ValidatedRecords(headers, row, checks, strict);
    var v := Validated(headers, row, checks, strict).value;
    forall k | k in Keys(checks)
      ensures k !in InvalidKeys(v.invalid)
    {
      var i :| 0 <= i < |checks| && Keys(checks)[i] == k;
      assert Recorded(v, checks[i].0, JudgedValue(headers, row, checks[i], strict));
    }
    EmptyOrHasFirst(InvalidKeys(v.invalid));
  }

  lemma EmptyOrHasFirst(s: seq<string>)
    ensures s == [] || s[0] in s
  {
  }

  /**
   * `validate_row` checking every key in turn; a key goes to exactly one of
   * the two dictionaries.
   */
  method ValidateRow(headers: Row, row: Row, checks: seq<(string, Check)>, strict: bool)
    returns (r: Result<Validation, SheetError>)
    ensures r == Validated(headers, row, checks, strict)
  {
    var loaded: map<string, Cell> := map[];
    var invalid: seq<(string, Cell)> := [];
    var i := 0;
    while i < |checks|
      invariant 0 <= i <= |checks|
      invariant Validated(headers, row, checks[..i], strict) == Ok(Validation(loaded, invalid))
    {
      var (key, c) := checks[i];
      assert checks[..i + 1][..i] == checks[..i];
      var j := Judge(headers, row, key, c, strict);
      match j {
        case Err(e) =>
          ErrorPersists(headers, row, checks, strict, i + 1);
          return Err(e);
        case Ok(Loaded(x)) =>
          loaded := loaded[key := x];
        case Ok(Invalid(x)) =>
          invalid := invalid + [(key, x)];
      }
      i := i + 1;
    }
    assert checks[..i] == checks;
    return Ok(Validation(loaded, invalid));
  }

  /** Once a prefix of the checks fails, every longer prefix fails with the same error. */
  lemma {:induction false} ErrorPersists(headers: Row, row: Row, checks: seq<(string, Check)>, strict: bool, n: nat)
    requires n <= |checks| && Validated(headers, row, checks[..n], strict).Err?
    ensures Validated(headers, row, checks, strict) == Validated(headers, row, checks[..n], strict)
    decreases |checks| - n
  {
    if n < |checks| {
      assert checks[..n + 1][..n] == checks[..n];
      ErrorPersists(headers, row, checks, strict, n + 1);
    } else {
      assert checks[..n] == checks;
    }
  }

  // ---------------------------------------------------------------------------
  // Validation messages

  /** Two lower-case hex digits of a character code below 256. */
  function Hex2(n: int): string
    requires 0 <= n < 256
  {
    var d := "0123456789abcdef";
    [d[n / 16], d[n % 16]]
  }

  /** One character inside `repr` of a string quoted with `q` (ASCII escapes). */
  function EscapeChar(c: char, q: char): (r: string)
    requires q == '\'' || q == '"'
    ensures '\n' !in r
  {
    if c == '\\' then "\\\\"
    else if c == q then ['\\', q]
    else if c == '\t' then "\\t"
    else if c == '\n' then "\\n"
    else if c == '\r' then "\\r"
    else if c as int < 32 || c as int == 127 then "\\x" + Hex2(c as int)
    else [c]
  }

  function Escaped(s: string, q: char): (r: string)
    requires q == '\'' || q == '"'
    ensures '\n' !in r
  {
    if s == [] then [] else EscapeChar(s[0], q) + Escaped(s[1..], q)
  }

  /** `repr` of a string: double quotes only when it holds a single quote and no double quote. */
  function ReprStr(s: string): (r: string)
    ensures '\n' !in r
    ensures |r| >= 2 && (r[0] == '\'' || r[0] == '"') && r[|r| - 1] == r[0]
  {
    var q := if '\'' in s && '"' !in s then '"' else '\'';
    [q] + Escaped(s, q) + [q]
  }

  /** `repr` of a cell; float text is the parameter `floatText`. */
  function Repr(v: Cell, floatText: real -> string): string
  {
    match v
    case Str(s) => ReprStr(s)
    case Int(i) => IntToString(i)
    case Float(x) => floatText(x)
    case Bool(b) => if b then "True" else "False"
    case Null => "None"
  }

  function NoneClause(optional: bool): (r: string)
    ensures '\n' !in r
  {
    if optional then " | None" else ""
  }

  function MatchingClause(p: Option<Pattern>): (r: string)
    ensures '\n' !in r
  {
    if p.Some? then " matching '" + Source(p.value) + "'" else ""
  }

  /** "Expected T[ | None][ matching 'p']". */
  function Expected(c: Check): (r: string)
    ensures '\n' !in r
  {
    "Expected " + TypeName(c.kind) + NoneClause(c.optional) + MatchingClause(c.pattern)
  }

  /** The line of one invalid key: "key: repr (Expected ...)". */
  function MessageLine(key: string, v: Cell, c: Check, floatText: real -> string): string
  {
    key + ": " + Repr(v, floatText) + " (" + Expected(c) + ")"
  }

  /** The check of a key (`checks[key]`), the first one listed. */
  function CheckOf(checks: seq<(string, Check)>, key: string): Check
    requires key in Keys(checks)
  {
    if checks[0].0 == key then checks[0].1
    else
      assert Keys(checks)[1..] == Keys(checks[1..]);
      CheckOf(checks[1..], key)
  }

  /** The message lines, one per invalid key in order. */
  function MessageLines(invalid: seq<(string, Cell)>, checks: seq<(string, Check)>, floatText: real -> string): (ls: seq<string>)
    requires forall j :: 0 <= j < |invalid| ==> invalid[j].0 in Keys(checks)
  {
    seq(|invalid|, j requires 0 <= j < |invalid| =>
      MessageLine(invalid[j].0, invalid[j].1, CheckOf(checks, invalid[j].0), floatText))
  }

  /** `validation_message`: the lines of the invalid keys joined with line breaks. */
  function ValidationMessage(invalid: seq<(string, Cell)>, checks: seq<(string, Check)>, floatText: real -> string): string
    requires forall j :: 0 <= j < |invalid| ==> invalid[j].0 in Keys(checks)
  {
    Join("\n", MessageLines(invalid, checks, floatText))
  }

  /**
   * When neither the keys nor the float text hold a line break, the message
   * has exactly one line per invalid key, and that line names the key, the
   * value and what was expected.
   */
  lemma MessageHasOneLinePerKey(invalid: seq<(string, Cell)>, checks: seq<(string, Check)>, floatText: real -> string)
    requires |invalid| > 0
    requires forall j :: 0 <= j < |invalid| ==> invalid[j].0 in Keys(checks)
    requires forall j :: 0 <= j < |invalid| ==> '\n' !in invalid[j].0
    requires forall j :: 0 <= j < |invalid| ==> invalid[j].1.Float? ==> '\n' !in floatText(invalid[j].1.x)
    ensures var lines := Split(ValidationMessage(invalid, checks, floatText), '\n');
      && |lines| == |invalid|
      && forall j :: 0 <= j < |invalid| ==>
        lines[j] == MessageLine(invalid[j].0, invalid[j].1, CheckOf(checks, invalid[j].0), floatText)
  {
    var ls := MessageLines(invalid, checks, floatText);
    forall j | 0 <= j < |ls| ensures '\n' !in ls[j] {
      LineHasNoBreak(invalid[j].0, invalid[j].1, CheckOf(checks, invalid[j].0), floatText);
    }
    SplitJoin(ls, '\n');
  }

  /** The line of one key has no line break when neither the key nor the float text has one. */
  lemma LineHasNoBreak(key: string, v: Cell, c: Check, floatText: real -> string)
    requires '\n' !in key
    requires v.Float? ==> '\n' !in floatText(v.x)
    ensures '\n' !in MessageLine(key, v, c, floatText)
  {
    assert '\n' !in Repr(v, floatText);
  }
}
