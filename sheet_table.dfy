/**
 * What the storage modules do to one sheet of the spreadsheet: resolve a
 * header with `headers.index`, write cells in place, look an id up in a
 * column, update the rows that carry an id, append a row for an id that is
 * missing, and load every row after the header. The header row is `sheet[0]`.
 */
module SheetTables {

  import opened Wrappers
  import opened Text
  import opened Seqs
  import opened Patterns
  import opened Sheets

  /** The cell writes of one row, in the order the source makes them. */
  type Writes = seq<(string, Cell)>

  function WriteKeys(ws: Writes): (ks: seq<string>)
    ensures |ks| == |ws| && forall k :: 0 <= k < |ws| ==> ks[k] == ws[k].0
  {
    seq(|ws|, k requires 0 <= k < |ws| => ws[k].0)
  }

  // ---------------------------------------------------------------------------
  // Writing cells

  /** `row[headers.index(key)] = v` succeeds: the header is there and the row reaches its column. */
  predicate Writable(headers: Row, row: Row, key: string)
  {
    Column(headers, key).Some? && Column(headers, key).value < |row|
  }

  /** `row[headers.index(key)] = v`: a missing header raises `ValueError`, a short row `IndexError`. */
  function SetCell(headers: Row, row: Row, key: string, v: Cell): (r: Result<Row, SheetError>)
    ensures r.Ok? <==> Writable(headers, row, key)
    ensures Column(headers, key).None? ==> r == Err(NoColumn(key))
    ensures Column(headers, key).Some? && r.Err? ==> r.error == IndexError
    ensures r.Ok? ==> |r.value| == |row| && r.value[Column(headers, key).value] == v
    ensures r.Ok? ==> forall j :: 0 <= j < |row| && j != Column(headers, key).value ==> r.value[j] == row[j]
  {
    match Column(headers, key)
    case None => Err(NoColumn(key))
    case Some(i) => if i < |row| then Ok(row[i := v]) else Err(IndexError)
  }

  /** A run of cell writes, stopping at the first one that raises. */
  function SetCells(headers: Row, row: Row, ws: Writes): (r: Result<Row, SheetError>)
    ensures r.Ok? <==> forall k :: 0 <= k < |ws| ==> Writable(headers, row, ws[k].0)
    ensures r.Ok? ==> |r.value| == |row|
    decreases |ws|
  {
    if ws == [] then Ok(row)
    else
      match SetCell(headers, row, ws[0].0, ws[0].1)
      case Err(e) => Err(e)
      case Ok(next) =>
        assert forall k :: 0 <= k < |ws| - 1 ==> ws[1..][k] == ws[k + 1];
        SetCells(headers, next, ws[1..])
  }

  /**
   * Writes to distinct headers leave each written column holding its value
   * and every other cell as it was.
   */
  lemma {:induction false} SetCellsSpec(headers: Row, row: Row, ws: Writes)
    requires Distinct(WriteKeys(ws))
    requires SetCells(headers, row, ws).Ok?
    ensures var r := SetCells(headers, row, ws).value;
      && (forall k :: 0 <= k < |ws| ==> r[Column(headers, ws[k].0).value] == ws[k].1)
      && (forall j :: 0 <= j < |row| && (forall k :: 0 <= k < |ws| ==> Column(headers, ws[k].0) != Some(j)) ==> r[j] == row[j])
    decreases |ws|
  {
    if ws != [] {
      var next := SetCell(headers, row, ws[0].0, ws[0].1).value;
      assert WriteKeys(ws[1..]) == WriteKeys(ws)[1..];
      assert forall k :: 0 <= k < |ws| - 1 ==> ws[1..][k] == ws[k + 1];
      SetCellsSpec(headers, next, ws[1..]);
      var r := SetCells(headers, row, ws).value;
      forall k | 1 <= k < |ws|
        ensures Column(headers, ws[k].0) != Column(headers, ws[0].0)
      {
        assert WriteKeys(ws)[k] != WriteKeys(ws)[0];
      }
    }
  }

  /** Two runs of writes, one after the other, are the run of both. */
  lemma {:induction false} SetCellsAppend(headers: Row, row: Row, ws1: Writes, ws2: Writes)
    ensures SetCells(headers, row, ws1 + ws2) ==
      match SetCells(headers, row, ws1)
      case Err(e) => Err(e)
      case Ok(r) => SetCells(headers, r, ws2)
    decreases |ws1|
  {
    if ws1 == [] {
      assert ws1 + ws2 == ws2;
    } else {
      assert (ws1 + ws2)[0] == ws1[0];
      assert (ws1 + ws2)[1..] == ws1[1..] + ws2;
      match SetCell(headers, row, ws1[0].0, ws1[0].1)
      case Err(_) =>
      case Ok(next) => SetCellsAppend(headers, next, ws1[1..], ws2);
    }
  }

  /** A column the writes do not name keeps its cell. */
  lemma UnwrittenKept(headers: Row, row: Row, ws: Writes, key: string)
    requires Distinct(WriteKeys(ws)) && SetCells(headers, row, ws).Ok?
    requires key !in WriteKeys(ws) && Writable(headers, row, key)
    ensures var j := Column(headers, key).value; SetCells(headers, row, ws).value[j] == row[j]
  {
    SetCellsSpec(headers, row, ws);
    var j := Column(headers, key).value;
    forall k | 0 <= k < |ws|
      ensures Column(headers, ws[k].0) != Some(j)
    {
      assert WriteKeys(ws)[k] == ws[k].0;
    }
  }

  /** A key the writes do not name is judged in the written row as it was before. */
  lemma KeptJudged(headers: Row, row: Row, ws: Writes, key: string, c: Check, strict: bool, v: Cell)
    requires Distinct(WriteKeys(ws)) && SetCells(headers, row, ws).Ok? && key !in WriteKeys(ws)
    requires Judge(headers, row, key, c, strict) == Ok(Loaded(v))
    ensures Judge(headers, SetCells(headers, row, ws).value, key, c, strict) == Ok(Loaded(v))
  {
    assert Writable(headers, row, key);
    UnwrittenKept(headers, row, ws, key);
  }

  /** The column of the `k`-th of some distinct writes holds its cell afterwards. */
  lemma WrittenCellAt(headers: Row, row: Row, ws: Writes, k: nat)
    requires Distinct(WriteKeys(ws)) && SetCells(headers, row, ws).Ok? && k < |ws|
    ensures var r := SetCells(headers, row, ws).value;
      Writable(headers, r, ws[k].0) && r[Column(headers, ws[k].0).value] == ws[k].1
  {
    SetCellsSpec(headers, row, ws);
    assert Writable(headers, row, ws[k].0);
  }

  /** A written key is judged in the written row by the cell written to it. */
  lemma WrittenJudged(headers: Row, row: Row, ws: Writes, k: nat, c: Check, strict: bool)
    requires Distinct(WriteKeys(ws)) && SetCells(headers, row, ws).Ok? && k < |ws|
    ensures Judge(headers, SetCells(headers, row, ws).value, ws[k].0, c, strict) == Ok(JudgeCell(ws[k].1, c, strict))
  {
    SetCellsSpec(headers, row, ws);
    assert Writable(headers, row, ws[k].0);
  }

  /** The column of the `k`-th of some distinct writes loads what its written cell loads as. */
  lemma WrittenAt(headers: Row, row: Row, ws: Writes, k: nat, c: Check, v: Cell)
    requires Distinct(WriteKeys(ws)) && SetCells(headers, row, ws).Ok? && k < |ws|
    requires JudgeCell(ws[k].1, c, false) == Loaded(v)
    ensures Judge(headers, SetCells(headers, row, ws).value, ws[k].0, c, false) == Ok(Loaded(v))
  {
    WrittenJudged(headers, row, ws, k, c, false);
  }

  /** `[""] * len(headers)`: the row a push appends before writing it. */
  function Blank(n: nat): (row: Row)
    ensures |row| == n && forall j :: 0 <= j < n ==> row[j] == Str("")
  {
    seq(n, _ => Str(""))
  }

  /** Every write of a new row succeeds when every key it writes is a header. */
  lemma NewRowWritable(headers: Row, ws: Writes)
    requires forall k :: 0 <= k < |ws| ==> Str(ws[k].0) in headers
    ensures SetCells(headers, Blank(|headers|), ws).Ok?
  {
  }

  /** The row a push appends: the writes of the new row over a blank row. */
  function NewRow(headers: Row, ws: Writes): Row
  {
    match SetCells(headers, Blank(|headers|), ws)
    case Ok(row) => row
    case Err(_) => Blank(|headers|)
  }

  /**
   * A cell as a pull reads it back after a push uploaded it: `None` reaches
   * the sheet as nothing, so the cell stays empty and reads as "".
   */
  function StoredCell(c: Cell): (r: Cell)
    ensures r != Null && (c != Null ==> r == c)
  {
    if c.Null? then Str("") else c
  }

  function ReadBack(row: Row): (r: Row)
    ensures |r| == |row| && forall j :: 0 <= j < |row| ==> r[j] == StoredCell(row[j])
  {
    seq(|row|, j requires 0 <= j < |row| => StoredCell(row[j]))
  }

  /** The ids of a new row parse back to the list. */
  lemma IdsReadBack(ids: seq<int>)
    requires forall k :: 0 <= k < |ids| ==> ids[k] >= 0
    ensures ParseIds(if ids == [] then Null else IdsCell(ids)) == Some(ids)
  {
    if ids != [] {
      IdsRoundTrip(ids);
    }
  }

  /** An end that is not the epoch reads back as itself. */
  lemma EndReadBack(e: Option<int>)
    requires e != Some(0)
    ensures (if Truthy(IntOrNull(e)) then Some(AsInt(IntOrNull(e))) else None) == e
  {
  }

  /** A written non-blank text cell reads back and loads as itself under a text check its pattern accepts. */
  lemma TextCellLoads(s: string, c: Check)
    requires s != "" && c.kind == StrKind && PatternOk(c.pattern, Str(s))
    ensures JudgeCell(StoredCell(Str(s)), c, false) == Loaded(Str(s))
  {
  }

  /** A cell written blank loads as `None` under an optional check. */
  lemma BlankCellLoads(c: Check)
    requires c.optional
    ensures JudgeCell(StoredCell(Str("")), c, false) == Loaded(Null)
  {
  }

  /** A written number loads as itself under an unpatterned `int` check. */
  lemma IntCellLoads(n: int, c: Check)
    requires c.kind == IntKind && c.pattern.None?
    ensures JudgeCell(StoredCell(Int(n)), c, false) == Loaded(Int(n))
  {
  }

  /** A written float loads as itself under an unpatterned `float` check. */
  lemma FloatCellLoads(x: real, c: Check)
    requires c.kind == FloatKind && c.pattern.None?
    ensures JudgeCell(StoredCell(Float(x)), c, false) == Loaded(Float(x))
  {
  }

  /** A written boolean loads as itself under an unpatterned `bool` check. */
  lemma BoolCellLoads(b: bool, c: Check)
    requires c.kind == BoolKind && c.pattern.None?
    ensures JudgeCell(StoredCell(Bool(b)), c, false) == Loaded(Bool(b))
  {
  }

  /** A written optional number loads as itself under an optional unpatterned `int` check, `None` included. */
  lemma OptIntCellLoads(v: Option<int>, c: Check)
    requires c.kind == IntKind && c.optional && c.pattern.None?
    ensures JudgeCell(StoredCell(IntOrNull(v)), c, false) == Loaded(IntOrNull(v))
  {
  }

  /** A number written as its decimal text loads as the number under an unpatterned `int` check. */
  lemma DigitsCellLoads(n: nat, c: Check)
    requires c.kind == IntKind && c.pattern.None?
    ensures JudgeCell(StoredCell(Str(NatToString(n))), c, false) == Loaded(Int(n))
  {
    CastReadsDigits(n, IntKind);
  }

  /** A written id list of non-negative ids loads under an optional id-list check; the empty list as `None`. */
  lemma IdsCellLoads(ids: seq<int>, c: Check)
    requires c == Check(StrKind, true, Some(IdList)) && forall k :: 0 <= k < |ids| ==> ids[k] >= 0
    ensures JudgeCell(StoredCell(IdsCell(ids)), c, false) == Loaded(if ids == [] then Null else IdsCell(ids))
  {
    if ids == [] {
      EmptyIdsBlank();
    } else {
      var t := IdsText(ids);
      IdsTextMatches(ids);
      IdsTextNonEmpty(ids);
      assert PatternOk(c.pattern, Str(t));
      TextCellLoads(t, c);
    }
  }

  /**
   * A new row read back validates without an invalid key when each check
   * `checks[i]` finds its written value `vals[i]` acceptable; each key then
   * loads that value.
   */
  lemma NewRowLoads(headers: Row, ws: Writes, checks: seq<(string, Check)>, vals: seq<Cell>)
    requires Distinct(WriteKeys(ws)) && DistinctKeys(checks)
    requires forall k :: 0 <= k < |ws| ==> Str(ws[k].0) in headers
    requires |vals| == |checks|
    requires forall i :: 0 <= i < |checks| ==> (checks[i].0, vals[i]) in ws
    requires forall i :: 0 <= i < |checks| ==> JudgeCell(StoredCell(vals[i]), checks[i].1, false).Loaded?
    ensures var v := Validated(headers, ReadBack(NewRow(headers, ws)), checks, false);
      && v.Ok? && v.value.invalid == []
      && forall i :: 0 <= i < |checks| ==>
        && checks[i].0 in v.value.loaded
        && v.value.loaded[checks[i].0] == JudgeCell(StoredCell(vals[i]), checks[i].1, false).value
  {
    var loads := seq(|checks|, i requires 0 <= i < |checks| => JudgeCell(StoredCell(vals[i]), checks[i].1, false).value);
    AllReadBackJudged(headers, ws, checks, vals);
    AllLoaded(headers, ReadBack(NewRow(headers, ws)), checks, false, loads);
  }

  /** Every check of a new row read back is judged on the stored form of its written value. */
  lemma AllReadBackJudged(headers: Row, ws: Writes, checks: seq<(string, Check)>, vals: seq<Cell>)
    requires Distinct(WriteKeys(ws))
    requires forall k :: 0 <= k < |ws| ==> Str(ws[k].0) in headers
    requires |vals| == |checks|
    requires forall i :: 0 <= i < |checks| ==> (checks[i].0, vals[i]) in ws
    ensures forall i :: 0 <= i < |checks| ==>
      Judge(headers, ReadBack(NewRow(headers, ws)), checks[i].0, checks[i].1, false) == Ok(JudgeCell(StoredCell(vals[i]), checks[i].1, false))
  {
    forall i | 0 <= i < |checks| {
      ReadBackJudged(headers, ws, checks[i].0, checks[i].1, vals[i]);
    }
  }

  /** A key a new row writes is judged on the stored form of its value. */
  lemma ReadBackJudged(headers: Row, ws: Writes, key: string, c: Check, v: Cell)
    requires Distinct(WriteKeys(ws))
    requires forall k :: 0 <= k < |ws| ==> Str(ws[k].0) in headers
    requires (key, v) in ws
    ensures Judge(headers, ReadBack(NewRow(headers, ws)), key, c, false) == Ok(JudgeCell(StoredCell(v), c, false))
  {
    ReadBackCell(headers, ws, key, v);
  }

  /** A key a new row writes reads back as the stored form of its value. */
  lemma ReadBackCell(headers: Row, ws: Writes, key: string, v: Cell)
    requires Distinct(WriteKeys(ws))
    requires forall k :: 0 <= k < |ws| ==> Str(ws[k].0) in headers
    requires (key, v) in ws
    ensures Column(headers, key).Some? && Column(headers, key).value < |ReadBack(NewRow(headers, ws))|
    ensures ReadBack(NewRow(headers, ws))[Column(headers, key).value] == StoredCell(v)
  {
    var k :| 0 <= k < |ws| && ws[k] == (key, v);
    NewRowCell(headers, ws, k);
  }

  /** The column of each key a new row writes holds the value written. */
  lemma NewRowCell(headers: Row, ws: Writes, k: nat)
    requires Distinct(WriteKeys(ws))
    requires forall k :: 0 <= k < |ws| ==> Str(ws[k].0) in headers
    requires k < |ws|
    ensures |NewRow(headers, ws)| == |headers|
    ensures Column(headers, ws[k].0).Some?
    ensures NewRow(headers, ws)[Column(headers, ws[k].0).value] == ws[k].1
  {
    NewRowWritable(headers, ws);
    SetCellsSpec(headers, Blank(|headers|), ws);
  }

  // ---------------------------------------------------------------------------
  // Looking up an id

  /**
   * `v in (row[headers.index(key)] for row in rows)`: the generator stops at
   * the first equal cell; the header is looked up only once there is a row,
   * and a row too short to hold the column raises `IndexError`.
   */
  function Contains(headers: Row, rows: Table, key: string, v: Cell): (r: Result<bool, SheetError>)
    ensures rows == [] ==> r == Ok(false)
    ensures rows != [] && Column(headers, key).None? ==> r == Err(NoColumn(key))
    ensures r == Ok(true) ==>
      && Column(headers, key).Some?
      && exists i :: 0 <= i < |rows| && Column(headers, key).value < |rows[i]| && PyEq(rows[i][Column(headers, key).value], v)
    ensures r == Ok(false) && Column(headers, key).Some? ==>
      forall i :: 0 <= i < |rows| ==> Column(headers, key).value < |rows[i]| && !PyEq(rows[i][Column(headers, key).value], v)
    ensures r.Err? && Column(headers, key).Some? ==>
      r.error == IndexError && exists i :: 0 <= i < |rows| && Column(headers, key).value >= |rows[i]|
    ensures Column(headers, key).Some? && (forall i :: 0 <= i < |rows| ==> Column(headers, key).value < |rows[i]|) ==> r.Ok?
    decreases |rows|
  {
    if rows == [] then Ok(false)
    else
      match Column(headers, key)
      case None => Err(NoColumn(key))
      case Some(c) =>
        if c >= |rows[0]| then Err(IndexError)
        else if PyEq(v, rows[0][c]) then Ok(true)
        else
          var r := Contains(headers, rows[1..], key, v);
          assert forall i :: 1 <= i < |rows| ==> rows[1..][i - 1] == rows[i];
          r
  }

  // ---------------------------------------------------------------------------
  // Updating the rows of an id

  /**
   * The row filter of an update loop: the id `id` in column `key`, and, for
   * tasks, a `State` column `guard` that must not read "Complete" or "Aborted".
   */
  datatype Matcher = Matcher(key: string, id: Cell, guard: Option<string>)

  /** `row[headers.index("State")] in [Stage.COMPLETE, Stage.ABORTED]`. */
  predicate Finished(c: Cell)
  {
    c == Str("Complete") || c == Str("Aborted")
  }

  /** The rows an update loop writes to: the id matches and the task is still open. */
  predicate Targets(headers: Row, row: Row, m: Matcher)
  {
    && Writable(headers, row, m.key) && PyEq(row[Column(headers, m.key).value], m.id)
    && (m.guard.Some? ==> Writable(headers, row, m.guard.value) && !Finished(row[Column(headers, m.guard.value).value]))
  }

  /** One pass of the update loop body: skip other ids and closed tasks, write the rest. */
  function UpdateRow(headers: Row, row: Row, m: Matcher, ws: Writes): (r: Result<Row, SheetError>)
    ensures Targets(headers, row, m) ==> r == SetCells(headers, row, ws)
    ensures r.Ok? && !Targets(headers, row, m) ==> r.value == row
    ensures !Writable(headers, row, m.key) ==> r.Err?
    ensures r.Ok? ==> |r.value| == |row|
  {
    match Column(headers, m.key)
    case None => Err(NoColumn(m.key))
    case Some(c) =>
      if c >= |row| then Err(IndexError)
      else if !PyEq(row[c], m.id) then Ok(row)
      else
        match m.guard
        case None => SetCells(headers, row, ws)
        case Some(g) =>
          match Column(headers, g)
          case None => Err(NoColumn(g))
          case Some(gc) =>
            if gc >= |row| then Err(IndexError)
            else if Finished(row[gc]) then Ok(row)
            else SetCells(headers, row, ws)
  }

  /** `for row in rows: ...`: every row passed through the loop body, stopping at the first error. */
  function UpdatedRows(headers: Row, rows: Table, m: Matcher, ws: Writes): (r: Result<Table, SheetError>)
    ensures r.Ok? <==> forall i :: 0 <= i < |rows| ==> UpdateRow(headers, rows[i], m, ws).Ok?
    ensures r.Ok? ==> |r.value| == |rows| && forall i :: 0 <= i < |rows| ==> r.value[i] == UpdateRow(headers, rows[i], m, ws).value
  {
    if rows == [] then Ok([])
    else
      var init := rows[..|rows| - 1];
      assert forall i :: 0 <= i < |init| ==> init[i] == rows[i];
      match UpdatedRows(headers, init, m, ws)
      case Err(e) => Err(e)
      case Ok(front) =>
        match UpdateRow(headers, rows[|rows| - 1], m, ws)
        case Err(e) => Err(e)
        case Ok(last) => Ok(front + [last])
  }

  /** The update loop, row by row in place. */
  method UpdateRows(headers: Row, rows: Table, m: Matcher, ws: Writes) returns (r: Result<Table, SheetError>)
    ensures r == UpdatedRows(headers, rows, m, ws)
  {
    var t := rows;
    var i := 0;
    while i < |rows|
      invariant 0 <= i <= |rows| && |t| == |rows|
      invariant UpdatedRows(headers, rows[..i], m, ws) == Ok(t[..i])
      invariant t[i..] == rows[i..]
    {
      assert rows[..i + 1][..i] == rows[..i];
      var row := UpdateRow(headers, t[i], m, ws);
      if row.Err? {
        assert t[i] == rows[i];
        ErrorFirst(headers, rows, m, ws, i + 1);
        return Err(row.error);
      }
      t := t[i := row.value];
      assert t[..i + 1] == t[..i] + [row.value];
      i := i + 1;
    }
    assert rows[..i] == rows && t[..i] == t;
    return Ok(t);
  }

  /** Once the loop has raised on a row, the whole loop raises the same error. */
  lemma {:induction false} UpdateErrorStays(headers: Row, rows: Table, m: Matcher, ws: Writes, n: nat)
    requires 0 < n <= |rows| && UpdatedRows(headers, rows[..n], m, ws).Err?
    ensures UpdatedRows(headers, rows, m, ws) == UpdatedRows(headers, rows[..n], m, ws)
    decreases |rows|
  {
    if n == |rows| {
      assert rows[..n] == rows;
    } else {
      var init := rows[..|rows| - 1];
      assert init[..n] == rows[..n];
      UpdateErrorStays(headers, init, m, ws, n);
    }
  }

  /** The error of a loop is the error of the first row that raises. */
  lemma ErrorFirst(headers: Row, rows: Table, m: Matcher, ws: Writes, n: nat)
    requires 0 < n <= |rows| && UpdatedRows(headers, rows[..n - 1], m, ws).Ok?
    requires UpdateRow(headers, rows[n - 1], m, ws).Err?
    ensures UpdatedRows(headers, rows, m, ws) == Err(UpdateRow(headers, rows[n - 1], m, ws).error)
  {
    assert rows[..n][..n - 1] == rows[..n - 1];
    UpdateErrorStays(headers, rows, m, ws, n);
  }

  // ---------------------------------------------------------------------------
  // Pushing one record

  /**
   * How a push treats one record: `m` finds its rows; `newRow` is the row to
   * append when the id is missing (`None`: never append; an error: the push
   * raises instead); `thenUpdate` says whether the update loop still runs
   * after an append; `ws` are the writes of the update loop.
   */
  datatype Plan = Plan(m: Matcher, newRow: Option<Result<Writes, SheetError>>, thenUpdate: bool, ws: Writes)

  /** The update loop over every row after the header. */
  function Updated(t: Table, p: Plan): (r: Result<Table, SheetError>)
    requires |t| > 0
    ensures r.Ok? ==> |r.value| == |t| && r.value[0] == t[0]
    ensures r.Ok? <==> forall i :: 1 <= i < |t| ==> UpdateRow(t[0], t[i], p.m, p.ws).Ok?
    ensures r.Ok? ==> forall i :: 1 <= i < |t| ==> r.value[i] == UpdateRow(t[0], t[i], p.m, p.ws).value
  {
    assert forall i :: 1 <= i < |t| ==> t[1..][i - 1] == t[i];
    match UpdatedRows(t[0], t[1..], p.m, p.ws)
    case Err(e) => Err(e)
    case Ok(rows) => Ok([t[0]] + rows)
  }

  /** The id of a plan is missing from every row after the header. */
  predicate Absent(t: Table, p: Plan)
    requires |t| > 0
  {
    Contains(t[0], t[1..], p.m.key, p.m.id) == Ok(false)
  }

  /** One iteration of a push loop. */
  function PushItem(t: Table, p: Plan): (r: Result<Table, SheetError>)
    requires |t| > 0
    ensures r.Ok? ==> |r.value| > 0 && r.value[0] == t[0]
  {
    if p.newRow.None? then Updated(t, p)
    else
      match Contains(t[0], t[1..], p.m.key, p.m.id)
      case Err(e) => Err(e)
      case Ok(found) =>
        if found then Updated(t, p)
        else
          match p.newRow.value
          case Err(e) => Err(e)
          case Ok(nws) =>
            match SetCells(t[0], Blank(|t[0]|), nws)
            case Err(e) => Err(e)
            case Ok(row) => if p.thenUpdate then Updated(t + [row], p) else Ok(t + [row])
  }

  /** A push appends a row exactly when the plan may append and its id is missing. */
  lemma PushItemAppends(t: Table, p: Plan)
    requires |t| > 0 && PushItem(t, p).Ok?
    ensures |PushItem(t, p).value| == |t| + 1 <==> p.newRow.Some? && Absent(t, p)
    ensures |PushItem(t, p).value| == |t| || |PushItem(t, p).value| == |t| + 1
  {
  }

  /** The rows a push does not target, including every closed task, keep every cell. */
  lemma PushItemKeepsOthers(t: Table, p: Plan, i: nat)
    requires |t| > 0 && PushItem(t, p).Ok? && 1 <= i < |t|
    ensures Targets(t[0], t[i], p.m) ==> PushItem(t, p).value[i] == SetCells(t[0], t[i], p.ws).value
    ensures !Targets(t[0], t[i], p.m) ==> PushItem(t, p).value[i] == t[i]
  {
    var r := PushItem(t, p);
    if p.newRow.Some? && Absent(t, p) {
      var row := SetCells(t[0], Blank(|t[0]|), p.newRow.value.value).value;
      if p.thenUpdate {
        assert (t + [row])[i] == t[i];
      }
    }
  }

  /** A push leaves the cell of every existing row under a key its update writes do not name. */
  lemma PushKeepsColumn(t: Table, p: Plan, i: nat, key: string)
    requires |t| > 0 && PushItem(t, p).Ok? && 1 <= i < |t|
    requires Distinct(WriteKeys(p.ws)) && key !in WriteKeys(p.ws) && Writable(t[0], t[i], key)
    ensures var j := Column(t[0], key).value; PushItem(t, p).value[i][j] == t[i][j]
  {
    PushItemKeepsOthers(t, p, i);
    if Targets(t[0], t[i], p.m) {
      PushedRowUpdated(t, p, i);
      UnwrittenKept(t[0], t[i], p.ws, key);
    }
  }

  /** Every existing row passed the update loop without an error when the push succeeded. */
  lemma PushedRowUpdated(t: Table, p: Plan, i: nat)
    requires |t| > 0 && PushItem(t, p).Ok? && 1 <= i < |t|
    ensures UpdateRow(t[0], t[i], p.m, p.ws).Ok?
  {
    if p.newRow.Some? && Absent(t, p) {
      var row := SetCells(t[0], Blank(|t[0]|), p.newRow.value.value).value;
      if p.thenUpdate {
        assert (t + [row])[i] == t[i];
        assert (t + [row])[0] == t[0];
      }
    }
  }

  /** The row a push appends: the new row's writes, then the update loop's writes when it runs. */
  lemma PushItemNewRow(t: Table, p: Plan)
    requires |t| > 0 && PushItem(t, p).Ok? && p.newRow.Some? && Absent(t, p)
    ensures p.newRow.value.Ok?
    ensures var row := SetCells(t[0], Blank(|t[0]|), p.newRow.value.value).value;
      PushItem(t, p).value[|t|] == if p.thenUpdate then UpdateRow(t[0], row, p.m, p.ws).value else row
  {
    var row := SetCells(t[0], Blank(|t[0]|), p.newRow.value.value).value;
    if p.thenUpdate {
      assert (t + [row])[|t|] == row;
    }
  }

  /** The push loop over all records, from the back. */
  function Pushed(t: Table, ps: seq<Plan>): (r: Result<Table, SheetError>)
    requires |t| > 0
    ensures r.Ok? ==> |r.value| > 0 && r.value[0] == t[0]
  {
    if ps == [] then Ok(t)
    else
      match Pushed(t, ps[..|ps| - 1])
      case Err(e) => Err(e)
      case Ok(front) => PushItem(front, ps[|ps| - 1])
  }

  /** The header strings every record needs. */
  predicate HasHeaders(headers: Row, keys: seq<string>)
  {
    forall k :: 0 <= k < |keys| ==> Str(keys[k]) in headers
  }

  /**
   * A whole push: `sheet[0]` raises on an empty sheet, a header row that
   * lacks one of the checked keys raises `ValueError`, then every record is
   * pushed in turn.
   */
  function PushTable(t: Table, keys: seq<string>, ps: seq<Plan>): (r: Result<Table, SheetError>)
    ensures t == [] ==> r == Err(IndexError)
    ensures t != [] && !HasHeaders(t[0], keys) ==> r == Err(HeaderMismatch)
    ensures t != [] && HasHeaders(t[0], keys) ==> r == Pushed(t, ps)
    ensures r.Ok? ==> |r.value| > 0 && r.value[0] == t[0]
  {
    if t == [] then Err(IndexError)
    else if !HasHeaders(t[0], keys) then Err(HeaderMismatch)
    else Pushed(t, ps)
  }

  /** One iteration of the push loop, with the update loop run in place. */
  method PushOne(t: Table, p: Plan) returns (r: Result<Table, SheetError>)
    requires |t| > 0
    ensures r == PushItem(t, p)
  {
    if p.newRow.Some? {
      var found := Contains(t[0], t[1..], p.m.key, p.m.id);
      if found.Err? {
        return Err(found.error);
      }
      if !found.value {
        if p.newRow.value.Err? {
          return Err(p.newRow.value.error);
        }
        var row := SetCells(t[0], Blank(|t[0]|), p.newRow.value.value);
        if row.Err? {
          return Err(row.error);
        }
        if !p.thenUpdate {
          return Ok(t + [row.value]);
        }
        r := UpdateAll(t + [row.value], p);
        return;
      }
    }
    r := UpdateAll(t, p);
  }

  /** The update loop over the rows after the header. */
  method UpdateAll(t: Table, p: Plan) returns (r: Result<Table, SheetError>)
    requires |t| > 0
    ensures r == Updated(t, p)
  {
    var rows := UpdateRows(t[0], t[1..], p.m, p.ws);
    if rows.Err? {
      return Err(rows.error);
    }
    return Ok([t[0]] + rows.value);
  }

  /** A whole push, record by record. */
  method PushAll(t: Table, keys: seq<string>, ps: seq<Plan>) returns (r: Result<Table, SheetError>)
    ensures r == PushTable(t, keys, ps)
  {
    if t == [] {
      return Err(IndexError);
    }
    if !HasHeaders(t[0], keys) {
      return Err(HeaderMismatch);
    }
    var cur := t;
    var i := 0;
    while i < |ps|
      invariant 0 <= i <= |ps|
      invariant Pushed(t, ps[..i]) == Ok(cur)
    {
      assert ps[..i + 1][..i] == ps[..i];
      var next := PushOne(cur, ps[i]);
      if next.Err? {
        PushErrorStays(t, ps, i + 1);
        return Err(next.error);
      }
      cur := next.value;
      i := i + 1;
    }
    assert ps[..i] == ps;
    return Ok(cur);
  }

  /** Once a record's push has raised, the whole push raises the same error. */
  lemma {:induction false} PushErrorStays(t: Table, ps: seq<Plan>, n: nat)
    requires |t| > 0 && 0 < n <= |ps| && Pushed(t, ps[..n]).Err?
    ensures Pushed(t, ps) == Pushed(t, ps[..n])
    decreases |ps|
  {
    if n == |ps| {
      assert ps[..n] == ps;
    } else {
      var init := ps[..|ps| - 1];
      assert init[..n] == ps[..n];
      PushErrorStays(t, init, n);
    }
  }

  // ---------------------------------------------------------------------------
  // Loading rows

  /** Why a row gave no record: `ValueError` (logged and skipped) or another error (raised). */
  datatype LoadError = Rejected | Failed(error: SheetError)

  /**
   * The load loop over the rows after the header: a row the decoder rejects
   * is skipped, a row it ignores (`None`) too, and any other error ends the
   * load.
   */
  function LoadedRows<T(==)>(headers: Row, rows: Table, decode: (Row, Row) -> Result<Option<T>, LoadError>): (r: Result<seq<T>, SheetError>)
    ensures r.Err? <==> exists i :: 0 <= i < |rows| && decode(headers, rows[i]).Err? && decode(headers, rows[i]).error.Failed?
    ensures r.Err? ==> exists i :: 0 <= i < |rows| && decode(headers, rows[i]) == Err(Failed(r.error))
    ensures r.Ok? ==> forall k :: 0 <= k < |r.value| ==> exists i :: 0 <= i < |rows| && decode(headers, rows[i]) == Ok(Some(r.value[k]))
    ensures r.Ok? ==> forall i :: 0 <= i < |rows| && decode(headers, rows[i]).Ok? && decode(headers, rows[i]).value.Some? ==>
      decode(headers, rows[i]).value.value in r.value
    ensures r.Ok? ==> |r.value| <= |rows|
  {
    if rows == [] then Ok([])
    else
      var init := rows[..|rows| - 1];
      assert forall i :: 0 <= i < |init| ==> init[i] == rows[i];
      match LoadedRows(headers, init, decode)
      case Err(e) => Err(e)
      case Ok(front) =>
        match decode(headers, rows[|rows| - 1])
        case Err(Failed(e)) => Err(e)
        case Err(Rejected) => Ok(front)
        case Ok(None) => Ok(front)
        case Ok(Some(x)) => Ok(front + [x])
  }

  /** `sheet[0]` and the load loop. */
  function LoadedTable<T(==)>(t: Table, decode: (Row, Row) -> Result<Option<T>, LoadError>): (r: Result<seq<T>, SheetError>)
    ensures t == [] ==> r == Err(IndexError)
    ensures t != [] ==> r == LoadedRows(t[0], t[1..], decode)
  {
    if t == [] then Err(IndexError) else LoadedRows(t[0], t[1..], decode)
  }

  /** The load loop, row by row. */
  method LoadAll<T(==)>(t: Table, decode: (Row, Row) -> Result<Option<T>, LoadError>) returns (r: Result<seq<T>, SheetError>)
    ensures r == LoadedTable(t, decode)
  {
    if t == [] {
      return Err(IndexError);
    }
    var headers, rows := t[0], t[1..];
    var items := [];
    var i := 0;
    while i < |rows|
      invariant 0 <= i <= |rows|
      invariant LoadedRows(headers, rows[..i], decode) == Ok(items)
    {
      assert rows[..i + 1][..i] == rows[..i];
      var d := decode(headers, rows[i]);
      if d.Err? && d.error.Failed? {
        LoadErrorStays(headers, rows, decode, i + 1);
        return Err(d.error.error);
      }
      if d.Ok? && d.value.Some? {
        items := items + [d.value.value];
      }
      i := i + 1;
    }
    assert rows[..i] == rows;
    return Ok(items);
  }

  /** Once a row has raised, the whole load raises the same error. */
  lemma {:induction false} LoadErrorStays<T>(headers: Row, rows: Table, decode: (Row, Row) -> Result<Option<T>, LoadError>, n: nat)
    requires 0 < n <= |rows| && LoadedRows(headers, rows[..n], decode).Err?
    ensures LoadedRows(headers, rows, decode) == LoadedRows(headers, rows[..n], decode)
    decreases |rows|
  {
    if n == |rows| {
      assert rows[..n] == rows;
    } else {
      var init := rows[..|rows| - 1];
      assert init[..n] == rows[..n];
      LoadErrorStays(headers, init, decode, n);
    }
  }

  // ---------------------------------------------------------------------------
  // Cells of validated rows

  /** A validated value, or `None` for a key that was not loaded. */
  function Get(loaded: map<string, Cell>, key: string): Cell
  {
    if key in loaded then loaded[key] else Null
  }

  /** The text of a `str` cell. */
  function StrText(c: Cell): string
  {
    if c.Str? then c.s else ""
  }

  /** An `int | None` cell: `None` stays `None`. */
  function OptInt(c: Cell): Option<int>
  {
    if c.Null? then None else Some(AsInt(c))
  }

  /** A number or `None` as the source writes it to a cell. */
  function IntOrNull(v: Option<int>): (c: Cell)
    ensures v.Some? ==> c == Int(v.value)
    ensures v.None? ==> c == Null
  {
    if v.Some? then Int(v.value) else Null
  }

  // ---------------------------------------------------------------------------
  // Id lists: `", ".join(str(i) for i in ids)` and
  // `[int(i) for i in text.replace(" ", "").split(",")]`

  function IdStrings(ids: seq<int>): (ss: seq<string>)
    ensures |ss| == |ids| && forall k :: 0 <= k < |ids| ==> ss[k] == IntToString(ids[k])
  {
    seq(|ids|, k requires 0 <= k < |ids| => IntToString(ids[k]))
  }

  /** The text of an id list as the pushes write it. */
  function IdsText(ids: seq<int>): string
  {
    Join(", ", IdStrings(ids))
  }

  /** `[int(x) for x in parts]`, or `None` (`ValueError`) when one part is not a number. */
  function AllInts(parts: seq<string>): Option<seq<int>>
  {
    if forall k :: 0 <= k < |parts| ==> PyInt(parts[k]).Some? then
      Some(seq(|parts|, k requires 0 <= k < |parts| && PyInt(parts[k]).Some? => PyInt(parts[k]).value))
    else None
  }

  /** The id list of a validated cell: a blank (`None`) cell is the empty list. */
  function ParseIds(c: Cell): Option<seq<int>>
  {
    if c.Str? then AllInts(Split(Remove(c.s, ' '), ',')) else Some([])
  }

  /** The cell a push writes for an id list: the empty list is written as "". */
  function IdsCell(ids: seq<int>): Cell
  {
    Str(IdsText(ids))
  }

  /** Reading back the text of a non-empty list of non-negative ids gives the list. */
  lemma IdsRoundTrip(ids: seq<int>)
    requires |ids| > 0 && forall k :: 0 <= k < |ids| ==> ids[k] >= 0
    ensures ParseIds(IdsCell(ids)) == Some(ids)
  {
    var ss := IdStrings(ids);
    IdsWithoutSpaces(ids);
    forall k | 0 <= k < |ss|
      ensures ',' !in ss[k]
    {
      assert IsDigits(ss[k]);
    }
    SplitJoin(ss, ',');
    IdStringsRead(ids);
  }

  /** Dropping the spaces of an id list text leaves the ids joined by bare commas. */
  lemma IdsWithoutSpaces(ids: seq<int>)
    requires forall k :: 0 <= k < |ids| ==> ids[k] >= 0
    ensures Remove(IdsText(ids), ' ') == Join([','], IdStrings(ids))
  {
    var ss := IdStrings(ids);
    var noSpaces := seq(|ss|, k requires 0 <= k < |ss| => Remove(ss[k], ' '));
    RemoveJoin(", ", ss, ' ');
    forall k | 0 <= k < |ss|
      ensures noSpaces[k] == ss[k]
    {
      assert IsDigits(ss[k]);
      RemoveAbsent(ss[k], ' ');
    }
    assert noSpaces == ss;
    assert Remove(", ", ' ') == [','];
  }

  /** `int` reads every id back from its text. */
  lemma IdStringsRead(ids: seq<int>)
    requires forall k :: 0 <= k < |ids| ==> ids[k] >= 0
    ensures AllInts(IdStrings(ids)) == Some(ids)
  {
    var ss := IdStrings(ids);
    forall k | 0 <= k < |ss|
      ensures PyInt(ss[k]) == Some(ids[k])
    {
      assert ss[k] == IntToString(ids[k]);
      PyIntOfString(ids[k]);
    }
    var r := seq(|ss|, k requires 0 <= k < |ss| && PyInt(ss[k]).Some? => PyInt(ss[k]).value);
    assert AllInts(ss) == Some(r);
    assert forall k :: 0 <= k < |ids| ==> r[k] == ids[k];
    assert r == ids;
  }

  /** The empty list is written as a blank cell. */
  lemma EmptyIdsBlank()
    ensures IdsCell([]) == Str("")
  {
  }

  /** A list of ids is written as text that is not blank. */
  lemma IdsTextNonEmpty(ids: seq<int>)
    requires |ids| > 0
    ensures IdsText(ids) != ""
  {
    var ss := IdStrings(ids);
    assert |ss[0]| > 0;
    if |ss| > 1 {
      assert Join(", ", ss) == ss[0] + ", " + Join(", ", ss[1..]);
    }
  }

  /** The text of a list of non-negative ids passes the id-list pattern of the task sheets. */
  lemma IdsTextMatches(ids: seq<int>)
    requires forall k :: 0 <= k < |ids| ==> ids[k] >= 0
    ensures IdListMatch(IdsText(ids))
  {
    var ss := IdStrings(ids);
    forall k | 0 <= k < |ss|
      ensures IsDigits(ss[k])
    {
    }
    IdListOfJoin(ss);
    var t := IdsText(ids);
    IdListLineNoBreak(t);
    assert t[..|t|] == t;
    FirstLineAt(t, |t|);
  }

  lemma DigitRunOfDigits(d: string, rest: string)
    requires AllDigits(d) && (rest == [] || !IsDigit(rest[0]))
    ensures DigitRun(d + rest) == |d|
  {
    var t := d + rest;
    assert forall i :: 0 <= i < |d| ==> t[i] == d[i];
    assert |d| < |t| ==> t[|d|] == rest[0];
  }

  /** Digit strings joined with ", " form an id list line. */
  lemma {:induction false} IdListOfJoin(ss: seq<string>)
    requires forall k :: 0 <= k < |ss| ==> IsDigits(ss[k])
    ensures IdListLine(Join(", ", ss))
    decreases |ss|
  {
    if |ss| == 1 {
      DigitRunOfDigits(ss[0], []);
      assert ss[0] + [] == ss[0];
    } else if |ss| > 1 {
      var rest := Join(", ", ss[1..]);
      var t := ss[0] + ", " + rest;
      assert t == ss[0] + (", " + rest);
      DigitRunOfDigits(ss[0], ", " + rest);
      var n := |ss[0]|;
      assert t[n] == ',';
      assert t[n + 1..] == " " + rest;
      assert (" " + rest)[1..] == rest;
      IdListOfJoin(ss[1..]);
    }
  }

  /** An id list line has no line break. */
  lemma {:induction false} IdListLineNoBreak(t: string)
    requires IdListLine(t)
    ensures '\n' !in t
    decreases |t|
  {
    if t != [] {
      var n := DigitRun(t);
      if n < |t| {
        var rest := t[n + 1..];
        var tail := if rest != [] && rest[0] == ' ' then rest[1..] else rest;
        assert t[n] == ',' && IdListLine(tail);
        IdListLineNoBreak(tail);
        ItemNoBreak(t, n, tail);
      }
    }
  }

  /** Digits, a comma, an optional space and a text without line breaks have no line break. */
  lemma ItemNoBreak(t: string, n: nat, tail: string)
    requires n < |t| && (forall i :: 0 <= i < n ==> IsDigit(t[i])) && t[n] == ','
    requires tail == t[n + 1..] || (n + 1 < |t| && t[n + 1] == ' ' && tail == t[n + 2..])
    requires '\n' !in tail
    ensures '\n' !in t
  {
    var head := t[..n + 1];
    assert '\n' !in head by {
      assert forall i :: 0 <= i < n ==> IsDigit(head[i]);
      assert head[n] == ',';
    }
    if tail == t[n + 1..] {
      assert t == head + tail;
    } else {
      assert t == head + [' '] + tail;
    }
  }

}
