/**
 * The spreadsheet as the bot holds it: a remote copy (what the Google sheet
 * last held), a local copy the storage layer edits, and whether the sheet
 * has been loaded. Pulls and pushes talk to the Sheets API; here each call
 * comes back as its outcome.
 */
module GoogleSheets {

  import opened Wrappers
  import opened Text
  import opened Seqs
  import opened Sheets

  // ---------------------------------------------------------------------------
  // Column labels

  function Letter(d: int): (c: char)
    requires 0 <= d < 26
    ensures IsUpper(c)
  {
    ('A' as int + d) as char
  }

  /** `_get_index_label`: bijective base 26 (0 is "A", 25 "Z", 26 "AA"); negative indices have no label. */
  function IndexLabel(index: int): (s: string)
    ensures index < 0 <==> s == []
    ensures forall i :: 0 <= i < |s| ==> IsUpper(s[i])
    decreases if index < 0 then 0 else index + 1
  {
    if index < 0 then ""
    else IndexLabel(index / 26 - 1) + [Letter(index % 26)]
  }

  /** The column index a label names: the inverse of `IndexLabel`. */
  function LabelIndex(s: string): int
    requires forall i :: 0 <= i < |s| ==> IsUpper(s[i])
  {
    if s == [] then -1
    else 26 * (LabelIndex(s[..|s| - 1]) + 1) + (s[|s| - 1] as int - 'A' as int)
  }

  /** Reading a label gives back its index. */
  lemma {:induction false} LabelIndexOfLabel(index: int)
    requires index >= -1
    ensures LabelIndex(IndexLabel(index)) == index
    decreases index + 1
  {
    if index >= 0 {
      var s := IndexLabel(index);
      assert s[..|s| - 1] == IndexLabel(index / 26 - 1);
      LabelIndexOfLabel(index / 26 - 1);
    }
  }

  /** Every upper-case label is the label of its index, so the labels are exactly the upper-case words. */
  lemma {:induction false} LabelOfLabelIndex(s: string)
    requires forall i :: 0 <= i < |s| ==> IsUpper(s[i])
    ensures LabelIndex(s) >= -1
    ensures IndexLabel(LabelIndex(s)) == s
    decreases |s|
  {
    if s != [] {
      var init := s[..|s| - 1];
      LabelOfLabelIndex(init);
      var d := s[|s| - 1] as int - 'A' as int;
      LabelDigits(LabelIndex(init), d);
      assert s == init + [Letter(d)];
    }
  }

  /** The last digit of a label and the label before it, read back from its index. */
  lemma LabelDigits(q: int, d: int)
    requires q >= -1 && 0 <= d < 26
    ensures (26 * (q + 1) + d) / 26 - 1 == q && (26 * (q + 1) + d) % 26 == d
  {
  }

  /** Distinct columns have distinct labels. */
  lemma LabelInjective(i: int, j: int)
    requires i >= 0 && j >= 0 && IndexLabel(i) == IndexLabel(j)
    ensures i == j
  {
    LabelIndexOfLabel(i);
    LabelIndexOfLabel(j);
  }

  /** The A1 range of one cell: "sheet!<column label><row number>" with rows counted from 1. */
  function CellRange(sheet: string, row: nat, column: nat): string
  {
    sheet + "!" + IndexLabel(column) + NatToString(row + 1)
  }

  // ---------------------------------------------------------------------------
  // Differences between the copies

  /** One changed cell: its range, the local value and the remote value. */
  datatype Difference = Difference(range: string, local: Cell, remote: Cell)

  /** The remote value of a cell, or "" when the remote copy has no such cell. */
  function RemoteCell(remote: Table, row: nat, column: nat): Cell
  {
    if row < |remote| && column < |remote[row]| then remote[row][column] else Str("")
  }

  /** The differences of the first `n` cells of one row. */
  function RowDifferences(sheet: string, row: nat, local: Row, remote: Table, n: nat): (ds: seq<Difference>)
    requires n <= |local|
  {
    if n == 0 then []
    else
      var rest := RowDifferences(sheet, row, local, remote, n - 1);
      var c := RemoteCell(remote, row, n - 1);
      if PyEq(local[n - 1], c) then rest
      else rest + [Difference(CellRange(sheet, row, n - 1), local[n - 1], c)]
  }

  /** The differences of the first `n` rows of one sheet. */
  function TableDifferences(sheet: string, local: Table, remote: Table, n: nat): seq<Difference>
    requires n <= |local|
  {
    if n == 0 then []
    else TableDifferences(sheet, local, remote, n - 1) + RowDifferences(sheet, n - 1, local[n - 1], remote, |local[n - 1]|)
  }

  /** The differences of the first `n` local sheets, in their order. */
  function Differences(order: seq<string>, local: map<string, Table>, remote: map<string, Table>, n: nat): seq<Difference>
    requires n <= |order|
    requires forall k :: 0 <= k < |order| ==> order[k] in local && order[k] in remote
  {
    if n == 0 then []
    else
      var name := order[n - 1];
      Differences(order, local, remote, n - 1) + TableDifferences(name, local[name], remote[name], |local[name]|)
  }

  /** The single difference a cell can give: present exactly when the copies disagree on it. */
  predicate DiffersAt(sheet: string, row: nat, column: nat, local: Table, remote: Table, d: Difference)
  {
    && row < |local| && column < |local[row]|
    && !PyEq(local[row][column], RemoteCell(remote, row, column))
    && d == Difference(CellRange(sheet, row, column), local[row][column], RemoteCell(remote, row, column))
  }

  /** A row's differences are exactly its cells that disagree with the remote copy. */
  lemma {:induction false} RowDifferencesSpec(sheet: string, row: nat, local: Table, remote: Table, n: nat)
    requires row < |local| && n <= |local[row]|
    ensures forall d :: d in RowDifferences(sheet, row, local[row], remote, n) <==>
      exists column :: 0 <= column < n && DiffersAt(sheet, row, column, local, remote, d)
  {
    if n > 0 {
      RowDifferencesSpec(sheet, row, local, remote, n - 1);
      forall d
        ensures d in RowDifferences(sheet, row, local[row], remote, n) <==>
          exists column :: 0 <= column < n && DiffersAt(sheet, row, column, local, remote, d)
      {
        if DiffersAt(sheet, row, n - 1, local, remote, d) {
          assert d in RowDifferences(sheet, row, local[row], remote, n);
        }
      }
    }
  }

  /** A sheet's differences are exactly its cells that disagree with the remote copy. */
  lemma {:induction false} TableDifferencesSpec(sheet: string, local: Table, remote: Table, n: nat)
    requires n <= |local|
    ensures forall d :: d in TableDifferences(sheet, local, remote, n) <==>
      exists row, column :: 0 <= row < n && 0 <= column < |local[row]| && DiffersAt(sheet, row, column, local, remote, d)
  {
    if n > 0 {
      TableDifferencesSpec(sheet, local, remote, n - 1);
      RowDifferencesSpec(sheet, n - 1, local, remote, |local[n - 1]|);
    }
  }

  /** A row that agrees with its remote copy has no differences. */
  lemma {:induction false} RowNoDifferences(sheet: string, row: nat, t: Table, n: nat)
    requires row < |t| && n <= |t[row]|
    ensures RowDifferences(sheet, row, t[row], t, n) == []
  {
    if n > 0 {
      RowNoDifferences(sheet, row, t, n - 1);
      PyEqEquivalence(t[row][n - 1], t[row][n - 1], t[row][n - 1]);
    }
  }

  /** A sheet that agrees with its remote copy has no differences. */
  lemma {:induction false} TableNoDifferences(sheet: string, t: Table, n: nat)
    requires n <= |t|
    ensures TableDifferences(sheet, t, t, n) == []
  {
    if n > 0 {
      TableNoDifferences(sheet, t, n - 1);
      RowNoDifferences(sheet, n - 1, t, |t[n - 1]|);
    }
  }

  /** Copies that agree sheet by sheet have no differences at all, so a push right after a pull sends nothing. */
  lemma {:induction false} NoDifferencesWhenEqual(order: seq<string>, local: map<string, Table>, n: nat)
    requires n <= |order|
    requires forall k :: 0 <= k < |order| ==> order[k] in local
    ensures Differences(order, local, local, n) == []
  {
    if n > 0 {
      NoDifferencesWhenEqual(order, local, n - 1);
      var t := local[order[n - 1]];
      TableNoDifferences(order[n - 1], t, |t|);
    }
  }

  // ---------------------------------------------------------------------------
  // The sheet

  /** The answer of one Sheets API call that failed: an `HttpError` with its status, or a timeout. */
  datatype ApiError = HttpError(status: int) | Timeout

  /** The failures `pull` and `push` only log: the sheet is unavailable or the socket timed out. */
  predicate Transient(e: ApiError)
  {
    e.Timeout? || e.status == 500 || e.status == 502 || e.status == 503
  }

  /** `d |= {title: values}` on a dictionary kept as its key order and its map. */
  function MergeOrder(order: seq<string>, title: string, m: map<string, Table>): seq<string>
  {
    if title in m then order else order + [title]
  }

  /** A dictionary's key order lists its keys, once each. */
  ghost predicate OrderOf(order: seq<string>, m: map<string, Table>)
  {
    Distinct(order) && (forall k :: k in m <==> k in order)
  }

  class GoogleSheet {
    var loaded: bool
    var remote: map<string, Table>
    var remoteOrder: seq<string>
    var local: map<string, Table>
    var localOrder: seq<string>

    /** Both copies list their sheets in order, and every local sheet has a remote copy. */
    ghost predicate Valid()
      reads this
    {
      && OrderOf(remoteOrder, remote) && OrderOf(localOrder, local)
      && forall k :: k in local ==> k in remote
    }

    constructor ()
      ensures Valid() && !loaded && local == map[] && remote == map[]
    {
      loaded, remote, remoteOrder, local, localOrder := false, map[], [], map[], [];
    }

    /** `sheet[name]`: the local copy of one sheet, once the sheet has been loaded. */
    function Get(name: string): (r: Result<Table, SheetError>)
      reads this
      ensures !loaded ==> r == Err(NotLoaded)
      ensures loaded && name !in local ==> r == Err(NoSuchSheet)
      ensures r.Ok? <==> loaded && name in local
      ensures r.Ok? ==> r.value == local[name]
    {
      if !loaded then Err(NotLoaded)
      else if name !in local then Err(NoSuchSheet)
      else Ok(local[name])
    }

    /** The storage layer's edits of a sheet it got with `Get` (the list is shared, not copied). */
    method Store(name: string, t: Table)
      requires Valid() && name in local
      modifies this`local
      ensures Valid() && local == old(local)[name := t]
    {
      local := local[name := t];
    }

    /** The number of cells of the first `n` local sheets. */
    ghost function CellCount(n: nat): nat
      reads this
      requires n <= |localOrder| && OrderOf(localOrder, local)
    {
      if n == 0 then 0 else CellCount(n - 1) + TableCells(local[localOrder[n - 1]], |local[localOrder[n - 1]]|)
    }

    /** `len(sheet)`: the number of local cells, once loaded. */
    method Len() returns (r: Result<nat, SheetError>)
      requires Valid()
      ensures !loaded <==> r == Err(NotLoaded)
      ensures r.Ok? ==> r.value == CellCount(|localOrder|)
    {
      if !loaded {
        return Err(NotLoaded);
      }
      var cells := 0;
      var i := 0;
      while i < |localOrder|
        invariant 0 <= i <= |localOrder|
        invariant cells == CellCount(i)
      {
        var t := local[localOrder[i]];
        var j := 0;
        var inner := 0;
        while j < |t|
          invariant 0 <= j <= |t|
          invariant inner == TableCells(t, j)
        {
          inner := inner + |t[j]|;
          j := j + 1;
        }
        cells := cells + inner;
        i := i + 1;
      }
      return Ok(cells);
    }

    /**
     * `_get_sheet_differences`: every local cell that is not equal to the
     * remote one, sheet by sheet, row by row and column by column; a cell the
     * remote copy lacks counts as "".
     */
    method GetDifferences() returns (ds: seq<Difference>)
      requires Valid()
      ensures ds == Differences(localOrder, local, remote, |localOrder|)
    {
      ds := [];
      var i := 0;
      while i < |localOrder|
        invariant 0 <= i <= |localOrder|
        invariant ds == Differences(localOrder, local, remote, i)
      {
        var name := localOrder[i];
        var sheetDs := SheetDifferences(name, local[name], remote[name]);
        ds := ds + sheetDs;
        i := i + 1;
      }
    }

    /**
     * `pull`: with valid credentials the sheets are fetched in order and each
     * replaces its remote copy; `failure` is the error that ends the fetch
     * after `fetched` (none when all were fetched). A complete fetch loads the
     * sheet and makes the local copy equal the remote one; a transient failure
     * is only logged, any other failure is raised; either way the sheets
     * already fetched stay in the remote copy.
     */
    method Pull(credentials: bool, fetched: seq<(string, Table)>, failure: Option<ApiError>)
      returns (r: Result<(), SheetError>)
      requires Valid()
      modifies this
      ensures Valid()
      ensures !credentials ==> r == Err(BadCredentials) && unchanged(this)
      ensures credentials ==> remote == Merged(old(remote), fetched) && remoteOrder == MergedOrder(old(remoteOrder), old(remote), fetched)
      ensures credentials && failure.None? ==> r == Ok(()) && loaded && local == remote && localOrder == remoteOrder
      ensures credentials && failure.Some? ==>
        && loaded == old(loaded) && local == old(local) && localOrder == old(localOrder)
        && (r.Ok? <==> Transient(failure.value))
        && (r.Err? ==> r.error == ApiFailure(failure.value.status))
    {
      if !credentials {
        return Err(BadCredentials);
      }
      var m, order := remote, remoteOrder;
      var i := 0;
      while i < |fetched|
        invariant 0 <= i <= |fetched|
        invariant m == Merged(remote, fetched[..i])
        invariant order == MergedOrder(remoteOrder, remote, fetched[..i])
      {
        assert fetched[..i + 1][..i] == fetched[..i];
        order := MergeOrder(order, fetched[i].0, m);
        m := m[fetched[i].0 := fetched[i].1];
        i := i + 1;
      }
      assert fetched[..i] == fetched;
      MergedOrderOf(remoteOrder, remote, fetched);
      remote, remoteOrder := m, order;
      if failure.Some? {
        if Transient(failure.value) {
          return Ok(());
        }
        return Err(ApiFailure(failure.value.status));
      }
      local, localOrder, loaded := remote, remoteOrder, true;
      return Ok(());
    }

    /**
     * `push`: refused with invalid credentials or before the first load; with
     * no differences nothing is sent; otherwise every difference is sent with
     * its local value, and the remote copy becomes the local one when the
     * update succeeds. `failure` is the answer of the update call.
     */
    method Push(credentials: bool, failure: Option<ApiError>) returns (r: Result<seq<(string, Cell)>, SheetError>)
      requires Valid()
      modifies this`remote, this`remoteOrder
      ensures Valid()
      ensures !credentials ==> r == Err(BadCredentials) && unchanged(this)
      ensures credentials && !loaded ==> r == Err(NotLoaded) && unchanged(this)
      ensures credentials && loaded ==> var ds := Differences(localOrder, local, old(remote), |localOrder|);
        && (ds == [] ==> r == Ok([]) && unchanged(this))
        && (ds != [] && failure.None? ==> r.Ok? && remote == local && remoteOrder == localOrder)
        && (ds != [] && failure.Some? ==>
              && unchanged(this)
              && (r.Ok? <==> Transient(failure.value))
              && (r.Err? ==> r.error == ApiFailure(failure.value.status)))
        && (r.Ok? ==> |r.value| == |ds| && forall k :: 0 <= k < |ds| ==> r.value[k] == (ds[k].range, ds[k].local))
    {
      if !credentials {
        return Err(BadCredentials);
      }
      if !loaded {
        return Err(NotLoaded);
      }
      var ds := GetDifferences();
      var data := [];
      var k := 0;
      while k < |ds|
        invariant 0 <= k <= |ds|
        invariant |data| == k && forall j :: 0 <= j < k ==> data[j] == (ds[j].range, ds[j].local)
      {
        data := data + [(ds[k].range, ds[k].local)];
        k := k + 1;
      }
      if data == [] {
        return Ok([]);
      }
      if failure.Some? {
        if Transient(failure.value) {
          return Ok(data);
        }
        return Err(ApiFailure(failure.value.status));
      }
      remote, remoteOrder := local, localOrder;
      return Ok(data);
    }
  }

  /** The differences of one local sheet against its remote copy, row by row. */
  method SheetDifferences(name: string, lt: Table, rt: Table) returns (ds: seq<Difference>)
    ensures ds == TableDifferences(name, lt, rt, |lt|)
  {
    ds := [];
    var y := 0;
    while y < |lt|
      invariant 0 <= y <= |lt|
      invariant ds == TableDifferences(name, lt, rt, y)
    {
      var rowDs := CellDifferences(name, y, lt[y], rt);
      ds := ds + rowDs;
      y := y + 1;
    }
  }

  /** The differences of one local row against the remote sheet, column by column. */
  method CellDifferences(name: string, y: nat, lrow: Row, rt: Table) returns (ds: seq<Difference>)
    ensures ds == RowDifferences(name, y, lrow, rt, |lrow|)
  {
    ds := [];
    var x := 0;
    while x < |lrow|
      invariant 0 <= x <= |lrow|
      invariant ds == RowDifferences(name, y, lrow, rt, x)
    {
      var c := RemoteCell(rt, y, x);
      if !PyEq(lrow[x], c) {
        ds := ds + [Difference(CellRange(name, y, x), lrow[x], c)];
      }
      x := x + 1;
    }
  }

  /** The cells of the first `n` rows of a sheet. */
  function TableCells(t: Table, n: nat): nat
    requires n <= |t|
  {
    if n == 0 then 0 else TableCells(t, n - 1) + |t[n - 1]|
  }

  /** The remote copy after `|=` with each fetched sheet in turn. */
  function Merged(m: map<string, Table>, fetched: seq<(string, Table)>): (r: map<string, Table>)
    ensures forall k :: k in r <==> k in m || exists j :: 0 <= j < |fetched| && fetched[j].0 == k
  {
    if fetched == [] then m
    else
      var last := fetched[|fetched| - 1];
      var r := Merged(m, fetched[..|fetched| - 1])[last.0 := last.1];
      assert forall j :: 0 <= j < |fetched| - 1 ==> fetched[..|fetched| - 1][j] == fetched[j];
      r
  }

  /** The key order after the same merges: new titles join at the end. */
  function MergedOrder(order: seq<string>, m: map<string, Table>, fetched: seq<(string, Table)>): seq<string>
  {
    if fetched == [] then order
    else
      var init := fetched[..|fetched| - 1];
      MergeOrder(MergedOrder(order, m, init), fetched[|fetched| - 1].0, Merged(m, init))
  }

  /** Merging keeps the key order a faithful listing of the keys. */
  lemma {:induction false} MergedOrderOf(order: seq<string>, m: map<string, Table>, fetched: seq<(string, Table)>)
    requires OrderOf(order, m)
    ensures OrderOf(MergedOrder(order, m, fetched), Merged(m, fetched))
  {
    if fetched != [] {
      var init := fetched[..|fetched| - 1];
      MergedOrderOf(order, m, init);
    }
  }

  /** A merge of what was just fetched decides the remote copy of each fetched sheet: the last fetch wins. */
  lemma {:induction false} MergedHoldsLastFetch(m: map<string, Table>, fetched: seq<(string, Table)>, j: nat)
    requires j < |fetched|
    requires forall k :: j < k < |fetched| ==> fetched[k].0 != fetched[j].0
    ensures Merged(m, fetched)[fetched[j].0] == fetched[j].1
  {
    if j < |fetched| - 1 {
      var init := fetched[..|fetched| - 1];
      MergedHoldsLastFetch(m, init, j);
    }
  }
}
