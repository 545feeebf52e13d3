/**
 * The "Bridge" sheet: one row per Colonia bridge station, keyed by its
 * name. Loading turns every valid row into a bridge; pushing never adds a
 * row, only rewrites the tritium stock and the update time of the rows of
 * the bridges it is given.
 */
module BridgeSheet {

  import opened Wrappers
  import opened Seqs
  import opened Text
  import opened Patterns
  import opened Sheets
  import opened SheetTables
  import opened GoogleSheets
  import opened Storage
  import opened Goods
  import opened Depots

  const SheetName := "Bridge"

  /** `_BRIDGE_CHECKS`, in order. */
  const BridgeChecks: seq<(string, Check)> := [
    ("Name", Check(StrKind, false, None)),
    ("Tonnage", Check(IntKind, true, None)),
    ("Sell Price", Check(IntKind, true, None)),
    ("Market ID", Check(IntKind, false, None)),
    ("Update", Check(IntKind, false, None)),
    ("System", Check(StrKind, false, None)),
    ("X", Check(FloatKind, false, None)),
    ("Y", Check(FloatKind, false, None)),
    ("Z", Check(FloatKind, false, None)),
    ("URL", Check(StrKind, false, Some(InaraUrl)))
  ]

  /** The fields of a `Bridge`. */
  datatype BridgeRecord = BridgeRecord(
    name: string, system: System, market: seq<Good>, marketId: int, inaraUrl: string, lastUpdate: int)

  // ---------------------------------------------------------------------------
  // Loading

  /**
   * The tritium good the sheet stores for a stock and a price: bracket 0 and
   * no demand, neither of them worth storing.
   */
  function SheetTritium(price: int, quantity: int): Good
  {
    NewGood("tritium", FullDict(price, quantity, Level(0)), EmptyDict)
  }

  /** A tonnage and a sell price of which exactly one is `None`. */
  predicate Ambiguous(tonnage: Cell, price: Cell)
  {
    (price.Null? || tonnage.Null?) && !PyEq(price, tonnage)
  }

  /** The market of a row: tritium when the tonnage and the price are both set, nothing when neither is. */
  function MarketOf(tonnage: Cell, price: Cell): (r: Option<seq<Good>>)
    ensures r.None? <==> tonnage.Null? != price.Null?
    ensures r == Some([]) <==> tonnage.Null? && price.Null?
    ensures !tonnage.Null? && !price.Null? ==> r == Some([SheetTritium(AsInt(price), AsInt(tonnage))])
  {
    if Ambiguous(tonnage, price) then None
    else if !price.Null? && !tonnage.Null? then Some([SheetTritium(AsInt(price), AsInt(tonnage))])
    else Some([])
  }

  /** The bridge of a validated row; `None` for an ambiguous market. */
  function BridgeOf(d: map<string, Cell>): Option<BridgeRecord>
  {
    BridgeFrom(
      Get(d, "Name"), Get(d, "Tonnage"), Get(d, "Sell Price"), Get(d, "Market ID"), Get(d, "Update"),
      Get(d, "System"), Get(d, "X"), Get(d, "Y"), Get(d, "Z"), Get(d, "URL"))
  }

  /** The bridge built from the validated cells of its ten keys. */
  function BridgeFrom(name: Cell, tonnage: Cell, price: Cell, marketId: Cell, update: Cell,
                      system: Cell, x: Cell, y: Cell, z: Cell, url: Cell): Option<BridgeRecord>
  {
    match MarketOf(tonnage, price)
    case None => None
    case Some(market) =>
      Some(BridgeRecord(
        StrText(name), System(StrText(system), Some(Point(AsReal(x), AsReal(y), AsReal(z)))),
        market, AsInt(marketId), StrText(url), AsInt(update)))
  }

  /**
   * `_load_bridge`: a validation `IndexError` is raised; an invalid key or an
   * ambiguous market is a `ValueError` that skips the row.
   */
  function DecodeBridge(headers: Row, row: Row): (r: Result<Option<BridgeRecord>, LoadError>)
    ensures Validated(headers, row, BridgeChecks, false).Err? <==> r.Err? && r.error.Failed?
    ensures r.Ok? ==>
      && Validated(headers, row, BridgeChecks, false).Ok?
      && Validated(headers, row, BridgeChecks, false).value.invalid == []
      && r.value.Some? && r.value.value.system.location.Some?
  {
    match Validated(headers, row, BridgeChecks, false)
    case Err(e) => Err(Failed(e))
    case Ok(v) =>
      if v.invalid != [] then Err(Rejected)
      else
        match BridgeOf(v.loaded)
        case None => Err(Rejected)
        case Some(b) => Ok(Some(b))
  }

  /**
   * A valid row loads exactly when its tonnage and sell price are both set
   * or both blank; a loaded market is empty or the one tritium good the two
   * cells describe.
   */
  lemma LoadedMarket(headers: Row, row: Row)
    requires Validated(headers, row, BridgeChecks, false).Ok?
    requires Validated(headers, row, BridgeChecks, false).value.invalid == []
    ensures var d := Validated(headers, row, BridgeChecks, false).value.loaded;
      var tonnage, price := Get(d, "Tonnage"), Get(d, "Sell Price");
      && (DecodeBridge(headers, row) == Err(Rejected) <==> tonnage.Null? != price.Null?)
      && (DecodeBridge(headers, row).Ok? ==>
            var m := DecodeBridge(headers, row).value.value.market;
            && (m == [] <==> tonnage.Null?)
            && (m != [] ==> m == [SheetTritium(AsInt(price), AsInt(tonnage))]))
  {
  }

  /** The good a loaded market holds is the tritium of the bridge, stock as stored. */
  lemma SheetTritiumIsTritium(price: int, quantity: int)
    ensures TritiumOf([SheetTritium(price, quantity)]) == Some(SheetTritium(price, quantity))
    ensures SheetTritium(price, quantity).stock == Market(price, quantity, Level(0))
    ensures SheetTritium(price, quantity).demand == EmptyMarket
  {
    NewGoodKeepsLowerName("tritium", FullDict(price, quantity, Level(0)), EmptyDict);
  }

  // ---------------------------------------------------------------------------
  // Pushing

  /** `tritium.stock.quantity`, or "" without tritium. */
  function TonnageCell(t: Option<Good>): Cell
  {
    if t.Some? then Int(t.value.stock.quantity) else Str("")
  }

  /** `tritium.stock.price`, or "" without tritium. */
  function PriceCell(t: Option<Good>): Cell
  {
    if t.Some? then Int(t.value.stock.price) else Str("")
  }

  /** The writes into every row of the bridge. */
  function BridgeWrites(b: BridgeRecord): Writes
  {
    [ ("Tonnage", TonnageCell(TritiumOf(b.market))),
      ("Sell Price", PriceCell(TritiumOf(b.market))),
      ("Update", Int(b.lastUpdate)) ]
  }

  /** `push_bridges` for one bridge: rows are found by name, and a bridge the sheet lacks is not added. */
  function BridgePlan(b: BridgeRecord): Plan
  {
    Plan(Matcher("Name", Str(b.name), None), None, false, BridgeWrites(b))
  }

  /** The keys a push writes. */
  lemma WrittenKeys(b: BridgeRecord)
    ensures WriteKeys(BridgeWrites(b)) == ["Tonnage", "Sell Price", "Update"]
    ensures Distinct(WriteKeys(BridgeWrites(b)))
  {
  }

  /** A push never adds a row. */
  lemma PushAddsNoRow(t: Table, b: BridgeRecord)
    requires |t| > 0 && PushItem(t, BridgePlan(b)).Ok?
    ensures |PushItem(t, BridgePlan(b)).value| == |t|
  {
    PushItemAppends(t, BridgePlan(b));
  }

  /** A push keeps every cell of every row under a key other than the three it writes. */
  lemma PushKeepsUnwritten(t: Table, b: BridgeRecord, i: nat, key: string)
    requires |t| > 0 && PushItem(t, BridgePlan(b)).Ok? && 1 <= i < |t|
    requires key != "Tonnage" && key != "Sell Price" && key != "Update" && Writable(t[0], t[i], key)
    ensures var j := Column(t[0], key).value; PushItem(t, BridgePlan(b)).value[i][j] == t[i][j]
  {
    WrittenKeys(b);
    PushKeepsColumn(t, BridgePlan(b), i, key);
  }

  // ---------------------------------------------------------------------------
  // Push, then load again

  /** The market a bridge's pushed row loads with: its tritium as the sheet stores it. */
  function StoredMarket(t: Option<Good>): seq<Good>
  {
    if t.Some? then [SheetTritium(t.value.stock.price, t.value.stock.quantity)] else []
  }

  /** A bridge as the sheet keeps it once a push of `b` reaches its row. */
  function Repushed(x: BridgeRecord, b: BridgeRecord): BridgeRecord
  {
    x.(market := StoredMarket(TritiumOf(b.market)), lastUpdate := b.lastUpdate)
  }

  /**
   * The row of a bridge, once a push of `b` went through the sheet, loads as
   * the same bridge with the stock and update time of `b` when the names
   * agree, and unchanged otherwise.
   */
  lemma PushThenLoad(t: Table, b: BridgeRecord, i: nat, x: BridgeRecord)
    requires |t| > 0 && PushItem(t, BridgePlan(b)).Ok? && 1 <= i < |t|
    requires DecodeBridge(t[0], t[i]) == Ok(Some(x))
    ensures DecodeBridge(t[0], PushItem(t, BridgePlan(b)).value[i])
      == Ok(Some(if x.name == b.name then Repushed(x, b) else x))
  {
    var p := BridgePlan(b);
    PushItemKeepsOthers(t, p, i);
    NameTargets(t[0], t[i], b);
    if Targets(t[0], t[i], p.m) {
      PushedRowUpdated(t, p, i);
      RowReloads(t[0], t[i], b);
    }
  }

  /** A valid row is targeted by a push exactly when it holds the bridge's name. */
  lemma NameTargets(headers: Row, row: Row, b: BridgeRecord)
    requires DecodeBridge(headers, row).Ok?
    ensures Targets(headers, row, BridgePlan(b).m) <==> DecodeBridge(headers, row).value.value.name == b.name
  {
    var d := Validated(headers, row, BridgeChecks, false).value.loaded;
    ChecksDistinct();
    CleanJudged(headers, row, BridgeChecks, false, 0);
    assert row[Column(headers, "Name").value] == d["Name"];
  }

  /** A written row of a valid bridge loads as the bridge with the written stock and update time. */
  lemma RowReloads(headers: Row, row: Row, b: BridgeRecord)
    requires DecodeBridge(headers, row).Ok? && SetCells(headers, row, BridgeWrites(b)).Ok?
    ensures DecodeBridge(headers, SetCells(headers, row, BridgeWrites(b)).value)
      == Ok(Some(Repushed(DecodeBridge(headers, row).value.value, b)))
  {
    var d := Validated(headers, row, BridgeChecks, false).value.loaded;
    var row' := SetCells(headers, row, BridgeWrites(b)).value;
    var vals := ReloadedCells(d, b);
    ChecksDistinct();
    forall i | 0 <= i < |BridgeChecks|
      ensures Judge(headers, row', BridgeChecks[i].0, BridgeChecks[i].1, false) == Ok(Loaded(vals[i]))
    {
      CleanJudged(headers, row, BridgeChecks, false, i);
      ReloadedAt(headers, row, b, i, d);
    }
    AllLoaded(headers, row', BridgeChecks, false, vals);
    var d' := Validated(headers, row', BridgeChecks, false).value.loaded;
    ReloadedKeys(d', vals);
    ReloadedBridge(d, d', b);
  }

  /** What each check loads from a written row: the written cells, and the rest as they were. */
  function ReloadedCells(d: map<string, Cell>, b: BridgeRecord): seq<Cell>
  {
    var t := TritiumOf(b.market);
    [ Get(d, "Name"),
      if t.Some? then Int(t.value.stock.quantity) else Null,
      if t.Some? then Int(t.value.stock.price) else Null,
      Get(d, "Market ID"), Int(b.lastUpdate), Get(d, "System"),
      Get(d, "X"), Get(d, "Y"), Get(d, "Z"), Get(d, "URL") ]
  }

  /** The check at index `i` loads its reloaded cell from the written row. */
  lemma ReloadedAt(headers: Row, row: Row, b: BridgeRecord, i: nat, d: map<string, Cell>)
    requires SetCells(headers, row, BridgeWrites(b)).Ok? && i < |BridgeChecks|
    requires Judge(headers, row, BridgeChecks[i].0, BridgeChecks[i].1, false) == Ok(Loaded(Get(d, BridgeChecks[i].0)))
    ensures Judge(headers, SetCells(headers, row, BridgeWrites(b)).value, BridgeChecks[i].0, BridgeChecks[i].1, false)
      == Ok(Loaded(ReloadedCells(d, b)[i]))
  {
    if i == 1 || i == 2 || i == 4 {
      WrittenReloads(headers, row, b, i, d);
    } else {
      KeptAt(headers, row, b, i, d);
    }
  }

  /** A column the push does not write loads from the written row as it did before. */
  lemma KeptAt(headers: Row, row: Row, b: BridgeRecord, i: nat, d: map<string, Cell>)
    requires SetCells(headers, row, BridgeWrites(b)).Ok? && i < |BridgeChecks| && i != 1 && i != 2 && i != 4
    requires Judge(headers, row, BridgeChecks[i].0, BridgeChecks[i].1, false) == Ok(Loaded(Get(d, BridgeChecks[i].0)))
    ensures Judge(headers, SetCells(headers, row, BridgeWrites(b)).value, BridgeChecks[i].0, BridgeChecks[i].1, false)
      == Ok(Loaded(ReloadedCells(d, b)[i]))
  {
    WrittenKeys(b);
    KeptJudged(headers, row, BridgeWrites(b), BridgeChecks[i].0, BridgeChecks[i].1, false, Get(d, BridgeChecks[i].0));
    KeptCell(d, b, i);
  }

  /** The reloaded cell of a column the push does not write is its loaded value. */
  lemma KeptCell(d: map<string, Cell>, b: BridgeRecord, i: nat)
    requires i < |BridgeChecks| && i != 1 && i != 2 && i != 4
    ensures ReloadedCells(d, b)[i] == Get(d, BridgeChecks[i].0)
  {
  }

  /** A column the push writes loads the written stock, price or update time. */
  lemma WrittenReloads(headers: Row, row: Row, b: BridgeRecord, i: nat, d: map<string, Cell>)
    requires SetCells(headers, row, BridgeWrites(b)).Ok? && (i == 1 || i == 2 || i == 4)
    ensures Judge(headers, SetCells(headers, row, BridgeWrites(b)).value, BridgeChecks[i].0, BridgeChecks[i].1, false)
      == Ok(Loaded(ReloadedCells(d, b)[i]))
  {
    WrittenKeys(b);
    var k := if i == 1 then 0 else if i == 2 then 1 else 2;
    WrittenCellLoads(b, i, k, d);
    WrittenAt(headers, row, BridgeWrites(b), k, BridgeChecks[i].1, ReloadedCells(d, b)[i]);
  }

  /** The `k`-th write of a push holds the key of check `i` and a cell that loads as the reloaded one. */
  lemma WrittenCellLoads(b: BridgeRecord, i: nat, k: nat, d: map<string, Cell>)
    requires (i, k) == (1, 0) || (i, k) == (2, 1) || (i, k) == (4, 2)
    ensures BridgeWrites(b)[k].0 == BridgeChecks[i].0
    ensures JudgeCell(BridgeWrites(b)[k].1, BridgeChecks[i].1, false) == Loaded(ReloadedCells(d, b)[i])
  {
  }

  /** The loaded values in check order, by key. */
  lemma ReloadedKeys(d: map<string, Cell>, vals: seq<Cell>)
    requires |vals| == |BridgeChecks|
    requires forall i :: 0 <= i < |BridgeChecks| ==> BridgeChecks[i].0 in d && d[BridgeChecks[i].0] == vals[i]
    ensures Get(d, "Name") == vals[0] && Get(d, "Tonnage") == vals[1] && Get(d, "Sell Price") == vals[2]
    ensures Get(d, "Market ID") == vals[3] && Get(d, "Update") == vals[4] && Get(d, "System") == vals[5]
    ensures Get(d, "X") == vals[6] && Get(d, "Y") == vals[7] && Get(d, "Z") == vals[8] && Get(d, "URL") == vals[9]
  {
    assert BridgeChecks[0].0 == "Name" && BridgeChecks[1].0 == "Tonnage" && BridgeChecks[2].0 == "Sell Price";
    assert BridgeChecks[3].0 == "Market ID" && BridgeChecks[4].0 == "Update" && BridgeChecks[5].0 == "System";
    assert BridgeChecks[6].0 == "X" && BridgeChecks[7].0 == "Y" && BridgeChecks[8].0 == "Z" && BridgeChecks[9].0 == "URL";
  }

  /** The bridge of the reloaded cells is the old bridge with the pushed stock and update time. */
  lemma ReloadedBridge(d: map<string, Cell>, d': map<string, Cell>, b: BridgeRecord)
    requires BridgeOf(d).Some?
    requires var vals := ReloadedCells(d, b);
      && Get(d', "Name") == vals[0] && Get(d', "Tonnage") == vals[1] && Get(d', "Sell Price") == vals[2]
      && Get(d', "Market ID") == vals[3] && Get(d', "Update") == vals[4] && Get(d', "System") == vals[5]
      && Get(d', "X") == vals[6] && Get(d', "Y") == vals[7] && Get(d', "Z") == vals[8] && Get(d', "URL") == vals[9]
    ensures BridgeOf(d') == Some(Repushed(BridgeOf(d).value, b))
  {
    var t := TritiumOf(b.market);
    assert MarketOf(Get(d', "Tonnage"), Get(d', "Sell Price")) == Some(StoredMarket(t));
  }

  lemma ChecksDistinct()
    ensures DistinctKeys(BridgeChecks)
  {
  }

  // ---------------------------------------------------------------------------
  // The bridges as objects

  function RecordOf(o: Bridge): BridgeRecord
    reads o
  {
    BridgeRecord(o.name, o.system, o.market, o.marketId, o.inaraUrl, o.lastUpdate)
  }

  /** The plan of each bridge, in order. */
  function BridgePlans(os: seq<Bridge>): seq<Plan>
    reads os
  {
    seq(|os|, k requires 0 <= k < |os| reads os => BridgePlan(RecordOf(os[k])))
  }

  /** `load_bridges` on the local copy: every valid row as a new bridge object. */
  method LoadBridges(sheet: GoogleSheet) returns (r: Result<seq<Bridge>, SheetError>)
    requires sheet.Valid()
    ensures var recs := LoadFrom(sheet.Get(SheetName), DecodeBridge);
      && (recs.Err? ==> r == Err(recs.error))
      && (recs.Ok? ==>
            && r.Ok? && |r.value| == |recs.value|
            && forall k :: 0 <= k < |r.value| ==> fresh(r.value[k]) && RecordOf(r.value[k]) == recs.value[k])
  {
    var recs := LoadSheet(sheet, SheetName, DecodeBridge);
    if recs.Err? {
      return Err(recs.error);
    }
    var out := NewBridges(recs.value);
    return Ok(out);
  }

  /** A new bridge object for each loaded record, in order. */
  method NewBridges(xs: seq<BridgeRecord>) returns (os: seq<Bridge>)
    ensures |os| == |xs| && forall k :: 0 <= k < |os| ==> fresh(os[k]) && RecordOf(os[k]) == xs[k]
  {
    os := [];
    var i := 0;
    while i < |xs|
      invariant 0 <= i <= |xs| && |os| == i
      invariant forall k :: 0 <= k < i ==> fresh(os[k]) && RecordOf(os[k]) == xs[k]
    {
      var x := xs[i];
      var o := new Bridge(x.name, x.system, x.market, x.marketId, x.inaraUrl, x.lastUpdate);
      os := os + [o];
      i := i + 1;
    }
  }

  /** `push_bridges` on the local copy; the upload that follows is `GoogleSheet.Push`. */
  method PushBridges(sheet: GoogleSheet, bridges: seq<Bridge>) returns (r: Result<(), SheetError>)
    requires sheet.Valid()
    modifies sheet`local
    ensures sheet.Valid()
    ensures var e := EditFrom(old(sheet.Get(SheetName)), Keys(BridgeChecks), BridgePlans(bridges));
      && (e.Err? ==> r == Err(e.error) && sheet.local == old(sheet.local))
      && (e.Ok? ==> r == Ok(()) && sheet.local == old(sheet.local)[SheetName := e.value])
  {
    r := EditSheet(sheet, SheetName, Keys(BridgeChecks), BridgePlans(bridges));
  }
}
