/**
 * The "Carrier" sheet: one row per fleet carrier depot, keyed by its
 * callsign. Loading turns every valid row into a carrier and quietly skips
 * broken rows of inactive carriers; pushing appends the carriers the sheet
 * does not have and then rewrites the market, sync state, update time,
 * current system and colour of every row of each carrier.
 */
module CarrierSheet {

  import opened Wrappers
  import opened Seqs
  import opened Text
  import opened Patterns
  import opened Enums
  import opened Sheets
  import opened SheetTables
  import opened GoogleSheets
  import opened Storage
  import opened Goods
  import opened Depots

  const SheetName := "Carrier"

  /** `_CARRIER_CHECKS`, in order. */
  const CarrierChecks: seq<(string, Check)> := [
    ("ID", Check(StrKind, false, Some(Callsign))),
    ("Name", Check(StrKind, false, None)),
    ("Tonnage", Check(IntKind, true, None)),
    ("Price", Check(IntKind, true, None)),
    ("Market", Check(StrKind, false, Some(Words(MarketWords)))),
    ("Update", Check(IntKind, false, None)),
    ("Current System", Check(StrKind, false, None)),
    ("X", Check(FloatKind, false, None)),
    ("Y", Check(FloatKind, false, None)),
    ("Z", Check(FloatKind, false, None)),
    ("Reserve", Check(IntKind, false, None)),
    ("Allocated", Check(IntKind, false, None)),
    ("Deploy System", Check(StrKind, false, None)),
    ("Contact", Check(IntKind, false, None)),
    ("URL", Check(StrKind, false, Some(InaraUrl))),
    ("Market ID", Check(IntKind, false, None)),
    ("Active", Check(BoolKind, false, None))
  ]

  // ---------------------------------------------------------------------------
  // Loading

  /** The `info` of a listed market: the tonnage at the price, in its stock bracket. */
  function MarketInfo(quantity: int, price: int): MarketDict
  {
    FullDict(price, quantity, Level(StockBracket(quantity)))
  }

  /**
   * `_load_market`: an unlisted market must hold neither a tonnage nor a
   * price, any other both (`None` for the `ValueError`); a listed market is
   * one tritium good, the tonnage at the price being its stock when it is
   * selling and its demand when it is buying.
   */
  function MarketLoad(kind: string, quantity: Cell, price: Cell): (r: Option<seq<Good>>)
    ensures kind == "Unlisted" ==> (r.Some? <==> quantity.Null? && price.Null?)
    ensures kind != "Unlisted" ==> (r.Some? <==> !quantity.Null? && !price.Null?)
    ensures r.Some? ==> (r.value == [] <==> kind == "Unlisted") && |r.value| <= 1
  {
    if kind == "Unlisted" then
      if quantity.Null? && price.Null? then Some([]) else None
    else if quantity.Null? || price.Null? then None
    else
      var info := MarketInfo(AsInt(quantity), AsInt(price));
      Some([NewGood("tritium", if kind == "Selling" then info else EmptyDict, if kind == "Buying" then info else EmptyDict)])
  }

  /** A listed market of a kind the intended pattern accepts holds the tonnage at the price on its side. */
  lemma ListedMarketKeepsTonnage(kind: string, quantity: Cell, price: Cell)
    requires OneOf(MarketWords, kind) && MarketLoad(kind, quantity, price).Some? && kind != "Unlisted"
    ensures var m := MarketLoad(kind, quantity, price).value;
      var side := Market(AsInt(price), AsInt(quantity), Level(StockBracket(AsInt(quantity))));
      && TritiumOf(m) == Some(m[0])
      && (kind == "Selling" ==> m[0].stock == side && m[0].demand == EmptyMarket)
      && (kind == "Buying" ==> m[0].demand == side && m[0].stock == EmptyMarket)
  {
    var info := MarketInfo(AsInt(quantity), AsInt(price));
    NewGoodKeepsLowerName("tritium", if kind == "Selling" then info else EmptyDict, if kind == "Buying" then info else EmptyDict);
  }

  /**
   * The `Market` pattern as written, `^Buying|Selling|Unlisted$`, accepts a
   * text that only starts with "Selling"; its row loads a tritium good with
   * neither stock nor demand, so the tonnage is lost.
   */
  lemma MarketAsWrittenLosesTonnage()
    ensures AlternationAsWritten(MarketWords, "Sellingfoo") && !OneOf(MarketWords, "Sellingfoo")
    ensures MarketLoad("Sellingfoo", Int(8000), Int(50000)) == Some([NewGood("tritium", EmptyDict, EmptyDict)])
    ensures NewGood("tritium", EmptyDict, EmptyDict).stock == EmptyMarket
    ensures NewGood("tritium", EmptyDict, EmptyDict).demand == EmptyMarket
  {
    assert Text.StartsWith("Sellingfoo", MarketWords[1]) by {
      assert "Sellingfoo"[..|MarketWords[1]|] == MarketWords[1];
    }
  }

  /** The carrier built from the validated cells of its keys and its loaded market. */
  function CarrierFrom(id: Cell, name: Cell, update: Cell, current: Cell, x: Cell, y: Cell, z: Cell,
                       reserve: Cell, allocSpace: Cell, deploy: Cell, contact: Cell, url: Cell,
                       marketId: Cell, active: Cell, market: seq<Good>): CarrierRecord
  {
    var p := Point(AsReal(x), AsReal(y), AsReal(z));
    CarrierRecord(
      StrText(id), System(StrText(current), if StrText(current) == StrText(deploy) then Some(p) else None),
      market, AsInt(marketId), StrText(url), AsInt(update), StrText(name), System(StrText(deploy), Some(p)),
      AsInt(reserve), AsInt(allocSpace), AsInt(contact), Truthy(active))
  }

  /** The carrier of a validated row with its loaded market. */
  function CarrierOf(d: map<string, Cell>, market: seq<Good>): CarrierRecord
  {
    CarrierFrom(
      Get(d, "ID"), Get(d, "Name"), Get(d, "Update"), Get(d, "Current System"), Get(d, "X"), Get(d, "Y"),
      Get(d, "Z"), Get(d, "Reserve"), Get(d, "Allocated"), Get(d, "Deploy System"), Get(d, "Contact"),
      Get(d, "URL"), Get(d, "Market ID"), Get(d, "Active"), market)
  }

  /** The market of a validated row. */
  function RowMarket(d: map<string, Cell>): Option<seq<Good>>
  {
    MarketLoad(StrText(Get(d, "Market")), Get(d, "Tonnage"), Get(d, "Price"))
  }

  /**
   * `_load_carrier`: a validation `IndexError` is raised; an invalid key or a
   * bad market is a `ValueError` that skips the row, except that the row of
   * an inactive carrier is ignored (`None`) instead. The current system has
   * a location only when it is the deploy system.
   */
  function DecodeCarrier(headers: Row, row: Row): (r: Result<Option<CarrierRecord>, LoadError>)
    ensures Validated(headers, row, CarrierChecks, false).Err? <==> r.Err? && r.error.Failed?
    ensures r.Ok? && r.value.Some? ==>
      && Validated(headers, row, CarrierChecks, false).Ok?
      && Validated(headers, row, CarrierChecks, false).value.invalid == []
      && var x := r.value.value;
        && x.deploySystem.location.Some?
        && x.system.location == if x.system.name == x.deploySystem.name then x.deploySystem.location else None
  {
    match Validated(headers, row, CarrierChecks, false)
    case Err(e) => Err(Failed(e))
    case Ok(v) =>
      var d := v.loaded;
      if v.invalid != [] then
        if "Active" in d && !Truthy(d["Active"]) then Ok(None) else Err(Rejected)
      else
        match RowMarket(d)
        case None => if Truthy(Get(d, "Active")) then Err(Rejected) else Ok(None)
        case Some(m) => Ok(Some(CarrierOf(d, m)))
  }

  /**
   * A validated row is ignored exactly when it is broken (an invalid key or
   * a bad market) and its carrier is known to be inactive.
   */
  lemma IgnoredOnlyInactive(headers: Row, row: Row)
    requires Validated(headers, row, CarrierChecks, false).Ok?
    ensures var v := Validated(headers, row, CarrierChecks, false).value;
      DecodeCarrier(headers, row) == Ok(None) <==>
        && (v.invalid != [] || RowMarket(v.loaded).None?)
        && "Active" in v.loaded && !Truthy(v.loaded["Active"])
  {
    var v := Validated(headers, row, CarrierChecks, false).value;
    if v.invalid == [] {
      ChecksDistinct();
      CleanLoaded(headers, row, CarrierChecks, false, 16);
    }
  }

  // ---------------------------------------------------------------------------
  // Pushing

  /** A carrier as a push sees it: its fields, its CAPI state and its colour. */
  datatype CarrierPush = CarrierPush(r: CarrierRecord, capiStatus: Option<State>, colour: Colour)

  /** The writes of a new row, in the order the source makes them. */
  function NewCarrierWrites(x: CarrierRecord): Writes
    requires x.deploySystem.location.Some?
  {
    var p := x.deploySystem.location.value;
    [ ("ID", Str(x.name)), ("Name", Str(x.displayName)), ("Deploy System", Str(x.deploySystem.name)),
      ("X", Float(p.x)), ("Y", Float(p.y)), ("Z", Float(p.z)),
      ("Reserve", Int(x.reserveTritium)), ("Allocated", Int(x.allocatedSpace)),
      ("Contact", Str(IntToString(x.ownerDiscordId))), ("URL", Str(x.inaraUrl)),
      ("Market ID", Int(x.marketId)), ("Active", Bool(x.activeDepot)) ]
  }

  /** The tonnage, price and kind of a carrier's tritium market: buying when there is demand. */
  function MarketWrites(t: Option<Good>): Writes
  {
    if t.None? then [("Tonnage", Str("")), ("Price", Str("")), ("Market", Str("Unlisted"))]
    else if t.value.demand.quantity > 0 then
      [("Tonnage", Int(t.value.demand.quantity)), ("Price", Int(t.value.demand.price)), ("Market", Str("Buying"))]
    else [("Tonnage", Int(t.value.stock.quantity)), ("Price", Int(t.value.stock.price)), ("Market", Str("Selling"))]
  }

  /** The writes into every row of the carrier: `Synced` only with a CAPI state. */
  function CarrierUpdates(c: CarrierPush): Writes
  {
    MarketWrites(TritiumOf(c.r.market))
    + (if c.capiStatus.Some? then [("Synced", Str(StateName(c.capiStatus.value)))] else [])
    + [("Update", Int(c.r.lastUpdate)), ("Current System", Str(c.r.system.name)), ("Colour", Str(ColourName(c.colour)))]
  }

  /**
   * `push_carriers` for one carrier: rows are found by callsign; a missing
   * carrier is appended (the `assert` on its deploy location raising without
   * one) and then updated like every other row of it.
   */
  function CarrierPlan(c: CarrierPush): Plan
  {
    Plan(Matcher("ID", Str(c.r.name), None),
      Some(if c.r.deploySystem.location.Some? then Ok(NewCarrierWrites(c.r)) else Err(NoLocation)),
      true, CarrierUpdates(c))
  }

  /** The keys of a push's update writes. */
  lemma UpdateKeys(c: CarrierPush)
    ensures WriteKeys(CarrierUpdates(c)) ==
      ["Tonnage", "Price", "Market"] + (if c.capiStatus.Some? then ["Synced"] else [])
      + ["Update", "Current System", "Colour"]
    ensures Distinct(WriteKeys(CarrierUpdates(c)))
  {
  }

  /** The columns a push rewrites in the rows of a carrier. */
  const UpdatedColumns: set<string> := {"Tonnage", "Price", "Market", "Synced", "Update", "Current System", "Colour"}

  /** Every key a push's update writes name is one of the rewritten columns. */
  lemma UpdatesStayInColumns(c: CarrierPush, key: string)
    requires key !in UpdatedColumns
    ensures key !in WriteKeys(CarrierUpdates(c)) && Distinct(WriteKeys(CarrierUpdates(c)))
  {
    UpdateKeys(c);
  }

  /**
   * A push keeps the cell of every existing row under each key it does not
   * rewrite: the callsign, the name, the deploy system and its coordinates,
   * the reserve, the allocation, the contact, the URL, the market id and
   * the active flag are never touched.
   */
  lemma PushKeepsFixed(t: Table, c: CarrierPush, i: nat, key: string)
    requires |t| > 0 && PushItem(t, CarrierPlan(c)).Ok? && 1 <= i < |t| && Writable(t[0], t[i], key)
    requires key !in UpdatedColumns
    ensures var j := Column(t[0], key).value; PushItem(t, CarrierPlan(c)).value[i][j] == t[i][j]
  {
    var p := CarrierPlan(c);
    UpdatesStayInColumns(c, key);
    PushKeepsColumn(t, p, i, key);
  }

  /** A carrier without a deploy location cannot be appended: the push raises. */
  lemma NoLocationRaises(t: Table, c: CarrierPush)
    requires |t| > 0 && c.r.deploySystem.location.None? && Absent(t, CarrierPlan(c))
    ensures PushItem(t, CarrierPlan(c)) == Err(NoLocation)
  {
  }

  // ---------------------------------------------------------------------------
  // Round trip

  /**
   * A carrier the sheet can hold: a callsign, a name, systems that are not
   * blank, a deploy location, a contact that is not negative and an Inara
   * station page.
   */
  predicate Storable(x: CarrierRecord)
  {
    && CallsignMatch(x.name) && x.displayName != "" && x.system.name != "" && x.deploySystem.name != ""
    && x.deploySystem.location.Some? && x.ownerDiscordId >= 0 && InaraUrlMatch(x.inaraUrl)
  }

  /** The market the sheet keeps of a tritium good: one side, in its stock bracket. */
  function StoredMarket(t: Option<Good>): seq<Good>
  {
    if t.None? then []
    else if t.value.demand.quantity > 0 then
      [NewGood("tritium", EmptyDict, MarketInfo(t.value.demand.quantity, t.value.demand.price))]
    else [NewGood("tritium", MarketInfo(t.value.stock.quantity, t.value.stock.price), EmptyDict)]
  }

  /**
   * A carrier as it loads again from its appended row: the market as the
   * sheet keeps it, and the current system located only when it is the
   * deploy system.
   */
  function Reloaded(x: CarrierRecord): CarrierRecord
  {
    x.(system := System(x.system.name, if x.system.name == x.deploySystem.name then x.deploySystem.location else None),
       market := StoredMarket(TritiumOf(x.market)))
  }

  /** Every write of an appended row, in the order the push makes them. */
  function AppendedWrites(c: CarrierPush): Writes
    requires c.r.deploySystem.location.Some?
  {
    NewCarrierWrites(c.r) + CarrierUpdates(c)
  }

  /** The cell an appended row holds for each check, in check order. */
  function WrittenCells(c: CarrierPush): seq<Cell>
    requires c.r.deploySystem.location.Some?
  {
    var x, p, m := c.r, c.r.deploySystem.location.value, MarketWrites(TritiumOf(c.r.market));
    [ Str(x.name), Str(x.displayName), m[0].1, m[1].1, m[2].1, Int(x.lastUpdate), Str(x.system.name),
      Float(p.x), Float(p.y), Float(p.z), Int(x.reserveTritium), Int(x.allocatedSpace),
      Str(x.deploySystem.name), Str(IntToString(x.ownerDiscordId)), Str(x.inaraUrl), Int(x.marketId),
      Bool(x.activeDepot) ]
  }

  /** A market cell as it loads: a blank one as `None`. */
  function Unblanked(v: Cell): Cell
  {
    if v == Str("") then Null else v
  }

  /** What each check loads from an appended row, in check order. */
  function LoadedCells(c: CarrierPush): seq<Cell>
    requires c.r.deploySystem.location.Some?
  {
    var x, p, m := c.r, c.r.deploySystem.location.value, MarketWrites(TritiumOf(c.r.market));
    [ Str(x.name), Str(x.displayName), Unblanked(m[0].1), Unblanked(m[1].1), m[2].1, Int(x.lastUpdate),
      Str(x.system.name), Float(p.x), Float(p.y), Float(p.z), Int(x.reserveTritium), Int(x.allocatedSpace),
      Str(x.deploySystem.name), Int(x.ownerDiscordId), Str(x.inaraUrl), Int(x.marketId), Bool(x.activeDepot) ]
  }

  /** Every check accepts the cell an appended row of a storable carrier holds for it. */
  lemma AppendedAccepted(c: CarrierPush)
    requires Storable(c.r)
    ensures forall i :: 0 <= i < |CarrierChecks| ==>
      JudgeCell(StoredCell(WrittenCells(c)[i]), CarrierChecks[i].1, false) == Loaded(LoadedCells(c)[i])
  {
    forall i | 0 <= i < |CarrierChecks|
      ensures JudgeCell(StoredCell(WrittenCells(c)[i]), CarrierChecks[i].1, false) == Loaded(LoadedCells(c)[i])
    {
      if i < 7 {
        AcceptedLow(c, i);
      } else {
        AcceptedHigh(c, i);
      }
    }
  }

  /** The market cells of an appended row load as their unblanked selves. */
  lemma MarketCellsAccepted(t: Option<Good>, i: nat)
    requires 2 <= i <= 4
    ensures var m := MarketWrites(t);
      JudgeCell(StoredCell(m[i - 2].1), CarrierChecks[i].1, false) == Loaded(if i == 4 then m[2].1 else Unblanked(m[i - 2].1))
  {
    var m, c := MarketWrites(t), CarrierChecks[i].1;
    if i == 4 {
      assert OneOf(MarketWords, m[2].1.s);
      TextCellLoads(m[2].1.s, c);
    } else if m[i - 2].1 == Str("") {
      BlankCellLoads(c);
    } else {
      IntCellLoads(m[i - 2].1.i, c);
    }
  }

  /** The checks before the coordinates accept their cells. */
  lemma AcceptedLow(c: CarrierPush, i: nat)
    requires Storable(c.r) && i < 7
    ensures JudgeCell(StoredCell(WrittenCells(c)[i]), CarrierChecks[i].1, false) == Loaded(LoadedCells(c)[i])
  {
    var x, ch := c.r, CarrierChecks[i].1;
    if i == 0 {
      TextCellLoads(x.name, ch);
    } else if i == 1 {
      TextCellLoads(x.displayName, ch);
    } else if i <= 4 {
      MarketCellsAccepted(TritiumOf(x.market), i);
    } else if i == 5 {
      IntCellLoads(x.lastUpdate, ch);
    } else {
      TextCellLoads(x.system.name, ch);
    }
  }

  /** The coordinates and the checks after them accept their cells. */
  lemma AcceptedHigh(c: CarrierPush, i: nat)
    requires Storable(c.r) && 7 <= i < |CarrierChecks|
    ensures JudgeCell(StoredCell(WrittenCells(c)[i]), CarrierChecks[i].1, false) == Loaded(LoadedCells(c)[i])
  {
    if i < 12 {
      AcceptedMiddle(c, i);
    } else {
      AcceptedLast(c, i);
    }
  }

  /** The coordinates, the reserve and the allocation accept their cells. */
  lemma AcceptedMiddle(c: CarrierPush, i: nat)
    requires Storable(c.r) && 7 <= i < 12
    ensures JudgeCell(StoredCell(WrittenCells(c)[i]), CarrierChecks[i].1, false) == Loaded(LoadedCells(c)[i])
  {
    var x, ch := c.r, CarrierChecks[i].1;
    if i < 10 {
      AcceptedPoint(c, i);
    } else if i == 10 {
      IntCellLoads(x.reserveTritium, ch);
    } else {
      IntCellLoads(x.allocatedSpace, ch);
    }
  }

  /** The coordinates accept their cells. */
  lemma AcceptedPoint(c: CarrierPush, i: nat)
    requires Storable(c.r) && 7 <= i < 10
    ensures JudgeCell(StoredCell(WrittenCells(c)[i]), CarrierChecks[i].1, false) == Loaded(LoadedCells(c)[i])
  {
    var p, ch := c.r.deploySystem.location.value, CarrierChecks[i].1;
    if i == 7 {
      FloatCellLoads(p.x, ch);
    } else if i == 8 {
      FloatCellLoads(p.y, ch);
    } else {
      FloatCellLoads(p.z, ch);
    }
  }

  /** The checks from the deploy system on accept their cells. */
  lemma AcceptedLast(c: CarrierPush, i: nat)
    requires Storable(c.r) && 12 <= i < |CarrierChecks|
    ensures JudgeCell(StoredCell(WrittenCells(c)[i]), CarrierChecks[i].1, false) == Loaded(LoadedCells(c)[i])
  {
    var x, ch := c.r, CarrierChecks[i].1;
    if i == 12 {
      TextCellLoads(x.deploySystem.name, ch);
    } else if i == 13 {
      DigitsCellLoads(x.ownerDiscordId, ch);
    } else if i == 14 {
      TextCellLoads(x.inaraUrl, ch);
    } else if i == 15 {
      IntCellLoads(x.marketId, ch);
    } else {
      BoolCellLoads(x.activeDepot, ch);
    }
  }

  /** Where the write of each check sits among the writes of an appended row. */
  function WritePosition(c: CarrierPush, i: nat): nat
  {
    var s := if c.capiStatus.Some? then 1 else 0;
    if i == 0 || i == 1 then i
    else if 2 <= i <= 4 then i + 10
    else if i == 5 || i == 6 then i + 10 + s
    else if 7 <= i <= 11 then i - 4
    else if i == 12 then 2
    else if i <= 16 then i - 5
    else i
  }

  /** An appended row writes no key twice: the new row's keys are never rewritten columns. */
  lemma AppendedDistinct(c: CarrierPush)
    requires c.r.deploySystem.location.Some?
    ensures Distinct(WriteKeys(AppendedWrites(c)))
  {
    var nws, upd := NewCarrierWrites(c.r), CarrierUpdates(c);
    NewKeysDistinct(c.r);
    UpdateKeys(c);
    assert WriteKeys(nws + upd) == WriteKeys(nws) + WriteKeys(upd);
    DistinctJoin(WriteKeys(nws), WriteKeys(upd), UpdatedColumns);
  }

  /** The write of each check holds the check's key and its written cell. */
  lemma WritesAreChecks(c: CarrierPush)
    requires c.r.deploySystem.location.Some?
    ensures forall i :: 0 <= i < |CarrierChecks| ==>
      WritePosition(c, i) < |AppendedWrites(c)| && AppendedWrites(c)[WritePosition(c, i)] == (CarrierChecks[i].0, WrittenCells(c)[i])
  {
    var ws := AppendedWrites(c);
    var n := |NewCarrierWrites(c.r)|;
    UpdateKeys(c);
    forall i | 0 <= i < |CarrierChecks|
      ensures WritePosition(c, i) < |ws| && ws[WritePosition(c, i)] == (CarrierChecks[i].0, WrittenCells(c)[i])
    {
      if WritePosition(c, i) < n {
        assert ws[WritePosition(c, i)] == NewCarrierWrites(c.r)[WritePosition(c, i)];
      } else {
        assert ws[WritePosition(c, i)] == CarrierUpdates(c)[WritePosition(c, i) - n];
      }
    }
  }

  /** The loaded values of an appended row, by key: the checks before the coordinates. */
  predicate LoadsFirst(d: map<string, Cell>, c: CarrierPush)
    requires c.r.deploySystem.location.Some?
  {
    var v := LoadedCells(c);
    && "ID" in d && d["ID"] == v[0] && "Name" in d && d["Name"] == v[1]
    && "Tonnage" in d && d["Tonnage"] == v[2] && "Price" in d && d["Price"] == v[3]
    && "Market" in d && d["Market"] == v[4] && "Update" in d && d["Update"] == v[5]
    && "Current System" in d && d["Current System"] == v[6]
  }

  /** The loaded values of an appended row, by key: the coordinates and the checks after them. */
  predicate LoadsRest(d: map<string, Cell>, c: CarrierPush)
    requires c.r.deploySystem.location.Some?
  {
    var v := LoadedCells(c);
    && "X" in d && d["X"] == v[7] && "Y" in d && d["Y"] == v[8] && "Z" in d && d["Z"] == v[9]
    && "Reserve" in d && d["Reserve"] == v[10] && "Allocated" in d && d["Allocated"] == v[11]
    && "Deploy System" in d && d["Deploy System"] == v[12] && "Contact" in d && d["Contact"] == v[13]
    && "URL" in d && d["URL"] == v[14] && "Market ID" in d && d["Market ID"] == v[15]
    && "Active" in d && d["Active"] == v[16]
  }

  /** The loaded values in check order are the loaded values by key. */
  lemma LoadsInOrder(d: map<string, Cell>, c: CarrierPush)
    requires c.r.deploySystem.location.Some?
    requires forall i :: 0 <= i < |CarrierChecks| ==> CarrierChecks[i].0 in d && d[CarrierChecks[i].0] == LoadedCells(c)[i]
    ensures LoadsFirst(d, c) && LoadsRest(d, c)
  {
    LoadsFirstInOrder(d, c);
    LoadsRestInOrder(d, c);
  }

  lemma LoadsFirstInOrder(d: map<string, Cell>, c: CarrierPush)
    requires c.r.deploySystem.location.Some?
    requires forall i :: 0 <= i < 7 ==> CarrierChecks[i].0 in d && d[CarrierChecks[i].0] == LoadedCells(c)[i]
    ensures LoadsFirst(d, c)
  {
    assert CarrierChecks[0].0 == "ID" && CarrierChecks[1].0 == "Name" && CarrierChecks[2].0 == "Tonnage";
    assert CarrierChecks[3].0 == "Price" && CarrierChecks[4].0 == "Market" && CarrierChecks[5].0 == "Update";
    assert CarrierChecks[6].0 == "Current System";
  }

  lemma LoadsRestInOrder(d: map<string, Cell>, c: CarrierPush)
    requires c.r.deploySystem.location.Some?
    requires forall i :: 7 <= i < |CarrierChecks| ==> CarrierChecks[i].0 in d && d[CarrierChecks[i].0] == LoadedCells(c)[i]
    ensures LoadsRest(d, c)
  {
    assert CarrierChecks[7].0 == "X" && CarrierChecks[8].0 == "Y" && CarrierChecks[9].0 == "Z";
    assert CarrierChecks[10].0 == "Reserve" && CarrierChecks[11].0 == "Allocated" && CarrierChecks[12].0 == "Deploy System";
    assert CarrierChecks[13].0 == "Contact" && CarrierChecks[14].0 == "URL";
    assert CarrierChecks[15].0 == "Market ID" && CarrierChecks[16].0 == "Active";
  }

  /** The market cells a push writes load as the market the sheet keeps. */
  lemma MarketReloads(t: Option<Good>)
    ensures var m := MarketWrites(t);
      MarketLoad(StrText(m[2].1), Unblanked(m[0].1), Unblanked(m[1].1)) == Some(StoredMarket(t))
  {
  }

  /** The carrier an appended row's loaded values describe. */
  lemma LoadedRecord(c: CarrierPush, d: map<string, Cell>)
    requires c.r.deploySystem.location.Some? && LoadsFirst(d, c) && LoadsRest(d, c)
    ensures RowMarket(d) == Some(StoredMarket(TritiumOf(c.r.market)))
    ensures CarrierOf(d, StoredMarket(TritiumOf(c.r.market))) == Reloaded(c.r)
  {
    MarketReloads(TritiumOf(c.r.market));
  }

  /**
   * An appended row of a storable carrier, uploaded and pulled again, loads
   * as the carrier with the market the sheet keeps and its current system
   * located only when it is the deploy system.
   */
  lemma AppendedRoundTrip(headers: Row, c: CarrierPush)
    requires Storable(c.r)
    requires forall k :: 0 <= k < |AppendedWrites(c)| ==> Str(AppendedWrites(c)[k].0) in headers
    ensures DecodeCarrier(headers, ReadBack(NewRow(headers, AppendedWrites(c)))) == Ok(Some(Reloaded(c.r)))
  {
    var ws := AppendedWrites(c);
    var row := ReadBack(NewRow(headers, ws));
    AppendedAccepted(c);
    AppendedValidates(headers, c);
    var v := Validated(headers, row, CarrierChecks, false).value;
    LoadedRecord(c, v.loaded);
  }

  /** An appended row whose every cell its check accepts validates with nothing invalid. */
  lemma AppendedValidates(headers: Row, c: CarrierPush)
    requires c.r.deploySystem.location.Some?
    requires forall k :: 0 <= k < |AppendedWrites(c)| ==> Str(AppendedWrites(c)[k].0) in headers
    requires forall i :: 0 <= i < |CarrierChecks| ==>
      JudgeCell(StoredCell(WrittenCells(c)[i]), CarrierChecks[i].1, false) == Loaded(LoadedCells(c)[i])
    ensures var r := Validated(headers, ReadBack(NewRow(headers, AppendedWrites(c))), CarrierChecks, false);
      r.Ok? && r.value.invalid == [] && LoadsFirst(r.value.loaded, c) && LoadsRest(r.value.loaded, c)
  {
    var ws := AppendedWrites(c);
    var vals := WrittenCells(c);
    ChecksDistinct();
    AppendedDistinct(c);
    WritesAreChecks(c);
    forall i | 0 <= i < |CarrierChecks| ensures (CarrierChecks[i].0, vals[i]) in ws {
      assert ws[WritePosition(c, i)] == (CarrierChecks[i].0, vals[i]);
    }
    NewRowLoads(headers, ws, CarrierChecks, vals);
    var v := Validated(headers, ReadBack(NewRow(headers, ws)), CarrierChecks, false).value;
    LoadsInOrder(v.loaded, c);
  }

  lemma ChecksDistinct()
    ensures DistinctKeys(CarrierChecks)
  {
  }

  /**
   * The row a push appends for a missing carrier is its new row's writes
   * followed by its update writes, every one of them to a column the sheet
   * has.
   */
  lemma AppendedRow(t: Table, c: CarrierPush)
    requires |t| > 0 && PushItem(t, CarrierPlan(c)).Ok? && Absent(t, CarrierPlan(c))
    ensures c.r.deploySystem.location.Some?
    ensures |PushItem(t, CarrierPlan(c)).value| == |t| + 1
    ensures PushItem(t, CarrierPlan(c)).value[|t|] == NewRow(t[0], AppendedWrites(c))
    ensures forall k :: 0 <= k < |AppendedWrites(c)| ==> Str(AppendedWrites(c)[k].0) in t[0]
  {
    var p := CarrierPlan(c);
    PushItemNewRow(t, p);
    PushItemAppends(t, p);
    var nws := NewCarrierWrites(c.r);
    var row := SetCells(t[0], SheetTables.Blank(|t[0]|), nws).value;
    IdWritten(t[0], c.r);
    assert Targets(t[0], row, p.m);
    SetCellsAppend(t[0], SheetTables.Blank(|t[0]|), nws, CarrierUpdates(c));
    var ws := AppendedWrites(c);
    assert SetCells(t[0], SheetTables.Blank(|t[0]|), ws).Ok?;
    forall k | 0 <= k < |ws| ensures Str(ws[k].0) in t[0] {
      assert Writable(t[0], SheetTables.Blank(|t[0]|), ws[k].0);
    }
  }

  /** A new row holds the carrier's callsign in the `ID` column. */
  lemma IdWritten(headers: Row, x: CarrierRecord)
    requires x.deploySystem.location.Some? && SetCells(headers, SheetTables.Blank(|headers|), NewCarrierWrites(x)).Ok?
    ensures var row := SetCells(headers, SheetTables.Blank(|headers|), NewCarrierWrites(x)).value;
      Writable(headers, row, "ID") && row[Column(headers, "ID").value] == Str(x.name)
  {
    NewKeysDistinct(x);
    WrittenCellAt(headers, SheetTables.Blank(|headers|), NewCarrierWrites(x), 0);
  }

  /** A new row writes no key twice, the callsign first. */
  lemma NewKeysDistinct(x: CarrierRecord)
    requires x.deploySystem.location.Some?
    ensures Distinct(WriteKeys(NewCarrierWrites(x))) && NewCarrierWrites(x)[0] == ("ID", Str(x.name))
  {
    assert WriteKeys(NewCarrierWrites(x)) ==
      ["ID", "Name", "Deploy System", "X", "Y", "Z", "Reserve", "Allocated", "Contact", "URL", "Market ID", "Active"];
  }

  /**
   * A storable carrier a push appends, uploaded and pulled again, loads as
   * the carrier with the market the sheet keeps.
   */
  lemma PushedCarrierReloads(t: Table, c: CarrierPush)
    requires |t| > 0 && PushItem(t, CarrierPlan(c)).Ok? && Absent(t, CarrierPlan(c)) && Storable(c.r)
    ensures DecodeCarrier(t[0], ReadBack(PushItem(t, CarrierPlan(c)).value[|t|])) == Ok(Some(Reloaded(c.r)))
  {
    AppendedRow(t, c);
    AppendedRoundTrip(t[0], c);
  }

  // ---------------------------------------------------------------------------
  // The carriers as objects

  /** What a push reads of a carrier object; the colour depends on the time and on system equality. */
  function PushOf(o: Carrier, now: int, expiry: int, sameSystem: (System, System) -> bool): CarrierPush
    reads o
  {
    CarrierPush(o.Record(), o.capiStatus, o.Colour(now, expiry, sameSystem))
  }

  /** The plan of each carrier, in order. */
  function CarrierPlans(os: seq<Carrier>, now: int, expiry: int, sameSystem: (System, System) -> bool): seq<Plan>
    reads os
  {
    seq(|os|, k requires 0 <= k < |os| reads os => CarrierPlan(PushOf(os[k], now, expiry, sameSystem)))
  }

  /** `load_carriers` on the local copy: every loaded row as a new carrier object. */
  method LoadCarriers(sheet: GoogleSheet) returns (r: Result<seq<Carrier>, SheetError>)
    requires sheet.Valid()
    ensures var recs := LoadFrom(sheet.Get(SheetName), DecodeCarrier);
      && (recs.Err? ==> r == Err(recs.error))
      && (recs.Ok? ==>
            && r.Ok? && |r.value| == |recs.value|
            && forall k :: 0 <= k < |r.value| ==>
                 fresh(r.value[k]) && r.value[k].Record() == recs.value[k] && r.value[k].capiStatus.None?)
  {
    var recs := LoadSheet(sheet, SheetName, DecodeCarrier);
    if recs.Err? {
      return Err(recs.error);
    }
    var out := NewCarriers(recs.value);
    return Ok(out);
  }

  /** A new carrier object for each loaded record, in order. */
  method NewCarriers(xs: seq<CarrierRecord>) returns (os: seq<Carrier>)
    ensures |os| == |xs|
    ensures forall k :: 0 <= k < |os| ==> fresh(os[k]) && os[k].Record() == xs[k] && os[k].capiStatus.None?
  {
    os := [];
    var i := 0;
    while i < |xs|
      invariant 0 <= i <= |xs| && |os| == i
      invariant forall k :: 0 <= k < i ==> fresh(os[k]) && os[k].Record() == xs[k] && os[k].capiStatus.None?
    {
      var o := new Carrier(xs[i]);
      os := os + [o];
      i := i + 1;
    }
  }

  /** `push_carriers` on the local copy; the row count for `add_row` and the upload are left to the sheet. */
  method PushCarriers(sheet: GoogleSheet, carriers: seq<Carrier>, now: int, expiry: int, sameSystem: (System, System) -> bool)
    returns (r: Result<(), SheetError>)
    requires sheet.Valid()
    modifies sheet`local
    ensures sheet.Valid()
    ensures var e := EditFrom(old(sheet.Get(SheetName)), Keys(CarrierChecks), CarrierPlans(carriers, now, expiry, sameSystem));
      && (e.Err? ==> r == Err(e.error) && sheet.local == old(sheet.local))
      && (e.Ok? ==> r == Ok(()) && sheet.local == old(sheet.local)[SheetName := e.value])
  {
    r := EditSheet(sheet, SheetName, Keys(CarrierChecks), CarrierPlans(carriers, now, expiry, sameSystem));
  }
}
