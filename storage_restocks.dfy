/**
 * The "Restock" sheet: one row per restock task, keyed by the Discord
 * message that announces it. Loading turns every valid row into a task;
 * pushing appends the tasks the sheet does not have and rewrites the open
 * ones it has.
 */
module RestockSheet {

  import opened Wrappers
  import opened Seqs
  import opened Text
  import opened Patterns
  import opened Enums
  import opened Sheets
  import opened SheetTables
  import opened GoogleSheets
  import opened Storage
  import opened Depots
  import opened Tasks

  const SheetName := "Restock"

  /** `_RESTOCK_CHECKS`, in order. */
  const RestockChecks: seq<(string, Check)> := [
    ("ID", Check(StrKind, false, Some(Callsign))),
    ("Name", Check(StrKind, false, None)),
    ("Required", Check(IntKind, false, None)),
    ("Initial", Check(IntKind, false, None)),
    ("Delivered", Check(IntKind, false, None)),
    ("System", Check(StrKind, false, None)),
    ("Sell Price", Check(IntKind, true, None)),
    ("Haulers", Check(StrKind, true, Some(IdList))),
    ("Message", Check(IntKind, false, None)),
    ("Start", Check(IntKind, false, None)),
    ("End", Check(IntKind, true, None)),
    ("State", Check(StrKind, false, Some(Words(StageWords))))
  ]

  /** The fields of a `Restock` task. */
  datatype RestockRecord = RestockRecord(
    carrier: (string, string), tritium: TritiumNeed, system: System,
    haulers: seq<int>, progress: Progress, message: int)

  // ---------------------------------------------------------------------------
  // Loading

  /** The task of a validated row; `None` for a `ValueError` of the id list or the stage. */
  function RestockOf(d: map<string, Cell>): Option<RestockRecord>
  {
    RestockFrom(
      Get(d, "ID"), Get(d, "Name"), Get(d, "Required"), Get(d, "Initial"), Get(d, "Delivered"),
      Get(d, "System"), Get(d, "Sell Price"), Get(d, "Haulers"), Get(d, "Message"), Get(d, "Start"),
      Get(d, "End"), Get(d, "State"))
  }

  /** The task built from the validated cells of its twelve keys. */
  function RestockFrom(id: Cell, name: Cell, required: Cell, initial: Cell, delivered: Cell, system: Cell,
                       sellPrice: Cell, haulers: Cell, message: Cell, start: Cell, end: Cell, state: Cell): Option<RestockRecord>
  {
    match ParseIds(haulers)
    case None => None
    case Some(hs) =>
      match ParseStage(StrText(state))
      case None => None
      case Some(stage) =>
        Some(RestockRecord(
          (StrText(id), StrText(name)),
          TritiumNeed(AsInt(required), AsInt(initial), AsInt(delivered), OptInt(sellPrice)),
          System(StrText(system), Some(Origin)),
          hs,
          Progress(stage, AsInt(start), if Truthy(end) then Some(AsInt(end)) else None),
          AsInt(message)))
  }

  /**
   * `_load_restock`: a validation `IndexError` is raised, an invalid key or a
   * bad id list or stage is a `ValueError` that skips the row.
   */
  function DecodeRestock(headers: Row, row: Row): (r: Result<Option<RestockRecord>, LoadError>)
    ensures Validated(headers, row, RestockChecks, false).Err? <==> r.Err? && r.error.Failed?
    ensures r.Ok? ==>
      && Validated(headers, row, RestockChecks, false).Ok?
      && Validated(headers, row, RestockChecks, false).value.invalid == []
    ensures r.Ok? ==> r.value.Some? && r.value.value.system.location == Some(Origin)
  {
    match Validated(headers, row, RestockChecks, false)
    case Err(e) => Err(Failed(e))
    case Ok(v) =>
      if v.invalid != [] then Err(Rejected)
      else
        match RestockOf(v.loaded)
        case None => Err(Rejected)
        case Some(x) => Ok(Some(x))
  }

  // ---------------------------------------------------------------------------
  // Pushing

  /** The writes of a new row, in the order of the checks. */
  function NewRestockWrites(x: RestockRecord): Writes
  {
    [ ("ID", Str(x.carrier.0)),
      ("Name", Str(x.carrier.1)),
      ("Required", Int(x.tritium.required)),
      ("Initial", Int(x.tritium.initial)),
      ("Delivered", Int(x.tritium.delivered)),
      ("System", Str(x.system.name)),
      ("Sell Price", IntOrNull(x.tritium.sellPrice)),
      ("Haulers", IdsCell(x.haulers)),
      ("Message", Str(IntToString(x.message))),
      ("Start", Int(x.progress.start)),
      ("End", IntOrNull(x.progress.end)),
      ("State", Str(StageName(x.progress.stage))) ]
  }

  /** The writes into an open row of the task: `End` only once the task has ended. */
  function RestockUpdates(x: RestockRecord): Writes
  {
    [ ("Required", Int(x.tritium.required)),
      ("Delivered", Int(x.tritium.delivered)),
      ("Sell Price", IntOrNull(x.tritium.sellPrice)),
      ("Haulers", IdsCell(x.haulers)) ]
    + (if x.progress.end.Some? then [("End", Int(x.progress.end.value))] else [])
    + [("State", Str(StageName(x.progress.stage)))]
  }

  /**
   * `push_restocks` for one task: rows are found by the message id written
   * as text, a missing task is appended and not updated, and completed or
   * aborted rows are never rewritten.
   */
  function RestockPlan(x: RestockRecord): Plan
  {
    Plan(Matcher("Message", Str(IntToString(x.message)), Some("State")), Some(Ok(NewRestockWrites(x))), false, RestockUpdates(x))
  }

  // ---------------------------------------------------------------------------
  // Round trip

  /**
   * A task the sheet can hold: a callsign, a name and a system that are not
   * blank, a message id and haulers that are not negative, and no end at the
   * epoch (a zero end reads back as none).
   */
  predicate Storable(x: RestockRecord)
  {
    && CallsignMatch(x.carrier.0) && x.carrier.1 != "" && x.system.name != ""
    && x.message >= 0 && (forall k :: 0 <= k < |x.haulers| ==> x.haulers[k] >= 0)
    && x.progress.end != Some(0)
  }

  /** What each check loads from a new row of the task, read back. */
  function LoadedCells(x: RestockRecord): seq<Cell>
  {
    [ Str(x.carrier.0), Str(x.carrier.1), Int(x.tritium.required), Int(x.tritium.initial),
      Int(x.tritium.delivered), Str(x.system.name), IntOrNull(x.tritium.sellPrice),
      if x.haulers == [] then Null else IdsCell(x.haulers),
      Int(x.message), Int(x.progress.start), IntOrNull(x.progress.end),
      Str(StageName(x.progress.stage)) ]
  }

  /** Every check accepts the value a new row of a storable task holds for it. */
  lemma NewRowAccepted(x: RestockRecord)
    requires Storable(x)
    ensures var ws := NewRestockWrites(x);
      forall i :: 0 <= i < |RestockChecks| ==>
        JudgeCell(StoredCell(ws[i].1), RestockChecks[i].1, false) == Loaded(LoadedCells(x)[i])
  {
    forall i | 0 <= i < |RestockChecks|
      ensures JudgeCell(StoredCell(NewRestockWrites(x)[i].1), RestockChecks[i].1, false) == Loaded(LoadedCells(x)[i])
    {
      AcceptedAt(x, i);
    }
  }

  /** The check at index `i` accepts the value a new row of a storable task holds for it. */
  lemma AcceptedAt(x: RestockRecord, i: nat)
    requires Storable(x) && i < |RestockChecks|
    ensures JudgeCell(StoredCell(NewRestockWrites(x)[i].1), RestockChecks[i].1, false) == Loaded(LoadedCells(x)[i])
  {
    var ws, c, cells := NewRestockWrites(x), RestockChecks[i].1, LoadedCells(x);
    if i == 0 {
      TextCellLoads(x.carrier.0, c);
    } else if i == 1 {
      TextCellLoads(x.carrier.1, c);
    } else if i == 2 {
      IntCellLoads(x.tritium.required, c);
    } else if i == 3 {
      IntCellLoads(x.tritium.initial, c);
    } else if i == 4 {
      IntCellLoads(x.tritium.delivered, c);
    } else if i == 5 {
      TextCellLoads(x.system.name, c);
    } else if i == 6 {
      OptIntCellLoads(x.tritium.sellPrice, c);
    } else if i == 7 {
      IdsCellLoads(x.haulers, c);
    } else if i == 8 {
      DigitsCellLoads(x.message, c);
    } else if i == 9 {
      IntCellLoads(x.progress.start, c);
    } else if i == 10 {
      OptIntCellLoads(x.progress.end, c);
    } else {
      assert OneOf(StageWords, StageName(x.progress.stage));
      TextCellLoads(StageName(x.progress.stage), c);
    }
  }

  /** The loaded values of a task's new row, by key. */
  predicate LoadsCells(d: map<string, Cell>, x: RestockRecord)
  {
    && "ID" in d && d["ID"] == Str(x.carrier.0)
    && "Name" in d && d["Name"] == Str(x.carrier.1)
    && "Required" in d && d["Required"] == Int(x.tritium.required)
    && "Initial" in d && d["Initial"] == Int(x.tritium.initial)
    && "Delivered" in d && d["Delivered"] == Int(x.tritium.delivered)
    && "System" in d && d["System"] == Str(x.system.name)
    && "Sell Price" in d && d["Sell Price"] == IntOrNull(x.tritium.sellPrice)
    && "Haulers" in d && d["Haulers"] == (if x.haulers == [] then Null else IdsCell(x.haulers))
    && "Message" in d && d["Message"] == Int(x.message)
    && "Start" in d && d["Start"] == Int(x.progress.start)
    && "End" in d && d["End"] == IntOrNull(x.progress.end)
    && "State" in d && d["State"] == Str(StageName(x.progress.stage))
  }

  /** The loaded values in check order are the loaded values by key. */
  lemma LoadsInOrder(d: map<string, Cell>, x: RestockRecord)
    requires forall i :: 0 <= i < |RestockChecks| ==> RestockChecks[i].0 in d && d[RestockChecks[i].0] == LoadedCells(x)[i]
    ensures LoadsCells(d, x)
  {
    var cells := LoadedCells(x);
    assert RestockChecks[0].0 == "ID" && RestockChecks[1].0 == "Name" && RestockChecks[2].0 == "Required";
    assert RestockChecks[3].0 == "Initial" && RestockChecks[4].0 == "Delivered" && RestockChecks[5].0 == "System";
    assert RestockChecks[6].0 == "Sell Price" && RestockChecks[7].0 == "Haulers" && RestockChecks[8].0 == "Message";
    assert RestockChecks[9].0 == "Start" && RestockChecks[10].0 == "End" && RestockChecks[11].0 == "State";
  }

  /** The task a storable record loads as, once its new row is read back. */
  lemma LoadedRecord(x: RestockRecord, d: map<string, Cell>)
    requires (forall k :: 0 <= k < |x.haulers| ==> x.haulers[k] >= 0) && x.progress.end != Some(0)
    requires LoadsCells(d, x)
    ensures RestockOf(d) == Some(x.(system := System(x.system.name, Some(Origin))))
  {
    var hc := if x.haulers == [] then Null else IdsCell(x.haulers);
    var id, name, system, state := Str(x.carrier.0), Str(x.carrier.1), Str(x.system.name), Str(StageName(x.progress.stage));
    var required, initial, delivered := Int(x.tritium.required), Int(x.tritium.initial), Int(x.tritium.delivered);
    var sellPrice, message, start, end := IntOrNull(x.tritium.sellPrice), Int(x.message), Int(x.progress.start), IntOrNull(x.progress.end);
    assert RestockOf(d) == RestockFrom(id, name, required, initial, delivered, system, sellPrice, hc, message, start, end, state);
    IdsReadBack(x.haulers);
    StageRoundTrip(x.progress.stage);
    ParsedRecord(id, name, required, initial, delivered, system, sellPrice, hc, message, start, end, state, x.haulers, x.progress.stage);
    EndReadBack(x.progress.end);
    assert (StrText(id), StrText(name)) == x.carrier;
    assert TritiumNeed(AsInt(required), AsInt(initial), AsInt(delivered), OptInt(sellPrice)) == x.tritium;
    assert Progress(x.progress.stage, AsInt(start), if Truthy(end) then Some(AsInt(end)) else None) == x.progress;
  }

  /** Once the id list and the stage parse, the task is built from the cells as they are. */
  lemma ParsedRecord(id: Cell, name: Cell, required: Cell, initial: Cell, delivered: Cell, system: Cell,
                     sellPrice: Cell, haulers: Cell, message: Cell, start: Cell, end: Cell, state: Cell,
                     hs: seq<int>, stage: Stage)
    requires ParseIds(haulers) == Some(hs) && ParseStage(StrText(state)) == Some(stage)
    ensures RestockFrom(id, name, required, initial, delivered, system, sellPrice, haulers, message, start, end, state)
      == Some(RestockRecord(
          (StrText(id), StrText(name)),
          TritiumNeed(AsInt(required), AsInt(initial), AsInt(delivered), OptInt(sellPrice)),
          System(StrText(system), Some(Origin)),
          hs,
          Progress(stage, AsInt(start), if Truthy(end) then Some(AsInt(end)) else None),
          AsInt(message)))
  {
  }

  /**
   * A storable task the push appends, uploaded and pulled again, loads as
   * the same task (its system now at the origin).
   */
  lemma RestockRoundTrip(headers: Row, x: RestockRecord)
    requires HasHeaders(headers, Keys(RestockChecks)) && Storable(x)
    ensures DecodeRestock(headers, ReadBack(NewRow(headers, NewRestockWrites(x))))
      == Ok(Some(x.(system := System(x.system.name, Some(Origin)))))
  {
    NewRowAccepted(x);
    NewRowValidates(headers, x);
    var v := Validated(headers, ReadBack(NewRow(headers, NewRestockWrites(x))), RestockChecks, false).value;
    LoadedRecord(x, v.loaded);
  }

  /** A new row writes every checked key once, in check order. */
  lemma WritesInCheckOrder(x: RestockRecord)
    ensures DistinctKeys(RestockChecks)
    ensures Distinct(WriteKeys(NewRestockWrites(x)))
    ensures WriteKeys(NewRestockWrites(x)) == Keys(RestockChecks)
  {
    ChecksDistinct();
    WritesDistinct(x);
  }

  lemma ChecksDistinct()
    ensures DistinctKeys(RestockChecks)
  {
  }

  lemma WritesDistinct(x: RestockRecord)
    ensures Distinct(WriteKeys(NewRestockWrites(x)))
  {
  }

  /** A new row whose every cell its check accepts validates with nothing invalid. */
  lemma NewRowValidates(headers: Row, x: RestockRecord)
    requires HasHeaders(headers, Keys(RestockChecks))
    requires var ws := NewRestockWrites(x);
      forall i :: 0 <= i < |RestockChecks| ==>
        JudgeCell(StoredCell(ws[i].1), RestockChecks[i].1, false) == Loaded(LoadedCells(x)[i])
    ensures var r := Validated(headers, ReadBack(NewRow(headers, NewRestockWrites(x))), RestockChecks, false);
      r.Ok? && r.value.invalid == [] && LoadsCells(r.value.loaded, x)
  {
    var ws := NewRestockWrites(x);
    var vals := seq(|ws|, k requires 0 <= k < |ws| => ws[k].1);
    WritesInCheckOrder(x);
    forall k | 0 <= k < |ws| ensures Str(ws[k].0) in headers {
      assert ws[k].0 == Keys(RestockChecks)[k];
    }
    forall i | 0 <= i < |RestockChecks| ensures (RestockChecks[i].0, vals[i]) in ws {
      assert ws[i] == (RestockChecks[i].0, vals[i]);
    }
    NewRowLoads(headers, ws, RestockChecks, vals);
    var v := Validated(headers, ReadBack(NewRow(headers, ws)), RestockChecks, false).value;
    LoadsInOrder(v.loaded, x);
  }

  // ---------------------------------------------------------------------------
  // The tasks as objects

  function RecordOf(o: Restock): RestockRecord
    reads o
  {
    RestockRecord(o.carrier, o.tritium, o.system, o.haulers, o.progress, o.message)
  }

  /** The plan of each task, in order. */
  function RestockPlans(os: seq<Restock>): seq<Plan>
    reads os
  {
    seq(|os|, k requires 0 <= k < |os| reads os => RestockPlan(RecordOf(os[k])))
  }

  /** `load_restocks` on the local copy: every valid row as a new task object. */
  method LoadRestocks(sheet: GoogleSheet) returns (r: Result<seq<Restock>, SheetError>)
    requires sheet.Valid()
    ensures var recs := LoadFrom(sheet.Get(SheetName), DecodeRestock);
      && (recs.Err? ==> r == Err(recs.error))
      && (recs.Ok? ==>
            && r.Ok? && |r.value| == |recs.value|
            && forall k :: 0 <= k < |r.value| ==> fresh(r.value[k]) && RecordOf(r.value[k]) == recs.value[k])
  {
    var recs := LoadSheet(sheet, SheetName, DecodeRestock);
    if recs.Err? {
      return Err(recs.error);
    }
    var out := NewRestocks(recs.value);
    return Ok(out);
  }

  /** A new task object for each loaded record, in order. */
  method NewRestocks(xs: seq<RestockRecord>) returns (os: seq<Restock>)
    ensures |os| == |xs| && forall k :: 0 <= k < |os| ==> fresh(os[k]) && RecordOf(os[k]) == xs[k]
  {
    os := [];
    var i := 0;
    while i < |xs|
      invariant 0 <= i <= |xs| && |os| == i
      invariant forall k :: 0 <= k < i ==> fresh(os[k]) && RecordOf(os[k]) == xs[k]
    {
      var o := NewRestock(xs[i]);
      os := os + [o];
      i := i + 1;
    }
  }

  /** The task object of a loaded record. */
  method NewRestock(x: RestockRecord) returns (o: Restock)
    ensures fresh(o) && RecordOf(o) == x
  {
    o := new Restock(x.carrier, x.tritium, x.system, x.haulers, x.progress, x.message);
  }

  /** `push_restocks` on the local copy; the upload that follows is `GoogleSheet.Push`. */
  method PushRestocks(sheet: GoogleSheet, restocks: seq<Restock>) returns (r: Result<(), SheetError>)
    requires sheet.Valid()
    modifies sheet`local
    ensures sheet.Valid()
    ensures var e := EditFrom(old(sheet.Get(SheetName)), Keys(RestockChecks), RestockPlans(restocks));
      && (e.Err? ==> r == Err(e.error) && sheet.local == old(sheet.local))
      && (e.Ok? ==> r == Ok(()) && sheet.local == old(sheet.local)[SheetName := e.value])
  {
    r := EditSheet(sheet, SheetName, Keys(RestockChecks), RestockPlans(restocks));
  }
}
