/**
 * The "Rescue" sheet: one row per rescue task, keyed by the Discord message
 * that announces it. A row with a tritium amount is a carrier rescue, one
 * without is a ship rescue.
 */
module RescueSheet {

  import opened Wrappers
  import opened Text
  import opened Seqs
  import opened Patterns
  import opened Enums
  import opened Sheets
  import opened SheetTables
  import opened GoogleSheets
  import opened Storage
  import opened Depots
  import opened Tasks

  const SheetName := "Rescue"

  /** `_RESCUE_CHECKS`, in order. */
  const RescueChecks: seq<(string, Check)> := [
    ("Client", Check(IntKind, false, None)),
    ("System", Check(StrKind, false, None)),
    ("Rescuers", Check(StrKind, true, Some(IdList))),
    ("Tritium", Check(IntKind, true, None)),
    ("Message", Check(IntKind, false, None)),
    ("Start", Check(IntKind, false, None)),
    ("End", Check(IntKind, true, None)),
    ("State", Check(StrKind, false, Some(Words(StageWords))))
  ]

  /** The fields of a `Rescue` task; `tritium` is `None` for a ship rescue. */
  datatype RescueRecord = RescueRecord(
    client: int, system: System, rescuers: seq<int>, progress: Progress, message: int, tritium: Option<int>)

  // ---------------------------------------------------------------------------
  // Loading

  /** The task of a validated row; `None` for a `ValueError` of the rescuer list or the stage. */
  function RescueOf(d: map<string, Cell>): Option<RescueRecord>
  {
    RescueFrom(
      Get(d, "Client"), Get(d, "System"), Get(d, "Rescuers"), Get(d, "Tritium"),
      Get(d, "Message"), Get(d, "Start"), Get(d, "End"), Get(d, "State"))
  }

  /** The task built from the validated cells of its eight keys. */
  function RescueFrom(client: Cell, system: Cell, rescuers: Cell, tritium: Cell,
                      message: Cell, start: Cell, end: Cell, state: Cell): Option<RescueRecord>
  {
    match ParseIds(rescuers)
    case None => None
    case Some(rs) =>
      match ParseStage(StrText(state))
      case None => None
      case Some(stage) =>
        Some(RescueRecord(
          AsInt(client),
          System(StrText(system), Some(Origin)),
          rs,
          Progress(stage, AsInt(start), if Truthy(end) then Some(AsInt(end)) else None),
          AsInt(message),
          OptInt(tritium)))
  }

  /**
   * `_load_rescue`: a validation `IndexError` is raised, an invalid key or a
   * bad rescuer list or stage is a `ValueError` that skips the row.
   */
  function DecodeRescue(headers: Row, row: Row): (r: Result<Option<RescueRecord>, LoadError>)
    ensures Validated(headers, row, RescueChecks, false).Err? <==> r.Err? && r.error.Failed?
    ensures r.Ok? ==>
      && Validated(headers, row, RescueChecks, false).Ok?
      && Validated(headers, row, RescueChecks, false).value.invalid == []
    ensures r.Ok? ==> r.value.Some? && r.value.value.system.location == Some(Origin)
  {
    match Validated(headers, row, RescueChecks, false)
    case Err(e) => Err(Failed(e))
    case Ok(v) =>
      if v.invalid != [] then Err(Rejected)
      else
        match RescueOf(v.loaded)
        case None => Err(Rejected)
        case Some(x) => Ok(Some(x))
  }

  // ---------------------------------------------------------------------------
  // Pushing

  /** The writes of a new row, in the order of the checks. */
  function NewRescueWrites(x: RescueRecord): Writes
  {
    [ ("Client", Str(IntToString(x.client))),
      ("System", Str(x.system.name)),
      ("Rescuers", IdsCell(x.rescuers)),
      ("Tritium", IntOrNull(x.tritium)),
      ("Message", Str(IntToString(x.message))),
      ("Start", Int(x.progress.start)),
      ("End", IntOrNull(x.progress.end)),
      ("State", Str(StageName(x.progress.stage))) ]
  }

  /** The writes into an open row of the task: `End` only once the task has ended. */
  function RescueUpdates(x: RescueRecord): Writes
  {
    [("Rescuers", IdsCell(x.rescuers))]
    + (if x.progress.end.Some? then [("End", Int(x.progress.end.value))] else [])
    + [("State", Str(StageName(x.progress.stage)))]
  }

  /**
   * `push_rescues` for one task: rows are found by the message id written as
   * text, a missing task is appended and not updated, and completed or
   * aborted rows are never rewritten.
   */
  function RescuePlan(x: RescueRecord): Plan
  {
    Plan(Matcher("Message", Str(IntToString(x.message)), Some("State")), Some(Ok(NewRescueWrites(x))), false, RescueUpdates(x))
  }

  // ---------------------------------------------------------------------------
  // Round trip

  /**
   * A task the sheet can hold: a client and message id and rescuers that are
   * not negative, a system that is not blank, and no end at the epoch (a
   * zero end reads back as none).
   */
  predicate Storable(x: RescueRecord)
  {
    && x.client >= 0 && x.system.name != "" && x.message >= 0
    && (forall k :: 0 <= k < |x.rescuers| ==> x.rescuers[k] >= 0)
    && x.progress.end != Some(0)
  }

  /** What each check loads from a new row of the task, read back. */
  function LoadedCells(x: RescueRecord): seq<Cell>
  {
    [ Int(x.client), Str(x.system.name), if x.rescuers == [] then Null else IdsCell(x.rescuers),
      IntOrNull(x.tritium), Int(x.message), Int(x.progress.start), IntOrNull(x.progress.end),
      Str(StageName(x.progress.stage)) ]
  }

  /** Every check accepts the value a new row of a storable task holds for it. */
  lemma NewRowAccepted(x: RescueRecord)
    requires Storable(x)
    ensures var ws := NewRescueWrites(x);
      forall i :: 0 <= i < |RescueChecks| ==>
        JudgeCell(StoredCell(ws[i].1), RescueChecks[i].1, false) == Loaded(LoadedCells(x)[i])
  {
    forall i | 0 <= i < |RescueChecks|
      ensures JudgeCell(StoredCell(NewRescueWrites(x)[i].1), RescueChecks[i].1, false) == Loaded(LoadedCells(x)[i])
    {
      AcceptedAt(x, i);
    }
  }

  /** The check at index `i` accepts the value a new row of a storable task holds for it. */
  lemma AcceptedAt(x: RescueRecord, i: nat)
    requires Storable(x) && i < |RescueChecks|
    ensures JudgeCell(StoredCell(NewRescueWrites(x)[i].1), RescueChecks[i].1, false) == Loaded(LoadedCells(x)[i])
  {
    var c := RescueChecks[i].1;
    if i == 0 {
      DigitsCellLoads(x.client, c);
    } else if i == 1 {
      TextCellLoads(x.system.name, c);
    } else if i == 2 {
      IdsCellLoads(x.rescuers, c);
    } else if i == 3 {
      OptIntCellLoads(x.tritium, c);
    } else if i == 4 {
      DigitsCellLoads(x.message, c);
    } else if i == 5 {
      IntCellLoads(x.progress.start, c);
    } else if i == 6 {
      OptIntCellLoads(x.progress.end, c);
    } else {
      assert OneOf(StageWords, StageName(x.progress.stage));
      TextCellLoads(StageName(x.progress.stage), c);
    }
  }

  /** The loaded values of a task's new row, by key. */
  predicate LoadsCells(d: map<string, Cell>, x: RescueRecord)
  {
    && "Client" in d && d["Client"] == Int(x.client)
    && "System" in d && d["System"] == Str(x.system.name)
    && "Rescuers" in d && d["Rescuers"] == (if x.rescuers == [] then Null else IdsCell(x.rescuers))
    && "Tritium" in d && d["Tritium"] == IntOrNull(x.tritium)
    && "Message" in d && d["Message"] == Int(x.message)
    && "Start" in d && d["Start"] == Int(x.progress.start)
    && "End" in d && d["End"] == IntOrNull(x.progress.end)
    && "State" in d && d["State"] == Str(StageName(x.progress.stage))
  }

  /** The loaded values in check order are the loaded values by key. */
  lemma LoadsInOrder(d: map<string, Cell>, x: RescueRecord)
    requires forall i :: 0 <= i < |RescueChecks| ==> RescueChecks[i].0 in d && d[RescueChecks[i].0] == LoadedCells(x)[i]
    ensures LoadsCells(d, x)
  {
    assert RescueChecks[0].0 == "Client" && RescueChecks[1].0 == "System" && RescueChecks[2].0 == "Rescuers";
    assert RescueChecks[3].0 == "Tritium" && RescueChecks[4].0 == "Message" && RescueChecks[5].0 == "Start";
    assert RescueChecks[6].0 == "End" && RescueChecks[7].0 == "State";
  }

  /** The task a storable record loads as, once its new row is read back. */
  lemma LoadedRecord(x: RescueRecord, d: map<string, Cell>)
    requires (forall k :: 0 <= k < |x.rescuers| ==> x.rescuers[k] >= 0) && x.progress.end != Some(0)
    requires LoadsCells(d, x)
    ensures RescueOf(d) == Some(x.(system := System(x.system.name, Some(Origin))))
  {
    var rc := if x.rescuers == [] then Null else IdsCell(x.rescuers);
    var client, system, state := Int(x.client), Str(x.system.name), Str(StageName(x.progress.stage));
    var tritium, message, start, end := IntOrNull(x.tritium), Int(x.message), Int(x.progress.start), IntOrNull(x.progress.end);
    assert RescueOf(d) == RescueFrom(client, system, rc, tritium, message, start, end, state);
    IdsReadBack(x.rescuers);
    StageRoundTrip(x.progress.stage);
    ParsedRecord(client, system, rc, tritium, message, start, end, state, x.rescuers, x.progress.stage);
    EndReadBack(x.progress.end);
    assert OptInt(tritium) == x.tritium;
    assert Progress(x.progress.stage, AsInt(start), if Truthy(end) then Some(AsInt(end)) else None) == x.progress;
  }

  /** Once the rescuer list and the stage parse, the task is built from the cells as they are. */
  lemma ParsedRecord(client: Cell, system: Cell, rescuers: Cell, tritium: Cell,
                     message: Cell, start: Cell, end: Cell, state: Cell, rs: seq<int>, stage: Stage)
    requires ParseIds(rescuers) == Some(rs) && ParseStage(StrText(state)) == Some(stage)
    ensures RescueFrom(client, system, rescuers, tritium, message, start, end, state)
      == Some(RescueRecord(
          AsInt(client),
          System(StrText(system), Some(Origin)),
          rs,
          Progress(stage, AsInt(start), if Truthy(end) then Some(AsInt(end)) else None),
          AsInt(message),
          OptInt(tritium)))
  {
  }

  /**
   * A storable task the push appends, uploaded and pulled again, loads as
   * the same task (its system now at the origin), a carrier rescue as a
   * carrier rescue and a ship rescue as a ship rescue.
   */
  lemma RescueRoundTrip(headers: Row, x: RescueRecord)
    requires HasHeaders(headers, Keys(RescueChecks)) && Storable(x)
    ensures DecodeRescue(headers, ReadBack(NewRow(headers, NewRescueWrites(x))))
      == Ok(Some(x.(system := System(x.system.name, Some(Origin)))))
  {
    NewRowAccepted(x);
    NewRowValidates(headers, x);
    var v := Validated(headers, ReadBack(NewRow(headers, NewRescueWrites(x))), RescueChecks, false).value;
    LoadedRecord(x, v.loaded);
  }

  /** A new row writes every checked key once, in check order. */
  lemma WritesInCheckOrder(x: RescueRecord)
    ensures DistinctKeys(RescueChecks)
    ensures Distinct(WriteKeys(NewRescueWrites(x)))
    ensures WriteKeys(NewRescueWrites(x)) == Keys(RescueChecks)
  {
    ChecksDistinct();
    WritesDistinct(x);
  }

  lemma ChecksDistinct()
    ensures DistinctKeys(RescueChecks)
  {
  }

  lemma WritesDistinct(x: RescueRecord)
    ensures Distinct(WriteKeys(NewRescueWrites(x)))
  {
  }

  /** A new row whose every cell its check accepts validates with nothing invalid. */
  lemma NewRowValidates(headers: Row, x: RescueRecord)
    requires HasHeaders(headers, Keys(RescueChecks))
    requires var ws := NewRescueWrites(x);
      forall i :: 0 <= i < |RescueChecks| ==>
        JudgeCell(StoredCell(ws[i].1), RescueChecks[i].1, false) == Loaded(LoadedCells(x)[i])
    ensures var r := Validated(headers, ReadBack(NewRow(headers, NewRescueWrites(x))), RescueChecks, false);
      r.Ok? && r.value.invalid == [] && LoadsCells(r.value.loaded, x)
  {
    var ws := NewRescueWrites(x);
    var vals := seq(|ws|, k requires 0 <= k < |ws| => ws[k].1);
    WritesInCheckOrder(x);
    forall k | 0 <= k < |ws| ensures Str(ws[k].0) in headers {
      assert ws[k].0 == Keys(RescueChecks)[k];
    }
    forall i | 0 <= i < |RescueChecks| ensures (RescueChecks[i].0, vals[i]) in ws {
      assert ws[i] == (RescueChecks[i].0, vals[i]);
    }
    NewRowLoads(headers, ws, RescueChecks, vals);
    var v := Validated(headers, ReadBack(NewRow(headers, ws)), RescueChecks, false).value;
    LoadsInOrder(v.loaded, x);
  }

  // ---------------------------------------------------------------------------
  // The tasks as objects

  function RecordOf(o: Rescue): RescueRecord
    reads o
  {
    RescueRecord(o.client, o.system, o.rescuers, o.progress, o.message, o.tritium)
  }

  /** The plan of each task, in order. */
  function RescuePlans(os: seq<Rescue>): seq<Plan>
    reads os
  {
    seq(|os|, k requires 0 <= k < |os| reads os => RescuePlan(RecordOf(os[k])))
  }

  /** `load_rescues` on the local copy: every valid row as a new task object. */
  method LoadRescues(sheet: GoogleSheet) returns (r: Result<seq<Rescue>, SheetError>)
    requires sheet.Valid()
    ensures var recs := LoadFrom(sheet.Get(SheetName), DecodeRescue);
      && (recs.Err? ==> r == Err(recs.error))
      && (recs.Ok? ==>
            && r.Ok? && |r.value| == |recs.value|
            && forall k :: 0 <= k < |r.value| ==> fresh(r.value[k]) && RecordOf(r.value[k]) == recs.value[k])
  {
    var recs := LoadSheet(sheet, SheetName, DecodeRescue);
    if recs.Err? {
      return Err(recs.error);
    }
    var out := NewRescues(recs.value);
    return Ok(out);
  }

  /** A new task object for each loaded record, in order. */
  method NewRescues(xs: seq<RescueRecord>) returns (os: seq<Rescue>)
    ensures |os| == |xs| && forall k :: 0 <= k < |os| ==> fresh(os[k]) && RecordOf(os[k]) == xs[k]
  {
    os := [];
    var i := 0;
    while i < |xs|
      invariant 0 <= i <= |xs| && |os| == i
      invariant forall k :: 0 <= k < i ==> fresh(os[k]) && RecordOf(os[k]) == xs[k]
    {
      var o := NewRescue(xs[i]);
      os := os + [o];
      i := i + 1;
    }
  }

  /** The task object of a loaded record: `CarrierRescue` with a tritium amount, `ShipRescue` without. */
  method NewRescue(x: RescueRecord) returns (o: Rescue)
    ensures fresh(o) && RecordOf(o) == x
  {
    o := new Rescue(x.client, x.system, x.rescuers, x.progress, x.message, x.tritium);
  }

  /** `push_rescues` on the local copy; the upload that follows is `GoogleSheet.Push`. */
  method PushRescues(sheet: GoogleSheet, rescues: seq<Rescue>) returns (r: Result<(), SheetError>)
    requires sheet.Valid()
    modifies sheet`local
    ensures sheet.Valid()
    ensures var e := EditFrom(old(sheet.Get(SheetName)), Keys(RescueChecks), RescuePlans(rescues));
      && (e.Err? ==> r == Err(e.error) && sheet.local == old(sheet.local))
      && (e.Ok? ==> r == Ok(()) && sheet.local == old(sheet.local)[SheetName := e.value])
  {
    r := EditSheet(sheet, SheetName, Keys(RescueChecks), RescuePlans(rescues));
  }
}
