/**
 * The two things every storage module does with its sheet of the shared
 * spreadsheet: load the records of every row, and write records back into
 * the local copy before the upload.
 */
module Storage {

  import opened Wrappers
  import opened Sheets
  import opened SheetTables
  import opened GoogleSheets
  import opened Depots

  /** The sheets do not store positions: a loaded system sits at the origin. */
  const Origin := Point(0.0, 0.0, 0.0)

  /** The number a `float` cell holds. */
  function AsReal(c: Cell): real
  {
    if c.Float? then c.x else 0.0
  }

  /** `SPREADSHEET[name]` and the load loop over its rows. */
  function LoadFrom<T(==)>(sheet: Result<Table, SheetError>, decode: (Row, Row) -> Result<Option<T>, LoadError>): (r: Result<seq<T>, SheetError>)
    ensures sheet.Err? ==> r == Err(sheet.error)
    ensures sheet.Ok? ==> r == LoadedTable(sheet.value, decode)
  {
    match sheet
    case Err(e) => Err(e)
    case Ok(t) => LoadedTable(t, decode)
  }

  /** `SPREADSHEET[name]` and a push into it: the edited sheet, or the error that stopped the push. */
  function EditFrom(sheet: Result<Table, SheetError>, keys: seq<string>, plans: seq<Plan>): (r: Result<Table, SheetError>)
    ensures sheet.Err? ==> r == Err(sheet.error)
    ensures sheet.Ok? ==> r == PushTable(sheet.value, keys, plans)
  {
    match sheet
    case Err(e) => Err(e)
    case Ok(t) => PushTable(t, keys, plans)
  }

  /** The records of one sheet of the local copy. */
  method LoadSheet<T(==)>(sheet: GoogleSheet, name: string, decode: (Row, Row) -> Result<Option<T>, LoadError>)
    returns (r: Result<seq<T>, SheetError>)
    requires sheet.Valid()
    ensures r == LoadFrom(sheet.Get(name), decode)
  {
    var t := sheet.Get(name);
    if t.Err? {
      return Err(t.error);
    }
    r := LoadAll(t.value, decode);
  }

  /**
   * A push into one sheet of the local copy: the sheet takes the edited rows
   * when the push succeeds and is left as it was when it raises.
   */
  method EditSheet(sheet: GoogleSheet, name: string, keys: seq<string>, plans: seq<Plan>)
    returns (r: Result<(), SheetError>)
    requires sheet.Valid()
    modifies sheet`local
    ensures sheet.Valid()
    ensures var e := EditFrom(old(sheet.Get(name)), keys, plans);
      && (e.Err? ==> r == Err(e.error) && sheet.local == old(sheet.local))
      && (e.Ok? ==> r == Ok(()) && sheet.local == old(sheet.local)[name := e.value])
  {
    var t := sheet.Get(name);
    if t.Err? {
      return Err(t.error);
    }
    var edited := PushAll(t.value, keys, plans);
    if edited.Err? {
      return Err(edited.error);
    }
    sheet.Store(name, edited.value);
    return Ok(());
  }
}
