/** The string enums of the bot: task stage, CAPI sync state, login service, depot colour. */
module Enums {

  import opened Wrappers

  /** Progress of a restock or rescue task. */
  datatype Stage = Pending | Underway | Complete | Aborted

  /** A task is open until it is completed or aborted. */
  predicate IsOpen(s: Stage) { s == Pending || s == Underway }

  function StageName(s: Stage): string
  {
    match s
    case Pending => "Pending"
    case Underway => "Underway"
    case Complete => "Complete"
    case Aborted => "Aborted"
  }

  /** `Stage(value)`: `None` stands for the `ValueError` of an unknown value. */
  function ParseStage(v: string): (r: Option<Stage>)
    ensures r.Some? ==> StageName(r.value) == v
  {
    if v == "Pending" then Some(Pending)
    else if v == "Underway" then Some(Underway)
    else if v == "Complete" then Some(Complete)
    else if v == "Aborted" then Some(Aborted)
    else None
  }

  /** Every stage survives being written by name and read back. */
  lemma StageRoundTrip(s: Stage)
    ensures ParseStage(StageName(s)) == Some(s)
  {
  }

  /** Whether an account's CAPI access is unknown, expired or current. */
  datatype State = Unlisted | Expired | Syncing

  function StateName(s: State): string
  {
    match s
    case Unlisted => "Unlisted"
    case Expired => "Expired"
    case Syncing => "Syncing"
  }

  /** The login service behind a Frontier account. */
  datatype Service = Frontier | Steam | Epic

  function ServiceName(s: Service): string
  {
    match s
    case Frontier => "Frontier"
    case Steam => "Steam"
    case Epic => "Epic"
  }

  /** `Service(value)`: `None` stands for the `ValueError` of an unknown value. */
  function ParseService(v: string): (r: Option<Service>)
    ensures r.Some? ==> ServiceName(r.value) == v
  {
    if v == "Frontier" then Some(Frontier)
    else if v == "Steam" then Some(Steam)
    else if v == "Epic" then Some(Epic)
    else None
  }

  /** Each of the three service names parses. */
  lemma ServiceWordsParse(v: string)
    requires v in ["Frontier", "Steam", "Epic"]
    ensures ParseService(v).Some?
  {
  }

  lemma ServiceRoundTrip(s: Service)
    ensures ParseService(ServiceName(s)) == Some(s)
  {
  }

  /** The status colour of a depot on the spreadsheet. */
  datatype Colour = Black | Blue | Cyan | Green | Yellow | Red | Purple

  function ColourName(c: Colour): string
  {
    match c
    case Black => "Black"
    case Blue => "Blue"
    case Cyan => "Cyan"
    case Green => "Green"
    case Yellow => "Yellow"
    case Red => "Red"
    case Purple => "Purple"
  }
}
