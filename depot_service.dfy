/**
 * The depot service: the carrier and bridge sets, the market update that
 * feeds restock evaluation, and the passes that refresh depots from EDDN,
 * EDSM and INARA.
 */
module DepotServices {

  import opened Wrappers
  import opened Enums
  import opened Goods
  import opened Depots
  import opened Restocks
  import opened Seqs
  import Text
  import Tasks

  /** What `update_depot` writes: the system, the market and the time of the snapshot. */
  datatype Snapshot = Snapshot(system: System, market: seq<Good>, lastUpdate: int)

  function CarrierSnapshot(c: Carrier): Snapshot
    reads c
  {
    Snapshot(c.system, c.market, c.lastUpdate)
  }

  function BridgeSnapshot(b: Bridge): Snapshot
    reads b
  {
    Snapshot(b.system, b.market, b.lastUpdate)
  }

  function DepotSnapshot(d: DepotRef): Snapshot
    reads d.Object()
  {
    match d
    case CarrierDepot(c) => CarrierSnapshot(c)
    case BridgeDepot(b) => BridgeSnapshot(b)
  }

  /** The failures that end a pass. */
  datatype DepotError =
    | NoSuchCarrier               // `setattr` on the `None` that `find` returned
    | UnknownSystem               // `assert system_data`: EDSM does not know the system
    | BadInaraUrl                 // `assert search`: the URL is not an INARA station page
    | RestockFailed(e: RestockError)

  /**
   * `update_depot` for a carrier: store the snapshot, then evaluate the
   * carrier's restock task on it.
   */
  method UpdateCarrier(rs: RestockService, depot: Carrier, system: System, market: seq<Good>, timestamp: int,
                       messageId: int, now: int) returns (r: Result<(), DepotError>)
    requires rs.Valid()
    modifies depot, rs, rs.restocks
    ensures rs.Valid() && rs.statusChanges == old(rs.statusChanges)
    ensures CarrierSnapshot(depot) == Snapshot(system, market, timestamp)
    ensures depot.activeDepot == old(depot.activeDepot) && depot.capiStatus == old(depot.capiStatus)
    ensures r.Err? ==> r.error == RestockFailed(NoOpenTask)
    // `try_restock` on the stored market: the task opened or reconciled, or the failure to find it.
    ensures rs.Restocked(depot, messageId, now, r.Ok?)
    ensures !Evaluates(depot.activeDepot, TritiumOf(market)) ==>
      && r.Ok? && rs.restocks == old(rs.restocks) && depot.restockStatus == old(depot.restockStatus)
      && forall t :: t in rs.restocks ==> unchanged(t)
    ensures depot.name != "" && old(rs.Synced(depot)) && old(rs.UniqueOpen()) ==> rs.Synced(depot) && rs.UniqueOpen()
    ensures old(rs.restocks) <= rs.restocks && forall k :: 0 <= k < |rs.restocks| ==> rs.restocks[k] in old(rs.restocks) || fresh(rs.restocks[k])
  {
    StoreSnapshot(rs, depot, system, market, timestamp);
    label Stored:
    var tried := rs.TryRestock(depot, messageId, now);
    assert rs.Restocked@Stored(depot, messageId, now, tried.Ok?);
    if tried.Err? {
      return Err(RestockFailed(tried.error));
    }
    return Ok(());
  }

  /** The assignments of `update_depot`; they leave the restock tasks' keys as they were. */
  method StoreSnapshot(rs: RestockService, depot: Carrier, system: System, market: seq<Good>, timestamp: int)
    modifies depot
    ensures CarrierSnapshot(depot) == Snapshot(system, market, timestamp)
    ensures depot.activeDepot == old(depot.activeDepot) && depot.capiStatus == old(depot.capiStatus)
    ensures depot.restockStatus == old(depot.restockStatus) && rs.Keys() == old(rs.Keys())
  {
    depot.market, depot.system, depot.lastUpdate := market, system, timestamp;
  }

  /**
   * Step `i` of `verify`: the evaluation of carrier `i` of `ds` for message
   * `messageId` at `now`, and whether it succeeded. The two-state lemmas
   * about a step take it as their one argument.
   */
  datatype Step = Step(ds: DepotService, i: nat, messageId: int, now: int, ok: bool)

  /** What a step's `try_restock` means for the carrier it evaluated. */
  twostate lemma StepOutcome(s: Step)
    requires s.ds.carriers == old(s.ds.carriers) && s.i < |s.ds.carriers|
    requires s.ds.restock.Restocked(s.ds.carriers[s.i], s.messageId, s.now, s.ok)
    ensures var c := s.ds.carriers[s.i];
      && (s.ok ==> s.ds.Visited(c, old(s.ds.BeforeOf(c)), |old(s.ds.restock.restocks)|, s.messageId, s.now))
      && (!s.ok ==> Fails(c.Record(), old(s.ds.BeforeOf(c))))
    ensures var c, rs := s.ds.carriers[s.i], s.ds.restock;
      && (!Evaluated(c.Record()) ==> c.restockStatus == old(c.restockStatus))
      && (s.ok ==> StatusAfter(c.Record(), old(c.restockStatus), c.restockStatus))
      && (s.ok && OpensTask(c.Record(), old(c.restockStatus)) ==>
           |rs.restocks| == |old(rs.restocks)| + 1 && TaskFor(rs.restocks[|old(rs.restocks)|], c.Record(), s.messageId))
      && (s.ok && !OpensTask(c.Record(), old(c.restockStatus)) && old(c.restockStatus).None? ==>
           rs.restocks == old(rs.restocks))
  {
    var c, rs := s.ds.carriers[s.i], s.ds.restock;
    var b := old(s.ds.BeforeOf(c));
    if s.ok && Evaluated(c.Record()) {
      if b.status.None? {
        if OpensTask(c.Record(), None) {
          assert NewTask(rs.restocks[|old(rs.restocks)|], c.Record(), s.messageId, s.now);
        }
      } else {
        assert b.found.Some? && rs.restocks[b.found.value.index] == old(rs.FindSpec(ByCallsign(c.name))).value;
      }
    }
  }

  /** A step for a carrier with a callsign leaves every other callsign's status and task as they were. */
  twostate lemma StepKeepsOthers(s: Step)
    requires s.ds.carriers == old(s.ds.carriers) && s.i < |s.ds.carriers| && Distinct(s.ds.carriers)
    requires s.ds.carriers[s.i].name != ""
    requires forall k :: 0 <= k < |s.ds.carriers| && k != s.i ==> unchanged(s.ds.carriers[k])
    requires old(s.ds.restock.restocks) <= s.ds.restock.restocks
    requires forall u :: u in old(s.ds.restock.restocks) && u.carrier.0 != s.ds.carriers[s.i].name ==> unchanged(u)
    requires forall j :: |old(s.ds.restock.restocks)| <= j < |s.ds.restock.restocks| ==>
      s.ds.restock.restocks[j].carrier.0 == s.ds.carriers[s.i].name
    ensures forall k :: 0 <= k < |s.ds.carriers| && s.ds.carriers[k].name != "" && s.ds.carriers[k].name != s.ds.carriers[s.i].name ==>
      s.ds.BeforeOf(s.ds.carriers[k]) == old(s.ds.BeforeOf(s.ds.carriers[k]))
  {
    var cs, rs := s.ds.carriers, s.ds.restock;
    forall k | 0 <= k < |cs| && cs[k].name != "" && cs[k].name != cs[s.i].name
      ensures s.ds.BeforeOf(cs[k]) == old(s.ds.BeforeOf(cs[k]))
    {
      var ks, ks' := old(rs.Keys()), rs.Keys();
      forall j | 0 <= j < |ks|
        ensures ks'[j].callsign == ks[j].callsign && (ks[j].callsign == cs[k].name ==> ks'[j] == ks[j])
      {
        assert rs.restocks[j] == old(rs.restocks)[j];
      }
      FirstMatchOthers(ks, ks', cs[k].name);
      assert rs.FindSpec(ByCallsign(cs[k].name)) == old(rs.FindSpec(ByCallsign(cs[k].name)));
    }
  }

  /**
   * The first `i` carriers of a `verify` over `ds` that started from
   * `befores` with `base` tasks, announcing each callsign's task as
   * `messages` gives it at `now`.
   */
  datatype Pass = Pass(ds: DepotService, i: nat, befores: seq<Before>, base: nat, messages: seq<int>, now: int, ok: bool)

  /**
   * What a `verify` starts from: each carrier's data, CAPI state and what it
   * finds, the tasks and status changes, and the message for each carrier.
   */
  datatype Start = Start(records: seq<CarrierRecord>, capis: seq<Option<State>>, befores: seq<Before>,
    tasks: seq<Tasks.Restock>, changes: seq<(string, Stage)>, messages: seq<int>)

  /** Step `i` of a `verify` over distinct callsigns keeps what the earlier steps did to their carriers. */
  twostate lemma PassKeeps(p: Pass)
    requires p.ds.carriers == old(p.ds.carriers) && p.i < |p.ds.carriers| == |p.befores| == |p.messages| && p.ds.Callsigns()
    requires forall k :: 0 <= k < |p.ds.carriers| && k != p.i ==> unchanged(p.ds.carriers[k])
    requires p.base <= |old(p.ds.restock.restocks)| && old(p.ds.restock.restocks) <= p.ds.restock.restocks
    requires forall u :: u in old(p.ds.restock.restocks) && u.carrier.0 != p.ds.carriers[p.i].name ==> unchanged(u)
    requires forall k :: 0 <= k < p.i && p.befores[k].found.Some? ==>
      p.befores[k].found.value.index < p.base &&
      old(p.ds.restock.restocks[p.befores[k].found.value.index].carrier.0) == p.ds.carriers[k].name
    requires forall k :: 0 <= k < p.i ==>
      old(p.ds.Visited(p.ds.carriers[k], p.befores[k], p.base, p.messages[k], p.now))
    ensures forall k :: 0 <= k < p.i ==>
      p.ds.Visited(p.ds.carriers[k], p.befores[k], p.base, p.messages[k], p.now)
  {
    var cs, rs := p.ds.carriers, p.ds.restock;
    forall k | 0 <= k < p.i
      ensures p.ds.Visited(cs[k], p.befores[k], p.base, p.messages[k], p.now)
    {
      var c, b, m := cs[k], p.befores[k], p.messages[k];
      var rec := c.Record();
      assert c.name != cs[p.i].name;
      if Evaluated(rec) && b.status.None? && OpensTask(rec, None) {
        var j :| p.base <= j < |old(rs.restocks)| && old(NewTask(rs.restocks[j], rec, m, p.now));
        assert rs.restocks[j] == old(rs.restocks)[j];
        assert NewTask(rs.restocks[j], rec, m, p.now);
      }
    }
  }

  /** Step `i` of a `verify` that succeeded adds carrier `i` to the evaluated ones. */
  twostate lemma AdvanceEvaluated(p: Pass)
    requires p.ds.carriers == old(p.ds.carriers) && p.i < |p.ds.carriers|
    requires old(p.ds.EvaluatedUpTo(p.i, p.befores, p.base, p.messages))
    requires forall k :: 0 <= k < |p.ds.carriers| && k != p.i ==> unchanged(p.ds.carriers[k])
    requires old(p.ds.restock.restocks) <= p.ds.restock.restocks
    requires var c, rs := p.ds.carriers[p.i], p.ds.restock;
      && c.Record() == old(c.Record())
      && (!Evaluated(c.Record()) ==> c.restockStatus == old(c.restockStatus))
      && (p.ok ==> StatusAfter(c.Record(), old(c.restockStatus), c.restockStatus))
      && (p.ok && OpensTask(c.Record(), old(c.restockStatus)) ==>
           |rs.restocks| == |old(rs.restocks)| + 1 && TaskFor(rs.restocks[|old(rs.restocks)|], c.Record(), p.messages[p.i]))
    ensures p.ok ==> p.ds.EvaluatedUpTo(p.i + 1, p.befores, p.base, p.messages)
  {
  }

  /** Step `i` of a `verify` over distinct callsigns that succeeded adds carrier `i` to the visited ones. */
  twostate lemma AdvanceVisited(p: Pass)
    requires p.ds.carriers == old(p.ds.carriers) && p.i < |p.ds.carriers|
    requires old(p.ds.EvaluatedUpTo(p.i, p.befores, p.base, p.messages))
    requires old(p.ds.VisitedUpTo(p.i, p.befores, p.base, p.messages, p.now))
    requires forall k :: 0 <= k < |p.ds.carriers| && k != p.i ==> unchanged(p.ds.carriers[k])
    requires p.ds.carriers[p.i].Record() == old(p.ds.carriers[p.i].Record())
    requires old(p.ds.restock.restocks) <= p.ds.restock.restocks
    requires forall u :: u in old(p.ds.restock.restocks) && u.carrier.0 != p.ds.carriers[p.i].name ==> unchanged(u)
    requires p.ok ==> p.ds.Visited(p.ds.carriers[p.i], old(p.ds.BeforeOf(p.ds.carriers[p.i])),
      |old(p.ds.restock.restocks)|, p.messages[p.i], p.now)
    requires forall k :: 0 <= k < |p.ds.carriers| && p.ds.carriers[k].name != "" && p.ds.carriers[k].name != p.ds.carriers[p.i].name ==>
      p.ds.BeforeOf(p.ds.carriers[k]) == old(p.ds.BeforeOf(p.ds.carriers[k]))
    ensures p.ok ==> p.ds.VisitedUpTo(p.i + 1, p.befores, p.base, p.messages, p.now)
  {
    if p.ok {
      PassKeeps(p);
    }
  }

  /** A `verify` whose every step succeeded: what the steps established, stated against the state it started from. */
  twostate lemma Finished(p: Pass)
    requires p.ds.carriers == old(p.ds.carriers) && p.i == |p.ds.carriers| && p.base == |old(p.ds.restock.restocks)|
    requires forall k :: 0 <= k < |p.ds.carriers| ==> p.ds.carriers[k].Record() == old(p.ds.carriers[k].Record())
    requires p.ds.EvaluatedUpTo(p.i, p.befores, p.base, p.messages)
    requires forall k :: 0 <= k < |p.ds.carriers| ==> p.befores[k] == old(p.ds.BeforeOf(p.ds.carriers[k]))
    ensures forall k :: 0 <= k < |p.ds.carriers| && !Evaluated(p.ds.carriers[k].Record()) ==>
      p.ds.carriers[k].restockStatus == old(p.ds.carriers[k].restockStatus)
    ensures forall k :: 0 <= k < |p.ds.carriers| ==>
      StatusAfter(p.ds.carriers[k].Record(), old(p.ds.carriers[k].restockStatus), p.ds.carriers[k].restockStatus)
    ensures forall k :: 0 <= k < |p.ds.carriers| && OpensTask(p.ds.carriers[k].Record(), old(p.ds.carriers[k].restockStatus)) ==>
      exists j :: p.base <= j < |p.ds.restock.restocks| && TaskFor(p.ds.restock.restocks[j], p.ds.carriers[k].Record(), p.messages[k])
    ensures p.ds.VisitedUpTo(p.i, p.befores, p.base, p.messages, p.now) ==> forall k :: 0 <= k < |p.ds.carriers| ==>
      p.ds.Visited(p.ds.carriers[k], old(p.ds.BeforeOf(p.ds.carriers[k])), p.base, p.messages[k], p.now)
  {
  }

  /** `update_depot` for a bridge: store the snapshot. */
  method UpdateBridge(depot: Bridge, system: System, market: seq<Good>, timestamp: int)
    modifies depot
    ensures BridgeSnapshot(depot) == Snapshot(system, market, timestamp)
  {
    depot.market, depot.system, depot.lastUpdate := market, system, timestamp;
  }

  /** `update_depot`: store the snapshot; only a carrier then has its restock task evaluated. */
  method UpdateDepot(rs: RestockService, depot: DepotRef, system: System, market: seq<Good>, timestamp: int,
                     messageId: int, now: int) returns (r: Result<(), DepotError>)
    requires rs.Valid()
    modifies depot.Object(), rs, rs.restocks
    ensures rs.Valid() && rs.statusChanges == old(rs.statusChanges)
    ensures r.Err? ==> r.error == RestockFailed(NoOpenTask)
    ensures old(rs.restocks) <= rs.restocks && forall k :: 0 <= k < |rs.restocks| ==> rs.restocks[k] in old(rs.restocks) || fresh(rs.restocks[k])
    ensures depot.BridgeDepot? ==>
      && BridgeSnapshot(depot.bridge) == Snapshot(system, market, timestamp)
      && r.Ok? && rs.restocks == old(rs.restocks) && forall t :: t in rs.restocks ==> unchanged(t)
    ensures depot.CarrierDepot? ==>
      var c := depot.carrier;
      && CarrierSnapshot(c) == Snapshot(system, market, timestamp)
      && c.activeDepot == old(c.activeDepot) && c.capiStatus == old(c.capiStatus)
      && (!Evaluates(c.activeDepot, TritiumOf(market)) ==> r.Ok? && rs.restocks == old(rs.restocks))
      && rs.Restocked(c, messageId, now, r.Ok?)
  {
    match depot
    case BridgeDepot(b) =>
      UpdateBridge(b, system, market, timestamp);
      return Ok(());
    case CarrierDepot(c) =>
      r := UpdateCarrier(rs, c, system, market, timestamp, messageId, now);
  }

  /** What EDSM reports for a market: the goods, the system and the time of the data, if any. */
  datatype Overview = Overview(market: seq<Good>, system: System, lastUpdate: Option<int>)

  /** The snapshot a depot holds after the EDSM pass reads `o` for it: only newer data is taken. */
  function EdsmApplied(s: Snapshot, o: Overview): (r: Snapshot)
    ensures r.lastUpdate >= s.lastUpdate
    ensures r != s ==> o.lastUpdate.Some? && r == Snapshot(o.system, o.market, o.lastUpdate.value)
    ensures o.lastUpdate.None? || o.lastUpdate.value <= s.lastUpdate ==> r == s
  {
    if o.lastUpdate.None? || o.lastUpdate.value <= s.lastUpdate then s
    else Snapshot(o.system, o.market, o.lastUpdate.value)
  }

  /** Reading the same EDSM data twice changes nothing the second time. */
  lemma EdsmAppliedIdempotent(s: Snapshot, o: Overview)
    ensures EdsmApplied(EdsmApplied(s, o), o) == EdsmApplied(s, o)
  {
  }

  /** What INARA reports for a station page: a fetch error, or the goods, system name and data time. */
  datatype InaraOutcome =
    | InaraError
    | InaraOverview(market: seq<Good>, systemName: string, lastUpdate: int)

  const InaraPrefix: string := "https://inara.cz/station/"

  /**
   * The station id of an INARA URL, as `^https:\/\/inara\.cz\/station\/(\d+)$`
   * extracts it: `$` also matches before one final newline.
   */
  function InaraId(url: string): (r: Option<nat>)
    ensures r.Some? ==> Text.StartsWith(url, InaraPrefix) && |url| > |InaraPrefix|
  {
    if !Text.StartsWith(url, InaraPrefix) then None
    else
      var rest := url[|InaraPrefix|..];
      var digits := if |rest| > 0 && rest[|rest| - 1] == '\n' then rest[..|rest| - 1] else rest;
      Text.ParseNat(digits)
  }

  /** The URL of station `n`, with or without a final newline, gives back `n`. */
  lemma InaraIdOfStation(n: nat)
    ensures InaraId(InaraPrefix + Text.NatToString(n)) == Some(n)
    ensures InaraId(InaraPrefix + Text.NatToString(n) + "\n") == Some(n)
  {
    var d := Text.NatToString(n);
    Text.NatToStringRoundTrip(n);
    assert (InaraPrefix + d)[|InaraPrefix|..] == d;
    assert (InaraPrefix + d + "\n")[|InaraPrefix|..] == d + "\n";
    assert (d + "\n")[..|d|] == d;
  }

  /**
   * The step of the INARA pass for one carrier: `Err` ends the pass, `Ok`
   * holds the carrier's snapshot afterwards. A carrier that is not polled, whose
   * fetch fails, whose market is empty or whose data is not newer keeps its
   * snapshot; the system is resolved, and may fail, before the market is checked.
   */
  function InaraStep(s: Snapshot, url: string, polled: bool, fetch: nat -> InaraOutcome,
                     resolve: string -> Option<System>): (r: Result<Snapshot, DepotError>)
    ensures !polled ==> r == Ok(s)
    ensures polled && InaraId(url).None? ==> r == Err(BadInaraUrl)
    ensures r.Ok? && r.value != s ==> r.value.lastUpdate > s.lastUpdate && r.value.market != []
  {
    if !polled then Ok(s)
    else if InaraId(url).None? then Err(BadInaraUrl)
    else
      match fetch(InaraId(url).value)
      case InaraError => Ok(s)
      case InaraOverview(market, systemName, lastUpdate) =>
        if s.system.name != systemName && resolve(systemName).None? then Err(UnknownSystem)
        else
          var system := if s.system.name != systemName then resolve(systemName).value else s.system;
          if market == [] || lastUpdate <= s.lastUpdate then Ok(s)
          else Ok(Snapshot(system, market, lastUpdate))
  }

  /** The new snapshot the INARA step writes, when it writes one. */
  predicate InaraWrites(s: Snapshot, url: string, polled: bool, fetch: nat -> InaraOutcome,
                        resolve: string -> Option<System>)
  {
    var r := InaraStep(s, url, polled, fetch, resolve);
    r.Ok? && r.value != s
  }

  /** `try_restock` looks at carrier `c`: it is an active depot that lists tritium and buys none. */
  predicate Evaluated(c: CarrierRecord)
  {
    Evaluates(c.activeDepot, TritiumOf(c.market))
  }

  /** `try_restock` opens a task for carrier `c`: it is evaluated, has no task open and is at or below its reserve. */
  predicate OpensTask(c: CarrierRecord, status: Option<Stage>)
  {
    Evaluated(c) && status.None? && TritiumOf(c.market).value.stock.quantity <= c.reserveTritium
  }

  /**
   * The restock status of an evaluated carrier after `try_restock`: without a
   * task it becomes `Pending` exactly when one opens; with one it stays, or
   * clears when the task closes.
   */
  predicate StatusAfter(c: CarrierRecord, before: Option<Stage>, after: Option<Stage>)
  {
    Evaluated(c) ==>
      if before.None? then after == (if OpensTask(c, None) then Some(Pending) else None)
      else after in {before, None}
  }

  /** A task opened for carrier `c`, announced by message `messageId`. */
  predicate TaskFor(t: Tasks.Restock, c: CarrierRecord, messageId: int)
  {
    t.carrier == (c.name, c.displayName) && t.system == c.system && t.message == messageId
  }

  /**
   * The open task a callsign query found, by its position among the tasks,
   * with the fields an evaluation may change as they then were.
   */
  datatype Found = Found(index: nat, tritium: Tasks.TritiumNeed, progress: Tasks.Progress, haulers: seq<int>)

  /** A carrier's restock status and the open task `find` returned for it, before `try_restock`. */
  datatype Before = Before(status: Option<Stage>, found: Option<Found>)

  /** `try_restock` fails on carrier `c`: its status claims a task that `find` does not return. */
  predicate Fails(c: CarrierRecord, b: Before)
  {
    Evaluated(c) && b.status.Some? && b.found.None?
  }

  /** Task `t` as `_new_restock` opens it for carrier `c`: the missing tritium, Pending since `now`, no haulers. */
  predicate NewTask(t: Tasks.Restock, c: CarrierRecord, messageId: int, now: int)
    reads t
  {
    && TritiumOf(c.market).Some?
    && var need := c.allocatedSpace - TritiumOf(c.market).value.stock.quantity;
    && TaskFor(t, c, messageId)
    && t.tritium == Tasks.TritiumNeed(need, need, 0, None)
    && t.progress == Tasks.Progress(Pending, now, None) && t.haulers == []
  }

  /**
   * Open task `t`, found as `f`, after the evaluation of carrier `c` at time `now`: it
   * holds the reconciled amounts, and at the threshold it is Complete and the
   * carrier's status goes from `before` to `None`; below it nothing else changes.
   */
  predicate TaskReconciled(f: Found, t: Tasks.Restock, c: CarrierRecord, before: Option<Stage>, after: Option<Stage>, now: int)
    reads t
  {
    && TritiumOf(c.market).Some?
    && var trit := TritiumOf(c.market).value;
    && var rec := Reconcile(trit.stock.quantity, c.allocatedSpace, f.tritium.required);
    && t.tritium.delivered == rec.delivered && t.tritium.required == rec.target
    && t.tritium.initial == f.tritium.initial && t.haulers == f.haulers
    && (ReachesThreshold(rec.delivered, rec.target) ==>
          && t.progress == f.progress.(stage := Complete, end := Some(now))
          && t.tritium.sellPrice == PriceOrNone(trit.stock.price) && after == None)
    && (!ReachesThreshold(rec.delivered, rec.target) ==>
          t.progress == f.progress && t.tritium.sellPrice == f.tritium.sellPrice && after == before)
  }

  function DisplayNameKey(c: Carrier): string
  {
    c.displayName
  }

  function BridgeNameKey(b: Bridge): string
  {
    b.name
  }

  predicate CarrierMatches(c: Carrier, callsign: string, displayName: string)
  {
    (callsign == "" || c.name == callsign) && (displayName == "" || c.displayName == displayName)
  }

  class DepotService {
    /** The carrier set, in its iteration order. */
    var carriers: seq<Carrier>
    /** The bridge set, in its iteration order. */
    var bridges: seq<Bridge>
    /** The restock service whose tasks the carriers feed. */
    const restock: RestockService

    ghost predicate Valid()
      reads this, restock
    {
      restock.Valid() && Distinct(carriers) && Distinct(bridges)
    }

    constructor (restock: RestockService)
      requires restock.Valid()
      ensures Valid() && carriers == [] && bridges == [] && this.restock == restock
    {
      carriers, bridges, this.restock := [], [], restock;
    }

    /** `_Carriers.find`: the first carrier matching the non-empty criteria. */
    function FindCarrierSpec(callsign: string, displayName: string): (r: Option<Carrier>)
      reads this
      ensures r.Some? ==> r.value in carriers && CarrierMatches(r.value, callsign, displayName)
      ensures r.None? <==> forall c :: c in carriers ==> !CarrierMatches(c, callsign, displayName)
    {
      var i := FirstWhere(carriers, c => CarrierMatches(c, callsign, displayName));
      if i < |carriers| then Some(carriers[i]) else None
    }

    method FindCarrier(callsign: string, displayName: string) returns (r: Option<Carrier>)
      ensures r == FindCarrierSpec(callsign, displayName)
    {
      var i := 0;
      while i < |carriers|
        invariant 0 <= i <= |carriers|
        invariant forall j :: 0 <= j < i ==> !CarrierMatches(carriers[j], callsign, displayName)
      {
        if CarrierMatches(carriers[i], callsign, displayName) {
          return Some(carriers[i]);
        }
        i := i + 1;
      }
      return None;
    }

    /** `_Bridges.find`: the first bridge with exactly this name. */
    function FindBridge(name: string): (r: Option<Bridge>)
      reads this
      ensures r.Some? ==> r.value in bridges && r.value.name == name
      ensures r.None? <==> forall b :: b in bridges ==> b.name != name
    {
      var i := FirstWhere(bridges, (b: Bridge) => b.name == name);
      if i < |bridges| then Some(bridges[i]) else None
    }

    /**
     * `depots`: the carriers in display-name order, then the bridges in name
     * order, every depot once.
     */
    function Depots(): (r: seq<DepotRef>)
      reads this
      ensures |r| == |carriers| + |bridges|
      ensures forall i :: 0 <= i < |carriers| ==> r[i].CarrierDepot?
      ensures forall i :: |carriers| <= i < |r| ==> r[i].BridgeDepot?
      ensures forall k :: 0 <= k < |carriers| ==> CarrierDepot(carriers[k]) in r
      ensures forall k :: 0 <= k < |bridges| ==> BridgeDepot(bridges[k]) in r
      ensures forall i :: 0 <= i < |r| && r[i].CarrierDepot? ==> r[i].carrier in carriers
      ensures forall i :: 0 <= i < |r| && r[i].BridgeDepot? ==> r[i].bridge in bridges
    {
      var sc := SortBy(carriers, DisplayNameKey);
      var sb := SortBy(bridges, BridgeNameKey);
      SameElements(carriers, sc);
      SameElements(bridges, sb);
      Tagged(sc, sb)
    }

    /** `depots` lists the carriers by display name and the bridges by name. */
    lemma DepotsOrdered()
      ensures var r := Depots();
        && (forall i, j :: 0 <= i < j < |carriers| ==> Text.StrLe(r[i].carrier.displayName, r[j].carrier.displayName))
        && (forall i, j :: |carriers| <= i < j < |r| ==> Text.StrLe(r[i].bridge.name, r[j].bridge.name))
    {
      var sc := SortBy(carriers, DisplayNameKey);
      var sb := SortBy(bridges, BridgeNameKey);
      assert Depots() == Tagged(sc, sb);
    }

    /** The carriers, then the bridges, as depots. */
    static function Tagged(sc: seq<Carrier>, sb: seq<Bridge>): (r: seq<DepotRef>)
      ensures |r| == |sc| + |sb|
      ensures forall i :: 0 <= i < |sc| ==> r[i] == CarrierDepot(sc[i])
      ensures forall i :: 0 <= i < |sb| ==> r[|sc| + i] == BridgeDepot(sb[i])
    {
      seq(|sc|, i requires 0 <= i < |sc| => CarrierDepot(sc[i])) +
      seq(|sb|, i requires 0 <= i < |sb| => BridgeDepot(sb[i]))
    }

    /** `pull`: take the loaded depots and give every carrier the stage of its open restock task. */
    method Pull(loadedBridges: seq<Bridge>, loadedCarriers: seq<Carrier>)
      requires restock.Valid() && Distinct(loadedBridges) && Distinct(loadedCarriers)
      modifies this, loadedCarriers
      ensures Valid() && bridges == loadedBridges && carriers == loadedCarriers
      ensures forall k :: 0 <= k < |carriers| ==> carriers[k].restockStatus == restock.StatusOf(carriers[k].name)
      ensures forall k :: 0 <= k < |loadedCarriers| ==>
        && loadedCarriers[k].Record() == old(loadedCarriers[k].Record())
        && loadedCarriers[k].capiStatus == old(loadedCarriers[k].capiStatus)
    {
      bridges, carriers := loadedBridges, loadedCarriers;
      SyncStatuses(loadedCarriers);
    }

    /** The `pull` loop: each carrier takes the stage of its open restock task. */
    method SyncStatuses(cs: seq<Carrier>)
      requires Distinct(cs)
      modifies cs
      ensures forall k :: 0 <= k < |cs| ==> cs[k].restockStatus == restock.StatusOf(cs[k].name)
      ensures forall k :: 0 <= k < |cs| ==>
        && cs[k].Record() == old(cs[k].Record())
        && cs[k].capiStatus == old(cs[k].capiStatus)
    {
      ghost var keys := restock.Keys();
      var i := 0;
      while i < |cs|
        invariant 0 <= i <= |cs|
        invariant restock.Keys() == keys
        invariant forall k :: 0 <= k < i ==> cs[k].restockStatus == StatusIn(keys, cs[k].name)
        invariant forall k :: 0 <= k < |cs| ==>
          && cs[k].Record() == old(cs[k].Record())
          && cs[k].capiStatus == old(cs[k].capiStatus)
      {
        label sync:
        SyncStatus(cs[i]);
        forall k | 0 <= k < |cs| && k != i
          ensures cs[k].restockStatus == old@sync(cs[k].restockStatus)
          ensures cs[k].Record() == old@sync(cs[k].Record()) && cs[k].capiStatus == old@sync(cs[k].capiStatus)
        {
          assert cs[k] != cs[i];
        }
        i := i + 1;
      }
    }

    /** Every carrier has a callsign, and no two share one. */
    predicate Callsigns()
      reads this, carriers
    {
      && (forall k :: 0 <= k < |carriers| ==> carriers[k].name != "")
      && forall a, b :: 0 <= a < |carriers| && 0 <= b < |carriers| && a != b ==> carriers[a].name != carriers[b].name
    }

    /** Carrier `c`'s restock status and the open task `find` returns for its callsign. */
    function BeforeOf(c: Carrier): (b: Before)
      reads c, restock, restock.restocks
      ensures b.found.Some? <==> restock.FindSpec(ByCallsign(c.name)).Some?
      ensures b.found.Some? ==>
        b.found.value.index < |restock.restocks| && restock.restocks[b.found.value.index] == restock.FindSpec(ByCallsign(c.name)).value
      ensures b.found.Some? && c.name != "" ==> restock.restocks[b.found.value.index].carrier.0 == c.name
    {
      var i := FirstMatch(restock.Keys(), ByCallsign(c.name));
      Before(c.restockStatus,
        if i < |restock.restocks| then
          var t := restock.restocks[i]; Some(Found(i, t.tritium, t.progress, t.haulers))
        else None)
    }

    /**
     * Carrier `c` after a `try_restock` that succeeded from `b` with `base`
     * tasks: an ignored carrier keeps its status; one without a task gets the
     * new task and Pending at or below its reserve, and otherwise no status;
     * one with a task has it reconciled.
     */
    predicate Visited(c: Carrier, b: Before, base: nat, messageId: int, now: int)
      reads c, restock, restock.restocks
    {
      var rec := c.Record();
      && !Fails(rec, b)
      && (!Evaluated(rec) ==> c.restockStatus == b.status)
      && (Evaluated(rec) && b.status.None? ==>
            if OpensTask(rec, None) then
              && c.restockStatus == Some(Pending)
              && exists j :: base <= j < |restock.restocks| && NewTask(restock.restocks[j], rec, messageId, now)
            else c.restockStatus == None)
      && (Evaluated(rec) && b.status.Some? ==>
            && b.found.value.index < |restock.restocks|
            && TaskReconciled(b.found.value, restock.restocks[b.found.value.index], rec, b.status, c.restockStatus, now))
    }

    /** The state `verify` starts from, announcing each callsign's task as `messageFor` gives it. */
    ghost function StartOf(messageFor: string -> int): (st: Start)
      reads this, carriers, restock, restock.restocks
      ensures |st.records| == |st.capis| == |st.befores| == |st.messages| == |carriers|
      ensures st.tasks == restock.restocks && st.changes == restock.statusChanges
      ensures forall k :: 0 <= k < |carriers| ==>
        && st.records[k] == carriers[k].Record() && st.capis[k] == carriers[k].capiStatus
        && st.befores[k] == BeforeOf(carriers[k]) && st.messages[k] == messageFor(carriers[k].name)
    {
      Start(
        seq(|carriers|, k requires 0 <= k < |carriers| reads this, carriers => carriers[k].Record()),
        seq(|carriers|, k requires 0 <= k < |carriers| reads this, carriers => carriers[k].capiStatus),
        seq(|carriers|, k requires 0 <= k < |carriers| reads this, carriers, restock, restock.restocks => BeforeOf(carriers[k])),
        restock.restocks, restock.statusChanges,
        seq(|carriers|, k requires 0 <= k < |carriers| reads this, carriers => messageFor(carriers[k].name)))
    }

    /** What `verify` keeps from `st`: the carriers' data and CAPI state, the tasks it started with, the status changes. */
    ghost predicate Kept(st: Start)
      reads this, carriers, restock, restock.restocks
    {
      && Valid() && restock.statusChanges == st.changes && st.tasks <= restock.restocks
      && |st.records| == |st.capis| == |carriers|
      && forall k :: 0 <= k < |carriers| ==> carriers[k].Record() == st.records[k] && carriers[k].capiStatus == st.capis[k]
    }

    /** `verify` from `st` after `i` steps, with distinct callsigns when `distinct`. */
    ghost predicate Verifying(i: nat, st: Start, now: int, distinct: bool)
      reads this, carriers, restock, restock.restocks
    {
      && Kept(st)
      && EvaluatedUpTo(i, st.befores, |st.tasks|, st.messages)
      && (distinct ==> VisitedUpTo(i, st.befores, |st.tasks|, st.messages, now))
    }

    /** Before its first step, `verify` has evaluated no carrier, and every carrier finds what it finds. */
    lemma StartsVerify(st: Start, messageFor: string -> int, now: int)
      requires Valid() && st == StartOf(messageFor)
      ensures Verifying(0, st, now, Callsigns())
    {
      assert restock.restocks[..|restock.restocks|] == restock.restocks;
    }

    /**
     * The first `i` carriers of a `verify` that started from `befores` with
     * `base` tasks are evaluated, announcing carrier `k`'s task as
     * `messages[k]`, and the others keep their status.
     */
    ghost predicate EvaluatedUpTo(i: nat, befores: seq<Before>, base: nat, messages: seq<int>)
      reads this, carriers, restock, restock.restocks
    {
      && i <= |carriers| == |befores| == |messages| && base <= |restock.restocks|
      && (forall k :: 0 <= k < |carriers| && befores[k].found.Some? ==> befores[k].found.value.index < base)
      && (forall k :: i <= k < |carriers| ==> carriers[k].restockStatus == befores[k].status)
      && (forall k :: 0 <= k < i && !Evaluated(carriers[k].Record()) ==> carriers[k].restockStatus == befores[k].status)
      && (forall k :: 0 <= k < i ==> StatusAfter(carriers[k].Record(), befores[k].status, carriers[k].restockStatus))
      && (forall k :: 0 <= k < i && OpensTask(carriers[k].Record(), befores[k].status) ==>
            exists j :: base <= j < |restock.restocks| && TaskFor(restock.restocks[j], carriers[k].Record(), messages[k]))
    }

    /**
     * With distinct callsigns, the first `i` carriers of that `verify` are
     * visited from what they found before it, and the others still find it.
     */
    ghost predicate VisitedUpTo(i: nat, befores: seq<Before>, base: nat, messages: seq<int>, now: int)
      reads this, carriers, restock, restock.restocks
    {
      && i <= |carriers| == |befores| == |messages|
      && Callsigns()
      && base <= |restock.restocks|
      && (forall k :: 0 <= k < |carriers| && befores[k].found.Some? ==>
            befores[k].found.value.index < base && restock.restocks[befores[k].found.value.index].carrier.0 == carriers[k].name)
      && (forall k :: i <= k < |carriers| ==> BeforeOf(carriers[k]) == befores[k])
      && forall k :: 0 <= k < i ==> Visited(carriers[k], befores[k], base, messages[k], now)
    }

    /** The body of the `pull` loop for one carrier. */
    method SyncStatus(c: Carrier)
      modifies c
      ensures c.restockStatus == restock.StatusOf(c.name) && restock.Keys() == old(restock.Keys())
      ensures c.Record() == old(c.Record()) && c.capiStatus == old(c.capiStatus)
    {
      var status := restock.RestockStatus(c);
      c.restockStatus := status;
    }

    /**
     * `listener`: apply an EDDN market snapshot to the bridge, or else the
     * carrier, named `station`, unless it is older than what the depot holds.
     * A carrier that moved gets the system EDSM resolves for the new name
     * (`resolved`); the snapshot is applied when it is from the same time or later.
     */
    method Listener(station: string, systemName: string, market: seq<Good>, timestamp: int,
                    resolved: Option<System>, messageId: int, now: int) returns (r: Result<bool, DepotError>)
      requires Valid()
      modifies restock, restock.restocks, carriers, bridges
      ensures Valid() && restock.statusChanges == old(restock.statusChanges)
      ensures r.Err? ==> r.error in {UnknownSystem, RestockFailed(NoOpenTask)}
      ensures old(FindBridge(station)).Some? ==>
        var b := old(FindBridge(station)).value;
        && (timestamp < old(b.lastUpdate) <==> r == Ok(false))
        && (r == Ok(false) ==> unchanged(b))
        && (r != Ok(false) ==> r == Ok(true) && BridgeSnapshot(b) == Snapshot(old(b.system), market, timestamp))
      ensures old(FindBridge(station)).None? && old(FindCarrierSpec(station, "")).None? ==>
        r == Ok(false) && unchanged(carriers) && unchanged(bridges) && unchanged(restock)
      ensures old(FindBridge(station)).None? && old(FindCarrierSpec(station, "")).Some? ==>
        var c := old(FindCarrierSpec(station, "")).value;
        Listened(c, systemName, market, timestamp, resolved, messageId, now, r)
    {
      var bridge := FindBridge(station);
      if bridge.Some? {
        var b := bridge.value;
        if timestamp < b.lastUpdate {
          return Ok(false);
        }
        UpdateBridge(b, b.system, market, timestamp);
        return Ok(true);
      }
      // `find` as its specification gives it; `FindCarrier` is the loop that computes it.
      var carrier := FindCarrierSpec(station, "");
      if carrier.None? {
        return Ok(false);
      }
      r := ListenCarrier(carrier.value, systemName, market, timestamp, resolved, messageId, now);
    }

    /** What `listener` does with a snapshot for carrier `c`. */
    twostate predicate Listened(c: Carrier, systemName: string, market: seq<Good>, timestamp: int,
                                resolved: Option<System>, messageId: int, now: int, r: Result<bool, DepotError>)
      reads this, c, restock, restock.restocks
    {
      var moved := old(c.system.name) != systemName;
      && (timestamp < old(c.lastUpdate) ==> r == Ok(false) && unchanged(c))
      && (timestamp >= old(c.lastUpdate) && moved && resolved.None? ==> r == Err(UnknownSystem) && unchanged(c))
      && (timestamp >= old(c.lastUpdate) && (!moved || resolved.Some?) ==>
            CarrierSnapshot(c) == Snapshot(if moved then resolved.value else old(c.system), market, timestamp)
            && (r.Ok? ==> r.value) && restock.Restocked(c, messageId, now, r.Ok?))
    }

    /** The carrier branch of `listener`. */
    method ListenCarrier(c: Carrier, systemName: string, market: seq<Good>, timestamp: int,
                         resolved: Option<System>, messageId: int, now: int) returns (r: Result<bool, DepotError>)
      requires restock.Valid()
      modifies c, restock, restock.restocks
      ensures restock.Valid() && restock.statusChanges == old(restock.statusChanges)
      ensures r.Err? ==> r.error in {UnknownSystem, RestockFailed(NoOpenTask)}
      ensures Listened(c, systemName, market, timestamp, resolved, messageId, now, r)
      ensures old(restock.restocks) <= restock.restocks
      ensures forall k :: 0 <= k < |restock.restocks| ==> restock.restocks[k] in old(restock.restocks) || fresh(restock.restocks[k])
      ensures c.activeDepot == old(c.activeDepot) && c.capiStatus == old(c.capiStatus)
    {
      if timestamp < c.lastUpdate {
        return Ok(false);
      }
      var system := c.system;
      if c.system.name != systemName {
        if resolved.None? {
          return Err(UnknownSystem);
        }
        system := resolved.value;
      }
      var updated := UpdateCarrier(restock, c, system, market, timestamp, messageId, now);
      if updated.Err? {
        return Err(updated.error);
      }
      return Ok(true);
    }

    /**
     * `verify`: evaluate every carrier's restock task. A carrier the
     * evaluation ignores keeps its status, no task is removed, and the carriers
     * keep their data. An evaluated carrier without a task gets one, and the
     * status Pending, exactly when it is at or below its reserve, and `None`
     * otherwise; one with a task keeps its status or, when the task closes,
     * loses it.
     */
    method Verify(messageFor: string -> int, now: int) returns (r: Result<(), DepotError>)
      requires Valid()
      modifies restock, restock.restocks, carriers
      ensures Valid() && restock.statusChanges == old(restock.statusChanges)
      ensures r.Err? ==> r.error == RestockFailed(NoOpenTask)
      ensures forall k :: 0 <= k < |carriers| ==>
        carriers[k].Record() == old(carriers[k].Record()) && carriers[k].capiStatus == old(carriers[k].capiStatus)
      ensures old(restock.restocks) <= restock.restocks
      ensures r.Ok? ==> forall k :: 0 <= k < |carriers| && !Evaluated(carriers[k].Record()) ==>
        carriers[k].restockStatus == old(carriers[k].restockStatus)
      ensures r.Ok? ==> forall k :: 0 <= k < |carriers| ==>
        StatusAfter(carriers[k].Record(), old(carriers[k].restockStatus), carriers[k].restockStatus)
      ensures r.Ok? ==> forall k :: 0 <= k < |carriers| && OpensTask(carriers[k].Record(), old(carriers[k].restockStatus)) ==>
        exists j :: |old(restock.restocks)| <= j < |restock.restocks| &&
          TaskFor(restock.restocks[j], carriers[k].Record(), messageFor(carriers[k].name))
      // With distinct callsigns, each carrier's evaluation is `try_restock` from what it found before `verify`.
      ensures old(Callsigns()) && r.Err? ==>
        exists k :: 0 <= k < |carriers| && Fails(carriers[k].Record(), old(BeforeOf(carriers[k])))
      ensures old(Callsigns()) && r.Ok? ==> forall k :: 0 <= k < |carriers| ==>
        Visited(carriers[k], old(BeforeOf(carriers[k])), |old(restock.restocks)|, messageFor(carriers[k].name), now)
    {
      ghost var distinct, st := Callsigns(), StartOf(messageFor);
      r := VerifyLoop(st, distinct, messageFor, now);
      if r.Ok? {
        Finished(Pass(this, |carriers|, st.befores, |st.tasks|, st.messages, now, true));
      }
    }

    /** The loop of `verify`, from `st`: every carrier in turn, stopping at the first failure. */
    method VerifyLoop(ghost st: Start, ghost distinct: bool, messageFor: string -> int, now: int) returns (r: Result<(), DepotError>)
      requires Valid() && st == StartOf(messageFor) && distinct == Callsigns()
      modifies restock, restock.restocks, carriers
      ensures Kept(st)
      ensures r.Err? ==> r.error == RestockFailed(NoOpenTask)
      ensures r.Ok? ==> Verifying(|carriers|, st, now, distinct)
      ensures r.Err? && distinct ==> exists k :: 0 <= k < |carriers| && Fails(carriers[k].Record(), st.befores[k])
    {
      StartsVerify(st, messageFor, now);
      var i := 0;
      while i < |carriers|
        invariant 0 <= i <= |carriers| && Verifying(i, st, now, distinct)
        invariant forall k :: 0 <= k < |restock.restocks| ==> restock.restocks[k] in old(restock.restocks) || fresh(restock.restocks[k])
      {
        r := VerifyStep(i, st, distinct, messageFor(carriers[i].name), now);
        if r.Err? {
          return r;
        }
        i := i + 1;
      }
      return Ok(());
    }

    /**
     * One turn of the `verify` loop: carrier `i` is evaluated, which extends
     * the evaluated carriers and, with distinct callsigns, the visited ones,
     * or fails as `try_restock` does.
     */
    method VerifyStep(i: nat, ghost st: Start, ghost distinct: bool, messageId: int, now: int) returns (r: Result<(), DepotError>)
      requires i < |carriers| && Verifying(i, st, now, distinct) && messageId == st.messages[i]
      modifies carriers[i], restock, restock.restocks
      ensures Kept(st)
      ensures forall k :: 0 <= k < |restock.restocks| ==>
        restock.restocks[k] in old(restock.restocks) || fresh(restock.restocks[k])
      ensures r.Err? ==> r.error == RestockFailed(NoOpenTask)
      ensures r.Ok? ==> Verifying(i + 1, st, now, distinct)
      ensures r.Err? && distinct ==> Fails(carriers[i].Record(), st.befores[i])
    {
      r := VerifyVisit(i, messageId, now);
      var pass := Pass(this, i, st.befores, |st.tasks|, st.messages, now, r.Ok?);
      AdvanceEvaluated(pass);
      if distinct {
        AdvanceVisited(pass);
      }
    }

    /**
     * Carrier `i` of `verify`: `try_restock` for it, which changes only its own
     * status and, with a callsign, only its own tasks, so every other callsign
     * still finds what it found.
     */
    method VerifyVisit(i: nat, messageId: int, now: int) returns (r: Result<(), DepotError>)
      requires Valid() && i < |carriers|
      modifies carriers[i], restock, restock.restocks
      ensures Valid() && restock.statusChanges == old(restock.statusChanges)
      ensures r.Err? ==> r.error == RestockFailed(NoOpenTask)
      ensures old(restock.restocks) <= restock.restocks
      ensures forall k :: 0 <= k < |restock.restocks| ==>
        restock.restocks[k] in old(restock.restocks) || fresh(restock.restocks[k])
      ensures forall k :: 0 <= k < |carriers| ==>
        carriers[k].Record() == old(carriers[k].Record()) && carriers[k].capiStatus == old(carriers[k].capiStatus)
      ensures forall k :: 0 <= k < |carriers| && k != i ==> carriers[k].restockStatus == old(carriers[k].restockStatus)
      // What `try_restock` means for this carrier.
      ensures var c := carriers[i];
        && (r.Ok? ==> Visited(c, old(BeforeOf(c)), |old(restock.restocks)|, messageId, now))
        && (r.Err? ==> Fails(c.Record(), old(BeforeOf(c))))
      ensures var c := carriers[i];
        && (!Evaluated(c.Record()) ==> c.restockStatus == old(c.restockStatus))
        && (r.Ok? ==> StatusAfter(c.Record(), old(c.restockStatus), c.restockStatus))
        && (r.Ok? && OpensTask(c.Record(), old(c.restockStatus)) ==>
             |restock.restocks| == |old(restock.restocks)| + 1 &&
             TaskFor(restock.restocks[|old(restock.restocks)|], c.Record(), messageId))
      // A carrier with a callsign changes and adds only its own tasks.
      ensures carriers[i].name != "" ==>
        && (forall u :: u in old(restock.restocks) && u.carrier.0 != carriers[i].name ==> unchanged(u))
        && (forall k :: 0 <= k < |carriers| && carriers[k].name != "" && carriers[k].name != carriers[i].name ==>
              BeforeOf(carriers[k]) == old(BeforeOf(carriers[k])))
    {
      var tried := restock.TryRestock(carriers[i], messageId, now);
      r := if tried.Err? then Err(RestockFailed(tried.error)) else Ok(());
      var step := Step(this, i, messageId, now, r.Ok?);
      StepOutcome(step);
      if carriers[i].name != "" {
        StepKeepsOthers(step);
      }
    }

    /**
     * `edsm_update`: read EDSM's data for every depot, in `depots` order, and
     * apply it to the depots it is newer for.
     */
    method EdsmUpdate(overview: int -> Overview, messageFor: string -> int, now: int) returns (r: Result<(), DepotError>)
      requires Valid()
      modifies restock, restock.restocks, carriers, bridges
      ensures Valid() && restock.statusChanges == old(restock.statusChanges)
      ensures r.Err? ==> r.error == RestockFailed(NoOpenTask)
      ensures old(restock.restocks) <= restock.restocks
      ensures forall c :: c in carriers ==> c.activeDepot == old(c.activeDepot) && c.capiStatus == old(c.capiStatus)
      ensures forall c :: c in carriers ==> CarrierSnapshot(c).lastUpdate >= old(c.lastUpdate)
      ensures forall b :: b in bridges ==> BridgeSnapshot(b).lastUpdate >= old(b.lastUpdate)
      ensures r.Ok? ==> forall c :: c in carriers ==>
        CarrierSnapshot(c) == EdsmApplied(old(CarrierSnapshot(c)), overview(c.marketId))
      ensures r.Ok? ==> forall b :: b in bridges ==>
        BridgeSnapshot(b) == EdsmApplied(old(BridgeSnapshot(b)), overview(b.marketId))
    {
      var depots := Depots();
      r := EdsmPass(depots, overview, messageFor, now);
      forall c | c in carriers
        ensures CarrierSnapshot(c).lastUpdate >= old(c.lastUpdate)
        ensures r.Ok? ==> CarrierSnapshot(c) == EdsmApplied(old(CarrierSnapshot(c)), overview(c.marketId))
      {
        assert CarrierDepot(c) in depots;
      }
      forall b | b in bridges
        ensures BridgeSnapshot(b).lastUpdate >= old(b.lastUpdate)
        ensures r.Ok? ==> BridgeSnapshot(b) == EdsmApplied(old(BridgeSnapshot(b)), overview(b.marketId))
      {
        assert BridgeDepot(b) in depots;
      }
    }

    /** The loop of `edsm_update` over the given depots, in their order. */
    method EdsmPass(depots: seq<DepotRef>, overview: int -> Overview, messageFor: string -> int, now: int)
      returns (r: Result<(), DepotError>)
      requires Valid()
      requires forall d :: d in depots ==> (d.CarrierDepot? ==> d.carrier in carriers) && (d.BridgeDepot? ==> d.bridge in bridges)
      modifies restock, restock.restocks, carriers, bridges
      ensures Valid() && restock.statusChanges == old(restock.statusChanges)
      ensures r.Err? ==> r.error == RestockFailed(NoOpenTask)
      ensures old(restock.restocks) <= restock.restocks
      ensures forall c :: c in carriers ==> c.activeDepot == old(c.activeDepot) && c.capiStatus == old(c.capiStatus)
      ensures forall d :: d in depots ==> DepotSnapshot(d).lastUpdate >= old(DepotSnapshot(d)).lastUpdate
      ensures r.Ok? ==> forall d :: d in depots ==>
        DepotSnapshot(d) == EdsmApplied(old(DepotSnapshot(d)), overview(d.MarketId()))
    {
      ghost var seen: set<DepotRef> := {};
      var i := 0;
      while i < |depots|
        invariant 0 <= i <= |depots| && Valid() && restock.statusChanges == old(restock.statusChanges)
        invariant old(restock.restocks) <= restock.restocks
        invariant forall k :: 0 <= k < |restock.restocks| ==>
          restock.restocks[k] in old(restock.restocks) || fresh(restock.restocks[k])
        invariant forall c :: c in carriers ==> c.activeDepot == old(c.activeDepot) && c.capiStatus == old(c.capiStatus)
        invariant forall k :: 0 <= k < i ==> depots[k] in seen
        invariant forall d :: d in depots ==>
          DepotSnapshot(d) == if d in seen then EdsmApplied(old(DepotSnapshot(d)), overview(d.MarketId())) else old(DepotSnapshot(d))
      {
        var d := depots[i];
        var updated := EdsmVisit(depots, d, overview(d.MarketId()), messageFor(d.Name()), now);
        if updated.Err? {
          return updated;
        }
        seen := seen + {d};
        i := i + 1;
      }
      return Ok(());
    }

    /** One depot of the EDSM pass: the data is applied only when it is newer than the depot's. */
    method EdsmVisit(depots: seq<DepotRef>, d: DepotRef, o: Overview, messageId: int, now: int)
      returns (r: Result<(), DepotError>)
      requires restock.Valid()
      modifies d.Object(), restock, restock.restocks
      ensures restock.Valid() && restock.statusChanges == old(restock.statusChanges)
      ensures old(restock.restocks) <= restock.restocks
      ensures forall k :: 0 <= k < |restock.restocks| ==>
        restock.restocks[k] in old(restock.restocks) || fresh(restock.restocks[k])
      ensures r.Err? ==> r.error == RestockFailed(NoOpenTask)
      ensures DepotSnapshot(d) == EdsmApplied(old(DepotSnapshot(d)), o)
      ensures forall e :: e in depots && e != d ==> DepotSnapshot(e) == old(DepotSnapshot(e))
      ensures forall c :: c in carriers ==> c.activeDepot == old(c.activeDepot) && c.capiStatus == old(c.capiStatus)
      // Newer data for a carrier goes through `try_restock`; otherwise no task changes.
      ensures DepotSnapshot(d) == old(DepotSnapshot(d)) ==>
        r.Ok? && restock.restocks == old(restock.restocks) && forall t :: t in restock.restocks ==> unchanged(t)
      ensures d.CarrierDepot? && DepotSnapshot(d) != old(DepotSnapshot(d)) ==>
        restock.Restocked(d.carrier, messageId, now, r.Ok?)
    {
      var held := if d.CarrierDepot? then d.carrier.lastUpdate else d.bridge.lastUpdate;
      if o.lastUpdate.None? || o.lastUpdate.value <= held {
        return Ok(());
      }
      r := UpdateDepot(restock, d, o.system, o.market, o.lastUpdate.value, messageId, now);
      forall e | e in depots && e != d
        ensures DepotSnapshot(e) == old(DepotSnapshot(e))
      {
        ObjectInjective(d, e);
      }
    }

    /**
     * `inara_update`: for every carrier INARA is polled for, read its station
     * page and apply the data when the market is non-empty and newer. A failed
     * fetch skips the carrier; a URL that is not a station page, or a system EDSM
     * does not know, ends the pass.
     */
    method InaraUpdate(polled: string -> bool, fetch: nat -> InaraOutcome, resolve: string -> Option<System>,
                       messageFor: string -> int, now: int) returns (r: Result<(), DepotError>)
      requires Valid()
      modifies restock, restock.restocks, carriers
      ensures Valid() && restock.statusChanges == old(restock.statusChanges)
      ensures old(restock.restocks) <= restock.restocks
      ensures forall c :: c in carriers ==> c.activeDepot == old(c.activeDepot) && c.capiStatus == old(c.capiStatus)
      ensures r.Err? ==> r.error in {BadInaraUrl, UnknownSystem, RestockFailed(NoOpenTask)}
      ensures r.Err? && r.error != RestockFailed(NoOpenTask) ==>
        exists k :: 0 <= k < |carriers| &&
          InaraStep(old(CarrierSnapshot(carriers[k])), carriers[k].inaraUrl, polled(carriers[k].name), fetch, resolve).Err?
      ensures r.Ok? ==> forall k :: 0 <= k < |carriers| ==>
        var step := InaraStep(old(CarrierSnapshot(carriers[k])), carriers[k].inaraUrl, polled(carriers[k].name),
          fetch, resolve);
        step.Ok? && CarrierSnapshot(carriers[k]) == step.value
    {
      ghost var cs := carriers;
      ghost var before := seq(|cs|, k requires 0 <= k < |cs| reads cs => CarrierSnapshot(cs[k]));
      ghost var steps := seq(|cs|, k requires 0 <= k < |cs| => InaraStep(before[k], cs[k].inaraUrl, polled(cs[k].name), fetch, resolve));
      var i := 0;
      while i < |carriers|
        invariant 0 <= i <= |carriers| && Valid() && restock.statusChanges == old(restock.statusChanges)
        invariant old(restock.restocks) <= restock.restocks
        invariant forall k :: 0 <= k < |restock.restocks| ==> restock.restocks[k] in old(restock.restocks) || fresh(restock.restocks[k])
        invariant forall c :: c in carriers ==> c.activeDepot == old(c.activeDepot) && c.capiStatus == old(c.capiStatus)
        invariant forall k :: 0 <= k < i ==> steps[k].Ok? && CarrierSnapshot(carriers[k]) == steps[k].value
        invariant forall k :: i <= k < |carriers| ==> CarrierSnapshot(carriers[k]) == before[k]
      {
        var c := carriers[i];
        label visit:
        var done := InaraVisit(c, polled(c.name), fetch, resolve, messageFor(c.name), now);
        if done.Err? {
          assert done.error != RestockFailed(NoOpenTask) ==> steps[i].Err?;
          return done;
        }
        assert CarrierSnapshot(c) == steps[i].value;
        forall k | 0 <= k < |cs| && k != i
          ensures CarrierSnapshot(cs[k]) == old@visit(CarrierSnapshot(cs[k]))
        {
          assert cs[k] in carriers && cs[k] != c;
        }
        i := i + 1;
      }
      return Ok(());
    }

    /** One carrier of the INARA pass. */
    method InaraVisit(c: Carrier, polled: bool, fetch: nat -> InaraOutcome, resolve: string -> Option<System>,
                      messageId: int, now: int) returns (r: Result<(), DepotError>)
      requires restock.Valid()
      modifies c, restock, restock.restocks
      ensures restock.Valid() && restock.statusChanges == old(restock.statusChanges)
      ensures old(restock.restocks) <= restock.restocks
      ensures forall k :: 0 <= k < |restock.restocks| ==> restock.restocks[k] in old(restock.restocks) || fresh(restock.restocks[k])
      ensures forall d :: d in carriers ==> d.activeDepot == old(d.activeDepot) && d.capiStatus == old(d.capiStatus)
      ensures forall d :: d in carriers && d != c ==> CarrierSnapshot(d) == old(CarrierSnapshot(d))
      ensures var step := InaraStep(old(CarrierSnapshot(c)), c.inaraUrl, polled, fetch, resolve);
        && (step.Err? ==> r == Err(step.error) && CarrierSnapshot(c) == old(CarrierSnapshot(c)))
        && (step.Ok? ==> CarrierSnapshot(c) == step.value && (r.Err? ==> r.error == RestockFailed(NoOpenTask)))
      // Written data goes through `try_restock`; otherwise neither the carrier nor any task changes.
      ensures InaraWrites(old(CarrierSnapshot(c)), c.inaraUrl, polled, fetch, resolve) ==>
        restock.Restocked(c, messageId, now, r.Ok?)
      ensures !InaraWrites(old(CarrierSnapshot(c)), c.inaraUrl, polled, fetch, resolve) ==>
        unchanged(c) && restock.restocks == old(restock.restocks) && forall t :: t in restock.restocks ==> unchanged(t)
    {
      // The checks of `inara_update` for this carrier, as `InaraStep` states them;
      // it gives back the carrier's own snapshot when there is nothing to write.
      var step := InaraStep(CarrierSnapshot(c), c.inaraUrl, polled, fetch, resolve);
      if step.Err? {
        return Err(step.error);
      }
      if step.value == CarrierSnapshot(c) {
        return Ok(());
      }
      r := UpdateCarrier(restock, c, step.value.system, step.value.market, step.value.lastUpdate, messageId, now);
    }

    /** The `status_change` handler: give the carrier with this callsign the task's new stage. */
    method OnStatusChange(callsign: string, stage: Stage) returns (r: Result<Carrier, DepotError>)
      modifies carriers
      ensures FindCarrierSpec(callsign, "").None? <==> r.Err?
      ensures r.Err? ==> r.error == NoSuchCarrier && unchanged(carriers)
      ensures r.Ok? ==> var c := r.value;
        && Some(c) == FindCarrierSpec(callsign, "") && c.restockStatus == Some(stage)
        && c.Record() == old(c.Record()) && c.capiStatus == old(c.capiStatus)
      ensures forall c :: c in carriers && (r.Err? || c != r.value) ==> unchanged(c)
    {
      var found := FindCarrier(callsign, "");
      if found.None? {
        return Err(NoSuchCarrier);
      }
      var c := found.value;
      c.restockStatus := Some(stage);
      return Ok(c);
    }
  }
}
