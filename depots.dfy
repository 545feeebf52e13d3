/**
 * Depots: fleet carriers and Colonia bridge stations, with the derived
 * attributes the bot shows (tritium lookup, stock bracket, status colour).
 */
module Depots {

  import opened Wrappers
  import opened Goods
  import opened Enums

  /** A point in space (floating-point coordinates). */
  datatype Point = Point(x: real, y: real, z: real)

  /** A star system: a name and, when known, a location. */
  datatype System = System(name: string, location: Option<Point>)

  /** The tritium tank of a fleet carrier, in tonnes. */
  const CarrierCapacity := 25000

  /** `stock_bracket`: the bracket of a tonnage against a 25000 t tank. */
  function StockBracket(amount: int): (b: int)
    ensures 0 <= b <= 3
    ensures b == 3 <==> amount >= 18750
    ensures b == 2 <==> 6250 <= amount < 18750
    ensures b == 1 <==> 0 < amount < 6250
    ensures b == 0 <==> amount <= 0
  {
    if 4 * amount >= 3 * CarrierCapacity then 3
    else if 4 * amount >= CarrierCapacity then 2
    else if amount > 0 then 1
    else 0
  }

  /** More stock never gives a lower bracket. */
  lemma StockBracketMonotone(a: int, b: int)
    requires a <= b
    ensures StockBracket(a) <= StockBracket(b)
  {
  }

  /** The position of the first good named "tritium", or the length of the market. */
  function TritiumIndex(market: seq<Good>): (i: nat)
    ensures i <= |market|
    ensures forall j :: 0 <= j < i ==> market[j].name != "tritium"
    ensures i < |market| ==> market[i].name == "tritium"
  {
    if market == [] then 0
    else if market[0].name == "tritium" then 0
    else
      var i := TritiumIndex(market[1..]);
      assert forall j :: 1 <= j < i + 1 ==> market[j] == market[1..][j - 1];
      i + 1
  }

  /** `Depot.tritium`: the first good of the market named "tritium", else `None`. */
  function TritiumOf(market: seq<Good>): (r: Option<Good>)
    ensures r.None? <==> forall i :: 0 <= i < |market| ==> market[i].name != "tritium"
    ensures r.Some? ==> r.value.name == "tritium" && r.value == market[TritiumIndex(market)]
  {
    var i := TritiumIndex(market);
    if i < |market| then Some(market[i]) else None
  }

  /**
   * `Depot.colour`: purple when the market is older than the expiry window or has
   * no tritium, otherwise green, yellow or red by tritium stock.
   */
  function DepotColour(lastUpdate: int, market: seq<Good>, now: int, expiry: int): (c: Colour)
    ensures c in {Purple, Green, Yellow, Red}
    ensures c == Purple <==> now - lastUpdate > expiry || TritiumOf(market).None?
    ensures c == Green <==>
      (now - lastUpdate <= expiry && TritiumOf(market).Some? && TritiumOf(market).value.stock.quantity >= 15000)
    ensures c == Yellow <==>
      (now - lastUpdate <= expiry && TritiumOf(market).Some? && 7500 <= TritiumOf(market).value.stock.quantity < 15000)
    ensures c == Red <==>
      (now - lastUpdate <= expiry && TritiumOf(market).Some? && TritiumOf(market).value.stock.quantity < 7500)
  {
    if now - lastUpdate > expiry then Purple
    else
      match TritiumOf(market)
      case None => Purple
      case Some(t) =>
        if t.stock.quantity >= 15000 then Green
        else if t.stock.quantity >= 7500 then Yellow
        else Red
  }

  /** `Carrier.__str__` (and `Restock.__str__`): "[callsign] display name". */
  function CarrierLabel(callsign: string, displayName: string): string
  {
    "[" + callsign + "] " + displayName
  }

  /** A label names its carrier: callsigns never contain ']'. */
  lemma LabelInjective(c1: string, d1: string, c2: string, d2: string)
    requires ']' !in c1 && ']' !in c2
    requires CarrierLabel(c1, d1) == CarrierLabel(c2, d2)
    ensures c1 == c2 && d1 == d2
  {
    var l := CarrierLabel(c1, d1);
    assert l[1 + |c1|] == ']';
    assert l[1..1 + |c1|] == c1;
    var l2 := CarrierLabel(c2, d2);
    assert l2[1 + |c2|] == ']';
    assert l2[1..1 + |c2|] == c2;
    assert c1 == c2;
    assert l[3 + |c1|..] == d1;
    assert l2[3 + |c2|..] == d2;
  }

  /** The constructor arguments of a carrier, as its loader produces them. */
  datatype CarrierRecord = CarrierRecord(
    name: string, system: System, market: seq<Good>, marketId: int, inaraUrl: string,
    lastUpdate: int, displayName: string, deploySystem: System, reserveTritium: int,
    allocatedSpace: int, ownerDiscordId: int, activeDepot: bool)

  /** A fleet carrier depot. */
  class Carrier {
    const name: string
    var system: System
    var market: seq<Good>
    const marketId: int
    const inaraUrl: string
    var lastUpdate: int
    const displayName: string
    const deploySystem: System
    const reserveTritium: int
    const allocatedSpace: int
    const ownerDiscordId: int
    var activeDepot: bool
    var capiStatus: Option<State>
    var restockStatus: Option<Stage>

    /** The dataclass constructor: `capi_status` and `restock_status` start as `None`. */
    constructor (r: CarrierRecord)
      ensures Record() == r
      ensures capiStatus == None && restockStatus == None
    {
      name, system, market, marketId, inaraUrl := r.name, r.system, r.market, r.marketId, r.inaraUrl;
      lastUpdate, displayName, deploySystem := r.lastUpdate, r.displayName, r.deploySystem;
      reserveTritium, allocatedSpace, ownerDiscordId := r.reserveTritium, r.allocatedSpace, r.ownerDiscordId;
      activeDepot := r.activeDepot;
      capiStatus, restockStatus := None, None;
    }

    function Record(): CarrierRecord
      reads this
    {
      CarrierRecord(name, system, market, marketId, inaraUrl, lastUpdate, displayName,
        deploySystem, reserveTritium, allocatedSpace, ownerDiscordId, activeDepot)
    }

    function Tritium(): Option<Good>
      reads this
    {
      TritiumOf(market)
    }

    function Label(): string
    {
      CarrierLabel(name, displayName)
    }

    /**
     * `Carrier.colour`, checked in order: inactive, restock underway, restock
     * pending, away from the deploy system or buying tritium, then the depot colour.
     * System equality is a parameter.
     */
    function Colour(now: int, expiry: int, sameSystem: (System, System) -> bool): (c: Colour)
      reads this
      ensures c == Black <==> !activeDepot
      ensures activeDepot && restockStatus == Some(Underway) ==> c == Cyan
      ensures activeDepot && restockStatus == Some(Pending) ==> c == Blue
      ensures activeDepot && restockStatus !in {Some(Underway), Some(Pending)} ==>
        if !sameSystem(system, deploySystem) || (Tritium().Some? && Tritium().value.demand.quantity > 0)
        then c == Purple
        else c == DepotColour(lastUpdate, market, now, expiry)
    {
      if !activeDepot then Black
      else if restockStatus == Some(Underway) then Cyan
      else if restockStatus == Some(Pending) then Blue
      else if !sameSystem(system, deploySystem) then Purple
      else if Tritium().Some? && Tritium().value.demand.quantity > 0 then Purple
      else DepotColour(lastUpdate, market, now, expiry)
    }
  }

  /** A Colonia bridge station depot. */
  class Bridge {
    const name: string
    var system: System
    var market: seq<Good>
    const marketId: int
    const inaraUrl: string
    var lastUpdate: int

    constructor (name: string, system: System, market: seq<Good>, marketId: int, inaraUrl: string, lastUpdate: int)
      ensures this.name == name && this.system == system && this.market == market
      ensures this.marketId == marketId && this.inaraUrl == inaraUrl && this.lastUpdate == lastUpdate
    {
      this.name, this.system, this.market := name, system, market;
      this.marketId, this.inaraUrl, this.lastUpdate := marketId, inaraUrl, lastUpdate;
    }

    function Tritium(): Option<Good>
      reads this
    {
      TritiumOf(market)
    }

    function Colour(now: int, expiry: int): Colour
      reads this
    {
      DepotColour(lastUpdate, market, now, expiry)
    }
  }

  /** Frame helper: two depot references name the same object exactly when they are the same reference. */
  lemma ObjectInjective(d: DepotRef, e: DepotRef)
    ensures d.Object() == e.Object() <==> d == e
  {
  }

  /** A depot of either kind, for the `isinstance` dispatch of the depot service. */
  datatype DepotRef = CarrierDepot(carrier: Carrier) | BridgeDepot(bridge: Bridge)
  {
    /** The depot object itself. */
    function Object(): object
    {
      if CarrierDepot? then carrier else bridge
    }

    function Name(): string
    {
      if CarrierDepot? then carrier.name else bridge.name
    }

    function MarketId(): int
    {
      if CarrierDepot? then carrier.marketId else bridge.marketId
    }
  }
}
