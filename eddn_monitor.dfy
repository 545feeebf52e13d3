/**
 * The EDDN listener: the back-off between restarts of its socket, the filter
 * on message schemas and the sanity checks a commodity snapshot passes
 * before it is fired. The ZMQ socket, the asyncio tasks, decompression and
 * JSON decoding are outside this model; a message arrives decoded.
 */
module EddnMonitor {

  import opened Wrappers
  import opened Text
  import opened Patterns
  import opened Goods

  // ---------------------------------------------------------------------------
  // Restarts

  const InitialDelay := 5
  const ExpFactor := 4
  /** The longest wait, three hours. */
  const MaxDelay := 3 * 60 * 60
  /** A restart scheduled longer ago than one hour is forgotten. */
  const Ignore := 60 * 60

  function Min(a: int, b: int): int
  {
    if a < b then a else b
  }

  function Pow4(n: nat): (r: nat)
    ensures r >= 1
  {
    if n == 0 then 1 else ExpFactor * Pow4(n - 1)
  }

  /** `min(initial_delay * exp_factor ** n, max_delay)`. */
  function Backoff(n: nat): (d: nat)
    ensures InitialDelay <= d <= MaxDelay
  {
    Min(InitialDelay * Pow4(n), MaxDelay)
  }

  /** The `_restarts` pair: how many restarts in a row, and when the last one was due. */
  datatype Restarts = Restarts(count: nat, scheduled: Option<int>)

  /** A count of zero is the fresh pair `(0, None)`. */
  predicate Coherent(r: Restarts)
  {
    r.count == 0 <==> r.scheduled.None?
  }

  /**
   * One `_restart` at time `now`: the counter afterwards and the wait. A
   * restart due more than an hour ago resets the counter and waits the
   * initial delay; otherwise the wait grows by the factor and the counter
   * moves on.
   */
  function RestartStep(r: Restarts, now: int): (out: (Restarts, nat))
    ensures InitialDelay <= out.1 <= MaxDelay
    ensures out.0 == Restarts(0, None) <==> r.scheduled.Some? && now - r.scheduled.value > Ignore
    ensures out.0 != Restarts(0, None) ==> out.0 == Restarts(r.count + 1, Some(now + out.1)) && out.1 == Backoff(r.count)
    ensures Coherent(out.0)
  {
    if r.scheduled.Some? && now - r.scheduled.value > Ignore then (Restarts(0, None), Min(InitialDelay, MaxDelay))
    else
      var w := Backoff(r.count);
      (Restarts(r.count + 1, Some(now + w)), w)
  }

  /** Until the cap, each restart in a row waits four times as long as the one before. */
  lemma BackoffGrows(n: nat)
    ensures Backoff(n + 1) == Min(ExpFactor * Backoff(n), MaxDelay)
  {
    assert InitialDelay * Pow4(n + 1) == ExpFactor * (InitialDelay * Pow4(n));
  }

  /** The waits of a quick run of restarts: 5, 20, 80, 320, 1280, 5120 seconds, then three hours. */
  lemma {:induction false} BackoffCapped(n: nat)
    ensures n >= 6 ==> Backoff(n) == MaxDelay
    ensures n < 6 ==> Backoff(n) == InitialDelay * Pow4(n) < MaxDelay
  {
    if n >= 6 {
      PowAtLeast(n);
    }
  }

  lemma {:induction false} PowAtLeast(n: nat)
    requires n >= 6
    ensures Pow4(n) >= 4096
  {
    if n > 6 {
      PowAtLeast(n - 1);
    }
  }

  /** The first restart of a run, from the fresh pair, waits the initial delay and counts one. */
  lemma FirstRestart(r: Restarts, now: int)
    requires Coherent(r) && r.count == 0
    ensures RestartStep(r, now) == (Restarts(1, Some(now + InitialDelay)), InitialDelay)
  {
  }

  /** The listener; the socket, its task and the `commodity` event are not modelled. */
  class Monitor {

    var restarts: Restarts

    constructor ()
      ensures restarts == Restarts(0, None)
    {
      restarts := Restarts(0, None);
    }

    /** The restart pair is coherent: no count without a scheduled restart, and none scheduled without a count. */
    predicate Valid()
      reads this
    {
      Coherent(restarts)
    }

    /** `_restart` up to its sleep: returns the wait, after which the listener starts again. */
    method Restart(now: int) returns (wait: nat)
      requires Valid()
      modifies this
      ensures Valid()
      ensures (restarts, wait) == RestartStep(old(restarts), now)
      ensures old(restarts.count) == 0 ==> wait == InitialDelay && restarts == Restarts(1, Some(now + InitialDelay))
    {
      var waitDelay: Option<nat> := None;
      if restarts.scheduled.Some? {
        var delta := now - restarts.scheduled.value;
        if delta > Ignore {
          restarts := Restarts(0, None);
          waitDelay := Some(Min(InitialDelay, MaxDelay));
        }
      }
      if waitDelay.None? {
        var w := Backoff(restarts.count);
        waitDelay := Some(w);
        restarts := Restarts(restarts.count + 1, Some(now + w));
      }
      wait := waitDelay.value;
    }
  }

  // ---------------------------------------------------------------------------
  // Messages

  const CommoditySchema := "https://eddn.edcd.io/schemas/commodity/3"

  /** `_process`: a message is checked as a commodity snapshot when its schema names commodity/3. */
  predicate IsCommodity(schemaRef: string)
  {
    Contains(schemaRef, CommoditySchema)
  }

  /** The schema test is a substring test: the test variant of the schema passes it too. */
  lemma TestSchemaPasses()
    ensures IsCommodity(CommoditySchema + "/test")
    ensures !IsCommodity("https://eddn.edcd.io/schemas/journal/1")
  {
    assert OccursAt(CommoditySchema + "/test", CommoditySchema, 0) by {
      assert (CommoditySchema + "/test")[..|CommoditySchema|] == CommoditySchema;
    }
  }

  /** One entry of a message's `commodities`, as EDDN names its fields. */
  datatype Commodity = Commodity(
    name: string, buyPrice: int, stock: int, stockBracket: Bracket,
    sellPrice: int, demand: int, demandBracket: Bracket, meanPrice: int)

  /** The body of a commodity message; the timestamp arrives parsed, in seconds. */
  datatype CommodityMessage = CommodityMessage(
    stationName: string, systemName: string, marketId: int, commodities: seq<Commodity>, timestamp: int)

  /** The arguments `commodity` is fired with. */
  datatype Snapshot = Snapshot(station: string, system: string, market: seq<Good>, marketId: int, timestamp: int)

  /** The good of an entry: the buy price and stock on the stock side, the sell price and demand on the other. */
  function GoodOf(c: Commodity): (g: Good)
    ensures g.stock == Market(c.buyPrice, c.stock, c.stockBracket)
    ensures g.demand == Market(c.sellPrice, c.demand, c.demandBracket)
    ensures g.name == Lower(c.name) && g.meanPrice == c.meanPrice
  {
    NewGood(c.name, FullDict(c.buyPrice, c.stock, c.stockBracket), FullDict(c.sellPrice, c.demand, c.demandBracket), c.meanPrice)
  }

  /** The market of a message, in the order of its entries. */
  function MarketOf(m: CommodityMessage): (r: seq<Good>)
    ensures |r| == |m.commodities| && forall i :: 0 <= i < |r| ==> r[i] == GoodOf(m.commodities[i])
  {
    seq(|m.commodities|, i requires 0 <= i < |m.commodities| => GoodOf(m.commodities[i]))
  }

  predicate Buying(g: Good)
  {
    g.demand.quantity != 0 || g.demand.price != 0
  }

  predicate Selling(g: Good)
  {
    g.stock.quantity != 0 || g.stock.price != 0
  }

  /**
   * A good that passes the checks: it trades at least one way, at a price on
   * every side it trades, and at a carrier it never trades both ways and
   * never buys without demand.
   */
  predicate Plausible(g: Good, isCarrier: bool)
  {
    && (Buying(g) || Selling(g))
    && (Buying(g) ==> g.demand.price != 0)
    && (Selling(g) ==> g.stock.price != 0)
    && (isCarrier ==> !(Buying(g) && Selling(g)) && (Buying(g) ==> g.demand.quantity != 0))
  }

  /**
   * The issues of one good, in the order they are found. There are none
   * exactly for a plausible good, and never more than three: a good bought
   * for free has a demand, and a good trading neither way has that one issue.
   */
  function Issues(g: Good, isCarrier: bool): (r: seq<string>)
    ensures r == [] <==> Plausible(g, isCarrier)
    ensures |r| <= 3
    ensures !(Buying(g) || Selling(g)) ==> r == ["Trading but not buying or selling."]
  {
    var buying, selling := Buying(g), Selling(g);
    (if buying && g.demand.price == 0 then ["Buying for free."] else [])
    + (if buying && isCarrier && g.demand.quantity == 0 then ["Buying without demand."] else [])
    + (if selling && g.stock.price == 0 then ["Selling for free."] else [])
    + (if buying && selling && isCarrier then ["Buying and selling simultaneously."] else [])
    + (if !(buying || selling) then ["Trading but not buying or selling."] else [])
  }

  /** The checks at a carrier include those at a station: a good a carrier may trade, a station may too. */
  lemma CarrierChecksStricter(g: Good)
    ensures Plausible(g, true) ==> Plausible(g, false)
  {
  }

  /** A good the checks let through: pesticides, which a bug prices at zero, and every plausible good. */
  predicate Accepted(g: Good, isCarrier: bool)
  {
    g.name == "pesticides" || Plausible(g, isCarrier)
  }

  function IssueCount(n: nat): string
  {
    NatToString(n) + " issue(s)"
  }

  /** The warning lines of one good: its name and issue count, then the issues; none when accepted. */
  function GoodLines(g: Good, isCarrier: bool): seq<string>
  {
    if g.name == "pesticides" then []
    else
      var issues := Issues(g, isCarrier);
      if issues == [] then [] else [g.name + " - " + IssueCount(|issues|)] + issues
  }

  /** A good adds no warning line exactly when it is accepted. */
  lemma GoodLinesEmpty(g: Good, isCarrier: bool)
    ensures |GoodLines(g, isCarrier)| == 0 <==> Accepted(g, isCarrier)
  {
  }

  function Header(station: string): string
  {
    "Ignoring bad commodity update for '" + station + "'"
  }

  /** The warning after the first `n` goods of `market`: the header, then each good's lines in order. */
  function Warning(station: string, market: seq<Good>, n: nat, isCarrier: bool): seq<string>
    requires n <= |market|
  {
    if n == 0 then [Header(station)] else Warning(station, market, n - 1, isCarrier) + GoodLines(market[n - 1], isCarrier)
  }

  /** The warning has lines after its header exactly when one of the goods is not accepted. */
  lemma {:induction false} WarningEmpty(station: string, market: seq<Good>, n: nat, isCarrier: bool)
    requires n <= |market|
    ensures |Warning(station, market, n, isCarrier)| == 1 <==> forall i :: 0 <= i < n ==> Accepted(market[i], isCarrier)
  {
    if n > 0 {
      WarningEmpty(station, market, n - 1, isCarrier);
      var before, last := Warning(station, market, n - 1, isCarrier), GoodLines(market[n - 1], isCarrier);
      assert |Warning(station, market, n, isCarrier)| == |before| + |last|;
      GoodLinesEmpty(market[n - 1], isCarrier);
      WarningStartsWithHeader(station, market, n - 1, isCarrier);
      assert (forall i :: 0 <= i < n ==> Accepted(market[i], isCarrier)) <==>
        (forall i :: 0 <= i < n - 1 ==> Accepted(market[i], isCarrier)) && Accepted(market[n - 1], isCarrier);
    }
  }

  lemma {:induction false} WarningStartsWithHeader(station: string, market: seq<Good>, n: nat, isCarrier: bool)
    requires n <= |market|
    ensures |Warning(station, market, n, isCarrier)| >= 1
  {
    if n > 0 {
      WarningStartsWithHeader(station, market, n - 1, isCarrier);
    }
  }

  /** The checks of one good inside the validation loop, appending each issue found. */
  method GoodIssues(good: Good, isCarrier: bool) returns (issues: seq<string>)
    ensures issues == Issues(good, isCarrier)
  {
    issues := [];
    var buying := good.demand.quantity != 0 || good.demand.price != 0;
    var selling := good.stock.quantity != 0 || good.stock.price != 0;
    if buying {
      if good.demand.price == 0 {
        issues := issues + ["Buying for free."];
      }
      if isCarrier {
        if good.demand.quantity == 0 {
          issues := issues + ["Buying without demand."];
        }
      }
    }
    if selling {
      if good.stock.price == 0 {
        issues := issues + ["Selling for free."];
      }
    }
    if buying && selling && isCarrier {
      issues := issues + ["Buying and selling simultaneously."];
    }
    if !(buying || selling) {
      issues := issues + ["Trading but not buying or selling."];
    }
  }

  /** One pass of the validation loop: pesticides are skipped, any other good reports its issues. */
  method GoodReport(good: Good, isCarrier: bool) returns (added: seq<string>)
    ensures added == GoodLines(good, isCarrier)
  {
    if good.name == "pesticides" {
      return [];
    }
    var issues := GoodIssues(good, isCarrier);
    added := if issues != [] then [good.name + " - " + IssueCount(|issues|)] + issues else [];
  }

  /** The validation loop of `_commodity`: the warning, header first, a good's lines after the earlier goods'. */
  method Validate(station: string, market: seq<Good>, isCarrier: bool) returns (message: seq<string>)
    ensures message == Warning(station, market, |market|, isCarrier)
  {
    message := [Header(station)];
    for i := 0 to |market|
      invariant message == Warning(station, market, i, isCarrier)
    {
      var added := GoodReport(market[i], isCarrier);
      message := message + added;
    }
  }

  /**
   * `_commodity`: the snapshot is fired, with the market in the order of the
   * entries, exactly when every good is accepted; otherwise the warning is
   * logged and nothing is fired. A station whose name is a callsign is a
   * carrier.
   */
  method CheckSnapshot(m: CommodityMessage) returns (fired: Option<Snapshot>)
    ensures fired.Some? <==>
      forall i :: 0 <= i < |m.commodities| ==> Accepted(GoodOf(m.commodities[i]), CallsignMatch(m.stationName))
    ensures fired.Some? ==> fired.value == Snapshot(m.stationName, m.systemName, MarketOf(m), m.marketId, m.timestamp)
  {
    var isCarrier := CallsignMatch(m.stationName);
    var market := MarketOf(m);
    var message := Validate(m.stationName, market, isCarrier);
    WarningEmpty(m.stationName, market, |market|, isCarrier);
    WarningStartsWithHeader(m.stationName, market, |market|, isCarrier);
    if |message| > 1 {
      return None;
    }
    return Some(Snapshot(m.stationName, m.systemName, market, m.marketId, m.timestamp));
  }

  /** Pesticides are let through whatever the case of their name and whatever their prices. */
  lemma PesticidesExempt(c: Commodity, isCarrier: bool)
    requires Lower(c.name) == "pesticides"
    ensures Accepted(GoodOf(c), isCarrier)
  {
  }
}
