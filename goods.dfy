/** In-game commodities: one market side (`_Market`) and a `Good` with stock and demand sides. */
module Goods {

  import opened Wrappers
  import Text

  /** A supply/demand bracket: one of 0..3, or the blank `""`. */
  datatype Bracket = Blank | Level(level: int)

  /** One side of a commodity market (frozen). */
  datatype Market = Market(price: int, quantity: int, bracket: Bracket)

  /** A market dictionary as the callers build it; `None` is an absent key. */
  datatype MarketDict = MarketDict(price: Option<int>, quantity: Option<int>, bracket: Option<Bracket>)

  /** The empty dictionary `{}`. */
  const EmptyDict := MarketDict(None, None, None)

  /** The dictionary `{"price": p, "quantity": q, "bracket": b}`. */
  function FullDict(price: int, quantity: int, bracket: Bracket): MarketDict
  {
    MarketDict(Some(price), Some(quantity), Some(bracket))
  }

  function GetOr<T>(o: Option<T>, default: T): T
  {
    if o.Some? then o.value else default
  }

  /** `_Market.from_dict`: price and quantity default to 0, bracket to blank. */
  function MarketFromDict(d: MarketDict): (m: Market)
    ensures d.price.Some? ==> m.price == d.price.value
    ensures d.price.None? ==> m.price == 0
    ensures d.quantity.Some? ==> m.quantity == d.quantity.value
    ensures d.quantity.None? ==> m.quantity == 0
    ensures d.bracket.Some? ==> m.bracket == d.bracket.value
    ensures d.bracket.None? ==> m.bracket == Blank
  {
    Market(GetOr(d.price, 0), GetOr(d.quantity, 0), GetOr(d.bracket, Blank))
  }

  /** The market read from `{}`. */
  const EmptyMarket := Market(0, 0, Blank)

  /** A commodity (frozen). */
  datatype Good = Good(name: string, stock: Market, demand: Market, meanPrice: int)

  /** `Good.__init__`: the name is stored lower-cased and the mean price defaults to 0. */
  function NewGood(name: string, stockInfo: MarketDict, demandInfo: MarketDict, meanPrice: int := 0): (g: Good)
    ensures g.name == Text.Lower(name)
    ensures forall i :: 0 <= i < |g.name| ==> !Text.IsUpper(g.name[i])
    ensures g.stock == MarketFromDict(stockInfo) && g.demand == MarketFromDict(demandInfo)
    ensures g.meanPrice == meanPrice
  {
    Good(Text.Lower(name), MarketFromDict(stockInfo), MarketFromDict(demandInfo), meanPrice)
  }

  /** Building a good from a name that is already lower-case keeps the name. */
  lemma {:induction false} NewGoodKeepsLowerName(name: string, s: MarketDict, d: MarketDict)
    requires forall i :: 0 <= i < |name| ==> !Text.IsUpper(name[i])
    ensures NewGood(name, s, d).name == name
  {
    assert forall i :: 0 <= i < |name| ==> Text.LowerChar(name[i]) == name[i];
  }
}
