/**
 * Querying the Frontier Companion API: how one HTTP exchange is classified
 * into a failure or a JSON body, and how a `/fleetcarrier` body becomes a
 * carrier summary with its market.
 */
module CapiQuery {

  import opened Wrappers
  import opened Goods
  import Depots
  import Text

  /** The failures a query raises. */
  datatype QueryError =
    | EpicFail           // the body asks the player to purchase the game
    | CapiFail           // the API answers with one of its "down" statuses
    | TokenFail          // 401: the access token is invalid or expired
    | HttpFail(status: int)  // `raise_for_status` on any other status of 400 or more
    | ConnectionFail     // no response at all
    | MissingKey         // `KeyError` reading an empty body
    | BadName            // the vanity name is not base-16 text in UTF-8

  /** The marker text of an Epic account that cannot use the API. */
  const EpicMarker := "purchase Elite: Dangerous"

  /** The statuses the API uses for maintenance. */
  predicate IsCapiDown(status: int)
  {
    status == 418 || status == 500 || status == 502 || status == 503 || status == 504
  }

  /**
   * One HTTP exchange: no response, or a response with its status, its text,
   * whether its content type is JSON and the decoded body (`None` for `{}`).
   */
  datatype Exchange<T> =
    | Unreachable
    | Response(status: int, text: string, isJson: bool, body: Option<T>)

  /**
   * `_request`: the Epic marker is tested first, then the maintenance
   * statuses, then 401, then every other error status; a response that is not
   * JSON gives the empty body.
   */
  function Request<T>(x: Exchange<T>): (r: Result<Option<T>, QueryError>)
    ensures x.Unreachable? ==> r == Err(ConnectionFail)
    ensures x.Response? && Text.Contains(x.text, EpicMarker) ==> r == Err(EpicFail)
    ensures x.Response? && !Text.Contains(x.text, EpicMarker) ==>
      && (IsCapiDown(x.status) <==> r == Err(CapiFail))
      && (x.status == 401 <==> r == Err(TokenFail))
      && (r.Ok? <==> x.status < 400)
      && (r.Err? && !IsCapiDown(x.status) && x.status != 401 ==> r == Err(HttpFail(x.status)))
    ensures r.Ok? ==> r.value == if x.isJson then x.body else None
  {
    match x
    case Unreachable => Err(ConnectionFail)
    case Response(status, text, isJson, body) =>
      if Text.Contains(text, EpicMarker) then Err(EpicFail)
      else if IsCapiDown(status) then Err(CapiFail)
      else if status == 401 then Err(TokenFail)
      else if status >= 400 then Err(HttpFail(status))
      else if isJson then Ok(body)
      else Ok(None)
  }

  /** A maintenance status is reported as maintenance even when it is also an error status. */
  lemma CapiDownBeforeHttpError<T>(status: int, text: string, isJson: bool, body: Option<T>)
    requires IsCapiDown(status) && !Text.Contains(text, EpicMarker)
    ensures Request(Response(status, text, isJson, body)) == Err(CapiFail)
  {
  }

  /** `profile`: the commander name of the body; an empty body has no name. */
  function Profile(x: Exchange<string>): (r: Result<string, QueryError>)
    ensures Request(x).Err? ==> r == Err(Request(x).error)
    ensures Request(x) == Ok(None) <==> r == Err(MissingKey)
    ensures r.Ok? <==> Request(x).Ok? && Request(x).value.Some?
    ensures r.Ok? ==> r.value == Request(x).value.value
  {
    match Request(x)
    case Err(e) => Err(e)
    case Ok(None) => Err(MissingKey)
    case Ok(Some(name)) => Ok(name)
  }

  // ---------------------------------------------------------------------------
  // Base 16

  newtype byte = x: int | 0 <= x < 256

  /** A hex digit of `b16decode(..., casefold=True)`: either case is accepted. */
  function HexValue(c: char): (r: Option<int>)
    ensures r.Some? ==> 0 <= r.value < 16
  {
    if '0' <= c <= '9' then Some(c as int - '0' as int)
    else if 'A' <= c <= 'F' then Some(c as int - 'A' as int + 10)
    else if 'a' <= c <= 'f' then Some(c as int - 'a' as int + 10)
    else None
  }

  /** The upper-case hex digit of a value below 16. */
  function HexDigit(v: int): (c: char)
    requires 0 <= v < 16
    ensures HexValue(c) == Some(v)
    ensures !Text.IsLower(c)
  {
    if v < 10 then ('0' as int + v) as char else ('A' as int + v - 10) as char
  }

  /** Upper-case base-16 text of a byte string, as `b16encode` writes it. */
  function Base16Encode(bs: seq<byte>): (s: string)
    ensures |s| == 2 * |bs|
  {
    if bs == [] then []
    else [HexDigit(bs[0] as int / 16), HexDigit(bs[0] as int % 16)] + Base16Encode(bs[1..])
  }

  /**
   * `b16decode(s, casefold=True)`: text of even length made only of hex
   * digits, two digits per byte, high digit first; anything else fails.
   */
  function Base16Decode(s: string): (r: Option<seq<byte>>)
    ensures r.Some? <==> |s| % 2 == 0 && forall i :: 0 <= i < |s| ==> HexValue(s[i]).Some?
    ensures r.Some? ==> |r.value| == |s| / 2
    ensures r.Some? ==> forall k :: 0 <= k < |r.value| ==>
      r.value[k] as int == 16 * HexValue(s[2 * k]).value + HexValue(s[2 * k + 1]).value
    decreases |s|
  {
    if s == [] then Some([])
    else if |s| == 1 then None
    else
      match (HexValue(s[0]), HexValue(s[1]), Base16Decode(s[2..]))
      case (Some(hi), Some(lo), Some(rest)) =>
        assert forall i :: 2 <= i < |s| ==> s[i] == s[2..][i - 2];
        Some([(16 * hi + lo) as byte] + rest)
      case _ =>
        assert forall i :: 2 <= i < |s| ==> s[i] == s[2..][i - 2];
        None
  }

  /** Decoding undoes the encoding. */
  lemma {:induction false} Base16RoundTrip(bs: seq<byte>)
    ensures Base16Decode(Base16Encode(bs)) == Some(bs)
  {
    if bs != [] {
      var s := Base16Encode(bs);
      assert s[2..] == Base16Encode(bs[1..]);
      Base16RoundTrip(bs[1..]);
      assert bs == [bs[0]] + bs[1..];
    }
  }

  /** Decoding ignores case: lower-cased text decodes to the same bytes. */
  lemma {:induction false} Base16CaseInsensitive(s: string)
    ensures Base16Decode(Text.Lower(s)) == Base16Decode(s)
    decreases |s|
  {
    var l := Text.Lower(s);
    assert forall i :: 0 <= i < |s| ==> HexValue(l[i]) == HexValue(s[i]);
    if |s| >= 2 {
      assert l[2..] == Text.Lower(s[2..]);
      Base16CaseInsensitive(s[2..]);
    }
  }

  // ---------------------------------------------------------------------------
  // The fleet carrier endpoint

  /** A sell order of the carrier's market. */
  datatype SaleOrder = SaleOrder(name: string, price: int, stock: int)

  /** A buy order of the carrier's market. */
  datatype PurchaseOrder = PurchaseOrder(name: string, price: int, outstanding: int)

  /** The fields of a `/fleetcarrier` body that are read. */
  datatype FleetPayload = FleetPayload(
    callsign: string, vanityName: string, marketId: int, system: string,
    sales: seq<SaleOrder>, purchases: seq<PurchaseOrder>)

  /** What `fleetcarrier` returns: (callsign, name, market id), the market and the current system. */
  datatype Fleet = Fleet(callsign: string, name: string, marketId: int, market: seq<Good>, system: string)

  /** A sell order as a good: stock side from the order, empty demand side. */
  function SaleGood(o: SaleOrder): Good
  {
    NewGood(o.name, FullDict(o.price, o.stock, Level(Depots.StockBracket(o.stock))), EmptyDict)
  }

  /** A buy order as a good: demand side from the outstanding amount, empty stock side. */
  function PurchaseGood(o: PurchaseOrder): Good
  {
    NewGood(o.name, EmptyDict, FullDict(o.price, o.outstanding, Level(Depots.StockBracket(o.outstanding))))
  }

  /** The market of a payload: every sell order, then every buy order, in order. */
  function FleetMarket(p: FleetPayload): (m: seq<Good>)
    ensures |m| == |p.sales| + |p.purchases|
    ensures forall i :: 0 <= i < |p.sales| ==>
      var o := p.sales[i];
      && m[i].name == Text.Lower(o.name)
      && m[i].stock == Market(o.price, o.stock, Level(Depots.StockBracket(o.stock)))
      && m[i].demand == EmptyMarket
    ensures forall i :: 0 <= i < |p.purchases| ==>
      var o := p.purchases[i];
      && m[|p.sales| + i].name == Text.Lower(o.name)
      && m[|p.sales| + i].stock == EmptyMarket
      && m[|p.sales| + i].demand == Market(o.price, o.outstanding, Level(Depots.StockBracket(o.outstanding)))
  {
    seq(|p.sales|, i requires 0 <= i < |p.sales| => SaleGood(p.sales[i]))
      + seq(|p.purchases|, i requires 0 <= i < |p.purchases| => PurchaseGood(p.purchases[i]))
  }

  /**
   * `fleetcarrier`: an empty body means the player owns no carrier; otherwise
   * the carrier's callsign, decoded display name, market id, market and system.
   * `utf8` is the UTF-8 decoding of bytes (`None` when they are not UTF-8).
   */
  function Fleetcarrier(x: Exchange<FleetPayload>, utf8: seq<byte> -> Option<string>): (r: Result<Option<Fleet>, QueryError>)
    ensures Request(x).Err? ==> r == Err(Request(x).error)
    ensures Request(x) == Ok(None) ==> r == Ok(None)
    ensures Request(x).Ok? && Request(x).value.Some? ==>
      var p := Request(x).value.value;
      var name := Base16Decode(p.vanityName);
      if name.None? || utf8(name.value).None? then r == Err(BadName)
      else r == Ok(Some(Fleet(p.callsign, utf8(name.value).value, p.marketId, FleetMarket(p), p.system)))
  {
    match Request(x)
    case Err(e) => Err(e)
    case Ok(None) => Ok(None)
    case Ok(Some(p)) =>
      match Base16Decode(p.vanityName)
      case None => Err(BadName)
      case Some(bytes) =>
        match utf8(bytes)
        case None => Err(BadName)
        case Some(name) => Ok(Some(Fleet(p.callsign, name, p.marketId, FleetMarket(p), p.system)))
  }

  /** A carrier read from the endpoint carries lower-case commodity names. */
  lemma FleetNamesLowerCase(x: Exchange<FleetPayload>, utf8: seq<byte> -> Option<string>)
    requires Fleetcarrier(x, utf8).Ok? && Fleetcarrier(x, utf8).value.Some?
    ensures var m := Fleetcarrier(x, utf8).value.value.market;
      forall i, j :: 0 <= i < |m| && 0 <= j < |m[i].name| ==> !Text.IsUpper(m[i].name[j])
  {
  }
}
