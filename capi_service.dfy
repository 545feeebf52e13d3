/**
 * The Companion API account registry: one record per Frontier account with
 * its tokens and carrier link, the token refresh, the account sign-in, the
 * fleet carrier query and the periodic pass that repairs expired tokens and
 * missing carrier links.
 */
module CapiServices {

  import opened Wrappers
  import opened Enums
  import Text
  import opened CapiQuery

  /** An access token and its expiry (seconds). */
  datatype Token = Token(value: string, expiry: int)

  /** A `CapiData` record as a value. */
  datatype Account = Account(
    customerId: int, authType: Service, commander: string, carrier: Option<string>,
    discordId: int, accessToken: Option<Token>, refreshToken: string)

  /** `if data.carrier`: a carrier link that is present and not empty. */
  predicate Linked(carrier: Option<string>)
  {
    carrier.Some? && carrier.value != ""
  }

  /** The failures the service passes on. */
  datatype CapiError =
    | NoAccount              // `ValueError`: no account with the id
    | RefreshFail            // the token endpoint answers 401
    | Query(error: QueryError)  // a failure of a query or of the token endpoint's connection

  /**
   * The answer of the token endpoint: new tokens, a 401, another error
   * status (`ClientResponseError`) or no answer at all.
   */
  datatype TokenOutcome =
    | Tokens(access: string, refresh: string, expiry: int)
    | Unauthorised
    | Refused(status: int)
    | NoAnswer

  /** The account id and third-party user id of the token decoder. */
  datatype Identity = Identity(customerId: int, serviceId: Option<string>)

  /** An account after an operation, with what the operation returns or raises. */
  datatype Step<T> = Step(account: Account, result: Result<T, CapiError>)

  /** The error an unreachable or refusing token endpoint raises, or `None` when it is handled. */
  function TokenError(o: TokenOutcome): Option<CapiError>
  {
    match o
    case Unauthorised => Some(RefreshFail)
    case NoAnswer => Some(Query(ConnectionFail))
    case _ => None
  }

  /**
   * `_refresh_token` on one account: new tokens are stored and give true, a
   * refusal drops the access token and gives false, and a 401 or a lost
   * connection raises with the account untouched.
   */
  function RefreshStep(a: Account, o: TokenOutcome): (s: Step<bool>)
    ensures s.result == Ok(true) <==> o.Tokens?
    ensures s.result == Ok(false) <==> o.Refused?
    ensures s.result.Ok? ==> (s.result.value <==> s.account.accessToken.Some?)
    ensures o.Tokens? ==> s.account.accessToken == Some(Token(o.access, o.expiry)) && s.account.refreshToken == o.refresh
    ensures o.Refused? ==> s.account.refreshToken == a.refreshToken
    ensures s.result.Err? ==> s.account == a && Some(s.result.error) == TokenError(o)
    ensures s.account.(accessToken := a.accessToken, refreshToken := a.refreshToken) == a
  {
    match o
    case Tokens(access, refresh, expiry) =>
      Step(a.(accessToken := Some(Token(access, expiry)), refreshToken := refresh), Ok(true))
    case Refused(_) => Step(a.(accessToken := None), Ok(false))
    case Unauthorised => Step(a, Err(RefreshFail))
    case NoAnswer => Step(a, Err(Query(ConnectionFail)))
  }

  /** The query failures that `auth_account` turns into a plain refusal. */
  predicate GivesUp(e: QueryError)
  {
    e == EpicFail || e == CapiFail
  }

  /** The account type of a third-party user id: none for Frontier, all digits for Steam. */
  function ServiceOf(serviceId: Option<string>): (s: Service)
    ensures s == Frontier <==> serviceId.None?
    ensures s == Steam <==> serviceId.Some? && Text.IsDigits(serviceId.value)
    ensures s == Epic <==> serviceId.Some? && !Text.IsDigits(serviceId.value)
  {
    if serviceId.None? then Frontier
    else if Text.IsDigits(serviceId.value) then Steam
    else Epic
  }

  /**
   * `fleetcarrier` of the service on an account holding a token: refresh an
   * expired token first (a failed refresh ends with no carrier), then query;
   * an Epic failure drops the token, a maintenance failure keeps it, and an
   * empty answer unlinks the carrier.
   */
  function FleetStep(a: Account, now: int, refresh: TokenOutcome, fleet: string -> Result<Option<Fleet>, QueryError>)
    : (s: Step<Option<Fleet>>)
    requires a.accessToken.Some?
    ensures s.account.(accessToken := a.accessToken, refreshToken := a.refreshToken, carrier := a.carrier) == a
    ensures a.accessToken.value.expiry >= now ==> s.account.refreshToken == a.refreshToken
    ensures s.result == Err(Query(EpicFail)) ==> s.account.accessToken.None?
    ensures s.result == Err(Query(CapiFail)) ==> s.account.accessToken.Some?
    ensures s.account.carrier != a.carrier ==> s.account.carrier == None && s.result == Ok(None)
    ensures s.result.Ok? && s.result.value.Some? ==>
      && s.account.carrier == a.carrier && s.account.accessToken.Some?
      && fleet(s.account.accessToken.value.value) == Ok(s.result.value)
  {
    var r := if a.accessToken.value.expiry < now then RefreshStep(a, refresh) else Step(a, Ok(true));
    if r.result.Err? then Step(r.account, Err(r.result.error))
    else if !r.result.value then Step(r.account, Ok(None))
    else
      var b := r.account;
      match fleet(b.accessToken.value.value)
      case Err(EpicFail) => Step(b.(accessToken := None), Err(Query(EpicFail)))
      case Err(e) => Step(b, Err(Query(e)))
      case Ok(None) => Step(b.(carrier := None), Ok(None))
      case Ok(Some(f)) => Step(b, Ok(Some(f)))
  }

  /** A token that has not expired is used as it is: no refresh happens. */
  lemma FleetStepFreshToken(a: Account, now: int, refresh: TokenOutcome, fleet: string -> Result<Option<Fleet>, QueryError>)
    requires a.accessToken.Some? && a.accessToken.value.expiry >= now
    ensures FleetStep(a, now, refresh, fleet) == FleetStep(a, now, NoAnswer, fleet)
    ensures FleetStep(a, now, refresh, fleet).result != Err(RefreshFail)
  {
  }

  /**
   * One account of `update`: an account with a token and a carrier is
   * skipped; a missing token is refreshed first, and a failed refresh ends
   * the account's turn; a missing carrier link is then looked up, an Epic
   * failure dropping the token.
   */
  function UpdateStep(a: Account, refresh: string -> TokenOutcome, fleet: string -> Result<Option<Fleet>, QueryError>)
    : (s: Step<()>)
    ensures a.accessToken.Some? && Linked(a.carrier) ==> s == Step(a, Ok(()))
    ensures s.account.(accessToken := a.accessToken, refreshToken := a.refreshToken, carrier := a.carrier) == a
    ensures a.accessToken.Some? ==> s.account.refreshToken == a.refreshToken
    ensures a.accessToken.None? && RefreshStep(a, refresh(a.refreshToken)).result != Ok(true) ==>
      s.account == RefreshStep(a, refresh(a.refreshToken)).account &&
      (s.result.Err? <==> RefreshStep(a, refresh(a.refreshToken)).result.Err?)
    ensures s.account.carrier != a.carrier ==>
      !Linked(a.carrier) && s.account.accessToken.Some? && s.result.Ok? &&
      exists f: Fleet :: fleet(s.account.accessToken.value.value) == Ok(Some(f)) && s.account.carrier == Some(f.callsign)
    ensures s.result.Err? ==> s.account.carrier == a.carrier
  {
    if a.accessToken.Some? && Linked(a.carrier) then Step(a, Ok(()))
    else
      var r := if a.accessToken.None? then RefreshStep(a, refresh(a.refreshToken)) else Step(a, Ok(true));
      if r.result.Err? then Step(r.account, Err(r.result.error))
      else if !r.result.value then Step(r.account, Ok(()))
      else
        var b := r.account;
        if Linked(b.carrier) then Step(b, Ok(()))
        else
          match fleet(b.accessToken.value.value)
          case Err(EpicFail) => Step(b.(accessToken := None), Ok(()))
          case Err(e) => Step(b, Err(Query(e)))
          case Ok(None) => Step(b, Ok(()))
          case Ok(Some(f)) => Step(b.(carrier := Some(f.callsign)), Ok(()))
  }

  /** Once an account has a token and a carrier link, `update` leaves it alone. */
  lemma UpdateStepSettles(a: Account, refresh: string -> TokenOutcome, fleet: string -> Result<Option<Fleet>, QueryError>)
    requires var s := UpdateStep(a, refresh, fleet); s.account.accessToken.Some? && Linked(s.account.carrier)
    ensures var b := UpdateStep(a, refresh, fleet).account; UpdateStep(b, refresh, fleet) == Step(b, Ok(()))
  {
  }

  /** A CAPI account record. */
  class CapiData {
    const customerId: int
    var authType: Service
    var commander: string
    var carrier: Option<string>
    var discordId: int
    var accessToken: Option<Token>
    var refreshToken: string

    constructor (a: Account)
      ensures Value() == a
    {
      customerId, authType, commander, carrier := a.customerId, a.authType, a.commander, a.carrier;
      discordId, accessToken, refreshToken := a.discordId, a.accessToken, a.refreshToken;
    }

    function Value(): Account
      reads this
    {
      Account(customerId, authType, commander, carrier, discordId, accessToken, refreshToken)
    }

    /** Overwrite every field but the account id. */
    method Store(a: Account)
      requires a.customerId == customerId
      modifies this
      ensures Value() == a
    {
      authType, commander, carrier := a.authType, a.commander, a.carrier;
      discordId, accessToken, refreshToken := a.discordId, a.accessToken, a.refreshToken;
    }
  }

  /** The criteria of `find_carrier`, `find_commander` and `find_account`. */
  datatype Lookup = ByCarrier(callsign: string) | ByCommander(commander: string) | ByAccount(customerId: int)

  predicate Matches(a: Account, q: Lookup)
  {
    match q
    case ByCarrier(c) => a.carrier == Some(c)
    case ByCommander(c) => a.commander == c
    case ByAccount(id) => a.customerId == id
  }

  predicate RecordMatches(d: CapiData, q: Lookup)
    reads d
  {
    Matches(d.Value(), q)
  }

  /** The position of the first matching record, or the length of the sequence. */
  function FirstMatch(ds: seq<CapiData>, q: Lookup): (i: nat)
    reads ds
    ensures i <= |ds|
    ensures forall j :: 0 <= j < i ==> !RecordMatches(ds[j], q)
    ensures i < |ds| ==> RecordMatches(ds[i], q)
  {
    if ds == [] then 0
    else if RecordMatches(ds[0], q) then 0
    else
      var i := FirstMatch(ds[1..], q);
      assert forall j :: 1 <= j < i + 1 ==> ds[j] == ds[1..][j - 1];
      i + 1
  }

  /** The carrier links of the records that are present and not empty, in order. */
  function LinkedCarriers(ds: seq<CapiData>): (r: seq<string>)
    reads ds
    ensures |r| <= |ds|
    ensures forall k :: 0 <= k < |ds| && Linked(ds[k].carrier) ==> ds[k].carrier.value in r
    ensures forall s :: s in r ==> s != "" && exists k :: 0 <= k < |ds| && ds[k].carrier == Some(s)
  {
    if ds == [] then []
    else
      var rest := LinkedCarriers(ds[1..]);
      assert forall k :: 1 <= k < |ds| ==> ds[k] == ds[1..][k - 1];
      if Linked(ds[0].carrier) then [ds[0].carrier.value] + rest else rest
  }

  class CapiService {
    /** The record set, in its iteration order. */
    var data: seq<CapiData>
    /** The carriers announced through `sync`, oldest first. */
    var syncs: seq<Fleet>

    /** Account ids are unique, so each record appears once. */
    ghost predicate Valid()
      reads this
    {
      forall i, j :: 0 <= i < j < |data| ==> data[i].customerId != data[j].customerId
    }

    constructor ()
      ensures Valid() && data == [] && syncs == []
    {
      data, syncs := [], [];
    }

    /**
     * `pull`: replace the records by the loaded ones. The loader does not
     * check that account ids are unique; the registry relies on it.
     */
    method Pull(loaded: seq<CapiData>)
      requires forall i, j :: 0 <= i < j < |loaded| ==> loaded[i].customerId != loaded[j].customerId
      modifies this
      ensures Valid() && data == loaded && syncs == old(syncs)
    {
      data := loaded;
    }

    /** `_Data.find_*`: the first record, in iteration order, that matches. */
    function Find(q: Lookup): (r: Option<CapiData>)
      reads this, data
      ensures r.Some? ==> r.value in data && RecordMatches(r.value, q)
      ensures r.None? <==> forall d :: d in data ==> !RecordMatches(d, q)
    {
      var i := FirstMatch(data, q);
      if i < |data| then Some(data[i]) else None
    }

    /** With unique ids, the record found for an account id is the record holding it. */
    lemma FindOwnAccount(d: CapiData)
      requires Valid() && d in data
      ensures Find(ByAccount(d.customerId)) == Some(d)
    {
      var i := FirstMatch(data, ByAccount(d.customerId));
      var j :| 0 <= j < |data| && data[j] == d;
      assert i <= j;
      assert !(i < j);
    }

    /** `get_carriers`: the non-empty carrier links of all records, in record order. */
    function GetCarriers(): seq<string>
      reads this, data
    {
      LinkedCarriers(data)
    }

    /** The linked carriers are exactly the non-empty carrier links of the records. */
    lemma GetCarriersLinked()
      ensures forall s :: s in GetCarriers() <==> s != "" && exists d :: d in data && d.carrier == Some(s)
    {
      assert forall s :: s != "" && (exists d :: d in data && d.carrier == Some(s)) ==>
        exists k :: 0 <= k < |data| && data[k].carrier == Some(s);
    }

    /** `get_state`: no record links the carrier, its record has no token, or it is synced. */
    function GetState(callsign: string): (s: State)
      reads this, data
      ensures s == Unlisted <==> Find(ByCarrier(callsign)).None?
      ensures s == Expired <==> Find(ByCarrier(callsign)).Some? && Find(ByCarrier(callsign)).value.accessToken.None?
    {
      var d := Find(ByCarrier(callsign));
      if d.None? then Unlisted
      else if d.value.accessToken.None? then Expired
      else Syncing
    }

    /** A non-empty callsign is listed exactly when it is one of the linked carriers. */
    lemma ListedIffLinked(callsign: string)
      requires callsign != ""
      ensures GetState(callsign) != Unlisted <==> callsign in GetCarriers()
    {
      GetCarriersLinked();
      if callsign in GetCarriers() {
        var d :| d in data && d.carrier == Some(callsign);
        assert RecordMatches(d, ByCarrier(callsign));
      }
    }

    /**
     * `_refresh_token`: refresh the tokens of the account with the id; an
     * unknown id raises and nothing else changes.
     */
    method RefreshToken(account: int, o: TokenOutcome) returns (r: Result<bool, CapiError>)
      requires Valid()
      modifies data
      ensures old(Find(ByAccount(account))).None? ==> r == Err(NoAccount) && unchanged(data)
      ensures old(Find(ByAccount(account))).Some? ==>
        var d := old(Find(ByAccount(account))).value;
        var s := RefreshStep(old(d.Value()), o);
        d.Value() == s.account && r == s.result
      ensures forall d :: d in data && Some(d) != old(Find(ByAccount(account))) ==> unchanged(d)
    {
      var info := Find(ByAccount(account));
      if info.None? {
        return Err(NoAccount);
      }
      var d := info.value;
      var s := RefreshStep(d.Value(), o);
      if s.result.Ok? {
        d.Store(s.account);
      }
      r := s.result;
    }

    /**
     * `get_token`: the commander's access token, refreshed first when it has
     * expired; nothing for an unknown commander, a missing token or a refused
     * refresh.
     */
    method GetToken(commander: string, now: int, o: TokenOutcome) returns (r: Result<Option<Token>, CapiError>)
      requires Valid()
      modifies data
      ensures var f := old(Find(ByCommander(commander)));
        f.None? || old(f.value.accessToken).None? ==> r == Ok(None) && unchanged(data)
      ensures var f := old(Find(ByCommander(commander)));
        f.Some? && old(f.value.accessToken).Some? && old(f.value.accessToken).value.expiry >= now ==>
          r == Ok(old(f.value.accessToken)) && unchanged(data)
      ensures var f := old(Find(ByCommander(commander)));
        f.Some? && old(f.value.accessToken).Some? && old(f.value.accessToken).value.expiry < now ==>
          var s := RefreshStep(old(f.value.Value()), o);
          && f.value.Value() == s.account
          && r == (if s.result.Err? then Err(s.result.error) else Ok(s.account.accessToken))
      ensures forall d :: d in data && Some(d) != old(Find(ByCommander(commander))) ==> unchanged(d)
    {
      var info := Find(ByCommander(commander));
      if info.None? || info.value.accessToken.None? {
        return Ok(None);
      }
      var d := info.value;
      if d.accessToken.value.expiry < now {
        FindOwnAccount(d);
        var refreshed := RefreshToken(d.customerId, o);
        if refreshed.Err? {
          return Err(refreshed.error);
        }
        if !refreshed.value {
          return Ok(None);
        }
      }
      return Ok(d.accessToken);
    }

    /**
     * The upsert of `auth_account`: overwrite the record with the account's
     * id, or add a new record when there is none.
     */
    method Upsert(a: Account) returns (ghost d: CapiData)
      requires Valid()
      modifies this, data
      ensures Valid() && syncs == old(syncs)
      ensures d in data && d.Value() == a && Find(ByAccount(a.customerId)) == Some(d)
      ensures old(Find(ByAccount(a.customerId))).Some? ==> data == old(data) && Some(d) == old(Find(ByAccount(a.customerId)))
      ensures old(Find(ByAccount(a.customerId))).None? ==> data == old(data) + [d] && fresh(d)
      ensures forall e :: e in old(data) && e != d ==> unchanged(e)
    {
      var found := Find(ByAccount(a.customerId));
      if found.Some? {
        var e := found.value;
        e.Store(a);
        d := e;
      } else {
        var n := new CapiData(a);
        data := data + [n];
        d := n;
      }
      FindOwnAccount(d);
    }

    /**
     * `auth_account`: exchange the sign-in for tokens, read the account's
     * identity, commander and carrier, announce the carrier when asked to,
     * and store the account. A refused exchange and an Epic or maintenance
     * failure of the queries give false and change nothing.
     */
    method AuthAccount(tokens: TokenOutcome, identity: Result<Identity, QueryError>,
                       profile: Result<string, QueryError>, fleet: Result<Option<Fleet>, QueryError>,
                       discord: int, sync: bool)
      returns (r: Result<bool, CapiError>)
      requires Valid()
      modifies this, data
      ensures Valid()
      ensures r == Ok(true) <==> tokens.Tokens? && identity.Ok? && profile.Ok? && fleet.Ok?
      ensures r == Ok(false) <==>
        || tokens.Refused?
        || (tokens.Tokens? && identity.Ok? && profile.Err? && GivesUp(profile.error))
        || (tokens.Tokens? && identity.Ok? && profile.Ok? && fleet.Err? && GivesUp(fleet.error))
      ensures r.Err? && TokenError(tokens).Some? ==> r.error == TokenError(tokens).value
      ensures r != Ok(true) ==> data == old(data) && syncs == old(syncs) && forall d :: d in data ==> unchanged(d)
      ensures r == Ok(true) ==>
        var id := identity.value;
        var callsign := if fleet.value.Some? then Some(fleet.value.value.callsign) else None;
        var a := Account(id.customerId, ServiceOf(id.serviceId), profile.value, callsign, discord,
                         Some(Token(tokens.access, tokens.expiry)), tokens.refresh);
        && Find(ByAccount(id.customerId)).Some? && Find(ByAccount(id.customerId)).value.Value() == a
        && (old(Find(ByAccount(id.customerId))).Some? ==> data == old(data))
        && (old(Find(ByAccount(id.customerId))).None? ==> |data| == |old(data)| + 1 && data[..|old(data)|] == old(data))
        && (forall d :: d in old(data) && d.customerId != id.customerId ==> unchanged(d))
        && syncs == old(syncs) + (if sync && fleet.value.Some? then [fleet.value.value] else [])
    {
      match tokens {
        case Unauthorised => return Err(RefreshFail);
        case NoAnswer => return Err(Query(ConnectionFail));
        case Refused(_) => return Ok(false);
        case Tokens(access, refresh, expiry) =>
          if identity.Err? {
            return Err(Query(identity.error));
          }
          if profile.Err? {
            return if GivesUp(profile.error) then Ok(false) else Err(Query(profile.error));
          }
          if fleet.Err? {
            return if GivesUp(fleet.error) then Ok(false) else Err(Query(fleet.error));
          }
          var callsign: Option<string> := None;
          if fleet.value.Some? {
            if sync {
              syncs := syncs + [fleet.value.value];
            }
            callsign := Some(fleet.value.value.callsign);
          }
          var id := identity.value;
          var a := Account(id.customerId, ServiceOf(id.serviceId), profile.value, callsign, discord,
                           Some(Token(access, expiry)), refresh);
          ghost var d := Upsert(a);
          return Ok(true);
      }
    }

    /**
     * `fleetcarrier` of the service: the carrier's current state through its
     * account's token, or nothing when no account with a token links it.
     */
    method Fleetcarrier(callsign: string, now: int, refresh: TokenOutcome,
                        fleet: string -> Result<Option<Fleet>, QueryError>)
      returns (r: Result<Option<Fleet>, CapiError>)
      requires Valid()
      modifies data
      ensures var f := old(Find(ByCarrier(callsign)));
        f.None? || old(f.value.accessToken).None? ==> r == Ok(None) && unchanged(data)
      ensures var f := old(Find(ByCarrier(callsign)));
        f.Some? && old(f.value.accessToken).Some? ==>
          var s := FleetStep(old(f.value.Value()), now, refresh, fleet);
          f.value.Value() == s.account && r == s.result
      ensures forall d :: d in data && Some(d) != old(Find(ByCarrier(callsign))) ==> unchanged(d)
    {
      var info := Find(ByCarrier(callsign));
      if info.None? || info.value.accessToken.None? {
        return Ok(None);
      }
      var d := info.value;
      if d.accessToken.value.expiry < now {
        FindOwnAccount(d);
        var refreshed := RefreshToken(d.customerId, refresh);
        if refreshed.Err? {
          return Err(refreshed.error);
        }
        if !refreshed.value {
          return Ok(None);
        }
      }
      var response := fleet(d.accessToken.value.value);
      match response {
        case Err(EpicFail) =>
          d.accessToken := None;
          return Err(Query(EpicFail));
        case Err(e) => return Err(Query(e));
        case Ok(None) =>
          d.carrier := None;
          return Ok(None);
        case Ok(Some(f)) => return Ok(Some(f));
      }
    }

    /** One account's turn of `update`. */
    method UpdateOne(d: CapiData, refresh: string -> TokenOutcome, fleet: string -> Result<Option<Fleet>, QueryError>)
      returns (r: Result<(), CapiError>)
      requires Valid() && d in data
      modifies data
      ensures var s := UpdateStep(old(d.Value()), refresh, fleet); d.Value() == s.account && r == s.result
      ensures forall k :: 0 <= k < |data| && data[k] != d ==> data[k].Value() == old(data[k].Value())
    {
      if d.accessToken.Some? && Linked(d.carrier) {
        return Ok(());
      }
      if d.accessToken.None? {
        FindOwnAccount(d);
        var success := RefreshToken(d.customerId, refresh(d.refreshToken));
        assert forall k :: 0 <= k < |data| && data[k] != d ==> data[k] in data;
        if success.Err? {
          return Err(success.error);
        }
        if !success.value {
          return Ok(());
        }
      }
      if !Linked(d.carrier) {
        var response := fleet(d.accessToken.value.value);
        match response {
          case Err(EpicFail) => d.accessToken := None;
          case Err(e) => return Err(Query(e));
          case Ok(None) =>
          case Ok(Some(f)) => d.carrier := Some(f.callsign);
        }
      }
      return Ok(());
    }

    /**
     * `update`: give every account its turn, in iteration order, until one
     * raises. `stop` is the position of the account that raised, or the
     * number of accounts.
     */
    method Update(refresh: string -> TokenOutcome, fleet: string -> Result<Option<Fleet>, QueryError>)
      returns (r: Result<(), CapiError>, ghost stop: nat)
      requires Valid()
      modifies data
      ensures stop <= |data| && (r.Err? <==> stop < |data|)
      ensures forall k :: 0 <= k < stop ==>
        var s := UpdateStep(old(data[k].Value()), refresh, fleet); data[k].Value() == s.account && s.result.Ok?
      ensures stop < |data| ==>
        var s := UpdateStep(old(data[stop].Value()), refresh, fleet); data[stop].Value() == s.account && r == s.result
      ensures forall k :: stop < k < |data| ==> data[k].Value() == old(data[k].Value())
    {
      var i := 0;
      while i < |data|
        invariant i <= |data|
        invariant forall k :: 0 <= k < i ==>
          var s := UpdateStep(old(data[k].Value()), refresh, fleet); data[k].Value() == s.account && s.result.Ok?
        invariant forall k :: i <= k < |data| ==> data[k].Value() == old(data[k].Value())
      {
        assert forall k :: 0 <= k < |data| && k != i ==> data[k] != data[i] by {
          assert forall k :: 0 <= k < |data| && k != i ==> data[k].customerId != data[i].customerId;
        }
        r := UpdateOne(data[i], refresh, fleet);
        if r.Err? {
          return r, i;
        }
        i := i + 1;
      }
      return Ok(()), |data|;
    }
  }
}
