/**
 * The "CAPI" sheet: one row per Frontier account the bot holds Companion
 * API tokens for, keyed by the account id.
 */
module CapiSheet {

  import opened Wrappers
  import opened Text
  import opened Seqs
  import opened Patterns
  import opened Enums
  import opened Sheets
  import opened SheetTables
  import opened GoogleSheets
  import opened Storage
  import opened CapiServices

  const SheetName := "CAPI"

  /** `_CAPI_CHECKS`, in order. */
  const CapiChecks: seq<(string, Check)> := [
    ("Account", Check(IntKind, false, None)),
    ("Type", Check(StrKind, false, Some(Words(ServiceWords)))),
    ("Commander", Check(StrKind, false, None)),
    ("Carrier", Check(StrKind, true, Some(Callsign))),
    ("Discord", Check(IntKind, false, None)),
    ("Access Token", Check(StrKind, true, None)),
    ("Expiry", Check(IntKind, true, None)),
    ("Refresh Token", Check(StrKind, false, None))
  ]

  // ---------------------------------------------------------------------------
  // Loading

  /**
   * The access token of a row: a token and an expiry that are both set make
   * the pair, both unset make none, and one without the other is a
   * `ValueError` (`None` here).
   */
  function TokenOf(token: Cell, expiry: Cell): (r: Option<Option<Token>>)
    ensures Truthy(token) && Truthy(expiry) ==> r == Some(Some(Token(StrText(token), AsInt(expiry))))
    ensures !Truthy(token) && !Truthy(expiry) ==> r == Some(None)
    ensures r.None? <==> Truthy(token) != Truthy(expiry)
  {
    if Truthy(token) && Truthy(expiry) then Some(Some(Token(StrText(token), AsInt(expiry))))
    else if !Truthy(token) && !Truthy(expiry) then Some(None)
    else None
  }

  /** The account of a validated row; `None` for a `ValueError`. */
  function AccountOf(d: map<string, Cell>): Option<Account>
  {
    AccountFrom(
      Get(d, "Account"), Get(d, "Type"), Get(d, "Commander"), Get(d, "Carrier"),
      Get(d, "Discord"), Get(d, "Access Token"), Get(d, "Expiry"), Get(d, "Refresh Token"))
  }

  /** The account built from the validated cells of its eight keys. */
  function AccountFrom(account: Cell, service: Cell, commander: Cell, carrier: Cell,
                       discord: Cell, token: Cell, expiry: Cell, refresh: Cell): Option<Account>
  {
    match ParseService(StrText(service))
    case None => None
    case Some(s) =>
      match TokenOf(token, expiry)
      case None => None
      case Some(t) =>
        Some(Account(
          AsInt(account), s, StrText(commander),
          if carrier.Str? then Some(carrier.s) else None,
          AsInt(discord), t, StrText(refresh)))
  }

  /**
   * `_load_row`: a validation `IndexError` is raised; an invalid key or an
   * unpaired token is a `ValueError` that skips the row.
   */
  function DecodeAccount(headers: Row, row: Row): (r: Result<Option<Account>, LoadError>)
    ensures Validated(headers, row, CapiChecks, false).Err? <==> r.Err? && r.error.Failed?
    ensures r.Ok? ==>
      && Validated(headers, row, CapiChecks, false).Ok?
      && Validated(headers, row, CapiChecks, false).value.invalid == []
      && r.value.Some?
  {
    match Validated(headers, row, CapiChecks, false)
    case Err(e) => Err(Failed(e))
    case Ok(v) =>
      if v.invalid != [] then Err(Rejected)
      else
        match AccountOf(v.loaded)
        case None => Err(Rejected)
        case Some(a) => Ok(Some(a))
  }

  /** A validated `Type` cell always names a login service. */
  lemma ServiceTypeParses(headers: Row, row: Row)
    requires Validated(headers, row, CapiChecks, false).Ok?
    requires Validated(headers, row, CapiChecks, false).value.invalid == []
    ensures ParseService(StrText(Get(Validated(headers, row, CapiChecks, false).value.loaded, "Type"))).Some?
  {
    ChecksDistinct();
    CleanLoaded(headers, row, CapiChecks, false, 1);
    var d := Validated(headers, row, CapiChecks, false).value.loaded;
    ServiceWordsParse(StrText(d["Type"]));
  }

  /**
   * The `Type` pattern as written, `^Frontier|Steam|Epic$`, accepts a text
   * that only starts with a service name, which then names no service.
   */
  lemma TypeAsWrittenAcceptsNonService()
    ensures AlternationAsWritten(ServiceWords, "Frontierfoo")
    ensures !OneOf(ServiceWords, "Frontierfoo") && ParseService("Frontierfoo").None?
  {
    assert Text.StartsWith("Frontierfoo", ServiceWords[0]) by {
      assert "Frontierfoo"[..|ServiceWords[0]|] == ServiceWords[0];
    }
  }

  /** A row of a validated table whose token columns disagree is skipped. */
  lemma UnpairedTokenRejected(headers: Row, row: Row)
    requires Validated(headers, row, CapiChecks, false).Ok?
    requires var d := Validated(headers, row, CapiChecks, false).value.loaded;
      Truthy(Get(d, "Access Token")) != Truthy(Get(d, "Expiry"))
    ensures DecodeAccount(headers, row) == Err(Rejected)
  {
  }

  // ---------------------------------------------------------------------------
  // Pushing

  /** `info.carrier or ""`. */
  function CarrierCell(carrier: Option<string>): Cell
  {
    if carrier.Some? then Str(carrier.value) else Str("")
  }

  /** The token column and the expiry column: blank without a token. */
  function TokenCells(t: Option<Token>): Writes
  {
    if t.Some? then [("Access Token", Str(t.value.value)), ("Expiry", Int(t.value.expiry))]
    else [("Access Token", Str("")), ("Expiry", Str(""))]
  }

  /** The writes of a new row, in the order the source makes them. */
  function NewAccountWrites(a: Account): Writes
  {
    [ ("Account", Str(IntToString(a.customerId))),
      ("Type", Str(ServiceName(a.authType))),
      ("Commander", Str(a.commander)),
      ("Carrier", CarrierCell(a.carrier)),
      ("Discord", Str(IntToString(a.discordId))),
      ("Refresh Token", Str(a.refreshToken)) ]
    + TokenCells(a.accessToken)
  }

  /** The writes into an existing row of the account: `Discord` is not among them. */
  function AccountUpdates(a: Account): Writes
  {
    [ ("Type", Str(ServiceName(a.authType))),
      ("Commander", Str(a.commander)),
      ("Carrier", CarrierCell(a.carrier)),
      ("Refresh Token", Str(a.refreshToken)) ]
    + TokenCells(a.accessToken)
  }

  /**
   * `push_data` for one account: rows are found by the account id written as
   * text, a missing account is appended and not updated, every row of the
   * account is rewritten.
   */
  function AccountPlan(a: Account): Plan
  {
    Plan(Matcher("Account", Str(IntToString(a.customerId)), None), Some(Ok(NewAccountWrites(a))), false, AccountUpdates(a))
  }

  /** The keys an update writes, whatever the token. */
  lemma UpdateKeys(a: Account)
    ensures WriteKeys(AccountUpdates(a)) == ["Type", "Commander", "Carrier", "Refresh Token", "Access Token", "Expiry"]
    ensures Distinct(WriteKeys(AccountUpdates(a)))
    ensures "Account" !in WriteKeys(AccountUpdates(a)) && "Discord" !in WriteKeys(AccountUpdates(a))
  {
  }

  /** A push rewrites neither the account id nor the Discord id of an existing row. */
  lemma PushKeepsIdentity(t: Table, a: Account, i: nat)
    requires |t| > 0 && PushItem(t, AccountPlan(a)).Ok? && 1 <= i < |t|
    requires Writable(t[0], t[i], "Account") && Writable(t[0], t[i], "Discord")
    ensures var r := PushItem(t, AccountPlan(a)).value;
      && r[i][Column(t[0], "Account").value] == t[i][Column(t[0], "Account").value]
      && r[i][Column(t[0], "Discord").value] == t[i][Column(t[0], "Discord").value]
  {
    var p := AccountPlan(a);
    UpdateKeys(a);
    PushKeepsColumn(t, p, i, "Account");
    PushKeepsColumn(t, p, i, "Discord");
  }

  // ---------------------------------------------------------------------------
  // Round trip

  /**
   * An account the sheet can hold: ids that are not negative, a commander
   * and a refresh token that are not blank, a linked carrier that is a
   * callsign, and a token that is not blank with an expiry other than the
   * epoch (which reads back as unset).
   */
  predicate Storable(a: Account)
  {
    && a.customerId >= 0 && a.discordId >= 0 && a.commander != "" && a.refreshToken != ""
    && (a.carrier.Some? ==> CallsignMatch(a.carrier.value))
    && (a.accessToken.Some? ==> a.accessToken.value.value != "" && a.accessToken.value.expiry != 0)
  }

  /** What each check loads from a new row of the account, read back. */
  function LoadedCells(a: Account): seq<Cell>
  {
    [ Int(a.customerId), Str(ServiceName(a.authType)), Str(a.commander),
      if a.carrier.Some? then Str(a.carrier.value) else Null,
      Int(a.discordId),
      if a.accessToken.Some? then Str(a.accessToken.value.value) else Null,
      if a.accessToken.Some? then Int(a.accessToken.value.expiry) else Null,
      Str(a.refreshToken) ]
  }

  /** The cells a new row of the account holds, in the order of the checks. */
  function WrittenCells(a: Account): seq<Cell>
  {
    [ Str(IntToString(a.customerId)), Str(ServiceName(a.authType)), Str(a.commander),
      CarrierCell(a.carrier), Str(IntToString(a.discordId)),
      TokenCells(a.accessToken)[0].1, TokenCells(a.accessToken)[1].1,
      Str(a.refreshToken) ]
  }

  /** Every check accepts the value a new row of a storable account holds for it. */
  lemma NewRowAccepted(a: Account)
    requires Storable(a)
    ensures forall i :: 0 <= i < |CapiChecks| ==>
      JudgeCell(StoredCell(WrittenCells(a)[i]), CapiChecks[i].1, false) == Loaded(LoadedCells(a)[i])
  {
    forall i | 0 <= i < |CapiChecks|
      ensures JudgeCell(StoredCell(WrittenCells(a)[i]), CapiChecks[i].1, false) == Loaded(LoadedCells(a)[i])
    {
      AcceptedAt(a, i);
    }
  }

  /** The check at index `i` accepts the value a new row of a storable account holds for it. */
  lemma AcceptedAt(a: Account, i: nat)
    requires Storable(a) && i < |CapiChecks|
    ensures JudgeCell(StoredCell(WrittenCells(a)[i]), CapiChecks[i].1, false) == Loaded(LoadedCells(a)[i])
  {
    var c := CapiChecks[i].1;
    if i == 0 {
      DigitsCellLoads(a.customerId, c);
    } else if i == 1 {
      assert OneOf(ServiceWords, ServiceName(a.authType));
      TextCellLoads(ServiceName(a.authType), c);
    } else if i == 2 {
      TextCellLoads(a.commander, c);
    } else if i == 3 {
      if a.carrier.Some? {
        TextCellLoads(a.carrier.value, c);
      } else {
        BlankCellLoads(c);
      }
    } else if i == 4 {
      DigitsCellLoads(a.discordId, c);
    } else if i == 5 {
      if a.accessToken.Some? {
        TextCellLoads(a.accessToken.value.value, c);
      } else {
        BlankCellLoads(c);
      }
    } else if i == 6 {
      if a.accessToken.Some? {
        IntCellLoads(a.accessToken.value.expiry, c);
      } else {
        BlankCellLoads(c);
      }
    } else {
      TextCellLoads(a.refreshToken, c);
    }
  }

  /** The loaded values of an account's new row, by key. */
  predicate LoadsCells(d: map<string, Cell>, a: Account)
  {
    && "Account" in d && d["Account"] == Int(a.customerId)
    && "Type" in d && d["Type"] == Str(ServiceName(a.authType))
    && "Commander" in d && d["Commander"] == Str(a.commander)
    && "Carrier" in d && d["Carrier"] == (if a.carrier.Some? then Str(a.carrier.value) else Null)
    && "Discord" in d && d["Discord"] == Int(a.discordId)
    && "Access Token" in d && d["Access Token"] == (if a.accessToken.Some? then Str(a.accessToken.value.value) else Null)
    && "Expiry" in d && d["Expiry"] == (if a.accessToken.Some? then Int(a.accessToken.value.expiry) else Null)
    && "Refresh Token" in d && d["Refresh Token"] == Str(a.refreshToken)
  }

  /** The loaded values in check order are the loaded values by key. */
  lemma LoadsInOrder(d: map<string, Cell>, a: Account)
    requires forall i :: 0 <= i < |CapiChecks| ==> CapiChecks[i].0 in d && d[CapiChecks[i].0] == LoadedCells(a)[i]
    ensures LoadsCells(d, a)
  {
    assert CapiChecks[0].0 == "Account" && CapiChecks[1].0 == "Type" && CapiChecks[2].0 == "Commander";
    assert CapiChecks[3].0 == "Carrier" && CapiChecks[4].0 == "Discord" && CapiChecks[5].0 == "Access Token";
    assert CapiChecks[6].0 == "Expiry" && CapiChecks[7].0 == "Refresh Token";
  }

  /** The account a storable record loads as, once its new row is read back. */
  lemma LoadedAccount(a: Account, d: map<string, Cell>)
    requires a.accessToken.Some? ==> a.accessToken.value.value != "" && a.accessToken.value.expiry != 0
    requires LoadsCells(d, a)
    ensures AccountOf(d) == Some(a)
  {
    var carrier := if a.carrier.Some? then Str(a.carrier.value) else Null;
    var token := if a.accessToken.Some? then Str(a.accessToken.value.value) else Null;
    var expiry := if a.accessToken.Some? then Int(a.accessToken.value.expiry) else Null;
    assert AccountOf(d) == AccountFrom(Int(a.customerId), Str(ServiceName(a.authType)), Str(a.commander), carrier,
      Int(a.discordId), token, expiry, Str(a.refreshToken));
    ServiceRoundTrip(a.authType);
    assert TokenOf(token, expiry) == Some(a.accessToken);
  }

  /**
   * A storable account the push appends, uploaded and pulled again, loads
   * as the same account.
   */
  lemma AccountRoundTrip(headers: Row, a: Account)
    requires HasHeaders(headers, Keys(CapiChecks)) && Storable(a)
    ensures DecodeAccount(headers, ReadBack(NewRow(headers, NewAccountWrites(a)))) == Ok(Some(a))
  {
    NewRowAccepted(a);
    NewRowValidates(headers, a);
    var v := Validated(headers, ReadBack(NewRow(headers, NewAccountWrites(a))), CapiChecks, false).value;
    LoadedAccount(a, v.loaded);
  }

  lemma ChecksDistinct()
    ensures DistinctKeys(CapiChecks)
  {
  }

  /** A new row writes every checked key once. */
  lemma WritesDistinct(a: Account)
    ensures Distinct(WriteKeys(NewAccountWrites(a)))
  {
    var ks := WriteKeys(NewAccountWrites(a));
    assert ks[6] == "Access Token" && ks[7] == "Expiry";
  }

  /** Where each checked key sits among the writes of a new row. */
  function WritePosition(i: nat): nat
  {
    if i == 5 then 6 else if i == 6 then 7 else if i == 7 then 5 else i
  }

  /** The check whose key sits at position `k` of the writes of a new row. */
  function CheckAt(k: nat): nat
  {
    if k == 5 then 7 else if k == 6 then 5 else if k == 7 then 6 else k
  }

  /** The writes of a new row are the checked keys with their written cells, reordered. */
  lemma WritesAreChecks(a: Account)
    ensures |NewAccountWrites(a)| == |CapiChecks|
    ensures forall i :: 0 <= i < |CapiChecks| ==>
      WritePosition(i) < |CapiChecks| && NewAccountWrites(a)[WritePosition(i)] == (CapiChecks[i].0, WrittenCells(a)[i])
    ensures forall k :: 0 <= k < |CapiChecks| ==> CheckAt(k) < |CapiChecks| && WritePosition(CheckAt(k)) == k
  {
    assert WritePosition(0) == 0 && WritePosition(1) == 1 && WritePosition(2) == 2 && WritePosition(3) == 3;
    assert WritePosition(4) == 4 && WritePosition(7) == 5 && WritePosition(5) == 6 && WritePosition(6) == 7;
  }

  /** A new row whose every cell its check accepts validates with nothing invalid. */
  lemma NewRowValidates(headers: Row, a: Account)
    requires HasHeaders(headers, Keys(CapiChecks))
    requires forall i :: 0 <= i < |CapiChecks| ==>
      JudgeCell(StoredCell(WrittenCells(a)[i]), CapiChecks[i].1, false) == Loaded(LoadedCells(a)[i])
    ensures var r := Validated(headers, ReadBack(NewRow(headers, NewAccountWrites(a))), CapiChecks, false);
      r.Ok? && r.value.invalid == [] && LoadsCells(r.value.loaded, a)
  {
    var ws := NewAccountWrites(a);
    var vals := WrittenCells(a);
    ChecksDistinct();
    WritesDistinct(a);
    WritesAreChecks(a);
    forall k | 0 <= k < |ws| ensures Str(ws[k].0) in headers {
      var i := CheckAt(k);
      assert ws[k].0 == Keys(CapiChecks)[i];
    }
    forall i | 0 <= i < |CapiChecks| ensures (CapiChecks[i].0, vals[i]) in ws {
      assert ws[WritePosition(i)] == (CapiChecks[i].0, vals[i]);
    }
    NewRowLoads(headers, ws, CapiChecks, vals);
    var v := Validated(headers, ReadBack(NewRow(headers, ws)), CapiChecks, false).value;
    LoadsInOrder(v.loaded, a);
  }

  // ---------------------------------------------------------------------------
  // The accounts as objects

  /** The plan of each account, in order. */
  function AccountPlans(os: seq<CapiData>): seq<Plan>
    reads os
  {
    seq(|os|, k requires 0 <= k < |os| reads os => AccountPlan(os[k].Value()))
  }

  /** `load_data` on the local copy: every valid row as a new account object. */
  method LoadData(sheet: GoogleSheet) returns (r: Result<seq<CapiData>, SheetError>)
    requires sheet.Valid()
    ensures var recs := LoadFrom(sheet.Get(SheetName), DecodeAccount);
      && (recs.Err? ==> r == Err(recs.error))
      && (recs.Ok? ==>
            && r.Ok? && |r.value| == |recs.value|
            && forall k :: 0 <= k < |r.value| ==> fresh(r.value[k]) && r.value[k].Value() == recs.value[k])
  {
    var recs := LoadSheet(sheet, SheetName, DecodeAccount);
    if recs.Err? {
      return Err(recs.error);
    }
    var out := NewAccounts(recs.value);
    return Ok(out);
  }

  /** A new account object for each loaded record, in order. */
  method NewAccounts(xs: seq<Account>) returns (os: seq<CapiData>)
    ensures |os| == |xs| && forall k :: 0 <= k < |os| ==> fresh(os[k]) && os[k].Value() == xs[k]
  {
    os := [];
    var i := 0;
    while i < |xs|
      invariant 0 <= i <= |xs| && |os| == i
      invariant forall k :: 0 <= k < i ==> fresh(os[k]) && os[k].Value() == xs[k]
    {
      var o := new CapiData(xs[i]);
      os := os + [o];
      i := i + 1;
    }
  }

  /** `push_data` on the local copy; the upload that follows is `GoogleSheet.Push`. */
  method PushData(sheet: GoogleSheet, data: seq<CapiData>) returns (r: Result<(), SheetError>)
    requires sheet.Valid()
    modifies sheet`local
    ensures sheet.Valid()
    ensures var e := EditFrom(old(sheet.Get(SheetName)), Keys(CapiChecks), AccountPlans(data));
      && (e.Err? ==> r == Err(e.error) && sheet.local == old(sheet.local))
      && (e.Ok? ==> r == Ok(()) && sheet.local == old(sheet.local)[SheetName := e.value])
  {
    r := EditSheet(sheet, SheetName, Keys(CapiChecks), AccountPlans(data));
  }
}
