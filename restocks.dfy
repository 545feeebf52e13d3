/**
 * The restock service: the set of restock tasks, the evaluation that opens,
 * updates and closes a carrier's task from its tritium stock, and the hauler
 * join/leave toggle driven from Discord.
 */
module Restocks {

  import opened Wrappers
  import opened Enums
  import opened Goods
  import opened Depots
  import opened Tasks

  /** The failures the service raises: a failed `assert`, or a `ValueError`. */
  datatype RestockError =
    | NoOpenTask      // `assert restock`: the carrier has no open task
    | NoTritium       // `assert carrier.tritium`
    | UnknownTask     // `ValueError`: no task for the message
    | NotAHauler      // `ValueError` of `list.remove`

  /**
   * The criteria of `find`. An empty string, `None` and the message id 0 mean
   * "any"; closed tasks are skipped unless asked for.
   */
  datatype Query = Query(
    callsign: string, displayName: string, message: Option<int>, stage: Option<Stage>,
    includeComplete: bool, includeAborted: bool)

  function ByCallsign(callsign: string): Query
  {
    Query(callsign, "", None, None, false, false)
  }

  function ByMessage(message: int): Query
  {
    Query("", "", Some(message), None, false, false)
  }

  /** The parts of a task that `find` inspects. */
  datatype TaskKey = TaskKey(callsign: string, displayName: string, stage: Stage, message: int)

  predicate KeyMatches(k: TaskKey, q: Query)
  {
    && (q.callsign == "" || k.callsign == q.callsign)
    && (q.displayName == "" || k.displayName == q.displayName)
    && (q.stage.None? || k.stage == q.stage.value)
    && (q.includeComplete || k.stage != Complete)
    && (q.includeAborted || k.stage != Aborted)
    && (q.message.None? || q.message.value == 0 || k.message == q.message.value)
  }

  /** A closed task never answers a default query. */
  lemma ClosedNeverFound(k: TaskKey, callsign: string)
    requires !IsOpen(k.stage)
    ensures !KeyMatches(k, ByCallsign(callsign))
  {
  }

  /** The position of the first matching key, or the length of the sequence. */
  function FirstMatch(ks: seq<TaskKey>, q: Query): (i: nat)
    ensures i <= |ks|
    ensures forall j :: 0 <= j < i ==> !KeyMatches(ks[j], q)
    ensures i < |ks| ==> KeyMatches(ks[i], q)
  {
    if ks == [] then 0
    else if KeyMatches(ks[0], q) then 0
    else
      var i := FirstMatch(ks[1..], q);
      assert forall j :: 1 <= j < i + 1 ==> ks[j] == ks[1..][j - 1];
      i + 1
  }

  /** The stage of the task a callsign query finds, or `None`. */
  function StatusIn(ks: seq<TaskKey>, callsign: string): Option<Stage>
  {
    var i := FirstMatch(ks, ByCallsign(callsign));
    if i < |ks| then Some(ks[i].stage) else None
  }

  /** No two open tasks share a callsign. */
  predicate UniqueOpenKeys(ks: seq<TaskKey>)
  {
    forall i, j :: 0 <= i < j < |ks| && IsOpen(ks[i].stage) && IsOpen(ks[j].stage) ==>
      ks[i].callsign != ks[j].callsign
  }

  function KeyOf(t: Restock): TaskKey
    reads t
  {
    TaskKey(t.carrier.0, t.carrier.1, t.progress.stage, t.message)
  }

  function KeysOf(ts: seq<Restock>): (ks: seq<TaskKey>)
    reads ts
    ensures |ks| == |ts|
    ensures forall i :: 0 <= i < |ts| ==> ks[i] == KeyOf(ts[i])
  {
    if ts == [] then [] else KeysOf(ts[..|ts| - 1]) + [KeyOf(ts[|ts| - 1])]
  }

  /** A new open task for a callsign that has none keeps the open tasks unique, and is the one found. */
  lemma {:induction false} AppendOpenKey(ks: seq<TaskKey>, k: TaskKey)
    requires k.callsign != "" && k.stage == Pending
    requires UniqueOpenKeys(ks) && FirstMatch(ks, ByCallsign(k.callsign)) == |ks|
    ensures UniqueOpenKeys(ks + [k])
    ensures FirstMatch(ks + [k], ByCallsign(k.callsign)) == |ks|
    ensures StatusIn(ks + [k], k.callsign) == Some(Pending)
  {
    var ks' := ks + [k];
    assert forall j :: 0 <= j < |ks| ==> ks'[j] == ks[j];
    assert forall j :: 0 <= j < |ks| ==> !KeyMatches(ks'[j], ByCallsign(k.callsign));
    assert KeyMatches(ks'[|ks|], ByCallsign(k.callsign));
    forall i, j | 0 <= i < j < |ks'| && IsOpen(ks'[i].stage) && IsOpen(ks'[j].stage)
      ensures ks'[i].callsign != ks'[j].callsign
    {
      if j == |ks| {
        assert !KeyMatches(ks[i], ByCallsign(k.callsign));
      } else {
        assert ks'[i] == ks[i] && ks'[j] == ks[j];
      }
    }
  }

  /** Closing the one open task of a callsign leaves it none, and keeps the open tasks unique. */
  lemma {:induction false} CloseKey(ks: seq<TaskKey>, i: nat, closed: Stage)
    requires i < |ks| && ks[i].callsign != "" && !IsOpen(closed)
    requires UniqueOpenKeys(ks) && FirstMatch(ks, ByCallsign(ks[i].callsign)) == i
    ensures UniqueOpenKeys(ks[i := ks[i].(stage := closed)])
    ensures FirstMatch(ks[i := ks[i].(stage := closed)], ByCallsign(ks[i].callsign)) == |ks|
    ensures StatusIn(ks[i := ks[i].(stage := closed)], ks[i].callsign) == None
  {
    var c := ks[i].callsign;
    var ks' := ks[i := ks[i].(stage := closed)];
    forall j | 0 <= j < |ks'| ensures !KeyMatches(ks'[j], ByCallsign(c)) {
      if j > i && KeyMatches(ks'[j], ByCallsign(c)) {
        assert IsOpen(ks[i].stage) && IsOpen(ks[j].stage);
      }
    }
  }

  /**
   * A callsign query finds the same position when the keys of that callsign
   * stay put, no key changes its callsign, and the keys added belong to
   * other callsigns.
   */
  lemma FirstMatchOthers(ks: seq<TaskKey>, ks': seq<TaskKey>, n: string)
    requires n != "" && |ks| <= |ks'|
    requires forall j :: 0 <= j < |ks| ==> ks'[j].callsign == ks[j].callsign
    requires forall j :: 0 <= j < |ks| && ks[j].callsign == n ==> ks'[j] == ks[j]
    requires forall j :: |ks| <= j < |ks'| ==> ks'[j].callsign != n
    ensures var i := FirstMatch(ks, ByCallsign(n));
      FirstMatch(ks', ByCallsign(n)) == if i < |ks| then i else |ks'|
  {
    var q := ByCallsign(n);
    assert forall j :: 0 <= j < |ks| ==> (KeyMatches(ks'[j], q) <==> KeyMatches(ks[j], q));
    assert forall j :: |ks| <= j < |ks'| ==> !KeyMatches(ks'[j], q);
  }

  /** The delivered amount and target of an open task after an evaluation. */
  datatype Reconciled = Reconciled(delivered: int, target: int)

  /**
   * The delivered amount and the target of an open task, from the carrier's
   * stock, its allocated space and the task's required amount. A stock below
   * what the task expected grows the target by the deficit.
   */
  function Reconcile(stock: int, allocation: int, required: int): (r: Reconciled)
    ensures r.delivered >= 0 && r.target >= required
    ensures r.target - r.delivered == allocation - stock
    ensures stock - (allocation - required) >= 0 ==>
      r == Reconciled(stock - (allocation - required), required)
  {
    var delivered := stock - (allocation - required);
    if delivered < 0 then Reconciled(0, required - delivered) else Reconciled(delivered, required)
  }

  /** Re-evaluating with the stored target and an unchanged stock changes nothing. */
  lemma ReconcileIdempotent(stock: int, allocation: int, required: int)
    ensures var r := Reconcile(stock, allocation, required);
      Reconcile(stock, allocation, r.target) == r
  {
  }

  /** The closing rule, `delivered >= target * 0.8`, in integers. */
  predicate ReachesThreshold(delivered: int, target: int)
  {
    5 * delivered >= 4 * target
  }

  /** `stock.price or None`: a price of 0 is stored as `None`. */
  function PriceOrNone(price: int): (r: Option<int>)
    ensures r.None? <==> price == 0
    ensures r.Some? ==> r.value == price
  {
    if price == 0 then None else Some(price)
  }

  class RestockService {
    /** The task set, in its iteration order. */
    var restocks: seq<Restock>
    /** The `(callsign, stage)` pairs passed to `status_change.fire`, oldest first. */
    var statusChanges: seq<(string, Stage)>

    /** The task set holds each task once. */
    ghost predicate Valid()
      reads this
    {
      forall i, j :: 0 <= i < j < |restocks| ==> restocks[i] != restocks[j]
    }

    constructor ()
      ensures Valid() && restocks == [] && statusChanges == []
    {
      restocks, statusChanges := [], [];
    }

    function Keys(): seq<TaskKey>
      reads this, restocks
    {
      KeysOf(restocks)
    }

    /** `_Restocks.find`: the first task, in iteration order, matching every criterion. */
    function FindSpec(q: Query): (r: Option<Restock>)
      reads this, restocks
      ensures r.Some? ==> r.value in restocks && KeyMatches(KeyOf(r.value), q)
      ensures r.None? <==> forall t :: t in restocks ==> !KeyMatches(KeyOf(t), q)
    {
      var i := FirstMatch(Keys(), q);
      if i < |restocks| then Some(restocks[i]) else None
    }

    method Find(q: Query) returns (r: Option<Restock>)
      ensures r == FindSpec(q)
    {
      var i := 0;
      while i < |restocks|
        invariant 0 <= i <= |restocks|
        invariant forall j :: 0 <= j < i ==> !KeyMatches(Keys()[j], q)
      {
        if KeyMatches(KeyOf(restocks[i]), q) {
          return Some(restocks[i]);
        }
        i := i + 1;
      }
      return None;
    }

    /** `_Restocks.add`. */
    method Add(t: Restock)
      requires Valid() && t !in restocks
      modifies this
      ensures Valid() && restocks == old(restocks) + [t] && statusChanges == old(statusChanges)
    {
      restocks := restocks + [t];
    }

    /** The stage of a carrier's open task, or `None`. */
    function StatusOf(callsign: string): Option<Stage>
      reads this, restocks
    {
      StatusIn(Keys(), callsign)
    }

    /** A carrier's `restock_status` agrees with the task set. */
    ghost predicate Synced(c: Carrier)
      reads this, restocks, c
    {
      c.restockStatus == StatusOf(c.name)
    }

    ghost predicate UniqueOpen()
      reads this, restocks
    {
      UniqueOpenKeys(Keys())
    }

    /**
     * `restock_status`: the stage of the carrier's open task, which is always
     * Pending or Underway (the `assert` of the source cannot fail).
     */
    method RestockStatus(carrier: Carrier) returns (r: Option<Stage>)
      ensures r == StatusOf(carrier.name)
      ensures r.Some? ==> IsOpen(r.value)
      ensures r.None? <==> forall t :: t in restocks ==> !KeyMatches(KeyOf(t), ByCallsign(carrier.name))
    {
      var task := Find(ByCallsign(carrier.name));
      if task.None? {
        return None;
      }
      return Some(task.value.progress.stage);
    }

    /** `_update_restock`: store the delivered amount and the target on the carrier's open task. */
    method UpdateRestock(carrier: Carrier, delivered: int, target: int) returns (r: Result<Restock, RestockError>)
      requires Valid()
      modifies restocks
      ensures Valid() && Keys() == old(Keys())
      ensures old(FindSpec(ByCallsign(carrier.name))).None? <==> r == Err(NoOpenTask)
      ensures old(FindSpec(ByCallsign(carrier.name))).Some? && carrier.Tritium().None? <==> r == Err(NoTritium)
      ensures r.Err? ==> r.error in {NoOpenTask, NoTritium}
      ensures r.Ok? ==>
        && r.value == old(FindSpec(ByCallsign(carrier.name))).value
        && r.value.tritium == old(r.value.tritium).(delivered := delivered, required := target)
        && r.value.progress == old(r.value.progress) && r.value.haulers == old(r.value.haulers)
      ensures forall t :: t in restocks && (r.Err? || t != r.value) ==> unchanged(t)
    {
      var task := Find(ByCallsign(carrier.name));
      if task.None? {
        return Err(NoOpenTask);
      }
      if carrier.Tritium().None? {
        return Err(NoTritium);
      }
      var t := task.value;
      StoreTarget(t, delivered, target);
      return Ok(t);
    }

    /** The assignment of `_update_restock`; it leaves every task's key as it was. */
    method StoreTarget(t: Restock, delivered: int, target: int)
      modifies t
      ensures t.tritium == old(t.tritium).(delivered := delivered, required := target)
      ensures t.progress == old(t.progress) && t.haulers == old(t.haulers)
      ensures Keys() == old(Keys())
    {
      t.tritium := t.tritium.(delivered := delivered, required := target);
      assert forall i :: 0 <= i < |restocks| ==> Keys()[i] == old(Keys())[i];
    }

    /** Close the task at position `i` with the given stage, end and sell price, keeping the other keys. */
    method FinishTask(t: Restock, ghost i: nat, stage: Stage, end: int, sellPrice: Option<int>)
      requires Valid() && i < |restocks| && restocks[i] == t
      requires !IsOpen(stage)
      requires FirstMatch(Keys(), ByCallsign(t.carrier.0)) == i
      modifies t
      ensures t.progress == old(t.progress).(stage := stage, end := Some(end))
      ensures t.tritium == old(t.tritium).(sellPrice := sellPrice) && t.haulers == old(t.haulers)
      ensures Keys() == old(Keys())[i := old(Keys())[i].(stage := stage)]
      ensures t.carrier.0 != "" && old(UniqueOpen()) ==> StatusOf(t.carrier.0) == None && UniqueOpen()
    {
      ghost var ks := Keys();
      t.tritium := t.tritium.(sellPrice := sellPrice);
      t.progress := t.progress.(stage := stage, end := Some(end));
      forall j | 0 <= j < |restocks|
        ensures Keys()[j] == ks[i := ks[i].(stage := stage)][j]
      {
        if j != i {
          assert restocks[j] != t;
        }
      }
      if t.carrier.0 != "" && UniqueOpenKeys(ks) {
        CloseKey(ks, i, stage);
      }
    }

    /**
     * `_new_restock`: open a Pending task asking for the carrier's free
     * allocated space, announced by Discord message `messageId`, and mark the
     * carrier Pending.
     */
    method NewRestock(carrier: Carrier, messageId: int, now: int) returns (r: Result<Restock, RestockError>)
      requires Valid()
      modifies this, carrier
      ensures Valid() && statusChanges == old(statusChanges)
      ensures carrier.Tritium().None? <==> r.Err?
      ensures r.Err? ==> r.error == NoTritium && restocks == old(restocks) && unchanged(carrier)
      ensures r.Ok? ==> var t := r.value; var need := carrier.allocatedSpace - carrier.Tritium().value.stock.quantity;
        && fresh(t) && restocks == old(restocks) + [t]
        && t.carrier == (carrier.name, carrier.displayName) && t.system == old(carrier.system)
        && t.tritium == TritiumNeed(need, need, 0, None)
        && t.haulers == [] && t.progress == Progress(Pending, now, None) && t.message == messageId
        && carrier.restockStatus == Some(Pending)
        && carrier.Record() == old(carrier.Record()) && carrier.capiStatus == old(carrier.capiStatus)
      ensures forall t :: t in old(restocks) ==> unchanged(t)
    {
      var trit := carrier.Tritium();
      if trit.None? {
        return Err(NoTritium);
      }
      var need := carrier.allocatedSpace - trit.value.stock.quantity;
      carrier.restockStatus := Some(Pending);
      var t := new Restock((carrier.name, carrier.displayName), TritiumNeed(need, need, 0, None),
        carrier.system, [], Progress(Pending, now, None), messageId);
      Add(t);
      return Ok(t);
    }

    /**
     * `close_restock`: clear the carrier's status, then mark its open task
     * Aborted or Complete, stamp its end and record the sell price.
     */
    method CloseRestock(carrier: Carrier, now: int, abort: bool) returns (r: Result<Restock, RestockError>)
      requires Valid()
      modifies carrier, restocks
      ensures Valid()
      ensures carrier.restockStatus == None
      ensures carrier.Record() == old(carrier.Record()) && carrier.capiStatus == old(carrier.capiStatus)
      ensures carrier.Tritium().None? <==> r == Err(NoTritium)
      ensures carrier.Tritium().Some? && old(FindSpec(ByCallsign(carrier.name))).None? <==> r == Err(NoOpenTask)
      ensures r.Err? ==> r.error in {NoOpenTask, NoTritium}
      ensures r.Ok? ==> var t := r.value;
        && t == old(FindSpec(ByCallsign(carrier.name))).value
        && t.progress == old(t.progress).(stage := if abort then Aborted else Complete, end := Some(now))
        && t.tritium == old(t.tritium).(sellPrice := PriceOrNone(carrier.Tritium().value.stock.price))
        && t.haulers == old(t.haulers)
        && var i := FirstMatch(old(Keys()), ByCallsign(carrier.name));
           Keys() == old(Keys())[i := old(Keys())[i].(stage := t.progress.stage)]
      ensures r.Err? ==> Keys() == old(Keys())
      ensures forall t :: t in restocks && (r.Err? || t != r.value) ==> unchanged(t)
      ensures r.Ok? && carrier.name != "" && old(UniqueOpen()) ==> Synced(carrier) && UniqueOpen()
    {
      var task := FindSpec(ByCallsign(carrier.name));
      var trit := carrier.Tritium();
      if trit.None? || task.None? {
        ClearStatus(carrier);
        return if trit.None? then Err(NoTritium) else Err(NoOpenTask);
      }
      r := CloseFound(carrier, task.value, now, abort);
    }

    /** The part of `close_restock` after its open task `t` is found. */
    method CloseFound(carrier: Carrier, t: Restock, now: int, abort: bool) returns (r: Result<Restock, RestockError>)
      requires Valid() && carrier.Tritium().Some? && FindSpec(ByCallsign(carrier.name)) == Some(t)
      modifies carrier, t
      ensures carrier.restockStatus == None
      ensures carrier.Record() == old(carrier.Record()) && carrier.capiStatus == old(carrier.capiStatus)
      ensures r == Ok(t)
      ensures t.progress == old(t.progress).(stage := if abort then Aborted else Complete, end := Some(now))
      ensures t.tritium == old(t.tritium).(sellPrice := PriceOrNone(carrier.Tritium().value.stock.price))
      ensures t.haulers == old(t.haulers)
      ensures var i := FirstMatch(old(Keys()), ByCallsign(carrier.name));
        Keys() == old(Keys())[i := old(Keys())[i].(stage := t.progress.stage)]
      ensures carrier.name != "" && old(UniqueOpen()) ==> Synced(carrier) && UniqueOpen()
    {
      ghost var i := FirstMatch(Keys(), ByCallsign(carrier.name));
      FinishTask(t, i, if abort then Aborted else Complete, now, PriceOrNone(carrier.Tritium().value.stock.price));
      ClearStatus(carrier);
      return Ok(t);
    }

    /** The `restock_status = None` of `close_restock`; the tasks are untouched. */
    method ClearStatus(carrier: Carrier)
      modifies carrier
      ensures carrier.restockStatus == None
      ensures carrier.Record() == old(carrier.Record()) && carrier.capiStatus == old(carrier.capiStatus)
      ensures Keys() == old(Keys())
    {
      carrier.restockStatus := None;
    }

    /**
     * `try_restock`: nothing happens for an inactive carrier, one without
     * tritium or one buying tritium. A carrier without an open task gets one
     * once its stock is at most its reserve; an open task is brought up to date
     * and closed as Complete at 80 % of its target.
     */
    method TryRestock(depot: Carrier, messageId: int, now: int) returns (r: Result<(), RestockError>)
      requires Valid()
      modifies this, depot, restocks
      ensures Valid() && statusChanges == old(statusChanges)
      ensures depot.Record() == old(depot.Record()) && depot.capiStatus == old(depot.capiStatus)
      ensures r.Err? ==> r.error == NoOpenTask
      ensures Restocked(depot, messageId, now, r.Ok?)
      // The carrier's status stays in step with the task set.
      ensures depot.name != "" && old(Synced(depot)) && old(UniqueOpen()) ==> Synced(depot) && UniqueOpen()
      // Tasks are only ever added, and an added task is a new object.
      ensures old(restocks) <= restocks && forall k :: 0 <= k < |restocks| ==> restocks[k] in old(restocks) || fresh(restocks[k])
      // For a carrier with a callsign, only tasks with that callsign change or are added.
      ensures depot.name != "" ==>
        && (forall u :: u in old(restocks) && u.carrier.0 != depot.name ==> unchanged(u))
        && forall j :: |old(restocks)| <= j < |restocks| ==> restocks[j].carrier.0 == depot.name
    {
      var trit := depot.Tritium();
      if !depot.activeDepot || trit.None? || trit.value.demand.quantity > 0 {
        return Ok(());
      }
      if depot.restockStatus.None? {
        OpenIfLow(depot, trit.value, messageId, now);
        return Ok(());
      }
      r := EvaluateOpen(depot, trit.value, now);
    }

    /**
     * What `try_restock` does to carrier `depot` and the task set, succeeding
     * exactly when `ok`: an ignored carrier changes nothing; without an open
     * task one is opened at or below the reserve; with one the task `find`
     * returns is reconciled; a status whose task `find` cannot return fails
     * and changes nothing.
     */
    twostate predicate Restocked(depot: Carrier, messageId: int, now: int, ok: bool)
      reads this, depot, restocks
    {
      var evaluates := Evaluates(depot.activeDepot, depot.Tritium());
      var found := old(FindSpec(ByCallsign(depot.name)));
      && old(restocks) <= restocks
      && (!ok <==> evaluates && old(depot.restockStatus).Some? && found.None?)
      && (!ok || !evaluates ==>
            && restocks == old(restocks) && depot.restockStatus == old(depot.restockStatus)
            && forall t :: t in restocks ==> unchanged(t))
      && (evaluates && old(depot.restockStatus).None? ==> Opened(depot, depot.Tritium().value, messageId, now))
      && (evaluates && old(depot.restockStatus).Some? && found.Some? ==>
            Evaluated(depot, depot.Tritium().value, found.value, now))
    }

    /** What the step of `try_restock` for a carrier without an open task does. */
    twostate predicate Opened(depot: Carrier, trit: Good, messageId: int, now: int)
      reads this, depot, restocks
    {
      var stock := trit.stock.quantity;
      && (stock > depot.reserveTritium <==> restocks == old(restocks))
      && old(restocks) <= restocks && (forall u :: u in old(restocks) ==> unchanged(u))
      && (stock > depot.reserveTritium ==> depot.restockStatus == old(depot.restockStatus))
      && (stock <= depot.reserveTritium ==>
          && |restocks| == |old(restocks)| + 1 && restocks[..|old(restocks)|] == old(restocks)
          && fresh(restocks[|old(restocks)|])
          && restocks[|old(restocks)|].tritium ==
               TritiumNeed(depot.allocatedSpace - stock, depot.allocatedSpace - stock, 0, None)
          && restocks[|old(restocks)|].progress == Progress(Pending, now, None)
          && restocks[|old(restocks)|].haulers == []
          && restocks[|old(restocks)|].message == messageId
          && restocks[|old(restocks)|].carrier == (depot.name, depot.displayName)
          && restocks[|old(restocks)|].system == depot.system
          && depot.restockStatus == Some(Pending))
    }

    /** What the step of `try_restock` for a carrier with open task `t` does. */
    twostate predicate Evaluated(depot: Carrier, trit: Good, t: Restock, now: int)
      reads this, depot, restocks, t
    {
      var rec := Reconcile(trit.stock.quantity, depot.allocatedSpace, old(t.tritium.required));
      && restocks == old(restocks)
      && (forall u :: u in restocks && u != t ==> unchanged(u))
      && t.tritium.delivered == rec.delivered && t.tritium.required == rec.target
      && t.tritium.initial == old(t.tritium.initial)
      && t.haulers == old(t.haulers)
      && (ReachesThreshold(rec.delivered, rec.target) ==>
            t.progress == old(t.progress).(stage := Complete, end := Some(now)) &&
            t.tritium.sellPrice == PriceOrNone(trit.stock.price) &&
            depot.restockStatus == None)
      && (!ReachesThreshold(rec.delivered, rec.target) ==>
            t.progress == old(t.progress) && t.tritium.sellPrice == old(t.tritium.sellPrice) &&
            depot.restockStatus == old(depot.restockStatus))
    }

    /** The branch of `try_restock` for a carrier without an open task. */
    method OpenIfLow(depot: Carrier, trit: Good, messageId: int, now: int)
      requires Valid() && depot.Tritium() == Some(trit)
      modifies this, depot
      ensures Valid() && statusChanges == old(statusChanges)
      ensures depot.Record() == old(depot.Record()) && depot.capiStatus == old(depot.capiStatus)
      ensures Opened(depot, trit, messageId, now)
      ensures depot.name != "" && old(depot.restockStatus).None? && old(Synced(depot)) && old(UniqueOpen()) ==>
        Synced(depot) && UniqueOpen()
    {
      if trit.stock.quantity > depot.reserveTritium {
        return;
      }
      ghost var oldKeys := Keys();
      var created := NewRestock(depot, messageId, now);
      assert forall i :: 0 <= i < |oldKeys| ==> Keys()[i] == oldKeys[i];
      assert Keys() == oldKeys + [KeyOf(created.value)];
      if depot.name != "" && old(depot.restockStatus).None? && old(Synced(depot)) && old(UniqueOpen()) {
        AppendOpenKey(oldKeys, KeyOf(created.value));
      }
    }

    /** The branch of `try_restock` for a carrier whose status says a task is open. */
    method EvaluateOpen(depot: Carrier, trit: Good, now: int) returns (r: Result<(), RestockError>)
      requires Valid() && depot.Tritium() == Some(trit)
      modifies depot, restocks
      ensures Valid() && restocks == old(restocks)
      ensures depot.Record() == old(depot.Record()) && depot.capiStatus == old(depot.capiStatus)
      ensures old(FindSpec(ByCallsign(depot.name))).None? <==> r.Err?
      ensures r.Err? ==> r.error == NoOpenTask && unchanged(depot) && forall t :: t in restocks ==> unchanged(t)
      ensures r.Ok? ==> Evaluated(depot, trit, old(FindSpec(ByCallsign(depot.name))).value, now)
      ensures depot.name != "" && old(Synced(depot)) && old(UniqueOpen()) ==> Synced(depot) && UniqueOpen()
    {
      var task := Find(ByCallsign(depot.name));
      if task.None? {
        return Err(NoOpenTask);
      }
      EvaluateFound(depot, trit, task.value, now);
      return Ok(());
    }

    /** Bring the open task `t` of the carrier up to date, and close it at the threshold. */
    method EvaluateFound(depot: Carrier, trit: Good, t: Restock, now: int)
      requires Valid() && depot.Tritium() == Some(trit) && FindSpec(ByCallsign(depot.name)) == Some(t)
      modifies depot, restocks
      ensures Valid() && restocks == old(restocks)
      ensures depot.Record() == old(depot.Record()) && depot.capiStatus == old(depot.capiStatus)
      ensures Evaluated(depot, trit, t, now)
      ensures depot.name != "" && old(Synced(depot)) && old(UniqueOpen()) ==> Synced(depot) && UniqueOpen()
    {
      var rec := Reconcile(trit.stock.quantity, depot.allocatedSpace, t.tritium.required);
      if ReachesThreshold(rec.delivered, rec.target) {
        CompleteFound(depot, trit, t, now);
      } else {
        var updated := UpdateRestock(depot, rec.delivered, rec.target);
        assert updated == Ok(t);
      }
    }

    /** `try_restock` for an open task `t` that the update brings to the threshold: store the amounts, then close it. */
    method CompleteFound(depot: Carrier, trit: Good, t: Restock, now: int)
      requires Valid() && depot.Tritium() == Some(trit) && FindSpec(ByCallsign(depot.name)) == Some(t)
      requires var rec := Reconcile(trit.stock.quantity, depot.allocatedSpace, t.tritium.required);
        ReachesThreshold(rec.delivered, rec.target)
      modifies depot, restocks
      ensures Valid() && restocks == old(restocks)
      ensures depot.Record() == old(depot.Record()) && depot.capiStatus == old(depot.capiStatus)
      ensures Evaluated(depot, trit, t, now)
      ensures depot.name != "" && old(UniqueOpen()) ==> Synced(depot) && UniqueOpen()
    {
      var rec := Reconcile(trit.stock.quantity, depot.allocatedSpace, t.tritium.required);
      var updated := UpdateRestock(depot, rec.delivered, rec.target);
      assert updated == Ok(t);
      assert FindSpec(ByCallsign(depot.name)) == Some(t);
      var closed := CloseFound(depot, t, now, false);
    }

    /** `_can_assign_task`: a join is refused for a hauler already on the task, a leave for one who is not. */
    method CanAssignTask(messageId: int, user: int, accepted: bool) returns (r: Result<bool, RestockError>)
      ensures FindSpec(ByMessage(messageId)).None? <==> r == Err(UnknownTask)
      ensures r.Err? ==> r.error == UnknownTask
      ensures r.Ok? ==> r.value == CanToggle(FindSpec(ByMessage(messageId)).value.haulers, user, accepted)
    {
      var task := Find(ByMessage(messageId));
      if task.None? {
        return Err(UnknownTask);
      }
      if accepted && user in task.value.haulers {
        return Ok(false);
      }
      if !accepted && user !in task.value.haulers {
        return Ok(false);
      }
      return Ok(true);
    }

    /**
     * `_on_hauler_update`: add or remove the hauler, set the stage to Underway
     * exactly when someone is hauling, and fire `status_change`.
     */
    method OnHaulerUpdate(messageId: int, user: int, accepted: bool) returns (r: Result<bool, RestockError>)
      requires Valid()
      modifies this, restocks
      ensures Valid() && restocks == old(restocks)
      ensures old(FindSpec(ByMessage(messageId))).None? ==> r == Err(UnknownTask)
      ensures old(FindSpec(ByMessage(messageId))).Some? ==>
        var t := old(FindSpec(ByMessage(messageId))).value;
        if !accepted && user !in old(t.haulers) then
          r == Err(NotAHauler) && unchanged(t) && statusChanges == old(statusChanges)
        else
          && r == Ok(true)
          && t.haulers == Toggled(old(t.haulers), user, accepted)
          && (t.progress.stage == Underway <==> t.haulers != [])
          && t.progress == old(t.progress).(stage := if t.haulers != [] then Underway else Pending)
          && t.tritium == old(t.tritium)
          && statusChanges == old(statusChanges) + [(t.carrier.0, t.progress.stage)]
      ensures forall t :: t in restocks && Some(t) != old(FindSpec(ByMessage(messageId))) ==> unchanged(t)
    {
      var task := Find(ByMessage(messageId));
      if task.None? {
        return Err(UnknownTask);
      }
      var t := task.value;
      if !accepted && user !in t.haulers {
        return Err(NotAHauler);
      }
      ToggleHauler(t, user, accepted);
      statusChanges := statusChanges + [(t.carrier.0, t.progress.stage)];
      return Ok(true);
    }

    /** The assignments of `_on_hauler_update` to the task. */
    method ToggleHauler(t: Restock, user: int, accepted: bool)
      requires accepted || user in t.haulers
      modifies t
      ensures t.haulers == Toggled(old(t.haulers), user, accepted)
      ensures t.progress == old(t.progress).(stage := if t.haulers != [] then Underway else Pending)
      ensures t.tritium == old(t.tritium)
    {
      if accepted {
        t.haulers := t.haulers + [user];
      } else {
        t.haulers := RemoveFirst(t.haulers, user);
      }
      t.progress := t.progress.(stage := if t.haulers != [] then Underway else Pending);
    }

    /** `update_hauler`: toggle a hauler on a task when the toggle is allowed, reporting whether it was. */
    method UpdateHauler(task: Restock, user: int, accepted: bool) returns (r: Result<bool, RestockError>)
      requires Valid()
      modifies this, restocks
      ensures Valid() && restocks == old(restocks)
      ensures old(FindSpec(ByMessage(task.message))).None? ==> r == Err(UnknownTask) && unchanged(restocks)
      ensures r == Ok(false) <==>
        old(FindSpec(ByMessage(task.message))).Some? &&
        !CanToggle(old(FindSpec(ByMessage(task.message)).value.haulers), user, accepted)
      ensures r == Ok(false) ==> statusChanges == old(statusChanges) && unchanged(restocks)
      ensures r == Ok(true) ==> var t := old(FindSpec(ByMessage(task.message))).value;
        && t.haulers == Toggled(old(t.haulers), user, accepted)
        && (t.progress.stage == Underway <==> t.haulers != [])
        && t.progress == old(t.progress).(stage := if t.haulers != [] then Underway else Pending)
        && t.tritium == old(t.tritium)
        && statusChanges == old(statusChanges) + [(t.carrier.0, t.progress.stage)]
      ensures forall t :: t in restocks && Some(t) != old(FindSpec(ByMessage(task.message))) ==> unchanged(t)
    {
      var allowed := CanAssignTask(task.message, user, accepted);
      if allowed.Err? {
        return allowed;
      }
      if !allowed.value {
        return Ok(false);
      }
      r := OnHaulerUpdate(task.message, user, accepted);
    }
  }

  /** The carriers whose restock evaluation does anything: active, with tritium, not buying it. */
  predicate Evaluates(active: bool, tritium: Option<Good>)
  {
    active && tritium.Some? && tritium.value.demand.quantity <= 0
  }
}
