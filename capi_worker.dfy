/**
 * The Companion API poll worker: it picks the carrier whose market is
 * oldest, tracked or external, waits until that market is two hours old,
 * re-checks the choice, queries the carrier and maps the answer to a state
 * change and a pause. One iteration of the worker's endless loop is one call
 * of `Iteration`; time is a parameter and sleeps are returned.
 */
module CapiWorkers {

  import opened Wrappers
  import opened Enums
  import opened Depots
  import opened DepotServices
  import opened CapiQuery
  import opened CapiServices
  import opened Seqs

  /** `_INTERVAL` and `_DELAY`, in seconds. */
  const Interval := 7200
  const Delay := 60

  /** A carrier to poll: a tracked carrier, or an external one known by callsign (`SimpleCarrier`). */
  datatype Target = Internal(carrier: Carrier) | External(name: string)

  function TargetName(t: Target): string
  {
    match t
    case Internal(c) => c.name
    case External(n) => n
  }

  /** A target with the update time it was sorted by. */
  datatype Candidate = Candidate(target: Target, lastUpdate: int)

  /** `carriers.sort(key=last_update)[0]`: the first candidate, in order, of least update time. */
  function OldestIndex(cs: seq<Candidate>): (i: nat)
    requires cs != []
    ensures i < |cs|
    ensures forall j :: 0 <= j < |cs| ==> cs[i].lastUpdate <= cs[j].lastUpdate
    ensures forall j :: 0 <= j < i ==> cs[j].lastUpdate > cs[i].lastUpdate
  {
    if |cs| == 1 then 0
    else
      var k := OldestIndex(cs[1..]);
      assert forall j :: 1 <= j < |cs| ==> cs[j] == cs[1..][j - 1];
      if cs[0].lastUpdate <= cs[1..][k].lastUpdate then 0 else k + 1
  }

  /** The pause before the re-check: until the market is `Interval` old, and never negative. */
  function Wait(lastUpdate: int, now: int): (d: int)
    ensures d >= 0 && now + d >= lastUpdate + Interval
    ensures d == 0 || now + d == lastUpdate + Interval
  {
    if lastUpdate + Interval - now > 0 then lastUpdate + Interval - now else 0
  }

  /**
   * The re-check of `_next_target` as written: dataclass equality, which for
   * an external carrier compares the update time as well as the callsign.
   */
  predicate SameTargetAsWritten(a: Candidate, b: Candidate)
  {
    match (a.target, b.target)
    case (Internal(c), Internal(d)) => c == d
    case (External(m), External(n)) => m == n && a.lastUpdate == b.lastUpdate
    case _ => false
  }

  /** The re-check the worker uses: the same carrier, compared by identity for tracked ones and callsign otherwise. */
  predicate SameTarget(a: Candidate, b: Candidate)
  {
    match (a.target, b.target)
    case (Internal(c), Internal(d)) => c == d
    case (External(m), External(n)) => m == n
    case _ => false
  }

  /** The result of one pass of `_next_target`'s loop. */
  datatype Round = NoJobs | Settled(target: Candidate, wake: int) | Reselect(wake: int)

  /** What the worker loop does next: sleep, select again, or end (an uncaught failure). */
  datatype Pause = Sleep(seconds: int) | Again | Stop

  /**
   * The handling of a failure of the fleet carrier query: a lost connection
   * and maintenance wait two hours, an Epic failure and a refused refresh one
   * minute; every other failure ends the worker.
   */
  function Backoff(e: CapiError): (d: Option<int>)
    ensures d == Some(Interval) <==> e == Query(ConnectionFail) || e == Query(CapiFail)
    ensures d == Some(Delay) <==> e == Query(EpicFail) || e == RefreshFail
    ensures d.None? <==> !(e in {Query(ConnectionFail), Query(CapiFail), Query(EpicFail), RefreshFail})
  {
    match e
    case Query(ConnectionFail) => Some(Interval)
    case Query(CapiFail) => Some(Interval)
    case Query(EpicFail) => Some(Delay)
    case RefreshFail => Some(Delay)
    case _ => None
  }

  /** An expired or rejected token ends the worker: `TokenFail` is not caught. */
  lemma TokenFailStops()
    ensures Backoff(Query(TokenFail)).None?
  {
  }

  class CapiWorker {
    /** Whether the worker's task exists and is not done. */
    var running: bool
    /** `_cache`: the last known update time of external carriers. */
    var cache: map<string, int>
    /** The carriers announced through the worker's `sync`, oldest first. */
    var syncs: seq<Fleet>
    const depots: DepotService
    const capi: CapiService

    constructor (depots: DepotService, capi: CapiService)
      ensures !running && cache == map[] && syncs == []
      ensures this.depots == depots && this.capi == capi
    {
      running, cache, syncs := false, map[], [];
      this.depots, this.capi := depots, capi;
    }

    /** The cached update time of a callsign, or `now` when none is cached. */
    function CachedOr(callsign: string, now: int): int
      reads this
    {
      if callsign in cache then cache[callsign] else now
    }

    /** The update time `start` caches: the tracked carrier's, or `now`. */
    function SeedValue(callsign: string, now: int): int
      reads depots, depots.carriers`lastUpdate
    {
      var c := depots.FindCarrierSpec(callsign, "");
      if c.Some? then c.value.lastUpdate else now
    }

    /** A linked carrier the worker polls from outside: not tracked, and syncing. */
    predicate ExternalEligible(callsign: string)
      reads depots, capi, capi.data
    {
      depots.FindCarrierSpec(callsign, "").None? && capi.GetState(callsign) == Syncing
    }

    /** A candidate of `_oldest_carrier` at time `now`. */
    predicate Eligible(c: Candidate, now: int)
      reads this, depots, depots.carriers, capi, capi.data
    {
      match c.target
      case Internal(d) => d in depots.carriers && capi.GetState(d.name) == Syncing && c.lastUpdate == d.lastUpdate
      case External(s) => s in capi.GetCarriers() && ExternalEligible(s) && c.lastUpdate == CachedOr(s, now)
    }

    /** A cache after `start` has seeded the callsigns, in order. */
    function Seeded(c: map<string, int>, callsigns: seq<string>, now: int): map<string, int>
      reads depots, depots.carriers`lastUpdate
    {
      if callsigns == [] then c
      else
        var last := callsigns[|callsigns| - 1];
        Seeded(c, callsigns[..|callsigns| - 1], now)[last := SeedValue(last, now)]
    }

    /** Seeding caches every callsign's seed value and keeps every other entry. */
    lemma {:induction false} SeededContents(c: map<string, int>, callsigns: seq<string>, now: int)
      ensures var m := Seeded(c, callsigns, now);
        && (forall s :: s in callsigns ==> s in m && m[s] == SeedValue(s, now))
        && (forall s :: s in c && s !in callsigns ==> s in m && m[s] == c[s])
        && (forall s :: s in m ==> s in c || s in callsigns)
    {
      if callsigns != [] {
        var init := callsigns[..|callsigns| - 1];
        SeededContents(c, init, now);
        assert callsigns == init + [callsigns[|callsigns| - 1]];
      }
    }

    /** The candidates `_get_external` lists for the callsigns, in order. */
    function ExternalsOf(callsigns: seq<string>, now: int): seq<Candidate>
      reads this, depots, capi, capi.data
    {
      if callsigns == [] then []
      else
        var last := callsigns[|callsigns| - 1];
        ExternalsOf(callsigns[..|callsigns| - 1], now)
          + (if ExternalEligible(last) then [Candidate(External(last), CachedOr(last, now))] else [])
    }

    /** `_get_external` lists exactly the eligible callsigns, with their cached time or `now`. */
    lemma {:induction false} ExternalsOfMembers(callsigns: seq<string>, now: int)
      ensures forall c :: c in ExternalsOf(callsigns, now) ==>
        && c.target.External? && c.target.name in callsigns
        && ExternalEligible(c.target.name) && c.lastUpdate == CachedOr(c.target.name, now)
      ensures forall s :: s in callsigns && ExternalEligible(s) ==>
        Candidate(External(s), CachedOr(s, now)) in ExternalsOf(callsigns, now)
    {
      if callsigns != [] {
        var init := callsigns[..|callsigns| - 1];
        var last := callsigns[|callsigns| - 1];
        ExternalsOfMembers(init, now);
        assert callsigns == init + [last];
      }
    }

    /** The syncing tracked carriers of `_oldest_carrier`, in order. */
    function InternalsOf(cs: seq<Carrier>): seq<Candidate>
      reads capi, capi.data, cs
    {
      if cs == [] then []
      else
        var last := cs[|cs| - 1];
        InternalsOf(cs[..|cs| - 1])
          + (if capi.GetState(last.name) == Syncing then [Candidate(Internal(last), last.lastUpdate)] else [])
    }

    /** The tracked candidates are exactly the syncing carriers, with their update time. */
    lemma {:induction false} InternalsOfMembers(cs: seq<Carrier>)
      ensures forall c :: c in InternalsOf(cs) ==>
        && c.target.Internal? && c.target.carrier in cs
        && capi.GetState(c.target.carrier.name) == Syncing && c.lastUpdate == c.target.carrier.lastUpdate
      ensures forall d :: d in cs && capi.GetState(d.name) == Syncing ==>
        Candidate(Internal(d), d.lastUpdate) in InternalsOf(cs)
    {
      if cs != [] {
        var init := cs[..|cs| - 1];
        var last := cs[|cs| - 1];
        InternalsOfMembers(init);
        assert cs == init + [last];
      }
    }

    /** Every candidate of `_oldest_carrier` at time `now`: tracked ones first. */
    function CandidatesAt(now: int): seq<Candidate>
      reads this, depots, depots.carriers, capi, capi.data
    {
      InternalsOf(depots.carriers) + ExternalsOf(capi.GetCarriers(), now)
    }

    /** What `_oldest_carrier` returns at time `now`; `None` is its `ValueError`. */
    function OldestAt(now: int): Option<Candidate>
      reads this, depots, depots.carriers, capi, capi.data
    {
      var all := CandidatesAt(now);
      if all == [] then None else Some(all[OldestIndex(all)])
    }

    /** No candidate at all: no tracked carrier is syncing and no linked carrier is eligible. */
    ghost predicate NoCandidates()
      reads depots, depots.carriers, capi, capi.data
    {
      && (forall c :: c in depots.carriers ==> capi.GetState(c.name) != Syncing)
      && (forall s :: s in capi.GetCarriers() ==> !ExternalEligible(s))
    }

    /** `_oldest_carrier` raises exactly when there are no candidates. */
    lemma OldestAtNone(now: int)
      ensures OldestAt(now).None? <==> NoCandidates()
    {
      InternalsOfMembers(depots.carriers);
      ExternalsOfMembers(capi.GetCarriers(), now);
      var all := CandidatesAt(now);
      if all == [] {
        forall c | c in depots.carriers ensures capi.GetState(c.name) != Syncing {
          assert Candidate(Internal(c), c.lastUpdate) !in all;
        }
        forall s | s in capi.GetCarriers() ensures !ExternalEligible(s) {
          assert Candidate(External(s), CachedOr(s, now)) !in all;
        }
      } else {
        assert all[0] in all;
      }
    }

    /**
     * Otherwise `_oldest_carrier` returns an eligible candidate whose update
     * time is least among all candidates.
     */
    lemma OldestAtSpec(now: int)
      ensures OldestAt(now).Some? ==> Eligible(OldestAt(now).value, now)
      ensures OldestAt(now).Some? ==> forall c :: c in depots.carriers && capi.GetState(c.name) == Syncing ==>
        OldestAt(now).value.lastUpdate <= c.lastUpdate
      ensures OldestAt(now).Some? ==> forall s :: s in capi.GetCarriers() && ExternalEligible(s) ==>
        OldestAt(now).value.lastUpdate <= CachedOr(s, now)
    {
      InternalsOfMembers(depots.carriers);
      ExternalsOfMembers(capi.GetCarriers(), now);
      var all := CandidatesAt(now);
      if all != [] {
        var i := OldestIndex(all);
        assert all[i] in all;
        forall c | c in depots.carriers && capi.GetState(c.name) == Syncing
          ensures all[i].lastUpdate <= c.lastUpdate
        {
          assert Candidate(Internal(c), c.lastUpdate) in all;
          var k :| 0 <= k < |all| && all[k] == Candidate(Internal(c), c.lastUpdate);
        }
        forall s | s in capi.GetCarriers() && ExternalEligible(s)
          ensures all[i].lastUpdate <= CachedOr(s, now)
        {
          assert Candidate(External(s), CachedOr(s, now)) in all;
          var k :| 0 <= k < |all| && all[k] == Candidate(External(s), CachedOr(s, now));
        }
      }
    }

    /** Whether there is any candidate does not depend on the time. */
    lemma CandidatesTimeless(now: int, later: int)
      ensures OldestAt(now).None? <==> OldestAt(later).None?
    {
      OldestAtNone(now);
      OldestAtNone(later);
    }

    /** One pass of `_next_target`'s loop at time `now`. */
    function RoundAt(now: int): Round
      reads this, depots, depots.carriers, capi, capi.data
    {
      match OldestAt(now)
      case None => NoJobs
      case Some(first) =>
        var wake := now + Wait(first.lastUpdate, now);
        match OldestAt(wake)
        case None => NoJobs
        case Some(second) => if SameTarget(second, first) then Settled(first, wake) else Reselect(wake)
    }

    /** A settled tracked target is one of the depot service's carriers. */
    lemma SettledTracked(now: int)
      ensures RoundAt(now).Settled? && RoundAt(now).target.target.Internal? ==>
        RoundAt(now).target.target.carrier in depots.carriers
    {
      if RoundAt(now).Settled? {
        RoundAtSpec(now);
        OldestAtSpec(now);
      }
    }

    /**
     * A pass finds no job exactly when there are no candidates; a settled pass
     * returns the oldest candidate, wakes when its market is `Interval` old and
     * finds the same carrier oldest on waking. `OldestAtSpec` says what the
     * oldest candidate is.
     */
    lemma RoundAtSpec(now: int)
      ensures RoundAt(now).NoJobs? <==> OldestAt(now).None?
      ensures RoundAt(now).Settled? ==>
        var wake := RoundAt(now).wake;
        && OldestAt(now) == Some(RoundAt(now).target)
        && wake == now + Wait(RoundAt(now).target.lastUpdate, now)
        && wake >= RoundAt(now).target.lastUpdate + Interval
        && OldestAt(wake).Some? && SameTarget(OldestAt(wake).value, RoundAt(now).target)
      ensures RoundAt(now).Reselect? ==>
        && OldestAt(now).Some? && RoundAt(now).wake == now + Wait(OldestAt(now).value.lastUpdate, now)
        && OldestAt(RoundAt(now).wake).Some?
        && !SameTarget(OldestAt(RoundAt(now).wake).value, OldestAt(now).value)
    {
      match OldestAt(now)
      case None =>
      case Some(first) =>
        var wake := now + Wait(first.lastUpdate, now);
        CandidatesTimeless(now, wake);
        var second := OldestAt(wake).value;
        assert RoundAt(now) == if SameTarget(second, first) then Settled(first, wake) else Reselect(wake);
    }

    /** Set every tracked carrier's CAPI state. */
    method MarkStates()
      requires depots.Valid()
      modifies depots.carriers`capiStatus
      ensures forall k :: 0 <= k < |depots.carriers| ==>
        depots.carriers[k].capiStatus == Some(old(capi.GetState(depots.carriers[k].name)))
    {
      var cs := depots.carriers;
      assert Distinct(cs);
      ghost var states := seq(|cs|, k requires 0 <= k < |cs| reads capi, capi.data => capi.GetState(cs[k].name));
      var i := 0;
      while i < |cs|
        invariant i <= |cs|
        invariant unchanged(capi) && unchanged(capi.data)
        invariant forall k :: 0 <= k < i ==> cs[k].capiStatus == Some(states[k])
      {
        assert forall k :: 0 <= k < i ==> cs[k] != cs[i];
        var st := capi.GetState(cs[i].name);
        assert st == states[i];
        cs[i].capiStatus := Some(st);
        i := i + 1;
      }
    }

    /** Cache every linked carrier's update time. */
    method SeedCache(now: int)
      modifies this`cache
      ensures cache == old(Seeded(cache, capi.GetCarriers(), now))
    {
      var callsigns := capi.GetCarriers();
      var m := cache;
      var i := 0;
      while i < |callsigns|
        invariant i <= |callsigns|
        invariant m == Seeded(cache, callsigns[..i], now)
      {
        assert callsigns[..i + 1][..i] == callsigns[..i];
        m := m[callsigns[i] := SeedValue(callsigns[i], now)];
        i := i + 1;
      }
      assert callsigns[..i] == callsigns;
      cache := m;
    }

    /**
     * `start`: ignored while running; otherwise set every tracked carrier's
     * CAPI state, cache every linked carrier's update time and start.
     */
    method Start(now: int)
      requires depots.Valid()
      modifies this`running, this`cache, depots.carriers`capiStatus
      ensures running
      ensures old(running) ==> cache == old(cache) && forall k :: 0 <= k < |depots.carriers| ==>
        depots.carriers[k].capiStatus == old(depots.carriers[k].capiStatus)
      ensures !old(running) ==>
        && cache == old(Seeded(cache, capi.GetCarriers(), now))
        && forall k :: 0 <= k < |depots.carriers| ==>
             depots.carriers[k].capiStatus == Some(old(capi.GetState(depots.carriers[k].name)))
    {
      if running {
        return;
      }
      MarkStates();
      SeedCache(now);
      running := true;
    }

    /** `close`: ignored unless running; otherwise stop. */
    method Close()
      modifies this`running
      ensures !running
    {
      if running {
        running := false;
      }
    }

    /** `cache_update`: record an external carrier's update time. */
    method CacheUpdate(callsign: string, update: int)
      modifies this`cache
      ensures cache == old(cache)[callsign := update]
    {
      cache := cache[callsign := update];
    }

    /**
     * `_get_external`: the linked carriers that are not tracked and are
     * syncing, with their cached update time or `now`.
     */
    method GetExternal(now: int) returns (r: seq<Candidate>)
      ensures r == ExternalsOf(capi.GetCarriers(), now)
    {
      var callsigns := capi.GetCarriers();
      r := [];
      var i := 0;
      while i < |callsigns|
        invariant i <= |callsigns|
        invariant r == ExternalsOf(callsigns[..i], now)
      {
        var s := callsigns[i];
        assert callsigns[..i + 1][..i] == callsigns[..i];
        if depots.FindCarrierSpec(s, "").None? && capi.GetState(s) == Syncing {
          r := r + [Candidate(External(s), if s in cache then cache[s] else now)];
        }
        i := i + 1;
      }
      assert callsigns[..i] == callsigns;
    }

    /** The tracked carriers that are syncing, in order. */
    method GetInternal() returns (r: seq<Candidate>)
      ensures r == InternalsOf(depots.carriers)
    {
      var cs := depots.carriers;
      r := [];
      var i := 0;
      while i < |cs|
        invariant i <= |cs|
        invariant r == InternalsOf(cs[..i])
      {
        assert cs[..i + 1][..i] == cs[..i];
        if capi.GetState(cs[i].name) == Syncing {
          r := r + [Candidate(Internal(cs[i]), cs[i].lastUpdate)];
        }
        i := i + 1;
      }
      assert cs[..i] == cs;
    }

    /**
     * `_oldest_carrier`: among the syncing tracked carriers and the eligible
     * external ones, the first of least update time; none when there are no
     * candidates (`ValueError`). Its properties are `OldestAtSpec`.
     */
    method OldestCarrier(now: int) returns (r: Option<Candidate>)
      ensures r == OldestAt(now)
    {
      var internal := GetInternal();
      var external := GetExternal(now);
      var all := internal + external;
      if all == [] {
        return None;
      }
      r := Some(all[OldestIndex(all)]);
    }

    /** A failed query: back off, or stop the worker on a failure it does not catch. */
    method Fail(e: CapiError) returns (p: Pause)
      modifies this`running
      ensures p == (if Backoff(e).Some? then Sleep(Backoff(e).value) else Stop)
      ensures running == (old(running) && p != Stop)
    {
      var b := Backoff(e);
      if b.None? {
        running := false;
        return Stop;
      }
      return Sleep(b.value);
    }

    /** A carrier that no longer exists: a tracked one is disabled, an external one forgotten. */
    method Forget(t: Target)
      modifies this`cache, if t.Internal? then {t.carrier} else {}
      ensures t.Internal? ==>
        && cache == old(cache) && !t.carrier.activeDepot
        && t.carrier.Record() == old(t.carrier.Record()).(activeDepot := false)
        && t.carrier.capiStatus == old(t.carrier.capiStatus)
        && t.carrier.restockStatus == old(t.carrier.restockStatus)
      ensures t.External? ==> cache == old(cache) - {t.name}
    {
      match t {
        case Internal(c) => c.activeDepot := false;
        case External(n) => cache := cache - {n};
      }
    }

    /** A carrier that answered: a tracked one takes its CAPI state, and the summary is announced. */
    method Announce(t: Target, f: Fleet)
      modifies this`syncs, if t.Internal? then {t.carrier} else {}
      ensures syncs == old(syncs) + [f]
      ensures t.Internal? ==>
        && t.carrier.capiStatus == Some(capi.GetState(t.carrier.name))
        && t.carrier.Record() == old(t.carrier.Record())
        && t.carrier.restockStatus == old(t.carrier.restockStatus)
    {
      if t.Internal? {
        t.carrier.capiStatus := Some(capi.GetState(t.carrier.name));
      }
      syncs := syncs + [f];
    }

    /**
     * What `_worker` leaves behind once it has queried target `t` at time
     * `now` with answer `response` and chosen pause `p`.
     */
    twostate predicate Handled(t: Target, now: int, refresh: TokenOutcome, fleet: string -> Result<Option<Fleet>, QueryError>,
                               p: Pause, new response: Result<Option<Fleet>, CapiError>)
      reads this, capi, capi.data, if t.Internal? then {t.carrier} else {}
    {
      && capi.data == old(capi.data)
      && (var f := old(capi.Find(ByCarrier(TargetName(t))));
            if f.None? || old(f.value.accessToken).None? then response == Ok(None) && unchanged(old(capi.data))
            else
              var s := FleetStep(old(f.value.Value()), now, refresh, fleet);
              response == s.result && f.value.Value() == s.account)
      && (forall d :: d in old(capi.data) && Some(d) != old(capi.Find(ByCarrier(TargetName(t)))) ==> unchanged(d))
      && Reacted(t, p, response)
    }

    /** What `_worker` does with answer `response` for target `t`, choosing pause `p`. */
    twostate predicate Reacted(t: Target, p: Pause, new response: Result<Option<Fleet>, CapiError>)
      reads this, capi, capi.data, if t.Internal? then {t.carrier} else {}
    {
      && (response.Err? ==>
            && p == (if Backoff(response.error).Some? then Sleep(Backoff(response.error).value) else Stop)
            && running == (old(running) && p != Stop)
            && cache == old(cache) && syncs == old(syncs)
            && (t.Internal? ==> unchanged(t.carrier)))
      && (response == Ok(None) ==>
            && p == Sleep(Delay) && running == old(running) && syncs == old(syncs)
            && (t.Internal? ==> !t.carrier.activeDepot && t.carrier.Record() == old(t.carrier.Record()).(activeDepot := false)
                                && cache == old(cache))
            && (t.External? ==> cache == old(cache) - {t.name}))
      && (response.Ok? && response.value.Some? ==>
            && p == Sleep(Delay) && running == old(running) && cache == old(cache)
            && syncs == old(syncs) + [response.value.value]
            && (t.Internal? ==> t.carrier.capiStatus == Some(capi.GetState(t.carrier.name))
                                && t.carrier.Record() == old(t.carrier.Record())))
    }

    /**
     * The body of `_worker` after a target is chosen: query the carrier,
     * then react to the answer.
     */
    method Handle(t: Target, now: int, refresh: TokenOutcome, fleet: string -> Result<Option<Fleet>, QueryError>)
      returns (p: Pause, ghost response: Result<Option<Fleet>, CapiError>)
      requires capi.Valid()
      modifies this`running, this`cache, this`syncs, capi.data, if t.Internal? then {t.carrier} else {}
      ensures Handled(t, now, refresh, fleet, p, response)
    {
      var r := capi.Fleetcarrier(TargetName(t), now, refresh, fleet);
      response := r;
      p := React(t, r);
    }

    /** Back off on a failure, disable a carrier that no longer exists, or refresh the carrier's state and announce it. */
    method React(t: Target, r: Result<Option<Fleet>, CapiError>) returns (p: Pause)
      modifies this`running, this`cache, this`syncs, if t.Internal? then {t.carrier} else {}
      ensures Reacted(t, p, r)
    {
      match r {
        case Err(e) =>
          p := Fail(e);
        case Ok(None) =>
          Forget(t);
          p := Sleep(Delay);
        case Ok(Some(f)) =>
          Announce(t, f);
          p := Sleep(Delay);
      }
    }

    /**
     * One iteration of `_worker`: no candidates sleep two hours, a changed
     * choice selects again, and a settled target is handled at its wake time.
     */
    method Iteration(now: int, refresh: TokenOutcome, fleet: string -> Result<Option<Fleet>, QueryError>)
      returns (p: Pause, ghost round: Round, ghost response: Result<Option<Fleet>, CapiError>)
      requires capi.Valid()
      modifies this`running, this`cache, this`syncs, capi.data, depots.carriers
      ensures round == old(RoundAt(now))
      ensures !round.Settled? ==> unchanged(this) && unchanged(capi.data) && unchanged(depots.carriers)
      ensures round.NoJobs? ==> p == Sleep(Interval)
      ensures round.Reselect? ==> p == Again
      ensures round.Settled? ==>
        && (forall c :: c in old(depots.carriers) && (round.target.target.External? || c != round.target.target.carrier) ==> unchanged(c))
        && Handled(round.target.target, round.wake, refresh, fleet, p, response)
      ensures p == Stop ==> !running
    {
      var r := RoundAt(now);
      round := r;
      response := Ok(None);
      match r {
        case NoJobs => return Sleep(Interval), round, response;
        case Reselect(_) => return Again, round, response;
        case Settled(c, wake) =>
          SettledTracked(now);
          p, response := Handle(c.target, wake, refresh, fleet);
      }
    }
  }

  /** An external carrier with no cached update time is never re-found by the re-check as written. */
  lemma UncachedExternalNeverSettles(s: string, cache: map<string, int>, now: int)
    requires s !in cache
    ensures var first := Candidate(External(s), now);
      var wake := now + Wait(first.lastUpdate, now);
      var second := Candidate(External(s), if s in cache then cache[s] else wake);
      !SameTargetAsWritten(second, first)
  {
  }

  /** With the callsign comparison, an external carrier is re-found whatever its default time. */
  lemma ExternalSettles(s: string, cache: map<string, int>, now: int, wake: int)
    ensures SameTarget(Candidate(External(s), if s in cache then cache[s] else wake),
                       Candidate(External(s), if s in cache then cache[s] else now))
  {
  }
}
