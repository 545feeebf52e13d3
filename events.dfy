/**
 * Subscribable events in the style of .NET: a list of handlers without
 * repeats that `+=` extends and `-=` shrinks, and `fire` calls in order.
 * A handler is named by an identity and whether it is a coroutine
 * function; calling it is recorded as the handler itself.
 */
module Events {

  import opened Seqs

  datatype Handler = Handler(id: nat, coroutine: bool)

  /** The handlers after `+=`: `h` appended unless it is already there. */
  function Subscribed(hs: seq<Handler>, h: Handler): seq<Handler>
  {
    if h in hs then hs else hs + [h]
  }

  /** The handlers after `-=`: the first occurrence of `h` removed, if there is one. */
  function Removed(hs: seq<Handler>, h: Handler): seq<Handler>
  {
    if hs == [] then []
    else if hs[0] == h then hs[1..]
    else [hs[0]] + Removed(hs[1..], h)
  }

  /** Subscribing keeps the list free of repeats and adds exactly `h` to it. */
  lemma SubscribedSpec(hs: seq<Handler>, h: Handler)
    requires Distinct(hs)
    ensures Distinct(Subscribed(hs, h))
    ensures forall g :: g in Subscribed(hs, h) <==> g in hs || g == h
    ensures Subscribed(Subscribed(hs, h), h) == Subscribed(hs, h)
  {
  }

  /** Removing `h` from a list without repeats keeps the others in their order and leaves no `h`. */
  lemma {:induction false} RemovedSpec(hs: seq<Handler>, h: Handler)
    requires Distinct(hs)
    ensures Distinct(Removed(hs, h))
    ensures forall g :: g in Removed(hs, h) <==> g in hs && g != h
    ensures h !in hs ==> Removed(hs, h) == hs
  {
    if hs != [] && hs[0] != h {
      assert Distinct(hs[1..]) by {
        forall i, j | 0 <= i < j < |hs| - 1 ensures hs[1..][i] != hs[1..][j] {
          assert hs[1..][i] == hs[i + 1] && hs[1..][j] == hs[j + 1];
        }
      }
      RemovedSpec(hs[1..], h);
      var r := Removed(hs[1..], h);
      assert hs[0] !in hs[1..] by {
        assert forall k :: 1 <= k < |hs| ==> hs[k] != hs[0];
      }
      forall i, j | 0 <= i < j < |[hs[0]] + r| ensures ([hs[0]] + r)[i] != ([hs[0]] + r)[j] {
        if i > 0 {
          assert ([hs[0]] + r)[i] == r[i - 1] && ([hs[0]] + r)[j] == r[j - 1];
        } else {
          assert ([hs[0]] + r)[j] in r;
        }
      }
      if h !in hs {
        assert hs == [hs[0]] + hs[1..];
      }
    } else if hs != [] {
      assert forall k :: 1 <= k < |hs| ==> hs[k] != hs[0];
      assert forall i, j :: 0 <= i < j < |hs| - 1 ==> hs[1..][i] == hs[i + 1] && hs[1..][j] == hs[j + 1];
    }
  }

  /** Removing a handler keeps every remaining handler of the kind all of them had. */
  lemma {:induction false} RemovedKind(hs: seq<Handler>, h: Handler, coroutine: bool)
    requires forall i :: 0 <= i < |hs| ==> hs[i].coroutine == coroutine
    ensures forall i :: 0 <= i < |Removed(hs, h)| ==> Removed(hs, h)[i].coroutine == coroutine
  {
    if hs != [] && hs[0] != h {
      RemovedKind(hs[1..], h, coroutine);
      var r := Removed(hs[1..], h);
      assert forall i :: 1 <= i < |[hs[0]] + r| ==> ([hs[0]] + r)[i] == r[i - 1];
    }
  }

  /** `-=` undoes a `+=` of a handler that was not subscribed. */
  lemma {:induction false} UnsubscribeUndoes(hs: seq<Handler>, h: Handler)
    requires h !in hs
    ensures Removed(Subscribed(hs, h), h) == hs
  {
    if hs == [] {
    } else {
      assert (hs + [h])[1..] == hs[1..] + [h];
      UnsubscribeUndoes(hs[1..], h);
      assert hs == [hs[0]] + hs[1..];
    }
  }

  /** The handlers of an event that accepts blocking functions. */
  class SyncEvent {
    var handlers: seq<Handler>

    ghost predicate Valid()
      reads this
    {
      Distinct(handlers)
    }

    constructor ()
      ensures Valid() && handlers == []
    {
      handlers := [];
    }

    /** `+=`. */
    method Subscribe(h: Handler)
      requires Valid()
      modifies this
      ensures Valid() && handlers == Subscribed(old(handlers), h)
    {
      SubscribedSpec(handlers, h);
      if h !in handlers {
        handlers := handlers + [h];
      }
    }

    /** `-=`: a handler that is not subscribed is ignored. */
    method Unsubscribe(h: Handler)
      requires Valid()
      modifies this
      ensures Valid() && handlers == Removed(old(handlers), h)
    {
      RemovedSpec(handlers, h);
      handlers := Removed(handlers, h);
    }

    /** `fire`: every handler called once, in the order they subscribed. */
    method Fire() returns (calls: seq<Handler>)
      ensures calls == handlers
    {
      calls := [];
      for i := 0 to |handlers|
        invariant calls == handlers[..i]
      {
        calls := calls + [handlers[i]];
      }
    }

    method Clear()
      modifies this
      ensures Valid() && handlers == []
    {
      handlers := [];
    }
  }

  /** Whether `+=` on an event for coroutines raises `TypeError`: when `h` is not a coroutine function. */
  predicate Rejects(h: Handler)
  {
    !h.coroutine
  }

  /** The handlers of an event that accepts only coroutine functions. */
  class AsyncEvent {
    var handlers: seq<Handler>

    ghost predicate Valid()
      reads this
    {
      Distinct(handlers) && forall i :: 0 <= i < |handlers| ==> handlers[i].coroutine
    }

    constructor ()
      ensures Valid() && handlers == []
    {
      handlers := [];
    }

    /** `+=`: a blocking function raises `TypeError` and leaves the handlers as they were. */
    method Subscribe(h: Handler) returns (typeError: bool)
      requires Valid()
      modifies this
      ensures typeError <==> Rejects(h)
      ensures Valid()
      ensures handlers == if typeError then old(handlers) else Subscribed(old(handlers), h)
    {
      if !h.coroutine {
        return true;
      }
      SubscribedSpec(handlers, h);
      if h !in handlers {
        handlers := handlers + [h];
      }
      return false;
    }

    /** `-=`. */
    method Unsubscribe(h: Handler)
      requires Valid()
      modifies this
      ensures Valid() && handlers == Removed(old(handlers), h)
    {
      RemovedSpec(handlers, h);
      RemovedKind(handlers, h, true);
      handlers := Removed(handlers, h);
    }

    /** `fire`: every handler started, in order, and the event waits for them all; nothing when there are none. */
    method Fire() returns (started: seq<Handler>)
      ensures started == handlers
    {
      if handlers == [] {
        return [];
      }
      started := [];
      for i := 0 to |handlers|
        invariant started == handlers[..i]
      {
        started := started + [handlers[i]];
      }
    }

    method Clear()
      modifies this
      ensures Valid() && handlers == []
    {
      handlers := [];
    }
  }

  /** An event for both kinds of handler, routing each kind to an event of its own. */
  class HybridEvent {
    const asyncEvent: AsyncEvent
    const syncEvent: SyncEvent

    ghost predicate Valid()
      reads this, asyncEvent, syncEvent
    {
      asyncEvent.Valid() && syncEvent.Valid()
      && forall i :: 0 <= i < |syncEvent.handlers| ==> !syncEvent.handlers[i].coroutine
    }

    /** Every handler subscribed to one of the two events. */
    ghost function All(): set<Handler>
      reads this, asyncEvent, syncEvent
    {
      (set h | h in asyncEvent.handlers) + (set h | h in syncEvent.handlers)
    }

    constructor ()
      ensures Valid() && asyncEvent.handlers == [] && syncEvent.handlers == []
      ensures fresh(asyncEvent) && fresh(syncEvent)
    {
      asyncEvent := new AsyncEvent();
      syncEvent := new SyncEvent();
    }

    /** `+=`: a coroutine function goes to the event for coroutines, anything else to the other. */
    method Subscribe(h: Handler)
      requires Valid()
      modifies asyncEvent, syncEvent
      ensures Valid()
      ensures h.coroutine ==> (asyncEvent.handlers == Subscribed(old(asyncEvent.handlers), h)
        && syncEvent.handlers == old(syncEvent.handlers))
      ensures !h.coroutine ==> (syncEvent.handlers == Subscribed(old(syncEvent.handlers), h)
        && asyncEvent.handlers == old(asyncEvent.handlers))
      ensures All() == old(All()) + {h}
    {
      SubscribedSpec(asyncEvent.handlers, h);
      SubscribedSpec(syncEvent.handlers, h);
      if h.coroutine {
        var _ := asyncEvent.Subscribe(h);
      } else {
        syncEvent.Subscribe(h);
      }
    }

    /** `-=`: the handler is removed from the event of its kind. */
    method Unsubscribe(h: Handler)
      requires Valid()
      modifies asyncEvent, syncEvent
      ensures Valid()
      ensures h.coroutine ==> (asyncEvent.handlers == Removed(old(asyncEvent.handlers), h)
        && syncEvent.handlers == old(syncEvent.handlers))
      ensures !h.coroutine ==> (syncEvent.handlers == Removed(old(syncEvent.handlers), h)
        && asyncEvent.handlers == old(asyncEvent.handlers))
      ensures All() == old(All()) - {h}
    {
      RemovedSpec(asyncEvent.handlers, h);
      RemovedSpec(syncEvent.handlers, h);
      RemovedKind(syncEvent.handlers, h, false);
      if h.coroutine {
        asyncEvent.Unsubscribe(h);
      } else {
        syncEvent.Unsubscribe(h);
      }
    }

    /** `fire`: the blocking handlers are called first, then the coroutines are started. */
    method Fire() returns (calls: seq<Handler>)
      ensures calls == syncEvent.handlers + asyncEvent.handlers
    {
      var blocking := syncEvent.Fire();
      var started := asyncEvent.Fire();
      calls := blocking + started;
    }

    method Clear()
      requires Valid()
      modifies asyncEvent, syncEvent
      ensures Valid() && asyncEvent.handlers == [] && syncEvent.handlers == []
    {
      syncEvent.Clear();
      asyncEvent.Clear();
    }
  }

  /** In a hybrid event each handler is called at most once per firing, blocking ones before coroutines. */
  lemma HybridFiresOnce(blocking: seq<Handler>, coroutines: seq<Handler>)
    requires Distinct(blocking) && Distinct(coroutines)
    requires forall i :: 0 <= i < |blocking| ==> !blocking[i].coroutine
    requires forall j :: 0 <= j < |coroutines| ==> coroutines[j].coroutine
    ensures Distinct(blocking + coroutines)
    ensures forall i, j :: 0 <= i < |blocking| <= j < |blocking + coroutines| ==>
      !(blocking + coroutines)[i].coroutine && (blocking + coroutines)[j].coroutine
  {
    DistinctJoin(blocking, coroutines, set j | 0 <= j < |coroutines| :: coroutines[j]);
  }
}
