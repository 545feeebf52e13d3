/**
 * The rescue service: the set of rescue tasks, opening one for a client in a
 * known system, the rescuer join/leave toggle and closing a client's task.
 */
module Rescues {

  import opened Wrappers
  import opened Enums
  import opened Depots
  import opened Tasks

  /** The failures the service raises. */
  datatype RescueError =
    | UnknownTask     // `ValueError`: no task for the message
    | NotARescuer     // `ValueError` of `list.remove`
    | NoLocation      // `ValueError`: the system has no known location
    | NoOpenTask      // `assert rescue`: the client has no open task

  /**
   * The criteria of `find`. `None` and 0 mean "any" for the client and the
   * message; closed tasks are skipped unless asked for.
   */
  datatype Query = Query(
    client: Option<int>, message: Option<int>, stage: Option<Stage>,
    includeComplete: bool, includeAborted: bool)

  function ByClient(client: int): Query
  {
    Query(Some(client), None, None, false, false)
  }

  function ByMessage(message: int): Query
  {
    Query(Some(0), Some(message), None, false, false)
  }

  /** The test of `find` on a task with the given stage, message and client. */
  predicate Matches(stage: Stage, message: int, client: int, q: Query)
  {
    && (q.stage.None? || stage == q.stage.value)
    && (q.includeComplete || stage != Complete)
    && (q.includeAborted || stage != Aborted)
    && (q.message.None? || q.message.value == 0 || message == q.message.value)
    && (q.client.None? || q.client.value == 0 || client == q.client.value)
  }

  predicate TaskMatches(t: Rescue, q: Query)
    reads t
  {
    Matches(t.progress.stage, t.message, t.client, q)
  }

  /** A closed task never answers a default query. */
  lemma ClosedNeverFound(stage: Stage, message: int, client: int, q: Query)
    requires !IsOpen(stage) && !q.includeComplete && !q.includeAborted
    ensures !Matches(stage, message, client, q)
  {
  }

  /** The position of the first matching task, or the length of the sequence. */
  function FirstMatch(ts: seq<Rescue>, q: Query): (i: nat)
    reads ts
    ensures i <= |ts|
    ensures forall j :: 0 <= j < i ==> !TaskMatches(ts[j], q)
    ensures i < |ts| ==> TaskMatches(ts[i], q)
  {
    if ts == [] then 0
    else if TaskMatches(ts[0], q) then 0
    else
      var i := FirstMatch(ts[1..], q);
      assert forall j :: 1 <= j < i + 1 ==> ts[j] == ts[1..][j - 1];
      i + 1
  }

  class RescueService {
    /** The task set, in its iteration order. */
    var rescues: seq<Rescue>

    /** The task set holds each task once. */
    ghost predicate Valid()
      reads this
    {
      forall i, j :: 0 <= i < j < |rescues| ==> rescues[i] != rescues[j]
    }

    constructor ()
      ensures Valid() && rescues == []
    {
      rescues := [];
    }

    /** `_Rescues.find`: the first task, in iteration order, matching every criterion. */
    function FindSpec(q: Query): (r: Option<Rescue>)
      reads this, rescues
      ensures r.Some? ==> r.value in rescues && TaskMatches(r.value, q)
      ensures r.None? <==> forall t :: t in rescues ==> !TaskMatches(t, q)
    {
      var i := FirstMatch(rescues, q);
      if i < |rescues| then Some(rescues[i]) else None
    }

    method Find(q: Query) returns (r: Option<Rescue>)
      ensures r == FindSpec(q)
    {
      var i := 0;
      while i < |rescues|
        invariant 0 <= i <= |rescues|
        invariant forall j :: 0 <= j < i ==> !TaskMatches(rescues[j], q)
      {
        if TaskMatches(rescues[i], q) {
          return Some(rescues[i]);
        }
        i := i + 1;
      }
      return None;
    }

    /** `_Rescues.add`. */
    method Add(t: Rescue)
      requires Valid() && t !in rescues
      modifies this
      ensures Valid() && rescues == old(rescues) + [t]
    {
      rescues := rescues + [t];
    }

    /** `_can_assign_task`: a join is refused for a rescuer already on the task, a leave for one who is not. */
    method CanAssignTask(messageId: int, user: int, accepted: bool) returns (r: Result<bool, RescueError>)
      ensures FindSpec(ByMessage(messageId)).None? <==> r == Err(UnknownTask)
      ensures r.Err? ==> r.error == UnknownTask
      ensures r.Ok? ==> r.value == CanToggle(FindSpec(ByMessage(messageId)).value.rescuers, user, accepted)
    {
      var task := Find(ByMessage(messageId));
      if task.None? {
        return Err(UnknownTask);
      }
      if accepted && user in task.value.rescuers {
        return Ok(false);
      }
      if !accepted && user !in task.value.rescuers {
        return Ok(false);
      }
      return Ok(true);
    }

    /**
     * `_on_rescuer_update`: add or remove the rescuer and set the stage to
     * Underway exactly when someone is on the task.
     */
    method OnRescuerUpdate(messageId: int, user: int, accepted: bool) returns (r: Result<bool, RescueError>)
      requires Valid()
      modifies rescues
      ensures Valid()
      ensures old(FindSpec(ByMessage(messageId))).None? ==> r == Err(UnknownTask)
      ensures old(FindSpec(ByMessage(messageId))).Some? ==>
        var t := old(FindSpec(ByMessage(messageId))).value;
        if !accepted && user !in old(t.rescuers) then
          r == Err(NotARescuer) && unchanged(t)
        else
          && r == Ok(true)
          && t.rescuers == Toggled(old(t.rescuers), user, accepted)
          && (t.progress.stage == Underway <==> t.rescuers != [])
          && t.progress == old(t.progress).(stage := if t.rescuers != [] then Underway else Pending)
      ensures forall t :: t in rescues && Some(t) != old(FindSpec(ByMessage(messageId))) ==> unchanged(t)
    {
      var task := Find(ByMessage(messageId));
      if task.None? {
        return Err(UnknownTask);
      }
      var t := task.value;
      if accepted {
        t.rescuers := t.rescuers + [user];
      } else {
        if user !in t.rescuers {
          return Err(NotARescuer);
        }
        t.rescuers := RemoveFirst(t.rescuers, user);
      }
      t.progress := t.progress.(stage := if t.rescuers != [] then Underway else Pending);
      return Ok(true);
    }

    /** `update_rescuer`: toggle a rescuer on a task when the toggle is allowed, reporting whether it was. */
    method UpdateRescuer(task: Rescue, user: int, accepted: bool) returns (r: Result<bool, RescueError>)
      requires Valid()
      modifies rescues
      ensures Valid()
      ensures old(FindSpec(ByMessage(task.message))).None? ==> r == Err(UnknownTask) && unchanged(rescues)
      ensures r == Ok(false) <==>
        old(FindSpec(ByMessage(task.message))).Some? &&
        !CanToggle(old(FindSpec(ByMessage(task.message)).value.rescuers), user, accepted)
      ensures r == Ok(false) ==> unchanged(rescues)
      ensures r == Ok(true) ==> var t := old(FindSpec(ByMessage(task.message))).value;
        && t.rescuers == Toggled(old(t.rescuers), user, accepted)
        && (t.progress.stage == Underway <==> t.rescuers != [])
        && t.progress == old(t.progress).(stage := if t.rescuers != [] then Underway else Pending)
      ensures forall t :: t in rescues && Some(t) != old(FindSpec(ByMessage(task.message))) ==> unchanged(t)
    {
      var allowed := CanAssignTask(task.message, user, accepted);
      if allowed.Err? {
        return allowed;
      }
      if !allowed.value {
        return Ok(false);
      }
      r := OnRescuerUpdate(task.message, user, accepted);
    }

    /**
     * `new_rescue`: refuse a system without a location; otherwise add a
     * Pending task without rescuers, a carrier rescue when `tritium` is given
     * and a ship rescue when not, announced by Discord message `messageId`.
     */
    method NewRescue(client: int, system: System, tritium: Option<int>, messageId: int, now: int)
      returns (r: Result<Rescue, RescueError>)
      requires Valid()
      modifies this
      ensures Valid()
      ensures system.location.None? <==> r.Err?
      ensures r.Err? ==> r.error == NoLocation && rescues == old(rescues)
      ensures r.Ok? ==> var t := r.value;
        && fresh(t) && rescues == old(rescues) + [t]
        && t.client == client && t.system == system && t.tritium == tritium
        && t.rescuers == [] && t.progress == Progress(Pending, now, None) && t.message == messageId
    {
      if system.location.None? {
        return Err(NoLocation);
      }
      var t := new Rescue(client, system, [], Progress(Pending, now, None), messageId, tritium);
      Add(t);
      return Ok(t);
    }

    /** `close_rescue`: mark the client's open task Aborted or Complete and stamp its end. */
    method CloseRescue(client: int, now: int, abort: bool) returns (r: Result<Rescue, RescueError>)
      requires Valid()
      modifies rescues
      ensures Valid()
      ensures old(FindSpec(ByClient(client))).None? <==> r.Err?
      ensures r.Err? ==> r.error == NoOpenTask
      ensures r.Ok? ==> var t := r.value;
        && Some(t) == old(FindSpec(ByClient(client)))
        && t.progress == old(t.progress).(stage := if abort then Aborted else Complete, end := Some(now))
        && t.rescuers == old(t.rescuers)
      ensures forall t :: t in rescues && (r.Err? || t != r.value) ==> unchanged(t)
    {
      var task := Find(ByClient(client));
      if task.None? {
        return Err(NoOpenTask);
      }
      var t := task.value;
      t.progress := t.progress.(stage := if abort then Aborted else Complete, end := Some(now));
      return Ok(t);
    }
  }

}
