/** Restock and rescue tasks, each tracked by the Discord message that announces it. */
module Tasks {

  import opened Wrappers
  import opened Enums
  import Text
  import opened Depots

  /** The state of a task; times are POSIX seconds. */
  datatype Progress = Progress(stage: Stage, start: int, end: Option<int>)

  /**
   * The tritium a restock needs: `required` is the total to deliver, `initial`
   * its value when the task opened, `delivered` what has arrived so far and
   * `sellPrice` the tritium price when the task closed.
   */
  datatype TritiumNeed = TritiumNeed(required: int, initial: int, delivered: int, sellPrice: Option<int>)

  /** A carrier restock task. */
  class Restock {
    /** (callsign, display name) of the carrier. */
    const carrier: (string, string)
    var tritium: TritiumNeed
    const system: System
    var haulers: seq<int>
    var progress: Progress
    /** Discord message id; it identifies the task. */
    const message: int

    constructor (carrier: (string, string), tritium: TritiumNeed, system: System,
                 haulers: seq<int>, progress: Progress, message: int)
      ensures this.carrier == carrier && this.tritium == tritium && this.system == system
      ensures this.haulers == haulers && this.progress == progress && this.message == message
    {
      this.carrier, this.tritium, this.system := carrier, tritium, system;
      this.haulers, this.progress, this.message := haulers, progress, message;
    }

    function Label(): string
    {
      CarrierLabel(carrier.0, carrier.1)
    }
  }

  /** A rescue task; `tritium` is `Some` for a carrier rescue and `None` for a ship rescue. */
  class Rescue {
    /** Discord id of the commander who needs help. */
    const client: int
    const system: System
    var rescuers: seq<int>
    var progress: Progress
    const message: int
    const tritium: Option<int>

    constructor (client: int, system: System, rescuers: seq<int>, progress: Progress,
                 message: int, tritium: Option<int>)
      ensures this.client == client && this.system == system && this.rescuers == rescuers
      ensures this.progress == progress && this.message == message && this.tritium == tritium
    {
      this.client, this.system, this.rescuers := client, system, rescuers;
      this.progress, this.message, this.tritium := progress, message, tritium;
    }

    /** "system - <@client>", a Discord mention of the client. */
    function Label(): string
    {
      system.name + " - <@" + Text.IntToString(client) + ">"
    }
  }

  /** Removing the first occurrence of `x`, as `list.remove` does. */
  function RemoveFirst(s: seq<int>, x: int): (r: seq<int>)
    requires x in s
    ensures |r| == |s| - 1
    ensures multiset(r) == multiset(s) - multiset{x}
  {
    assert s == [s[0]] + s[1..];
    if s[0] == x then s[1..] else [s[0]] + RemoveFirst(s[1..], x)
  }

  /** Leaving right after joining restores the volunteer list. */
  lemma {:induction false} JoinThenLeave(volunteers: seq<int>, user: int)
    requires user !in volunteers
    ensures RemoveFirst(volunteers + [user], user) == volunteers
  {
    if volunteers != [] {
      assert (volunteers + [user])[1..] == volunteers[1..] + [user];
      JoinThenLeave(volunteers[1..], user);
    }
  }

  /** The volunteer list after a join (`accepted`) or a leave that is allowed. */
  function Toggled(volunteers: seq<int>, user: int, accepted: bool): seq<int>
  {
    if accepted then volunteers + [user]
    else if user in volunteers then RemoveFirst(volunteers, user)
    else volunteers
  }

  /** Whether a join (`accepted`) or leave request changes the volunteer list. */
  predicate CanToggle(volunteers: seq<int>, user: int, accepted: bool)
  {
    if accepted then user !in volunteers else user in volunteers
  }

  /** No volunteer is listed twice. */
  ghost predicate NoRepeats(volunteers: seq<int>)
  {
    forall x :: multiset(volunteers)[x] <= 1
  }

  /**
   * An allowed toggle keeps every volunteer listed at most once, and leaves
   * the user listed exactly when the request was a join.
   */
  lemma ToggleKeepsNoRepeats(volunteers: seq<int>, user: int, accepted: bool)
    requires NoRepeats(volunteers) && CanToggle(volunteers, user, accepted)
    ensures NoRepeats(Toggled(volunteers, user, accepted))
    ensures user in Toggled(volunteers, user, accepted) <==> accepted
  {
    var r := Toggled(volunteers, user, accepted);
    if accepted {
      assert multiset(r) == multiset(volunteers) + multiset{user};
    } else {
      assert multiset(r) == multiset(volunteers) - multiset{user};
    }
    assert user in r <==> multiset(r)[user] > 0;
  }
}
