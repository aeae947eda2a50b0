/** The kill-switch controller: a set of active reasons and the history of trips
    (runtime/kill_switch.py). */
module KillSwitch {
  import opened Collections

  datatype KillSwitchTrip<R, D> = KillSwitchTrip(reason: R, detail: D, at: int)

  datatype TripError = EmptyReason

  class KillSwitchController<R(==,!new), D(!new)> {
    /** False of the empty reason, which is refused. */
    const named: R -> bool
    var active: set<R>
    var history: seq<KillSwitchTrip<R, D>>
    var everTripped: set<R>

    /** Nothing is active that was never tripped, and the trips are the history's, all named. */
    ghost predicate Valid()
      reads this
    {
      && active <= everTripped
      && (forall r :: r in everTripped ==> named(r))
      && (forall r :: r in everTripped <==> exists i :: 0 <= i < |history| && history[i].reason == r)
    }

    constructor (named: R -> bool)
      ensures Valid() && active == {} && history == [] && this.named == named
    {
      this.named := named;
      active, history, everTripped := {}, [], {};
    }

    method Trip(reason: R, detail: D, now: int) returns (trip: Result<KillSwitchTrip<R, D>, TripError>)
      requires Valid()
      modifies this
      ensures Valid()
      ensures trip == if named(reason) then Success(KillSwitchTrip(reason, detail, now)) else Failure(EmptyReason)
      ensures trip.Success? ==>
        && active == old(active) + {reason} && history == old(history) + [trip.value]
        && everTripped == old(everTripped) + {reason}
      ensures trip.Failure? ==>
        active == old(active) && history == old(history) && everTripped == old(everTripped)
    {
      if !named(reason) {
        return Failure(EmptyReason);
      }
      var made := KillSwitchTrip(reason, detail, now);
      history := history + [made];
      active := active + {reason};
      everTripped := everTripped + {reason};
      assert history[|history| - 1].reason == reason;
      assert forall i :: 0 <= i < |old(history)| ==> history[i] == old(history)[i];
      return Success(made);
    }

    /** Reports whether the reason had been active; the record of trips is never shortened. */
    method Clear(reason: R) returns (was: bool)
      requires Valid()
      modifies this`active
      ensures Valid() && active == old(active) - {reason} && was == (reason in old(active))
    {
      was := reason in active;
      if was {
        active := active - {reason};
      }
    }
  }
}
