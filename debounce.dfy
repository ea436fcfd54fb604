/** The debounced lookups of the profile screen (`onSearchDelete`) and the
    edit screen (`onChangeQuery`): a ref holding the last timer handle, and
    the timers still waiting to fire. Each keystroke clears the timer in the
    ref and starts a new one, so at most one lookup is ever pending. Timing
    itself is not modelled: a timer either is pending or has fired. */
module Debounce {
  import opened Base

  /** Every pending timer is the one the ref holds. */
  predicate OnlyCurrentPending<T>(timers: map<nat, T>, current: Option<nat>) {
    forall h :: h in timers ==> current == Some(h)
  }

  /** At most one lookup is pending. */
  lemma AtMostOnePending<T>(timers: map<nat, T>, current: Option<nat>)
    requires OnlyCurrentPending(timers, current)
    ensures |timers| <= 1
    ensures current.None? ==> timers == map[]
  {
    if current.None? {
      assert timers.Keys == {};
    } else {
      var k := current.value;
      if k in timers {
        assert timers == map[k := timers[k]];
      } else {
        assert timers.Keys == {};
      }
    }
  }

  class Debouncer<T> {
    /** Timers that have not fired yet, by handle, with the job each runs. */
    var timers: map<nat, T>
    /** The ref: the handle of the last timer started, if any. */
    var current: Option<nat>
    var nextHandle: nat

    ghost predicate Valid()
      reads this
    {
      OnlyCurrentPending(timers, current) &&
      (current.Some? ==> current.value < nextHandle) &&
      (forall h :: h in timers ==> h < nextHandle)
    }

    constructor()
      ensures Valid() && timers == map[] && current == None
    {
      timers := map[];
      current := None;
      nextHandle := 0;
    }

    /** Clear the timer in the ref (a no-op if it has fired) and start a new
        one for `job`: afterwards exactly that job is pending. */
    method Schedule(job: T) returns (h: nat)
      requires Valid()
      modifies this
      ensures Valid()
      ensures timers == map[h := job] && current == Some(h)
      ensures h !in old(timers)
    {
      if current.Some? {
        timers := timers - {current.value};
      }
      AtMostOnePending(timers, current);
      assert timers == map[];
      h := nextHandle;
      nextHandle := nextHandle + 1;
      timers := timers[h := job];
      current := Some(h);
    }

    /** Timer `h` fires: if it is still pending, its job runs (it is
        returned) and it is no longer pending; a cleared timer does
        nothing. */
    method Fire(h: nat) returns (job: Option<T>)
      requires Valid()
      modifies this`timers
      ensures Valid()
      ensures job == (if h in old(timers) then Some(old(timers)[h]) else None)
      ensures timers == old(timers) - {h}
    {
      if h in timers {
        job := Some(timers[h]);
        timers := timers - {h};
      } else {
        job := None;
      }
    }
  }
}
