/** The Waiter of src/util/timeutil.py. Unlike the one in quant/util/timeutil.py,
    `still_waiting` is "not yet called OR the time is over", so it never turns false
    before a call and turns true again once the deadline has passed. */
module SrcTimeUtil {

  class Waiter {
    var waiting: bool
    const maxWait: real
    const start: real

    /** `Waiter(max_wait)` created at clock reading `now`: waiting. */
    constructor (maxWait: real, now: real)
      ensures waiting && this.maxWait == maxWait && start == now
    {
      waiting := true;
      this.maxWait := maxWait;
      start := now;
    }

    /** Calling the waiter clears the flag; calling it again changes nothing. */
    method Call()
      modifies this
      ensures !waiting
    {
      waiting := false;
    }

    /** `still_waiting()` at clock reading `now`. */
    predicate StillWaiting(now: real)
      reads this
    {
      waiting || now - start >= maxWait
    }
  }

  /** Before the call it is always still waiting; after the call it is still waiting
      exactly when the deadline has passed. */
  lemma StillWaitingCases(w: Waiter, now: real)
    ensures w.waiting ==> w.StillWaiting(now)
    ensures !w.waiting ==> (w.StillWaiting(now) <==> now >= w.start + w.maxWait)
  {
  }
}
