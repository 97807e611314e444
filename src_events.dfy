/** The event bus of src/util/events.py: the same table from event type to observers
    as quant/util/events.py, without weak references, so every registered observer is
    called. */
module SrcEvents {
  import opened Events

  /** The observers that return something truthy, which an emit unsubscribes. */
  predicate Unsubscribes(h: Handler, outcome: Handler -> HandlerResult)
  {
    outcome(h) == Truthy
  }

  function Truthful(outcome: Handler -> HandlerResult): Handler -> bool
  {
    (h: Handler) => Unsubscribes(h, outcome)
  }

  /** The `observers` table and the log of observer calls. */
  class Observers {
    var table: map<EventType, seq<Handler>>
    var calls: seq<(Handler, Event)>

    constructor ()
      ensures table == map[] && calls == []
    {
      table := map[];
      calls := [];
    }

    /** `observers[t]` of the defaultdict. */
    function Get(t: EventType): (r: seq<Handler>)
      reads this
      ensures t !in table ==> r == []
    {
      if t in table then table[t] else []
    }

    /** `observe(t, h)`: `h` goes last in that type's list. */
    method Observe(t: EventType, h: Handler)
      modifies this
      ensures Get(t) == old(Get(t)) + [h]
      ensures forall u :: u != t ==> Get(u) == old(Get(u))
      ensures calls == old(calls)
    {
      table := table[t := Get(t) + [h]];
    }

    /** `stop_observing(t, h)`: every entry equal to `h` leaves that type's list only. */
    method StopObserving(t: EventType, h: Handler)
      modifies this
      ensures Get(t) == Without(old(Get(t)), h)
      ensures forall u :: u != t ==> Get(u) == old(Get(u))
      ensures table == old(table)[t := Get(t)] && calls == old(calls)
    {
      table := table[t := Without(Get(t), h)];
    }

    /** `emit(e)`: call every observer of `type(e)` in the list taken at the start, in
        order, removing those that return something truthy; one that raises is caught,
        stays registered, and the rest are still called. */
    method Emit(e: Event, outcome: Handler -> HandlerResult)
      modifies this
      ensures calls == old(calls) + Calls(old(Get(TypeOf(e))), e)
      ensures Get(TypeOf(e)) == Filter(old(Get(TypeOf(e))), Not(Truthful(outcome)))
      ensures forall u :: u != TypeOf(e) ==> Get(u) == old(Get(u))
    {
      var t := TypeOf(e);
      var l := Get(t);
      var cur := l;
      var log := calls;
      var tab := table;
      ghost var drop := Truthful(outcome);
      var i := 0;
      while i < |l|
        invariant i <= |l|
        invariant Emitted(l, l, drop) == Emitted(cur, l[i..], drop)
        invariant log == old(calls) + Calls(l[..i], e)
        modifies {}
        decreases |l| - i
      {
        var h := l[i];
        ghost var before := cur;
        ghost var logBefore := log;
        log := log + [(h, e)];
        if outcome(h) == Truthy {
          cur := Without(cur, h);
        }
        WalkStep(l, i, before, cur, drop, e, old(calls), logBefore);
        i := i + 1;
      }
      assert l[..i] == l && l[i..] == [];
      EmitKeepsUncondemned(l, drop);
      table := tab[t := cur];
      calls := log;
    }
  }

  /** One step of the emit walk, on the list it updates and the call log it keeps. */
  lemma WalkStep(l: seq<Handler>, i: nat, before: seq<Handler>, after: seq<Handler>, drop: Handler -> bool,
                 e: Event, c0: seq<(Handler, Event)>, done: seq<(Handler, Event)>)
    requires i < |l|
    requires after == (if drop(l[i]) then Without(before, l[i]) else before)
    ensures Emitted(before, l[i..], drop) == Emitted(after, l[i + 1..], drop)
    ensures done == c0 + Calls(l[..i], e) ==> done + [(l[i], e)] == c0 + Calls(l[..i + 1], e)
  {
    assert l[i..][0] == l[i] && l[i..][1..] == l[i + 1..];
    assert l[..i + 1] == l[..i] + [l[i]];
    CallsAppend(l[..i], [l[i]], e);
  }

  /** An observer registered twice is called twice by one emit even when its first call
      unsubscribes it, since the walk runs over the list taken at the start. */
  lemma TwiceRegisteredCalledTwice(h: Handler, e: Event)
    ensures Calls([h, h], e) == [(h, e), (h, e)]
    ensures Filter([h, h], Not(Truthful((x: Handler) => Truthy))) == []
  {
  }
}
