/** The process-wide event bus of quant/util/events.py: a table from event type to the
    list of subscribed observers, optionally held through weak references. Observers
    are identifiers; what one does when called is its outcome (returning something
    falsy, returning something truthy, or raising), and whether the referent of a weak
    reference is still alive is a parameter of the emit. */
module Events {
  import opened Markets
  import opened Broker

  /** The classes of the events the system emits. */
  datatype EventType = TickEventType | OrderEventType

  datatype Event = TickEvent(bar: TickBar) | OrderEvent(order: Order)

  function TypeOf(e: Event): EventType
  {
    match e
    case TickEvent(_) => TickEventType
    case OrderEvent(_) => OrderEventType
  }

  /** An observer callable, identified by a number. */
  type Handler = int

  /** What calling an observer does: return something falsy, return something truthy
      (which unsubscribes it), or raise. */
  datatype HandlerResult = Falsy | Truthy | Raises

  /** A table entry: the observer itself, or a weak reference to it. Two entries are
      equal when they hold the same kind of reference to the same observer. */
  datatype Ref = Strong(handler: Handler) | Weak(handler: Handler)

  // ---------------------------------------------------------------------
  // List operations shared by both event buses

  /** The elements of `s` satisfying `p`, in order. */
  function Filter<T(!new)>(s: seq<T>, p: T -> bool): (r: seq<T>)
    ensures |r| <= |s|
    ensures forall x :: x in r <==> x in s && p(x)
    decreases |s|
  {
    if s == [] then [] else (if p(s[0]) then [s[0]] else []) + Filter(s[1..], p)
  }

  /** Filtering depends only on the verdicts on the elements present. */
  lemma {:induction false} FilterCongruent<T(!new)>(s: seq<T>, p: T -> bool, q: T -> bool)
    requires forall x :: x in s ==> p(x) == q(x)
    ensures Filter(s, p) == Filter(s, q)
    decreases |s|
  {
    if s != [] {
      assert forall x :: x in s[1..] ==> x in s;
      FilterCongruent(s[1..], p, q);
    }
  }

  /** Filtering twice is filtering by both conditions. */
  lemma {:induction false} FilterFilter<T(!new)>(s: seq<T>, p: T -> bool, q: T -> bool, pq: T -> bool)
    requires forall x :: x in s ==> pq(x) == (p(x) && q(x))
    ensures Filter(Filter(s, p), q) == Filter(s, pq)
    decreases |s|
  {
    if s != [] {
      assert forall x :: x in s[1..] ==> x in s;
      FilterFilter(s[1..], p, q, pq);
      if p(s[0]) {
        var f := Filter(s, p);
        assert f == [s[0]] + Filter(s[1..], p);
        assert f[0] == s[0] && f[1..] == Filter(s[1..], p);
        assert Filter(f, q) == (if q(s[0]) then [s[0]] else []) + Filter(Filter(s[1..], p), q);
      } else {
        assert Filter(s, p) == Filter(s[1..], p);
      }
    }
  }

  function NotEqual<T(==,!new)>(y: T): T -> bool
  {
    (x: T) => x != y
  }

  /** `stop_observing`'s comprehension: every element equal to `y` removed, the rest in
      their order. */
  function Without<T(==,!new)>(s: seq<T>, y: T): (r: seq<T>)
    ensures y !in r
    ensures forall x :: x != y ==> multiset(r)[x] == multiset(s)[x]
    decreases |s|
  {
    if s == [] then []
    else
      assert s == [s[0]] + s[1..];
      (if s[0] != y then [s[0]] else []) + Without(s[1..], y)
  }

  lemma {:induction false} WithoutIsFilter<T(!new)>(s: seq<T>, y: T)
    ensures Without(s, y) == Filter(s, NotEqual(y))
    decreases |s|
  {
    if s != [] {
      WithoutIsFilter(s[1..], y);
    }
  }

  /** Removing keeps the order and is idempotent. */
  lemma {:induction false} WithoutAppend<T(!new)>(a: seq<T>, b: seq<T>, y: T)
    ensures Without(a + b, y) == Without(a, y) + Without(b, y)
    decreases |a|
  {
    if a == [] {
      assert a + b == b;
    } else {
      var h := if a[0] != y then [a[0]] else [];
      assert (a + b)[0] == a[0] && (a + b)[1..] == a[1..] + b;
      assert Without(a + b, y) == h + Without(a[1..] + b, y);
      assert Without(a, y) == h + Without(a[1..], y);
      WithoutAppend(a[1..], b, y);
      assert h + (Without(a[1..], y) + Without(b, y)) == (h + Without(a[1..], y)) + Without(b, y);
    }
  }

  lemma {:induction false} WithoutIdempotent<T(!new)>(s: seq<T>, y: T)
    ensures Without(Without(s, y), y) == Without(s, y)
    decreases |s|
  {
    if s != [] {
      WithoutIdempotent(s[1..], y);
      if s[0] != y {
        var w := Without(s, y);
        assert w[0] == s[0] && w[1..] == Without(s[1..], y);
        assert Without(w, y) == [s[0]] + Without(w[1..], y);
      } else {
        assert Without(s, y) == [] + Without(s[1..], y) == Without(s[1..], y);
      }
    }
  }

  /** The table list left by an emit that walks `pending` (the entries of the list taken
      at the start not yet visited) while the current list is `cur`: each visited entry
      that `drop` condemns is removed from the current list, every copy of it. */
  function Emitted<T(==,!new)>(cur: seq<T>, pending: seq<T>, drop: T -> bool): seq<T>
    decreases |pending|
  {
    if pending == [] then cur
    else Emitted(if drop(pending[0]) then Without(cur, pending[0]) else cur, pending[1..], drop)
  }

  function KeptAfter<T(==,!new)>(pending: seq<T>, drop: T -> bool): T -> bool
  {
    (x: T) => x !in pending || !drop(x)
  }

  function Not<T(!new)>(drop: T -> bool): T -> bool
  {
    (x: T) => !drop(x)
  }

  /** Walking `pending` removes from the current list exactly the condemned entries
      that occur in `pending`. */
  lemma {:induction false} EmittedFilters<T(!new)>(cur: seq<T>, pending: seq<T>, drop: T -> bool)
    ensures Emitted(cur, pending, drop) == Filter(cur, KeptAfter(pending, drop))
    decreases |pending|
  {
    if pending == [] {
      FilterCongruent(cur, (x: T) => true, KeptAfter(pending, drop));
      FilterAll(cur);
    } else {
      var r, rest := pending[0], pending[1..];
      assert pending == [r] + rest;
      if drop(r) {
        EmittedFilters(Without(cur, r), rest, drop);
        WithoutIsFilter(cur, r);
        FilterFilter(cur, NotEqual(r), KeptAfter(rest, drop), KeptAfter(pending, drop));
      } else {
        EmittedFilters(cur, rest, drop);
        FilterCongruent(cur, KeptAfter(rest, drop), KeptAfter(pending, drop));
      }
    }
  }

  lemma {:induction false} FilterAll<T(!new)>(s: seq<T>)
    ensures Filter(s, (x: T) => true) == s
    decreases |s|
  {
    if s != [] {
      FilterAll(s[1..]);
    }
  }

  /** An emit over the list it started from keeps exactly the entries not condemned,
      in their order: removals during the walk skip no later entry. */
  lemma EmitKeepsUncondemned<T(!new)>(l: seq<T>, drop: T -> bool)
    ensures Emitted(l, l, drop) == Filter(l, Not(drop))
  {
    EmittedFilters(l, l, drop);
    FilterCongruent(l, KeptAfter(l, drop), Not(drop));
  }

  // ---------------------------------------------------------------------
  // The weak-reference event bus

  /** A strong entry, or a weak one whose referent is still alive. */
  predicate Live(r: Ref, alive: Handler -> bool)
  {
    r.Strong? || alive(r.handler)
  }

  /** The entries an emit removes: dead weak references (not called) and observers that
      return something truthy. */
  predicate IsCondemned(r: Ref, alive: Handler -> bool, outcome: Handler -> HandlerResult)
  {
    !Live(r, alive) || outcome(r.handler) == Truthy
  }

  function Condemned(alive: Handler -> bool, outcome: Handler -> HandlerResult): Ref -> bool
  {
    (r: Ref) => IsCondemned(r, alive, outcome)
  }

  /** The observers an emit over `l` calls, in order: those of the live entries. */
  function Delivered(l: seq<Ref>, alive: Handler -> bool): (r: seq<Handler>)
    ensures |r| <= |l|
    decreases |l|
  {
    if l == [] then []
    else (if Live(l[0], alive) then [l[0].handler] else []) + Delivered(l[1..], alive)
  }

  /** Exactly the handlers of live entries are delivered to. */
  lemma {:induction false} DeliveredMembers(l: seq<Ref>, alive: Handler -> bool, h: Handler)
    ensures h in Delivered(l, alive) <==> exists i :: 0 <= i < |l| && Live(l[i], alive) && l[i].handler == h
    decreases |l|
  {
    if l != [] {
      DeliveredMembers(l[1..], alive, h);
      assert forall i :: 1 <= i < |l| ==> l[i] == l[1..][i - 1];
      if exists i :: 0 <= i < |l| && Live(l[i], alive) && l[i].handler == h {
        var i :| 0 <= i < |l| && Live(l[i], alive) && l[i].handler == h;
        if i > 0 {
          assert Live(l[1..][i - 1], alive) && l[1..][i - 1].handler == h;
        }
      }
    }
  }

  /** Every strong entry is delivered to, whatever the weak references do. */
  lemma StrongAlwaysDelivered(l: seq<Ref>, alive: Handler -> bool, h: Handler)
    requires Strong(h) in l
    ensures h in Delivered(l, alive)
  {
    var i :| 0 <= i < |l| && l[i] == Strong(h);
    DeliveredMembers(l, alive, h);
  }

  /** The call log of one emit: each delivered observer with the event. */
  function Calls(hs: seq<Handler>, e: Event): (r: seq<(Handler, Event)>)
    ensures |r| == |hs| && forall i :: 0 <= i < |hs| ==> r[i] == (hs[i], e)
  {
    if hs == [] then [] else [(hs[0], e)] + Calls(hs[1..], e)
  }

  lemma {:induction false} CallsAppend(a: seq<Handler>, b: seq<Handler>, e: Event)
    ensures Calls(a + b, e) == Calls(a, e) + Calls(b, e)
  {
    var l, r := Calls(a + b, e), Calls(a, e) + Calls(b, e);
    forall i | 0 <= i < |l| ensures l[i] == r[i] {
      if i < |a| {
        assert (a + b)[i] == a[i];
      } else {
        assert (a + b)[i] == b[i - |a|];
      }
    }
  }

  /** The `observers` table and the log of observer calls. */
  class Observers {
    var table: map<EventType, seq<Ref>>
    var calls: seq<(Handler, Event)>

    constructor ()
      ensures table == map[] && calls == []
    {
      table := map[];
      calls := [];
    }

    /** `observers[t]` of the defaultdict: an absent type reads as no observers. */
    function Get(t: EventType): (r: seq<Ref>)
      reads this
      ensures t !in table ==> r == []
    {
      if t in table then table[t] else []
    }

    /** `observe(t, h, weak)`: the entry goes last in that type's list; other types keep
        theirs. */
    method Observe(t: EventType, h: Handler, weak: bool)
      modifies this
      ensures Get(t) == old(Get(t)) + [if weak then Weak(h) else Strong(h)]
      ensures forall u :: u != t ==> Get(u) == old(Get(u))
      ensures calls == old(calls)
    {
      table := table[t := Get(t) + [if weak then Weak(h) else Strong(h)]];
    }

    /** `stop_observing(t, r)`: every entry equal to `r` leaves that type's list; the rest
        keep their order, and other types keep their lists. */
    method StopObserving(t: EventType, r: Ref)
      modifies this
      ensures Get(t) == Without(old(Get(t)), r)
      ensures forall u :: u != t ==> Get(u) == old(Get(u))
      ensures table == old(table)[t := Get(t)] && calls == old(calls)
    {
      table := table[t := Without(Get(t), r)];
    }

    /** One entry of the `emit` walk over the list `cur` and the call log `log`: a dead
        weak reference is removed uncalled; any other observer is called, and removed when
        it returns something truthy. */
    static method Visit(cur: seq<Ref>, log: seq<(Handler, Event)>, r: Ref, e: Event,
                        alive: Handler -> bool, outcome: Handler -> HandlerResult)
      returns (cur': seq<Ref>, log': seq<(Handler, Event)>)
      ensures cur' == (if IsCondemned(r, alive, outcome) then Without(cur, r) else cur)
      ensures log' == log + (if Live(r, alive) then [(r.handler, e)] else [])
    {
      cur', log' := cur, log;
      if r.Weak? && !alive(r.handler) {
        cur' := Without(cur, r);
      } else {
        log' := log + [(r.handler, e)];
        if outcome(r.handler) == Truthy {
          cur' := Without(cur, r);
        }
      }
    }

    /** `emit(e)`: walk the list of `type(e)` taken at the start. A weak entry whose
        referent is gone is removed and skipped; every other observer is called with the
        event, and removed when it returns something truthy. An observer that raises is
        caught and stays registered, and the walk goes on, so `emit` itself never raises. */
    method Emit(e: Event, alive: Handler -> bool, outcome: Handler -> HandlerResult)
      modifies this
      ensures calls == old(calls) + Calls(Delivered(old(Get(TypeOf(e))), alive), e)
      ensures Get(TypeOf(e)) == Filter(old(Get(TypeOf(e))), Not(Condemned(alive, outcome)))
      ensures forall u :: u != TypeOf(e) ==> Get(u) == old(Get(u))
    {
      var t := TypeOf(e);
      var l := Get(t);
      var cur := l;
      var log := calls;
      var tab := table;
      ghost var drop := Condemned(alive, outcome);
      var i := 0;
      while i < |l|
        invariant i <= |l|
        invariant Emitted(l, l, drop) == Emitted(cur, l[i..], drop)
        invariant log == old(calls) + Calls(Delivered(l[..i], alive), e)
        modifies {}
        decreases |l| - i
      {
        var r := l[i];
        ghost var before := cur;
        ghost var logBefore := log;
        cur, log := Visit(cur, log, r, e, alive, outcome);
        EmitStep(l, i, before, cur, drop, alive, e, old(calls), logBefore);
        i := i + 1;
      }
      assert l[..i] == l && l[i..] == [];
      EmitKeepsUncondemned(l, drop);
      table := tab[t := cur];
      calls := log;
    }
  }

  /** One step of the emit walk, on the two logs it keeps. */
  lemma EmitStep(l: seq<Ref>, i: nat, before: seq<Ref>, after: seq<Ref>, drop: Ref -> bool,
                 alive: Handler -> bool, e: Event, c0: seq<(Handler, Event)>, done: seq<(Handler, Event)>)
    requires i < |l|
    requires after == (if drop(l[i]) then Without(before, l[i]) else before)
    ensures Emitted(before, l[i..], drop) == Emitted(after, l[i + 1..], drop)
    ensures done == c0 + Calls(Delivered(l[..i], alive), e) ==>
      done + (if Live(l[i], alive) then [(l[i].handler, e)] else []) == c0 + Calls(Delivered(l[..i + 1], alive), e)
  {
    assert l[i..][0] == l[i] && l[i..][1..] == l[i + 1..];
    DeliveredSnoc(l, i, alive);
    CallsAppend(Delivered(l[..i], alive), if Live(l[i], alive) then [l[i].handler] else [], e);
  }

  lemma DeliveredSnoc(l: seq<Ref>, i: nat, alive: Handler -> bool)
    requires i < |l|
    ensures Delivered(l[..i + 1], alive) == Delivered(l[..i], alive) + (if Live(l[i], alive) then [l[i].handler] else [])
  {
    DeliveredAppend(l[..i], [l[i]], alive);
    assert l[..i + 1] == l[..i] + [l[i]];
  }

  lemma {:induction false} DeliveredAppend(a: seq<Ref>, b: seq<Ref>, alive: Handler -> bool)
    ensures Delivered(a + b, alive) == Delivered(a, alive) + Delivered(b, alive)
    decreases |a|
  {
    if a == [] {
      assert a + b == b;
    } else {
      var h := if Live(a[0], alive) then [a[0].handler] else [];
      assert (a + b)[0] == a[0] && (a + b)[1..] == a[1..] + b;
      assert Delivered(a + b, alive) == h + Delivered(a[1..] + b, alive);
      assert Delivered(a, alive) == h + Delivered(a[1..], alive);
      DeliveredAppend(a[1..], b, alive);
      assert h + (Delivered(a[1..], alive) + Delivered(b, alive)) == (h + Delivered(a[1..], alive)) + Delivered(b, alive);
    }
  }
}
