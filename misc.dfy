/** The bi-directional dictionary that quant/util/misc.py, src/util/misc.py and
    src/util/bidict.py each define the same way: a forward dictionary and a reverse one,
    both written by every assignment and never cleaned up. */
module Misc {
  import opened Base

  /** Both dictionaries of a Bidict. */
  datatype Pairs<K, V> = Pairs(forward: map<K, V>, reverse: map<V, K>)
  {
    /** `b[k] = v`: k maps to v and v back to k; nothing else changes, so the reverse
        entry of a value k had before stays behind. */
    function Assign(k: K, v: V): (r: Pairs<K, V>)
      ensures r.forward.Keys == forward.Keys + {k} && r.reverse.Keys == reverse.Keys + {v}
      ensures forall j :: j in forward && j != k ==> r.forward[j] == forward[j]
      ensures forall w :: w in reverse && w != v ==> r.reverse[w] == reverse[w]
    {
      Pairs(forward[k := v], reverse[v := k])
    }

    /** `b[k]`: the forward value; KeyError for a key never assigned. */
    function Lookup(k: K): (r: Result<V>)
      ensures r.Ok? <==> k in forward
      ensures r.Ok? ==> r.value == forward[k]
      ensures r.Err? ==> r.error == KeyError
    {
      if k in forward then Ok(forward[k]) else Err(KeyError)
    }

    /** `k in b`: the forward keys alone. */
    predicate Has(k: K)
    {
      k in forward
    }
  }

  /** After `b[k] = v`, `b[k]` is v, `k in b` holds, and the reverse maps v to k. */
  lemma AssignThenLookup<K, V>(p: Pairs<K, V>, k: K, v: V)
    ensures p.Assign(k, v).Lookup(k) == Ok(v)
    ensures p.Assign(k, v).Has(k)
    ensures p.Assign(k, v).reverse[v] == k
  {
  }

  /** An assignment leaves the lookup of every other key as it was. */
  lemma AssignKeepsOthers<K, V>(p: Pairs<K, V>, k: K, v: V, j: K)
    requires j != k
    ensures p.Assign(k, v).Lookup(j) == p.Lookup(j)
    ensures p.Assign(k, v).Has(j) == p.Has(j)
  {
  }

  /** Overwriting k's value u with a different v keeps the reverse entry u -> k, which no
      longer agrees with the forward dictionary. */
  lemma OverwriteLeavesStaleReverse<K, V>(p: Pairs<K, V>, k: K, u: V, v: V)
    requires u != v
    ensures var q := p.Assign(k, u).Assign(k, v);
      && q.reverse[u] == k && q.reverse[v] == k && q.Lookup(k) == Ok(v)
  {
  }

  /** Membership ignores the reverse dictionary: a value that is only a reverse key is
      not in the Bidict, and its lookup raises KeyError. */
  lemma HasIgnoresReverse(k: int, v: int)
    requires k != v
    ensures var q := Pairs(map[], map[]).Assign(k, v);
      v in q.reverse && !q.Has(v) && q.Lookup(v) == Err(KeyError)
  {
  }

  /** `Bidict()`: the two dictionaries, assigned in place. */
  class Bidict<K(==), V(==)> {
    var forward: map<K, V>
    var reverse: map<V, K>

    function State(): Pairs<K, V>
      reads this
    {
      Pairs(forward, reverse)
    }

    /** `Bidict()`: both dictionaries empty. */
    constructor ()
      ensures State() == Pairs(map[], map[])
    {
      forward := map[];
      reverse := map[];
    }

    /** `__setitem__(key, value)`: the forward entry, then the reverse one. */
    method Set(k: K, v: V)
      modifies this
      ensures State() == old(State()).Assign(k, v)
    {
      forward := forward[k := v];
      reverse := reverse[v := k];
    }

    /** `__getitem__(item)`: the forward value, KeyError when absent. */
    function Get(k: K): (r: Result<V>)
      reads this
      ensures r.Ok? <==> k in forward
      ensures r.Ok? ==> r.value == forward[k]
      ensures r.Err? ==> r.error == KeyError
    {
      State().Lookup(k)
    }

    /** `__contains__(item)`: whether item is a forward key. */
    predicate Contains(k: K)
      reads this
      ensures Contains(k) <==> k in forward
    {
      State().Has(k)
    }
  }
}
