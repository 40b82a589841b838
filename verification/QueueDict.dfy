/** An insertion-ordered default dictionary of queues. */
module QueueDict {
  import opened Prelude

  datatype Dict<K, V> = Dict(keys: seq<K>, queues: map<K, seq<V>>)

  ghost function Get<K, V>(d: Dict<K, V>, k: K): seq<V> {
    if k in d.queues then d.queues[k] else []
  }

  /** Assigning a missing key appends it to the order; assigning a present one keeps its place. */
  ghost function Put<K, V>(d: Dict<K, V>, k: K, q: seq<V>): Dict<K, V> {
    Dict(if k in d.queues then d.keys else d.keys + [k], d.queues[k := q])
  }

  /** The lengths of the queues of some keys, added up. */
  ghost function Lengths<K, V>(keys: seq<K>, queues: map<K, seq<V>>): nat {
    if keys == [] then 0
    else
      var last := keys[|keys| - 1];
      Lengths(keys[..|keys| - 1], queues) + if last in queues then |queues[last]| else 0
  }

  ghost function Total<K, V>(d: Dict<K, V>): nat {
    Lengths(d.keys, d.queues)
  }

  ghost predicate Valid<K, V>(d: Dict<K, V>) {
    NoRepeats(d.keys) && (forall k | k in d.keys :: k in d.queues) && (forall k | k in d.queues :: k in d.keys)
  }

  lemma {:induction false} LengthsPut<K, V>(keys: seq<K>, queues: map<K, seq<V>>, k: K, q: seq<V>)
    requires NoRepeats(keys)
    ensures k !in keys ==> Lengths(keys, queues[k := q]) == Lengths(keys, queues)
    ensures k in keys && k in queues ==> Lengths(keys, queues[k := q]) == Lengths(keys, queues) - |queues[k]| + |q|
  {
    if keys == [] {
    } else {
      LengthsPut(keys[..|keys| - 1], queues, k, q);
    }
  }

  lemma {:induction false} LengthsBound<K, V>(keys: seq<K>, queues: map<K, seq<V>>, c: nat)
    requires forall k | k in queues :: |queues[k]| <= c
    ensures Lengths(keys, queues) <= c * |keys|
  {
    if keys == [] {
    } else {
      LengthsBound(keys[..|keys| - 1], queues, c);
      assert c * |keys| == c * (|keys| - 1) + c;
    }
  }

  lemma GetPut<K, V>(d: Dict<K, V>, k: K, q: seq<V>, j: K)
    ensures Get(Put(d, k, q), j) == if j == k then q else Get(d, j)
  {
  }

  lemma TotalPut<K, V>(d: Dict<K, V>, k: K, q: seq<V>)
    requires Valid(d)
    ensures Valid(Put(d, k, q)) && k in Put(d, k, q).queues
    ensures Total(Put(d, k, q)) == Total(d) - |Get(d, k)| + |q|
  {
    LengthsPut(d.keys, d.queues, k, q);
    if k !in d.queues {
      assert Put(d, k, q).keys[..|d.keys|] == d.keys;
    }
  }

  lemma PutTwice<K, V>(d: Dict<K, V>, k: K, p: seq<V>, q: seq<V>)
    ensures Put(Put(d, k, p), k, q) == Put(d, k, q)
  {
  }

  /** Storing a queue back unchanged changes nothing when the key is present. */
  lemma PutSame<K, V>(d: Dict<K, V>, k: K)
    requires k in d.queues
    ensures Put(d, k, Get(d, k)) == d
  {
    assert d.queues[k := d.queues[k]] == d.queues;
  }
}
