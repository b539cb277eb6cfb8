/**
  A Python `dict` with string keys, as the bot uses it: iteration follows insertion
  order, assigning to a key that is already present keeps its position and replaces its
  value, assigning to a new key appends it, and `del` takes a key out of the order.
  It is a key sequence plus a map whose domain is exactly the keys in the sequence.
 */
module OrderedMaps {

  datatype OrderedMap<V> = OrderedMap(keys: seq<string>, values: map<string, V>)

  ghost predicate Distinct(s: seq<string>)
  {
    forall i, j :: 0 <= i < j < |s| ==> s[i] != s[j]
  }

  ghost predicate Valid<V>(m: OrderedMap<V>)
  {
    && Distinct(m.keys)
    && (forall k :: k in m.values <==> k in m.keys)
  }

  /** `{}` */
  function Empty<V>(): (m: OrderedMap<V>)
    ensures Valid(m) && m.keys == [] && m.values == map[]
  {
    OrderedMap([], map[])
  }

  /** `len(d)` */
  function Size<V>(m: OrderedMap<V>): nat
  {
    |m.keys|
  }

  /** `d.get(k, default)` */
  function Get<V>(m: OrderedMap<V>, k: string, default: V): (v: V)
    ensures k in m.values ==> v == m.values[k]
    ensures k !in m.values ==> v == default
  {
    if k in m.values then m.values[k] else default
  }

  /** `d[k] = v`: the order grows only when `k` is new. */
  function Put<V>(m: OrderedMap<V>, k: string, v: V): (r: OrderedMap<V>)
    requires Valid(m)
    ensures Valid(r)
    ensures k in r.values && r.values[k] == v
    ensures k in m.values ==> r.keys == m.keys
    ensures k !in m.values ==> r.keys == m.keys + [k]
  {
    OrderedMap(if k in m.values then m.keys else m.keys + [k], m.values[k := v])
  }

  /** `del d[next(iter(d))]`: drops the earliest inserted key. */
  function RemoveFirst<V>(m: OrderedMap<V>): (r: OrderedMap<V>)
    requires Valid(m) && |m.keys| > 0
    ensures Valid(r)
    ensures r.keys == m.keys[1..]
    ensures m.keys[0] !in r.values
  {
    OrderedMap(m.keys[1..], m.values - {m.keys[0]})
  }

  /** Assigning one key leaves every other key's presence and value as they were. */
  lemma PutOthers<V>(m: OrderedMap<V>, k: string, v: V)
    requires Valid(m)
    ensures var r := Put(m, k, v);
      && (forall k' :: k' != k ==> (k' in r.values <==> k' in m.values))
      && (forall k' :: k' != k && k' in m.values ==> r.values[k'] == m.values[k'])
  {
  }

  /** Dropping the earliest key leaves every other key's presence and value as they were. */
  lemma RemoveFirstOthers<V>(m: OrderedMap<V>)
    requires Valid(m) && |m.keys| > 0
    ensures var r := RemoveFirst(m);
      && (forall k :: k != m.keys[0] ==> (k in r.values <==> k in m.values))
      && (forall k :: k in r.values ==> r.values[k] == m.values[k])
  {
  }
}
