/**
  The bot's record of the text it last wrote into each of its replies
  (`assistant_replies`, chatgpt/bot.py:24-25 and 341-345): every edit stores its text under
  the edited event's id, and once the record holds more than `max_messages` entries the
  earliest inserted one is dropped.
 */
module ReplyCache {
  import opened OrderedMaps
  import opened SeqFacts

  /** One `_edit` call: the reply event it edits and the new text. */
  datatype SentEdit = SentEdit(eventId: string, text: string)

  /** The bookkeeping of one `_edit`. */
  function CachePut(m: OrderedMap<string>, id: string, text: string, max: nat): (r: OrderedMap<string>)
    requires Valid(m)
    ensures Valid(r)
    ensures |r.keys| <= |m.keys| + 1
  {
    var put := Put(m, id, text);
    if |put.keys| > max then RemoveFirst(put) else put
  }

  /** The record after a series of edits, in order. */
  function ApplyEdits(m: OrderedMap<string>, edits: seq<SentEdit>, max: nat): (r: OrderedMap<string>)
    requires Valid(m)
    ensures Valid(r)
  {
    if edits == [] then m
    else
      var e := edits[|edits| - 1];
      CachePut(ApplyEdits(m, edits[..|edits| - 1], max), e.eventId, e.text, max)
  }

  /** The edits of one request: all of them target the same reply event. */
  function Stamp(id: string, texts: seq<string>): (r: seq<SentEdit>)
    ensures |r| == |texts|
  {
    if texts == [] then [] else Stamp(id, texts[..|texts| - 1]) + [SentEdit(id, texts[|texts| - 1])]
  }

  lemma {:induction false} StampAppend(id: string, a: seq<string>, b: seq<string>)
    ensures Stamp(id, a + b) == Stamp(id, a) + Stamp(id, b)
    decreases |b|
  {
    if b == [] {
      assert a + b == a;
    } else {
      var init := b[..|b| - 1];
      assert (a + b)[..|a + b| - 1] == a + init;
      StampAppend(id, a, init);
    }
  }

  /** Every edit of a request carries that request's reply event and the text of that edit. */
  lemma {:induction false} StampAt(id: string, texts: seq<string>)
    ensures forall i :: 0 <= i < |texts| ==> Stamp(id, texts)[i] == SentEdit(id, texts[i])
  {
    if texts != [] {
      StampAt(id, texts[..|texts| - 1]);
    }
  }

  /** One edit of a request is one `CachePut`. */
  lemma ApplyOneEdit(m: OrderedMap<string>, id: string, text: string, max: nat)
    requires Valid(m)
    ensures Stamp(id, [text]) == [SentEdit(id, text)]
    ensures ApplyEdits(m, Stamp(id, [text]), max) == CachePut(m, id, text, max)
  {
    assert Stamp(id, [text])[..0] == [];
  }

  /** A further edit of a request is one more `CachePut`. */
  lemma ApplyOneMore(m: OrderedMap<string>, id: string, texts: seq<string>, text: string, max: nat)
    requires Valid(m)
    ensures Stamp(id, texts + [text]) == Stamp(id, texts) + [SentEdit(id, text)]
    ensures ApplyEdits(m, Stamp(id, texts + [text]), max)
         == CachePut(ApplyEdits(m, Stamp(id, texts), max), id, text, max)
  {
    var s := Stamp(id, texts + [text]);
    assert s[..|s| - 1] == Stamp(id, texts);
  }

  /** The edit log after one more edit of a request. */
  lemma LogOneMore(log: seq<SentEdit>, id: string, texts: seq<string>, text: string)
    ensures log + Stamp(id, texts) + [SentEdit(id, text)] == log + Stamp(id, texts + [text])
  {
    ApplyOneMoreStamp(id, texts, text);
  }

  /** The edit log after two runs of edits of one request. */
  lemma LogAppend(log: seq<SentEdit>, id: string, a: seq<string>, b: seq<string>)
    ensures log + Stamp(id, a) + Stamp(id, b) == log + Stamp(id, a + b)
  {
    StampAppend(id, a, b);
  }

  lemma ApplyOneMoreStamp(id: string, texts: seq<string>, text: string)
    ensures Stamp(id, texts + [text]) == Stamp(id, texts) + [SentEdit(id, text)]
  {
  }

  lemma {:induction false} ApplyEditsAppend(m: OrderedMap<string>, a: seq<SentEdit>, b: seq<SentEdit>, max: nat)
    requires Valid(m)
    ensures ApplyEdits(m, a + b, max) == ApplyEdits(ApplyEdits(m, a, max), b, max)
    decreases |b|
  {
    if b == [] {
      assert a + b == a;
    } else {
      assert (a + b)[..|a + b| - 1] == a + b[..|b| - 1];
      ApplyEditsAppend(m, a, b[..|b| - 1], max);
    }
  }

  /** With room for at least one entry and the bound already kept, an edit stores its text
      and the bound still holds. */
  lemma CacheStores(m: OrderedMap<string>, id: string, text: string, max: nat)
    requires Valid(m) && 1 <= max && |m.keys| <= max
    ensures var r := CachePut(m, id, text, max);
            id in r.values && r.values[id] == text && |r.keys| <= max
  {
    var put := Put(m, id, text);
    if |put.keys| > max {
      assert put.keys == m.keys + [id];
      assert put.keys[0] != id by {
        assert put.keys[0] == m.keys[0] && m.keys[0] in m.values;
      }
    }
  }

  /** An edit leaves the text of every other reply on record as it was; it may only drop
      the earliest entry, and on a record with room it drops nothing. */
  lemma CacheKeepsOthers(m: OrderedMap<string>, id: string, text: string, max: nat)
    requires Valid(m)
    ensures var r := CachePut(m, id, text, max);
            forall k :: k in r.values && k != id ==> k in m.values && r.values[k] == m.values[k]
    ensures var r := CachePut(m, id, text, max);
            forall k :: k in m.values && k != m.keys[0] ==> k in r.values
    ensures var r := CachePut(m, id, text, max);
            |m.keys| < max ==> forall k :: k in m.values ==> k in r.values
  {
  }

  /** Editing a reply already on record keeps the order and evicts nothing. */
  lemma CacheOverwrite(m: OrderedMap<string>, id: string, text: string, max: nat)
    requires Valid(m) && id in m.values && |m.keys| <= max
    ensures CachePut(m, id, text, max).keys == m.keys
    ensures forall k :: k in m.values <==> k in CachePut(m, id, text, max).values
  {
  }

  /** A new reply on a full record pushes out exactly the earliest one. */
  lemma CacheEvictsOldest(m: OrderedMap<string>, id: string, text: string, max: nat)
    requires Valid(m) && id !in m.values && |m.keys| == max && max >= 1
    ensures var r := CachePut(m, id, text, max);
            r.keys == m.keys[1..] + [id] && m.keys[0] !in r.values && r.values[id] == text
  {
    var put := Put(m, id, text);
    assert put.keys == m.keys + [id];
    assert put.keys[1..] == m.keys[1..] + [id];
    assert m.keys[0] != id by {
      assert m.keys[0] in m.values;
    }
  }

  /** Any series of edits keeps the record within `max` entries. */
  lemma {:induction false} ApplyEditsBound(m: OrderedMap<string>, edits: seq<SentEdit>, max: nat)
    requires Valid(m) && 1 <= max && |m.keys| <= max
    ensures |ApplyEdits(m, edits, max).keys| <= max
  {
    if edits != [] {
      var e := edits[|edits| - 1];
      ApplyEditsBound(m, edits[..|edits| - 1], max);
      CacheStores(ApplyEdits(m, edits[..|edits| - 1], max), e.eventId, e.text, max);
    }
  }

  /** After a request's edits, its reply maps to the last text written into it. */
  lemma ApplyEditsLast(m: OrderedMap<string>, id: string, texts: seq<string>, max: nat)
    requires Valid(m) && 1 <= max && |m.keys| <= max && texts != []
    ensures var r := ApplyEdits(m, Stamp(id, texts), max);
            id in r.values && r.values[id] == texts[|texts| - 1]
  {
    var es := Stamp(id, texts);
    ApplyEditsBound(m, es[..|es| - 1], max);
    CacheStores(ApplyEdits(m, es[..|es| - 1], max), id, texts[|texts| - 1], max);
  }

  /** The reply events of a series of edits, in order. */
  function Ids(edits: seq<SentEdit>): (r: seq<string>)
    ensures |r| == |edits|
  {
    if edits == [] then [] else Ids(edits[..|edits| - 1]) + [edits[|edits| - 1].eventId]
  }

  lemma {:induction false} IdAt(edits: seq<SentEdit>, i: nat)
    requires i < |edits|
    ensures Ids(edits)[i] == edits[i].eventId
  {
    if i < |edits| - 1 {
      IdAt(edits[..|edits| - 1], i);
    }
  }

  function Min(a: nat, b: nat): nat
  {
    if a <= b then a else b
  }

  /** One edit of a reply not on record, when the record is the window `ids[lo..hi]` of
      distinct ids and `ids[hi]` is new: the window grows to `hi + 1`, losing its first id
      when it would exceed `max`. */
  lemma WindowStep(prev: OrderedMap<string>, ids: seq<string>, lo: nat, hi: nat, text: string, max: nat)
    requires Valid(prev) && 1 <= max
    requires lo <= hi < |ids| && hi - lo <= max
    requires prev.keys == ids[lo..hi]
    requires Distinct(ids)
    ensures CachePut(prev, ids[hi], text, max).keys == ids[(if hi + 1 - lo > max then lo + 1 else lo)..hi + 1]
  {
    assert ids[hi] !in prev.values;
    var put := Put(prev, ids[hi], text);
    assert put.keys == ids[lo..hi + 1];
  }

  lemma ApplyEditsSnoc(m: OrderedMap<string>, edits: seq<SentEdit>, max: nat)
    requires Valid(m) && edits != []
    ensures ApplyEdits(m, edits, max)
         == CachePut(ApplyEdits(m, edits[..|edits| - 1], max), edits[|edits| - 1].eventId, edits[|edits| - 1].text, max)
  {
  }

  lemma NoEdits(m: OrderedMap<string>, edits: seq<SentEdit>, max: nat)
    requires Valid(m)
    ensures ApplyEdits(m, edits[..0], max) == m
  {
    assert edits[..0] == [];
  }

  /** The record after the first `n` edits is the record after `n - 1` edits with the
      `n`-th applied. */
  lemma ApplyEditsPrefix(m: OrderedMap<string>, edits: seq<SentEdit>, n: nat, max: nat)
    requires Valid(m) && 0 < n <= |edits|
    ensures ApplyEdits(m, edits[..n], max)
         == CachePut(ApplyEdits(m, edits[..n - 1], max), edits[n - 1].eventId, edits[n - 1].text, max)
  {
    PrefixOfPrefix(edits, n, n - 1);
    ApplyEditsSnoc(m, edits[..n], max);
  }

  /** The `n`-th edit of a run of distinct replies, once the earlier ones are known to
      leave the window `ids[lo..n - 1]`. */
  lemma FifoWindowStep(edits: seq<SentEdit>, max: nat, n: nat, lo: nat)
    requires 1 <= max && 0 < n <= |edits|
    requires Distinct(Ids(edits))
    requires lo == n - 1 - Min(n - 1, max)
    requires ApplyEdits(Empty(), edits[..n - 1], max).keys == Ids(edits)[lo..n - 1]
    ensures ApplyEdits(Empty(), edits[..n], max).keys == Ids(edits)[n - Min(n, max)..n]
  {
    var e := edits[n - 1];
    var ids := Ids(edits);
    var prev := ApplyEdits(Empty(), edits[..n - 1], max);
    var start := if n - lo > max then lo + 1 else lo;
    assert ids[n - 1] == e.eventId by {
      IdAt(edits, n - 1);
    }
    assert CachePut(prev, ids[n - 1], e.text, max).keys == ids[start..n] by {
      WindowStep(prev, ids, lo, n - 1, e.text, max);
    }
    ApplyEditsPrefix(Empty(), edits, n, max);
    assert start == n - Min(n, max);
  }

  /** The record after the first `n` edits of a run of distinct replies. */
  lemma {:induction false} FifoWindowUpTo(edits: seq<SentEdit>, max: nat, n: nat)
    requires 1 <= max && n <= |edits|
    requires Distinct(Ids(edits))
    ensures ApplyEdits(Empty(), edits[..n], max).keys == Ids(edits)[n - Min(n, max)..n]
  {
    if n == 0 {
      NoEdits(Empty(), edits, max);
    } else {
      FifoWindowUpTo(edits, max, n - 1);
      FifoWindowStep(edits, max, n, n - 1 - Min(n - 1, max));
    }
  }

  /** Edits of distinct replies, starting from an empty record: the record holds the most
      recent `max` of them (or all, if fewer), oldest first. */
  lemma FifoWindow(edits: seq<SentEdit>, max: nat)
    requires 1 <= max
    requires Distinct(Ids(edits))
    ensures ApplyEdits(Empty(), edits, max).keys == Ids(edits)[|edits| - Min(|edits|, max)..]
  {
    FifoWindowUpTo(edits, max, |edits|);
    WholePrefix(edits);
    SliceToEnd(Ids(edits), |edits| - Min(|edits|, max));
  }

}
