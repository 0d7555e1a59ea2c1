/**
 * How the overlay buckets one batch of events before drawing it: by the
 * pair (category, monster name), in a dictionary whose keys keep the order
 * in which they first appear in the batch.
 */
module Grouping {
  import opened Events

  datatype Key = Key(category: string, monsterName: string)

  function KeyOf(e: Event): Key {
    Key(e.category, e.monsterName)
  }

  /** The keys of `events` in order of first appearance. */
  function GroupKeys(events: seq<Event>): (keys: seq<Key>)
    ensures forall k | k in keys :: exists e | e in events :: KeyOf(e) == k
  {
    if events == [] then []
    else
      var prior := GroupKeys(events[..|events| - 1]);
      var k := KeyOf(events[|events| - 1]);
      if k in prior then prior else prior + [k]
  }

  /** The events of `events` that carry key `k`, in batch order. */
  function Bucket(events: seq<Event>, k: Key): seq<Event> {
    if events == [] then []
    else
      var last := events[|events| - 1];
      Bucket(events[..|events| - 1], k) + (if KeyOf(last) == k then [last] else [])
  }

  ghost predicate Distinct(keys: seq<Key>) {
    forall i, j :: 0 <= i < j < |keys| ==> keys[i] != keys[j]
  }

  /** A bucket holds exactly the events of the batch with its key. */
  lemma {:induction false} BucketMembers(events: seq<Event>, k: Key)
    ensures forall e :: e in Bucket(events, k) <==> e in events && KeyOf(e) == k
  {
    if events != [] {
      var prefix := events[..|events| - 1];
      BucketMembers(prefix, k);
      assert events == prefix + [events[|events| - 1]];
    }
  }

  /**
   * Each key is listed once, and a key is listed exactly when its bucket is
   * not empty.
   */
  lemma {:induction false} GroupKeysSound(events: seq<Event>)
    ensures Distinct(GroupKeys(events))
    ensures forall k :: k in GroupKeys(events) <==> Bucket(events, k) != []
  {
    if events != [] {
      var prefix := events[..|events| - 1];
      GroupKeysSound(prefix);
      forall k
        ensures k in GroupKeys(events) <==> Bucket(events, k) != []
      {
        BucketMembers(prefix, k);
      }
    }
  }

  /** Every event's key is listed. */
  lemma EveryEventHasItsGroup(events: seq<Event>, e: Event)
    requires e in events
    ensures KeyOf(e) in GroupKeys(events)
  {
    BucketMembers(events, KeyOf(e));
    GroupKeysSound(events);
  }

  /** The events the buckets of `keys` hold, taken together. */
  ghost function Gathered(events: seq<Event>, keys: seq<Key>): multiset<Event> {
    if keys == [] then multiset{}
    else Gathered(events, keys[..|keys| - 1]) + multiset(Bucket(events, keys[|keys| - 1]))
  }

  /** One more event changes no bucket of another key. */
  lemma {:induction false} GatheredOtherKeys(events: seq<Event>, e: Event, keys: seq<Key>)
    requires KeyOf(e) !in keys
    ensures Gathered(events + [e], keys) == Gathered(events, keys)
  {
    if keys != [] {
      var n := |keys| - 1;
      GatheredOtherKeys(events, e, keys[..n]);
      assert (events + [e])[..|events|] == events;
    }
  }

  /** One more event joins the one bucket of its key. */
  lemma {:induction false} GatheredOwnKey(events: seq<Event>, e: Event, keys: seq<Key>)
    requires Distinct(keys) && KeyOf(e) in keys
    ensures Gathered(events + [e], keys) == Gathered(events, keys) + multiset{e}
  {
    var n := |keys| - 1;
    assert (events + [e])[..|events|] == events;
    if keys[n] == KeyOf(e) {
      assert KeyOf(e) !in keys[..n];
      GatheredOtherKeys(events, e, keys[..n]);
    } else {
      GatheredOwnKey(events, e, keys[..n]);
    }
  }

  /** The buckets partition the batch: no event is lost, none is counted twice. */
  lemma {:induction false} BucketsPartition(events: seq<Event>)
    ensures Gathered(events, GroupKeys(events)) == multiset(events)
  {
    if events != [] {
      var prefix := events[..|events| - 1];
      var e := events[|events| - 1];
      assert events == prefix + [e];
      BucketsPartition(prefix);
      GroupKeysSound(prefix);
      var keys := GroupKeys(prefix);
      if KeyOf(e) in keys {
        GatheredOwnKey(prefix, e, keys);
      } else {
        GatheredOtherKeys(prefix, e, keys);
        assert Bucket(prefix, KeyOf(e)) == [];
        assert (keys + [KeyOf(e)])[..|keys|] == keys;
        assert Bucket(events, KeyOf(e)) == [e];
      }
    }
  }

  /**
   * The bucketing loop of `show_damage`: the dictionary's keys in insertion
   * order and the list each key maps to.
   */
  method Categorize(events: seq<Event>) returns (keys: seq<Key>, buckets: map<Key, seq<Event>>)
    ensures keys == GroupKeys(events)
    ensures forall k :: k in buckets <==> k in keys
    ensures forall k | k in buckets :: buckets[k] == Bucket(events, k)
  {
    keys := [];
    buckets := map[];
    for i := 0 to |events|
      invariant keys == GroupKeys(events[..i])
      invariant forall k :: k in buckets <==> k in keys
      invariant forall k | k in buckets :: buckets[k] == Bucket(events[..i], k)
    {
      var e := events[i];
      var k := KeyOf(e);
      assert events[..i + 1][..i] == events[..i];
      if k !in buckets {
        GroupKeysSound(events[..i]);
        keys := keys + [k];
        buckets := buckets[k := []];
      }
      buckets := buckets[k := buckets[k] + [e]];
    }
    assert events[..|events|] == events;
  }
}
