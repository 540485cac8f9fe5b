/** `threadsafe_lookup_table`: a fixed array of buckets, each a list of key and value pairs.

    These are the operations as one thread performs them; `LockedTable` has the mutexes under which several
    threads do.  The hash function is a parameter.
*/
module LookupTable {

  type Key(==, !new)
  type Value(==, !new)

  class Bucket {
    var data: seq<(Key, Value)>

    constructor ()
      ensures data == []
    {
      data := [];
    }

    /** `find_entry_for`: the first entry with the key, or the end. */
    method FindEntryFor(key: Key) returns (i: nat)
      ensures i <= |data| && (i < |data| ==> data[i].0 == key)
      ensures forall j :: 0 <= j < i ==> data[j].0 != key
    {
      i := 0;
      while i < |data| && data[i].0 != key
        invariant i <= |data| && forall j :: 0 <= j < i ==> data[j].0 != key
      {
        i := i + 1;
      }
    }

    /** A read holds the lock shared and changes nothing. */
    method ValueFor(key: Key, default_: Value) returns (v: Value)
      requires Distinct(data)
      ensures v == Lookup(data, key, default_)
    {
      var i := FindEntryFor(key);
      LookupAt(data, key, default_, i);
      v := if i == |data| then default_ else data[i].1;
    }

    method AddOrUpdateMapping(key: Key, value: Value)
      requires Distinct(data)
      modifies this
      ensures Distinct(data) && MapOf(data) == old(MapOf(data))[key := value]
      ensures forall j :: 0 <= j < |data| ==> data[j].0 == key || data[j] in old(data)
    {
      var i := FindEntryFor(key);
      if i == |data| {
        AppendMap(data, key, value);
        data := data + [(key, value)];
      } else {
        UpdateMap(data, i, value);
        data := data[i := (key, value)];
      }
    }

    method RemoveMapping(key: Key)
      requires Distinct(data)
      modifies this
      ensures Distinct(data) && MapOf(data) == old(MapOf(data)) - {key}
      ensures forall j :: 0 <= j < |data| ==> data[j] in old(data)
    {
      var i := FindEntryFor(key);
      if i != |data| {
        EraseMap(data, i);
        data := data[..i] + data[i + 1..];
      } else {
        AbsentKey(data, key);
      }
    }
  }

  // ---------------------------------------------------------------- lists of pairs as maps

  predicate Distinct(data: seq<(Key, Value)>) {
    forall i, j :: 0 <= i < j < |data| ==> data[i].0 != data[j].0
  }

  /** The mapping a list stands for; of two entries with one key the first would count. */
  function MapOf(data: seq<(Key, Value)>): map<Key, Value> {
    if data == [] then map[]
    else
      var m := MapOf(data[..|data| - 1]);
      var (k, v) := data[|data| - 1];
      if k in m then m else m[k := v]
  }

  function Lookup(data: seq<(Key, Value)>, key: Key, default_: Value): Value {
    if key in MapOf(data) then MapOf(data)[key] else default_
  }

  lemma {:induction false} EntryAt(data: seq<(Key, Value)>, i: nat)
    requires i < |data|
    ensures data[i].0 in MapOf(data) && (Distinct(data) ==> MapOf(data)[data[i].0] == data[i].1)
  {
    var n := |data| - 1;
    if i < n {
      EntryAt(data[..n], i);
    } else {
      AbsentKey(data[..n], data[n].0);
    }
  }

  lemma {:induction false} AbsentKey(data: seq<(Key, Value)>, key: Key)
    ensures key in MapOf(data) <==> exists j :: 0 <= j < |data| && data[j].0 == key
  {
    if data != [] {
      AbsentKey(data[..|data| - 1], key);
    }
  }

  lemma LookupAt(data: seq<(Key, Value)>, key: Key, default_: Value, i: nat)
    requires Distinct(data) && i <= |data| && (i < |data| ==> data[i].0 == key) && forall j :: 0 <= j < i ==>
               data[j].0 != key
    ensures Lookup(data, key, default_) == if i == |data| then default_ else data[i].1
  {
    AbsentKey(data, key);
    if i < |data| {
      EntryAt(data, i);
    }
  }

  lemma AppendMap(data: seq<(Key, Value)>, key: Key, value: Value)
    requires Distinct(data) && forall j :: 0 <= j < |data| ==> data[j].0 != key
    ensures Distinct(data + [(key, value)]) && MapOf(data + [(key, value)]) == MapOf(data)[key := value]
  {
    AbsentKey(data, key);
    assert (data + [(key, value)])[..|data|] == data;
  }

  lemma {:induction false} UpdateMap(data: seq<(Key, Value)>, i: nat, value: Value)
    requires Distinct(data) && i < |data|
    ensures MapOf(data[i := (data[i].0, value)]) == MapOf(data)[data[i].0 := value]
  {
    var n := |data| - 1;
    var d := data[i := (data[i].0, value)];
    AbsentKey(data[..n], data[n].0);
    if i < n {
      assert d[..n] == data[..n][i := (data[i].0, value)];
      UpdateMap(data[..n], i, value);
    } else {
      assert d[..n] == data[..n];
    }
  }

  lemma {:induction false} EraseMap(data: seq<(Key, Value)>, i: nat)
    requires Distinct(data) && i < |data|
    ensures MapOf(data[..i] + data[i + 1..]) == MapOf(data) - {data[i].0}
  {
    var n := |data| - 1;
    var d := data[..i] + data[i + 1..];
    AbsentKey(data[..n], data[n].0);
    if i < n {
      assert d[..n - 1] == data[..n][..i] + data[..n][i + 1..];
      EraseMap(data[..n], i);
      assert d[n - 1] == data[n];
    } else {
      assert d == data[..n];
    }
  }

  // ---------------------------------------------------------------- the table

  class Table {
    const buckets: seq<Bucket>
    const hasher: Key -> nat
    ghost var contents: map<Key, Value>

    /** Keys are unique and sit in the bucket of their hash, and together the buckets are `contents`. */
    ghost predicate Valid()
      reads this, buckets
    {
      && buckets != []
      && (forall i, j :: 0 <= i < j < |buckets| ==> buckets[i] != buckets[j])
      && (forall i :: 0 <= i < |buckets| ==> Distinct(buckets[i].data))
      && (forall i, k :: 0 <= i < |buckets| && k in MapOf(buckets[i].data) ==> hasher(k) % |buckets| == i)
      && (forall k :: k in contents <==> k in MapOf(buckets[hasher(k) % |buckets|].data))
      && (forall k :: k in contents ==> contents[k] == MapOf(buckets[hasher(k) % |buckets|].data)[k])
    }

    constructor (numBuckets: nat, hasher: Key -> nat)
      requires 0 < numBuckets
      ensures Valid() && contents == map[] && |buckets| == numBuckets && this.hasher == hasher
      ensures fresh(buckets)
    {
      var bs: seq<Bucket> := [];
      while |bs| < numBuckets
        invariant |bs| <= numBuckets && (forall b :: b in bs ==> fresh(b) && b.data == [])
        invariant forall i, j :: 0 <= i < j < |bs| ==> bs[i] != bs[j]
        decreases numBuckets - |bs|
      {
        var b := new Bucket();
        bs := bs + [b];
      }
      buckets, this.hasher, contents := bs, hasher, map[];
    }

    /** `get_bucket` */
    function BucketOf(key: Key): Bucket
      requires buckets != []
    {
      buckets[hasher(key) % |buckets|]
    }

    method ValueFor(key: Key, default_: Value) returns (v: Value)
      requires Valid()
      ensures v == if key in contents then contents[key] else default_
    {
      v := BucketOf(key).ValueFor(key, default_);
    }

    method AddOrUpdateMapping(key: Key, value: Value)
      requires Valid()
      modifies this, BucketOf(key)
      ensures Valid() && contents == old(contents)[key := value]
    {
      BucketOf(key).AddOrUpdateMapping(key, value);
      assert forall i :: 0 <= i < |buckets| && buckets[i] != BucketOf(key) ==> buckets[i].data == old(buckets[i].data);
      contents := contents[key := value];
    }

    method RemoveMapping(key: Key)
      requires Valid()
      modifies this, BucketOf(key)
      ensures Valid() && contents == old(contents) - {key}
    {
      BucketOf(key).RemoveMapping(key);
      assert forall i :: 0 <= i < |buckets| && buckets[i] != BucketOf(key) ==> buckets[i].data == old(buckets[i].data);
      contents := contents - {key};
    }

    /** The inner loop of `get_map`: an insertion does not replace an entry that is there. */
    method CopyBucket(data: seq<(Key, Value)>, before: map<Key, Value>) returns (res: map<Key, Value>)
      ensures res == MapOf(data) + before
    {
      res := before;
      var j := 0;
      while j < |data|
        invariant 0 <= j <= |data| && res == MapOf(data[..j]) + before
      {
        var (k, v) := data[j];
        assert data[..j + 1][..j] == data[..j];
        if k !in res {
          res := res[k := v];
        }
        j := j + 1;
      }
      assert data[..j] == data;
    }

    /** `get_map`: all entries of all buckets, inserted one by one. */
    method GetMap() returns (res: map<Key, Value>)
      requires Valid()
      ensures res == contents
    {
      res := map[];
      var i := 0;
      while i < |buckets|
        invariant 0 <= i <= |buckets|
        invariant forall k :: k in res <==> k in contents && hasher(k) % |buckets| < i
        invariant forall k :: k in res ==> res[k] == contents[k]
      {
        res := CopyBucket(buckets[i].data, res);
        i := i + 1;
      }
    }
  }
}
