/**
 * The key-value substrate the keeper writes through (the store service's
 * `KVStore`): `Has`, `Get`, `Set`, `Delete` and an ascending iterator.
 * Failures of the substrate are injected per operation and key.
 */
module KVStore {
  import opened Wrappers
  import opened Bytes
  import opened Errors
  import opened Codec

  /** The operations that fail: each listed (operation, key) pair, and opening an iterator (`scan`). */
  datatype Faults = Faults(ops: set<(StoreOp, Bytes)>, scan: bool)

  const NoFaults: Faults := Faults({}, false)

  predicate Fails(f: Faults, op: StoreOp, key: Bytes)
  {
    (op, key) in f.ops
  }

  /** What `Get` returns without a fault: the value, or nil (empty bytes) for an absent key. */
  function Lookup(data: map<Bytes, Blob>, key: Bytes): (v: Blob)
    ensures key in data ==> v == data[key]
    ensures key !in data ==> IsEmpty(v)
  {
    if key in data then data[key] else Raw([])
  }

  /** `Has`: whether the key is present, together with an error when `Has` fails on the key; the two are independent. */
  function HasResult(data: map<Bytes, Blob>, f: Faults, key: Bytes): (bool, Option<Error>)
  {
    (key in data, if Fails(f, HasOp, key) then Some(StoreFailure(HasOp, key)) else None)
  }

  function GetResult(data: map<Bytes, Blob>, f: Faults, key: Bytes): Result<Blob, Error>
  {
    if Fails(f, GetOp, key) then Err(StoreFailure(GetOp, key)) else Ok(Lookup(data, key))
  }

  /** A failing `Set` writes nothing. */
  function SetResult(data: map<Bytes, Blob>, f: Faults, key: Bytes, value: Blob): (map<Bytes, Blob>, Option<Error>)
  {
    if Fails(f, SetOp, key) then (data, Some(StoreFailure(SetOp, key))) else (data[key := value], None)
  }

  function DeleteResult(data: map<Bytes, Blob>, f: Faults, key: Bytes): (map<Bytes, Blob>, Option<Error>)
  {
    if Fails(f, DeleteOp, key) then (data, Some(StoreFailure(DeleteOp, key))) else (data - {key}, None)
  }

  /** The keys at or after `start`. */
  function KeysFrom(data: map<Bytes, Blob>, start: Bytes): set<Bytes>
  {
    set k | k in data && LexLe(start, k)
  }

  /** The entries stored under `keys`, in the order of `keys`. */
  function Entries(data: map<Bytes, Blob>, keys: seq<Bytes>): (r: seq<(Bytes, Blob)>)
    requires forall k :: k in keys ==> k in data
    ensures |r| == |keys|
    ensures forall i :: 0 <= i < |r| ==> r[i] == (keys[i], data[keys[i]])
  {
    if keys == [] then [] else [(keys[0], data[keys[0]])] + Entries(data, keys[1..])
  }

  lemma EntriesSnoc(data: map<Bytes, Blob>, keys: seq<Bytes>, k: Bytes)
    requires forall x :: x in keys ==> x in data
    requires k in data
    ensures Entries(data, keys + [k]) == Entries(data, keys) + [(k, data[k])]
  {
    var l, r := Entries(data, keys + [k]), Entries(data, keys) + [(k, data[k])];
    assert |l| == |r|;
    forall i | 0 <= i < |l|
      ensures l[i] == r[i]
    {
      if i < |keys| {
        assert (keys + [k])[i] == keys[i];
      }
    }
  }

  /** One step of the iterator: the least remaining key is the next in ascending order. */
  lemma ScanStep(all: set<Bytes>, remaining: set<Bytes>, visited: seq<Bytes>, k: Bytes)
    requires visited + Ascending(remaining) == Ascending(all)
    requires IsLeast(k, remaining)
    ensures (visited + [k]) + Ascending(remaining - {k}) == Ascending(all)
  {
    AscendingUnfold(remaining, k);
    assert (visited + [k]) + Ascending(remaining - {k}) == visited + ([k] + Ascending(remaining - {k}));
  }

  /** What an iterator from `start` with no upper bound visits: every key from `start` on, ascending, with its value. */
  ghost function RangeScan(data: map<Bytes, Blob>, start: Bytes): (r: seq<(Bytes, Blob)>)
    ensures forall i :: 0 <= i < |r| ==> r[i].0 in data && r[i].1 == data[r[i].0]
  {
    var keys := Ascending(KeysFrom(data, start));
    assert forall i :: 0 <= i < |keys| ==> keys[i] in KeysFrom(data, start);
    Entries(data, keys)
  }

  /** The scan reaches every stored key at or after `start`. */
  lemma RangeScanComplete(data: map<Bytes, Blob>, start: Bytes, k: Bytes)
    requires k in data && LexLe(start, k)
    ensures exists i :: 0 <= i < |RangeScan(data, start)| && RangeScan(data, start)[i].0 == k
  {
    var keys := Ascending(KeysFrom(data, start));
    assert k in KeysFrom(data, start);
    var i := IndexOf(keys, k);
    assert RangeScan(data, start)[i].0 == k;
  }

  function IndexOf(s: seq<Bytes>, x: Bytes): (i: nat)
    requires x in s
    ensures i < |s| && s[i] == x
  {
    if s[0] == x then 0 else 1 + IndexOf(s[1..], x)
  }

  class Store {
    var data: map<Bytes, Blob>
    const faults: Faults

    constructor (initial: map<Bytes, Blob>, faults: Faults)
      ensures data == initial && this.faults == faults
    {
      data := initial;
      this.faults := faults;
    }

    method Has(key: Bytes) returns (found: bool, err: Option<Error>)
      ensures (found, err) == HasResult(data, faults, key)
    {
      found := key in data;
      err := if (HasOp, key) in faults.ops then Some(StoreFailure(HasOp, key)) else None;
    }

    method Get(key: Bytes) returns (r: Result<Blob, Error>)
      ensures r == GetResult(data, faults, key)
    {
      if (GetOp, key) in faults.ops {
        return Err(StoreFailure(GetOp, key));
      }
      r := Ok(if key in data then data[key] else Raw([]));
    }

    method Set(key: Bytes, value: Blob) returns (err: Option<Error>)
      modifies this
      ensures (data, err) == SetResult(old(data), faults, key, value)
    {
      if (SetOp, key) in faults.ops {
        return Some(StoreFailure(SetOp, key));
      }
      data := data[key := value];
      return None;
    }

    method Delete(key: Bytes) returns (err: Option<Error>)
      modifies this
      ensures (data, err) == DeleteResult(old(data), faults, key)
    {
      if (DeleteOp, key) in faults.ops {
        return Some(StoreFailure(DeleteOp, key));
      }
      data := data - {key};
      return None;
    }

    /** `Iterator(start, nil)`, drained: the entries from `start` on, smallest key first. */
    method Iterator(start: Bytes) returns (r: Result<seq<(Bytes, Blob)>, Error>)
      ensures r == if faults.scan then Err(IteratorFailure) else Ok(RangeScan(data, start))
    {
      if faults.scan {
        return Err(IteratorFailure);
      }
      var remaining := set k | k in data.Keys && LexLe(start, k);
      ghost var all := remaining;
      var entries: seq<(Bytes, Blob)> := [];
      ghost var visited: seq<Bytes> := [];
      while remaining != {}
        invariant forall k :: k in remaining ==> k in data
        invariant forall k :: k in visited ==> k in data
        invariant visited + Ascending(remaining) == Ascending(all)
        invariant entries == Entries(data, visited)
        decreases |remaining|
      {
        LeastExists(remaining);
        var k :| k in remaining && IsLeast(k, remaining);
        ScanStep(all, remaining, visited, k);
        EntriesSnoc(data, visited, k);
        entries := entries + [(k, data[k])];
        visited := visited + [k];
        remaining := remaining - {k};
      }
      assert visited == Ascending(all);
      assert all == KeysFrom(data, start);
      return Ok(entries);
    }
  }
}
