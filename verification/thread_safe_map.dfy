// ThreadSafeMap: include/thread_safe_map.h.

// The sequential meaning of the four operations.
module MapSpec {
  /** `Get` carries the value its out-parameter held before the call. */
  datatype Op<K, V> = Insert(key: K, val: V) | Remove(key: K) | Get(key: K, init: V) | GetSize

  datatype Result<V> = Inserted | Removed(found: bool) | Got(found: bool, val: V) | Size(n: int)

  function Update<K, V>(m: map<K, V>, op: Op<K, V>): map<K, V>
  {
    match op
    case Insert(key, val) => m[key := val]
    case Remove(key) => m - {key}
    case Get(_, _) | GetSize => m
  }

  function Answer<K, V>(m: map<K, V>, op: Op<K, V>): Result<V>
  {
    match op
    case Insert(_, _) => Inserted
    case Remove(key) => Removed(key in m)
    case Get(key, init) => if key in m then Got(true, m[key]) else Got(false, init)
    case GetSize => Size(AsInt(|m|))
  }

  /** The conversion of a size_t to an int of 32 bits. */
  function AsInt(n: nat): int
  {
    var low := n % 0x1_0000_0000;
    if low < 0x8000_0000 then low else low - 0x1_0000_0000
  }

  /** Up to 2147483647 entries the size is what getSize says; with one more it is negative. */
  lemma AsIntExactly(n: nat)
    ensures AsInt(n) == n <==> n < 0x8000_0000
    ensures 0x8000_0000 <= n < 0x1_0000_0000 ==> AsInt(n) < 0
  {
  }
}

// The class, as one thread sees it that has the lock whenever it needs it.
// MapConcurrency shows that several threads see no more than this.
module ThreadSafeMaps {
  import opened MapSpec

  class ThreadSafeMap<K(==), V> {
    var map_: map<K, V>

    constructor ()
      ensures map_ == map[]
    {
      map_ := map[];
    }

    method Insert(key: K, val: V)
      modifies this
      ensures map_ == old(map_)[key := val] == Update(old(map_), Op.Insert(key, val))
    {
      map_ := map_[key := val];
    }

    method Remove(key: K) returns (found: bool)
      modifies this
      ensures found <==> key in old(map_)
      ensures map_ == old(map_) - {key} == Update(old(map_), Op.Remove(key))
      ensures Removed(found) == Answer(old(map_), Op.Remove(key))
    {
      if key in map_ {
        map_ := map_ - {key};
        return true;
      }
      return false;
    }

    /** `value` is what the caller's variable holds before the call, `out` what it holds after. */
    method Get(key: K, value: V) returns (found: bool, out: V)
      ensures found <==> key in map_
      ensures out == if found then map_[key] else value
      ensures Got(found, out) == Answer(map_, Op.Get(key, value))
    {
      if key in map_ {
        return true, map_[key];
      }
      return false, value;
    }

    method GetSize() returns (n: int)
      ensures Size(n) == Answer<K, V>(map_, Op.GetSize)
      ensures if |map_| < 0x8000_0000 then n == |map_| else |map_| < 0x1_0000_0000 ==> n < 0
    {
      return AsInt(|map_|);
    }
  }
}
