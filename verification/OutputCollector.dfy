// The bounded collector of a child process's output: it keeps the last bytes only.

module OutputCollector {
  import opened Wrappers

  type Bytes = seq<bv8>

  const DEFAULT_LIMIT := 2 * 1024 * 1024
  const MAX_LIMIT := 64 * 1024 * 1024

  /** `None` stands for anything that is not an integer. */
  function BoundedInteger(value: Option<int>, fallback: int, minimum: int, maximum: int): int {
    if value.None? then fallback
    else if value.value < minimum then minimum
    else if value.value > maximum then maximum
    else value.value
  }

  function Concat(buffers: seq<Bytes>): Bytes {
    if buffers == [] then [] else buffers[0] + Concat(buffers[1..])
  }

  lemma {:induction false} ConcatSnoc(buffers: seq<Bytes>, last: Bytes)
    ensures Concat(buffers + [last]) == Concat(buffers) + last
  {
    if buffers == [] {
      assert buffers + [last] == [last] && Concat([last][1..]) == [];
    } else {
      assert (buffers + [last])[0] == buffers[0] && (buffers + [last])[1..] == buffers[1..] + [last];
      ConcatSnoc(buffers[1..], last);
    }
  }

  function Last(s: Bytes, n: nat): (r: Bytes)
    ensures |r| == if |s| <= n then |s| else n
  {
    if |s| <= n then s else s[|s| - n..]
  }

  /** What has been dropped never comes back: the end of a longer output needs only the end kept so far. */
  lemma LastOfLast(s: Bytes, t: Bytes, n: nat)
    ensures Last(Last(s, n) + t, n) == Last(s + t, n)
  {
  }

  function End(value: Bytes, n: nat): (end: Bytes)
    requires n <= |value|
    ensures |end| == n
  {
    value[|value| - n..]
  }

  /** Of a chunk at least as long as the limit only its own end is kept. */
  lemma EndIsLast(before: Bytes, value: Bytes, n: nat)
    requires n <= |value|
    ensures Concat([End(value, n)]) == Last(before + value, n)
    ensures |Concat([End(value, n)])| == n
  {
    assert [End(value, n)][1..] == [];
  }

  class Collector {
    const limit: nat
    var buffers: seq<Bytes>
    var retainedBytes: nat
    var totalBytes: nat
    var truncated: bool
    ghost var received: Bytes

    ghost predicate Valid()
      reads this
    {
      && 1 <= limit <= MAX_LIMIT
      && Concat(buffers) == Last(received, limit)
      && retainedBytes == |Concat(buffers)|
      && totalBytes == |received|
      && (truncated <==> |received| > limit)
    }

    constructor (limitBytes: Option<int>)
      ensures Valid() && received == []
      ensures limit == BoundedInteger(limitBytes, DEFAULT_LIMIT, 1, MAX_LIMIT)
    {
      limit := BoundedInteger(limitBytes, DEFAULT_LIMIT, 1, MAX_LIMIT);
      buffers, retainedBytes, totalBytes, truncated := [], 0, 0, false;
      received := [];
    }

    /** Drops bytes from the oldest buffers until no more than `limit` are retained. */
    method DropExcess()
      requires limit >= 1 && retainedBytes == |Concat(buffers)|
      modifies this`buffers, this`retainedBytes, this`truncated
      ensures Concat(buffers) == Last(old(Concat(buffers)), limit)
      ensures retainedBytes == |Concat(buffers)|
      ensures truncated <==> old(truncated) || old(retainedBytes) > limit
    {
      ghost var all := Concat(buffers);
      while retainedBytes > limit && |buffers| > 0
        invariant retainedBytes == |Concat(buffers)|
        invariant retainedBytes <= |all| && Concat(buffers) == all[|all| - retainedBytes..]
        invariant retainedBytes >= limit || retainedBytes == |all|
        invariant truncated ==> old(truncated) || |all| > limit
        invariant old(truncated) || retainedBytes < |all| ==> truncated
        decreases retainedBytes, |buffers|
      {
        var excess := retainedBytes - limit;
        var first := buffers[0];
        if |first| <= excess {
          buffers := buffers[1..];
          retainedBytes := retainedBytes - |first|;
        } else {
          buffers := buffers[0 := first[excess..]];
          retainedBytes := retainedBytes - excess;
        }
        truncated := true;
      }
    }

    /** A chunk no shorter than the limit leaves only its own end. */
    method KeepEndOf(value: Bytes)
      requires Valid() && |value| >= limit
      modifies this
      ensures Valid() && received == old(received) + value
    {
      EndIsLast(received, value, limit);
      totalBytes := totalBytes + |value|;
      received := received + value;
      buffers := [End(value, limit)];
      retainedBytes := limit;
      truncated := totalBytes > limit;
    }

    /** A chunk of the child's output arrives. */
    method Append(value: Bytes)
      requires Valid()
      modifies this
      ensures Valid() && received == old(received) + value
    {
      if |value| >= limit {
        KeepEndOf(value);
        return;
      }
      LastOfLast(received, value, limit);
      ConcatSnoc(buffers, value);
      totalBytes := totalBytes + |value|;
      received := received + value;
      buffers := buffers + [value];
      retainedBytes := retainedBytes + |value|;
      DropExcess();
    }

    function DroppedBytes(): nat
      reads this
    {
      if totalBytes > retainedBytes then totalBytes - retainedBytes else 0
    }

    /** Retained and dropped bytes add up, and nothing is dropped unless the output is marked truncated. */
    lemma NothingUnaccounted()
      requires Valid()
      ensures retainedBytes + DroppedBytes() == |received|
      ensures DroppedBytes() > 0 <==> truncated
      ensures !truncated ==> Concat(buffers) == received
    {
    }
  }

  /** The whole output, whatever its chunks. */
  method Collect(limitBytes: Option<int>, chunks: seq<Bytes>) returns (c: Collector)
    ensures fresh(c) && c.Valid()
    ensures c.limit == BoundedInteger(limitBytes, DEFAULT_LIMIT, 1, MAX_LIMIT)
    ensures c.received == Concat(chunks)
    ensures Concat(c.buffers) == Last(Concat(chunks), c.limit)
    ensures c.truncated <==> |Concat(chunks)| > c.limit
    ensures c.DroppedBytes() == |Concat(chunks)| - c.retainedBytes
  {
    c := new Collector(limitBytes);
    for i := 0 to |chunks|
      invariant c.Valid() && fresh(c) && c.limit == BoundedInteger(limitBytes, DEFAULT_LIMIT, 1, MAX_LIMIT)
      invariant c.received == Concat(chunks[..i])
    {
      c.Append(chunks[i]);
      ConcatSnoc(chunks[..i], chunks[i]);
      assert chunks[..i + 1] == chunks[..i] + [chunks[i]];
    }
    assert chunks[..|chunks|] == chunks;
  }
}
