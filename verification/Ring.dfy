/** The broker's output history: a circular array refined by "the last `capacity` bytes". */
module Ring {
  import opened Bytes

  class RingBuffer {
    const buf: array<byte>
    var writePos: nat
    var totalWritten: nat
    const capacity: nat

    /** Everything ever pushed. */
    ghost var pushed: seq<byte>

    /** Slot `i` holds the newest byte whose position is `i` modulo the capacity. */
    ghost predicate Valid()
      reads this, buf
    {
      && 0 < capacity == buf.Length
      && totalWritten == |pushed|
      && writePos == |pushed| % capacity
      && forall k :: 0 <= k < |pushed| && |pushed| - capacity <= k ==> buf[k % capacity] == pushed[k]
    }

    constructor (capacity: nat)
      requires 0 < capacity
      ensures Valid() && fresh(buf)
      ensures this.capacity == capacity && pushed == []
    {
      this.capacity := capacity;
      buf := new byte[capacity](_ => 0);
      writePos, totalWritten, pushed := 0, 0, [];
    }

    method Push(data: seq<byte>)
      requires Valid()
      modifies this, buf
      ensures Valid()
      ensures pushed == old(pushed) + data
      ensures writePos == |pushed| % capacity && totalWritten == |pushed|
    {
      for i := 0 to |data|
        invariant writePos == |pushed| % capacity
        invariant pushed == old(pushed) + data[..i]
        invariant totalWritten == old(totalWritten)
        invariant forall k :: 0 <= k < |pushed| && |pushed| - capacity <= k ==> buf[k % capacity] == pushed[k]
      {
        ghost var n := |pushed|;
        forall k | 0 <= k < n && n + 1 - capacity <= k
          ensures k % capacity != writePos
        {
          DistinctSlots(k, n, capacity);
        }
        NextSlot(n, capacity);
        buf[writePos] := data[i];
        writePos := (writePos + 1) % capacity;
        pushed := pushed + [data[i]];
      }
      assert data[..|data|] == data;
      totalWritten := totalWritten + |data|;
    }

    method Recent() returns (result: seq<byte>)
      requires Valid()
      ensures result == LastN(capacity, pushed)
    {
      var available := if totalWritten <= capacity then totalWritten else capacity;
      if available == 0 {
        return [];
      }
      var start := if totalWritten <= capacity then 0 else writePos;
      ghost var first := totalWritten - available;
      assert start % capacity == first % capacity by {
        ModUnique(totalWritten, totalWritten / capacity, totalWritten % capacity, capacity);
        if totalWritten > capacity {
          ModUnique(first, totalWritten / capacity - 1, writePos, capacity);
          ModUnique(writePos, 0, writePos, capacity);
        }
      }
      result := [];
      for i := 0 to available
        invariant result == pushed[first..first + i]
      {
        ShiftedSlot(first, i, capacity, start);
        assert pushed[first..first + i + 1] == pushed[first..first + i] + [pushed[first + i]];
        result := result + [buf[(start + i) % capacity]];
      }
    }
  }

  lemma ModUnique(x: int, q: int, r: int, c: int)
    requires 0 < c && 0 <= r < c && x == q * c + r
    ensures x % c == r && x / c == q
  {
    var d := q - x / c;
    assert d * c == x % c - r;
    MulSign(d, c);
  }

  lemma MulSign(d: int, c: int)
    requires 0 < c
    ensures 0 < d ==> c <= d * c
    ensures d < 0 ==> d * c <= -c
  {
  }

  lemma DistinctSlots(k: nat, n: nat, c: nat)
    requires 0 < c && n - c < k < n
    ensures k % c != n % c
  {
    if k % c == n % c {
      assert n - k == (n / c - k / c) * c;
      ModUnique(n - k, n / c - k / c, 0, c);
      ModUnique(n - k, 0, n - k, c);
    }
  }

  lemma NextSlot(n: nat, c: nat)
    requires 0 < c
    ensures (n % c + 1) % c == (n + 1) % c
  {
    ShiftedSlot(n, 1, c, n % c);
  }

  lemma ShiftedSlot(n: nat, i: nat, c: nat, start: nat)
    requires 0 < c && start % c == n % c
    ensures (start + i) % c == (n + i) % c
  {
    var r := (start + i) % c;
    assert n + i == (n / c - start / c + (start + i) / c) * c + r by {
      assert n - start == (n / c - start / c) * c;
    }
    ModUnique(n + i, n / c - start / c + (start + i) / c, r, c);
  }

  /** Any way of cutting a byte stream into pushes leaves the same history, and
      the history can be carried forward from the retained bytes alone. */
  lemma {:induction false} PiecesLeaveSameHistory(capacity: nat, start: seq<byte>, pieces: seq<seq<byte>>)
    ensures Retained(capacity, LastN(capacity, start), pieces) == LastN(capacity, start + Concat(pieces))
    decreases |pieces|
  {
    if pieces == [] {
      assert start + [] == start;
    } else {
      PiecesLeaveSameHistory(capacity, start + pieces[0], pieces[1..]);
      assert start + pieces[0] + Concat(pieces[1..]) == start + Concat(pieces);
      LastNAppend(capacity, start, pieces[0]);
    }
  }

  /** What is retained when each push keeps only the last `capacity` bytes. */
  function Retained(capacity: nat, kept: seq<byte>, pieces: seq<seq<byte>>): seq<byte>
    decreases |pieces|
  {
    if pieces == [] then kept else Retained(capacity, LastN(capacity, kept + pieces[0]), pieces[1..])
  }
}
