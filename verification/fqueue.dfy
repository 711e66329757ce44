/** The ring that holds received packets: counters that wrap at 32 bits, and a power-of-two buffer. */
module FQueue {
  import opened Words
  import opened Division
  import opened Ring

  type Mbuf = nat

  // ---- positions ----

  /** Where a 32-bit counter points does not depend on whether it has wrapped. */
  lemma WrapSamePlace(x: nat, s: nat)
    requires s > 0 && WORD % s == 0 && WORD <= x
    ensures (x - WORD) % s == x % s
  {
    var q, y := WORD / s, x - WORD;
    assert WORD == q * s;
    assert (y / s + q) * s == y / s * s + q * s;
    ModIs(x, s, y / s + q, y % s);
  }

  // ---- contents ----

  lemma DropOne(e: seq<Mbuf>, cons: u32, n: nat)
    requires |e| > 0 && WORD % |e| == 0 && n > 0
    ensures Slots(e, Add32(cons, 1), n - 1) == Slots(e, cons, n)[1..]
  {
    DropFirst(e, cons, n);
    if cons as int + 1 == WORD {
      WrapSamePlace(WORD, |e|);
      SameStart(e, WORD, 0, n - 1);
    }
  }

  lemma {:induction false} DropMany(e: seq<Mbuf>, cons: u32, n: nat, d: u32)
    requires |e| > 0 && WORD % |e| == 0 && d as int <= n
    ensures Slots(e, Add32(cons, d), n - d as int) == Slots(e, cons, n)[d..]
    decreases d
  {
    if d > 0 {
      DropMany(e, cons, n, d - 1);
      DropOne(e, Add32(cons, d - 1), n - (d - 1) as int);
    }
  }

  /** The slot of a counter that has advanced d from cons. */
  lemma SlotOf(cons: u32, d: u32, size: nat)
    requires size > 0 && WORD % size == 0
    ensures Add32(cons, d) as int % size == (cons as int + d as int) % size
  {
    if cons as int + d as int >= WORD {
      WrapSamePlace(cons as int + d as int, size);
    }
  }

  class FastQueue {
    var prod: u32
    var cons: u32
    const mask: u32
    const entries: array<Mbuf>

    ghost predicate Valid()
      reads this
    {
      && entries.Length == mask as int + 1 && WORD % (mask as int + 1) == 0
      && Sub32(prod, cons) <= mask
    }

    ghost function Contents(): seq<Mbuf>
      requires Valid()
      reads this, entries
    {
      Slots(entries[..], cons, Sub32(prod, cons) as int)
    }

    /** fqueue_create for a size that is a power of two. Counters of a new queue are zero; any start is allowed here. */
    constructor (size: u32, start: u32)
      requires size > 0 && WORD % size as int == 0
      ensures Valid() && Contents() == [] && mask == size - 1 && fresh(entries)
    {
      entries := new Mbuf[size](_ => 0);
      mask := size - 1;
      prod, cons := start, start;
    }

    /** counter & mask */
    function Slot(counter: u32): (b: u32)
      requires Valid()
      reads this
      ensures b <= mask
    {
      counter as int % (mask as int + 1)
    }

    /** fqueue_put: what fits is appended in order. One slot always stays empty. */
    method Put(mbufs: seq<Mbuf>) returns (count: u32)
      requires Valid() && |mbufs| < WORD
      modifies this`prod, entries
      ensures Valid() && count as int <= |mbufs|
      ensures count as int == if |mbufs| <= mask as int - |old(Contents())| then |mbufs|
            else mask as int - |old(Contents())|
      ensures Contents() == old(Contents()) + mbufs[..count]
    {
      ghost var n := Sub32(prod, cons);
      var freeEntries := Sub32(Add32(mask, cons), prod);
      assert freeEntries == mask - n;
      count := |mbufs|;
      if count > freeEntries {
        count := freeEntries;
      }
      assert Add32(cons, n) == prod;
      SlotOf(cons, n, entries.Length);
      var b := Slot(prod);
      if b as int + count as int <= mask as int {
        ghost var before := entries[..];
        forall k | 0 <= k < count as int {
          entries[b as int + k] := mbufs[k];
        }
        PutBlock(before, entries[..], cons, n as int, b as int, mbufs[..count]);
        prod := Add32(prod, count);
        assert Sub32(prod, cons) == n + count;
      } else {
        PutEach(mbufs, count, n);
      }
    }

    /** The branch of fqueue_put that goes one by one, around the end of the buffer. */
    method PutEach(mbufs: seq<Mbuf>, count: u32, ghost n: u32)
      requires Valid() && count as int <= |mbufs| && n == Sub32(prod, cons) && n as int + count as int <= mask as int
      modifies this`prod, entries
      ensures Valid() && Contents() == old(Contents()) + mbufs[..count]
    {
      var i: u32 := 0;
      while i < count
        invariant Valid() && i <= count && Sub32(prod, cons) == n + i
        invariant Contents() == old(Contents()) + mbufs[..i]
      {
        SlotOf(cons, n + i, entries.Length);
        PutOne(entries[..], cons, (n + i) as int, mbufs[i]);
        assert Add32(cons, n + i) == prod;
        ghost var before := entries[..];
        entries[Slot(prod)] := mbufs[i];
        assert entries[..] == before[Slot(prod) := mbufs[i]];
        prod := Add32(prod, 1);
        i := i + 1;
      }
    }

    /** fqueue_get: the oldest packets, in order. */
    method Get(mbufs: array<Mbuf>, max: u32) returns (count: u32)
      requires Valid() && max as int <= mbufs.Length && mbufs != entries
      modifies this`cons, mbufs
      ensures Valid() && count as int <= |old(Contents())|
      ensures count as int == if max as int <= |old(Contents())| then max as int else |old(Contents())|
      ensures mbufs[..count] == old(Contents())[..count]
      ensures Contents() == old(Contents())[count..]
    {
      var used := Sub32(prod, cons);
      count := max;
      if count > used {
        count := used;
      }
      if Slot(cons) as int + count as int <= mask as int {
        GetBlock(mbufs, count);
      } else {
        GetEach(mbufs, count);
      }
    }

    /** The branch of fqueue_get that copies a block. */
    method GetBlock(mbufs: array<Mbuf>, count: u32)
      requires Valid() && count as int <= mbufs.Length && mbufs != entries && count <= Sub32(prod, cons)
      requires Slot(cons) as int + count as int <= mask as int
      modifies this`cons, mbufs
      ensures Valid() && mbufs[..count] == old(Contents())[..count] && Contents() == old(Contents())[count..]
    {
      ghost var n := Sub32(prod, cons);
      var b := Slot(cons);
      forall k | 0 <= k < count as int
        ensures entries[b as int + k] == old(Contents())[k]
      {
        ModStep(cons as int, k, entries.Length);
      }
      forall k | 0 <= k < count as int {
        mbufs[k] := entries[b as int + k];
      }
      DropMany(entries[..], cons, n as int, count);
      cons := Add32(cons, count);
      assert Sub32(prod, cons) == n - count;
    }

    /** The branch of fqueue_get that goes one by one. */
    method GetEach(mbufs: array<Mbuf>, count: u32)
      requires Valid() && count as int <= mbufs.Length && mbufs != entries && count <= Sub32(prod, cons)
      modifies this`cons, mbufs
      ensures Valid() && mbufs[..count] == old(Contents())[..count] && Contents() == old(Contents())[count..]
    {
      ghost var n := Sub32(prod, cons);
      var i: u32 := 0;
      while i < count
        invariant Valid() && i <= count && Sub32(prod, cons) == n - i
        invariant mbufs[..i] == old(Contents())[..i] && Contents() == old(Contents())[i..]
      {
        assert Contents()[0] == old(Contents())[i];
        DropOne(entries[..], cons, (n - i) as int);
        mbufs[i] := entries[Slot(cons)];
        cons := Add32(cons, 1);
        i := i + 1;
      }
    }
  }
}
