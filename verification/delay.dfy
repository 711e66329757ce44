/** The delay line of the impairment task: packets wait in a ring, one array that every operation updates in place,
    until their time has come. */
module Delay {
  import opened Division
  import opened Ring

  const MAX_PKT_BURST: nat := 64

  type Mbuf = nat

  /** A waiting packet and the time from which it may leave. */
  datatype Elem = Elem(mbuf: Mbuf, tsc: nat)

  /** A packet that left: when, and whether it was sent or dropped by the random drop. */
  datatype Sent = Sent(elem: Elem, at: nat, kept: bool)

  ghost function Elems(sent: seq<Sent>): (r: seq<Elem>)
    ensures |r| == |sent| && forall k :: 0 <= k < |r| ==> r[k] == sent[k].elem
  {
    seq(|sent|, k requires 0 <= k < |sent| => sent[k].elem)
  }

  ghost function Waiting(mbufs: seq<Mbuf>, tsc: nat): (r: seq<Elem>)
    ensures |r| == |mbufs| && forall k :: 0 <= k < |r| ==> r[k] == Elem(mbufs[k], tsc)
  {
    seq(|mbufs|, k requires 0 <= k < |mbufs| => Elem(mbufs[k], tsc))
  }

  ghost predicate NeverEarly(sent: seq<Sent>) {
    forall k :: 0 <= k < |sent| ==> sent[k].elem.tsc <= sent[k].at
  }

  /** Who arrived first may leave first. */
  ghost predicate Ordered(s: seq<Elem>, last: nat) {
    (forall j, k :: 0 <= j < k < |s| ==> s[j].tsc <= s[k].tsc) && forall k :: 0 <= k < |s| ==> s[k].tsc <= last
  }

  /** How many of the elements of s, from the first, may leave at time now, at most max. */
  ghost function DueCount(s: seq<Elem>, now: nat, max: nat): (n: nat)
    ensures n <= |s| && n <= max && forall k :: 0 <= k < n ==> s[k].tsc <= now
    ensures n < max && n < |s| ==> s[n].tsc > now
  {
    if s == [] || max == 0 || s[0].tsc > now then 0 else 1 + DueCount(s[1..], now, max - 1)
  }

  /** When packets are ordered, all that may leave do, up to the size of a burst. */
  lemma NothingDueStays(s: seq<Elem>, last: nat, now: nat, max: nat)
    requires Ordered(s, last) && DueCount(s, now, max) < max
    ensures NoneDue(s[DueCount(s, now, max)..], now)
  {
  }

  ghost predicate NoneDue(s: seq<Elem>, now: nat) {
    forall k :: 0 <= k < |s| ==> s[k].tsc > now
  }

  /** The first waiting packet leaves. */
  lemma TakeBooks(arrived: seq<Elem>, sent: seq<Sent>, waiting: seq<Elem>, t: Sent, last: nat)
    requires arrived == Elems(sent) + waiting && NeverEarly(sent) && Ordered(waiting, last)
    requires waiting != [] && t.elem == waiting[0] && t.elem.tsc <= t.at
    ensures arrived == Elems(sent + [t]) + waiting[1..] && NeverEarly(sent + [t]) && Ordered(waiting[1..], last)
  {
    assert Elems(sent + [t]) == Elems(sent) + [waiting[0]];
    assert waiting == [waiting[0]] + waiting[1..];
  }

  /** The packets that leave together at time now. */
  ghost function Departures(elems: seq<Elem>, now: nat, keep: nat -> bool): (r: seq<Sent>)
    ensures |r| == |elems| && forall k :: 0 <= k < |r| ==> r[k] == Sent(elems[k], now, keep(k))
  {
    seq(|elems|, k requires 0 <= k < |elems| => Sent(elems[k], now, keep(k)))
  }

  /** idx of the elements that waited have left, and the rest still waits. */
  ghost predicate Releasing(all: seq<Elem>, sent0: seq<Sent>, waiting: seq<Elem>, sent: seq<Sent>, idx: nat, now: nat,
        keep: nat -> bool) {
    && idx <= MAX_PKT_BURST && idx <= |all| && waiting == all[idx..]
    && DueCount(all, now, MAX_PKT_BURST) == idx + DueCount(waiting, now, MAX_PKT_BURST - idx)
    && sent == sent0 + Departures(all[..idx], now, keep)
  }

  lemma OneMoreDeparture(all: seq<Elem>, sent0: seq<Sent>, waiting: seq<Elem>, idx: nat, now: nat, keep: nat -> bool)
    requires idx <= |all| && Releasing(all, sent0, waiting, sent0 + Departures(all[..idx], now, keep), idx, now, keep)
    requires idx < MAX_PKT_BURST && DueCount(waiting, now, 1) == 1
    ensures Releasing(all, sent0, waiting[1..], sent0 + Departures(all[..idx], now, keep)
          + [Sent(waiting[0], now, keep(idx))], idx + 1, now, keep)
  {
    assert all[idx..][1..] == all[idx + 1..];
    assert Departures(all[..idx], now, keep) + [Sent(all[idx], now, keep(idx))]
        == Departures(all[..idx + 1], now, keep);
  }

  lemma Released(all: seq<Elem>, sent0: seq<Sent>, waiting: seq<Elem>, sent: seq<Sent>, idx: nat, now: nat,
        keep: nat -> bool)
    requires Releasing(all, sent0, waiting, sent, idx, now, keep)
        && (idx == MAX_PKT_BURST || DueCount(waiting, now, 1) == 0)
    ensures idx == DueCount(all, now, MAX_PKT_BURST)
  {
  }

  /** What still waits after n bursts, the first at time clock(0), and what has left. */
  ghost function Bursts(all: seq<Elem>, clock: nat -> nat, keep: nat -> bool, n: nat): (seq<Elem>, seq<Sent>) {
    if n == 0 then (all, [])
    else
      var (waiting, gone) := Bursts(all, clock, keep, n - 1);
      var idx := DueCount(waiting, clock(n - 1), MAX_PKT_BURST);
      (waiting[idx..], gone + Departures(waiting[..idx], clock(n - 1), keep))
  }

  /** Nothing waits after n bursts, and not before. */
  ghost predicate Flushes(all: seq<Elem>, clock: nat -> nat, keep: nat -> bool, n: nat) {
    Bursts(all, clock, keep, n).0 == [] && forall j: nat :: j < n ==> Bursts(all, clock, keep, j).0 != []
  }

  lemma FirstIsDue(waiting: seq<Elem>, last: nat, now: nat)
    requires Ordered(waiting, last) && waiting != [] && last <= now
    ensures DueCount(waiting, now, MAX_PKT_BURST) > 0
  {}

  /** n bursts have left, and there were packets for each. */
  ghost predicate Flushing(all: seq<Elem>, sent0: seq<Sent>, waiting: seq<Elem>, sent: seq<Sent>, clock: nat -> nat,
        keep: nat -> bool, n: nat) {
    && waiting == Bursts(all, clock, keep, n).0 && sent == sent0 + Bursts(all, clock, keep, n).1
    && forall j: nat :: j < n ==> Bursts(all, clock, keep, j).0 != []
  }

  lemma StartFlush(all: seq<Elem>, sent0: seq<Sent>, clock: nat -> nat, keep: nat -> bool)
    ensures Flushing(all, sent0, all, sent0, clock, keep, 0)
  {}

  lemma OneMoreBurst(all: seq<Elem>, sent0: seq<Sent>, waiting: seq<Elem>, sent: seq<Sent>, clock: nat -> nat,
        keep: nat -> bool, n: nat)
    requires Flushing(all, sent0, waiting, sent, clock, keep, n) && waiting != []
    ensures var idx := DueCount(waiting, clock(n), MAX_PKT_BURST);
            Flushing(all, sent0, waiting[idx..], sent + Departures(waiting[..idx], clock(n), keep), clock, keep, n + 1)
  {
    hide DueCount, Departures;
  }

  lemma EndFlush(all: seq<Elem>, sent0: seq<Sent>, sent: seq<Sent>, clock: nat -> nat, keep: nat -> bool, n: nat)
    requires Flushing(all, sent0, [], sent, clock, keep, n)
    ensures Flushes(all, clock, keep, n) && sent == sent0 + Bursts(all, clock, keep, n).1
  {}

  /** Bursts take the packets in order. */
  lemma {:induction false} BurstsKeepOrder(all: seq<Elem>, clock: nat -> nat, keep: nat -> bool, n: nat)
    ensures var (waiting, gone) := Bursts(all, clock, keep, n); Elems(gone) + waiting == all
  {
    hide DueCount, Departures, Elems;
    if n == 0 {
      assert Elems([]) + all == all;
    } else {
      BurstsKeepOrder(all, clock, keep, n - 1);
      var (waiting, gone) := Bursts(all, clock, keep, n - 1);
      BurstKeepsOrder(gone, waiting, clock(n - 1), keep, DueCount(waiting, clock(n - 1), MAX_PKT_BURST));
    }
  }

  lemma BurstKeepsOrder(gone: seq<Sent>, waiting: seq<Elem>, now: nat, keep: nat -> bool, idx: nat)
    requires idx <= |waiting|
    ensures Elems(gone + Departures(waiting[..idx], now, keep)) + waiting[idx..] == Elems(gone) + waiting
  {
    assert Elems(gone + Departures(waiting[..idx], now, keep)) == Elems(gone) + waiting[..idx];
    assert waiting == waiting[..idx] + waiting[idx..];
  }

  /** The burst that p leaves in: its time is the time p leaves, which is not before p may. */
  ghost predicate LeavesIn(all: seq<Elem>, clock: nat -> nat, keep: nat -> bool, n: nat, p: nat, j: nat)
    requires p < |Bursts(all, clock, keep, n).1|
  {
    && j < n && |Bursts(all, clock, keep, j).1| <= p < |Bursts(all, clock, keep, j + 1).1|
    && Bursts(all, clock, keep, n).1[p].at == clock(j) && Bursts(all, clock, keep, n).1[p].elem.tsc <= clock(j)
  }

  /** Every packet leaves in one of the bursts, at the time of that burst, and not before it may. */
  lemma {:induction false} LeavesAtBurst(all: seq<Elem>, clock: nat -> nat, keep: nat -> bool, n: nat, p: nat)
      returns (j: nat)
    requires p < |Bursts(all, clock, keep, n).1|
    ensures LeavesIn(all, clock, keep, n, p, j)
  {
    hide DueCount, Departures;
    var before := Bursts(all, clock, keep, n - 1).1;
    if p < |before| {
      j := LeavesAtBurst(all, clock, keep, n - 1, p);
    } else {
      j := n - 1;
    }
  }

  /** More packets wait, not due before the ones before them. */
  lemma ArriveBooks(arrived: seq<Elem>, sent: seq<Sent>, waiting: seq<Elem>, mbufs: seq<Mbuf>, tsc: nat, last: nat)
    requires arrived == Elems(sent) + waiting && Ordered(waiting, last) && last <= tsc
    ensures arrived + Waiting(mbufs, tsc) == Elems(sent) + (waiting + Waiting(mbufs, tsc))
    ensures Ordered(waiting + Waiting(mbufs, tsc), tsc)
  {
  }

  class DelayLine {
    var queue: array<Elem>
    var queueHead: nat
    var queueTail: nat
    var queueMask: nat
    var delayTime: nat

    // History.
    /** The packets that found room, and those that did not. */
    ghost var arrived: seq<Elem>
    ghost var dropped: seq<Mbuf>
    ghost var sent: seq<Sent>
    ghost var lastNow: nat

    ghost predicate Shape()
      reads this
    {
      queue.Length == queueMask + 1 && queueHead <= queueMask && queueTail <= queueMask
    }

    /** How many packets wait. */
    ghost function Size(): (n: nat)
      requires Shape()
      reads this
      ensures n <= queueMask
    {
      (queueHead - queueTail) % (queueMask + 1)
    }

    ghost function Contents(): seq<Elem>
      requires Shape()
      reads this, queue
    {
      Slots(queue[..], queueTail, Size())
    }

    ghost predicate Valid()
      reads this, queue
    {
      && Shape()
      && arrived == Elems(sent) + Contents()
      && NeverEarly(sent)
      && Ordered(Contents(), lastNow + delayTime)
    }

    constructor (queueLen: nat, delayTime: nat)
      requires queueLen > 0
      ensures Valid() && Contents() == [] && sent == [] && this.delayTime == delayTime && queueMask == queueLen - 1
    {
      queue := new Elem[queueLen](_ => Elem(0, 0));
      queueHead, queueTail, queueMask, this.delayTime := 0, 0, queueLen - 1, delayTime;
      arrived, dropped, sent, lastNow := [], [], [], 0;
      new;
      SizeIs();
      assert Contents() == [] && Elems([]) == [];
    }

    // ---- arrivals ----

    lemma SizeIs()
      requires Shape()
      ensures Size() == if queueTail <= queueHead then queueHead - queueTail else queueHead - queueTail + queueMask + 1
    {
      if queueTail <= queueHead {
        SmallMod(queueHead - queueTail, queueMask + 1);
      } else {
        SameMod(queueHead - queueTail, 1, queueMask + 1);
        SmallMod(queueHead - queueTail + queueMask + 1, queueMask + 1);
      }
    }

    /** The head is where the next packet goes. */
    lemma HeadIs()
      requires Shape()
      ensures (queueTail + Size()) % (queueMask + 1) == queueHead
    {
      SizeIs();
      if queueTail <= queueHead {
        SmallMod(queueHead, queueMask + 1);
      } else {
        SameMod(queueHead, 1, queueMask + 1);
        SmallMod(queueHead, queueMask + 1);
      }
    }

    /** One packet is put at the head. */
    method PutElem(m: Mbuf, tsc: nat)
      requires Shape() && Size() < queueMask
      modifies `queueHead, queue
      ensures Shape() && Contents() == old(Contents()) + [Elem(m, tsc)]
    {
      HeadIs();
      PutOne(queue[..], queueTail, Size(), Elem(m, tsc));
      ghost var n, q := Size(), queue[..];
      queue[queueHead] := Elem(m, tsc);
      assert queue[..] == q[queueHead := Elem(m, tsc)];
      SizeIs();
      queueHead := Next(queueHead);
      SizeIs();
      assert Size() == n + 1;
    }

    /** (i + 1) & queue_mask */
    function Next(i: nat): (j: nat)
      requires i <= queueMask
      reads this
      ensures j == if i == queueMask then 0 else i + 1
    {
      NextIs(i, queueMask + 1);
      (i + 1) % (queueMask + 1)
    }

    /** Whether there is room for one more. */
    lemma FullIs()
      requires Shape()
      ensures Next(queueHead) != queueTail <==> Size() < queueMask
    {
      SizeIs();
    }

    /** The number of free places, one of which always stays empty. */
    method EmptySlots() returns (n: nat)
      requires Shape()
      ensures n == queueMask - Size()
    {
      n := (queueTail - queueHead + queueMask) % (queueMask + 1);
      SizeIs();
      if queueTail <= queueHead {
        SmallMod(queueTail - queueHead + queueMask, queueMask + 1);
      } else {
        SameMod(queueTail - queueHead - 1, 1, queueMask + 1);
        SmallMod(queueTail - queueHead - 1, queueMask + 1);
      }
    }

    /** The branch of handle_bulk_impair for packets that are known to fit. */
    method EnqueueAll(mbufs: seq<Mbuf>, tsc: nat)
      requires Shape() && Size() + |mbufs| <= queueMask
      modifies `queueHead, queue
      ensures Shape() && Contents() == old(Contents()) + Waiting(mbufs, tsc)
    {
      for i := 0 to |mbufs|
        invariant Shape() && Contents() == old(Contents()) + Waiting(mbufs[..i], tsc)
      {
        PutElem(mbufs[i], tsc);
        assert Waiting(mbufs[..i + 1], tsc) == Waiting(mbufs[..i], tsc) + [Elem(mbufs[i], tsc)];
      }
      assert mbufs[..|mbufs|] == mbufs;
    }

    /** The branch that checks every packet: what does not fit is dropped together. n packets found room. */
    method EnqueueEach(mbufs: seq<Mbuf>, tsc: nat) returns (n: nat)
      requires Shape()
      modifies `queueHead, queue
      ensures Shape() && n == if |mbufs| <= queueMask - old(Size()) then |mbufs| else queueMask - old(Size())
      ensures Contents() == old(Contents()) + Waiting(mbufs[..n], tsc)
    {
      n := 0;
      while n < |mbufs|
        invariant n <= |mbufs| && Shape() && Size() == old(Size()) + n
        invariant Contents() == old(Contents()) + Waiting(mbufs[..n], tsc)
      {
        FullIs();
        if Next(queueHead) != queueTail {
          PutElem(mbufs[n], tsc);
          assert Waiting(mbufs[..n + 1], tsc) == Waiting(mbufs[..n], tsc) + [Elem(mbufs[n], tsc)];
          assert Size() == |Contents()|;
        } else {
          return;
        }
        n := n + 1;
      }
    }

    /** Both branches do the same: what fits is queued in order. */
    method Append(mbufs: seq<Mbuf>, tsc: nat) returns (n: nat)
      requires Shape()
      modifies `queueHead, queue
      ensures Shape()
      ensures n == if |mbufs| <= queueMask - |old(Contents())| then |mbufs| else queueMask - |old(Contents())|
      ensures Contents() == old(Contents()) + Waiting(mbufs[..n], tsc)
    {
      var nbEmptySlots := EmptySlots();
      if nbEmptySlots >= |mbufs| {
        EnqueueAll(mbufs, tsc);
        n := |mbufs|;
        assert mbufs[..n] == mbufs;
      } else {
        n := EnqueueEach(mbufs, tsc);
      }
    }

    /** Arriving packets wait for the delay time, and those that do not fit are dropped. */
    method Enqueue(mbufs: seq<Mbuf>, now: nat) returns (n: nat)
      requires Valid() && lastNow <= now
      modifies `queueHead, `arrived, `dropped, `lastNow, queue
      ensures Valid() && lastNow == now
      ensures n == if |mbufs| <= queueMask - |old(Contents())| then |mbufs| else queueMask - |old(Contents())|
      ensures Contents() == old(Contents()) + Waiting(mbufs[..n], now + delayTime)
      ensures arrived == old(arrived) + Waiting(mbufs[..n], now + delayTime) && dropped == old(dropped) + mbufs[n..]
    {
      hide Elems, Waiting, Ordered, NeverEarly;
      ghost var before := Contents();
      n := Append(mbufs, now + delayTime);
      ArriveBooks(arrived, sent, before, mbufs[..n], now + delayTime, lastNow + delayTime);
      arrived := arrived + Waiting(mbufs[..n], now + delayTime);
      dropped := dropped + mbufs[n..];
      lastNow := now;
    }

    // ---- departures ----

    /** The packet at the tail is taken out. */
    method Pop() returns (m: Mbuf)
      requires Shape() && Contents() != []
      modifies `queueTail
      ensures Shape() && m == old(Contents())[0].mbuf && Contents() == old(Contents())[1..]
    {
      SizeIs();
      DropFirst(queue[..], queueTail, Size());
      SmallMod(queueTail, queueMask + 1);
      m := queue[queueTail].mbuf;
      ghost var n, t := Size(), queueTail;
      queueTail := Next(queueTail);
      SizeIs();
      assert Size() == n - 1;
      NextTwice(t, queueMask + 1);
      SameStart(queue[..], t + 1, queueTail, n - 1);
    }

    /** The packet at the tail leaves at time now. */
    method Take(now: nat, kept: bool) returns (m: Mbuf)
      requires Valid() && Contents() != [] && Contents()[0].tsc <= now
      modifies `queueTail, `sent
      ensures Valid() && m == old(Contents())[0].mbuf
      ensures Contents() == old(Contents())[1..] && sent == old(sent) + [Sent(old(Contents())[0], now, kept)]
    {
      hide Elems, Ordered, NeverEarly;
      ghost var was := Contents();
      m := Pop();
      TakeBooks(arrived, sent, was, Sent(was[0], now, kept), lastNow + delayTime);
      sent := sent + [Sent(was[0], now, kept)];
    }

    /** Whether packets wait. */
    method IsEmpty() returns (empty: bool)
      requires Shape()
      ensures empty <==> Contents() == []
    {
      empty := queueTail == queueHead;
      SizeIs();
    }

    /** The time from which the first waiting packet may leave. */
    method FirstTsc() returns (tsc: nat)
      requires Shape() && Contents() != []
      ensures tsc == Contents()[0].tsc
    {
      SmallMod(queueTail, queueMask + 1);
      tsc := queue[queueTail].tsc;
    }

    /** The first waiting packet leaves if it may. */
    method ReleaseOne(now: nat, kept: bool) returns (took: bool)
      requires Valid()
      modifies `queueTail, `sent
      ensures Valid() && (took <==> DueCount(old(Contents()), now, 1) == 1)
      ensures if took
              then Contents() == old(Contents())[1..] && sent == old(sent) + [Sent(old(Contents())[0], now, kept)]
              else Contents() == old(Contents()) && sent == old(sent)
    {
      took := false;
      var empty := IsEmpty();
      if !empty {
        var tsc := FirstTsc();
        if tsc <= now {
          var m := Take(now, kept);
          took := true;
        }
      }
    }

    /** One burst: every packet that may leave does, at most MAX_PKT_BURST. keep is the random drop. */
    method ReleaseBurst(now: nat, keep: nat -> bool) returns (idx: nat)
      requires Valid()
      modifies `queueTail, `sent
      ensures Valid() && idx == DueCount(old(Contents()), now, MAX_PKT_BURST)
      ensures Contents() == old(Contents())[idx..] && sent == old(sent) + Departures(old(Contents())[..idx], now, keep)
    {
      idx := 0;
      ghost var all := Contents();
      assert all[..0] == [] && all[0..] == all;
      while idx < MAX_PKT_BURST
        invariant Valid() && Releasing(all, old(sent), Contents(), sent, idx, now, keep)
      {
        ghost var waiting := Contents();
        var took := ReleaseOne(now, keep(idx));
        if !took {
          break;
        }
        OneMoreDeparture(all, old(sent), waiting, idx, now, keep);
        idx := idx + 1;
      }
      Released(all, old(sent), Contents(), sent, idx, now, keep);
    }

    /** The packets that may leave do so now, a burst of them at most; when they are fewer, nothing that may leave
        stays. */
    method ReleaseDue(now: nat, keep: nat -> bool) returns (idx: nat)
      requires Valid()
      modifies `queueTail, `sent
      ensures Valid() && idx == DueCount(old(Contents()), now, MAX_PKT_BURST)
      ensures Contents() == old(Contents())[idx..] && sent == old(sent) + Departures(old(Contents())[..idx], now, keep)
      ensures idx < MAX_PKT_BURST ==> NoneDue(Contents(), now)
    {
      hide DueCount, Departures, Elems, Ordered, NeverEarly, NoneDue;
      ghost var all, last := Contents(), lastNow + delayTime;
      assert Ordered(all, last);
      idx := ReleaseBurst(now, keep);
      if idx < MAX_PKT_BURST {
        NothingDueStays(all, last, now, MAX_PKT_BURST);
      }
    }

    /** handle_bulk_impair. The packets that may leave, of those that waited and those that have just come, leave now, a
        burst of them at most; when they are fewer, nothing that may leave stays. */
    method HandleBulk(mbufs: seq<Mbuf>, now: nat, keep: nat -> bool) returns (n: nat, idx: nat)
      requires Valid() && lastNow <= now
      modifies `queueHead, `queueTail, `arrived, `dropped, `sent, `lastNow, queue
      ensures Valid() && lastNow == now
      ensures n == if |mbufs| <= queueMask - |old(Contents())| then |mbufs| else queueMask - |old(Contents())|
      ensures arrived == old(arrived) + Waiting(mbufs[..n], now + delayTime) && dropped == old(dropped) + mbufs[n..]
      ensures var all := old(Contents()) + Waiting(mbufs[..n], now + delayTime);
              && idx == DueCount(all, now, MAX_PKT_BURST) && Contents() == all[idx..]
              && sent == old(sent) + Departures(all[..idx], now, keep)
      ensures idx <= 64 && (idx < 64 ==> NoneDue(Contents(), now))
    {
      hide DueCount, Departures, Elems, Waiting, Ordered, NeverEarly, NoneDue, Size, Contents;
      n := Enqueue(mbufs, now);
      idx := ReleaseDue(now, keep);
    }

    // ---- reconfiguration ----

    /** The flush of task_impair_update: burst by burst, until every waiting packet has left. clock gives the successive
        times read, from reading number stop on the last packet may leave. */
    method Flush(clock: nat -> nat, ghost stop: nat, keep: nat -> bool) returns (ghost rounds: nat)
      requires Valid() && forall i: nat :: i >= stop ==> clock(i) >= lastNow + delayTime
      modifies `queueTail, `sent
      ensures Valid() && Contents() == [] && arrived == Elems(sent)
      ensures Flushes(old(Contents()), clock, keep, rounds)
      ensures sent == old(sent) + Bursts(old(Contents()), clock, keep, rounds).1
    {
      hide DueCount, Departures, Elems, Bursts, Flushes, Flushing, Ordered, NeverEarly, Size, Contents;
      ghost var all := Contents();
      StartFlush(all, sent, clock, keep);
      var i := 0;
      var empty := IsEmpty();
      while !empty
        invariant Valid() && (empty <==> Contents() == [])
        invariant Flushing(all, old(sent), Contents(), sent, clock, keep, i)
        decreases |Contents()|, stop - i
      {
        ghost var waiting, before := Contents(), sent;
        if i >= stop {
          FirstIsDue(waiting, lastNow + delayTime, clock(i));
        }
        var idx := ReleaseBurst(clock(i), keep);
        OneMoreBurst(all, old(sent), waiting, before, clock, keep, i);
        empty := IsEmpty();
        i := i + 1;
      }
      rounds := i;
      EndFlush(all, old(sent), sent, clock, keep, i);
      assert Elems(sent) + [] == Elems(sent);
    }

    /** task_impair_update for a new fixed delay: nothing that waited is lost. */
    method Update(newDelay: nat, queueLen: nat, clock: nat -> nat, ghost stop: nat, keep: nat -> bool)
        returns (ghost rounds: nat)
      requires Valid() && queueLen > 0 && forall i: nat :: i >= stop ==> clock(i) >= lastNow + delayTime
      modifies this
      ensures Valid() && Contents() == [] && delayTime == newDelay && fresh(queue)
      ensures queueMask == (if queueLen < 64 then 64 else queueLen) - 1
      ensures arrived == old(arrived) == Elems(sent) && dropped == old(dropped)
      ensures Flushes(old(Contents()), clock, keep, rounds)
      ensures sent == old(sent) + Bursts(old(Contents()), clock, keep, rounds).1
    {
      rounds := Flush(clock, stop, keep);
      delayTime := newDelay;
      var len := if queueLen < MAX_PKT_BURST then MAX_PKT_BURST else queueLen;
      queueMask := len - 1;
      queueHead, queueTail := 0, 0;
      queue := new Elem[len](_ => Elem(0, 0));
      SizeIs();
      assert Elems(sent) + [] == Elems(sent);
    }
  }

  lemma NextTwice(i: nat, s: nat)
    requires i < s
    ensures (i + 1) % s == (i + 1) % s % s
  {
  }

  lemma NextIs(i: nat, s: nat)
    requires i < s
    ensures (i + 1) % s == if i + 1 == s then 0 else i + 1
  {
    if i + 1 < s {
      SmallMod(i + 1, s);
    } else {
      ModIs(s, s, 1, 0);
    }
  }
}
