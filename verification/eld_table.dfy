/** Early loss detection as the program keeps it: a table updated for every packet. */
module EldTable {
  import opened Division
  import opened Eld

  /** x as a word. */
  function Reduced(s: nat, q: nat, x: nat): nat
    requires Sizes(s, q)
  {
    x % Word(s, q)
  }

  /** Sums of words may be reduced at every step. */
  lemma SumOfWords(s: nat, q: nat, a: nat, b: nat)
    requires Sizes(s, q)
    ensures Reduced(s, q, Reduced(s, q, a) + b) == Reduced(s, q, a + b)
  {
    var w := Word(s, q);
    DivMod(a, w);
    SameMod(a % w + b, a / w, w);
  }

  class EarlyLossDetect {
    const s: nat
    const q: nat
    const entries: array<nat>
    var lastPktIdx: nat

    ghost predicate Valid()
      reads this
    {
      Sizes(s, q) && entries.Length == s && lastPktIdx < Word(s, q)
    }

    constructor (s: nat, q: nat)
      requires Sizes(s, q)
      ensures Valid() && this.s == s && this.q == q && fresh(entries)
    {
      this.s, this.q, lastPktIdx := s, q, 0;
      entries := new nat[s](_ => 0);
    }

    /** early_loss_detect_reset */
    method Reset()
      requires Valid()
      modifies entries
      ensures entries[..] == Table(s, q, [])
    {
      var i := 0;
      while i < s
        invariant i <= s && forall k :: 0 <= k < i ==> entries[k] == Never(s, q)
      {
        entries[i] := Never(s, q);
        i := i + 1;
      }
    }

    /** early_loss_detect_add */
    method Add(packetIndex: nat) returns (nLoss: nat)
      requires Valid() && packetIndex < Word(s, q)
      modifies `lastPktIdx, entries
      ensures Valid() && lastPktIdx == packetIndex
      ensures nLoss == AddLoss(s, q, old(entries[..]), packetIndex)
          && entries[..] == AddTo(s, old(entries[..]), packetIndex)
    {
      lastPktIdx := packetIndex;
      var queuePos := packetIndex % s;
      var oldQueueId := entries[queuePos];
      entries[queuePos] := packetIndex / s;
      if entries[queuePos] != oldQueueId {
        nLoss := Minus(s, q, Minus(s, q, entries[queuePos], oldQueueId), 1) % q;
      } else {
        nLoss := 0;
      }
    }

    /** The first loop of early_loss_detect_count_remaining_loss. */
    method CountAfter(queueId: nat, first: nat) returns (nLossTotal: nat)
      requires Valid() && first <= s
      ensures nLossTotal == Reduced(s, q, FirstSum(s, q, entries[..], queueId, first, s))
    {
      nLossTotal := 0;
      var i := first;
      while i < s
        invariant first <= i <= s && nLossTotal == Reduced(s, q, FirstSum(s, q, entries[..], queueId, first, i))
      {
        if Minus(s, q, queueId, entries[i]) != 0 {
          var nLoss := Minus(s, q, Minus(s, q, queueId, entries[i]), 1) % q;
          assert nLoss == FirstLoop(s, q, entries[i], queueId);
          SumOfWords(s, q, FirstSum(s, q, entries[..], queueId, first, i), nLoss);
          nLossTotal := Reduced(s, q, nLossTotal + nLoss);
        }
        i := i + 1;
      }
    }

    /** The second loop, which goes on counting. */
    method CountBefore(queueId: nat, end: nat, total: nat, ghost found: nat) returns (nLossTotal: nat)
      requires Valid() && end <= s && total == Reduced(s, q, found)
      ensures nLossTotal == Reduced(s, q, found + SecondSum(s, q, entries[..], queueId, end))
    {
      nLossTotal := total;
      var i := 0;
      while i < end
        invariant i <= end && nLossTotal == Reduced(s, q, found + SecondSum(s, q, entries[..], queueId, i))
      {
        if Minus(s, q, entries[i], queueId) != 1 {
          var nLoss := Minus(s, q, queueId, entries[i]) % q;
          assert nLoss == SecondLoop(s, q, entries[i], queueId);
          SumOfWords(s, q, found + SecondSum(s, q, entries[..], queueId, i), nLoss);
          nLossTotal := Reduced(s, q, nLossTotal + nLoss);
        }
        i := i + 1;
      }
    }

    /** early_loss_detect_count_remaining_loss */
    method CountRemainingLoss() returns (nLossTotal: nat)
      requires Valid()
      modifies entries
      ensures nLossTotal == Remaining(s, q, old(entries[..]), lastPktIdx)
      ensures entries[..] == old(entries[..])[Pos(s, lastPktIdx) := Never(s, q)]
    {
      var queueId, first, end := lastPktIdx / s, (lastPktIdx + 1) % s, lastPktIdx % s;
      nLossTotal := CountAfter(queueId, first);
      nLossTotal := CountBefore(queueId, end, nLossTotal, FirstSum(s, q, entries[..], queueId, first, s));
      entries[lastPktIdx % s] := Never(s, q);
    }

    /** A measurement: packets ids arrive after a reset, then the remaining losses are counted. All lost packets up to
        the last one received are counted once, exactly under the condition given. */
    method Measure(ids: seq<nat>) returns (losses: nat)
      requires Valid() && Increasing(s, q, ids) && ids != []
      modifies this`lastPktIdx, entries
      ensures losses == ids[|ids| - 1] + 1 - |ids| <==> CountsRight(s, q, ids)
    {
      Reset();
      losses := 0;
      for k := 0 to |ids|
        invariant Valid() && entries[..] == Table(s, q, ids[..k]) && losses == Eld.Found(s, q, ids[..k])
        invariant k > 0 ==> lastPktIdx == ids[k - 1]
      {
        assert ids[..k + 1][..k] == ids[..k];
        var n := Add(ids[k]);
        losses := losses + n;
      }
      assert ids[..|ids|] == ids;
      if Pos(s, ids[|ids| - 1]) != s - 1 {
        LossesConserved(s, q, ids);
      } else {
        LastPositionCountsTwice(s, q, ids);
      }
      var n := CountRemainingLoss();
      losses := losses + n;
    }
  }
}
