/** The port lists of the carrier-grade NAT as the program keeps them: per address a buffer and a count. */
module CgnatPools {
  import opened Cgnat
  import opened Words

  class PortPools {
    const publicIps: seq<u32>
    const maxPorts: seq<nat>
    var portFreeCount: seq<nat>
    var portList: seq<seq<u16>>
    var lastIp: nat

    ghost predicate Valid()
      reads this
    {
      && |portFreeCount| == |portList| == |maxPorts| == |publicIps|
      && forall i :: 0 <= i < |publicIps| ==> portFreeCount[i] <= maxPorts[i] == |portList[i]|
    }

    ghost function PoolAt(i: nat): Pool
      requires Valid() && i < |publicIps|
      reads this
    {
      Pool(publicIps[i], portList[i][..portFreeCount[i]], maxPorts[i])
    }

    ghost function Pools(): (r: seq<Pool>)
      requires Valid()
      reads this
      ensures |r| == |publicIps| && forall i :: 0 <= i < |r| ==> r[i] == PoolAt(i)
    {
      seq(|publicIps|, i requires 0 <= i < |publicIps| && Valid() reads this => PoolAt(i))
    }

    /** Every address starts with all the ports it is configured with. */
    constructor (ips: seq<u32>, ports: seq<seq<u16>>)
      requires |ips| == |ports|
      ensures Valid() && publicIps == ips && lastIp == |ips|
      ensures forall i :: 0 <= i < |ips| ==> PoolAt(i) == Pool(ips[i], ports[i], |ports[i]|)
    {
      publicIps := ips;
      portList := ports;
      portFreeCount := seq(|ips|, i requires 0 <= i < |ips| && |ips| == |ports| => |ports[i]|);
      maxPorts := seq(|ips|, i requires 0 <= i < |ips| && |ips| == |ports| => |ports[i]|);
      lastIp := |ips|;
    }

    method ReleasePort(i: nat, port: u16) returns (ok: bool)
      requires Valid() && i < |publicIps|
      modifies `portFreeCount, `portList
      ensures Valid() && Pools() == Push(old(Pools()), i, port)
      ensures ok == (maxPorts[i] > old(portFreeCount[i]))
    {
      ok := maxPorts[i] > portFreeCount[i];
      if ok {
        var n := portFreeCount[i];
        var row: seq<u16> := portList[i][..n] + [port] + portList[i][n + 1..];
        portList := portList[i := row];
        portFreeCount := portFreeCount[i := n + 1];
        assert row[..n + 1] == old(portList[i][..n]) + [port];
      }
    }

    method GetNewPort(i: nat) returns (ok: bool, port: u16)
      requires Valid() && i < |publicIps|
      modifies `portFreeCount
      ensures Valid() && ok == (old(Pools())[i].free != [])
      ensures ok ==> port == Top(old(Pools()), i) && Pools() == Pop(old(Pools()), i)
      ensures !ok ==> Pools() == old(Pools())
    {
      ok, port := portFreeCount[i] > 0, 0;
      if ok {
        var n := portFreeCount[i] - 1;
        portFreeCount := portFreeCount[i := n];
        port := portList[i][n];
        assert portList[i][..n] == old(portList[i][..n + 1])[..n];
      }
    }

    /** One of the two loops of get_new_ip. */
    method FirstFree(beg: nat, end: nat) returns (r: int)
      requires Valid() && beg <= end <= |publicIps|
      ensures r == Scan(Pools(), beg, end)
    {
      var i := beg;
      while i < end
        invariant beg <= i <= end
        invariant Scan(Pools(), beg, end) == Scan(Pools(), i, end)
      {
        if portFreeCount[i] > 0 {
          assert Pools()[i].free != [];
          return i;
        }
        assert Pools()[i].free == [];
        i := i + 1;
      }
      return -1;
    }

    method GetNewIp() returns (r: int)
      requires Valid()
      modifies `lastIp
      ensures Valid() && Pools() == old(Pools())
      ensures (lastIp, r) == Find(Pools(), old(lastIp))
    {
      ghost var pools := Pools();
      var next := lastIp + 1;
      if next >= |publicIps| {
        next := 0;
      }
      assert next == Begin(lastIp, |pools|);
      r := -1;
      if next < |publicIps| {
        r := FirstFree(next, |publicIps|);
        if r < 0 {
          r := FirstFree(0, next);
        }
      }
      assert Find(pools, lastIp).1 == r;
      lastIp := if r >= 0 then r else next;
      assert Pools() == pools;
    }

    /** Undo the step to a new address. */
    method StepBack()
      requires Valid()
      modifies `lastIp
      ensures Valid() && Pools() == old(Pools())
      ensures lastIp == if old(lastIp) != 0 then old(lastIp) - 1 else if |publicIps| == 0 then 0 else |publicIps| - 1
    {
      if lastIp != 0 {
        lastIp := lastIp - 1;
      } else if |publicIps| > 0 {
        lastIp := |publicIps| - 1;
      }
      assert Pools() == old(Pools());
    }
  }
}
