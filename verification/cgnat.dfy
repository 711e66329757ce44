/** The tables and port pools of the carrier-grade NAT, as values. */
module Cgnat {
  import opened Words
  import opened Wrappers

  datatype Endpoint = Endpoint(ip: u32, port: u16)

  /** A public address with its stack of free ports. It was configured with max ports. */
  datatype Pool = Pool(ip: u32, free: seq<u16>, max: nat)

  /** last is the pool used last for a new host; hosts gives the pool of each private address; out and back are the
      private and the public flow table. */
  datatype Nat = Nat(last: nat, pools: seq<Pool>, hosts: map<u32, nat>, out: map<Endpoint, Endpoint>,
                     back: map<Endpoint, Endpoint>)

  /** Which of the three hash insertions of one new flow find room. */
  datatype Room = Room(host: bool, out: bool, back: bool)

  // ---- ports and addresses ----

  /** The first pool in [i, end) that has a free port, or -1. */
  function Scan(pools: seq<Pool>, i: nat, end: nat): (r: int)
    requires i <= end <= |pools|
    ensures r == -1 || i <= r < end
    ensures r >= 0 ==> pools[r].free != [] && forall k :: i <= k < r ==> pools[k].free == []
    ensures r == -1 ==> forall k :: i <= k < end ==> pools[k].free == []
    decreases end - i
  {
    if i == end then -1 else if pools[i].free != [] then i else Scan(pools, i + 1, end)
  }

  /** Where the search for a new address starts: after the last one, cyclically. */
  function Begin(last: nat, n: nat): nat {
    if last + 1 >= n then 0 else last + 1
  }

  /** The next pool with a free port, or -1, and what becomes of last. */
  function Find(pools: seq<Pool>, last: nat): (nat, int) {
    var b := Begin(last, |pools|);
    if b >= |pools| then (b, -1)
    else
      var r := Scan(pools, b, |pools|);
      var r' := if r >= 0 then r else Scan(pools, 0, b);
      (if r' >= 0 then r' else b, r')
  }

  /** The search returns the pool with a free port that comes first when they are passed in a circle from the one after
      the last on; the last one itself comes last. Without a last one that exists, it is the lowest. It fails only when
      no pool has a free port. */
  lemma FindIsNearest(pools: seq<Pool>, last: nat)
    ensures var (l, r), n := Find(pools, last), |pools|;
            && -1 <= r < n && (r == -1 <==> forall k :: 0 <= k < n ==> pools[k].free == [])
            && (r == -1 ==> l == if last + 1 < n then last + 1 else 0)
            && (r >= 0 ==> l == r && pools[r].free != [])
            && (r >= 0 && last < n ==> forall k :: 0 <= k < n && pools[k].free != [] ==>
                  (if r > last then r - last - 1 else r - last - 1 + n)
                  <= (if k > last then k - last - 1 else k - last - 1 + n))
            && (r >= 0 && last >= n ==> forall k :: 0 <= k < n && pools[k].free != [] ==> r <= k)
            && (r == last ==> forall k :: 0 <= k < n && k != last ==> pools[k].free == [])
  {
  }

  /** Pop a port of pool i. */
  function Pop(pools: seq<Pool>, i: nat): seq<Pool>
    requires i < |pools| && pools[i].free != []
  {
    pools[i := pools[i].(free := pools[i].free[..|pools[i].free| - 1])]
  }

  /** The port that Pop takes. */
  function Top(pools: seq<Pool>, i: nat): u16
    requires i < |pools| && pools[i].free != []
  {
    pools[i].free[|pools[i].free| - 1]
  }

  /** Push a port back, unless the pool already has as many as it was configured with. */
  function Push(pools: seq<Pool>, i: nat, port: u16): seq<Pool>
    requires i < |pools|
  {
    if pools[i].max > |pools[i].free| then pools[i := pools[i].(free := pools[i].free + [port])] else pools
  }

  function NewIp(s: Nat): (Nat, int) {
    var (l, r) := Find(s.pools, s.last);
    (s.(last := l), r)
  }

  function TakePort(s: Nat, i: nat): Nat
    requires i < |s.pools| && s.pools[i].free != []
  {
    s.(pools := Pop(s.pools, i))
  }

  function ReleasePort(s: Nat, i: nat, port: u16): Nat
    requires i < |s.pools|
  {
    s.(pools := Push(s.pools, i, port))
  }

  // ---- adding a flow ----

  /** The new tables and the port reported to the caller; None when the flow could not be added. HostsOk, which every
      run keeps, excludes a pool number out of range. */
  function AddEntry(s: Nat, i: nat, p: Endpoint, room: Room): (Nat, Option<u16>) {
    if i >= |s.pools| || s.pools[i].free == [] then (s, None)
    else
      var port := Top(s.pools, i);
      var s1 := TakePort(s, i);
      var q := Endpoint(s.pools[i].ip, port);
      if p !in s.out && !room.out then (ReleasePort(s1, i, port), None)
      else if p in s.out then (ReleasePort(s1, i, port), Some(port))
      else
        var s2 := s1.(out := s1.out[p := q]);
        if q !in s.back && !room.back then (ReleasePort(s2, i, port), None)
        else (s2.(back := s2.back[q := p]), Some(port))
  }

  /** The pool of a private address: known before the burst, known by now, or new. None when there is none. */
  function HostPool(s: Nat, known: set<u32>, ip: u32, room: Room): (Nat, Option<nat>, bool) {
    if ip in known && ip in s.hosts then (s, Some(s.hosts[ip]), false)
    else
      var (s1, i) := NewIp(s);
      if i < 0 then (s1, None, false)
      else if ip in s.hosts then (s1, Some(s.hosts[ip]), false)
      else if !room.host then (s1, None, false)
      else (s1.(hosts := s1.hosts[ip := i]), Some(i), true)
  }

  /** Undo the step to a new address. */
  function StepBack(s: Nat): Nat {
    s.(last := if s.last != 0 then s.last - 1 else if |s.pools| == 0 then 0 else |s.pools| - 1)
  }

  ghost predicate HostsOk(s: Nat) {
    forall h :: h in s.hosts ==> s.hosts[h] < |s.pools|
  }

  /** A new flow of an address of pool i, which was entered for this packet when isNew holds. */
  function FlowIn(s: Nat, i: nat, isNew: bool, p: Endpoint, room: Room): (Nat, Option<Endpoint>)
    requires i < |s.pools|
  {
    var (s1, port) := AddEntry(s, i, p, room);
    if port.None? then (if isNew then StepBack(s1) else s1, None)
    else (s1, Some(Endpoint(s.pools[i].ip, port.value)))
  }

  /** Whether the host table has room plays no part once the pool is known. */
  lemma FlowIgnoresHostRoom(s: Nat, i: nat, isNew: bool, p: Endpoint, room: Room, host: bool)
    requires i < |s.pools|
    ensures FlowIn(s, i, isNew, p, room) == FlowIn(s, i, isNew, p, room.(host := host))
  {
  }

  /** One packet of a flow that was not in the table when its burst arrived. The result is its translated source,
      None when it is dropped. */
  function NewFlow(s: Nat, known: set<u32>, p: Endpoint, room: Room): (Nat, Option<Endpoint>) {
    var (s1, i, isNew) := HostPool(s, known, p.ip, room);
    if i.None? || i.value >= |s.pools| then (s1, None) else FlowIn(s1, i.value, isNew, p, room)
  }

  /** A packet seen by the private side: its source, or None when it is not IPv4. */
  type Packet = Option<Endpoint>

  /** The tables after the new flows among the first n packets were added. s is the state in which the burst arrived. */
  function AddedBy(s: Nat, pkts: seq<Packet>, rooms: seq<Room>, n: nat): Nat
    requires n <= |pkts| == |rooms|
  {
    if n == 0 then s
    else
      var r := AddedBy(s, pkts, rooms, n - 1);
      var p := pkts[n - 1];
      if p.Some? && p.value !in s.out then NewFlow(r, s.hosts.Keys, p.value, rooms[n - 1]).0 else r
  }

  function AfterBurst(s: Nat, pkts: seq<Packet>, rooms: seq<Room>): Nat
    requires |pkts| == |rooms|
  {
    AddedBy(s, pkts, rooms, |pkts|)
  }

  /** What becomes of packet j of the burst. */
  function Translated(s: Nat, pkts: seq<Packet>, rooms: seq<Room>, j: nat): Packet
    requires j < |pkts| == |rooms|
  {
    if pkts[j].None? then None
    else if pkts[j].value in s.out then Some(s.out[pkts[j].value])
    else NewFlow(AddedBy(s, pkts, rooms, j), s.hosts.Keys, pkts[j].value, rooms[j]).1
  }

  /** The room found for later packets does not matter to earlier ones. */
  lemma {:induction false} AddedByPrefix(s: Nat, pkts: seq<Packet>, rooms: seq<Room>, rooms': seq<Room>, n: nat)
    requires n <= |pkts| == |rooms| == |rooms'| && rooms[..n] == rooms'[..n]
    ensures AddedBy(s, pkts, rooms, n) == AddedBy(s, pkts, rooms', n)
  {
    if n > 0 {
      assert rooms[..n - 1] == rooms[..n][..n - 1] && rooms'[..n - 1] == rooms'[..n][..n - 1];
      AddedByPrefix(s, pkts, rooms, rooms', n - 1);
      assert rooms[n - 1] == rooms[..n][n - 1] == rooms'[..n][n - 1] == rooms'[n - 1];
    }
  }

  lemma TranslatedPrefix(s: Nat, pkts: seq<Packet>, rooms: seq<Room>, rooms': seq<Room>, j: nat)
    requires j < |pkts| == |rooms| == |rooms'| && rooms[..j + 1] == rooms'[..j + 1]
    ensures Translated(s, pkts, rooms, j) == Translated(s, pkts, rooms', j)
  {
    assert rooms[..j] == rooms[..j + 1][..j] && rooms'[..j] == rooms'[..j + 1][..j];
    assert rooms[j] == rooms[..j + 1][j] == rooms'[..j + 1][j] == rooms'[j];
    AddedByPrefix(s, pkts, rooms, rooms', j);
  }

  /** The public side: the private destination of a packet for q. */
  function Inbound(s: Nat, q: Endpoint): Option<Endpoint> {
    if q in s.back then Some(s.back[q]) else None
  }

  // ---- the invariant ----

  /** Whatever the public table maps a port to is a flow that is mapped to that port. */
  ghost predicate BackOk(out: map<Endpoint, Endpoint>, back: map<Endpoint, Endpoint>) {
    forall q {:trigger q in back} :: q in back ==> back[q] in out && out[back[q]] == q
  }

  ghost predicate Inverse(out: map<Endpoint, Endpoint>, back: map<Endpoint, Endpoint>) {
    && (forall p {:trigger p in out} :: p in out ==> out[p] in back && back[out[p]] == p)
    && BackOk(out, back)
  }

  /** A flow whose answers do not reach it. */
  ghost predicate Orphan(s: Nat, p: Endpoint) {
    p in s.out && !(s.out[p] in s.back && s.back[s.out[p]] == p)
  }

  /** A pool's configured ports are its free ports, each once, and its mapped ports. */
  ghost predicate PoolOk(pool: Pool, back: map<Endpoint, Endpoint>, ports: set<u16>) {
    && (forall j, k :: 0 <= j < k < |pool.free| ==> pool.free[j] != pool.free[k])
    && (forall x {:trigger x in ports} {:trigger x in pool.free} ::
          x in ports <==> x in pool.free || Endpoint(pool.ip, x) in back)
    && (forall x {:trigger x in pool.free} :: x in pool.free ==> Endpoint(pool.ip, x) !in back)
    && pool.max == |ports|
  }

  /** Every flow of a private address is translated to the address of its pool. */
  ghost predicate Paired(s: Nat) {
    forall p {:trigger p in s.out} :: p in s.out ==>
      p.ip in s.hosts && s.hosts[p.ip] < |s.pools| && s.out[p].ip == s.pools[s.hosts[p.ip]].ip
  }

  ghost predicate DistinctIps(pools: seq<Pool>) {
    forall i, j :: 0 <= i < j < |pools| ==> pools[i].ip != pools[j].ip
  }

  /** What every insertion keeps, even one that fails half-way. */
  ghost predicate Sound(s: Nat, ports: seq<set<u16>>) {
    && |ports| == |s.pools|
    && DistinctIps(s.pools)
    && HostsOk(s)
    && BackOk(s.out, s.back)
    && Paired(s)
    && forall i :: 0 <= i < |s.pools| ==> PoolOk(s.pools[i], s.back, ports[i])
  }

  ghost predicate Inv(s: Nat, ports: seq<set<u16>>) {
    Sound(s, ports) && Inverse(s.out, s.back)
  }

  /** A free list without repetitions is no longer than the set it is drawn from. */
  lemma {:induction false} DistinctFits(free: seq<u16>, ports: set<u16>)
    requires forall j, k :: 0 <= j < k < |free| ==> free[j] != free[k]
    requires forall x :: x in free ==> x in ports
    ensures |free| <= |ports|
  {
    if free != [] {
      var x := free[|free| - 1];
      DistinctFits(free[..|free| - 1], ports - {x});
    }
  }

  /** Taking a port leaves room to give it back. */
  lemma RoomAfterTake(s: Nat, ports: seq<set<u16>>, i: nat)
    requires Sound(s, ports) && i < |s.pools| && s.pools[i].free != []
    ensures s.pools[i].max > |TakePort(s, i).pools[i].free|
  {
    DistinctFits(s.pools[i].free, ports[i]);
  }

  /** Giving back a port just taken restores the tables. */
  lemma TakeAndRelease(s: Nat, ports: seq<set<u16>>, i: nat)
    requires Sound(s, ports) && i < |s.pools| && s.pools[i].free != []
    ensures ReleasePort(TakePort(s, i), i, Top(s.pools, i)) == s
  {
    RoomAfterTake(s, ports, i);
    var f := s.pools[i].free;
    assert f[..|f| - 1] + [f[|f| - 1]] == f;
    assert s.pools[i := s.pools[i]] == s.pools;
  }

  /** The state after a new flow with room in both tables. */
  ghost function Added(s: Nat, i: nat, p: Endpoint): Nat
    requires i < |s.pools| && s.pools[i].free != []
  {
    var q := Endpoint(s.pools[i].ip, Top(s.pools, i));
    TakePort(s, i).(out := s.out[p := q], back := s.back[q := p])
  }

  lemma PoolAfterAdd(s: Nat, ports: set<u16>, i: nat, p: Endpoint)
    requires i < |s.pools| && s.pools[i].free != [] && PoolOk(s.pools[i], s.back, ports)
    ensures PoolOk(Added(s, i, p).pools[i], Added(s, i, p).back, ports)
  {
    var f := s.pools[i].free;
    var f' := f[..|f| - 1];
    assert f == f' + [Top(s.pools, i)];
    var s' := Added(s, i, p);
    assert forall x :: x in f <==> x in f' || x == Top(s.pools, i);
    var ip := s.pools[i].ip;
    assert forall x :: Endpoint(ip, x) in s'.back <==> Endpoint(ip, x) in s.back || x == Top(s.pools, i);
  }

  lemma OtherPoolAfterAdd(s: Nat, ports: set<u16>, i: nat, p: Endpoint, k: nat)
    requires i < |s.pools| && k < |s.pools| && i != k && s.pools[i].free != [] && PoolOk(s.pools[k], s.back, ports)
    requires s.pools[i].ip != s.pools[k].ip
    ensures PoolOk(Added(s, i, p).pools[k], Added(s, i, p).back, ports)
  {
    var s' := Added(s, i, p);
    assert forall x :: Endpoint(s.pools[k].ip, x) in s'.back <==> Endpoint(s.pools[k].ip, x) in s.back;
  }

  lemma AddKeeps(s: Nat, ports: seq<set<u16>>, i: nat, p: Endpoint)
    requires Sound(s, ports) && i < |s.pools| && s.pools[i].free != []
    requires p !in s.out && p.ip in s.hosts && s.hosts[p.ip] == i
    ensures Endpoint(s.pools[i].ip, Top(s.pools, i)) !in s.back
    ensures Sound(Added(s, i, p), ports)
  {
    var q := Endpoint(s.pools[i].ip, Top(s.pools, i));
    assert PoolOk(s.pools[i], s.back, ports[i]) && Top(s.pools, i) in s.pools[i].free;
    var s' := Added(s, i, p);
    forall k | 0 <= k < |s.pools|
      ensures PoolOk(s'.pools[k], s'.back, ports[k])
    {
      if k == i {
        PoolAfterAdd(s, ports[i], i, p);
      } else {
        OtherPoolAfterAdd(s, ports[k], i, p, k);
      }
    }
    TablesAfterAdd(s.out, s.back, p, q);
  }

  lemma TablesAfterAdd(out: map<Endpoint, Endpoint>, back: map<Endpoint, Endpoint>, p: Endpoint, q: Endpoint)
    requires BackOk(out, back) && p !in out && q !in back
    ensures BackOk(out[p := q], back[q := p])
    ensures Inverse(out, back) ==> Inverse(out[p := q], back[q := p])
  {
  }

  /** The insertion stops between the two tables: only the private one has room for the new flow. */
  predicate HalfAdds(s: Nat, i: nat, p: Endpoint, room: Room) {
    i < |s.pools| && s.pools[i].free != [] && p !in s.out && room.out && !room.back
  }

  /** What an insertion comes to: a port that is not used after all goes back where it was. */
  lemma AddEntryIs(s: Nat, ports: seq<set<u16>>, i: nat, p: Endpoint, room: Room)
    requires Sound(s, ports) && i < |s.pools|
    ensures s.pools[i].free != [] ==> Endpoint(s.pools[i].ip, Top(s.pools, i)) !in s.back
    ensures AddEntry(s, i, p, room)
         == if s.pools[i].free == [] then (s, None)
            else if p in s.out then (s, Some(Top(s.pools, i)))
            else if !room.out then (s, None)
            else if !room.back then (s.(out := s.out[p := Endpoint(s.pools[i].ip, Top(s.pools, i))]), None)
            else (Added(s, i, p), Some(Top(s.pools, i)))
  {
    if s.pools[i].free != [] {
      TakeAndRelease(s, ports, i);
      assert PoolOk(s.pools[i], s.back, ports[i]) && Top(s.pools, i) in s.pools[i].free;
    }
  }

  lemma AddEntrySound(s: Nat, ports: seq<set<u16>>, i: nat, p: Endpoint, room: Room)
    requires Sound(s, ports) && i < |s.pools| && p.ip in s.hosts && s.hosts[p.ip] == i
    ensures Sound(AddEntry(s, i, p, room).0, ports)
  {
    hide AddEntry, Added;
    AddEntryIs(s, ports, i, p, room);
    if s.pools[i].free != [] && p !in s.out && room.out && room.back {
      AddKeeps(s, ports, i, p);
    }
  }

  /** Adding a flow keeps the tables inverse and the ports accounted for exactly when it does not fail between the
      two tables: a new flow that found room in the private table only leaves an entry behind that has no
      counterpart. */
  lemma AddEntryInv(s: Nat, ports: seq<set<u16>>, i: nat, p: Endpoint, room: Room)
    requires Inv(s, ports) && i < |s.pools| && p.ip in s.hosts && s.hosts[p.ip] == i
    ensures Inv(AddEntry(s, i, p, room).0, ports) <==> !HalfAdds(s, i, p, room)
  {
    hide Sound, AddEntry;
    AddEntrySound(s, ports, i, p, room);
    AddEntryIs(s, ports, i, p, room);
    if s.pools[i].free != [] && p !in s.out && room.out {
      var q := Endpoint(s.pools[i].ip, Top(s.pools, i));
      if room.back {
        TablesAfterAdd(s.out, s.back, p, q);
      } else {
        assert s.out[p := q][p] == q;
      }
    }
  }
}
