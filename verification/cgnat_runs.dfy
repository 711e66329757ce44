/** What the carrier-grade NAT guarantees over every run. */
module CgnatRuns {
  import opened Cgnat
  import opened Words
  import opened Wrappers

  /** Mappings of s are kept by s', and what answers reach. */
  ghost predicate Keeps(s: Nat, s': Nat) {
    && (forall p :: p in s.out ==> p in s'.out && s'.out[p] == s.out[p] && (Orphan(s', p) <==> Orphan(s, p)))
    && (forall h :: h in s.hosts ==> h in s'.hosts && s'.hosts[h] == s.hosts[h])
    && |s'.pools| == |s.pools|
    && forall i :: 0 <= i < |s.pools| ==> s'.pools[i].ip == s.pools[i].ip
  }

  lemma KeepsTransitive(s: Nat, s1: Nat, s2: Nat)
    requires Keeps(s, s1) && Keeps(s1, s2)
    ensures Keeps(s, s2)
  {
  }

  lemma KeepsSelf(s: Nat)
    ensures Keeps(s, s)
  {
  }

  // ---- one packet ----

  lemma HostPoolOk(s: Nat, ports: seq<set<u16>>, known: set<u32>, ip: u32, room: Room)
    requires Sound(s, ports)
    ensures var (s', i, isNew) := HostPool(s, known, ip, room);
            && Sound(s', ports) && Keeps(s, s') && s'.out == s.out && s'.back == s.back
            && (i.Some? ==> ip in s'.hosts && s'.hosts[ip] == i.value < |s'.pools|)
  {
    if !(ip in known && ip in s.hosts) {
      FindIsNearest(s.pools, s.last);
      var (s1, i) := NewIp(s);
      LastOk(s, ports, s1.last);
      if i >= 0 && ip !in s.hosts {
        NewHostOk(s, ports, s1.last, ip, i);
      }
    }
  }

  lemma LastOk(s: Nat, ports: seq<set<u16>>, last: nat)
    requires Sound(s, ports)
    ensures Sound(s.(last := last), ports) && Keeps(s, s.(last := last))
  {
  }

  /** A private address gets a pool. */
  lemma NewHostOk(s: Nat, ports: seq<set<u16>>, last: nat, ip: u32, i: nat)
    requires Sound(s, ports) && ip !in s.hosts && i < |s.pools|
    ensures var s' := s.(last := last, hosts := s.hosts[ip := i]); Sound(s', ports) && Keeps(s, s')
  {
  }

  /** What a packet of flow p leaves behind that was not in the private table when its burst arrived; half when its
      insertion stops between the two tables. */
  ghost predicate FlowOk(s: Nat, ports: seq<set<u16>>, p: Endpoint, half: bool, s': Nat, q: Option<Endpoint>) {
    && Sound(s', ports) && Keeps(s, s')
    && (forall x :: x in s'.out && x != p ==> x in s.out)
    && (p in s'.out <==> p in s.out || q.Some? || half)
    && (forall x :: Orphan(s', x) <==> Orphan(s, x) || (half && x == p)) && (half ==> p !in s.out && q.None?)
    && (q.Some? ==>
          && p.ip in s'.hosts && s'.hosts[p.ip] < |s'.pools| && q.value.ip == s'.pools[s'.hosts[p.ip]].ip
          && if p in s.out then q.value !in s'.back else q.value == s'.out[p])
  }

  /** Entering a flow in the private table alone makes an orphan of it, and of no other. */
  lemma OrphansAfterAdd(s: Nat, s': Nat, p: Endpoint, q: Endpoint, out: bool, back: bool)
    requires out ==> q !in s.back && p !in s.out
    requires s'.out == if out then s.out[p := q] else s.out
    requires s'.back == if out && back then s.back[q := p] else s.back
    ensures forall x :: Orphan(s', x) <==> Orphan(s, x) || (out && !back && x == p)
  {
  }

  lemma AddEntryKeeps(s: Nat, ports: seq<set<u16>>, i: nat, p: Endpoint, room: Room)
    requires Sound(s, ports) && i < |s.pools| && p.ip in s.hosts && s.hosts[p.ip] == i
    ensures Keeps(s, AddEntry(s, i, p, room).0)
  {
    hide Sound, AddEntry, Orphan;
    AddEntryIs(s, ports, i, p, room);
    EntryOrphans(s, ports, i, p, room);
  }

  lemma EntryOrphans(s: Nat, ports: seq<set<u16>>, i: nat, p: Endpoint, room: Room)
    requires Sound(s, ports) && i < |s.pools|
    ensures forall x :: Orphan(AddEntry(s, i, p, room).0, x) <==> Orphan(s, x) || (HalfAdds(s, i, p, room) && x == p)
  {
    hide Sound, AddEntry, Orphan;
    AddEntryIs(s, ports, i, p, room);
    var found := s.pools[i].free != [];
    var q := if found then Endpoint(s.pools[i].ip, Top(s.pools, i)) else p;
    OrphansAfterAdd(s, AddEntry(s, i, p, room).0, p, q, found && p !in s.out && room.out, room.back);
  }

  lemma StepBackOk(s: Nat, s1: Nat, ports: seq<set<u16>>)
    requires Sound(s1, ports) && Keeps(s, s1)
    ensures Sound(StepBack(s1), ports) && Keeps(s, StepBack(s1))
    ensures forall x :: Orphan(StepBack(s1), x) <==> Orphan(s1, x)
  {
  }

  lemma WithPool(s: Nat, ports: seq<set<u16>>, i: nat, isNew: bool, p: Endpoint, room: Room)
    requires Sound(s, ports) && i < |s.pools| && p.ip in s.hosts && s.hosts[p.ip] == i
    ensures var (s', q) := FlowIn(s, i, isNew, p, room); FlowOk(s, ports, p, HalfAdds(s, i, p, room), s', q)
  {
    hide Sound, AddEntry, Orphan, Keeps;
    AddEntryIs(s, ports, i, p, room);
    AddEntrySound(s, ports, i, p, room);
    AddEntryKeeps(s, ports, i, p, room);
    StepBackOk(s, AddEntry(s, i, p, room).0, ports);
    EntryOrphans(s, ports, i, p, room);
  }

  /** The packet is dropped, and its flow stays in the private table alone. */
  predicate HalfFlow(s: Nat, known: set<u32>, p: Endpoint, room: Room) {
    var (s1, i, isNew) := HostPool(s, known, p.ip, room);
    i.Some? && HalfAdds(s1, i.value, p, room)
  }

  /** A packet of a new flow keeps every mapping, and everything else that is promised but for the orphan that half an
      insertion leaves. Its source becomes the mapped one when its flow is not in the table by then; a repeated packet
      of the flow in the same burst gets a free port instead, whose answers go nowhere. */
  lemma NewFlowOk(s: Nat, ports: seq<set<u16>>, known: set<u32>, p: Endpoint, room: Room)
    requires Sound(s, ports)
    ensures var (s', q) := NewFlow(s, known, p, room); FlowOk(s, ports, p, HalfFlow(s, known, p, room), s', q)
  {
    hide Sound, Keeps, HostPool, FlowIn, HalfAdds;
    HostPoolOk(s, ports, known, p.ip, room);
    var (s1, i, isNew) := HostPool(s, known, p.ip, room);
    if i.Some? {
      WithPool(s1, ports, i.value, isNew, p, room);
      KeepsTransitive(s, s1, FlowIn(s1, i.value, isNew, p, room).0);
    }
  }

  /** The first packet of a new host, when some address has a free port: the host gets the address found. When the flow
      cannot be added the step is undone, but the host stays. */
  lemma NewHostIs(s: Nat, ports: seq<set<u16>>, known: set<u32>, p: Endpoint, room: Room)
    requires Sound(s, ports) && p.ip !in s.hosts && room.host
    requires exists i :: 0 <= i < |s.pools| && s.pools[i].free != []
    ensures var (s', q), i, n := NewFlow(s, known, p, room), Find(s.pools, s.last).1, |s.pools|;
            && 0 <= i < n && s'.hosts == s.hosts[p.ip := i] && |s'.pools| == n
            && (forall k :: 0 <= k < n ==> s'.pools[k].ip == s.pools[k].ip)
            && (forall k :: 0 <= k < n && k != i ==> s'.pools[k] == s.pools[k])
            && (q.Some? <==> room.out && room.back)
            && if q.Some? then s'.last == i && q.value.ip == s.pools[i].ip
               else s'.pools == s.pools && s'.last == if i == 0 then n - 1 else i - 1
  {
    hide Sound, AddEntry, Find;
    FindIsNearest(s.pools, s.last);
    NotMapped(s, ports, p);
    HostPoolOk(s, ports, known, p.ip, room);
    var (s1, i, isNew) := HostPool(s, known, p.ip, room);
    AddEntryIs(s1, ports, i.value, p, room);
  }

  lemma NotMapped(s: Nat, ports: seq<set<u16>>, p: Endpoint)
    requires Sound(s, ports) && p.ip !in s.hosts
    ensures p !in s.out
  {}

  /** Two new private addresses, one after the other, while every public address has a free port: they get different
      public addresses exactly when the first one's packet was let through. Otherwise they share one. */
  lemma NewHostsSpread(s: Nat, ports: seq<set<u16>>, known1: set<u32>, p1: Endpoint, room1: Room, known2: set<u32>,
        p2: Endpoint, room2: Room)
    requires Sound(s, ports) && p1.ip !in s.hosts && p2.ip !in s.hosts && p1.ip != p2.ip && room1.host && room2.host
    requires |s.pools| >= 2 && forall i :: 0 <= i < |s.pools| ==> s.pools[i].free != []
    ensures var (s1, q1) := NewFlow(s, known1, p1, room1);
            var (s2, q2) := NewFlow(s1, known2, p2, room2);
            && p1.ip in s2.hosts && p2.ip in s2.hosts && s2.hosts[p1.ip] < |s2.pools| && s2.hosts[p2.ip] < |s2.pools|
            && (s2.pools[s2.hosts[p1.ip]].ip != s2.pools[s2.hosts[p2.ip]].ip <==> q1.Some?)
            && (q1.Some? <==> room1.out && room1.back) && (q2.Some? <==> room2.out && room2.back)
            && (q1.Some? && q2.Some? ==> q1.value.ip != q2.value.ip)
  {
    hide NewFlow, Find, FlowOk;
    assert s.pools[0].free != [];
    NewHostIs(s, ports, known1, p1, room1);
    NewFlowOk(s, ports, known1, p1, room1);
    var (s1, q1) := NewFlow(s, known1, p1, room1);
    SoundAfter(s, ports, p1, HalfFlow(s, known1, p1, room1), s1, q1);
    var i := Find(s.pools, s.last).1;
    assert s1.pools[if i == 0 then 1 else 0].free != [];
    NewHostIs(s1, ports, known2, p2, room2);
    FindIsNearest(s1.pools, s1.last);
  }

  lemma SoundAfter(s: Nat, ports: seq<set<u16>>, p: Endpoint, half: bool, s': Nat, q: Option<Endpoint>)
    requires FlowOk(s, ports, p, half, s', q)
    ensures Sound(s', ports)
  {}

  /** A further new flow of a host that was itself new in this burst: the host keeps its address, but the search has
      moved on, past an address that no host gets. */
  lemma SkipsAddress(s: Nat, ports: seq<set<u16>>, known: set<u32>, p: Endpoint, room: Room)
    requires Sound(s, ports) && p.ip in s.hosts && p.ip !in known && p !in s.out && room.out && room.back
    requires forall i :: 0 <= i < |s.pools| ==> s.pools[i].free != []
    ensures var (s', q), i, n := NewFlow(s, known, p, room), s.hosts[p.ip], |s.pools|;
            && i < n && s'.last == (if s.last + 1 < n then s.last + 1 else 0) && s'.hosts == s.hosts && |s'.pools| == n
            && q.Some? && q.value.ip == s.pools[i].ip && s'.pools[i].free + [q.value.port] == s.pools[i].free
            && s'.out == s.out[p := q.value] && s'.back == s.back[q.value := p]
  {
    hide Sound, AddEntry, Find;
    FindIsNearest(s.pools, s.last);
    HostInRange(s, ports, p.ip);
    var next := if s.last + 1 < |s.pools| then s.last + 1 else 0;
    assert s.pools[s.hosts[p.ip]].free != [] && s.pools[next].free != [];
    HostPoolOk(s, ports, known, p.ip, room);
    var (s1, i, isNew) := HostPool(s, known, p.ip, room);
    AddEntryIs(s1, ports, i.value, p, room);
    var free := s.pools[i.value].free;
    assert free == free[..|free| - 1] + [free[|free| - 1]];
  }

  lemma HostInRange(s: Nat, ports: seq<set<u16>>, ip: u32)
    requires Sound(s, ports) && ip in s.hosts
    ensures s.hosts[ip] < |s.pools|
  {}

  // ---- one burst ----

  /** Packet k of a burst is of a new flow, and half of its insertion fails. */
  predicate HalfAt(s: Nat, pkts: seq<Packet>, rooms: seq<Room>, k: nat)
    requires k < |pkts| == |rooms|
  {
    && pkts[k].Some? && pkts[k].value !in s.out
    && HalfFlow(AddedBy(s, pkts, rooms, k), s.hosts.Keys, pkts[k].value, rooms[k])
  }

  /** Of flow p, among the first n packets of a burst. */
  ghost predicate HalfBefore(s: Nat, pkts: seq<Packet>, rooms: seq<Room>, n: nat, p: Endpoint)
    requires n <= |pkts| == |rooms|
  {
    exists k :: 0 <= k < n && pkts[k] == Some(p) && HalfAt(s, pkts, rooms, k)
  }

  /** A packet of flow p is among the first n of a burst, and was let through. */
  ghost predicate SentBefore(s: Nat, pkts: seq<Packet>, rooms: seq<Room>, n: nat, p: Endpoint)
    requires n <= |pkts| == |rooms|
  {
    exists k :: 0 <= k < n && pkts[k] == Some(p) && Translated(s, pkts, rooms, k).Some?
  }

  lemma BeforeStep(s: Nat, pkts: seq<Packet>, rooms: seq<Room>, n: nat, p: Endpoint)
    requires n < |pkts| == |rooms|
    ensures SentBefore(s, pkts, rooms, n + 1, p)
        <==> SentBefore(s, pkts, rooms, n, p) || (pkts[n] == Some(p) && Translated(s, pkts, rooms, n).Some?)
    ensures HalfBefore(s, pkts, rooms, n + 1, p)
        <==> HalfBefore(s, pkts, rooms, n, p) || (pkts[n] == Some(p) && HalfAt(s, pkts, rooms, n))
  {
    hide Translated, HalfAt;
  }

  /** What packet n of a burst does to the tables. */
  ghost predicate PacketOk(s: Nat, ports: seq<set<u16>>, pkts: seq<Packet>, rooms: seq<Room>, n: nat)
    requires n < |pkts| == |rooms|
  {
    var r, r', p := AddedBy(s, pkts, rooms, n), AddedBy(s, pkts, rooms, n + 1), pkts[n];
    if p.Some? && p.value !in s.out
    then FlowOk(r, ports, p.value, HalfAt(s, pkts, rooms, n), r', Translated(s, pkts, rooms, n))
    else r' == r
  }

  lemma OnePacket(s: Nat, ports: seq<set<u16>>, pkts: seq<Packet>, rooms: seq<Room>, n: nat)
    requires n < |pkts| == |rooms| && Sound(AddedBy(s, pkts, rooms, n), ports)
    ensures PacketOk(s, ports, pkts, rooms, n)
  {
    hide Sound, FlowOk, NewFlow, HalfFlow;
    var p := pkts[n];
    if p.Some? && p.value !in s.out {
      NewFlowOk(AddedBy(s, pkts, rooms, n), ports, s.hosts.Keys, p.value, rooms[n]);
    }
  }

  lemma {:induction false} AddedBySound(s: Nat, ports: seq<set<u16>>, pkts: seq<Packet>, rooms: seq<Room>, n: nat)
    requires Sound(s, ports) && n <= |pkts| == |rooms|
    ensures Sound(AddedBy(s, pkts, rooms, n), ports)
  {
    hide Sound, Keeps, NewFlow, Orphan;
    if n > 0 {
      AddedBySound(s, ports, pkts, rooms, n - 1);
      OnePacket(s, ports, pkts, rooms, n - 1);
    }
  }

  /** Later packets of a burst keep what earlier ones added. */
  lemma {:induction false} AddedByKeeps(s: Nat, ports: seq<set<u16>>, pkts: seq<Packet>, rooms: seq<Room>, m: nat,
        n: nat)
    requires Sound(s, ports) && m <= n <= |pkts| == |rooms|
    ensures Keeps(AddedBy(s, pkts, rooms, m), AddedBy(s, pkts, rooms, n))
  {
    hide Sound, NewFlow, Orphan, AddedBy, Keeps;
    if m == n {
      KeepsSelf(AddedBy(s, pkts, rooms, m));
    } else {
      AddedByKeeps(s, ports, pkts, rooms, m, n - 1);
      AddedBySound(s, ports, pkts, rooms, n - 1);
      OnePacket(s, ports, pkts, rooms, n - 1);
      KeepsSelf(AddedBy(s, pkts, rooms, n - 1));
      KeepsTransitive(AddedBy(s, pkts, rooms, m), AddedBy(s, pkts, rooms, n - 1), AddedBy(s, pkts, rooms, n));
    }
  }

  lemma BurstKeeps(s: Nat, ports: seq<set<u16>>, pkts: seq<Packet>, rooms: seq<Room>)
    requires Sound(s, ports) && |pkts| == |rooms|
    ensures Keeps(s, AfterBurst(s, pkts, rooms))
  {
    hide Sound, Keeps;
    AddedByKeeps(s, ports, pkts, rooms, 0, |pkts|);
  }

  /** A new flow is in the table exactly when an earlier packet of it was let through, or half entered. */
  lemma {:induction false} InTableWhenSent(s: Nat, ports: seq<set<u16>>, pkts: seq<Packet>, rooms: seq<Room>, n: nat,
        p: Endpoint)
    requires Sound(s, ports) && n <= |pkts| == |rooms| && p !in s.out
    ensures p in AddedBy(s, pkts, rooms, n).out
        <==> SentBefore(s, pkts, rooms, n, p) || HalfBefore(s, pkts, rooms, n, p)
  {
    hide SentBefore, HalfBefore, Sound, Translated, HalfAt, NewFlow, Orphan;
    if n == 0 {
      NothingBefore(s, pkts, rooms, p);
    } else {
      InTableWhenSent(s, ports, pkts, rooms, n - 1, p);
      AddedBySound(s, ports, pkts, rooms, n - 1);
      OnePacket(s, ports, pkts, rooms, n - 1);
      BeforeStep(s, pkts, rooms, n - 1, p);
    }
  }

  lemma NothingBefore(s: Nat, pkts: seq<Packet>, rooms: seq<Room>, p: Endpoint)
    requires |pkts| == |rooms|
    ensures !SentBefore(s, pkts, rooms, 0, p) && !HalfBefore(s, pkts, rooms, 0, p)
  {}

  /** A burst makes orphans of exactly the flows of which half was entered. */
  lemma {:induction false} OrphansAfter(s: Nat, ports: seq<set<u16>>, pkts: seq<Packet>, rooms: seq<Room>, n: nat,
        p: Endpoint)
    requires Sound(s, ports) && n <= |pkts| == |rooms|
    ensures Orphan(AddedBy(s, pkts, rooms, n), p) <==> Orphan(s, p) || HalfBefore(s, pkts, rooms, n, p)
  {
    hide SentBefore, HalfBefore, Sound, Translated, NewFlow, Keeps, Orphan, HalfFlow;
    if n == 0 {
      NothingBefore(s, pkts, rooms, p);
    } else {
      OrphansAfter(s, ports, pkts, rooms, n - 1, p);
      AddedBySound(s, ports, pkts, rooms, n - 1);
      OnePacket(s, ports, pkts, rooms, n - 1);
      BeforeStep(s, pkts, rooms, n - 1, p);
    }
  }

  /** Packet j of a burst is let through. */
  ghost predicate LetThrough(s: Nat, pkts: seq<Packet>, rooms: seq<Room>, j: nat)
    requires |pkts| == |rooms|
  {
    j < |pkts| && Translated(s, pkts, rooms, j).Some?
  }

  /** Flow p is new, and no earlier packet of the burst has entered it, in one table or both. */
  ghost predicate FirstOfFlow(s: Nat, pkts: seq<Packet>, rooms: seq<Room>, j: nat, p: Endpoint)
    requires j <= |pkts| == |rooms|
  {
    p !in s.out && !SentBefore(s, pkts, rooms, j, p) && !HalfBefore(s, pkts, rooms, j, p)
  }

  /** Every packet a burst lets through leaves with the public address of its private address. It leaves with the
      mapped port exactly when its flow was in the table before the burst, or no earlier packet of its flow in the
      burst was let through; unless one of them was half entered, which leaves the port free. */
  lemma TranslatesRight(s: Nat, ports: seq<set<u16>>, pkts: seq<Packet>, rooms: seq<Room>, j: nat)
    requires Sound(s, ports) && |pkts| == |rooms| && LetThrough(s, pkts, rooms, j)
    ensures var p, q := pkts[j].value, Translated(s, pkts, rooms, j).value;
            var s' := AfterBurst(s, pkts, rooms);
            && p in s'.out && p.ip in s'.hosts && s'.hosts[p.ip] < |s'.pools|
            && q.ip == s'.out[p].ip == s'.pools[s'.hosts[p.ip]].ip
            && (!HalfBefore(s, pkts, rooms, j, p) ==>
                  (q == s'.out[p] <==> p in s.out || !SentBefore(s, pkts, rooms, j, p)))
  {
    var p := pkts[j].value;
    AddedBySound(s, ports, pkts, rooms, j);
    AddedBySound(s, ports, pkts, rooms, |pkts|);
    AddedByKeeps(s, ports, pkts, rooms, j + 1, |pkts|);
    AddedByKeeps(s, ports, pkts, rooms, 0, |pkts|);
    OnePacket(s, ports, pkts, rooms, j);
    if p !in s.out {
      InTableWhenSent(s, ports, pkts, rooms, j, p);
      OrphansAfter(s, ports, pkts, rooms, j, p);
    }
  }

  /** Answers to p's packets reach it. */
  ghost predicate Reached(s: Nat, p: Endpoint) {
    p in s.out && !Orphan(s, p)
  }

  /** The answer to packet j of a burst, in any state t to come: it reaches the sender exactly when answers to its flow
      did before the burst, or when its flow is new and no earlier packet of the burst has entered it. */
  lemma AnswerReaches(s: Nat, ports: seq<set<u16>>, pkts: seq<Packet>, rooms: seq<Room>, j: nat, t: Nat)
    requires Sound(s, ports) && |pkts| == |rooms| && LetThrough(s, pkts, rooms, j)
    requires Sound(t, ports) && Keeps(AddedBy(s, pkts, rooms, j + 1), t)
    ensures var p := pkts[j].value;
            Inbound(t, Translated(s, pkts, rooms, j).value) == Some(p)
            <==> Reached(s, p) || FirstOfFlow(s, pkts, rooms, j, p)
  {
    var p := pkts[j].value;
    AddedBySound(s, ports, pkts, rooms, j);
    AddedByKeeps(s, ports, pkts, rooms, 0, j);
    OnePacket(s, ports, pkts, rooms, j);
    if p !in s.out {
      InTableWhenSent(s, ports, pkts, rooms, j, p);
    }
  }

  // ---- runs ----

  /** A burst on the private side. The public side changes nothing. */
  datatype Burst = Burst(pkts: seq<Packet>, rooms: seq<Room>)

  ghost predicate BurstsOk(bursts: seq<Burst>) {
    forall b :: b in bursts ==> |b.pkts| == |b.rooms|
  }

  /** A pool as configured: all its ports free, each once. */
  ghost predicate Configured(pool: Pool) {
    && pool.max == |pool.free|
    && forall j, k :: 0 <= j < k < |pool.free| ==> pool.free[j] != pool.free[k]
  }

  ghost predicate ConfigOk(pools: seq<Pool>) {
    DistinctIps(pools) && forall i :: 0 <= i < |pools| ==> Configured(pools[i])
  }

  function PortSet(free: seq<u16>): set<u16> {
    set x | x in free
  }

  function PortSets(pools: seq<Pool>): seq<set<u16>> {
    seq(|pools|, i requires 0 <= i < |pools| => PortSet(pools[i].free))
  }

  function Start(pools: seq<Pool>): Nat {
    Nat(|pools|, pools, map[], map[], map[])
  }

  lemma {:induction false} PortSetSize(free: seq<u16>)
    requires forall j, k :: 0 <= j < k < |free| ==> free[j] != free[k]
    ensures |PortSet(free)| == |free|
  {
    if free != [] {
      var n := |free| - 1;
      PortSetSize(free[..n]);
      assert free == free[..n] + [free[n]];
      assert PortSet(free) == PortSet(free[..n]) + {free[n]};
    }
  }

  lemma StartOk(pools: seq<Pool>)
    requires ConfigOk(pools)
    ensures Sound(Start(pools), PortSets(pools))
  {
    forall i | 0 <= i < |pools|
      ensures PoolOk(pools[i], map[], PortSets(pools)[i])
    {
      assert Configured(pools[i]);
      PortSetSize(pools[i].free);
    }
  }

  /** Burst n leads from state n to state n + 1. */
  ghost predicate BurstAt(states: seq<Nat>, bursts: seq<Burst>, n: nat)
    requires n < |bursts| && |states| == |bursts| + 1 && BurstsOk(bursts)
  {
    states[n + 1] == AfterBurst(states[n], bursts[n].pkts, bursts[n].rooms)
  }

  /** The states of a run of bursts from the configured pools, whatever room the insertions find. */
  ghost predicate IsRun(pools: seq<Pool>, states: seq<Nat>, bursts: seq<Burst>) {
    && ConfigOk(pools) && BurstsOk(bursts)
    && |states| == |bursts| + 1 && states[0] == Start(pools)
    && forall n: nat {:trigger BurstAt(states, bursts, n)} :: n < |bursts| ==> BurstAt(states, bursts, n)
  }

  lemma BurstIs(pools: seq<Pool>, states: seq<Nat>, bursts: seq<Burst>, m: nat)
    requires IsRun(pools, states, bursts) && m < |bursts|
    ensures |states| == |bursts| + 1 && |bursts[m].pkts| == |bursts[m].rooms|
    ensures states[m + 1] == AfterBurst(states[m], bursts[m].pkts, bursts[m].rooms)
  {
    hide AfterBurst, ConfigOk;
    assert BurstAt(states, bursts, m);
  }

  /** In every run each address keeps its configured ports, free or mapped, all flows of a private address share one
      public address, and an answer is passed on to no flow but its own. */
  lemma {:induction false} RunSound(pools: seq<Pool>, states: seq<Nat>, bursts: seq<Burst>, n: nat)
    requires IsRun(pools, states, bursts) && n <= |bursts|
    ensures Sound(states[n], PortSets(pools))
  {
    hide Sound, PortSets, AddedBy, ConfigOk, Start;
    if n == 0 {
      StartOk(pools);
    } else {
      RunSound(pools, states, bursts, n - 1);
      BurstIs(pools, states, bursts, n - 1);
      var b := bursts[n - 1];
      AddedBySound(states[n - 1], PortSets(pools), b.pkts, b.rooms, |b.pkts|);
    }
  }

  /** In every run a mapping, once made, stays, and so does whether answers reach it. */
  lemma {:induction false} MappingsStay(pools: seq<Pool>, states: seq<Nat>, bursts: seq<Burst>, m: nat, n: nat)
    requires IsRun(pools, states, bursts) && m <= n <= |bursts|
    ensures Keeps(states[m], states[n])
  {
    hide Sound, PortSets, Keeps, AddedBy, ConfigOk, Start;
    if m == n {
      KeepsSelf(states[m]);
    } else {
      MappingsStay(pools, states, bursts, m, n - 1);
      RunSound(pools, states, bursts, n - 1);
      BurstIs(pools, states, bursts, n - 1);
      var b := bursts[n - 1];
      BurstKeeps(states[n - 1], PortSets(pools), b.pkts, b.rooms);
      KeepsTransitive(states[m], states[n - 1], states[n]);
    }
  }

  /** Half of an insertion for flow p fails in burst m. */
  ghost predicate HalfIn(states: seq<Nat>, bursts: seq<Burst>, m: nat, p: Endpoint)
    requires m < |bursts| < |states| && BurstsOk(bursts)
  {
    HalfBefore(states[m], bursts[m].pkts, bursts[m].rooms, |bursts[m].pkts|, p)
  }

  lemma NoOrphanYet(pools: seq<Pool>, p: Endpoint)
    ensures !Orphan(Start(pools), p)
  {}

  /** In every run answers fail to reach exactly the flows of which an insertion has failed half-way. */
  lemma {:induction false} OrphansInRun(pools: seq<Pool>, states: seq<Nat>, bursts: seq<Burst>, n: nat, p: Endpoint)
    requires IsRun(pools, states, bursts) && n <= |bursts|
    ensures Orphan(states[n], p) <==> exists m :: 0 <= m < n && HalfIn(states, bursts, m, p)
  {
    hide ConfigOk, Orphan, AddedBy;
    hide Sound, PortSets, HalfBefore;
    if n == 0 {
      NoOrphanYet(pools, p);
    } else {
      OrphansInRun(pools, states, bursts, n - 1, p);
      RunSound(pools, states, bursts, n - 1);
      BurstIs(pools, states, bursts, n - 1);
      var b := bursts[n - 1];
      OrphansAfter(states[n - 1], PortSets(pools), b.pkts, b.rooms, |b.pkts|, p);
      assert HalfIn(states, bursts, n - 1, p) <==> HalfBefore(states[n - 1], b.pkts, b.rooms, |b.pkts|, p);
    }
  }

  /** No insertion fails half-way in burst m. */
  ghost predicate NoHalfAdds(states: seq<Nat>, bursts: seq<Burst>, m: nat)
    requires m < |bursts| < |states| && BurstsOk(bursts)
  {
    forall k :: 0 <= k < |bursts[m].pkts| ==> !HalfAt(states[m], bursts[m].pkts, bursts[m].rooms, k)
  }

  lemma NoHalfIn(states: seq<Nat>, bursts: seq<Burst>, m: nat)
    requires m < |bursts| < |states| && BurstsOk(bursts)
    ensures NoHalfAdds(states, bursts, m) <==> forall p :: !HalfIn(states, bursts, m, p)
  {
    var b := bursts[m];
    if !NoHalfAdds(states, bursts, m) {
      var k :| 0 <= k < |b.pkts| && HalfAt(states[m], b.pkts, b.rooms, k);
      assert HalfIn(states, bursts, m, b.pkts[k].value);
    }
  }

  lemma InverseMeans(s: Nat, ports: seq<set<u16>>)
    requires Sound(s, ports)
    ensures Inv(s, ports) <==> forall p :: !Orphan(s, p)
  {
    if !Inverse(s.out, s.back) {
      var p :| p in s.out && !(s.out[p] in s.back && s.back[s.out[p]] == p);
      assert Orphan(s, p);
    } else {
      assert forall p :: p in s.out ==> !Orphan(s, p);
    }
  }

  /** In every run the two tables are inverse, besides, if and only if no insertion has failed half-way. */
  lemma TablesStayInverse(pools: seq<Pool>, states: seq<Nat>, bursts: seq<Burst>, n: nat)
    requires IsRun(pools, states, bursts) && n <= |bursts|
    ensures Inv(states[n], PortSets(pools)) <==> forall m :: 0 <= m < n ==> NoHalfAdds(states, bursts, m)
  {
    hide HalfIn, NoHalfAdds, PortSets, Sound, Inv, Orphan;
    RunSound(pools, states, bursts, n);
    InverseMeans(states[n], PortSets(pools));
    if !Inv(states[n], PortSets(pools)) {
      var p :| Orphan(states[n], p);
      OrphansInRun(pools, states, bursts, n, p);
      var m :| 0 <= m < n && HalfIn(states, bursts, m, p);
      NoHalfIn(states, bursts, m);
    } else if m :| 0 <= m < n && !NoHalfAdds(states, bursts, m) {
      NoHalfIn(states, bursts, m);
      var p :| HalfIn(states, bursts, m, p);
      OrphansInRun(pools, states, bursts, n, p);
    }
  }

  /** What packet j of burst m has entered is kept by every later state. */
  lemma KeptSince(pools: seq<Pool>, states: seq<Nat>, bursts: seq<Burst>, m: nat, n: nat, j: nat)
    requires IsRun(pools, states, bursts) && m < n <= |bursts| && j <= |bursts[m].pkts| == |bursts[m].rooms|
    ensures Keeps(AddedBy(states[m], bursts[m].pkts, bursts[m].rooms, j), states[n])
  {
    hide Sound, Keeps, PortSets, AddedBy, IsRun;
    BurstIs(pools, states, bursts, m);
    RunSound(pools, states, bursts, m);
    var s, b := states[m], bursts[m];
    MappingsStay(pools, states, bursts, m + 1, n);
    AddedByKeeps(s, PortSets(pools), b.pkts, b.rooms, j, |b.pkts|);
    KeepsTransitive(AddedBy(s, b.pkts, b.rooms, j), states[m + 1], states[n]);
  }

  /** A packet translated on its way out in burst m, and its answer at any later time: the answer reaches the sender
      exactly when answers to its flow did before the burst, or when its flow was new and no earlier packet of the burst
      had entered it. */
  lemma OutAndBack(pools: seq<Pool>, states: seq<Nat>, bursts: seq<Burst>, m: nat, n: nat, j: nat)
    requires IsRun(pools, states, bursts) && m < n <= |bursts|
    requires LetThrough(states[m], bursts[m].pkts, bursts[m].rooms, j)
    ensures var s, b := states[m], bursts[m];
            Inbound(states[n], Translated(s, b.pkts, b.rooms, j).value) == b.pkts[j]
            <==> Reached(s, b.pkts[j].value) || FirstOfFlow(s, b.pkts, b.rooms, j, b.pkts[j].value)
  {
    var s, b, ports := states[m], bursts[m], PortSets(pools);
    hide Sound, Keeps, Translated, Inbound, PortSets, Reached, FirstOfFlow, AddedBy, ConfigOk;
    RunSound(pools, states, bursts, m);
    RunSound(pools, states, bursts, n);
    KeptSince(pools, states, bursts, m, n, j + 1);
    AnswerReaches(s, ports, b.pkts, b.rooms, j, states[n]);
  }

  // ---- where the code falls short ----

  function TwoPorts(): seq<Pool> {
    [Pool(1, [10, 20], 2)]
  }

  const ROOM := Room(true, true, true)

  /** Two packets of one new flow in a burst: the second leaves with a port that is not the flow's, and whose answer
      would not come back. */
  lemma RepeatedSourceGoesAstray()
    ensures ConfigOk(TwoPorts())
    ensures var p := Endpoint(5, 7);
            var pkts, rooms := [Some(p), Some(p)], [ROOM, ROOM];
            var s := Start(TwoPorts());
            var s' := AfterBurst(s, pkts, rooms);
            && Translated(s, pkts, rooms, 0) == Some(Endpoint(1, 20))
            && p in s'.out && s'.out[p] == Endpoint(1, 20)
            && Translated(s, pkts, rooms, 1) == Some(Endpoint(1, 10)) && Inbound(s', Endpoint(1, 10)) == None
  {
    var p := Endpoint(5, 7);
    var s := Start(TwoPorts());
    var s1 := NewFlow(s, {}, p, ROOM).0;
    assert [10, 20][..1] == [10];
    assert s1 == Nat(0, [Pool(1, [10], 2)], map[5 := 0], map[p := Endpoint(1, 20)], map[Endpoint(1, 20) := p]);
    assert s.hosts.Keys == {};
    assert AddedBy(s, [Some(p), Some(p)], [ROOM, ROOM], 0) == s;
    assert AddedBy(s, [Some(p), Some(p)], [ROOM, ROOM], 1) == s1;
    assert NewFlow(s1, {}, p, ROOM).1 == Some(Endpoint(1, 10));
    assert NewFlow(s1, {}, p, ROOM).0.back == s1.back;
  }

  /** When the public table refuses a flow, its private entry stays and its port is free again: the next flow gets
      the same public endpoint. */
  lemma HalfAddSharesPort()
    ensures var p1, p2 := Endpoint(5, 7), Endpoint(5, 8);
            var s := AfterBurst(Start(TwoPorts()), [Some(p1), Some(p2)], [ROOM.(back := false), ROOM]);
            p1 in s.out && p2 in s.out && s.out[p1] == s.out[p2]
  {
    var p1, p2 := Endpoint(5, 7), Endpoint(5, 8);
    var s := Start(TwoPorts());
    var pkts, rooms := [Some(p1), Some(p2)], [ROOM.(back := false), ROOM];
    var s1 := NewFlow(s, {}, p1, rooms[0]).0;
    assert [10] + [20] == [10, 20];
    assert s1 == Nat(0, TwoPorts(), map[5 := 0], map[p1 := Endpoint(1, 20)], map[]);
    assert s.hosts.Keys == {};
    assert AddedBy(s, pkts, rooms, 0) == s;
    assert AddedBy(s, pkts, rooms, 1) == s1;
    assert NewFlow(s1, {}, p2, ROOM).0.out == map[p1 := Endpoint(1, 20), p2 := Endpoint(1, 20)];
  }
}
