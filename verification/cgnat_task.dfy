/** The carrier-grade NAT as the program keeps it: hash tables that give slots, and arrays of entries, proved
    against Cgnat. */
module CgnatTask {
  import opened Cgnat
  import opened CgnatPools
  import opened Words
  import opened Wrappers

  datatype IpInfo = IpInfo(publicIp: u32, publicIpIdx: nat)

  /** Where the three hash insertions of a new flow would put keys that are not yet present. A slot that cannot be
      used stands for a full table. */
  datatype Slots = Slots(host: int, out: int, back: int)

  predicate Usable<K>(h: map<K, nat>, slot: int, size: nat) {
    0 <= slot < size && slot !in h.Values
  }

  /** The slot of key k after adding it, or -1. */
  function AddKey<K>(h: map<K, nat>, k: K, slot: int, size: nat): (map<K, nat>, int) {
    if k in h then (h, h[k]) else if Usable(h, slot, size) then (h[k := slot], slot) else (h, -1)
  }

  ghost predicate Slotted<K(!new)>(h: map<K, nat>, size: nat) {
    && (forall k :: k in h ==> h[k] < size)
    && (forall k, k' :: k in h && k' in h && k != k' ==> h[k] != h[k'])
  }

  /** The table a hash and its entries make up. */
  ghost function Table<K(!new), V>(h: map<K, nat>, entries: seq<V>): map<K, V>
    requires Slotted(h, |entries|)
  {
    map k | k in h :: entries[h[k]]
  }

  /** Adding a key keeps the slots distinct. */
  lemma AddKeySlotted<K(!new)>(h: map<K, nat>, k: K, slot: int, size: nat)
    requires Slotted(h, size) && AddKey(h, k, slot, size).1 >= 0
    ensures var (h', n) := AddKey(h, k, slot, size);
            && Slotted(h', size) && n < size
            && h'.Keys == h.Keys + {k} && h'[k] == n
            && forall j :: j in h && j != k ==> h'[j] == h[j] != n
  {
    assert forall j :: j in h ==> h[j] in h.Values;
  }

  /** Writing the entry of a key that was added, or was there already. */
  lemma TableSet<K(!new), V>(h: map<K, nat>, entries: seq<V>, k: K, slot: int, v: V)
    requires Slotted(h, |entries|) && AddKey(h, k, slot, |entries|).1 >= 0
    ensures var (h', n) := AddKey(h, k, slot, |entries|);
            && Slotted(h', |entries|) && n < |entries|
            && Table(h', entries[n := v]) == Table(h, entries)[k := v]
  {
    AddKeySlotted(h, k, slot, |entries|);
  }

  lemma ValuesAfterAdd<K(!new)>(h: map<K, nat>, k: K, slot: nat)
    requires k !in h
    ensures h[k := slot].Values == h.Values + {slot}
  {
    var h' := h[k := slot];
    assert h'[k] == slot;
    forall n | n in h.Values
      ensures n in h'.Values
    {
      var j :| j in h && h[j] == n;
      assert h'[j] == n;
    }
  }

  lemma HostTableSet(h: map<u32, nat>, infos: seq<IpInfo>, k: u32, slot: nat, v: IpInfo)
    requires Slotted(h, |infos|) && k !in h && Usable(h, slot, |infos|)
    ensures Slotted(h[k := slot], |infos|)
    ensures HostTable(h[k := slot], infos[slot := v]) == HostTable(h, infos)[k := v.publicIpIdx]
  {
    AddKeySlotted(h, k, slot, |infos|);
  }

  /** The pool number of each private address. */
  ghost function HostTable(h: map<u32, nat>, infos: seq<IpInfo>): map<u32, nat>
    requires Slotted(h, |infos|)
  {
    map k | k in h :: infos[h[k]].publicIpIdx
  }

  /** An entry is in use exactly when some key has its slot. */
  ghost predicate UsedExactly<K(!new), V(!new)>(h: map<K, nat>, entries: seq<V>, used: V -> bool) {
    forall n :: 0 <= n < |entries| ==> (used(entries[n]) <==> n in h.Values)
  }

  /** position is the slot of ip when the burst arrived, -1 for an address not known then. */
  ghost predicate PositionOk(h: map<u32, nat>, known: set<u32>, ip: u32, position: int) {
    (position >= 0 <==> ip in known) && (position >= 0 ==> ip in h && h[ip] == position)
  }

  /** Filling in the room found for packet j leaves what earlier packets did, and what known flows get, as they are. */
  lemma RoomsExtend(s: Nat, pkts: seq<Packet>, rooms: seq<Room>, rooms': seq<Room>, j: nat)
    requires j < |pkts| == |rooms| == |rooms'| && rooms' == rooms[j := rooms'[j]]
    ensures AddedBy(s, pkts, rooms', j) == AddedBy(s, pkts, rooms, j)
    ensures forall k :: 0 <= k < |pkts| && (k < j || pkts[k].None? || pkts[k].value in s.out) ==>
              Translated(s, pkts, rooms', k) == Translated(s, pkts, rooms, k)
  {
    assert rooms'[..j] == rooms[..j];
    AddedByPrefix(s, pkts, rooms, rooms', j);
    forall k | 0 <= k < j
      ensures Translated(s, pkts, rooms', k) == Translated(s, pkts, rooms, k)
    {
      assert rooms'[..k + 1] == rooms[..k + 1];
      TranslatedPrefix(s, pkts, rooms, rooms', k);
    }
  }

  class Task {
    const ports: PortPools
    var privateIpHash: map<u32, nat>
    var privateIpPortHash: map<Endpoint, nat>
    var publicIpPortHash: map<Endpoint, nat>
    const privateIpInfo: array<IpInfo>
    /** The public endpoint of each flow; address 0 in a slot never used. */
    const privateFlowEntries: array<Endpoint>
    /** The private endpoint of each flow. */
    const publicEntries: array<Endpoint>

    /** Empty tables, and every port free. */
    constructor (ips: seq<u32>, portLists: seq<seq<u16>>, nHosts: nat, nFlows: nat)
      requires |ips| == |portLists| && forall i :: 0 <= i < |ips| ==> ips[i] != 0
      ensures Valid() && fresh(Frame())
      ensures View() == Nat(|ips|, ports.Pools(), map[], map[], map[])
      ensures ports.publicIps == ips
      ensures forall i :: 0 <= i < |ips| ==> ports.Pools()[i] == Pool(ips[i], portLists[i], |portLists[i]|)
    {
      ports := new PortPools(ips, portLists);
      privateIpHash, privateIpPortHash, publicIpPortHash := map[], map[], map[];
      privateIpInfo := new IpInfo[nHosts](_ => IpInfo(0, 0));
      privateFlowEntries := new Endpoint[nFlows](_ => Endpoint(0, 0));
      publicEntries := new Endpoint[nFlows](_ => Endpoint(0, 0));
      new;
      assert forall i :: 0 <= i < |ips| ==> ports.Pools()[i] == ports.PoolAt(i);
    }

    ghost function Frame(): set<object> {
      {this, ports, privateIpInfo, privateFlowEntries, publicEntries}
    }

    ghost predicate Valid()
      reads Frame()
    {
      && ports.Valid()
      && privateFlowEntries != publicEntries
      && (forall i :: 0 <= i < |ports.publicIps| ==> ports.publicIps[i] != 0)
      && Slotted(privateIpHash, privateIpInfo.Length)
      && Slotted(privateIpPortHash, privateFlowEntries.Length)
      && Slotted(publicIpPortHash, publicEntries.Length)
      && UsedExactly(privateIpHash, privateIpInfo[..], (e: IpInfo) => e.publicIp != 0)
      && UsedExactly(privateIpPortHash, privateFlowEntries[..], (e: Endpoint) => e.ip != 0)
      && (forall h :: h in privateIpHash ==> InfoOk(privateIpInfo[privateIpHash[h]]))
    }

    ghost predicate InfoOk(info: IpInfo) {
      info.publicIpIdx < |ports.publicIps| && info.publicIp == ports.publicIps[info.publicIpIdx]
    }

    ghost function View(): Nat
      requires Valid()
      reads Frame()
    {
      Nat(ports.lastIp, ports.Pools(),
          HostTable(privateIpHash, privateIpInfo[..]),
          Table(privateIpPortHash, privateFlowEntries[..]),
          Table(publicIpPortHash, publicEntries[..]))
    }

    /** What the hash tables would do with a new flow. */
    ghost function RoomFor(slots: Slots): Room
      reads this
    {
      Room(Usable(privateIpHash, slots.host, privateIpInfo.Length),
           Usable(privateIpPortHash, slots.out, privateFlowEntries.Length),
           Usable(publicIpPortHash, slots.back, publicEntries.Length))
    }

    /** A flow goes into an unused slot of the private table. */
    method SetPrivate(p: Endpoint, q: Endpoint, slot: nat)
      requires Valid() && q.ip != 0 && p !in privateIpPortHash
      requires Usable(privateIpPortHash, slot, privateFlowEntries.Length)
      modifies `privateIpPortHash, privateFlowEntries
      ensures Valid() && View() == old(View()).(out := old(View()).out[p := q])
    {
      TableSet(privateIpPortHash, privateFlowEntries[..], p, slot, q);
      ValuesAfterAdd(privateIpPortHash, p, slot);
      privateIpPortHash := privateIpPortHash[p := slot];
      privateFlowEntries[slot] := q;
    }

    /** The private half of add_new_port_entry: 1 when the flow was added, 0 when it was there already, -1 when there
        is no room. */
    method AddPrivate(p: Endpoint, q: Endpoint, slot: int) returns (r: int)
      requires Valid() && q.ip != 0
      modifies `privateIpPortHash, privateFlowEntries
      ensures Valid()
      ensures r == if p in old(View()).out then 0
            else if old(Usable(privateIpPortHash, slot, privateFlowEntries.Length)) then 1 else -1
      ensures View() == if r == 1 then old(View()).(out := old(View()).out[p := q]) else old(View())
    {
      var n := AddKey(privateIpPortHash, p, slot, privateFlowEntries.Length).1;
      if n < 0 {
        return -1;
      }
      assert p in privateIpPortHash ==> privateIpPortHash[p] in privateIpPortHash.Values;
      if privateFlowEntries[n].ip != 0 {
        return 0;
      }
      SetPrivate(p, q, n);
      return 1;
    }

    /** The public half of add_new_port_entry. */
    method AddPublic(q: Endpoint, p: Endpoint, slot: int) returns (ok: bool)
      requires Valid()
      modifies `publicIpPortHash, publicEntries
      ensures Valid()
      ensures ok == (q in old(View()).back || old(Usable(publicIpPortHash, slot, publicEntries.Length)))
      ensures View() == if ok then old(View()).(back := old(View()).back[q := p]) else old(View())
    {
      var (h, n) := AddKey(publicIpPortHash, q, slot, publicEntries.Length);
      ok := n >= 0;
      if ok {
        TableSet(publicIpPortHash, publicEntries[..], q, slot, p);
        publicIpPortHash := h;
        publicEntries[n] := p;
      }
    }

    /** add_new_port_entry: the port reported, or failure. */
    method AddNewPortEntry(i: nat, p: Endpoint, slots: Slots) returns (ok: bool, port: u16)
      requires Valid() && i < |ports.publicIps|
      modifies `privateIpPortHash, `publicIpPortHash, ports, privateFlowEntries, publicEntries
      ensures Valid()
      ensures (View(), if ok then Some(port) else None) == AddEntry(old(View()), i, p, old(RoomFor(slots)))
    {
      ok, port := ports.GetNewPort(i);
      if !ok {
        return;
      }
      var q := Endpoint(ports.publicIps[i], port);
      var r := AddPrivate(p, q, slots.out);
      if r <= 0 {
        var _ := ports.ReleasePort(i, port);
        return r == 0, port;
      }
      ok := AddPublic(q, p, slots.back);
      if !ok {
        var _ := ports.ReleasePort(i, port);
      }
    }

    /** Enter a private address in its hash table: the pool it has by then, or -1 when there is no room. */
    method AddHost(ip: u32, i: nat, slot: int) returns (r: int, isNew: bool)
      requires Valid() && i < |ports.publicIps|
      modifies `privateIpHash, privateIpInfo
      ensures Valid() && r < |ports.publicIps|
      ensures isNew == (ip !in old(View()).hosts && old(Usable(privateIpHash, slot, privateIpInfo.Length)))
      ensures r == if ip in old(View()).hosts then old(View()).hosts[ip] else if isNew then i else -1
      ensures View() == if isNew then old(View()).(hosts := old(View()).hosts[ip := i]) else old(View())
      ensures forall h :: old(h in privateIpHash) ==> h in privateIpHash && privateIpHash[h] == old(privateIpHash[h])
    {
      assert ip in privateIpHash ==>
          privateIpHash[ip] in privateIpHash.Values && InfoOk(privateIpInfo[privateIpHash[ip]]);
      var (h, n) := AddKey(privateIpHash, ip, slot, privateIpInfo.Length);
      if n < 0 {
        return -1, false;
      }
      if privateIpInfo[n].publicIp != 0 {
        return privateIpInfo[n].publicIpIdx, false;
      }
      HostTableSet(privateIpHash, privateIpInfo[..], ip, n, IpInfo(ports.publicIps[i], i));
      ValuesAfterAdd(privateIpHash, ip, n);
      privateIpHash := h;
      privateIpInfo[n] := IpInfo(ports.publicIps[i], i);
      return i, true;
    }

    /** The pool of a private address, -1 when there is none. position is its slot when the burst arrived. */
    method HostPoolFor(ip: u32, position: int, slot: int, ghost known: set<u32>, ghost room: Room)
          returns (i: int, isNew: bool)
      requires Valid() && (position >= 0 <==> ip in known)
      requires position >= 0 ==> ip in privateIpHash && privateIpHash[ip] == position
      requires room.host == Usable(privateIpHash, slot, privateIpInfo.Length)
      modifies `privateIpHash, ports`lastIp, privateIpInfo
      ensures Valid() && i < |ports.publicIps|
      ensures (View(), if i < 0 then None else Some(i), isNew) == HostPool(old(View()), known, ip, room)
      ensures forall h :: old(h in privateIpHash) ==> h in privateIpHash && privateIpHash[h] == old(privateIpHash[h])
    {
      if position >= 0 {
        assert InfoOk(privateIpInfo[position]);
        return privateIpInfo[position].publicIpIdx, false;
      }
      i := ports.GetNewIp();
      if i < 0 {
        return -1, false;
      }
      i, isNew := AddHost(ip, i, slot);
    }

    method StepBack()
      requires Valid()
      modifies ports`lastIp
      ensures Valid() && View() == Cgnat.StepBack(old(View()))
    {
      ports.StepBack();
    }

    /** A new flow of an address of pool i. */
    method FlowIn(i: nat, isNew: bool, p: Endpoint, slots: Slots) returns (sent: bool, q: Endpoint)
      requires Valid() && i < |ports.publicIps|
      modifies `privateIpPortHash, `publicIpPortHash, ports, privateFlowEntries, publicEntries
      ensures Valid()
      ensures (View(), if sent then Some(q) else None) == Cgnat.FlowIn(old(View()), i, isNew, p, old(RoomFor(slots)))
    {
      var ok, port := AddNewPortEntry(i, p, slots);
      if !ok {
        if isNew {
          StepBack();
        }
        return false, p;
      }
      return true, Endpoint(ports.publicIps[i], port);
    }

    /** The packet of a new flow. */
    method NewMapping(p: Endpoint, position: int, slots: Slots, ghost known: set<u32>) returns (sent: bool, q: Endpoint)
      requires Valid() && (position >= 0 <==> p.ip in known)
      requires position >= 0 ==> p.ip in privateIpHash && privateIpHash[p.ip] == position
      modifies `privateIpHash, `privateIpPortHash, `publicIpPortHash
      modifies ports, privateIpInfo, privateFlowEntries, publicEntries
      ensures Valid()
      ensures (View(), if sent then Some(q) else None) == NewFlow(old(View()), known, p, old(RoomFor(slots)))
      ensures forall h :: old(h in privateIpHash) ==> h in privateIpHash && privateIpHash[h] == old(privateIpHash[h])
    {
      hide Cgnat.FlowIn, Cgnat.HostPool;
      ghost var room := RoomFor(slots);
      var i, isNew := HostPoolFor(p.ip, position, slots.host, known, room);
      if i < 0 {
        return false, p;
      }
      FlowIgnoresHostRoom(View(), i, isNew, p, room, RoomFor(slots).host);
      sent, q := FlowIn(i, isNew, p, slots);
    }

    // ---- bursts ----

    ghost predicate IsNew(s: Nat, p: Packet) {
      p.Some? && p.value !in s.out
    }

    ghost function KnownSource(s: Nat, p: Packet): Packet {
      if p.Some? && p.value in s.out then Some(s.out[p.value]) else None
    }

    /** The sources of the packets of known flows, after the first lookup; None for packets that are dropped or of
        new flows. */
    method TranslateKnown(pkts: seq<Packet>) returns (out: seq<Packet>, isNew: seq<bool>)
      requires Valid()
      ensures |out| == |isNew| == |pkts|
      ensures forall j :: 0 <= j < |pkts| ==> isNew[j] == IsNew(View(), pkts[j])
      ensures forall j :: 0 <= j < |pkts| && !isNew[j] ==>
                out[j] == KnownSource(View(), pkts[j])
    {
      out, isNew := [], [];
      for j := 0 to |pkts|
        invariant |out| == |isNew| == j
        invariant forall k :: 0 <= k < j ==> isNew[k] == IsNew(View(), pkts[k])
        invariant forall k :: 0 <= k < j && !isNew[k] ==>
                    out[k] == KnownSource(View(), pkts[k])
      {
        if pkts[j].None? {
          out, isNew := out + [None], isNew + [false];
        } else if pkts[j].value in privateIpPortHash {
          out, isNew := out + [Some(privateFlowEntries[privateIpPortHash[pkts[j].value]])], isNew + [false];
        } else {
          out, isNew := out + [None], isNew + [true];
        }
      }
    }

    /** The slots of the private addresses of new flows, looked up before any of them is added. */
    method FindHosts(pkts: seq<Packet>) returns (positions: seq<int>)
      ensures |positions| == |pkts|
      ensures forall j :: 0 <= j < |pkts| && pkts[j].Some? ==>
                PositionOk(privateIpHash, privateIpHash.Keys, pkts[j].value.ip, positions[j])
    {
      positions := [];
      for j := 0 to |pkts|
        invariant |positions| == j
        invariant forall k :: 0 <= k < j && pkts[k].Some? ==>
                    PositionOk(privateIpHash, privateIpHash.Keys, pkts[k].value.ip, positions[k])
      {
        var known := pkts[j].Some? && pkts[j].value.ip in privateIpHash;
        positions := positions + [if known then privateIpHash[pkts[j].value.ip] else -1];
      }
    }

    /** Packet j of a burst, when its flow is new. s is the state in which the burst arrived. */
    method HandleNew(ghost s: Nat, ghost pkts: seq<Packet>, ghost rooms: seq<Room>, ghost j: nat,
                     p: Endpoint, position: int, slots: Slots)
        returns (out: Packet)
      requires Valid() && j < |pkts| == |rooms| && pkts[j] == Some(p) && IsNew(s, pkts[j])
      requires rooms[j] == RoomFor(slots) && PositionOk(privateIpHash, s.hosts.Keys, p.ip, position)
      requires View() == AddedBy(s, pkts, rooms, j)
      modifies `privateIpHash, `privateIpPortHash, `publicIpPortHash
      modifies ports, privateIpInfo, privateFlowEntries, publicEntries
      ensures Valid() && View() == AddedBy(s, pkts, rooms, j + 1)
      ensures out == Translated(s, pkts, rooms, j)
      ensures forall h :: old(h in privateIpHash) ==> h in privateIpHash && privateIpHash[h] == old(privateIpHash[h])
    {
      var ok, q := NewMapping(p, position, slots, s.hosts.Keys);
      out := if ok then Some(q) else None;
    }

    ghost predicate AllPositionsOk(s: Nat, pkts: seq<Packet>, positions: seq<int>)
      requires |positions| == |pkts|
      reads this
    {
      forall k :: 0 <= k < |pkts| && pkts[k].Some? ==>
        PositionOk(privateIpHash, s.hosts.Keys, pkts[k].value.ip, positions[k])
    }

    /** The packets that are done: the first j, and those whose flow was known. */
    static ghost predicate Done(s: Nat, pkts: seq<Packet>, rooms: seq<Room>, out: seq<Packet>, j: nat)
      requires |out| == |pkts| == |rooms|
    {
      forall k :: 0 <= k < |pkts| && (k < j || pkts[k].None? || pkts[k].value in s.out) ==>
        out[k] == Translated(s, pkts, rooms, k)
    }

    /** Packet j in the second loop over a burst. */
    method HandleOne(ghost s: Nat, pkts: seq<Packet>, ghost rooms: seq<Room>, j: nat, isNew: bool, positions: seq<int>,
                     slots: Slots, done: seq<Packet>)
        returns (out: seq<Packet>, ghost rooms': seq<Room>)
      requires Valid() && j < |pkts| == |rooms| == |positions| == |done| && isNew == IsNew(s, pkts[j])
      requires AllPositionsOk(s, pkts, positions)
      requires View() == AddedBy(s, pkts, rooms, j) && Done(s, pkts, rooms, done, j)
      modifies `privateIpHash, `privateIpPortHash, `publicIpPortHash
      modifies ports, privateIpInfo, privateFlowEntries, publicEntries
      ensures Valid() && |out| == |rooms'| == |pkts| && AllPositionsOk(s, pkts, positions)
      ensures View() == AddedBy(s, pkts, rooms', j + 1) && Done(s, pkts, rooms', out, j + 1)
    {
      rooms' := rooms[j := RoomFor(slots)];
      RoomsExtend(s, pkts, rooms, rooms', j);
      out := done;
      if isNew {
        var q := HandleNew(s, pkts, rooms', j, pkts[j].value, positions[j], slots);
        out := done[j := q];
      }
    }

    /** The first two loops over a burst: packets of known flows are done, and the private addresses looked up. */
    method LookUp(pkts: seq<Packet>, ghost rooms: seq<Room>)
        returns (out: seq<Packet>, isNew: seq<bool>, positions: seq<int>)
      requires Valid() && |rooms| == |pkts|
      ensures Valid() && View() == old(View()) && |out| == |isNew| == |positions| == |pkts|
      ensures forall j :: 0 <= j < |pkts| ==> isNew[j] == IsNew(View(), pkts[j])
      ensures AllPositionsOk(View(), pkts, positions) && Done(View(), pkts, rooms, out, 0)
    {
      hide NewFlow, AddedBy;
      out, isNew := TranslateKnown(pkts);
      positions := FindHosts(pkts);
    }

    /** The private side of handle_nat_bulk: what becomes of each packet of a burst, and what room its insertions
        found. */
    method HandlePrivate(pkts: seq<Packet>, slots: seq<Slots>) returns (out: seq<Packet>, ghost rooms: seq<Room>)
      requires Valid() && |slots| == |pkts|
      modifies `privateIpHash, `privateIpPortHash, `publicIpPortHash
      modifies ports, privateIpInfo, privateFlowEntries, publicEntries
      ensures Valid() && |out| == |rooms| == |pkts|
      ensures View() == AfterBurst(old(View()), pkts, rooms)
      ensures forall j :: 0 <= j < |pkts| ==> out[j] == Translated(old(View()), pkts, rooms, j)
    {
      hide Valid, View, AllPositionsOk, Translated, NewFlow;
      ghost var s := View();
      var isNew, positions;
      rooms := seq(|pkts|, _ => Room(false, false, false));
      out, isNew, positions := LookUp(pkts, rooms);
      for j := 0 to |pkts|
        invariant Valid() && |rooms| == |pkts| == |out|
        invariant View() == AddedBy(s, pkts, rooms, j)
        invariant AllPositionsOk(s, pkts, positions)
        invariant Done(s, pkts, rooms, out, j)
      {
        out, rooms := HandleOne(s, pkts, rooms, j, isNew[j], positions, slots[j], out);
      }
    }

    /** The public side: the private destination of each packet. */
    method HandlePublic(pkts: seq<Packet>) returns (out: seq<Packet>)
      requires Valid()
      ensures |out| == |pkts|
      ensures forall j :: 0 <= j < |pkts| ==> out[j] == if pkts[j].Some? then Inbound(View(), pkts[j].value) else None
    {
      out := [];
      for j := 0 to |pkts|
        invariant |out| == j
        invariant forall k :: 0 <= k < j ==> out[k] == if pkts[k].Some? then Inbound(View(), pkts[k].value) else None
      {
        if pkts[j].Some? && pkts[j].value in publicIpPortHash {
          out := out + [Some(publicEntries[publicIpPortHash[pkts[j].value]])];
        } else {
          out := out + [None];
        }
      }
    }
  }
}
