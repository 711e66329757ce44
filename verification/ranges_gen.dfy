/** The ranges as the program keeps them, the packets it stamps, and the table of flows. */
module RangesGen {
  import opened Division
  import opened Words
  import opened Ranges

  // ---- stamping values into a header ----

  /** Byte k of v in network order. */
  function ByteOf(v: u32, k: nat): byte
    requires k < 4
  {
    if k == 0 then v / 0x100_0000 % 0x100 else if k == 1 then v / 0x1_0000 % 0x100
          else if k == 2 then v / 0x100 % 0x100 else v % 0x100
  }

  predicate Covers(r: Range, i: nat) {
    r.offset <= i < r.offset + r.len
  }

  /** The low bytes of v are written to the field of r. */
  ghost function Write(r: Range, v: u32, buf: seq<byte>): (w: seq<byte>)
    requires r.Valid()
    ensures |w| == |buf| && forall i :: 0 <= i < |buf| ==> w[i] == WriteAt(r, v, i, buf[i])
  {
    seq(|buf|, i requires 0 <= i < |buf| => WriteAt(r, v, i, buf[i]))
  }

  ghost function WriteAt(r: Range, v: u32, i: nat, was: byte): byte
    requires r.Valid()
  {
    if Covers(r, i) then ByteOf(v, 4 - r.len + (i - r.offset)) else was
  }

  /** The fields of the first n ranges are written in turn. */
  ghost function Stamp(rs: seq<Range>, vs: seq<u32>, n: nat, buf: seq<byte>): (w: seq<byte>)
    requires AllValid(rs) && n <= |rs| == |vs|
    ensures |w| == |buf|
  {
    if n == 0 then buf else Write(rs[n - 1], vs[n - 1], Stamp(rs, vs, n - 1, buf))
  }

  ghost function StampAt(rs: seq<Range>, vs: seq<u32>, n: nat, i: nat, was: byte): byte
    requires AllValid(rs) && n <= |rs| == |vs|
  {
    if n == 0 then was else WriteAt(rs[n - 1], vs[n - 1], i, StampAt(rs, vs, n - 1, i, was))
  }

  lemma {:induction false} StampIs(rs: seq<Range>, vs: seq<u32>, n: nat, buf: seq<byte>, i: nat)
    requires AllValid(rs) && n <= |rs| == |vs| && i < |buf|
    ensures Stamp(rs, vs, n, buf)[i] == StampAt(rs, vs, n, i, buf[i])
  {
    if n > 0 {
      StampIs(rs, vs, n - 1, buf, i);
    }
  }

  lemma {:induction false} RestampAt(rs: seq<Range>, vs: seq<u32>, ws: seq<u32>, n: nat, i: nat, was: byte)
    requires AllValid(rs) && n <= |rs| == |vs| == |ws|
    ensures StampAt(rs, ws, n, i, StampAt(rs, vs, n, i, was)) == StampAt(rs, ws, n, i, was)
  {
    if n > 0 {
      RestampAt(rs, vs, ws, n - 1, i, was);
    }
  }

  /** Stamping a header that is already stamped leaves no trace of the old values, even when fields overlap. */
  lemma Restamp(rs: seq<Range>, vs: seq<u32>, ws: seq<u32>, buf: seq<byte>)
    requires AllValid(rs) && |rs| == |vs| == |ws|
    ensures Stamp(rs, ws, |rs|, Stamp(rs, vs, |rs|, buf)) == Stamp(rs, ws, |rs|, buf)
  {
    var once := Stamp(rs, vs, |rs|, buf);
    forall i | 0 <= i < |buf|
      ensures Stamp(rs, ws, |rs|, once)[i] == Stamp(rs, ws, |rs|, buf)[i]
    {
      StampIs(rs, vs, |rs|, buf, i);
      StampIs(rs, ws, |rs|, once, i);
      StampIs(rs, ws, |rs|, buf, i);
      RestampAt(rs, vs, ws, |rs|, i, buf[i]);
    }
  }

  // ---- flows ----

  /** The end of the addresses and ports in an Ethernet frame with an IPv4 header. */
  const KEY_END: nat := 38

  type Key = seq<byte>

  /** The protocol, addresses and ports; the time to live and the checksum are masked out. */
  function KeyOf(buf: seq<byte>): Key
    requires |buf| >= KEY_END
  {
    [buf[23]] + buf[26..KEY_END]
  }

  ghost predicate Fits(rs: seq<Range>, n: nat) {
    n >= KEY_END && forall j :: 0 <= j < |rs| ==> rs[j].offset + rs[j].len <= n
  }

  /** The key of template tpl when the values are t packets past vs. */
  ghost function KeyAt(rs: seq<Range>, vs: seq<u32>, tpl: seq<byte>, t: nat): Key
    requires AllValid(rs) && InRanges(rs, vs) && Fits(rs, |tpl|)
  {
    KeyOf(Stamp(rs, ValuesAt(rs, vs, t), |rs|, tpl))
  }

  /** The flow key: byte 23 and bytes 26 to 37 of the frame, and no other. */
  lemma KeyIs(b: seq<byte>, c: seq<byte>)
    requires |b| >= 38 && |c| >= 38
    ensures KeyOf(b) == KeyOf(c) <==> b[23] == c[23] && forall i :: 26 <= i < 38 ==> b[i] == c[i]
  {
    if KeyOf(b) == KeyOf(c) {
      forall i | 26 <= i < 38
        ensures b[i] == c[i]
      {
        assert KeyOf(b)[i - 25] == KeyOf(c)[i - 25];
      }
      assert KeyOf(b)[0] == KeyOf(c)[0];
    }
  }

  /** How many values fit in len bytes. */
  function Capacity(len: nat): nat {
    if len == 0 then 1 else if len == 1 then 0x100 else if len == 2 then 0x1_0000 else if len == 3 then 0x100_0000
    else 0x1_0000_0000
  }

  /** The number in bytes, the first of which is the most significant. */
  function Number(bytes: seq<byte>): nat {
    if bytes == [] then 0 else 0x100 * Number(bytes[..|bytes| - 1]) + bytes[|bytes| - 1]
  }

  /** The field of a range holds the low bytes of its value in network order, and nothing else of the header changes. */
  lemma FieldHoldsValue(r: Range, v: u32, buf: seq<byte>)
    requires r.Valid() && r.offset + r.len <= |buf|
    ensures var w := Write(r, v, buf);
            && |w| == |buf| && Number(w[r.offset..r.offset + r.len]) == v % Capacity(r.len)
            && forall i :: 0 <= i < |buf| && !(r.offset <= i < r.offset + r.len) ==> w[i] == buf[i]
  {
    var field := Write(r, v, buf)[r.offset..r.offset + r.len];
    assert forall k :: 0 <= k < r.len ==> field[k] == ByteOf(v, 4 - r.len + k);
    NumberIs(field, v);
  }

  /** v is made up of its bytes. */
  lemma BytesOf(v: u32)
    ensures v as int == 0x100_0000 * ByteOf(v, 0) + 0x1_0000 * ByteOf(v, 1) + 0x100 * ByteOf(v, 2) + ByteOf(v, 3)
    ensures v as int % 0x100_0000 == 0x1_0000 * ByteOf(v, 1) + 0x100 * ByteOf(v, 2) + ByteOf(v, 3)
    ensures v as int % 0x1_0000 == 0x100 * ByteOf(v, 2) + ByteOf(v, 3) && v as int % 0x100 == ByteOf(v, 3)
  {}

  lemma NumberOf(field: seq<byte>)
    requires |field| <= 4
    ensures Number(field)
         == if field == [] then 0
            else if |field| == 1 then field[0]
            else if |field| == 2 then 0x100 * field[0] as int + field[1]
            else if |field| == 3 then 0x1_0000 * field[0] as int + 0x100 * field[1] as int + field[2]
            else 0x100_0000 * field[0] as int + 0x1_0000 * field[1] as int + 0x100 * field[2] as int + field[3]
  {
    if field != [] {
      NumberOf(field[..|field| - 1]);
    }
  }

  lemma NumberIs(field: seq<byte>, v: u32)
    requires |field| <= 4 && forall k :: 0 <= k < |field| ==> field[k] == ByteOf(v, 4 - |field| + k)
    ensures Number(field) == v % Capacity(|field|)
  {
    hide ByteOf, Number;
    BytesOf(v);
    NumberOf(field);
    if |field| == 4 {
      assert field[0] == ByteOf(v, 0) && field[1] == ByteOf(v, 1);
      assert field[2] == ByteOf(v, 2) && field[3] == ByteOf(v, 3);
    } else if |field| == 3 {
      assert field[0] == ByteOf(v, 1) && field[1] == ByteOf(v, 2) && field[2] == ByteOf(v, 3);
    }
  }

  /** The program makes a field as wide as its largest value needs. The fields do not overlap, and are part of the
      key. */
  ghost predicate KeyFields(rs: seq<Range>) {
    && (forall j :: 0 <= j < |rs| ==> rs[j].max as int < Capacity(rs[j].len))
    && (forall j, k, i: nat :: 0 <= j < k < |rs| ==> !(Covers(rs[j], i) && Covers(rs[k], i)))
    && (forall j, i: nat :: 0 <= j < |rs| && Covers(rs[j], i) ==> i == 23 || 26 <= i < 38)
  }

  /** What stands in a field that no later one overlaps. */
  lemma {:induction false} StampOwn(rs: seq<Range>, vs: seq<u32>, n: nat, j: nat, i: nat, was: byte)
    requires AllValid(rs) && j < n <= |rs| == |vs| && Covers(rs[j], i)
    requires forall k :: j < k < |rs| ==> !Covers(rs[k], i)
    ensures StampAt(rs, vs, n, i, was) == ByteOf(vs[j], 4 - rs[j].len + (i - rs[j].offset))
  {
    if j < n - 1 {
      StampOwn(rs, vs, n - 1, j, i, was);
    }
  }

  lemma SameField(r: Range, v: u32, w: u32)
    requires r.Valid() && v <= r.max && w <= r.max && r.max as int < Capacity(r.len)
    requires forall k :: 4 - r.len <= k < 4 ==> ByteOf(v, k) == ByteOf(w, k)
    ensures v == w
  {
    BytesOf(v);
    BytesOf(w);
    assert r.len >= 1 ==> ByteOf(v, 3) == ByteOf(w, 3);
    assert r.len >= 2 ==> ByteOf(v, 2) == ByteOf(w, 2);
    assert r.len >= 3 ==> ByteOf(v, 1) == ByteOf(w, 1);
    assert r.len >= 4 ==> ByteOf(v, 0) == ByteOf(w, 0);
    hide ByteOf;
  }

  /** Byte k of value j in the header. */
  lemma FieldByte(rs: seq<Range>, vs: seq<u32>, tpl: seq<byte>, j: nat, k: nat, i: nat)
    requires AllValid(rs) && |vs| == |rs| && j < |rs| && 4 - rs[j].len <= k < 4 && i < |tpl|
    requires i == rs[j].offset + (k - (4 - rs[j].len)) && forall k :: j < k < |rs| ==> !Covers(rs[k], i)
    ensures Stamp(rs, vs, |rs|, tpl)[i] == ByteOf(vs[j], k)
  {
    StampIs(rs, vs, |rs|, tpl, i);
    StampOwn(rs, vs, |rs|, j, i, tpl[i]);
  }

  lemma KeyPlace(rs: seq<Range>, j: nat, i: nat)
    requires KeyFields(rs) && j < |rs| && Covers(rs[j], i)
    ensures (i == 23 || 26 <= i < 38) && forall k :: j < k < |rs| ==> !Covers(rs[k], i)
  {}

  lemma ByteTold(b: seq<byte>, c: seq<byte>, i: nat)
    requires |b| >= 38 && |c| >= 38 && KeyOf(b) == KeyOf(c) && (i == 23 || 26 <= i < 38)
    ensures b[i] == c[i]
  {
    KeyIs(b, c);
  }

  /** A byte of a field is a byte of the key. */
  lemma SameByte(rs: seq<Range>, vs: seq<u32>, ws: seq<u32>, tpl: seq<byte>, j: nat, k: nat)
    requires AllValid(rs) && |vs| == |ws| == |rs| && Fits(rs, |tpl|) && KeyFields(rs)
    requires KeyOf(Stamp(rs, vs, |rs|, tpl)) == KeyOf(Stamp(rs, ws, |rs|, tpl))
    requires j < |rs| && 4 - rs[j].len <= k < 4
    ensures ByteOf(vs[j], k) == ByteOf(ws[j], k)
  {
    hide KeyOf, Stamp, ByteOf, KeyFields;
    var i: nat := rs[j].offset + (k - (4 - rs[j].len));
    assert Covers(rs[j], i);
    hide Covers;
    KeyPlace(rs, j, i);
    ByteTold(Stamp(rs, vs, |rs|, tpl), Stamp(rs, ws, |rs|, tpl), i);
    FieldByte(rs, vs, tpl, j, k, i);
    FieldByte(rs, ws, tpl, j, k, i);
  }

  /** Two headers made from one template have the same flow key only when all their values are the same. */
  lemma KeysTellValues(rs: seq<Range>, vs: seq<u32>, ws: seq<u32>, tpl: seq<byte>)
    requires AllValid(rs) && InRanges(rs, vs) && InRanges(rs, ws) && Fits(rs, |tpl|) && KeyFields(rs)
    ensures KeyOf(Stamp(rs, vs, |rs|, tpl)) == KeyOf(Stamp(rs, ws, |rs|, tpl)) <==> vs == ws
  {
    hide KeyOf, Stamp, ByteOf, Capacity;
    if KeyOf(Stamp(rs, vs, |rs|, tpl)) == KeyOf(Stamp(rs, ws, |rs|, tpl)) {
      forall j | 0 <= j < |rs|
        ensures vs[j] == ws[j]
      {
        forall k | 4 - rs[j].len <= k < 4
          ensures ByteOf(vs[j], k) == ByteOf(ws[j], k)
        {
          SameByte(rs, vs, ws, tpl, j, k);
        }
        SameField(rs[j], vs[j], ws[j]);
      }
    }
  }

  /** Two packets of one template are of the same flow exactly when they are a multiple of the period apart: a period
      has as many flows as packets. */
  lemma FlowsDiffer(rs: seq<Range>, vs: seq<u32>, tpl: seq<byte>, t: nat, d: nat)
    requires AllValid(rs) && InRanges(rs, vs) && Fits(rs, |tpl|) && KeyFields(rs)
    ensures KeyAt(rs, vs, tpl, t) == KeyAt(rs, vs, tpl, t + d) <==> Divides(Period(rs), d)
  {
    hide Period, Divides, KeyOf, Stamp, KeyFields, ValuesAt;
    KeysTellValues(rs, ValuesAt(rs, vs, t), ValuesAt(rs, vs, t + d), tpl);
    PeriodIsExact(rs, vs, t, d);
  }

  // ---- counting flows in 32 bits ----

  /** gcd */
  method GcdLoop(a0: u32, b0: u32) returns (a: u32)
    ensures a == Gcd(a0, b0)
  {
    a := a0;
    var b: u32 := b0;
    while b != 0
      invariant Gcd(a, b) == Gcd(a0, b0)
      decreases b
    {
      var t: u32 := b;
      b := a % b;
      a := t;
    }
  }

  /** lcm, which wraps when the result does not fit. */
  method LcmWord(a: u32, b: u32) returns (l: u32)
    requires a > 0
    ensures b > 0 && Lcm(a, b) < WORD ==> l == Lcm(a, b)
  {
    var g := GcdLoop(a, b);
    GcdDivides(a, b);
    l := a / g * b % WORD;
    if b > 0 && Lcm(a, b) < WORD {
      SmallMod(Lcm(a, b), WORD);
    }
  }

  lemma {:induction false} PrefixPeriod(sizes: seq<nat>, i: nat)
    requires i <= |sizes| && forall j :: 0 <= j < |sizes| ==> sizes[j] > 0
    ensures LcmOf(sizes[..i]) <= LcmOf(sizes)
    decreases |sizes|
  {
    if i < |sizes| {
      var n := |sizes| - 1;
      PrefixPeriod(sizes[..n], i);
      assert sizes[..n][..i] == sizes[..i];
      var l := LcmOf(sizes);
      DividesIs(l, l, 1);
      LcmIs(sizes[n], LcmOf(sizes[..n]), l);
      DividesSmaller(LcmOf(sizes[..n]), l);
    } else {
      assert sizes[..i] == sizes;
    }
  }

  class RangeGen {
    const ranges: seq<Range>
    const values: array<u32>
    const templates: seq<seq<byte>>
    var flowIdTable: map<Key, nat>
    /** The values at the start, and how often they have moved on. */
    ghost const start: seq<u32>
    ghost var steps: nat

    ghost predicate Shape()
    {
      && AllValid(ranges) && InRanges(ranges, start) && values.Length == |ranges|
      && (forall j :: 0 <= j < |ranges| ==> ranges[j].Size() < WORD)
      && (forall k :: 0 <= k < |templates| ==> Fits(ranges, |templates[k]|))
    }

    ghost predicate Valid()
      reads this, values
    {
      Shape() && values[..] == ValuesAt(ranges, start, steps)
    }

    /** A table knows template k with the values of step t. */
    ghost predicate Knows(table: map<Key, nat>, k: nat, t: nat)
      requires Shape() && k < |templates|
    {
      KeyAt(ranges, start, templates[k], t) in table
    }

    /** What the table knew before, it still knows. */
    ghost predicate Keeps(before: map<Key, nat>)
      reads this`flowIdTable
    {
      before.Keys <= flowIdTable.Keys
    }

    ghost predicate Complete()
      requires Shape()
      reads this`flowIdTable
    {
      forall k: nat, t: nat :: k < |templates| ==> Knows(flowIdTable, k, t)
    }

    constructor (ranges: seq<Range>, templates: seq<seq<byte>>)
      requires AllValid(ranges) && forall j :: 0 <= j < |ranges| ==> ranges[j].Size() < WORD
      requires forall k :: 0 <= k < |templates| ==> Fits(ranges, |templates[k]|)
      ensures Valid() && this.ranges == ranges && this.templates == templates && steps == 0
    {
      this.ranges, this.templates := ranges, templates;
      var vs: seq<u32> := seq(|ranges|, j requires 0 <= j < |ranges| => ranges[j].min);
      values := new u32[|ranges|](j requires 0 <= j < |ranges| => ranges[j].min);
      start, steps, flowIdTable := vs, 0, map[];
      new;
      ValuesStart(ranges, start);
      assert values[..] == start;
    }

    /** get_n_range_flows */
    method GetNRangeFlows() returns (t: u32)
      requires Valid()
      ensures Period(ranges) < WORD ==> t == Period(ranges)
    {
      t := 1;
      ghost var sizes := SizesOf(ranges);
      for i := 0 to |ranges|
        invariant Period(ranges) < WORD ==> t == LcmOf(sizes[..i])
      {
        PrefixPeriod(sizes, i + 1);
        assert sizes[..i + 1][..i] == sizes[..i];
        t := LcmWord(Add32(Sub32(ranges[i].max, ranges[i].min), 1), t);
      }
      assert sizes[..|ranges|] == sizes;
    }

    /** rte_memcpy of the low bytes of v */
    method WriteField(buf: array<byte>, r: Range, v: u32)
      requires r.Valid() && r.offset + r.len <= buf.Length
      modifies buf
      ensures buf[..] == Write(r, v, old(buf[..]))
    {
      forall i | r.offset <= i < r.offset + r.len {
        buf[i] := ByteOf(v, 4 - r.len + (i - r.offset));
      }
    }

    /** task_gen_apply_ranges */
    method ApplyRanges(buf: array<byte>)
      requires Valid() && Fits(ranges, buf.Length)
      modifies `steps, values, buf
      ensures Valid() && steps == old(steps) + 1
      ensures buf[..] == Stamp(ranges, ValuesAt(ranges, start, steps), |ranges|, old(buf[..]))
    {
      ghost var was, now := ValuesAt(ranges, start, steps), ValuesAt(ranges, start, steps + 1);
      for j := 0 to |ranges|
        invariant Shape() && steps == old(steps)
        invariant forall k :: 0 <= k < |ranges| ==> values[k] == if k < j then now[k] else was[k]
        invariant buf[..] == Stamp(ranges, now, j, old(buf[..]))
      {
        NextIs(ranges[j], start[j], steps);
        if values[j] == ranges[j].max {
          values[j] := ranges[j].min;
        } else {
          values[j] := values[j] + 1;
        }
        WriteField(buf, ranges[j], values[j]);
      }
      steps := steps + 1;
      assert values[..] == now;
    }

    /** rte_hash_add_key: a new key takes the next position. */
    method AddKey(key: Key)
      modifies `flowIdTable
      ensures flowIdTable == old(flowIdTable)[key := if key in old(flowIdTable) then old(flowIdTable)[key]
            else |old(flowIdTable)|]
    {
      flowIdTable := flowIdTable[key := if key in flowIdTable then flowIdTable[key] else |flowIdTable|];
    }

    /** build_flow_table. When the number of range flows fits in 32 bits, every packet to come will be found, and the
        values end where they began. */
    method BuildFlowTable()
      requires Valid() && flowIdTable == map[]
      modifies `steps, `flowIdTable, values
      ensures Valid()
      ensures Period(ranges) < WORD ==> Complete() && values[..] == old(values[..])
    {
      var n := GetNRangeFlows();
      for k := 0 to |templates|
        invariant Valid()
        invariant Period(ranges) < WORD ==> values[..] == old(values[..])
        invariant Period(ranges) < WORD ==> forall k': nat, t: nat :: k' < k ==> Knows(flowIdTable, k', t)
      {
        ghost var before := flowIdTable;
        if Period(ranges) < WORD {
          DividesIs(n, n, 1);
          PeriodIsExact(ranges, start, steps, n);
        }
        AddTemplate(k, n);
        assert forall k': nat, t: nat :: k' < k && Knows(before, k', t) ==> Knows(flowIdTable, k', t);
      }
    }

    /** One period of values from step t0 on is enough. */
    lemma PeriodSuffices(k: nat, t0: nat)
      requires Shape() && k < |templates| && forall i: nat :: t0 <= i < t0 + Period(ranges) ==> Knows(flowIdTable, k, i)
      ensures forall t: nat :: Knows(flowIdTable, k, t)
    {
      forall t: nat
        ensures Knows(flowIdTable, k, t)
      {
        var i := OccursInPeriod(ranges, start, t0, t);
        assert Knows(flowIdTable, k, t0 + i);
      }
    }

    /** The next flow of template k is added. buf holds the template, or the flow before. */
    method AddFlow(k: nat, buf: array<byte>, ghost first: bool)
      requires Valid() && k < |templates| && buf.Length == |templates[k]|
      requires buf[..] == if first then templates[k]
            else Stamp(ranges, ValuesAt(ranges, start, steps), |ranges|, templates[k])
      modifies `steps, `flowIdTable, values, buf
      ensures Valid() && steps == old(steps) + 1 && Knows(flowIdTable, k, steps)
      ensures buf[..] == Stamp(ranges, ValuesAt(ranges, start, steps), |ranges|, templates[k])
      ensures Keeps(old(flowIdTable))
    {
      Restamp(ranges, ValuesAt(ranges, start, steps), ValuesAt(ranges, start, steps + 1), templates[k]);
      ApplyRanges(buf);
      AddKey(KeyOf(buf[..]));
    }

    /** The flows of template k are added. */
    method AddTemplate(k: nat, n: u32)
      requires Valid() && k < |templates|
      modifies `steps, `flowIdTable, values
      ensures Valid() && steps == old(steps) + n as int && Keeps(old(flowIdTable))
      ensures n as int == Period(ranges) ==> forall t: nat :: Knows(flowIdTable, k, t)
    {
      var tpl := templates[k];
      var buf := new byte[|tpl|](i requires 0 <= i < |tpl| => tpl[i]);
      assert buf[..] == tpl;
      ghost var t0 := steps;
      var j: u32 := 0;
      while j < n
        invariant Valid() && j <= n && steps == t0 + j as int
        invariant buf[..] == if j == 0 then tpl else Stamp(ranges, ValuesAt(ranges, start, steps), |ranges|, tpl)
        invariant Keeps(old(flowIdTable))
        invariant forall i: nat :: t0 + 1 <= i < t0 + 1 + j as int ==> Knows(flowIdTable, k, i)
      {
        ghost var before := flowIdTable;
        AddFlow(k, buf, j == 0);
        assert forall i: nat :: t0 + 1 <= i < t0 + 1 + j as int ==> Knows(before, k, i) && Knows(flowIdTable, k, i);
        j := j + 1;
      }
      if n as int == Period(ranges) {
        PeriodSuffices(k, t0 + 1);
      }
    }

    /** task_gen_get_flow_id */
    method GetFlowId(hdr: seq<byte>) returns (ret: int)
      requires |hdr| >= KEY_END
      ensures ret == if KeyOf(hdr) in flowIdTable then flowIdTable[KeyOf(hdr)] else -1
    {
      if KeyOf(hdr) in flowIdTable {
        ret := flowIdTable[KeyOf(hdr)];
      } else {
        ret := -1;
      }
    }

    /** One packet from template k without random fields: it is always part of a known flow. */
    method MakePacket(k: nat) returns (hdr: seq<byte>, flowId: int)
      requires Valid() && Complete() && k < |templates|
      modifies `steps, values
      ensures Valid() && Complete() && steps == old(steps) + 1
      ensures hdr == Stamp(ranges, values[..], |ranges|, templates[k])
      ensures flowId >= 0 && KeyOf(hdr) in flowIdTable && flowIdTable[KeyOf(hdr)] == flowId
    {
      var tpl := templates[k];
      var buf := new byte[|tpl|](i requires 0 <= i < |tpl| => tpl[i]);
      assert buf[..] == tpl;
      ApplyRanges(buf);
      hdr := buf[..];
      assert Knows(flowIdTable, k, steps);
      flowId := GetFlowId(hdr);
    }
  }
}
