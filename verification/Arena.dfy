// One channel's shared-memory Arena: `slots` repetitions of a 16-byte header and a
// `capacity`-byte payload in a flat byte region.

module Arena {
  import opened VirtualTime
  import opened Arithmetic
  import opened Bytes

  const HEADER: nat := 16

  // ----- Little-endian 64-bit fields ----------------------------------------------------

  function Le(x: nat, n: nat): (s: seq<byte>)
    ensures |s| == n
  {
    if n == 0 then [] else [x % 256] + Le(x / 256, n - 1)
  }

  function FromLe(s: seq<byte>): nat {
    if s == [] then 0 else s[0] + 256 * FromLe(s[1..])
  }

  function Pow256(n: nat): (p: nat)
    ensures p > 0
  {
    if n == 0 then 1 else 256 * Pow256(n - 1)
  }

  lemma {:induction false} LeRoundTrip(x: nat, n: nat)
    requires x < Pow256(n)
    ensures FromLe(Le(x, n)) == x
    decreases n
  {
    if n == 0 {
    } else {
      LeRoundTrip(x / 256, n - 1);
    }
  }

  lemma EightBytes()
    ensures Pow256(8) == TWO64
  {
    assert Pow256(4) == 0x1_0000_0000 by { assert Pow256(2) == 65536; }
    assert Pow256(6) == 0x1_0000_0000_0000;
  }

  // ----- Layout ---------------------------------------------------------------------------

  function Stride(capacity: nat): (s: nat)
    ensures s == HEADER + capacity > 0
  {
    HEADER + capacity
  }

  function Offset(capacity: nat, slot: nat): nat {
    slot * Stride(capacity)
  }

  /** The slots are in bounds and do not overlap. */
  lemma SlotsAreDisjoint(capacity: nat, i: nat, j: nat)
    requires i < j
    ensures Offset(capacity, i) + Stride(capacity) <= Offset(capacity, j)
  {
    MulMonotone(i + 1, j, Stride(capacity));
  }

  /** `map`'s guard accepts exactly the sizes that size_t can hold. */
  predicate Mappable(capacity: nat, slots: nat) {
    capacity <= MAX64 - HEADER && slots <= MAX64 / Stride(capacity)
  }

  lemma MappableIsExact(capacity: nat, slots: nat)
    ensures Mappable(capacity, slots) ==> Offset(capacity, slots) < TWO64
    ensures slots > 0 && Offset(capacity, slots) < TWO64 ==> Mappable(capacity, slots)
  {
    var s := Stride(capacity);
    var q := MAX64 / s;
    DivBounds(MAX64, s);
    if slots <= q { MulMonotone(slots, q, s); } else { MulMonotone(q + 1, slots, s); }
    if slots > 0 { MulMonotone(1, slots, s); }
  }

  // ----- What the bytes of one slot mean --------------------------------------------------

  datatype Slot = Slot(seqNo: nat, len: nat, payload: seq<byte>)

  function Parse(bytes: seq<byte>, capacity: nat): Slot
    requires |bytes| == Stride(capacity)
  {
    Slot(FromLe(bytes[..8]), FromLe(bytes[8..16]), bytes[16..])
  }

  /** What the last write to a slot stored; `None` before the first. */
  datatype Stamp = Stamp(seqNo: u64, bytes: seq<byte>)

  datatype ReadResult = Payload(bytes: seq<byte>) | OutOfRange | Stale | TooLong

  /** A slot against its last write. */
  ghost predicate Holds(s: Slot, last: Option<Stamp>) {
    match last
    case None => s.seqNo == 0 && s.len == 0
    case Some(w) => s.seqNo == w.seqNo && s.len == |w.bytes| <= |s.payload| && s.payload[..s.len] == w.bytes
  }

  /** Slot `i` as the bytes of the region spell it. */
  function SlotOf(region: seq<byte>, capacity: nat, i: nat): Slot {
    var at := Offset(capacity, i);
    if at + Stride(capacity) <= |region| then Parse(region[at..at + Stride(capacity)], capacity) else Slot(0, 0, [])
  }

  /** The region refines a table that remembers each slot's last write. */
  ghost predicate Refines(region: seq<byte>, capacity: nat, last: seq<Option<Stamp>>) {
    && |region| == Offset(capacity, |last|) < TWO64
    && forall i :: 0 <= i < |last| ==> Holds(SlotOf(region, capacity, i), last[i])
  }

  class Region {
    const capacity: nat
    const slots: nat
    const bytes: array<byte>
    var seqNo: u64
    ghost var last: seq<Option<Stamp>>

    ghost predicate Valid()
      reads this, bytes
    {
      |last| == slots && Refines(bytes[..], capacity, last)
    }

    /** `map`, after its guard: a mapping whose headers are cleared slot by slot. */
    constructor (capacity: nat, slots: nat)
      requires Mappable(capacity, slots)
      ensures Valid() && fresh(bytes)
      ensures this.capacity == capacity && this.slots == slots && seqNo == 0
      ensures forall i :: 0 <= i < slots ==> last[i] == None
    {
      MappableIsExact(capacity, slots);
      this.capacity := capacity;
      this.slots := slots;
      this.seqNo := 0;
      this.last := seq(slots, i => None);
      bytes := new byte[Offset(capacity, slots)];
      new;
      ClearHeaders(bytes, capacity, slots);
    }

    /** `write`: the payload first, then its length, then the Arena-wide stamp. */
    method Write(slot: nat, data: seq<byte>) returns (stamp: Option<u64>)
      requires Valid()
      modifies this`seqNo, this`last, bytes
      ensures Valid()
      ensures stamp.Some? <==> slot < slots && |data| <= capacity
      ensures stamp.None? ==> seqNo == old(seqNo) && last == old(last) && bytes[..] == old(bytes[..])
      ensures stamp.Some? ==> stamp.value == seqNo == (old(seqNo) + 1) % TWO64
      ensures stamp.Some? ==> last == old(last)[slot := Some(Stamp(seqNo, data))]
      ensures forall j :: 0 <= j < slots && j != slot ==>
                SlotOf(bytes[..], capacity, j) == old(SlotOf(bytes[..], capacity, j))
    {
      hide Offset, SlotOf, Refines, Stride;
      if slot >= slots || |data| > capacity { return None; }
      RefinesBounds(bytes[..], capacity, last, slot);
      var at, next := Offset(capacity, slot), (seqNo + 1) % TWO64;
      ghost var was := bytes[..];
      CopyInto(bytes, at + HEADER, data);
      CopyInto(bytes, at + 8, Le(|data|, 8));
      seqNo := next;
      CopyInto(bytes, at, Le(next, 8));
      WriteRefines(was, capacity, last, slot, next, data);
      last := last[slot := Some(Stamp(next, data))];
      forall j | 0 <= j < slots && j != slot
        ensures SlotOf(bytes[..], capacity, j) == old(SlotOf(bytes[..], capacity, j))
      {
        WrittenElsewhere(was, capacity, slot, next, data, j);
      }
      return Some(next);
    }

    /** `read`, over whatever bytes the region holds: a child may have written them. */
    method Read(slot: nat, stamp: u64) returns (r: ReadResult)
      requires bytes.Length == Offset(capacity, slots)
      ensures r == ReadSlot(bytes[..], capacity, slots, slot, stamp)
    {
      hide Offset, Stride;
      if slot >= slots { return OutOfRange; }
      SlotInRegion(capacity, slot, slots);
      var at := Offset(capacity, slot);
      HeaderFields(bytes[..], at, Stride(capacity));
      if FromLe(bytes[at..at + 8]) != stamp { return Stale; }
      var len := FromLe(bytes[at + 8..at + 16]);
      if len > capacity { return TooLong; }
      assert bytes[..][at + HEADER..at + Stride(capacity)][..len] == bytes[at + HEADER..at + HEADER + len];
      return Payload(bytes[at + HEADER..at + HEADER + len]);
    }
  }

  /** What `read` answers for any region of the right size. */
  function ReadSlot(region: seq<byte>, capacity: nat, slots: nat, slot: nat, stamp: u64): (r: ReadResult)
    requires |region| == Offset(capacity, slots)
    ensures r.Payload? ==> |r.bytes| <= capacity
  {
    if slot >= slots then OutOfRange
    else
      SlotInRegion(capacity, slot, slots);
      var s := SlotOf(region, capacity, slot);
      if s.seqNo != stamp then Stale
      else if s.len > capacity then TooLong
      else Payload(s.payload[..s.len])
  }

  /** The header loop of `map`. */
  method ClearHeaders(bytes: array<byte>, capacity: nat, slots: nat)
    requires bytes.Length == Offset(capacity, slots)
    modifies bytes
    ensures forall i :: 0 <= i < slots ==> Holds(SlotOf(bytes[..], capacity, i), None)
  {
    hide Offset, SlotOf, Stride;
    for k := 0 to slots
      invariant forall i :: 0 <= i < k ==> Holds(SlotOf(bytes[..], capacity, i), None)
    {
      SlotInRegion(capacity, k, slots);
      ghost var was := bytes[..];
      CopyInto(bytes, Offset(capacity, k), Zeros(HEADER));
      ClearedSlot(was, capacity, k);
      forall i | 0 <= i < k ensures Holds(SlotOf(bytes[..], capacity, i), None) {
        ClearedElsewhere(was, capacity, k, i);
      }
    }
  }

  /** A read succeeds with bytes `b` exactly when the last write to that slot stored
      `b` under that stamp; stamp 0 names a slot never written. */
  function Expected(last: seq<Option<Stamp>>, slot: nat, stamp: u64): ReadResult {
    if slot >= |last| then OutOfRange
    else
      match last[slot]
      case None => if stamp == 0 then Payload([]) else Stale
      case Some(w) => if stamp == w.seqNo then Payload(w.bytes) else Stale
  }

  /** Over a region only the kernel wrote, `read` answers as the slot table does. */
  lemma ReadIsExact(region: seq<byte>, capacity: nat, last: seq<Option<Stamp>>, slot: nat, stamp: u64)
    requires Refines(region, capacity, last)
    ensures ReadSlot(region, capacity, |last|, slot, stamp) == Expected(last, slot, stamp)
  {
    if slot < |last| {
      RefinesBounds(region, capacity, last, slot);
      assert Holds(SlotOf(region, capacity, slot), last[slot]);
    }
  }

  function Zeros(n: nat): (s: seq<byte>)
    ensures |s| == n && forall i :: 0 <= i < n ==> s[i] == 0
  {
    seq(n, i => 0)
  }

  /** Every slot of a mapped region is in bounds. */
  lemma SlotInRegion(capacity: nat, i: nat, slots: nat)
    requires i < slots
    ensures Offset(capacity, i) + Stride(capacity) <= Offset(capacity, slots)
    ensures Stride(capacity) == HEADER + capacity
  {
    SlotsAreDisjoint(capacity, i, slots);
  }

  lemma RefinesBounds(region: seq<byte>, capacity: nat, last: seq<Option<Stamp>>, i: nat)
    requires Refines(region, capacity, last) && i < |last|
    ensures Offset(capacity, i) + Stride(capacity) <= |region| < TWO64
    ensures Stride(capacity) == HEADER + capacity
  {
    SlotsAreDisjoint(capacity, i, |last|);
  }

  lemma ClearedSlot(was: seq<byte>, capacity: nat, k: nat)
    requires Offset(capacity, k) + Stride(capacity) <= |was|
    ensures Holds(SlotOf(Patched(was, Offset(capacity, k), Zeros(HEADER)), capacity, k), None)
  {
    var at := Offset(capacity, k);
    ZeroHeader(Patched(was, at, Zeros(HEADER))[at..at + Stride(capacity)], capacity);
  }

  lemma ClearedElsewhere(was: seq<byte>, capacity: nat, k: nat, i: nat)
    requires i < k && Offset(capacity, k) + Stride(capacity) <= |was|
    ensures SlotOf(Patched(was, Offset(capacity, k), Zeros(HEADER)), capacity, i) == SlotOf(was, capacity, i)
  {
    SlotsAreDisjoint(capacity, i, k);
    Untouched(was, Offset(capacity, k), Zeros(HEADER), Offset(capacity, i), Stride(capacity));
  }

  lemma WriteRefines(was: seq<byte>, capacity: nat, last: seq<Option<Stamp>>, slot: nat, stamp: u64, data: seq<byte>)
    requires Refines(was, capacity, last) && slot < |last| && |data| <= capacity
    requires Offset(capacity, slot) + Stride(capacity) <= |was|
    ensures Refines(Written(was, Offset(capacity, slot), stamp, data), capacity, last[slot := Some(Stamp(stamp, data))])
  {
    hide Offset, Written;
    var now := Written(was, Offset(capacity, slot), stamp, data);
    forall i | 0 <= i < |last| ensures Holds(SlotOf(now, capacity, i), last[slot := Some(Stamp(stamp, data))][i]) {
      RefinesBounds(was, capacity, last, i);
      if i == slot {
        WrittenSlot(was, Offset(capacity, slot), stamp, data, capacity);
      } else {
        WrittenElsewhere(was, capacity, slot, stamp, data, i);
      }
    }
  }

  lemma Untouched(s: seq<byte>, at: nat, data: seq<byte>, lo: nat, n: nat)
    requires at + |data| <= |s| && lo + n <= |s| && (lo + n <= at || at + |data| <= lo)
    ensures Patched(s, at, data)[lo..lo + n] == s[lo..lo + n]
  {
  }

  lemma Landed(s: seq<byte>, at: nat, data: seq<byte>)
    requires at + |data| <= |s|
    ensures Patched(s, at, data)[at..at + |data|] == data
  {
  }

  /** The region after a write at byte `at`. */
  function Written(s: seq<byte>, at: nat, stamp: u64, data: seq<byte>): (r: seq<byte>)
    requires at + HEADER + |data| <= |s|
    ensures |r| == |s|
  {
    Patched(Patched(Patched(s, at + HEADER, data), at + 8, Le(|data|, 8)), at, Le(stamp, 8))
  }

  /** Where a write puts its stamp, length and payload. */
  lemma WrittenFields(s: seq<byte>, at: nat, stamp: u64, data: seq<byte>)
    requires at + HEADER + |data| <= |s|
    ensures var w := Written(s, at, stamp, data);
      w[at..at + 8] == Le(stamp, 8) && w[at + 8..at + 16] == Le(|data|, 8) && w[at + 16..at + 16 + |data|] == data
  {
    hide Le, Patched;
    var s1 := Patched(s, at + HEADER, data);
    var s2 := Patched(s1, at + 8, Le(|data|, 8));
    Landed(s2, at, Le(stamp, 8));
    Landed(s1, at + 8, Le(|data|, 8));
    Untouched(s2, at, Le(stamp, 8), at + 8, 8);
    Landed(s, at + HEADER, data);
    Untouched(s1, at + 8, Le(|data|, 8), at + HEADER, |data|);
    Untouched(s2, at, Le(stamp, 8), at + HEADER, |data|);
  }

  lemma WrittenSlot(s: seq<byte>, at: nat, stamp: u64, data: seq<byte>, capacity: nat)
    requires |data| <= capacity < TWO64 && at + Stride(capacity) <= |s|
    ensures Holds(Parse(Written(s, at, stamp, data)[at..at + Stride(capacity)], capacity), Some(Stamp(stamp, data)))
  {
    hide Written, Le, Holds, Parse;
    var w := Written(s, at, stamp, data);
    WrittenFields(s, at, stamp, data);
    HeaderFields(w, at, Stride(capacity));
    assert w[at..at + Stride(capacity)][16..16 + |data|] == w[at + 16..at + 16 + |data|];
    FreshSlot(w[at..at + Stride(capacity)], capacity, stamp, data);
  }

  /** A write to one slot changes no other. */
  lemma WrittenElsewhere(s: seq<byte>, capacity: nat, slot: nat, stamp: u64, data: seq<byte>, j: nat)
    requires |data| <= capacity && j != slot && Offset(capacity, slot) + Stride(capacity) <= |s|
    ensures SlotOf(Written(s, Offset(capacity, slot), stamp, data), capacity, j) == SlotOf(s, capacity, j)
  {
    var at, lo := Offset(capacity, slot), Offset(capacity, j);
    if j < slot { SlotsAreDisjoint(capacity, j, slot); } else { SlotsAreDisjoint(capacity, slot, j); }
    if lo + Stride(capacity) <= |s| {
      var s1 := Patched(s, at + HEADER, data);
      var s2 := Patched(s1, at + 8, Le(|data|, 8));
      Untouched(s, at + HEADER, data, lo, Stride(capacity));
      Untouched(s1, at + 8, Le(|data|, 8), lo, Stride(capacity));
      Untouched(s2, at, Le(stamp, 8), lo, Stride(capacity));
    }
  }

  lemma HeaderFields(all: seq<byte>, at: nat, stride: nat)
    requires HEADER <= stride && at + stride <= |all|
    ensures all[at..at + stride][..8] == all[at..at + 8]
    ensures all[at..at + stride][8..16] == all[at + 8..at + 16]
    ensures all[at..at + stride][16..] == all[at + 16..at + stride]
  {
    var s := all[at..at + stride];
    assert forall k :: 0 <= k < stride ==> s[k] == all[at + k];
  }

  /** What a slot means right after a write. */
  lemma FreshSlot(s: seq<byte>, capacity: nat, stamp: u64, data: seq<byte>)
    requires |s| == Stride(capacity) && |data| <= capacity < TWO64
    requires s[..8] == Le(stamp, 8) && s[8..16] == Le(|data|, 8) && s[16..16 + |data|] == data
    ensures Holds(Parse(s, capacity), Some(Stamp(stamp, data)))
  {
    EightBytes();
    LeRoundTrip(stamp, 8);
    LeRoundTrip(|data|, 8);
    assert s[16..][..|data|] == s[16..16 + |data|];
  }

  lemma {:induction false} ZeroLe(s: seq<byte>)
    requires forall i :: 0 <= i < |s| ==> s[i] == 0
    ensures FromLe(s) == 0
    decreases |s|
  {
    if s == [] {
    } else {
      ZeroLe(s[1..]);
    }
  }

  lemma ZeroHeader(s: seq<byte>, capacity: nat)
    requires |s| == Stride(capacity) && forall i :: 0 <= i < HEADER ==> s[i] == 0
    ensures Parse(s, capacity).seqNo == 0 && Parse(s, capacity).len == 0
  {
    ZeroLe(s[..8]);
    ZeroLe(s[8..16]);
  }
}
