// The codec's loops over real Arenas, proved against the functions of StepCodec.

module StepCodecRuntime {
  import opened VirtualTime
  import opened Base64
  import opened Arena
  import opened StepCodec

  class Codec {
    const arenas: map<nat, Region>
    const protocol: nat

    ghost function Footprint(): set<object> {
      (set ch | ch in arenas :: arenas[ch] as object) + (set ch | ch in arenas :: arenas[ch].bytes as object)
    }

    /** Each channel has an Arena of its own. */
    ghost predicate Separate() {
      forall c, d :: c in arenas && d in arenas && c != d ==>
        arenas[c] != arenas[d] && arenas[c].bytes != arenas[d].bytes
    }

    ghost predicate Valid()
      reads Footprint()
    {
      Separate() && forall ch :: ch in arenas ==> arenas[ch].Valid()
    }

    /** The slot tables of all Arenas. */
    ghost function Tables(): Views
      reads Footprint()
    {
      map ch | ch in arenas :: View(arenas[ch].capacity, arenas[ch].seqNo, arenas[ch].last)
    }

    constructor (arenas: map<nat, Region>, protocol: nat)
      ensures this.arenas == arenas && this.protocol == protocol
    {
      this.arenas := arenas;
      this.protocol := protocol;
    }

    function AvailableSlots(ch: nat): nat {
      if ch !in arenas || arenas[ch].slots == 0 then 0
      else if protocol >= INDEXED_SLOTS then arenas[ch].slots else 1
    }

    lemma AvailableAgrees(ch: nat)
      requires Valid()
      ensures AvailableSlots(ch) == Available(Tables(), protocol, ch)
    {
      if ch in arenas { assert arenas[ch].Valid(); }
    }

    /** One Arena write as a change of the tables. */
    method Store(ch: nat, slot: nat, bytes: seq<byte>) returns (stamp: Option<u64>)
      requires Valid() && ch in arenas
      modifies Footprint()
      ensures Valid()
      ensures var v := Stored(old(Tables())[ch], slot, bytes);
        if v.None? then stamp == None && Tables() == old(Tables())
        else stamp == Some(v.value.seqNo) && Tables() == old(Tables())[ch := v.value]
    {
      var region := arenas[ch];
      assert region.Valid();
      stamp := region.Write(slot, bytes);
      forall d | d in arenas && d != ch ensures arenas[d].Valid() {
        assert old(arenas[d].Valid());
      }
    }

    /** One message into the Step line: the next free slot, or inline. */
    method EncodeMessage(m: Message, used: map<nat, nat>) returns (used': map<nat, nat>, item: Option<Item>)
      requires Valid()
      modifies Footprint()
      ensures Valid()
      ensures Encoding(Tables(), used', item) == EncodeOne(old(Tables()), protocol, used, m)
    {
      var slot := if m.channel in used then used[m.channel] else 0;
      AvailableAgrees(m.channel);
      if slot < AvailableSlots(m.channel) {
        used' := used[m.channel := slot + 1];
        var stamp := Store(m.channel, slot, m.bytes);
        if stamp.None? { return used', None; }
        item := Some(InArena(m.channel, m.time, if protocol >= INDEXED_SLOTS then Some(slot) else None, stamp.value));
      } else {
        used' := used;
        var text := Encode(m.bytes);
        item := Some(Inline(m.channel, m.time, text));
      }
    }

    method EncodeInputs(messages: seq<Message>) returns (items: Option<seq<Item>>)
      requires Valid()
      modifies Footprint()
      ensures Valid()
      ensures (Tables(), items) == EncodeAll(old(Tables()), protocol, map[], messages)
    {
      hide EncodeOne;
      var out: seq<Item> := [];
      var used: map<nat, nat> := map[];
      ghost var tables := Tables();
      ghost var whole := EncodeAll(tables, protocol, used, messages);
      assert messages[0..] == messages;
      Prefixed(whole);
      var i := 0;
      while i < |messages|
        invariant 0 <= i <= |messages|
        invariant Valid() && Tables() == tables
        invariant whole == Prefix(out, EncodeAll(tables, protocol, used, messages[i..]))
      {
        Unroll(out, tables, protocol, used, messages[i..]);
        assert messages[i..][1..] == messages[i + 1..];
        var used', item := EncodeMessage(messages[i], used);
        tables := Tables();
        if item.None? { return None; }
        out, used, i := out + [item.value], used', i + 1;
      }
      assert messages[i..] == [];
      assert out + [] == out;
      items := Some(out);
    }

    /** Every Arena is mapped at its declared size, whatever its bytes are. */
    ghost predicate Mapped()
      reads Footprint()
    {
      forall ch :: ch in arenas ==> arenas[ch].bytes.Length == Offset(arenas[ch].capacity, arenas[ch].slots)
    }

    /** The bytes of all Arenas; the child may have written any of them. */
    ghost function Contents(): (m: Memory)
      requires Mapped()
      reads Footprint()
      ensures Sized(m)
    {
      map ch | ch in arenas :: Mapping(arenas[ch].capacity, arenas[ch].slots, arenas[ch].bytes[..])
    }

    /** `decode_outputs`, over Arenas the child wrote. */
    method DecodeOutputs(items: seq<Item>, ghost memory: Memory) returns (outputs: Option<seq<(nat, seq<byte>)>>)
      requires Mapped() && memory == Contents()
      ensures outputs == DecodeAllBytes(memory, protocol, items)
    {
      hide DecodeBytes, Sized;
      var out: seq<(nat, seq<byte>)> := [];
      var i := 0;
      assert items[0..] == items;
      JoinEmpty(DecodeAllBytes(memory, protocol, items));
      while i < |items|
        invariant 0 <= i <= |items| && Contents() == memory
        invariant DecodeAllBytes(memory, protocol, items) == Join(out, DecodeAllBytes(memory, protocol, items[i..]))
      {
        assert items[i..][1..] == items[i + 1..];
        UnrollDecode(out, memory, protocol, items[i..]);
        var bytes := DecodeItem(items[i], memory);
        if bytes.None? { return None; }
        out := out + [(items[i].channel, bytes.value)];
        i := i + 1;
      }
      assert items[i..] == [];
      assert out + [] == out;
      outputs := Some(out);
    }

    /** `inline_payload_bytes`: the pre-pass, before anything is decoded. */
    method InlinePayloadBytes(items: seq<Item>) returns (total: Option<nat>)
      ensures total == InlineBytes(items, 0)
    {
      hide DecodedSize;
      var sum: nat := 0;
      assert items[0..] == items;
      for i := 0 to |items|
        invariant sum <= MAX64 && InlineBytes(items, 0) == InlineBytes(items[i..], sum)
      {
        InlineBytesSteps(items[i..], sum);
        assert items[i..][0] == items[i] && items[i..][1..] == items[i + 1..];
        if items[i].Inline? {
          var bytes := DecodedSize(items[i].text);
          if bytes > MAX64 - sum { return None; }
          sum := sum + bytes;
        }
      }
      assert items[|items|..] == [];
      total := Some(sum);
    }

    method DecodeItem(item: Item, ghost memory: Memory) returns (bytes: Option<seq<byte>>)
      requires Mapped() && memory == Contents()
      ensures bytes == DecodeBytes(memory, protocol, item)
    {
      match item
      case Inline(_, _, text) => bytes := Decode(text);
      case InArena(ch, _, named, stamp) =>
        var slot := if named.Some? then named.value else 0;
        if slot >= AvailableSlots(ch) { return None; }
        var r := arenas[ch].Read(slot, stamp);
        bytes := if r.Payload? then Some(r.bytes) else None;
    }

    /** Over Arenas only the kernel wrote, the bytes say what the slot tables say. */
    lemma TablesDecode(items: seq<Item>)
      requires Valid()
      ensures Mapped() && DecodeAllBytes(Contents(), protocol, items) == DecodeAll(Tables(), protocol, items)
    {
      forall ch | ch in arenas ensures arenas[ch].Valid() {}
      KernelBytesDecode(Contents(), Tables(), protocol, items);
    }
  }

  // ----- Loop bookkeeping ------------------------------------------------------------------

  function Prefix(out: seq<Item>, r: (Views, Option<seq<Item>>)): (Views, Option<seq<Item>>) {
    (r.0, if r.1.None? then None else Some(out + r.1.value))
  }

  lemma Prefixed(r: (Views, Option<seq<Item>>))
    ensures Prefix([], r) == r
  {
    if r.1.Some? { assert [] + r.1.value == r.1.value; }
  }

  lemma Unroll(out: seq<Item>, views: Views, protocol: nat, used: map<nat, nat>, ms: seq<Message>)
    requires ms != []
    ensures var e := EncodeOne(views, protocol, used, ms[0]);
      Prefix(out, EncodeAll(views, protocol, used, ms))
      == if e.item.None? then (e.views, None)
         else Prefix(out + [e.item.value], EncodeAll(e.views, protocol, e.used, ms[1..]))
  {
    var e := EncodeOne(views, protocol, used, ms[0]);
    if e.item.Some? {
      var items := EncodeAll(e.views, protocol, e.used, ms[1..]).1;
      if items.Some? { assert out + ([e.item.value] + items.value) == out + [e.item.value] + items.value; }
    }
  }

  function Join(out: seq<(nat, seq<byte>)>, r: Option<seq<(nat, seq<byte>)>>): Option<seq<(nat, seq<byte>)>> {
    if r.None? then None else Some(out + r.value)
  }

  lemma JoinEmpty(r: Option<seq<(nat, seq<byte>)>>)
    ensures Join([], r) == r
  {
    if r.Some? { assert [] + r.value == r.value; }
  }

  lemma UnrollDecode(out: seq<(nat, seq<byte>)>, memory: Memory, protocol: nat, items: seq<Item>)
    requires Sized(memory) && items != []
    ensures var bytes := DecodeBytes(memory, protocol, items[0]);
      Join(out, DecodeAllBytes(memory, protocol, items))
      == if bytes.None? then None
         else Join(out + [(items[0].channel, bytes.value)], DecodeAllBytes(memory, protocol, items[1..]))
  {
    hide DecodeBytes;
    var bytes, rest := DecodeBytes(memory, protocol, items[0]), DecodeAllBytes(memory, protocol, items[1..]);
    if bytes.Some? && rest.Some? {
      var x := (items[0].channel, bytes.value);
      assert out + ([x] + rest.value) == out + [x] + rest.value;
    }
  }
}
