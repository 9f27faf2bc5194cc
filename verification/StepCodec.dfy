// The codec of one Step: a channel's Arena slots are filled in message order, and
// every message past them travels inline as base64.

module StepCodec {
  import opened VirtualTime
  import opened Base64
  import opened Arena

  datatype Message = Message(channel: nat, time: u64, bytes: seq<byte>)

  // One entry of the Step line. `slot` is named only once indexed slots are negotiated.
  datatype Item =
    | Inline(channel: nat, time: u64, text: string)
    | InArena(channel: nat, time: u64, slot: Option<nat>, stamp: u64)

  // An Arena as its slot table; it has |last| slots.
  datatype View = View(capacity: nat, seqNo: u64, last: seq<Option<Stamp>>)

  type Views = map<nat, View>

  const INDEXED_SLOTS: nat := 2

  /** Slots a channel may use at the negotiated protocol. */
  function Available(views: Views, protocol: nat, ch: nat): nat {
    if ch !in views || |views[ch].last| == 0 then 0
    else if protocol >= INDEXED_SLOTS then |views[ch].last| else 1
  }

  /** One Arena write, or nothing where the payload does not fit. */
  function Stored(v: View, slot: nat, bytes: seq<byte>): Option<View> {
    if slot >= |v.last| || |bytes| > v.capacity then None
    else
      var stamp := (v.seqNo + 1) % TWO64;
      Some(View(v.capacity, stamp, v.last[slot := Some(Stamp(stamp, bytes))]))
  }

  datatype Encoding = Encoding(views: Views, used: map<nat, nat>, item: Option<Item>)

  function Used(used: map<nat, nat>, ch: nat): nat {
    if ch in used then used[ch] else 0
  }

  /** One message; no item where the Arena refuses its payload. */
  function EncodeOne(views: Views, protocol: nat, used: map<nat, nat>, m: Message): Encoding {
    var slot := Used(used, m.channel);
    if slot < Available(views, protocol, m.channel) then
      var used' := used[m.channel := slot + 1];
      match Stored(views[m.channel], slot, m.bytes)
      case None => Encoding(views, used', None)
      case Some(v) =>
        Encoding(views[m.channel := v], used',
                 Some(InArena(m.channel, m.time, if protocol >= INDEXED_SLOTS then Some(slot) else None, v.seqNo)))
    else Encoding(views, used, Some(Inline(m.channel, m.time, EncodeText(m.bytes))))
  }

  /** `encode_inputs`: the Arenas after the Step line was built, and the line. */
  function EncodeAll(views: Views, protocol: nat, used: map<nat, nat>, ms: seq<Message>): (Views, Option<seq<Item>>)
    decreases |ms|
  {
    if ms == [] then (views, Some([]))
    else
      var e := EncodeOne(views, protocol, used, ms[0]);
      if e.item.None? then (e.views, None)
      else
        var (views', items) := EncodeAll(e.views, protocol, e.used, ms[1..]);
        (views', if items.None? then None else Some([e.item.value] + items.value))
  }

  /** The payload of one item, or nothing where the source throws. */
  function DecodeOne(views: Views, protocol: nat, item: Item): Option<seq<byte>> {
    match item
    case Inline(_, _, text) => DecodeText(text)
    case InArena(ch, _, named, stamp) =>
      var slot := if named.Some? then named.value else 0;
      if slot >= Available(views, protocol, ch) then None
      else
        match Expected(views[ch].last, slot, stamp)
        case Payload(bytes) => Some(bytes)
        case OutOfRange => None
        case Stale => None
        case TooLong => None
  }

  /** `decode_outputs`. */
  function DecodeAll(views: Views, protocol: nat, items: seq<Item>): Option<seq<(nat, seq<byte>)>> {
    if items == [] then Some([])
    else
      match DecodeOne(views, protocol, items[0])
      case None => None
      case Some(bytes) =>
        match DecodeAll(views, protocol, items[1..])
        case None => None
        case Some(rest) => Some([(items[0].channel, bytes)] + rest)
  }

  // ----- Arenas the child wrote ---------------------------------------------------------------

  // An Arena as its mapped bytes.
  datatype Mapping = Mapping(capacity: nat, slots: nat, bytes: seq<byte>)

  type Memory = map<nat, Mapping>

  ghost predicate Sized(memory: Memory) {
    forall ch :: ch in memory ==> |memory[ch].bytes| == Offset(memory[ch].capacity, memory[ch].slots)
  }

  function SlotsOf(memory: Memory, protocol: nat, ch: nat): nat {
    if ch !in memory || memory[ch].slots == 0 then 0
    else if protocol >= INDEXED_SLOTS then memory[ch].slots else 1
  }

  /** The payload of one item, read from whatever bytes the Arenas hold. */
  ghost function DecodeBytes(memory: Memory, protocol: nat, item: Item): Option<seq<byte>>
    requires Sized(memory)
  {
    match item
    case Inline(_, _, text) => DecodeText(text)
    case InArena(ch, _, named, stamp) =>
      var slot := if named.Some? then named.value else 0;
      if slot >= SlotsOf(memory, protocol, ch) then None
      else
        var r := ReadSlot(memory[ch].bytes, memory[ch].capacity, memory[ch].slots, slot, stamp);
        if r.Payload? then Some(r.bytes) else None
  }

  ghost function DecodeAllBytes(memory: Memory, protocol: nat, items: seq<Item>): Option<seq<(nat, seq<byte>)>>
    requires Sized(memory)
  {
    if items == [] then Some([])
    else
      match DecodeBytes(memory, protocol, items[0])
      case None => None
      case Some(bytes) =>
        match DecodeAllBytes(memory, protocol, items[1..])
        case None => None
        case Some(rest) => Some([(items[0].channel, bytes)] + rest)
  }

  /** An Arena item decodes exactly when it names a negotiated slot whose header carries its stamp
      and a length within the capacity; the payload is then that many bytes of the slot. */
  lemma DecodeBytesMeaning(memory: Memory, protocol: nat, ch: nat, t: u64, named: Option<nat>, stamp: u64)
    requires Sized(memory)
    ensures var (bytes, slot) :=
              (DecodeBytes(memory, protocol, InArena(ch, t, named, stamp)), if named.Some? then named.value else 0);
      && (bytes.Some? <==>
            && slot < SlotsOf(memory, protocol, ch)
            && SlotOf(memory[ch].bytes, memory[ch].capacity, slot).seqNo == stamp
            && SlotOf(memory[ch].bytes, memory[ch].capacity, slot).len <= memory[ch].capacity)
      && (bytes.Some? ==>
            var s := SlotOf(memory[ch].bytes, memory[ch].capacity, slot);
            s.len <= |s.payload| && bytes.value == s.payload[..s.len])
  {
    var slot := if named.Some? then named.value else 0;
    if slot < SlotsOf(memory, protocol, ch) { SlotInRegion(memory[ch].capacity, slot, memory[ch].slots); }
  }

  /** One payload the child left in an Arena; without an index it is in slot 0. */
  datatype ChildWrite = ChildWrite(channel: nat, time: u64, named: Option<nat>, stamp: u64, data: seq<byte>)

  function SlotNamed(named: Option<nat>): nat {
    if named.Some? then named.value else 0
  }

  function ItemFor(w: ChildWrite): Item {
    InArena(w.channel, w.time, w.named, w.stamp)
  }

  /** The slot is negotiated and holds the payload. */
  predicate Writable(memory: Memory, protocol: nat, w: ChildWrite) {
    && SlotNamed(w.named) < SlotsOf(memory, protocol, w.channel)
    && |w.data| <= memory[w.channel].capacity < TWO64
  }

  /** The Arenas after the child wrote a slot the way the protocol says. */
  ghost function ChildWrote(memory: Memory, protocol: nat, w: ChildWrite): (r: Memory)
    requires Sized(memory) && Writable(memory, protocol, w)
    ensures Sized(r)
  {
    var m := memory[w.channel];
    SlotInRegion(m.capacity, SlotNamed(w.named), m.slots);
    memory[w.channel := m.(bytes := Written(m.bytes, Offset(m.capacity, SlotNamed(w.named)), w.stamp, w.data))]
  }

  /** Different slots, or different Arenas. */
  predicate Apart(v: ChildWrite, w: ChildWrite) {
    v.channel != w.channel || SlotNamed(v.named) != SlotNamed(w.named)
  }

  /** What the child wrote the kernel decodes, whatever the rest of the Arena holds. */
  lemma ChildWriteDecodes(memory: Memory, protocol: nat, w: ChildWrite)
    requires Sized(memory) && Writable(memory, protocol, w)
    ensures DecodeBytes(ChildWrote(memory, protocol, w), protocol, ItemFor(w)) == Some(w.data)
  {
    hide Written;
    var m, slot := memory[w.channel], SlotNamed(w.named);
    SlotInRegion(m.capacity, slot, m.slots);
    WrittenSlot(m.bytes, Offset(m.capacity, slot), w.stamp, w.data, m.capacity);
  }

  /** A write to another slot changes neither what decodes nor what can be written. */
  lemma OtherWriteDecodes(memory: Memory, protocol: nat, v: ChildWrite, w: ChildWrite)
    requires Sized(memory) && Writable(memory, protocol, v) && Writable(memory, protocol, w)
    ensures var after := ChildWrote(memory, protocol, w);
      && Writable(after, protocol, v)
      && (Apart(v, w) ==> DecodeBytes(after, protocol, ItemFor(v)) == DecodeBytes(memory, protocol, ItemFor(v)))
  {
    hide Written;
    var m, slot := memory[w.channel], SlotNamed(w.named);
    SlotInRegion(m.capacity, slot, m.slots);
    if v.channel == w.channel && Apart(v, w) {
      SlotInRegion(m.capacity, SlotNamed(v.named), m.slots);
      WrittenElsewhere(m.bytes, m.capacity, slot, w.stamp, w.data, SlotNamed(v.named));
    }
  }

  ghost predicate AllWritable(memory: Memory, protocol: nat, ws: seq<ChildWrite>) {
    forall i :: 0 <= i < |ws| ==> Writable(memory, protocol, ws[i])
  }

  /** Every write goes to a slot of its own. */
  predicate AllApart(ws: seq<ChildWrite>) {
    forall i, j :: 0 <= i < j < |ws| ==> Apart(ws[i], ws[j])
  }

  lemma WriteKeepsWritable(memory: Memory, protocol: nat, ws: seq<ChildWrite>, w: ChildWrite)
    requires Sized(memory) && AllWritable(memory, protocol, ws) && Writable(memory, protocol, w)
    ensures AllWritable(ChildWrote(memory, protocol, w), protocol, ws)
  {
    hide ChildWrote, Writable;
    forall i | 0 <= i < |ws|
      ensures Writable(ChildWrote(memory, protocol, w), protocol, ws[i])
    {
      OtherWriteDecodes(memory, protocol, ws[i], w);
    }
  }

  /** The Arenas after a list of writes. */
  ghost function ChildWroteAll(memory: Memory, protocol: nat, ws: seq<ChildWrite>): (r: Memory)
    requires Sized(memory) && AllWritable(memory, protocol, ws)
    ensures Sized(r)
    decreases |ws|
  {
    if ws == [] then memory
    else
      var w := ws[0];
      WriteKeepsWritable(memory, protocol, ws[1..], w);
      ChildWroteAll(ChildWrote(memory, protocol, w), protocol, ws[1..])
  }

  /** Writes to other slots leave an item as it is. */
  lemma {:induction false} OtherWritesDecode(memory: Memory, protocol: nat, v: ChildWrite, ws: seq<ChildWrite>)
    requires Sized(memory) && Writable(memory, protocol, v) && AllWritable(memory, protocol, ws)
    requires forall i :: 0 <= i < |ws| ==> Apart(v, ws[i])
    ensures DecodeBytes(ChildWroteAll(memory, protocol, ws), protocol, ItemFor(v))
            == DecodeBytes(memory, protocol, ItemFor(v))
    decreases |ws|
  {
    hide ChildWrote, Writable, Apart, DecodeBytes, ItemFor, Sized;
    if ws == [] {
    } else {
      var w := ws[0];
      OtherWriteDecodes(memory, protocol, v, w);
      WriteKeepsWritable(memory, protocol, ws[1..], w);
      OtherWritesDecode(ChildWrote(memory, protocol, w), protocol, v, ws[1..]);
    }
  }

  function ItemsFor(ws: seq<ChildWrite>): seq<Item> {
    if ws == [] then [] else [ItemFor(ws[0])] + ItemsFor(ws[1..])
  }

  function Payloads(ws: seq<ChildWrite>): seq<(nat, seq<byte>)> {
    if ws == [] then [] else [(ws[0].channel, ws[0].data)] + Payloads(ws[1..])
  }

  lemma DecodeAllFirst(memory: Memory, protocol: nat, item: Item, rest: seq<Item>)
    requires Sized(memory)
    ensures DecodeAllBytes(memory, protocol, [item] + rest)
         == match (DecodeBytes(memory, protocol, item), DecodeAllBytes(memory, protocol, rest))
            case (Some(bytes), Some(more)) => Some([(item.channel, bytes)] + more)
            case (_, _) => None
  {
    hide DecodeBytes;
    assert ([item] + rest)[1..] == rest;
  }

  /** A Step's outputs, each written to a slot of its own as the protocol says and named on the line,
      are decoded whole and in order, whatever else the Arenas hold. */
  lemma {:induction false} ChildOutputsDecode(memory: Memory, protocol: nat, ws: seq<ChildWrite>)
    requires Sized(memory) && AllWritable(memory, protocol, ws) && AllApart(ws)
    ensures DecodeAllBytes(ChildWroteAll(memory, protocol, ws), protocol, ItemsFor(ws)) == Some(Payloads(ws))
    decreases |ws|
  {
    hide ChildWrote, Writable, Apart, DecodeBytes, Sized;
    if ws == [] {
    } else {
      var w := ws[0];
      var after := ChildWrote(memory, protocol, w);
      ChildWriteDecodes(memory, protocol, w);
      OtherWriteDecodes(memory, protocol, w, w);
      WriteKeepsWritable(memory, protocol, ws[1..], w);
      OtherWritesDecode(after, protocol, w, ws[1..]);
      ChildOutputsDecode(after, protocol, ws[1..]);
      DecodeAllFirst(ChildWroteAll(memory, protocol, ws), protocol, ItemFor(w), ItemsFor(ws[1..]));
    }
  }

  ghost predicate Spells(memory: Memory, views: Views) {
    && memory.Keys == views.Keys
    && forall ch :: ch in memory ==>
         && memory[ch].capacity == views[ch].capacity && memory[ch].slots == |views[ch].last|
         && Refines(memory[ch].bytes, memory[ch].capacity, views[ch].last)
  }

  lemma KernelItemDecodes(memory: Memory, views: Views, protocol: nat, item: Item)
    requires Sized(memory) && Spells(memory, views)
    ensures DecodeBytes(memory, protocol, item) == DecodeOne(views, protocol, item)
  {
    if item.InArena? && item.channel in memory {
      var ch := item.channel;
      ReadIsExact(memory[ch].bytes, memory[ch].capacity, views[ch].last, if item.slot.Some? then item.slot.value else 0,
                  item.stamp);
    }
  }

  /** Over bytes only the kernel wrote, decoding reads the slot tables. */
  lemma {:induction false} KernelBytesDecode(memory: Memory, views: Views, protocol: nat, items: seq<Item>)
    requires Sized(memory) && Spells(memory, views)
    ensures DecodeAllBytes(memory, protocol, items) == DecodeAll(views, protocol, items)
    decreases |items|
  {
    hide DecodeBytes, DecodeOne, Spells;
    if items == [] {
    } else {
      KernelItemDecodes(memory, views, protocol, items[0]);
      KernelBytesDecode(memory, views, protocol, items[1..]);
    }
  }

  // ----- Round trip -------------------------------------------------------------------------

  /** Every payload of an Arena-backed channel fits its Arena. */
  ghost predicate Fits(views: Views, ms: seq<Message>) {
    forall i :: 0 <= i < |ms| && ms[i].channel in views ==> |ms[i].bytes| <= views[ms[i].channel].capacity
  }

  /** Same Arenas, with everything below the used slots as it was. */
  ghost predicate Extends(a: Views, b: Views, used: map<nat, nat>) {
    && a.Keys == b.Keys
    && (forall ch :: ch in a ==> b[ch].capacity == a[ch].capacity && |b[ch].last| == |a[ch].last|)
    && (forall ch, s :: ch in a && 0 <= s < Used(used, ch) && s < |a[ch].last| ==> b[ch].last[s] == a[ch].last[s])
  }

  lemma EncodeOneExtends(views: Views, protocol: nat, used: map<nat, nat>, m: Message)
    ensures var e := EncodeOne(views, protocol, used, m);
      Extends(views, e.views, used) && forall ch :: Used(used, ch) <= Used(e.used, ch)
  {
  }

  lemma ExtendsTransitive(a: Views, b: Views, c: Views, used: map<nat, nat>, used': map<nat, nat>)
    requires Extends(a, b, used) && Extends(b, c, used') && forall ch :: Used(used, ch) <= Used(used', ch)
    ensures Extends(a, c, used)
  {
  }

  /** No slot is reused within one Step. */
  lemma {:induction false} EncodeAllExtends(views: Views, protocol: nat, used: map<nat, nat>, ms: seq<Message>)
    ensures Extends(views, EncodeAll(views, protocol, used, ms).0, used)
    decreases |ms|
  {
    if ms == [] {
    } else {
      var e := EncodeOne(views, protocol, used, ms[0]);
      EncodeOneExtends(views, protocol, used, ms[0]);
      if e.item.Some? {
        EncodeAllExtends(e.views, protocol, e.used, ms[1..]);
        ExtendsTransitive(views, e.views, EncodeAll(e.views, protocol, e.used, ms[1..]).0, used, e.used);
      }
    }
  }

  lemma DecodeJustEncoded(views: Views, protocol: nat, used: map<nat, nat>, m: Message, final: Views)
    requires protocol >= 1 && (m.channel in views ==> |m.bytes| <= views[m.channel].capacity)
    requires var e := EncodeOne(views, protocol, used, m); e.item.Some? ==> Extends(e.views, final, e.used)
    ensures var e := EncodeOne(views, protocol, used, m);
      e.item.Some? && e.item.value.channel == m.channel && DecodeOne(final, protocol, e.item.value) == Some(m.bytes)
  {
    var e := EncodeOne(views, protocol, used, m);
    var slot := Used(used, m.channel);
    if slot < Available(views, protocol, m.channel) {
      assert Used(e.used, m.channel) == slot + 1;
      assert e.views[m.channel].last[slot] == Some(Stamp(e.item.value.stamp, m.bytes));
    } else {
      RoundTrip(m.bytes);
    }
  }

  function Plain(ms: seq<Message>): seq<(nat, seq<byte>)> {
    seq(|ms|, i requires 0 <= i < |ms| => (ms[i].channel, ms[i].bytes))
  }

  lemma FitsRest(views: Views, after: Views, used: map<nat, nat>, ms: seq<Message>)
    requires ms != [] && Fits(views, ms) && Extends(views, after, used)
    ensures Fits(after, ms[1..])
  {
    forall i | 0 <= i < |ms[1..]| && ms[1..][i].channel in after
      ensures |ms[1..][i].bytes| <= after[ms[1..][i].channel].capacity
    {
      assert ms[1..][i] == ms[i + 1];
    }
  }

  lemma EncodeAllCons(views: Views, protocol: nat, used: map<nat, nat>, ms: seq<Message>)
    requires ms != [] && EncodeOne(views, protocol, used, ms[0]).item.Some?
    ensures var e := EncodeOne(views, protocol, used, ms[0]);
      var (final, items) := EncodeAll(e.views, protocol, e.used, ms[1..]);
      EncodeAll(views, protocol, used, ms)
      == (final, if items.None? then None else Some([e.item.value] + items.value))
  {
    hide EncodeOne;
  }

  lemma DecodeAllCons(views: Views, protocol: nat, item: Item, items: seq<Item>, bytes: seq<byte>,
                      rest: seq<(nat, seq<byte>)>)
    requires DecodeOne(views, protocol, item) == Some(bytes) && DecodeAll(views, protocol, items) == Some(rest)
    ensures DecodeAll(views, protocol, [item] + items) == Some([(item.channel, bytes)] + rest)
  {
    hide DecodeOne;
    assert ([item] + items)[1..] == items;
  }

  lemma PlainCons(ms: seq<Message>)
    requires ms != []
    ensures Plain(ms) == [(ms[0].channel, ms[0].bytes)] + Plain(ms[1..])
  {
  }

  /** Whatever the protocol and the slot counts, decoding the encoded items through
      the same Arenas gives back the same channels and bytes in the same order. */
  lemma {:induction false} CodecRoundTrip(views: Views, protocol: nat, used: map<nat, nat>, ms: seq<Message>)
    requires protocol >= 1 && Fits(views, ms)
    ensures var (views', items) := EncodeAll(views, protocol, used, ms);
      items.Some? && |items.value| == |ms| && DecodeAll(views', protocol, items.value) == Some(Plain(ms))
    decreases |ms|
  {
    if ms == [] {
      assert Plain(ms) == [];
    } else {
      var m, rest := ms[0], ms[1..];
      assert m.channel in views ==> |m.bytes| <= views[m.channel].capacity;
      hide *;
      var e := EncodeOne(views, protocol, used, m);
      EncodeOneExtends(views, protocol, used, m);
      FitsRest(views, e.views, used, ms);
      CodecRoundTrip(e.views, protocol, e.used, rest);
      EncodeAllExtends(e.views, protocol, e.used, rest);
      var (final, items) := EncodeAll(e.views, protocol, e.used, rest);
      DecodeJustEncoded(views, protocol, used, m, final);
      EncodeAllCons(views, protocol, used, ms);
      DecodeAllCons(final, protocol, e.item.value, items.value, m.bytes, Plain(rest));
      PlainCons(ms);
    }
  }

  // ----- The inline budget -----------------------------------------------------------------------

  /** `inline_payload_bytes`; nothing where the sum does not fit size_t. */
  function InlineBytes(items: seq<Item>, total: nat): Option<nat>
    decreases |items|
  {
    if items == [] then Some(total)
    else if items[0].InArena? then InlineBytes(items[1..], total)
    else if DecodedSize(items[0].text) > MAX64 - total then None
    else InlineBytes(items[1..], total + DecodedSize(items[0].text))
  }

  /** Payload bytes the decode pass inlines. */
  function InlineDecoded(items: seq<Item>, outputs: seq<(nat, seq<byte>)>): nat
    requires |items| == |outputs|
  {
    if items == [] then 0
    else (if items[0].Inline? then |outputs[0].1| else 0) + InlineDecoded(items[1..], outputs[1..])
  }

  lemma {:induction false} DecodeAllLength(memory: Memory, protocol: nat, items: seq<Item>)
    requires Sized(memory) && DecodeAllBytes(memory, protocol, items).Some?
    ensures |DecodeAllBytes(memory, protocol, items).value| == |items|
    decreases |items|
  {
    if items == [] {
    } else {
      DecodeAllLength(memory, protocol, items[1..]);
    }
  }

  /** A line decodes item by item. */
  lemma DecodeAllSteps(memory: Memory, protocol: nat, items: seq<Item>)
    requires Sized(memory) && DecodeAllBytes(memory, protocol, items).Some? && items != []
    ensures DecodeBytes(memory, protocol, items[0]).Some? && DecodeAllBytes(memory, protocol, items[1..]).Some?
    ensures DecodeAllBytes(memory, protocol, items).value
         == [(items[0].channel, DecodeBytes(memory, protocol, items[0]).value)]
            + DecodeAllBytes(memory, protocol, items[1..]).value
  {
    hide DecodeBytes;
  }

  lemma InlineDecodedSteps(items: seq<Item>, channel: nat, bytes: seq<byte>, rest: seq<(nat, seq<byte>)>)
    requires items != [] && |items| == 1 + |rest|
    ensures InlineDecoded(items, [(channel, bytes)] + rest)
         == (if items[0].Inline? then |bytes| else 0) + InlineDecoded(items[1..], rest)
  {
    assert ([(channel, bytes)] + rest)[1..] == rest;
  }

  lemma InlineSizeIsDecoded(memory: Memory, protocol: nat, item: Item)
    requires Sized(memory) && item.Inline? && DecodeBytes(memory, protocol, item).Some?
    ensures DecodedSize(item.text) == |DecodeBytes(memory, protocol, item).value|
  {
    SizeIsExact(item.text);
  }

  lemma InlineBytesSteps(items: seq<Item>, total: nat)
    requires items != [] && total <= MAX64
    ensures InlineBytes([], total) == Some(total)
    ensures InlineBytes(items, total)
         == if !items[0].Inline? then InlineBytes(items[1..], total)
            else if DecodedSize(items[0].text) > MAX64 - total then None
            else InlineBytes(items[1..], total + DecodedSize(items[0].text))
  {
    hide DecodedSize;
  }

  /** For any line that decodes, over whatever bytes the child left in the Arenas, the budget pre-pass
      counts exactly the bytes that decoding then inlines. */
  lemma {:induction false} BudgetIsExact(memory: Memory, protocol: nat, items: seq<Item>, total: nat)
    requires Sized(memory) && DecodeAllBytes(memory, protocol, items).Some? && total <= MAX64
    ensures |DecodeAllBytes(memory, protocol, items).value| == |items|
    ensures var n := total + InlineDecoded(items, DecodeAllBytes(memory, protocol, items).value);
      InlineBytes(items, total) == if n <= MAX64 then Some(n) else None
    decreases |items|
  {
    DecodeAllLength(memory, protocol, items);
    if items == [] {
    } else {
      hide *;
      var item, rest := items[0], items[1..];
      DecodeAllSteps(memory, protocol, items);
      DecodeAllLength(memory, protocol, rest);
      InlineDecodedSteps(items, item.channel, DecodeBytes(memory, protocol, item).value,
                         DecodeAllBytes(memory, protocol, rest).value);
      InlineBytesSteps(items, total);
      if item.Inline? {
        InlineSizeIsDecoded(memory, protocol, item);
        if DecodedSize(item.text) <= MAX64 - total {
          BudgetIsExact(memory, protocol, rest, total + DecodedSize(item.text));
        }
      } else {
        BudgetIsExact(memory, protocol, rest, total);
      }
    }
  }
}
