// Fixed-width integers, optional values and the one addition on virtual time.

module VirtualTime {
  const TWO64: int := 0x1_0000_0000_0000_0000
  const TWO32: int := 0x1_0000_0000
  const MAX64: int := TWO64 - 1

  type u64 = x: int | 0 <= x < TWO64
  type pos64 = x: int | 0 < x < TWO64 witness 1
  type byte = x: int | 0 <= x < 256

  datatype Option<+T> = None | Some(value: T)

  /** The instant `delta` after `from`, or nothing when 64 bits cannot hold it. */
  function VirtualTimeAfter(from: u64, delta: u64): (r: Option<u64>)
    ensures r.Some? <==> from + delta < TWO64
    ensures r.Some? ==> r.value == from + delta
  {
    if delta > MAX64 - from then None else Some(from + delta)
  }

  /** `value_or(UINT64_MAX)`: the addition an interceptor delay makes. */
  function SaturatingAfter(from: u64, delta: u64): (r: u64)
    ensures r == if from + delta < TWO64 then from + delta else MAX64
  {
    match VirtualTimeAfter(from, delta)
    case Some(t) => t
    case None => MAX64
  }
}
