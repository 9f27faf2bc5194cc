// Copying bytes into a region.

module Bytes {
  import opened VirtualTime

  function Patched(bytes: seq<byte>, offset: nat, patch: seq<byte>): (r: seq<byte>)
    requires offset + |patch| <= |bytes|
    ensures |r| == |bytes|
    ensures forall k :: 0 <= k < |r| ==> r[k] == if offset <= k < offset + |patch| then patch[k - offset] else bytes[k]
  {
    bytes[..offset] + patch + bytes[offset + |patch|..]
  }

  /** `memcpy` into a byte region. */
  method CopyInto(bytes: array<byte>, offset: nat, patch: seq<byte>)
    requires offset + |patch| <= bytes.Length
    modifies bytes
    ensures bytes[..] == Patched(old(bytes[..]), offset, patch)
  {
    for k := 0 to |patch|
      invariant forall j :: 0 <= j < bytes.Length ==>
        bytes[j] == if offset <= j < offset + k then patch[j - offset] else old(bytes[j])
    {
      bytes[offset + k] := patch[k];
    }
  }
}
