/** Copying bytes. */
module Memory {
  import opened Urbs

  /** `memcpy` to the position `at` of a buffer. */
  method CopyTo(buffer: array<byte>, at: nat, data: seq<byte>)
    requires at + |data| <= buffer.Length
    modifies buffer
    ensures buffer[..at + |data|] == old(buffer[..at]) + data
  {
    for k := 0 to |data|
      invariant buffer[..at + k] == old(buffer[..at]) + data[..k]
    {
      buffer[at + k] := data[k];
    }
  }
}
