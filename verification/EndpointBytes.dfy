/** Endpoint descriptors from their fields (section 9.6.6 of the USB 2.0 specification): what the server
    loads from one, and what a full speed host is shown of it, field by field. */
module EndpointBytes {
  import opened Urbs
  import opened Descriptors
  import opened OtherSpeed

  /** `kind` is 0 for control, 1 for isochronous, 2 for bulk and 3 for interrupt endpoints, `flags` the
      other bits of bmAttributes, and `extra` what a class adds behind the seven bytes. */
  datatype EndpointInfo = EndpointInfo(number: nat, input: bool, kind: nat, flags: nat, maxPacket: nat, interval: byte,
                                       extra: seq<byte>)

  predicate Possible(e: EndpointInfo) {
    e.number < 16 && e.kind < 4 && e.flags < 64 && e.maxPacket < 0x1_0000 && |e.extra| <= 248
  }

  function Bytes(e: EndpointInfo): (d: Desc)
    requires Possible(e)
    ensures |d| == 7 + |e.extra|
  {
    [7 + |e.extra|, 5, e.number + (if e.input then 0x80 else 0), e.kind + 4 * e.flags,
     e.maxPacket % 0x100, e.maxPacket / 0x100, e.interval] + e.extra
  }

  lemma BytesAreEndpoint(e: EndpointInfo)
    requires Possible(e)
    ensures var d := Bytes(e);
            && Framed(d) && IsEndpoint(d) && Kind(d) == e.kind && MaxPacket(d) == e.maxPacket && IsIn(d) == e.input
            && SlotOf(d) == (if e.input then 16 else 0) + e.number
  {
  }

  /** In a configuration with unique addresses, the server knows each endpoint's type, and serves
      isochronous and interrupt IN endpoints every 2^(bInterval - 1) microframes of 125 us, with bInterval
      at most 16. It keeps no pace for the others. */
  lemma TableOfEndpoint(ds: seq<Desc>, i: nat, e: EndpointInfo)
    requires Possible(e) && AllFramed(ds) && Unique(ds) && i < |ds| && ds[i] == Bytes(e)
    ensures var entry := Loaded(ds)[(if e.input then 16 else 0) + e.number];
            var paced := e.kind == 1 || (e.kind == 3 && e.input);
            && entry.kind == e.kind && entry.nextPollUs == 0 && entry.streamEndUs == 0
            && entry.intervalUs == if paced && e.interval > 0 then 125 * Pow2((if e.interval > 16 then 16 else e.interval) - 1) else 0
  {
    hide Loaded, Unique, Bytes, Kind, Pow2, SlotOf, IsIn, Framed;
    BytesAreEndpoint(e);
    IntervalByte(e);
    TableReadsOff(ds, i);
  }

  lemma IntervalByte(e: EndpointInfo)
    requires Possible(e)
    ensures Bytes(e)[6] == e.interval
  {
  }

  /** The interval a full speed host is told, in every case: interrupt endpoints count milliseconds, at
      least 1 and at most 255, isochronous ones are three exponents lower, and at least 1. */
  function SlowerInterval(kind: nat, b: byte): byte {
    if kind == 3 then
      if b == 0 then 0
      else if b <= 4 then 1
      else if b == 5 then 2 else if b == 6 then 4 else if b == 7 then 8 else if b == 8 then 16
      else if b == 9 then 32 else if b == 10 then 64 else if b == 11 then 128
      else 255
    else if kind == 1 then if b <= 4 then 1 else b - 3
    else b
  }

  function Slower(e: EndpointInfo): (r: EndpointInfo)
    requires Possible(e)
    ensures Possible(r)
  {
    e.(maxPacket := if e.kind == 2 || e.kind == 3 then Min(e.maxPacket, 64)
                    else if e.kind == 1 then Min(e.maxPacket % 0x800, 1023)
                    else e.maxPacket,
       interval := SlowerInterval(e.kind, e.interval))
  }

  lemma IntervalIsSlower(b: byte)
    ensures SlowInterruptInterval(b) == SlowerInterval(3, b)
    ensures SlowIsoInterval(b) == SlowerInterval(1, b)
  {
    PowersOfTwo();
    hide Pow2;
  }

  /** What the full speed configuration says of an endpoint: the same address and type, a packet size and
      an interval that full speed allows. */
  lemma SlowOfEndpoint(e: EndpointInfo)
    requires Possible(e)
    ensures Slow(Bytes(e)) == Bytes(Slower(e))
  {
    hide SlowerInterval, SlowInterruptInterval, SlowIsoInterval;
    IntervalIsSlower(e.interval);
    OtherInterval(e.kind, e.interval);
    BytesAreEndpoint(e);
    var d := Bytes(e);
    assert SlowMax(d) == Slower(e).maxPacket;
  }

  lemma OtherInterval(kind: nat, b: byte)
    ensures kind != 1 && kind != 3 ==> SlowerInterval(kind, b) == b
  {
  }

  /** A full speed host is shown a descriptor of type 7 in place of the configuration's, and each endpoint
      of a well-formed configuration with the fields that `Slower` gives it. */
  lemma FullSpeedOfEndpoint(ds: seq<Desc>, i: nat, e: EndpointInfo)
    requires AllFramed(ds) && 0 < i < |ds| && Possible(e) && ds[i] == Bytes(e)
    ensures |ds[0]| >= 2 && |FullSpeed(ds)| == |ds|
    ensures FullSpeed(ds)[0] == ds[0][1 := 7] && FullSpeed(ds)[i] == Bytes(Slower(e))
  {
    hide Bytes, Slower, Slow;
    assert Framed(ds[0]);
    FullSpeedAt(ds, i);
    SlowOfEndpoint(e);
  }
}
