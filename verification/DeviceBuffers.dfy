/** The data of `usbip_device.c`, changed in place.

    Each method is one section that the program runs with `ep_access_mutex` held. It works on byte
    arrays with a length, and is proved to do what the same section does to the state of the machine
    in `Handoff`, whose buffers also know which reset generation every byte belongs to. */
module DeviceBuffers {
  import opened Urbs
  import opened Handoff

  const NUMBER_OF_ENDPOINTS := 16

  /** A transmit whose thread gets the mutex. */
  datatype Call = Call(ep: nat, data: seq<byte>, since: nat, mayWait: bool)

  /** The device after these transmits, each of which waits, stores or gives up. */
  ghost function Transmits(dev: Device, calls: seq<Call>): (r: Device)
    requires |dev.bufs| == 16
    ensures |r.bufs| == 16
  {
    if calls == [] then dev
    else
      var d, c := Transmits(dev, calls[..|calls| - 1]), calls[|calls| - 1];
      if !MustWait(d, c.ep % 16, c.mayWait) && MayStore(d, c.ep % 16, c.since)
      then Put(d, c.ep % 16, Tag(Cut(c.data, ENDPOINT_MAX_DATA), c.since)) else d
  }

  class EndpointData {
    const data: array2<byte>
    const length: array<nat>
    var generation: nat
    var stopped: bool
    var configuration: byte
    var answered: bool
    /** What the bytes of each endpoint are, with their generations. */
    ghost var bufs: seq<seq<Tagged>>

    ghost predicate Holds(e: nat)
      requires e < data.Length0 && e < length.Length && e < |bufs|
      reads this`bufs, data, length
    {
      && length[e] == |bufs[e]| <= data.Length1
      && forall k :: 0 <= k < length[e] ==> data[e, k] == bufs[e][k].value
    }

    ghost predicate Valid()
      reads this`bufs, data, length
    {
      && data.Length0 == length.Length == |bufs| == NUMBER_OF_ENDPOINTS && data.Length1 == ENDPOINT_MAX_DATA
      && forall e :: 0 <= e < NUMBER_OF_ENDPOINTS ==> Holds(e)
    }

    ghost function Dev(): Device
      reads this
    {
      Device(bufs, generation, stopped, configuration, answered)
    }

    constructor ()
      ensures Valid() && fresh(data) && fresh(length)
      ensures Dev() == Device(Empty(), 0, false, 0, false)
    {
      data := new byte[NUMBER_OF_ENDPOINTS, ENDPOINT_MAX_DATA]((_, _) => 0);
      length := new nat[NUMBER_OF_ENDPOINTS](_ => 0);
      generation, stopped, configuration, answered := 0, false, 0, false;
      bufs := Empty();
    }

    /** Copies new data to the front of an endpoint's buffer. */
    method CopyIn(e: nat, input: seq<byte>)
      requires e < data.Length0 && |input| <= data.Length1
      modifies data
      ensures forall k :: 0 <= k < |input| ==> data[e, k] == input[k]
      ensures forall d, k :: 0 <= d < data.Length0 && 0 <= k < data.Length1 && d != e ==> data[d, k] == old(data[d, k])
    {
      for i := 0 to |input|
        invariant forall k :: 0 <= k < i ==> data[e, k] == input[k]
        invariant forall d, k :: 0 <= d < data.Length0 && 0 <= k < data.Length1 && d != e ==> data[d, k] == old(data[d, k])
      {
        data[e, i] := input[i];
      }
    }

    method CopyOut(e: nat, n: nat, buffer: array<byte>)
      requires Valid() && e < NUMBER_OF_ENDPOINTS && Holds(e) && n <= length[e] && n <= buffer.Length
      modifies buffer
      ensures buffer[..n] == old(Values(bufs[e])[..n])
    {
      for i := 0 to n
        invariant forall k :: 0 <= k < i ==> buffer[k] == old(data[e, k])
      {
        buffer[i] := data[e, i];
      }
    }

    /** Moves the bytes from `at` on to the front of the buffer, which they may overlap. */
    method MoveDown(e: nat, at: nat, count: nat)
      requires e < data.Length0 && at + count <= data.Length1
      modifies data
      ensures forall k :: 0 <= k < count ==> data[e, k] == old(data[e, at + k])
      ensures forall d, k :: 0 <= d < data.Length0 && 0 <= k < data.Length1 && d != e ==> data[d, k] == old(data[d, k])
    {
      for i := 0 to count
        invariant forall k :: 0 <= k < i ==> data[e, k] == old(data[e, at + k])
        invariant forall k :: i <= k < data.Length1 ==> data[e, k] == old(data[e, k])
        invariant forall d, k :: 0 <= d < data.Length0 && 0 <= k < data.Length1 && d != e ==> data[d, k] == old(data[d, k])
      {
        data[e, i] := data[e, at + i];
      }
    }

    /** The section of `usbip_device_transmit`, once it holds the mutex: wait, store or give up. */
    method Transmit(ep: nat, input: seq<byte>, since: nat, mayWait: bool) returns (wait: bool, stored: bool)
      requires Valid()
      modifies this, data, length
      ensures Valid()
      ensures wait <==> ep % 16 != 0 && mayWait && !old(stopped) && old(bufs[ep % 16]) != []
      ensures stored <==> !wait && !old(stopped) && since == old(generation) && (ep % 16 == 0 || old(bufs[ep % 16]) == [])
      ensures wait <==> MustWait(old(Dev()), ep % 16, mayWait)
      ensures stored <==> !wait && MayStore(old(Dev()), ep % 16, since)
      ensures Dev() == if stored then Put(old(Dev()), ep % 16, Tag(Cut(input, ENDPOINT_MAX_DATA), since)) else old(Dev())
    {
      var e := ep % 16;
      var n := if |input| > ENDPOINT_MAX_DATA then ENDPOINT_MAX_DATA else |input|;
      var replace := e == 0;
      wait := !replace && mayWait && !stopped && length[e] > 0;
      var wasReset := since != generation;
      stored := !wait && !stopped && !wasReset && (replace || length[e] == 0);
      assert Holds(e);
      if stored {
        CopyIn(e, input[..n]);
        length[e] := n;
        bufs := bufs[e := Tag(input[..n], since)];
        if e == 0 {
          answered := true;
        }
        assert forall d :: 0 <= d < NUMBER_OF_ENDPOINTS ==> old(Holds(d)) ==> Holds(d);
      }
    }

    /** `usbip_device_fetch_ep_data`: a prefix goes out, the rest moves up, endpoint 0 keeps nothing. */
    method Fetch(ep: nat, buffer: array<byte>, max: nat) returns (n: nat, broadcast: bool)
      requires Valid() && max <= buffer.Length
      modifies this`bufs, data, length, buffer
      ensures Valid()
      ensures n <= buffer.Length && buffer[..n] == Values(Cut(old(bufs[ep % 16]), max))
      ensures ep % 16 != 0 ==> Dev() == BodyDevice(old(Dev()), Op.Fetch(ep % 16, max))
      ensures ep % 16 == 0 ==> Dev() == old(Dev()).(bufs := old(bufs)[0 := []])
      ensures broadcast <==> bufs[ep % 16] == []
    {
      var e := ep % 16;
      assert Holds(e);
      var available := length[e];
      n := if max < available then max else available;
      var remaining := available - n;
      CopyOut(e, n, buffer);
      if e == 0 {
        remaining := 0;
      }
      MoveDown(e, n, remaining);
      length[e] := remaining;
      bufs := bufs[e := if e == 0 then [] else bufs[e][n..]];
      broadcast := remaining == 0;
      assert forall d :: 0 <= d < NUMBER_OF_ENDPOINTS ==> old(Holds(d)) ==> Holds(d);
    }

    /** The first section of `usbip_device_fetch_control_reply`: the flag is read and cleared. */
    method TakeAnswered(ghost req: Request) returns (was: bool)
      requires Valid()
      modifies this`answered
      ensures Valid() && was == old(answered) && !answered && Dev() == BodyDevice(old(Dev()), Flag(req))
    {
      was := answered;
      answered := false;
    }

    /** Other threads get in between the two sections of a control reply. */
    method Meanwhile(calls: seq<Call>)
      requires Valid()
      modifies this, data, length
      ensures Valid() && Dev() == Transmits(old(Dev()), calls)
    {
      var k := 0;
      while k < |calls|
        invariant 0 <= k <= |calls| && Valid() && Dev() == Transmits(old(Dev()), calls[..k])
      {
        var wait, stored := Transmit(calls[k].ep, calls[k].data, calls[k].since, calls[k].mayWait);
        assert calls[..k + 1][..k] == calls[..k];
        k := k + 1;
      }
      assert calls[..k] == calls;
    }

    /** `usbip_device_fetch_control_reply`, with what other threads transmit between its two sections:
        the flag is the one from before, the answer is the one from after. */
    method FetchControlReply(buffer: array<byte>, max: nat, calls: seq<Call>, ghost req: Request) returns (was: bool, n: nat)
      requires Valid() && max <= buffer.Length
      modifies this, data, length, buffer
      ensures Valid() && was == old(answered)
      ensures var mid := Transmits(BodyDevice(old(Dev()), Flag(req)), calls);
              && Dev() == BodyDevice(mid, Reply(req, was, 0))
              && n <= buffer.Length && buffer[..n] == Values(Cut(mid.bufs[0], max))
    {
      hide Transmits, Cut;
      was := TakeAnswered(req);
      Meanwhile(calls);
      var last;
      n, last := Fetch(0, buffer, max);
    }

    method ClearLengths()
      requires Valid()
      modifies length, this`bufs
      ensures Valid() && bufs == Empty()
    {
      for e := 0 to NUMBER_OF_ENDPOINTS
        invariant forall d :: 0 <= d < e ==> length[d] == 0
      {
        length[e] := 0;
      }
      bufs := Empty();
    }

    /** The first section of `usbip_device_reset`. */
    method Reset(ghost attach: bool)
      requires Valid()
      modifies this, length
      ensures Valid() && Dev() == BodyDevice(old(Dev()), Op.Reset(attach))
      ensures (forall e :: 0 <= e < 16 ==> bufs[e] == []) && configuration == 0 && !answered
      ensures generation == old(generation) + 1 && stopped == old(stopped)
    {
      ClearLengths();
      configuration, answered := 0, false;
      generation := generation + 1;
    }

    /** `usbip_device_stop` */
    method Stop()
      requires Valid()
      modifies this, length
      ensures Valid() && Dev() == BodyDevice(old(Dev()), Halt)
      ensures (forall e :: 0 <= e < 16 ==> bufs[e] == []) && stopped
      ensures generation == old(generation) && configuration == old(configuration) && answered == old(answered)
    {
      stopped := true;
      ClearLengths();
    }

    /** The first section of `usbip_device_control`, and the configuration a request may set. */
    method BeginControl(req: Request)
      requires Valid()
      modifies this, length
      ensures Valid() && Dev() == BodyDevice(old(Dev()), Op.BeginControl(req))
      ensures bufs == old(bufs)[0 := []] && !answered && generation == old(generation) && stopped == old(stopped)
      ensures configuration == if req.action.SetConfig? then req.action.conf else old(configuration)
    {
      length[0] := 0;
      answered := false;
      bufs := bufs[0 := []];
      if req.action.SetConfig? {
        configuration := req.action.conf;
      }
      assert forall d :: 0 <= d < NUMBER_OF_ENDPOINTS ==> old(Holds(d)) ==> Holds(d);
    }
  }
}
