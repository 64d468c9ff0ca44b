/** Pending USB requests (URBs) and what the server thread does to their queue.

    The functions here are the effects of the server's operations on `pending_urbs`, `endpoints`
    and `wait_timeout_us`, as values. `Schedule` runs them as a state machine, `Greedy` gives the
    completion pass a simpler meaning, and `Protocol` proves the in-place code against them. */
module Urbs {
  type byte = x: int | 0 <= x < 0x100
  type u32 = x: int | 0 <= x < 0x1_0000_0000

  datatype Option<+T> = None | Some(value: T)

  const MAX_PENDING_URBS := 32
  const MAX_ISO_PACKETS := 128
  const MAX_TRANSFER := 65536
  const ENDPOINT_MAX_DATA := 512
  const WAIT_TIMEOUT_US := 500000
  const XFER_ISOC := 1
  const XFER_INT := 3

  datatype Packet = Packet(offset: u32, length: u32)

  datatype Urb = Urb(seqnum: u32, ep: u32, direction: u32, length: u32, isochronous: bool,
                     startFrame: u32, packets: seq<Packet>, completeUs: nat)

  datatype Endpoint = Endpoint(kind: nat, intervalUs: nat, nextPollUs: nat, streamEndUs: nat)

  const NO_ENDPOINT := Endpoint(0, 0, 0, 0)

  /** Index into the endpoint table: 16 OUT entries, then 16 IN entries. */
  function Slot(direction: u32, ep: u32): (slot: nat)
    ensures slot < 32
  {
    (if direction != 0 then 16 else 0) + ep % 16
  }

  /** The addresses a host uses: endpoint numbers below 16, direction 0 (OUT) or 1 (IN). */
  predicate Canonical(u: Urb) {
    u.ep < 16 && u.direction <= 1
  }

  datatype Queue = Queue(pending: seq<Urb>, table: seq<Endpoint>, timeoutUs: nat)

  predicate Sized(q: Queue) {
    |q.pending| <= MAX_PENDING_URBS && |q.table| == 32
  }

  function Min(a: nat, b: nat): nat {
    if a < b then a else b
  }

  function Cut<X>(data: seq<X>, max: nat): seq<X> {
    data[..Min(|data|, max)]
  }

  function Remove<X>(s: seq<X>, i: nat): (r: seq<X>)
    requires i < |s|
  {
    s[..i] + s[i + 1..]
  }

  /** An IN transfer waits for data, or is answered without any when the queue is full. */
  function PushIn(q: Queue, u: Urb): Queue {
    if |q.pending| == MAX_PENDING_URBS then q else q.(pending := q.pending + [u])
  }

  /** When a transfer of `packets` packets that arrives at `now` completes. */
  function Due(e: Endpoint, packets: nat, now: nat): nat {
    (if e.streamEndUs > now then e.streamEndUs else now) + packets * e.intervalUs
  }

  function Streaming(q: Queue, slot: nat, due: nat): Queue
    requires slot < |q.table|
  {
    q.(table := q.table[slot := q.table[slot].(streamEndUs := due)])
  }

  /** An isochronous transfer extends its stream even when the queue has no room for it. */
  function PushIso(q: Queue, u: Urb, now: nat): Queue
    requires Sized(q)
  {
    var slot := Slot(u.direction, u.ep);
    var due := Due(q.table[slot], |u.packets|, now);
    PushIn(Streaming(q, slot, due), u.(completeUs := due))
  }

  /** The first pending transfer with this sequence number, or the queue's length. */
  function Find(pending: seq<Urb>, seqnum: u32): (i: nat)
    ensures i <= |pending|
    ensures i < |pending| ==> pending[i].seqnum == seqnum
    ensures forall j :: 0 <= j < i ==> pending[j].seqnum != seqnum
  {
    if pending == [] then 0
    else if pending[0].seqnum == seqnum then 0
    else 1 + Find(pending[1..], seqnum)
  }

  predicate HasIso(pending: seq<Urb>, ep: u32, direction: u32) {
    exists i :: 0 <= i < |pending| && pending[i].isochronous && pending[i].ep == ep
                && pending[i].direction == direction
  }

  /** Whether unlinking the transfer at `i` stops its stream. */
  predicate Drains(pending: seq<Urb>, i: nat)
    requires i < |pending|
  {
    pending[i].isochronous && !HasIso(Remove(pending, i), pending[i].ep, pending[i].direction)
  }

  function Cancel(q: Queue, target: u32): Queue
    requires Sized(q)
  {
    var i := Find(q.pending, target);
    if i == |q.pending| then q
    else
      var rest := q.(pending := Remove(q.pending, i));
      if Drains(q.pending, i) then Streaming(rest, Slot(q.pending[i].direction, q.pending[i].ep), 0)
      else rest
  }

  /** When the completion pass may complete a transfer. */
  function DueUs(q: Queue, u: Urb): nat
    requires Sized(q)
  {
    if u.isochronous then u.completeUs else q.table[Slot(1, u.ep)].nextPollUs
  }

  predicate IsDue(q: Queue, u: Urb, now: nat)
    requires Sized(q)
  {
    DueUs(q, u) <= now
  }

  /** One iteration of the completion pass, at index `i`, with `got` bytes fetched for the
      transfer there. The next index is `i` again when the transfer completes. */
  function Visit(q: Queue, i: nat, now: nat, got: nat): Queue
    requires Sized(q) && i < |q.pending|
  {
    var u := q.pending[i];
    if !IsDue(q, u, now) then q.(timeoutUs := Min(q.timeoutUs, DueUs(q, u) - now))
    else if u.isochronous then q.(pending := Remove(q.pending, i))
    else if got == 0 then q
    else
      var slot := Slot(1, u.ep);
      var e := q.table[slot];
      q.(pending := Remove(q.pending, i), table := q.table[slot := e.(nextPollUs := now + e.intervalUs)])
  }

  predicate Completes(q: Queue, i: nat, now: nat, got: nat)
    requires Sized(q) && i < |q.pending|
  {
    IsDue(q, q.pending[i], now) && (q.pending[i].isochronous || got > 0)
  }
}
