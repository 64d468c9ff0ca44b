/** The server's protocol code as it runs: fixed arrays changed in place, bytes read from and written
    to one connection. Every method is proved against the values in `Service` and `Greedy`.

    The connection is an in-order channel that may end: `input` is everything the client will ever
    send, `capacity` how many bytes it will still take. Device callbacks are `Callbacks`. */
module Protocol {
  import opened Urbs
  import opened Wire
  import opened IsoPacking
  import opened Service
  import opened Listing
  import D = Descriptors
  import I = Interfaces
  import R = Rounds
  import Client
  import G = Greedy
  import S = Schedule

  class Server {
    const pendingUrbs: array<Urb>
    var numPending: nat
    const endpoints: array<Endpoint>
    var waitTimeoutUs: nat
    const txBuffer: array<byte>
    var bufs: seq<seq<byte>>
    var imported: bool

    var input: seq<byte>
    var output: seq<byte>
    var capacity: nat

    const dev: Callbacks

    ghost predicate Valid()
      reads this, pendingUrbs, endpoints
    {
      && pendingUrbs.Length == MAX_PENDING_URBS && endpoints.Length == 32 && txBuffer.Length == MAX_TRANSFER
      && numPending <= MAX_PENDING_URBS && |bufs| == 16
      && AllChecked(pendingUrbs[..numPending])
    }

    /** The queue these arrays hold. */
    ghost function Abs(): (q: Queue)
      reads this, pendingUrbs, endpoints
      requires Valid()
      ensures Sized(q) && AllChecked(q.pending)
    {
      Queue(pendingUrbs[..numPending], endpoints[..], waitTimeoutUs)
    }

    constructor (dev: Callbacks)
      ensures Valid() && !imported && numPending == 0 && input == [] && output == [] && capacity == 0
      ensures this.dev == dev && fresh(pendingUrbs) && fresh(endpoints) && fresh(txBuffer)
    {
      pendingUrbs := new Urb[MAX_PENDING_URBS](_ => Urb(0, 0, 0, 0, false, 0, [], 0));
      endpoints := new Endpoint[32](_ => NO_ENDPOINT);
      txBuffer := new byte[MAX_TRANSFER](_ => 0);
      numPending, waitTimeoutUs, imported := 0, WAIT_TIMEOUT_US, false;
      bufs := seq(16, _ => []);
      input, output, capacity := [], [], 0;
      this.dev := dev;
    }

    // ----- The connection -----

    method Read(n: nat) returns (ok: bool, data: seq<byte>)
      modifies this`input
      ensures ok == (n <= |old(input)|)
      ensures ok ==> data == old(input)[..n] && input == old(input)[n..]
    {
      ok := n <= |input|;
      if ok {
        data, input := input[..n], input[n..];
      } else {
        data, input := [], [];
      }
    }

    /** As much was written as the client took, and the connection is lost unless that is all. */
    ghost predicate Sent(ok: bool, bytes: seq<byte>, out: seq<byte>, room: nat)
      reads this`output, this`capacity
    {
      && (ok <==> |bytes| <= room)
      && output == out + Cut(bytes, room) && capacity == room - |Cut(bytes, room)|
    }

    method Write(data: seq<byte>) returns (ok: bool)
      modifies this`output, this`capacity
      ensures Sent(ok, data, old(output), old(capacity))
    {
      ok := |data| <= capacity;
      var n := Min(|data|, capacity);
      output, capacity := output + data[..n], capacity - n;
    }

    // ----- The queue -----

    /** Deletes an entry by moving the later ones down. */
    method RemovePendingUrb(i: nat)
      requires Valid() && i < numPending
      modifies this`numPending, pendingUrbs
      ensures Valid() && Abs() == old(Abs()).(pending := Remove(old(Abs()).pending, i))
    {
      ghost var before := pendingUrbs[..numPending];
      var n := numPending - 1;
      numPending := n;
      for k := i to n
        invariant numPending == n
        invariant forall j :: 0 <= j < k ==> pendingUrbs[j] == before[if j < i then j else j + 1]
        invariant forall j :: k <= j <= n ==> pendingUrbs[j] == before[j]
      {
        pendingUrbs[k] := pendingUrbs[k + 1];
      }
      assert pendingUrbs[..n] == Remove(before, i);
    }

    method Push(u: Urb)
      requires Valid() && numPending < MAX_PENDING_URBS && Checked(u)
      modifies this`numPending, pendingUrbs
      ensures Valid() && Abs() == old(Abs()).(pending := old(Abs()).pending + [u])
    {
      pendingUrbs[numPending] := u;
      numPending := numPending + 1;
      assert pendingUrbs[..numPending] == old(pendingUrbs[..numPending]) + [u];
    }

    method HasPendingIsoUrbs(ep: u32, direction: u32) returns (found: bool)
      requires Valid()
      ensures found == HasIso(Abs().pending, ep, direction)
    {
      for i := 0 to numPending
        invariant !HasIso(pendingUrbs[..i], ep, direction)
      {
        if pendingUrbs[i].isochronous && pendingUrbs[i].ep == ep && pendingUrbs[i].direction == direction {
          assert Abs().pending[i] == pendingUrbs[i];
          return true;
        }
      }
      return false;
    }

    /** Looks for a pending transfer, takes it out, and lets a stopped stream start over. */
    method CancelPendingUrb(target: u32) returns (found: bool)
      requires Valid()
      modifies this`numPending, pendingUrbs, endpoints
      ensures Valid() && Abs() == Cancel(old(Abs()), target)
      ensures found == (Find(old(Abs()).pending, target) < |old(Abs()).pending|)
    {
      var i := 0;
      ghost var before := Abs();
      while i < numPending && pendingUrbs[i].seqnum != target
        invariant i <= numPending
        invariant forall j :: 0 <= j < i ==> before.pending[j].seqnum != target
      {
        i := i + 1;
      }
      found := i < numPending;
      assert i == Find(before.pending, target);
      if found {
        var u := pendingUrbs[i];
        RemovePendingUrb(i);
        if u.isochronous {
          var more := HasPendingIsoUrbs(u.ep, u.direction);
          if !more {
            var slot := Slot(u.direction, u.ep);
            endpoints[slot] := endpoints[slot].(streamEndUs := 0);
          }
        }
      }
    }

    // ----- Replies, written in parts -----

    /** Goes on writing, unless the connection is lost or there is nothing to write. */
    method WriteNext(before: bool, part: seq<byte>, ghost said: seq<byte>, ghost out: seq<byte>, ghost room: nat)
        returns (ok: bool)
      requires Sent(before, said, out, room)
      modifies this`output, this`capacity
      ensures Sent(ok, said + part, out, room)
    {
      hide Cut;
      ok := before;
      OneAfterOther(said, part, room);
      if ok && |part| > 0 {
        ok := Write(part);
        Onwards(output, out, said, Cut(part, room - |said|));
      } else if part == [] {
        assert said + part == said;
      }
    }

    /** Writes the parts of a reply. */
    method WriteParts(header: seq<byte>, body: seq<byte>, data: seq<byte>, descriptors: seq<byte>) returns (ok: bool)
      modifies this`output, this`capacity
      ensures Sent(ok, header + body + data + descriptors, old(output), old(capacity))
    {
      ok := Write(header);
      ok := WriteNext(ok, body, header, old(output), old(capacity));
      ok := WriteNext(ok, data, header + body, old(output), old(capacity));
      ok := WriteNext(ok, descriptors, header + body + data, old(output), old(capacity));
    }

    /** `data` is the start of the transmit buffer, OUT transfers only report its length. */
    method TransmitRetSubmit(seqnum: u32, status: u32, actual: u32, data: seq<byte>) returns (ok: bool)
      modifies this`output, this`capacity
      ensures Sent(ok, EncodeReply(Answer(seqnum, status, actual, data)), old(output), old(capacity))
    {
      PartsOf(Answer(seqnum, status, actual, data));
      ok := WriteParts(Words([RET_SUBMIT, seqnum, 0, 0, 0]), Words([status, actual, 0, NO_PACKETS, 0]) + Zeros(8), data, []);
    }

    method TransmitRetUnlink(seqnum: u32, status: u32) returns (ok: bool)
      modifies this`output, this`capacity
      ensures Sent(ok, EncodeReply(Unlinked(seqnum, status)), old(output), old(capacity))
    {
      ok := WriteParts(Words([RET_UNLINK, seqnum, 0, 0, 0]), Words([status]) + Zeros(24), [], []);
    }

    method TransmitIsoRetSubmit(u: Urb) returns (ok: bool)
      requires Checked(u) && txBuffer.Length == MAX_TRANSFER
      modifies this`output, this`capacity, txBuffer
      ensures Sent(ok, EncodeReply(IsoReply(u, dev.isoIn(u.seqnum))), old(output), old(capacity))
    {
      var ds: seq<IsoDescriptor>, total: nat, data: seq<byte>;
      LengthsBound(u.packets, MAX_TRANSFER);
      if u.direction != 0 {
        ds, total := PackIn(u.packets, u.length, txBuffer, dev.isoIn(u.seqnum));
        data := txBuffer[..total];
      } else {
        ds, total := AcceptAll(u.packets);
        data := [];
      }
      PartsOf(Submitted(u.seqnum, 0, total, u.startFrame, |u.packets|, data, ds));
      ok := WriteParts(Words([RET_SUBMIT, u.seqnum, 0, 0, 0]), Words([0, total, u.startFrame, |u.packets|, 0]) + Zeros(8),
                       data, Descriptors(ds));
    }

    // ----- Commands, read in parts -----

    /** The command at the front of the connection, as `Parse` reads it. */
    method ReadCommand() returns (c: Option<Command>)
      requires Valid()
      modifies this`input
      ensures Read?(c, Parse(old(input), endpoints[..]))
    {
      var ok, header := Read(20);
      if !ok {
        return None;
      }
      UnwordsPrefix(old(input), 20, 5);
      var h := Unwords(header, 5);
      if h[0] == CMD_SUBMIT {
        c := ReadSubmit(h);
      } else if h[0] == CMD_UNLINK {
        c := ReadUnlink(h);
      } else {
        c := None;
      }
    }

    ghost predicate Read?(c: Option<Command>, p: Option<Parsed<Command>>)
      reads this`input
    {
      if p.None? then c.None? else c == Some(p.value.message) && input == p.value.rest
    }

    method ReadUnlink(h: seq<u32>) returns (c: Option<Command>)
      requires |h| == 5
      modifies this`input
      ensures Read?(c, ParseUnlink(h, old(input)))
    {
      var ok, data := Read(28);
      if !ok {
        return None;
      }
      UnwordsPrefix(old(input), 28, 1);
      assert data[4..] == old(input)[4..28];
      return Some(Unlink(h[1], h[2], h[3], h[4], Unwords(data, 1)[0], data[4..]));
    }

    method ReadSubmit(h: seq<u32>) returns (c: Option<Command>)
      requires |h| == 5 && endpoints.Length == 32
      modifies this`input
      ensures Read?(c, ParseSubmit(h, old(input), endpoints[..]))
    {
      var ok, data := Read(28);
      if !ok {
        return None;
      }
      UnwordsPrefix(old(input), 28, 5);
      assert data[20..] == old(input)[20..28];
      var f := Unwords(data, 5);
      if f[1] > MAX_TRANSFER {
        return None;
      }
      c := ReadPayload(h, f, data[20..]);
    }

    method ReadPayload(h: seq<u32>, f: seq<u32>, setup: seq<byte>) returns (c: Option<Command>)
      requires |h| == 5 && |f| == 5 && endpoints.Length == 32
      modifies this`input
      ensures Read?(c, ParsePayload(h, f, setup, old(input), endpoints[..]))
    {
      var payload: seq<byte> := [];
      if h[3] == 0 {
        var ok;
        ok, payload := Read(f[1]);
        if !ok {
          return None;
        }
      }
      if h[4] != 0 && endpoints[Slot(h[3], h[4])].kind == XFER_ISOC {
        c := ReadPackets(h, f, setup, payload);
      } else {
        c := Some(Assemble(h, f, setup, payload, []));
      }
    }

    method ReadPackets(h: seq<u32>, f: seq<u32>, setup: seq<byte>, payload: seq<byte>) returns (c: Option<Command>)
      requires |h| == 5 && |f| == 5
      modifies this`input
      ensures Read?(c, ParsePackets(h, f, setup, payload, old(input)))
    {
      if f[3] > MAX_ISO_PACKETS {
        return None;
      }
      var ok, data := Read(16 * f[3]);
      if !ok {
        return None;
      }
      UndescriptorsPrefix(old(input), f[3]);
      var ds := Undescriptors(data, f[3]);
      for i := 0 to |ds|
        invariant Inside(ds[..i], f[1])
      {
        if ds[i].offset + ds[i].length > f[1] {
          return None;
        }
      }
      assert ds[..|ds|] == ds;
      c := Some(Assemble(h, f, setup, payload, ds));
    }

    // ----- Commands, carried out -----

    ghost predicate Did(ok: bool, r: Response, out: seq<byte>, room: nat)
      reads this, pendingUrbs, endpoints
    {
      Valid() && Sent(ok, EncodeReplies(r.replies), out, room) && (ok ==> Abs() == r.queue)
    }

    method ProcessUnlink(c: Command, now: nat) returns (ok: bool)
      requires Valid() && c.Unlink? && WellFormed(c, endpoints[..])
      modifies this`numPending, this`output, this`capacity, pendingUrbs, endpoints
      ensures Did(ok, Serve(old(Abs()), c, now, dev), old(output), old(capacity))
    {
      var found := CancelPendingUrb(c.target);
      ok := TransmitRetUnlink(c.seqnum, if found then URB_UNLINKED else 0);
      R.EncodeOne(Unlinked(c.seqnum, if found then URB_UNLINKED else 0));
    }

    method ProcessIsoSubmit(c: Command, now: nat) returns (ok: bool)
      requires Valid() && c.Submit? && WellFormed(c, endpoints[..]) && IsIso(endpoints[..], c.direction, c.ep)
      modifies this`numPending, this`output, this`capacity, pendingUrbs, endpoints, txBuffer
      ensures Did(ok, Serve(old(Abs()), c, now, dev), old(output), old(capacity))
    {
      var slot := Slot(c.direction, c.ep);
      var e := endpoints[slot];
      var due := Due(e, |c.packets|, now);
      var u := UrbOf(c, true).(completeUs := due);
      endpoints[slot] := e.(streamEndUs := due);
      if numPending == MAX_PENDING_URBS {
        ok := TransmitIsoRetSubmit(u);
        R.EncodeOne(IsoReply(u, dev.isoIn(u.seqnum)));
      } else {
        Push(u);
        ok := true;
      }
    }

    method ProcessSubmit(c: Command, now: nat) returns (ok: bool)
      requires Valid() && c.Submit? && WellFormed(c, endpoints[..])
      modifies this`numPending, this`output, this`capacity, pendingUrbs, endpoints, txBuffer
      ensures Did(ok, Serve(old(Abs()), c, now, dev), old(output), old(capacity))
    {
      if c.ep != 0 && endpoints[Slot(c.direction, c.ep)].kind == XFER_ISOC {
        ok := ProcessIsoSubmit(c, now);
      } else if c.ep == 0 {
        var r := dev.control(c.seqnum);
        ok := ProcessControl(c, r);
        R.EncodeOne(ControlReply(c, r));
      } else if c.direction == 0 {
        ok := TransmitRetSubmit(c.seqnum, 0, c.length, []);
        R.EncodeOne(Answer(c.seqnum, 0, c.length, []));
      } else if numPending == MAX_PENDING_URBS {
        ok := TransmitRetSubmit(c.seqnum, 0, 0, []);
        R.EncodeOne(Answer(c.seqnum, 0, 0, []));
      } else {
        Push(UrbOf(c, false));
        ok := true;
      }
    }

    method ProcessControl(c: Command, r: ControlResult) returns (ok: bool)
      requires c.Submit?
      modifies this`output, this`capacity
      ensures Sent(ok, EncodeReply(ControlReply(c, r)), old(output), old(capacity))
    {
      var supported := r.supported;
      var data: seq<byte> := [];
      if c.direction == 1 {
        if r.answer.Some? {
          data := r.answer.value[..Min(|r.answer.value|, c.length)];
        }
        if c.length > 0 && r.answer.None? {
          supported := false;
        }
      }
      if !supported {
        ok := TransmitRetSubmit(c.seqnum, EP_STALL, 0, []);
      } else if c.direction == 0 {
        ok := TransmitRetSubmit(c.seqnum, 0, c.length, []);
      } else {
        ok := TransmitRetSubmit(c.seqnum, 0, |data|, data);
      }
    }

    /** One command: exactly its bytes are consumed, and its replies are written. */
    method ProcessImportedCmd(now: nat) returns (ok: bool)
      requires Valid()
      modifies this`numPending, this`input, this`output, this`capacity, pendingUrbs, endpoints, txBuffer
      ensures Valid()
      ensures var p := Parse(old(input), old(endpoints[..]));
              if p.None? then !ok && output == old(output) && capacity == old(capacity)
              else
                && old(input) == Encode(p.value.message) + p.value.rest && WellFormed(p.value.message, old(endpoints[..]))
                && Did(ok, Serve(old(Abs()), p.value.message, now, dev), old(output), old(capacity))
                && input == p.value.rest
    {
      var c := ReadCommand();
      if c.None? {
        return false;
      }
      EncodeOfParse(old(input), endpoints[..]);
      if c.value.Submit? {
        ok := ProcessSubmit(c.value, now);
      } else {
        ok := ProcessUnlink(c.value, now);
      }
    }

    // ----- The completion pass -----

    ghost predicate At(st: G.State<byte>)
      reads this, pendingUrbs, endpoints
    {
      Valid() && G.Ready(st) && st.queue == Abs() && st.bufs == bufs && AllReplied(st.done)
    }

    /** Takes data out of an endpoint's buffer. */
    method FetchEpData(ep: nat, max: nat) returns (data: seq<byte>)
      requires ep < |bufs|
      modifies this`bufs
      ensures data == old(bufs[ep])[..Min(max, |old(bufs[ep])|)] && bufs == old(bufs)[ep := old(bufs[ep])[|data|..]]
    {
      var n := Min(max, |bufs[ep]|);
      data := bufs[ep][..n];
      bufs := bufs[ep := bufs[ep][n..]];
    }

    /** Fetches for a transfer that may be polled, and takes it out if there was data. */
    method Poll(i: nat, now: nat, ghost st: G.State<byte>) returns (data: seq<byte>)
      requires At(st) && i < numPending && !pendingUrbs[i].isochronous && IsDue(Abs(), pendingUrbs[i], now)
      modifies this`numPending, this`bufs, pendingUrbs, endpoints
      ensures var (u, st') := (old(pendingUrbs[i]), G.Step(st, i, now));
              && At(st') && G.After(st, i, now) == (if data == [] then i + 1 else i) && |data| <= u.length
              && st'.done == if data == [] then st.done else st.done + [G.Done(u, data)]
    {
      hide G.Step, G.After, Remove, Checked;
      var u := pendingUrbs[i];
      data := FetchEpData(u.ep % 16, u.length);
      PolledStep(st, i, now, data);
      if |data| > 0 {
        var slot := Slot(1, u.ep);
        endpoints[slot] := endpoints[slot].(nextPollUs := now + endpoints[slot].intervalUs);
        RemovePendingUrb(i);
      }
    }

    /** Takes out an isochronous transfer that is due. */
    method Stream(i: nat, now: nat, ghost st: G.State<byte>)
      requires At(st) && i < numPending && pendingUrbs[i].isochronous && IsDue(Abs(), pendingUrbs[i], now)
      modifies this`numPending, pendingUrbs
      ensures var st' := G.Step(st, i, now);
              At(st') && G.After(st, i, now) == i && st'.done == st.done + [G.Done(old(pendingUrbs[i]), [])]
    {
      RemovePendingUrb(i);
    }

    /** Shortens the wait for a transfer that is not due yet. */
    method Later(i: nat, now: nat, ghost st: G.State<byte>)
      requires At(st) && i < numPending && !IsDue(Abs(), pendingUrbs[i], now)
      modifies this`waitTimeoutUs
      ensures At(G.Step(st, i, now)) && G.After(st, i, now) == i + 1 && G.Step(st, i, now).done == st.done
    {
      var u := pendingUrbs[i];
      var due := if u.isochronous then u.completeUs else endpoints[Slot(1, u.ep)].nextPollUs;
      if due - now < waitTimeoutUs {
        waitTimeoutUs := due - now;
      }
    }

    /** One iteration of the pass, `bytes` is what it has to say. */
    method VisitUrb(i: nat, now: nat, ghost st: G.State<byte>) returns (next: nat, ok: bool, ghost bytes: seq<byte>)
      requires At(st) && i < numPending
      modifies this`numPending, this`bufs, this`waitTimeoutUs, this`output, this`capacity, pendingUrbs, endpoints, txBuffer
      ensures At(G.Step(st, i, now)) && next == G.After(st, i, now)
      ensures DoneBytes(G.Step(st, i, now).done, dev) == DoneBytes(st.done, dev) + bytes
      ensures Sent(ok, bytes, old(output), old(capacity))
    {
      hide G.Step, G.After, DoneBytes, EncodeReply, IsoReply;
      var u := pendingUrbs[i];
      ok, bytes, next := true, [], i;
      if now < (if u.isochronous then u.completeUs else endpoints[Slot(1, u.ep)].nextPollUs) {
        Later(i, now, st);
        next := i + 1;
      } else if u.isochronous {
        bytes := EncodeReply(DoneReply(G.Done(u, []), dev));
        DoneMore(st.done, G.Done(u, []), dev);
        ok := TransmitIsoRetSubmit(u);
        Stream(i, now, st);
      } else {
        var data := Poll(i, now, st);
        if |data| > 0 {
          bytes := EncodeReply(DoneReply(G.Done(u, data), dev));
          DoneMore(st.done, G.Done(u, data), dev);
          ok := TransmitRetSubmit(u.seqnum, 0, |data|, data);
        } else {
          next := i + 1;
        }
      }
    }

    /** Device threads hand over data while the server holds no lock. */
    method Arrive(ss: seq<G.Store<byte>>)
      requires |bufs| == 16
      modifies this`bufs
      ensures bufs == G.Stored(old(bufs), ss)
    {
      for k := 0 to |ss|
        invariant |bufs| == 16 && bufs == G.Stored(old(bufs), ss[..k])
      {
        var e := ss[k].ep % 16;
        if e != 0 && bufs[e] == [] {
          bufs := bufs[e := Cut(ss[k].data, ENDPOINT_MAX_DATA)];
        }
        assert ss[..k + 1][..k] == ss[..k];
      }
      assert ss[..|ss|] == ss;
    }

    /** A pass that will end in `f` has got to `st` at index `i`, and all it said was written. */
    ghost predicate Passing(st: G.State<byte>, i: nat, now: nat, feeds: Feeds, f: G.State<byte>, out: seq<byte>, room: nat)
      reads this, pendingUrbs, endpoints
    {
      && At(st) && i <= numPending && G.PassWith(st, i, now, feeds) == f
      && Sent(true, DoneBytes(st.done, dev), out, room)
    }

    /** A pass that would have ended in `f` has lost the connection. */
    ghost predicate Cutoff(f: G.State<byte>, out: seq<byte>, room: nat)
      reads this`output, this`capacity
    {
      AllReplied(f.done) && Sent(false, DoneBytes(f.done, dev), out, room)
    }

    /** One iteration of the loop. */
    method PassUrb(i: nat, now: nat, feeds: Feeds, ghost st: G.State<byte>, ghost f: G.State<byte>, ghost out: seq<byte>, ghost room: nat)
        returns (next: nat, ok: bool)
      requires Passing(st, i, now, feeds, f, out, room) && i < numPending
      modifies this`numPending, this`bufs, this`waitTimeoutUs, this`output, this`capacity, pendingUrbs, endpoints, txBuffer
      ensures Valid() && next <= numPending && numPending - next < old(numPending) - i
      ensures ok ==> Passing(G.Step(G.Fed(st, G.First(feeds)), i, now), next, now, G.Rest(feeds), f, out, room)
      ensures !ok ==> Cutoff(f, out, room)
    {
      hide G.Step, G.After, G.Stored, DoneBytes, Cut;
      ghost var fed := G.Fed(st, G.First(feeds));
      PassGoesOn(st, i, now, feeds);
      Arrive(G.First(feeds));
      ghost var mid, left := output, capacity;
      ghost var bytes;
      next, ok, bytes := VisitUrb(i, now, fed);
      PassSaysMore(G.Step(fed, i, now), next, now, G.Rest(feeds), dev);
      Whole(DoneBytes(st.done, dev), room);
      OneAfterOther(DoneBytes(st.done, dev), bytes, room);
      Prefixed(DoneBytes(G.Step(fed, i, now).done, dev), DoneBytes(f.done, dev), room);
    }

    /** The loop of the pass, and what is still to arrive when it ends. */
    method PassLoop(now: nat, feeds: Feeds, ghost start: G.State<byte>, ghost f: G.State<byte>, ghost out: seq<byte>, ghost room: nat)
        returns (ok: bool, rest: Feeds, ghost st: G.State<byte>)
      requires Passing(start, 0, now, feeds, f, out, room)
      modifies this`numPending, this`bufs, this`waitTimeoutUs, this`output, this`capacity, pendingUrbs, endpoints, txBuffer
      ensures Valid() && (ok ==> Passing(st, numPending, now, rest, f, out, room)) && (!ok ==> Cutoff(f, out, room))
    {
      var i: nat := 0;
      ok, rest, st := true, feeds, start;
      hide Passing, Cutoff, G.Step, G.Fed;
      while ok && i < numPending
        invariant Valid() && i <= numPending
        invariant ok ==> Passing(st, i, now, rest, f, out, room)
        invariant !ok ==> Cutoff(f, out, room)
        decreases numPending - i
      {
        ghost var at := i;
        i, ok := PassUrb(i, now, rest, st, f, out, room);
        if ok {
          st, rest := G.Step(G.Fed(st, G.First(rest)), at, now), G.Rest(rest);
        }
      }
    }

    /** Oldest first: completes what is due, and computes how long the server may wait. */
    method CompletePendingUrbs(now: nat, feeds: Feeds) returns (ok: bool)
      requires Valid()
      modifies this`numPending, this`bufs, this`waitTimeoutUs, this`output, this`capacity, pendingUrbs, endpoints, txBuffer
      ensures Valid()
      ensures var f := G.PassWith(G.State(old(Abs()).(timeoutUs := WAIT_TIMEOUT_US), old(bufs), []), 0, now, feeds);
              && AllReplied(f.done) && Sent(ok, DoneBytes(f.done, dev), old(output), old(capacity))
              && (ok ==> Abs() == f.queue && bufs == f.bufs)
    {
      hide G.PassWith, G.Stored, Checked, Cut;
      Whole([], capacity);
      waitTimeoutUs := WAIT_TIMEOUT_US;
      ghost var start := G.State(Abs(), bufs, []);
      ghost var f := G.PassWith(start, 0, now, feeds);
      var rest;
      ghost var st;
      ok, rest, st := PassLoop(now, feeds, start, f, old(output), old(capacity));
      if ok {
        PassEnds(st, now, rest);
        Arrive(G.First(rest));
      }
    }

    // ----- The loop -----

    /** Unread endpoint data is discarded. */
    method ResetDevice()
      requires |bufs| == 16
      modifies this`bufs
      ensures |bufs| == 16 && forall e :: 0 <= e < 16 ==> bufs[e] == []
    {
      for e := 0 to 16
        invariant |bufs| == 16 && forall k :: 0 <= k < e ==> bufs[k] == []
      {
        bufs := bufs[e := []];
      }
    }

    /** What a round leaves: its bytes written as far as the client takes them, and if that is all, the
        queue and the buffers of `RoundOf`. */
    ghost predicate Rounded(ok: bool, r: Round, out: seq<byte>, room: nat)
      reads this, pendingUrbs, endpoints
    {
      Valid() && Sent(ok, r.bytes, out, room) && (ok ==> Abs() == r.queue && bufs == r.bufs)
    }

    /** The completion pass that follows a command which has left the queue and said `a.replies`. */
    method FinishRound(t: Turn, ghost q: Queue, ghost h: Heard, ghost out: seq<byte>, ghost room: nat) returns (ok: bool)
      requires Sized(q) && AllChecked(q.pending) && (h.command.Some? ==> WellFormed(h.command.value, q.table))
      requires h == Hearing(t, h.command) && Did(true, AfterCommand(q, h.command, h.now, dev), out, room)
      modifies this, pendingUrbs, endpoints, txBuffer
      ensures Rounded(ok, RoundOf(q, old(bufs), h, dev), out, room)
      ensures input == old(input) && imported == old(imported)
    {
      hide RoundOf, G.PassWith, DoneBytes, EncodeReplies, AfterCommand, Checked, Cut;
      RoundParts(q, bufs, h, dev);
      ghost var a := AfterCommand(q, h.command, h.now, dev);
      ghost var f := G.PassWith(G.State(a.queue.(timeoutUs := WAIT_TIMEOUT_US), bufs, []), 0, h.later, h.feeds);
      ok := CompletePendingUrbs(t.later, t.feeds);
      ghost var said, more := EncodeReplies(a.replies), DoneBytes(f.done, dev);
      Whole(said, room);
      OneAfterOther(said, more, room);
      Onwards(output, out, said, Cut(more, room - |said|));
    }

    /** A command, then the pass. */
    method RunRound(t: Turn) returns (ok: bool)
      requires Valid()
      modifies this, pendingUrbs, endpoints, txBuffer
      ensures Valid() && imported == old(imported)
      ensures var p := if t.hasData then Parse(old(input), old(endpoints[..])) else None;
              if t.hasData && p.None? then !ok && output == old(output)
              else
                var c := if t.hasData then Some(p.value.message) else None;
                && (c.Some? ==> WellFormed(c.value, old(endpoints[..])))
                && Rounded(ok, RoundOf(old(Abs()), old(bufs), Hearing(t, c), dev), old(output), old(capacity))
                && input == if t.hasData then p.value.rest else old(input)
    {
      hide RoundOf, Serve, Parse, Encode, WellFormed, EncodeReply, Checked, Cut;
      ghost var p := Parse(old(input), old(endpoints[..]));
      ok := true;
      if t.hasData {
        ok := ProcessImportedCmd(t.now);
      }
      if ok {
        Whole([], old(capacity));
        assert output == old(output) + [] || t.hasData;
        ok := FinishRound(t, old(Abs()), Hearing(t, if t.hasData then Some(p.value.message) else None), old(output), old(capacity));
      } else if p.Some? {
        ghost var h := Hearing(t, Some(p.value.message));
        RoundParts(old(Abs()), old(bufs), h, dev);
        ghost var a := AfterCommand(old(Abs()), h.command, h.now, dev);
        ghost var f := G.PassWith(G.State(a.queue.(timeoutUs := WAIT_TIMEOUT_US), old(bufs), []), 0, h.later, h.feeds);
        OneAfterOther(EncodeReplies(a.replies), DoneBytes(f.done, dev), old(capacity));
      }
    }

    /** One round: a command if the client sent one, then the completion pass. A lost connection
        leaves nothing of the session behind. */
    method ProcessImportedDevice(t: Turn) returns (disconnect: bool)
      requires Valid() && imported
      modifies this, pendingUrbs, endpoints, txBuffer
      ensures Valid() && imported == !disconnect
      ensures var p := if t.hasData then Parse(old(input), old(endpoints[..])) else None;
              if t.hasData && p.None? then disconnect && output == old(output)
              else
                var c := if t.hasData then Some(p.value.message) else None;
                && (c.Some? ==> WellFormed(c.value, old(endpoints[..])))
                && var r := RoundOf(old(Abs()), old(bufs), Hearing(t, c), dev);
                   && Sent(!disconnect, r.bytes, old(output), old(capacity))
                   && (!disconnect ==> Abs() == r.queue && bufs == r.bufs
                                       && input == if t.hasData then p.value.rest else old(input))
      ensures disconnect ==> numPending == 0 && forall e :: 0 <= e < 16 ==> bufs[e] == []
    {
      hide RoundOf, Parse, WellFormed, Checked, Cut;
      var ok := RunRound(t);
      if !ok {
        imported, numPending := false, 0;
        ResetDevice();
      }
      disconnect := !ok;
    }

    ghost predicate Quiet()
      reads this
    {
      !imported && numPending == 0
    }

    /** An import starts a session with an empty queue, the endpoint table of the configuration and
        no data from before. Any other request ends the connection, a device list after its reply. Where
        the walk over the interfaces leaves the configuration, nothing is promised of a list. */
    method ProcessCmd(id: Identity) returns (disconnect: bool)
      requires Valid() && Quiet() && Complete(id)
      modifies this, endpoints
      ensures Valid() && imported == !disconnect && numPending == 0
      ensures var p := ParseOperation(old(input));
              && (p.Some? && p.value.message.ImportDevice? ==>
                    input == p.value.rest && Sent(imported, ImportReply(id), old(output), old(capacity)))
              && (p.Some? && p.value.message.ListDevices? && I.Listed(id.config, id.config[4] as int, 0).Some? ==>
                    var reply := ListReply(id, I.Listed(id.config, id.config[4] as int, 0).value);
                    input == p.value.rest && Sent(|reply| <= old(capacity), reply, old(output), old(capacity)))
              && (imported ==> p.Some? && p.value.message.ImportDevice?)
      ensures imported ==> Abs() == Queue([], D.Walked(id.config, 0, D.NoTable()), WAIT_TIMEOUT_US)
      ensures imported ==> forall e :: 0 <= e < 16 ==> bufs[e] == []
    {
      hide D.Walked, I.Listed, ListReply, ImportReply, Cut;
      var status, head := Read(8);
      if status && Half(head, 0) == USBIP_VERSION {
        if Half(head, 2) == OP_REQ_DEVLIST {
          var list := I.ListInterfaces(id.config);
          if list.Some? {
            status := Write(ListReply(id, list.value));
          }
        } else if Half(head, 2) == OP_REQ_IMPORT {
          var busId;
          status, busId := Read(32);
          if status {
            numPending, waitTimeoutUs := 0, WAIT_TIMEOUT_US;
            D.LoadEndpoints(id.config, endpoints);
            ResetDevice();
            imported := Write(ImportReply(id));
          }
        }
      }
      disconnect := !imported;
    }

    /** What the worker's loop comes to in these turns: an import, and then rounds. */
    ghost predicate Served(id: Identity, turns: seq<Turn>, from: seq<byte>, out: seq<byte>, room: nat)
      requires Valid() && Complete(id)
      reads this, pendingUrbs, endpoints
    {
      && Spoken(id, turns, from, dev)
      && var h, r := HeardIn(id, turns, from, dev), RoundsIn(id, turns, from, dev);
         && Abs() == r.queue && bufs == r.bufs && input == h.rest
         && Sent(true, ImportReply(id) + r.bytes, out, room)
    }

    /** The connection was lost in one of these turns: what was written is a prefix of the import reply
        and the bytes of the rounds up to there. */
    ghost predicate Lost(id: Identity, turns: seq<Turn>, from: seq<byte>, out: seq<byte>, room: nat)
      requires Complete(id)
      reads this`output
    {
      exists k :: 0 < k <= |turns| && Spoken(id, turns[..k], from, dev)
                  && output == out + Cut(ImportReply(id) + RoundsIn(id, turns[..k], from, dev).bytes, room)
    }

    /** The worker's loop for one client. While it goes on, it has written the import reply and then the
        bytes of its rounds, one for each turn. Whenever it ends the connection, a prefix of that was
        written, nothing is imported and no transfer is left for the next client. */
    method ServeClient(id: Identity, turns: seq<Turn>) returns (disconnect: bool)
      requires Valid() && Quiet() && Complete(id)
      modifies this, pendingUrbs, endpoints, txBuffer
      ensures Valid() && (disconnect ==> Quiet()) && (!imported ==> Quiet())
      ensures imported ==> Served(id, turns, old(input), old(output), old(capacity))
      ensures disconnect && Imports(old(input)) ==> Lost(id, turns, old(input), old(output), old(capacity))
    {
      hide Served, Spoken, RoundsIn, ImportReply, Cut;
      disconnect := false;
      var k := 0;
      while k < |turns| && !disconnect
        invariant Valid() && (disconnect ==> Quiet()) && (!imported ==> Quiet())
        invariant k <= |turns| && (!imported && !disconnect ==>
                                     k == 0 && input == old(input) && output == old(output) && capacity == old(capacity))
        invariant imported ==> !disconnect && Served(id, turns[..k], old(input), old(output), old(capacity))
        invariant disconnect && Imports(old(input)) ==> Lost(id, turns, old(input), old(output), old(capacity))
      {
        ghost var n;
        if imported {
          disconnect, n := ServeTurn(id, turns[..k], turns[k], old(input), old(output), old(capacity));
        } else {
          disconnect, n := ServeImport(id, turns[k]);
        }
        assert turns[..k + 1] == turns[..k] + [turns[k]] && (k == 0 ==> turns[..k + 1] == [turns[k]]);
        if disconnect && Imports(old(input)) {
          assert (turns[..k] + [turns[k]])[..n] == turns[..n];
        }
        k := k + 1;
      }
      assert imported ==> turns[..k] == turns;
    }

    method ServeImport(id: Identity, t: Turn) returns (disconnect: bool, ghost n: nat)
      requires Valid() && Quiet() && Complete(id)
      modifies this, endpoints
      ensures Valid() && imported == !disconnect && (disconnect ==> Quiet())
      ensures imported ==> Served(id, [t], old(input), old(output), old(capacity))
      ensures n == 1 && (disconnect && Imports(old(input)) ==>
                           && Spoken(id, [t][..n], old(input), dev)
                           && output == old(output) + Cut(ImportReply(id) + RoundsIn(id, [t][..n], old(input), dev).bytes, old(capacity)))
    {
      n := 1;
      assert [t][..1] == [t] && [t][1..] == [];
      disconnect := ProcessCmd(id);
      if Imports(old(input)) {
        FirstRounds(id, ParseOperation(old(input)).value.rest, dev);
        assert ImportReply(id) + [] == ImportReply(id);
      }
      if imported {
        assert bufs == NoData();
      }
    }

    method ServeTurn(id: Identity, ghost turns: seq<Turn>, t: Turn, ghost from: seq<byte>, ghost out: seq<byte>, ghost room: nat)
        returns (disconnect: bool, ghost n: nat)
      requires Valid() && imported && Complete(id) && Served(id, turns, from, out, room)
      modifies this, pendingUrbs, endpoints, txBuffer
      ensures Valid() && imported == !disconnect && (disconnect ==> Quiet())
      ensures imported ==> Served(id, turns + [t], from, out, room)
      ensures disconnect ==>
                && 0 < n <= |turns| + 1 && Spoken(id, (turns + [t])[..n], from, dev)
                && output == out + Cut(ImportReply(id) + RoundsIn(id, (turns + [t])[..n], from, dev).bytes, room)
    {
      hide ImportReply, FirstQueue, RoundOf, Rounds, Hear, Hears, Parse, WellFormed, Cut;
      ghost var before := RoundsIn(id, turns, from, dev);
      ghost var said := ImportReply(id) + before.bytes;
      Whole(said, room);
      assert (turns + [t])[..|turns|] == turns && (turns + [t])[..|turns| + 1] == turns + [t];
      n := |turns| + 1;
      disconnect := ProcessImportedDevice(t);
      if t.hasData && Parse(HeardIn(id, turns, from, dev).rest, before.queue.table).None? {
        n := |turns|;
      } else {
        TurnSpoken(id, turns, t, from, dev);
        ghost var round := RoundsIn(id, turns + [t], from, dev).bytes[|before.bytes|..];
        OneAfterOther(said, round, room);
        Onwards(said + round, ImportReply(id), before.bytes, round);
        Onwards(output, out, said, Cut(round, room - |said|));
      }
    }
  }

  /** The client asks to import the device. */
  ghost predicate Imports(from: seq<byte>) {
    ParseOperation(from).Some? && ParseOperation(from).value.message.ImportDevice?
  }

  /** In these turns the client imports the device and then says well-formed commands only. */
  ghost predicate Spoken(id: Identity, turns: seq<Turn>, from: seq<byte>, dev: Callbacks)
    requires Complete(id)
  {
    && turns != [] && Imports(from)
    && var h := Hear(ParseOperation(from).value.rest, turns[1..], FirstQueue(id).table);
       h.Some? && Hears(FirstQueue(id), NoData(), h.value.message, dev)
  }

  ghost function HeardIn(id: Identity, turns: seq<Turn>, from: seq<byte>, dev: Callbacks): Parsed<seq<Heard>>
    requires Complete(id) && Spoken(id, turns, from, dev)
  {
    Hear(ParseOperation(from).value.rest, turns[1..], FirstQueue(id).table).value
  }

  ghost function RoundsIn(id: Identity, turns: seq<Turn>, from: seq<byte>, dev: Callbacks): Round
    requires Complete(id) && Spoken(id, turns, from, dev)
  {
    Rounds(FirstQueue(id), NoData(), HeardIn(id, turns, from, dev).message, dev)
  }

  /** One more turn, in which the client says nothing or a well-formed command. */
  lemma TurnSpoken(id: Identity, turns: seq<Turn>, t: Turn, from: seq<byte>, dev: Callbacks)
    requires Complete(id) && Spoken(id, turns, from, dev)
    requires var h, table := HeardIn(id, turns, from, dev), RoundsIn(id, turns, from, dev).queue.table;
             t.hasData ==> Parse(h.rest, table).Some? && WellFormed(Parse(h.rest, table).value.message, table)
    ensures Spoken(id, turns + [t], from, dev)
    ensures var h, r := HeardIn(id, turns, from, dev), RoundsIn(id, turns, from, dev);
            var p := if t.hasData then Parse(h.rest, r.queue.table) else None;
            var c := if t.hasData then Some(p.value.message) else None;
            var r' := RoundOf(r.queue, r.bufs, Hearing(t, c), dev);
            && RoundsIn(id, turns + [t], from, dev) == r'.(bytes := r.bytes + r'.bytes)
            && HeardIn(id, turns + [t], from, dev).rest == if t.hasData then p.value.rest else h.rest
  {
    hide RoundOf, Rounds, Hear, Hears, Parse, WellFormed, ParseOperation, FirstQueue;
    OneMoreTurn(FirstQueue(id), NoData(), ParseOperation(from).value.rest, turns[1..], t, dev);
    assert turns[1..] + [t] == (turns + [t])[1..];
  }

  /** The queue an import starts with. */
  ghost function FirstQueue(id: Identity): (q: Queue)
    requires Complete(id)
    ensures Steady(q, NoData())
  {
    Queue([], D.Walked(id.config, 0, D.NoTable()), WAIT_TIMEOUT_US)
  }

  /** The bytes that the worker's loop writes after an import are read back by the client as the replies
      of a session of `Schedule`, if its commands fit that session. */
  lemma ClientReadsServer(id: Identity, hs: seq<Heard>, dev: Callbacks)
    requires Complete(id)
    ensures var q := FirstQueue(id);
            && S.FreshTable(q.table)
            && (R.AllFine(R.Imported(q.table), hs, dev) ==>
                  var rs := R.SessionReplies(R.Imported(q.table), hs, dev);
                  && Hears(q, NoData(), hs, dev)
                  && ParseReplies(Rounds(q, NoData(), hs, dev).bytes, Client.KindsHeard(hs, q.table)) == Some(rs)
                  && R.Distinct(rs))
  {
    D.ImportedIsFresh(id.config);
    var q := FirstQueue(id);
    if R.AllFine(R.Imported(q.table), hs, dev) {
      hide R.AllFine, R.SessionReplies, Hears, Rounds;
      Client.ClientReadsSession(q.table, hs, dev);
    }
  }

  lemma FirstRounds(id: Identity, s: seq<byte>, dev: Callbacks)
    requires Complete(id)
    ensures var q := FirstQueue(id);
            && Hear(s, [], q.table) == Some(Parsed([], s)) && Hears(q, NoData(), [], dev)
            && Rounds(q, NoData(), [], dev) == Round(q, NoData(), [])
  {
  }

  /** The step of a pass at a transfer that may be polled, by what was fetched for it. */
  lemma PolledStep(st: G.State<byte>, i: nat, now: nat, data: seq<byte>)
    requires G.Ready(st) && i < |st.queue.pending| && !st.queue.pending[i].isochronous
    requires IsDue(st.queue, st.queue.pending[i], now)
    requires var buf := st.bufs[G.Ep(st.queue.pending[i])]; data == buf[..Min(st.queue.pending[i].length, |buf|)]
    ensures var (u, q) := (st.queue.pending[i], st.queue);
            var slot := Slot(1, u.ep);
            G.Step(st, i, now) ==
            G.State(if data == [] then q
                    else q.(pending := Remove(q.pending, i),
                            table := q.table[slot := q.table[slot].(nextPollUs := now + q.table[slot].intervalUs)]),
                    st.bufs[G.Ep(u) := st.bufs[G.Ep(u)][|data|..]],
                    if data == [] then st.done else st.done + [G.Done(u, data)])
            && G.After(st, i, now) == if data == [] then i + 1 else i
  {
    assert data == [] ==> st.bufs[G.Ep(st.queue.pending[i]) := st.bufs[G.Ep(st.queue.pending[i])][|data|..]] == st.bufs;
  }

  lemma PassEnds(st: G.State<byte>, now: nat, feeds: Feeds)
    requires G.Ready(st)
    ensures G.PassWith(st, |st.queue.pending|, now, feeds) == G.Fed(st, G.First(feeds))
  {
  }

  lemma Whole(bytes: seq<byte>, room: nat)
    requires |bytes| <= room
    ensures Cut(bytes, room) == bytes
  {
  }

  /** Writing one thing after the other is writing both. */
  lemma OneAfterOther(a: seq<byte>, b: seq<byte>, room: nat)
    ensures |a| > room ==> Cut(a + b, room) == Cut(a, room)
    ensures |a| <= room ==> Cut(a, room) == a && Cut(a + b, room) == a + Cut(b, room - |a|)
  {
  }

  lemma Prefixed(a: seq<byte>, all: seq<byte>, room: nat)
    requires a <= all
    ensures |a| > room ==> Cut(all, room) == Cut(a, room)
  {
  }

  lemma PassGoesOn(st: G.State<byte>, i: nat, now: nat, feeds: Feeds)
    requires G.Ready(st) && i < |st.queue.pending|
    ensures var fed := G.Fed(st, G.First(feeds));
            var (st', i') := (G.Step(fed, i, now), G.After(fed, i, now));
            && G.PassWith(st', i', now, G.Rest(feeds)) == G.PassWith(st, i, now, feeds)
            && i' <= |st'.queue.pending| && |st'.queue.pending| - i' == |st.queue.pending| - i - 1
  {
  }

  lemma Onwards<X>(all: seq<X>, out: seq<X>, a: seq<X>, b: seq<X>)
    requires all == (out + a) + b
    ensures all == out + (a + b)
  {
  }

  lemma PartsOf(r: Reply)
    requires r.Submitted?
    ensures EncodeReply(r) == Words([RET_SUBMIT, r.seqnum, 0, 0, 0])
                              + (Words([r.status, r.actual, r.startFrame, r.packetCount, 0]) + Zeros(8))
                              + r.payload + Descriptors(r.packets)
  {
    FourParts(Words([RET_SUBMIT, r.seqnum, 0, 0, 0]), Words([r.status, r.actual, r.startFrame, r.packetCount, 0]),
              Zeros(8), r.payload, Descriptors(r.packets));
  }

  lemma FourParts<X>(a: seq<X>, b: seq<X>, c: seq<X>, d: seq<X>, e: seq<X>)
    ensures a + (b + (c + (d + e))) == a + (b + c) + d + e
  {
    assert c + (d + e) == c + d + e;
    assert b + (c + d + e) == (b + c) + d + e;
  }

  /** An OUT transfer's packets were all accepted. */
  method AcceptAll(ps: seq<Packet>) returns (ds: seq<IsoDescriptor>, total: nat)
    ensures ds == Accepted(ps) && total == Lengths(ps)
  {
    ds, total := [], 0;
    for i := 0 to |ps|
      invariant ds == Accepted(ps[..i]) && total == Lengths(ps[..i])
    {
      LengthsMore(ps[..i], ps[i]);
      assert ps[..i + 1] == ps[..i] + [ps[i]];
      ds := ds + [IsoDescriptor(ps[i].offset, ps[i].length, ps[i].length, 0)];
      total := total + ps[i].length;
    }
    assert ps[..|ps|] == ps;
  }
}
