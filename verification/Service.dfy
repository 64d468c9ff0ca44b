/** What the server answers to a command, and to a transfer that completes, as values. */
module Service {
  import opened Urbs
  import opened Wire
  import opened IsoPacking
  import G = Greedy

  const EP_STALL: u32 := 0x1_0000_0000 - 32
  const URB_UNLINKED: u32 := 0x1_0000_0000 - 104
  const NO_PACKETS: u32 := 0xffff_ffff

  /** What the device side makes of a control request. */
  datatype ControlResult = ControlResult(supported: bool, answer: Option<seq<byte>>)

  /** What the device does in a session, by sequence number: what it makes of each control request, and
      the isochronous data of each transfer. Nothing says that it does the same twice. */
  datatype Callbacks = Callbacks(control: u32 -> ControlResult, isoIn: u32 -> Source)

  datatype Response = Response(queue: Queue, replies: seq<Reply>)

  function Answer(seqnum: u32, status: u32, actual: u32, payload: seq<byte>): Reply {
    Submitted(seqnum, status, actual, 0, NO_PACKETS, payload, [])
  }

  /** An unsupported request stalls, and an IN request for data nobody answered. */
  function ControlReply(c: Command, r: ControlResult): Reply
    requires c.Submit?
  {
    if !r.supported || (c.direction == 1 && c.length > 0 && r.answer.None?) then Answer(c.seqnum, EP_STALL, 0, [])
    else if c.direction == 0 then Answer(c.seqnum, 0, c.length, [])
    else
      var data := if c.direction == 1 && r.answer.Some? then r.answer.value[..Min(|r.answer.value|, c.length)] else [];
      Answer(c.seqnum, 0, |data|, data)
  }

  /** What the range checks of an isochronous submit leave. */
  predicate Checked(u: Urb) {
    && u.length <= MAX_TRANSFER && |u.packets| <= MAX_ISO_PACKETS
    && forall i :: 0 <= i < |u.packets| ==> u.packets[i].offset + u.packets[i].length <= u.length
  }

  lemma {:induction false} LengthsBound(ps: seq<Packet>, max: nat)
    requires forall i :: 0 <= i < |ps| ==> ps[i].length <= max
    ensures Lengths(ps) <= |ps| * max
  {
    if ps != [] { LengthsBound(ps[1..], max); }
  }

  function Accepted(ps: seq<Packet>): (ds: seq<IsoDescriptor>)
    ensures |ds| == |ps|
  {
    seq(|ps|, i requires 0 <= i < |ps| => IsoDescriptor(ps[i].offset, ps[i].length, ps[i].length, 0))
  }

  /** IN transfers carry the packets back to back, OUT transfers report all of each as accepted. */
  function IsoReply(u: Urb, source: Source): Reply
    requires Checked(u)
  {
    if u.direction != 0 then
      ChunksFit(u.packets, u.length, 0, source);
      var cs := Chunks(u.packets, u.length, 0, source);
      Submitted(u.seqnum, 0, |Joins(cs)|, u.startFrame, |u.packets|, Joins(cs), Described(u.packets, cs))
    else
      LengthsBound(u.packets, MAX_TRANSFER);
      Submitted(u.seqnum, 0, Lengths(u.packets), u.startFrame, |u.packets|, [], Accepted(u.packets))
  }

  function PacketsOf(ds: seq<IsoDescriptor>): (ps: seq<Packet>)
    ensures |ps| == |ds|
  {
    seq(|ds|, i requires 0 <= i < |ds| => Packet(ds[i].offset, ds[i].length))
  }

  /** The transfer a submit describes. */
  function UrbOf(c: Command, isochronous: bool): Urb
    requires c.Submit?
  {
    Urb(c.seqnum, c.ep, c.direction, c.length, isochronous, if isochronous then c.startFrame else 0,
        PacketsOf(c.packets), 0)
  }

  function Serve(q: Queue, c: Command, now: nat, dev: Callbacks): Response
    requires Sized(q) && WellFormed(c, q.table)
  {
    var full := |q.pending| == MAX_PENDING_URBS;
    match c
    case Unlink(seqnum, _, _, _, target, _) =>
      var found := Find(q.pending, target) < |q.pending|;
      Response(Cancel(q, target), [Unlinked(seqnum, if found then URB_UNLINKED else 0)])
    case Submit(seqnum, _, direction, ep, _, length, _, _, _, _, _, _) =>
      if IsIso(q.table, direction, ep) then
        var u := UrbOf(c, true);
        Response(PushIso(q, u, now), if full then [IsoReply(u, dev.isoIn(seqnum))] else [])
      else if ep == 0 then Response(q, [ControlReply(c, dev.control(seqnum))])
      else if direction == 0 then Response(q, [Answer(seqnum, 0, length, [])])
      else Response(PushIn(q, UrbOf(c, false)), if full then [Answer(seqnum, 0, 0, [])] else [])
  }

  predicate AllChecked(us: seq<Urb>) {
    forall i :: 0 <= i < |us| ==> Checked(us[i])
  }

  /** What is queued has passed the checks, so its reply is well defined. */
  lemma ServeChecks(q: Queue, c: Command, now: nat, dev: Callbacks)
    requires Sized(q) && WellFormed(c, q.table) && AllChecked(q.pending)
    ensures Sized(Serve(q, c, now, dev).queue) && AllChecked(Serve(q, c, now, dev).queue.pending)
  {
  }

  // ----- The client can tell the replies apart -----

  function KindOf(c: Command, table: seq<Endpoint>): Kind
    requires c.Submit? && |table| == 32
  {
    Kind(c.direction != 0, IsIso(table, c.direction, c.ep))
  }

  function KindOfUrb(u: Urb): Kind {
    Kind(u.direction != 0, u.isochronous)
  }

  /** An immediate reply has the shape its own command announced. */
  lemma ServeFits(q: Queue, c: Command, now: nat, dev: Callbacks, k: nat)
    requires Sized(q) && WellFormed(c, q.table) && k < |Serve(q, c, now, dev).replies|
    ensures var r := Serve(q, c, now, dev).replies[k];
            r.seqnum == c.seqnum && (c.Submit? ==> Fits(r, KindOf(c, q.table))) && (c.Unlink? ==> r.Unlinked?)
  {
  }

  function DoneReply(d: G.Done<byte>, dev: Callbacks): Reply
    requires Checked(d.urb) && |d.data| <= d.urb.length
  {
    if d.urb.isochronous then IsoReply(d.urb, dev.isoIn(d.urb.seqnum)) else Answer(d.urb.seqnum, 0, |d.data|, d.data)
  }

  /** So does the reply to a transfer that was queued as what its command announced. */
  lemma DoneFits(d: G.Done<byte>, dev: Callbacks)
    requires Checked(d.urb) && |d.data| <= d.urb.length && (!d.urb.isochronous ==> d.urb.direction != 0)
    ensures var r := DoneReply(d, dev); r.seqnum == d.urb.seqnum && Fits(r, KindOfUrb(d.urb))
  {
  }

  /** An isochronous reply's header, descriptors and data agree, and the host recovers from them
      what each callback produced. */
  lemma IsoReplyUnpacks(u: Urb, source: Source)
    requires Checked(u) && u.direction != 0
    ensures var r := IsoReply(u, source);
            && r.actual == |r.payload| <= u.length
            && Unpack(r.payload, r.packets) == Some(Chunks(u.packets, u.length, 0, source))
  {
    ChunksFit(u.packets, u.length, 0, source);
    UnpackOfPack(u.packets, Chunks(u.packets, u.length, 0, source));
  }

  // ----- Completed transfers -----

  predicate AllReplied(ds: seq<G.Done<byte>>) {
    forall i :: 0 <= i < |ds| ==> Checked(ds[i].urb) && |ds[i].data| <= ds[i].urb.length
  }

  /** The bytes of the replies to completed transfers, in order. */
  function DoneBytes(ds: seq<G.Done<byte>>, dev: Callbacks): seq<byte>
    requires AllReplied(ds)
  {
    if ds == [] then [] else DoneBytes(ds[..|ds| - 1], dev) + EncodeReply(DoneReply(ds[|ds| - 1], dev))
  }

  lemma DoneMore(ds: seq<G.Done<byte>>, d: G.Done<byte>, dev: Callbacks)
    requires AllReplied(ds) && Checked(d.urb) && |d.data| <= d.urb.length
    ensures AllReplied(ds + [d]) && DoneBytes(ds + [d], dev) == DoneBytes(ds, dev) + EncodeReply(DoneReply(d, dev))
  {
    assert (ds + [d])[..|ds|] == ds;
  }

  /** Completing more transfers only adds to the bytes. */
  lemma {:induction false} EncodedGrows(ds: seq<G.Done<byte>>, all: seq<G.Done<byte>>, dev: Callbacks)
    requires AllReplied(all) && ds <= all
    ensures AllReplied(ds) && DoneBytes(ds, dev) <= DoneBytes(all, dev)
    decreases |all|
  {
    assert forall i :: 0 <= i < |ds| ==> ds[i] == all[i];
    if |ds| < |all| {
      EncodedGrows(ds, all[..|all| - 1], dev);
    } else {
      assert ds == all;
    }
  }

  /** What arrives while a pass goes on, before each of its iterations. */
  type Feeds = seq<seq<G.Store<byte>>>

  lemma {:induction false} PassReplied(st: G.State<byte>, i: nat, now: nat, feeds: Feeds)
    requires G.Ready(st) && i <= |st.queue.pending| && AllChecked(st.queue.pending) && AllReplied(st.done)
    ensures AllReplied(G.PassWith(st, i, now, feeds).done)
    decreases |st.queue.pending| - i
  {
    if i < |st.queue.pending| {
      var fed := G.Fed(st, G.First(feeds));
      PassReplied(G.Step(fed, i, now), G.After(fed, i, now), now, G.Rest(feeds));
    }
  }

  lemma StillChecked(st: G.State<byte>, i: nat, now: nat)
    requires G.Ready(st) && i < |st.queue.pending| && AllChecked(st.queue.pending)
    ensures AllChecked(G.Step(st, i, now).queue.pending)
    ensures |G.Step(st, i, now).queue.pending| - G.After(st, i, now) < |st.queue.pending| - i
  {
  }

  lemma {:induction false} PassChecked(st: G.State<byte>, i: nat, now: nat, feeds: Feeds)
    requires G.Ready(st) && i <= |st.queue.pending| && AllChecked(st.queue.pending)
    ensures AllChecked(G.PassWith(st, i, now, feeds).queue.pending)
    decreases |st.queue.pending| - i
  {
    if i < |st.queue.pending| {
      var fed := G.Fed(st, G.First(feeds));
      StillChecked(fed, i, now);
      PassChecked(G.Step(fed, i, now), G.After(fed, i, now), now, G.Rest(feeds));
    }
  }

  /** What a pass still has to do only adds to what it has to say. */
  lemma PassSaysMore(st: G.State<byte>, i: nat, now: nat, feeds: Feeds, dev: Callbacks)
    requires G.Ready(st) && i <= |st.queue.pending| && AllChecked(st.queue.pending) && AllReplied(st.done)
    ensures AllReplied(G.PassWith(st, i, now, feeds).done)
    ensures DoneBytes(st.done, dev) <= DoneBytes(G.PassWith(st, i, now, feeds).done, dev)
  {
    PassReplied(st, i, now, feeds);
    G.PassAdds(st, i, now, feeds);
    EncodedGrows(st.done, G.PassWith(st, i, now, feeds).done, dev);
  }

  // ----- One round of the server's loop -----

  datatype Round = Round(queue: Queue, bufs: seq<seq<byte>>, bytes: seq<byte>)

  /** What the server has become and said after the command, if there was one. */
  function AfterCommand(q: Queue, c: Option<Command>, now: nat, dev: Callbacks): Response
    requires Sized(q) && (c.Some? ==> WellFormed(c.value, q.table))
  {
    if c.None? then Response(q, []) else Serve(q, c.value, now, dev)
  }

  /** What the server hears in a round: a command, if there is one, the clock when it is served and
      when the completion pass starts, and what device threads hand over meanwhile. */
  datatype Heard = Heard(command: Option<Command>, now: nat, later: nat, feeds: Feeds)

  /** A round: the command, then the completion pass. Data that arrives before the pass is the first
      that arrives in it. */
  ghost function RoundOf(q: Queue, bufs: seq<seq<byte>>, h: Heard, dev: Callbacks): (r: Round)
    requires Sized(q) && AllChecked(q.pending) && |bufs| == 16 && (h.command.Some? ==> WellFormed(h.command.value, q.table))
    ensures Sized(r.queue) && AllChecked(r.queue.pending) && |r.bufs| == 16
  {
    var r := AfterCommand(q, h.command, h.now, dev);
    assert Sized(r.queue) && AllChecked(r.queue.pending) by {
      if h.command.Some? { ServeChecks(q, h.command.value, h.now, dev); }
    }
    var st := G.State(r.queue.(timeoutUs := WAIT_TIMEOUT_US), bufs, []);
    var f := G.PassWith(st, 0, h.later, h.feeds);
    PassReplied(st, 0, h.later, h.feeds);
    PassChecked(st, 0, h.later, h.feeds);
    Round(f.queue, f.bufs, EncodeReplies(r.replies) + DoneBytes(f.done, dev))
  }

  /** The parts of a round: what the command leaves, and the pass that follows. */
  lemma RoundParts(q: Queue, bufs: seq<seq<byte>>, h: Heard, dev: Callbacks)
    requires Sized(q) && AllChecked(q.pending) && |bufs| == 16 && (h.command.Some? ==> WellFormed(h.command.value, q.table))
    ensures var a, r := AfterCommand(q, h.command, h.now, dev), RoundOf(q, bufs, h, dev);
            && Sized(a.queue) && AllChecked(a.queue.pending)
            && var f := G.PassWith(G.State(a.queue.(timeoutUs := WAIT_TIMEOUT_US), bufs, []), 0, h.later, h.feeds);
               AllReplied(f.done) && r == Round(f.queue, f.bufs, EncodeReplies(a.replies) + DoneBytes(f.done, dev))
  {
    hide G.PassWith, Serve, DoneBytes, EncodeReplies, AllChecked, AllReplied, WellFormed;
    var a := AfterCommand(q, h.command, h.now, dev);
    if h.command.Some? { ServeChecks(q, h.command.value, h.now, dev); }
    NoneReplied();
    PassReplied(G.State(a.queue.(timeoutUs := WAIT_TIMEOUT_US), bufs, []), 0, h.later, h.feeds);
  }

  lemma NoneReplied()
    ensures AllReplied([])
  {
  }

  // ----- Any number of rounds -----

  /** One turn of the worker's loop: whether client data arrived, the clock when the command is served
      and when the completion pass starts, and what device threads hand over. */
  datatype Turn = Turn(hasData: bool, now: nat, later: nat, feeds: Feeds)

  /** What the server hears in a turn. */
  function Hearing(t: Turn, c: Option<Command>): Heard {
    Heard(c, t.now, t.later, t.feeds)
  }

  /** What the client's bytes say in these turns, and the bytes left over. */
  function Hear(s: seq<byte>, turns: seq<Turn>, table: seq<Endpoint>): Option<Parsed<seq<Heard>>>
    requires |table| == 32
    decreases |turns|
  {
    if turns == [] then Some(Parsed([], s))
    else
      var n := |turns| - 1;
      match Hear(s, turns[..n], table)
      case None => None
      case Some(p) =>
        var t := turns[n];
        if !t.hasData then Some(Parsed(p.message + [Hearing(t, None)], p.rest))
        else
          match Parse(p.rest, table)
          case None => None
          case Some(c) => Some(Parsed(p.message + [Hearing(t, Some(c.message))], c.rest))
  }

  /** Endpoint buffers after a reset. */
  function NoData(): (bufs: seq<seq<byte>>)
    ensures |bufs| == 16 && forall e :: 0 <= e < 16 ==> bufs[e] == []
  {
    seq(16, _ => [])
  }

  ghost predicate Steady(q: Queue, bufs: seq<seq<byte>>) {
    Sized(q) && AllChecked(q.pending) && |bufs| == 16
  }

  /** Every command is well formed for the endpoint table it meets. */
  ghost predicate Hears(q: Queue, bufs: seq<seq<byte>>, hs: seq<Heard>, dev: Callbacks)
    requires Steady(q, bufs)
    decreases |hs|, 0
  {
    hs != [] ==>
      var n := |hs| - 1;
      && Hears(q, bufs, hs[..n], dev)
      && (hs[n].command.Some? ==> WellFormed(hs[n].command.value, Rounds(q, bufs, hs[..n], dev).queue.table))
  }

  /** Where the rounds lead, and all the bytes they write. */
  ghost function Rounds(q: Queue, bufs: seq<seq<byte>>, hs: seq<Heard>, dev: Callbacks): (r: Round)
    requires Steady(q, bufs) && Hears(q, bufs, hs, dev)
    ensures Steady(r.queue, r.bufs)
    decreases |hs|, 1
  {
    if hs == [] then Round(q, bufs, [])
    else
      var n := |hs| - 1;
      var r := Rounds(q, bufs, hs[..n], dev);
      var t := RoundOf(r.queue, r.bufs, hs[n], dev);
      t.(bytes := r.bytes + t.bytes)
  }

  // ----- Nothing changes an endpoint's type -----

  predicate SameKinds(a: seq<Endpoint>, b: seq<Endpoint>) {
    |a| == |b| == 32 && forall s :: 0 <= s < 32 ==> a[s].kind == b[s].kind
  }

  lemma ServeKeepsKinds(q: Queue, c: Command, now: nat, dev: Callbacks)
    requires Sized(q) && WellFormed(c, q.table)
    ensures SameKinds(q.table, Serve(q, c, now, dev).queue.table)
  {
  }

  lemma {:induction false} PassKeepsKinds(st: G.State<byte>, i: nat, now: nat, feeds: Feeds)
    requires G.Ready(st) && i <= |st.queue.pending|
    ensures SameKinds(st.queue.table, G.PassWith(st, i, now, feeds).queue.table)
    decreases |st.queue.pending| - i
  {
    if i < |st.queue.pending| {
      var fed := G.Fed(st, G.First(feeds));
      PassKeepsKinds(G.Step(fed, i, now), G.After(fed, i, now), now, G.Rest(feeds));
    }
  }

  lemma RoundKeepsKinds(q: Queue, bufs: seq<seq<byte>>, h: Heard, dev: Callbacks)
    requires Steady(q, bufs) && (h.command.Some? ==> WellFormed(h.command.value, q.table))
    ensures SameKinds(q.table, RoundOf(q, bufs, h, dev).queue.table)
  {
    if h.command.Some? {
      ServeChecks(q, h.command.value, h.now, dev);
      ServeKeepsKinds(q, h.command.value, h.now, dev);
    }
    var r := AfterCommand(q, h.command, h.now, dev);
    PassKeepsKinds(G.State(r.queue.(timeoutUs := WAIT_TIMEOUT_US), bufs, []), 0, h.later, h.feeds);
  }

  lemma {:induction false} RoundsKeepKinds(q: Queue, bufs: seq<seq<byte>>, hs: seq<Heard>, dev: Callbacks)
    requires Steady(q, bufs) && Hears(q, bufs, hs, dev)
    ensures SameKinds(q.table, Rounds(q, bufs, hs, dev).queue.table)
  {
    if hs != [] {
      var n := |hs| - 1;
      hide RoundOf;
      RoundsKeepKinds(q, bufs, hs[..n], dev);
      var r := Rounds(q, bufs, hs[..n], dev);
      RoundKeepsKinds(r.queue, r.bufs, hs[n], dev);
    }
  }

  /** So a command is read the same way throughout a session. */
  lemma ParseSameKinds(s: seq<byte>, a: seq<Endpoint>, b: seq<Endpoint>)
    requires SameKinds(a, b)
    ensures Parse(s, a) == Parse(s, b)
  {
  }

  /** One more turn: what it adds to what was heard, and to what was written. */
  lemma OneMoreTurn(q: Queue, bufs: seq<seq<byte>>, s: seq<byte>, turns: seq<Turn>, t: Turn, dev: Callbacks)
    requires Steady(q, bufs) && Hear(s, turns, q.table).Some? && Hears(q, bufs, Hear(s, turns, q.table).value.message, dev)
    requires var h := Hear(s, turns, q.table).value;
             var table := Rounds(q, bufs, h.message, dev).queue.table;
             t.hasData ==> Parse(h.rest, table).Some? && WellFormed(Parse(h.rest, table).value.message, table)
    ensures var h := Hear(s, turns, q.table).value;
            var r := Rounds(q, bufs, h.message, dev);
            var p := if t.hasData then Parse(h.rest, r.queue.table) else None;
            var c := if t.hasData then Some(p.value.message) else None;
            var hs := h.message + [Hearing(t, c)];
            && Hear(s, turns + [t], q.table) == Some(Parsed(hs, if t.hasData then p.value.rest else h.rest))
            && Hears(q, bufs, hs, dev)
            && var r' := RoundOf(r.queue, r.bufs, Hearing(t, c), dev);
               Rounds(q, bufs, hs, dev) == r'.(bytes := r.bytes + r'.bytes)
  {
    hide RoundOf, Parse, WellFormed;
    var h := Hear(s, turns, q.table).value;
    var r := Rounds(q, bufs, h.message, dev);
    RoundsKeepKinds(q, bufs, h.message, dev);
    ParseSameKinds(h.rest, q.table, r.queue.table);
    assert (turns + [t])[..|turns|] == turns;
    var c := if t.hasData then Some(Parse(h.rest, r.queue.table).value.message) else None;
    var hs := h.message + [Hearing(t, c)];
    assert hs[..|h.message|] == h.message;
  }

  // ----- Before the device is imported -----

  const USBIP_VERSION := 0x0111
  const OP_REQ_DEVLIST := 0x8005
  const OP_REQ_IMPORT := 0x8003

  datatype Operation = ListDevices | ImportDevice

  function Half(s: seq<byte>, at: nat): nat
    requires at + 2 <= |s|
  {
    256 * s[at] as int + s[at + 1] as int
  }

  /** A request of the right version: eight bytes, and 32 more that name the device to import. */
  function ParseOperation(s: seq<byte>): Option<Parsed<Operation>> {
    if |s| < 8 || Half(s, 0) != USBIP_VERSION then None
    else if Half(s, 2) == OP_REQ_DEVLIST then Some(Parsed(ListDevices, s[8..]))
    else if Half(s, 2) == OP_REQ_IMPORT && |s| >= 40 then Some(Parsed(ImportDevice, s[40..]))
    else None
  }
}
