/** Every reply of a session answers its own command: what the command asked for decides the header, the
    packet descriptors and how much data there may be, however long the transfer waited. */
module Answers {
  import opened Urbs
  import S = Schedule
  import W = Wire
  import P = IsoPacking
  import V = Service
  import G = Greedy
  import R = Rounds
  import C = Client
  import D = Delivery

  // ----- What a reply must say -----

  /** The bytes the packets before the k-th one carry. */
  function Before(ds: seq<W.IsoDescriptor>, k: nat): nat
    requires k <= |ds|
  {
    if k == 0 then 0 else Before(ds, k - 1) + ds[k - 1].actual as int
  }

  /** What the device's callback makes of the k-th packet when it is asked for at most this much. */
  function Filled(source: P.Source, k: nat, max: nat): seq<byte> {
    Cut(source(k, max), max)
  }

  /** How much it is asked for: the packet's length, or the space that the packets before it leave. */
  function Room(c: W.Command, ds: seq<W.IsoDescriptor>, k: nat): nat
    requires c.Submit? && k < |c.packets| && k <= |ds| && Before(ds, k) <= c.length
  {
    Min(c.packets[k].length, c.length - Before(ds, k))
  }

  /** The k-th packet of an IN reply: its data lies right behind that of the packets before it. */
  predicate PacketIn(r: W.Reply, c: W.Command, source: P.Source, k: nat)
    requires c.Submit? && r.Submitted? && k < |c.packets| && k < |r.packets|
  {
    var at := Before(r.packets, k);
    && at <= c.length
    && var data := Filled(source, k, Room(c, r.packets, k));
       && r.packets[k].actual as int == |data| && at + |data| <= |r.payload| && r.payload[at..at + |data|] == data
  }

  /** The reply to an isochronous transfer. */
  predicate IsoAnswer(r: W.Reply, c: W.Command, source: P.Source)
    requires c.Submit? && r.Submitted?
  {
    && r.status == 0 && r.startFrame == c.startFrame && r.packetCount == c.packetCount && |r.packets| == |c.packets|
    && (forall k :: 0 <= k < |c.packets| ==>
          r.packets[k].offset == c.packets[k].offset && r.packets[k].length == c.packets[k].length && r.packets[k].status == 0)
    && r.actual as int == Before(r.packets, |r.packets|)
    && (if c.direction != 0
        then |r.payload| == r.actual && forall k :: 0 <= k < |c.packets| ==> PacketIn(r, c, source, k)
        else r.payload == [] && forall k :: 0 <= k < |c.packets| ==> r.packets[k].actual == c.packets[k].length)
  }

  /** The reply to a control request: -EPIPE if it is not supported, or asks for data nobody answered. */
  predicate ControlAnswer(r: W.Reply, c: W.Command, result: V.ControlResult)
    requires c.Submit? && r.Submitted?
  {
    if !result.supported || (c.direction == 1 && c.length > 0 && result.answer.None?)
    then r.status == 0x1_0000_0000 - 32 && r.actual == 0 && r.payload == []
    else
      && r.status == 0
      && r.payload == (if c.direction == 1 && result.answer.Some? then Cut(result.answer.value, c.length) else [])
      && r.actual == if c.direction == 0 then c.length else |r.payload|
  }

  /** The reply to any other transfer: all of the data of an OUT transfer is accepted. */
  predicate DataAnswer(r: W.Reply, c: W.Command)
    requires c.Submit? && r.Submitted?
  {
    && r.status == 0
    && if c.direction == 0 then r.actual == c.length && r.payload == [] else r.actual == |r.payload| <= c.length
  }

  predicate Answered(r: W.Reply, c: W.Command, table: seq<Endpoint>, dev: V.Callbacks)
    requires |table| == 32
  {
    && c.Submit? && r.Submitted? && r.seqnum == c.seqnum
    && if W.IsIso(table, c.direction, c.ep) then IsoAnswer(r, c, dev.isoIn(c.seqnum))
       else
         && r.startFrame == 0 && r.packetCount == 0xffff_ffff && r.packets == []
         && if c.ep == 0 then ControlAnswer(r, c, dev.control(c.seqnum)) else DataAnswer(r, c)
  }

  /** A transfer that waits is what its command asked for. */
  predicate Asked(u: Urb, c: W.Command, table: seq<Endpoint>)
    requires |table| == 32
  {
    && c.Submit? && u.seqnum == c.seqnum && u.direction == c.direction && u.length == c.length
    && u.isochronous == W.IsIso(table, c.direction, c.ep)
    && (!u.isochronous ==> c.ep != 0 && c.direction != 0)
    && (u.isochronous ==>
          && u.startFrame == c.startFrame && |u.packets| == |c.packets| == c.packetCount
          && forall k :: 0 <= k < |c.packets| ==>
               u.packets[k].offset == c.packets[k].offset && u.packets[k].length == c.packets[k].length)
  }

  // ----- Isochronous replies -----

  lemma {:induction false} ChunkAt(ps: seq<Packet>, space: nat, from: nat, source: P.Source, k: nat)
    requires k < |ps|
    ensures var cs := P.Chunks(ps, space, from, source);
            && |P.Joins(cs[..k])| <= space
            && cs[k] == Filled(source, from + k, Min(ps[k].length, space - |P.Joins(cs[..k])|))
  {
    var cs := P.Chunks(ps, space, from, source);
    if k > 0 {
      ChunkAt(ps[1..], space - |cs[0]|, from + 1, source, k - 1);
      assert cs[1..] == P.Chunks(ps[1..], space - |cs[0]|, from + 1, source);
      assert cs[..k][1..] == cs[1..][..k - 1];
    }
  }

  /** The k-th chunk lies right behind those before it. */
  lemma {:induction false} ChunkLies(cs: seq<seq<byte>>, k: nat)
    requires k < |cs|
    ensures var at := |P.Joins(cs[..k])|;
            at + |cs[k]| <= |P.Joins(cs)| && P.Joins(cs)[at..at + |cs[k]|] == cs[k]
  {
    if k > 0 {
      ChunkLies(cs[1..], k - 1);
      assert cs[..k][1..] == cs[1..][..k - 1];
    }
  }

  lemma {:induction false} BeforeIsJoined(ps: seq<Packet>, cs: seq<seq<byte>>, k: nat)
    requires |ps| == |cs| && P.Small(cs) && k <= |cs|
    ensures Before(P.Described(ps, cs), k) == |P.Joins(cs[..k])|
  {
    if k > 0 {
      BeforeIsJoined(ps, cs, k - 1);
      P.JoinsMore(cs[..k - 1], cs[k - 1]);
      assert cs[..k] == cs[..k - 1] + [cs[k - 1]];
    }
  }

  lemma PacketIsIn(u: Urb, c: W.Command, source: P.Source, k: nat, r: W.Reply)
    requires V.Checked(u) && u.direction != 0 && r == V.IsoReply(u, source) && c.Submit? && k < |c.packets| == |u.packets|
    requires u.length == c.length && u.packets[k].length == c.packets[k].length
    ensures PacketIn(r, c, source, k)
  {
    hide P.Chunks, P.Joins, Before, Filled;
    P.ChunksFit(u.packets, u.length, 0, source);
    var cs := P.Chunks(u.packets, u.length, 0, source);
    BeforeIsJoined(u.packets, cs, k);
    ChunkAt(u.packets, u.length, 0, source, k);
    ChunkLies(cs, k);
    assert r.payload == P.Joins(cs) && r.packets == P.Described(u.packets, cs);
  }

  lemma IsoInIsAnswered(u: Urb, c: W.Command, source: P.Source, table: seq<Endpoint>)
    requires |table| == 32 && V.Checked(u) && Asked(u, c, table) && u.isochronous && u.direction != 0
    ensures IsoAnswer(V.IsoReply(u, source), c, source)
  {
    hide P.Joins, P.Chunks, PacketIn, Before;
    P.ChunksFit(u.packets, u.length, 0, source);
    var cs := P.Chunks(u.packets, u.length, 0, source);
    var r := V.IsoReply(u, source);
    forall k | 0 <= k < |c.packets| ensures PacketIn(r, c, source, k) { PacketIsIn(u, c, source, k, r); }
    BeforeIsJoined(u.packets, cs, |cs|);
    assert cs[..|cs|] == cs;
  }

  lemma {:induction false} BeforeAccepted(ps: seq<Packet>, k: nat)
    requires k <= |ps|
    ensures Before(V.Accepted(ps), k) == P.Lengths(ps[..k])
  {
    if k > 0 {
      BeforeAccepted(ps, k - 1);
      P.LengthsMore(ps[..k - 1], ps[k - 1]);
      assert ps[..k] == ps[..k - 1] + [ps[k - 1]];
    }
  }

  lemma IsoOutIsAnswered(u: Urb, c: W.Command, source: P.Source, table: seq<Endpoint>)
    requires |table| == 32 && V.Checked(u) && Asked(u, c, table) && u.isochronous && u.direction == 0
    ensures IsoAnswer(V.IsoReply(u, source), c, source)
  {
    BeforeAccepted(u.packets, |u.packets|);
    assert u.packets[..|u.packets|] == u.packets;
  }

  lemma IsoIsAnswered(u: Urb, c: W.Command, table: seq<Endpoint>, dev: V.Callbacks)
    requires |table| == 32 && V.Checked(u) && Asked(u, c, table) && u.isochronous
    ensures Answered(V.IsoReply(u, dev.isoIn(u.seqnum)), c, table, dev)
  {
    hide IsoAnswer;
    if u.direction != 0 { IsoInIsAnswered(u, c, dev.isoIn(u.seqnum), table); }
    else { IsoOutIsAnswered(u, c, dev.isoIn(u.seqnum), table); }
    ReplyIsFor(u, dev);
  }

  lemma ReplyIsFor(u: Urb, dev: V.Callbacks)
    requires V.Checked(u)
    ensures V.IsoReply(u, dev.isoIn(u.seqnum)).Submitted? && V.IsoReply(u, dev.isoIn(u.seqnum)).seqnum == u.seqnum
  {
  }

  /** The lengths of the first `k` packets together. */
  function Asking(ds: seq<W.IsoDescriptor>, k: nat): nat
    requires k <= |ds|
  {
    if k == 0 then 0 else Asking(ds, k - 1) + ds[k - 1].length
  }

  lemma {:induction false} AskingGrows(ds: seq<W.IsoDescriptor>, k: nat, n: nat)
    requires k <= n <= |ds|
    ensures Asking(ds, k) <= Asking(ds, n)
    decreases n
  {
    if k < n { AskingGrows(ds, k, n - 1); }
  }

  lemma {:induction false} BeforeAtMost(r: W.Reply, c: W.Command, source: P.Source, k: nat)
    requires c.Submit? && r.Submitted? && IsoAnswer(r, c, source) && c.direction != 0 && k <= |c.packets|
    ensures Before(r.packets, k) <= Asking(c.packets, k)
  {
    if k > 0 {
      BeforeAtMost(r, c, source, k - 1);
      assert PacketIn(r, c, source, k - 1);
    }
  }

  /** If the packets of a transfer together fit its buffer, as packets that do not overlap do, each is
      asked for at its full length. */
  lemma FullLengths(r: W.Reply, c: W.Command, source: P.Source, k: nat)
    requires c.Submit? && r.Submitted? && IsoAnswer(r, c, source) && c.direction != 0 && k < |c.packets|
    requires Asking(c.packets, |c.packets|) <= c.length
    ensures r.packets[k].actual as int == |Filled(source, k, c.packets[k].length)|
  {
    BeforeAtMost(r, c, source, k);
    AskingGrows(c.packets, k + 1, |c.packets|);
    assert PacketIn(r, c, source, k);
  }

  // ----- Commands and completed transfers -----

  /** What the client asked for, by sequence number. */
  type Requests = u32 -> Option<W.Command>

  predicate Keeps(said: Requests, c: Option<W.Command>) {
    c.Some? && c.value.Submit? ==> said(c.value.seqnum) == c
  }

  predicate Meant(u: Urb, said: Requests, table: seq<Endpoint>)
    requires |table| == 32
  {
    said(u.seqnum).Some? && Asked(u, said(u.seqnum).value, table)
  }

  predicate AllMeant(us: seq<Urb>, said: Requests, table: seq<Endpoint>)
    requires |table| == 32
  {
    forall i :: 0 <= i < |us| ==> Meant(us[i], said, table)
  }

  predicate DoneMeant(ds: seq<G.Done<byte>>, said: Requests, table: seq<Endpoint>)
    requires |table| == 32
  {
    forall i :: 0 <= i < |ds| ==> Meant(ds[i].urb, said, table)
  }

  /** Every RET_SUBMIT answers the command with its number. */
  predicate AllAnswered(rs: seq<W.Reply>, said: Requests, table: seq<Endpoint>, dev: V.Callbacks)
    requires |table| == 32
  {
    forall i :: 0 <= i < |rs| && rs[i].Submitted? ==>
      said(rs[i].seqnum).Some? && Answered(rs[i], said(rs[i].seqnum).value, table, dev)
  }

  /** What a submit queues is what it asked for. */
  lemma QueuedIsAsked(c: W.Command, table: seq<Endpoint>, due: nat)
    requires |table| == 32 && c.Submit? && W.WellFormed(c, table)
    requires W.IsIso(table, c.direction, c.ep) || (c.ep != 0 && c.direction != 0)
    ensures var u := V.UrbOf(c, W.IsIso(table, c.direction, c.ep)); Asked(u, c, table) && Asked(u.(completeUs := due), c, table)
    ensures V.Checked(V.UrbOf(c, W.IsIso(table, c.direction, c.ep)))
  {
  }

  /** A command answered at once. */
  lemma DirectIsAnswered(c: W.Command, table: seq<Endpoint>, dev: V.Callbacks)
    requires |table| == 32 && c.Submit? && W.WellFormed(c, table) && !W.IsIso(table, c.direction, c.ep)
    ensures c.ep == 0 ==> Answered(V.ControlReply(c, dev.control(c.seqnum)), c, table, dev)
    ensures c.ep != 0 && c.direction == 0 ==> Answered(V.Answer(c.seqnum, 0, c.length, []), c, table, dev)
    ensures c.ep != 0 && c.direction != 0 ==> Answered(V.Answer(c.seqnum, 0, 0, []), c, table, dev)
  {
  }

  lemma AllMeantMore(us: seq<Urb>, u: Urb, said: Requests, table: seq<Endpoint>)
    requires |table| == 32 && AllMeant(us, said, table) && Meant(u, said, table)
    ensures AllMeant(us + [u], said, table)
  {
  }

  lemma ServeAnswers(q: Queue, c: W.Command, now: nat, dev: V.Callbacks, said: Requests, table: seq<Endpoint>)
    requires Sized(q) && W.WellFormed(c, q.table) && V.SameKinds(table, q.table)
    requires AllMeant(q.pending, said, table) && Keeps(said, Some(c))
    ensures var r := V.Serve(q, c, now, dev); AllMeant(r.queue.pending, said, table) && AllAnswered(r.replies, said, table, dev)
  {
    assert c.Submit? ==> W.IsIso(table, c.direction, c.ep) == W.IsIso(q.table, c.direction, c.ep);
    if c.Unlink? {
      UnlinkKeeps(q, c.target, said, table);
    } else {
      hide Asked, Answered, V.ControlReply, V.IsoReply, V.UrbOf, V.Checked, W.WellFormed;
      SubmitAnswers(q, c, now, dev, said, table);
    }
  }

  lemma UnlinkKeeps(q: Queue, target: u32, said: Requests, table: seq<Endpoint>)
    requires Sized(q) && |table| == 32 && AllMeant(q.pending, said, table)
    ensures AllMeant(Cancel(q, target).pending, said, table)
  {
    hide Asked, Drains;
  }

  lemma SameShape(c: W.Command, a: seq<Endpoint>, b: seq<Endpoint>)
    requires V.SameKinds(a, b) && W.WellFormed(c, b)
    ensures W.WellFormed(c, a) && (c.Submit? ==> W.IsIso(a, c.direction, c.ep) == W.IsIso(b, c.direction, c.ep))
  {
  }

  lemma SubmitAnswers(q: Queue, c: W.Command, now: nat, dev: V.Callbacks, said: Requests, table: seq<Endpoint>)
    requires Sized(q) && c.Submit? && W.WellFormed(c, q.table) && V.SameKinds(table, q.table)
    requires AllMeant(q.pending, said, table) && Keeps(said, Some(c))
    ensures var r := V.Serve(q, c, now, dev); AllMeant(r.queue.pending, said, table) && AllAnswered(r.replies, said, table, dev)
  {
    hide Asked, Answered, V.ControlReply, V.IsoReply, V.Checked, W.WellFormed, AllMeant;
    SameShape(c, table, q.table);
    var iso := W.IsIso(table, c.direction, c.ep);
    if iso || (c.ep != 0 && c.direction != 0) {
      var u := V.UrbOf(c, iso);
      var due := Due(q.table[Slot(c.direction, c.ep)], |u.packets|, now);
      QueuedIsAsked(c, table, due);
      AllMeantMore(q.pending, u, said, table);
      AllMeantMore(q.pending, u.(completeUs := due), said, table);
      if iso {
        IsoIsAnswered(u, c, table, dev);
        OneAnswered(V.IsoReply(u, dev.isoIn(c.seqnum)), c, said, table, dev);
      }
    }
    if !iso {
      DirectIsAnswered(c, table, dev);
      var r := if c.ep == 0 then V.ControlReply(c, dev.control(c.seqnum))
               else if c.direction == 0 then V.Answer(c.seqnum, 0, c.length, []) else V.Answer(c.seqnum, 0, 0, []);
      OneAnswered(r, c, said, table, dev);
    }
  }

  lemma StepMeant(st: G.State<byte>, i: nat, now: nat, said: Requests, table: seq<Endpoint>)
    requires G.Ready(st) && i < |st.queue.pending| && |table| == 32
    requires AllMeant(st.queue.pending, said, table) && DoneMeant(st.done, said, table)
    ensures AllMeant(G.Step(st, i, now).queue.pending, said, table) && DoneMeant(G.Step(st, i, now).done, said, table)
  {
    hide Meant;
  }

  lemma {:induction false} PassMeant(st: G.State<byte>, i: nat, now: nat, feeds: V.Feeds, said: Requests, table: seq<Endpoint>)
    requires G.Ready(st) && i <= |st.queue.pending| && |table| == 32
    requires AllMeant(st.queue.pending, said, table) && DoneMeant(st.done, said, table)
    ensures var f := G.PassWith(st, i, now, feeds); AllMeant(f.queue.pending, said, table) && DoneMeant(f.done, said, table)
    decreases |st.queue.pending| - i
  {
    if i < |st.queue.pending| {
      hide AllMeant, DoneMeant, G.Stored;
      var fed := G.Fed(st, G.First(feeds));
      StepMeant(fed, i, now, said, table);
      PassMeant(G.Step(fed, i, now), G.After(fed, i, now), now, G.Rest(feeds), said, table);
    }
  }

  lemma DoneIsAnswered(d: G.Done<byte>, dev: V.Callbacks, said: Requests, table: seq<Endpoint>)
    requires |table| == 32 && V.Checked(d.urb) && |d.data| <= d.urb.length && Meant(d.urb, said, table)
    ensures var c := said(d.urb.seqnum).value; c.Submit? && c.seqnum == d.urb.seqnum && Answered(V.DoneReply(d, dev), c, table, dev)
  {
    if d.urb.isochronous {
      hide Answered, V.IsoReply;
      IsoIsAnswered(d.urb, said(d.urb.seqnum).value, table, dev);
    }
  }

  lemma OneAnswered(r: W.Reply, c: W.Command, said: Requests, table: seq<Endpoint>, dev: V.Callbacks)
    requires |table| == 32 && Answered(r, c, table, dev) && said(c.seqnum) == Some(c)
    ensures AllAnswered([r], said, table, dev)
  {
  }

  lemma AnsweredMore(rs: seq<W.Reply>, more: seq<W.Reply>, said: Requests, table: seq<Endpoint>, dev: V.Callbacks)
    requires |table| == 32 && AllAnswered(rs, said, table, dev) && AllAnswered(more, said, table, dev)
    ensures AllAnswered(rs + more, said, table, dev)
  {
    hide Answered;
  }

  lemma MeantIsSaid(u: Urb, said: Requests, table: seq<Endpoint>)
    requires |table| == 32 && Meant(u, said, table)
    ensures said(u.seqnum).Some? && said(u.seqnum).value.Submit? && said(u.seqnum).value.seqnum == u.seqnum
  {
  }

  lemma {:induction false} DoneAnswered(ds: seq<G.Done<byte>>, dev: V.Callbacks, said: Requests, table: seq<Endpoint>)
    requires V.AllReplied(ds) && |table| == 32 && DoneMeant(ds, said, table)
    ensures AllAnswered(R.DoneReplies(ds, dev), said, table, dev)
  {
    hide Answered, Meant, V.DoneReply, V.Checked;
    if ds != [] {
      var n := |ds| - 1;
      DoneAnswered(ds[..n], dev, said, table);
      DoneIsAnswered(ds[n], dev, said, table);
      MeantIsSaid(ds[n].urb, said, table);
      OneAnswered(V.DoneReply(ds[n], dev), said(ds[n].urb.seqnum).value, said, table, dev);
      AnsweredMore(R.DoneReplies(ds[..n], dev), [V.DoneReply(ds[n], dev)], said, table, dev);
    }
  }

  // ----- Rounds and sessions -----

  ghost predicate Follows(l: R.Live, said: Requests, table: seq<Endpoint>) {
    V.SameKinds(table, l.s.queue.table) && AllMeant(l.s.queue.pending, said, table)
  }

  lemma ResponseAnswers(l: R.Live, h: V.Heard, dev: V.Callbacks, said: Requests, table: seq<Endpoint>)
    requires R.Fine(l, h) && Follows(l, said, table) && Keeps(said, h.command)
    ensures var r := R.Response(l, h, dev); AllMeant(r.queue.pending, said, table) && AllAnswered(r.replies, said, table, dev)
  {
    hide AllMeant;
    if h.command.Some? { ServeAnswers(l.s.queue, h.command.value, h.now, dev, said, table); }
  }

  lemma NoneDone(said: Requests, table: seq<Endpoint>)
    requires |table| == 32
    ensures DoneMeant([], said, table)
  {
  }

  lemma RoundAnswers(l: R.Live, h: V.Heard, dev: V.Callbacks, said: Requests, table: seq<Endpoint>)
    requires R.Fine(l, h) && Follows(l, said, table) && Keeps(said, h.command)
    ensures AllAnswered(R.RoundReplies(l, h, dev), said, table, dev) && Follows(R.Turned(l, h, dev), said, table)
  {
    hide AllMeant, DoneMeant, AllAnswered, Keeps, G.PassWith, R.Response;
    var st := R.Start(l, h, dev);
    ResponseAnswers(l, h, dev, said, table);
    NoneDone(said, table);
    PassMeant(st, 0, h.later, h.feeds, said, table);
    V.PassReplied(st, 0, h.later, h.feeds);
    DoneAnswered(G.PassWith(st, 0, h.later, h.feeds).done, dev, said, table);
    AnsweredMore(R.Response(l, h, dev).replies, R.PassReplies(l, h, dev), said, table, dev);
    R.RoundBytes(l, h, dev);
    V.RoundKeepsKinds(l.s.queue, l.bufs, h, dev);
  }

  lemma {:induction false} NoReplies(l: R.Live, hs: seq<V.Heard>, dev: V.Callbacks)
    requires R.Ready(l) && R.AllFine(l, hs, dev) && hs == []
    ensures R.Later(l, hs, dev) == l && R.SessionReplies(l, hs, dev) == []
  {
  }

  lemma {:induction false} LastReplies(l: R.Live, hs: seq<V.Heard>, dev: V.Callbacks)
    requires R.Ready(l) && R.AllFine(l, hs, dev) && hs != []
    ensures var n := |hs| - 1;
            && R.AllFine(l, hs[..n], dev) && R.Fine(R.Later(l, hs[..n], dev), hs[n])
            && R.SessionReplies(l, hs, dev)
               == R.SessionReplies(l, hs[..n], dev) + R.RoundReplies(R.Later(l, hs[..n], dev), hs[n], dev)
  {
    hide R.RoundReplies, R.Turned, R.Fine, R.Ready;
  }

  lemma {:induction false} SessionAnswers(l: R.Live, hs: seq<V.Heard>, dev: V.Callbacks, said: Requests, table: seq<Endpoint>)
    requires R.Ready(l) && R.AllFine(l, hs, dev) && Follows(l, said, table)
    requires forall k :: 0 <= k < |hs| ==> Keeps(said, hs[k].command)
    ensures |table| == 32 && AllAnswered(R.SessionReplies(l, hs, dev), said, table, dev)
    ensures Follows(R.Later(l, hs, dev), said, table)
  {
    assert |table| == 32;
    if hs == [] {
      NoReplies(l, hs, dev);
    } else {
      hide Follows, Keeps, AllAnswered, R.RoundReplies, R.Turned, R.Later, R.AllFine, R.SessionReplies, R.Ready, R.Fine;
      var n := |hs| - 1;
      R.LastRound(l, hs, dev);
      LastReplies(l, hs, dev);
      SessionAnswers(l, hs[..n], dev, said, table);
      var mid := R.Later(l, hs[..n], dev);
      RoundAnswers(mid, hs[n], dev, said, table);
      AnsweredMore(R.SessionReplies(l, hs[..n], dev), R.RoundReplies(mid, hs[n], dev), said, table, dev);
    }
  }

  // ----- What was asked for -----

  /** The last submit with this sequence number. */
  function SubmitHeard(hs: seq<V.Heard>, q: u32): (c: Option<W.Command>)
    ensures c.Some? ==> c.value.Submit? && c.value.seqnum == q && exists j :: 0 <= j < |hs| && hs[j].command == c
  {
    if hs == [] then None
    else
      var n := |hs| - 1;
      if C.Submits(hs[n], q) then hs[n].command
      else
        var c := SubmitHeard(hs[..n], q);
        assert c.Some? ==> exists j :: 0 <= j < n && hs[..n][j].command == c && hs[j].command == c;
        c
  }

  function SubmitsHeard(hs: seq<V.Heard>): Requests {
    (q: u32) => SubmitHeard(hs, q)
  }

  lemma {:induction false} KeptStill(hs: seq<V.Heard>, c: Option<W.Command>)
    requires hs != [] && Keeps(SubmitsHeard(hs[..|hs| - 1]), c)
    requires c.Some? && c.value.Submit? ==> !C.Submits(hs[|hs| - 1], c.value.seqnum)
    ensures Keeps(SubmitsHeard(hs), c)
  {
  }

  lemma {:induction false} LastIsKept(hs: seq<V.Heard>)
    requires hs != []
    ensures Keeps(SubmitsHeard(hs), hs[|hs| - 1].command)
  {
  }

  lemma {:induction false} HeardIsKept(l: R.Live, hs: seq<V.Heard>, dev: V.Callbacks, k: nat)
    requires R.Ready(l) && R.AllFine(l, hs, dev) && k < |hs|
    ensures Keeps(SubmitsHeard(hs), hs[k].command)
  {
    hide Keeps, SubmitsHeard, C.Counts, R.Turned, R.Fine, R.Ready, R.Later, R.AllFine;
    var n := |hs| - 1;
    if k < n {
      R.LastRound(l, hs, dev);
      assert hs[..n][k] == hs[k];
      HeardIsKept(l, hs[..n], dev, k);
      C.SubmitsCount(l, hs[..n], dev, k);
      C.NewNumber(R.Later(l, hs[..n], dev), hs[n], hs[k]);
      KeptStill(hs, hs[k].command);
    } else {
      LastIsKept(hs);
    }
  }

  /** Whatever a client sends from an import on: each RET_SUBMIT answers the one command that the client
      sent with its sequence number, at once or after waiting, as `Answered` says. */
  lemma EveryReplyAnswers(table: seq<Endpoint>, hs: seq<V.Heard>, dev: V.Callbacks, i: nat)
    requires S.FreshTable(table) && R.AllFine(R.Imported(table), hs, dev)
    requires i < |R.SessionReplies(R.Imported(table), hs, dev)| && R.SessionReplies(R.Imported(table), hs, dev)[i].Submitted?
    ensures var r := R.SessionReplies(R.Imported(table), hs, dev)[i];
            exists j :: 0 <= j < |hs| && hs[j].command.Some? && Answered(r, hs[j].command.value, table, dev)
  {
    hide R.AllFine, R.SessionReplies, Keeps, Answered, R.Later;
    var l, said := R.Imported(table), SubmitsHeard(hs);
    forall k | 0 <= k < |hs| ensures Keeps(said, hs[k].command) { HeardIsKept(l, hs, dev, k); }
    SessionAnswers(l, hs, dev, said, table);
    var r := R.SessionReplies(l, hs, dev)[i];
    var c := SubmitHeard(hs, r.seqnum);
    assert said(r.seqnum) == c;
  }

  // ----- Sessions of one command -----

  lemma OneReply(l: R.Live, h: V.Heard, dev: V.Callbacks, r: W.Reply)
    requires R.Fine(l, h) && R.RoundReplies(l, h, dev) == [r]
    ensures R.AllFine(l, [h], dev) && R.SessionReplies(l, [h], dev) == [r]
  {
    hide R.RoundReplies, R.Fine;
    D.OneRound(l, h, dev);
  }

  /** A pass over one isochronous transfer whose deadline has come. */
  lemma OneStreamed(q: Queue, u: Urb, bufs: seq<seq<byte>>, now: nat)
    requires Sized(q) && q.pending == [u] && |bufs| == 16 && u.isochronous && u.completeUs <= now
    ensures G.PassWith(G.State(q, bufs, []), 0, now, []).done == [G.Done(u, [])]
  {
    var st: G.State<byte> := G.State(q, bufs, []);
    assert G.Fed(st, []) == st;
    var after := G.Step(st, 0, now);
    assert after.done == [G.Done(u, [])] && after.queue.pending == [];
    assert G.PassWith(after, 0, now, []) == after;
  }

  lemma DoneOnce(d: G.Done<byte>, dev: V.Callbacks)
    requires V.Checked(d.urb) && |d.data| <= d.urb.length
    ensures V.AllReplied([d]) && R.DoneReplies([d], dev) == [V.DoneReply(d, dev)]
  {
    assert [d][..0] == [] && R.DoneReplies([], dev) == [];
  }

  /** An isochronous submit is answered in the first pass at or after its arrival plus one interval per
      packet, with its own packets. */
  lemma IsoSession(table: seq<Endpoint>, c: W.Command, now: nat, later: nat, dev: V.Callbacks)
    requires S.FreshTable(table) && W.WellFormed(c, table) && c.Submit? && c.ep < 16 && c.direction <= 1
    requires W.IsIso(table, c.direction, c.ep)
    requires now + |c.packets| * table[Slot(c.direction, c.ep)].intervalUs <= later
    ensures var l, hs := R.Imported(table), [V.Heard(Some(c), now, later, [])];
            && R.AllFine(l, hs, dev)
            && var rs := R.SessionReplies(l, hs, dev); |rs| == 1 && Answered(rs[0], c, table, dev)
  {
    var l, h := R.Imported(table), V.Heard(Some(c), now, later, []);
    var due := now + |c.packets| * table[Slot(c.direction, c.ep)].intervalUs;
    var u := V.UrbOf(c, true).(completeUs := due);
    QueuedIsAsked(c, table, due);
    IsoRound(l, h, c, u, dev);
    IsoIsAnswered(u, c, table, dev);
    hide Answered, V.IsoReply;
    OneReply(l, h, dev, V.IsoReply(u, dev.isoIn(c.seqnum)));
  }

  lemma IsoRound(l: R.Live, h: V.Heard, c: W.Command, u: Urb, dev: V.Callbacks)
    requires R.Ready(l) && l.s.queue.pending == [] && S.FreshTable(l.s.queue.table) && R.Fits(l.s, c) && c.Submit?
    requires h.command == Some(c) && h.feeds == [] && W.IsIso(l.s.queue.table, c.direction, c.ep)
    requires u == V.UrbOf(c, true).(completeUs := h.now + |c.packets| * l.s.queue.table[Slot(c.direction, c.ep)].intervalUs)
    requires u.completeUs <= h.later && V.Checked(u)
    ensures R.Fine(l, h) && R.RoundReplies(l, h, dev) == [V.IsoReply(u, dev.isoIn(c.seqnum))]
  {
    hide G.PassWith, V.IsoReply, R.DoneReplies;
    var st := R.Start(l, h, dev);
    assert st.queue.pending == [u];
    OneStreamed(st.queue, u, l.bufs, h.later);
    DoneOnce(G.Done(u, []), dev);
    assert R.Response(l, h, dev).replies == [];
  }

  /** Control requests and OUT transfers are answered at once. */
  lemma DirectSession(table: seq<Endpoint>, c: W.Command, now: nat, later: nat, feeds: V.Feeds, dev: V.Callbacks)
    requires S.FreshTable(table) && W.WellFormed(c, table) && c.Submit? && c.ep < 16 && c.direction <= 1
    requires !W.IsIso(table, c.direction, c.ep) && (c.ep == 0 || c.direction == 0)
    ensures var l, hs := R.Imported(table), [V.Heard(Some(c), now, later, feeds)];
            && R.AllFine(l, hs, dev)
            && var rs := R.SessionReplies(l, hs, dev); |rs| == 1 && Answered(rs[0], c, table, dev)
  {
    var l, h := R.Imported(table), V.Heard(Some(c), now, later, feeds);
    DirectIsAnswered(c, table, dev);
    var r := if c.ep == 0 then V.ControlReply(c, dev.control(c.seqnum)) else V.Answer(c.seqnum, 0, c.length, []);
    var st := R.Start(l, h, dev);
    assert st.queue.pending == [] && G.PassWith(st, 0, h.later, h.feeds).done == [];
    assert R.RoundReplies(l, h, dev) == [r];
    hide Answered;
    OneReply(l, h, dev, r);
  }
}
