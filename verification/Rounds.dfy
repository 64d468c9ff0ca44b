/** The bytes the server writes are the log of a session.

    `Protocol` proves what a round of the server's loop writes, `Schedule` what a session may log. Here
    every round is a sequence of `Schedule`'s steps, and the replies in its bytes are the events it
    logs, so what holds of every session holds of every byte stream. */
module Rounds {
  import opened Urbs
  import S = Schedule
  import W = Wire
  import V = Service
  import G = Greedy
  import H = Handoff

  // ----- Steps in a row -----

  ghost predicate CanAll(s: S.Sched<byte>, acts: seq<S.Act<byte>>)
    decreases |acts|
  {
    acts != [] ==> S.Can(s, acts[0]) && CanAll(S.Next(s, acts[0]), acts[1..])
  }

  ghost function After(s: S.Sched<byte>, acts: seq<S.Act<byte>>): S.Sched<byte>
    requires CanAll(s, acts)
    decreases |acts|
  {
    if acts == [] then s else After(S.Next(s, acts[0]), acts[1..])
  }

  lemma {:induction false} AfterMore(s: S.Sched<byte>, a: seq<S.Act<byte>>, b: seq<S.Act<byte>>)
    requires CanAll(s, a) && CanAll(After(s, a), b)
    ensures CanAll(s, a + b) && After(s, a + b) == After(After(s, a), b)
    decreases |a|
  {
    if a == [] {
      assert a + b == b;
    } else {
      AfterMore(S.Next(s, a[0]), a[1..], b);
      assert (a + b)[0] == a[0] && (a + b)[1..] == a[1..] + b;
    }
  }

  lemma OneStep(s: S.Sched<byte>, a: S.Act<byte>)
    requires S.Can(s, a)
    ensures CanAll(s, [a]) && After(s, [a]) == S.Next(s, a)
  {
    assert [a][1..] == [];
  }

  lemma FirstStep(s: S.Sched<byte>, a: S.Act<byte>, rest: seq<S.Act<byte>>)
    requires S.Can(s, a) && CanAll(S.Next(s, a), rest)
    ensures CanAll(s, [a] + rest) && After(s, [a] + rest) == After(S.Next(s, a), rest)
  {
    assert ([a] + rest)[1..] == rest;
  }

  // ----- Events and replies -----

  /** The reply that an event is. The data of a stream is produced when it is answered, so the log
      does not have it. */
  predicate Says(e: S.Event<byte>, r: W.Reply) {
    match e
    case Stream(_, _, _, _, _) => false
    case Ret(q, via, data) => r.Submitted? && r.seqnum == q && (via.Streamed? || r.payload == data)
    case Unlinked(q, _, cancelled, _) =>
      r.Unlinked? && r.seqnum == q && r.status == if cancelled then V.URB_UNLINKED else 0
  }

  /** The replies are the events of the log, in order, without the starts of streams. */
  ghost predicate Tells(log: seq<S.Event<byte>>, rs: seq<W.Reply>) {
    if log == [] then rs == []
    else
      var n, m := |log| - 1, |rs| - 1;
      if log[n].Stream? then Tells(log[..n], rs)
      else rs != [] && Says(log[n], rs[m]) && Tells(log[..n], rs[..m])
  }

  lemma TellsOne(log: seq<S.Event<byte>>, rs: seq<W.Reply>, e: S.Event<byte>, r: W.Reply)
    requires Tells(log, rs) && Says(e, r)
    ensures Tells(log + [e], rs + [r])
  {
    assert (log + [e])[..|log|] == log && (rs + [r])[..|rs|] == rs;
  }

  lemma TellsStream(log: seq<S.Event<byte>>, rs: seq<W.Reply>, e: S.Event<byte>)
    requires Tells(log, rs) && e.Stream?
    ensures Tells(log + [e], rs)
  {
    assert (log + [e])[..|log|] == log;
  }

  // ----- A command -----

  ghost function CommandActs(q: Queue, c: W.Command, now: nat, dev: V.Callbacks): seq<S.Act<byte>>
    requires Sized(q) && W.WellFormed(c, q.table)
  {
    match c
    case Unlink(seqnum, _, _, _, target, _) => [S.Unlink(seqnum, target)]
    case Submit(seqnum, _, direction, ep, _, _, _, _, _, _, _, _) =>
      if W.IsIso(q.table, direction, ep) then
        var u := V.UrbOf(c, true);
        [S.Open(seqnum), S.QueueIso(u, now)]
        + if |q.pending| == MAX_PENDING_URBS then [S.Close(V.IsoReply(u, dev.isoIn(seqnum)).payload)] else []
      else if ep == 0 then [S.Open(seqnum), S.Close(V.ControlReply(c, dev.control(seqnum)).payload)]
      else if direction == 0 then [S.Open(seqnum), S.Close([])]
      else [S.QueueIn(V.UrbOf(c, false))]
  }

  /** A command that fits the session: a new sequence number and an address a host may use. */
  ghost predicate Fits(s: S.Sched<byte>, c: W.Command) {
    && Sized(s.queue) && W.WellFormed(c, s.queue.table)
    && (c.Submit? ==> c.seqnum !in s.order && c.ep < 16 && c.direction <= 1)
  }

  /** What a row of steps does: it ends between requests with this queue, and logs these replies. */
  ghost predicate Does(s: S.Sched<byte>, acts: seq<S.Act<byte>>, q: Queue, rs: seq<W.Reply>) {
    && CanAll(s, acts)
    && var t := After(s, acts);
       && S.Between(t) && t.queue == q
       && (forall told :: Tells(s.log, told) ==> Tells(t.log, told + rs))
  }

  lemma UnlinkDoes(s: S.Sched<byte>, c: W.Command, now: nat, dev: V.Callbacks)
    requires S.Between(s) && Fits(s, c) && c.Unlink?
    ensures var r := V.Serve(s.queue, c, now, dev); Does(s, CommandActs(s.queue, c, now, dev), r.queue, r.replies)
  {
    var acts, r := CommandActs(s.queue, c, now, dev), V.Serve(s.queue, c, now, dev);
    var t := S.Next(s, acts[0]);
    OneStep(s, acts[0]);
    forall told | Tells(s.log, told) ensures Tells(t.log, told + r.replies) {
      TellsOne(s.log, told, t.log[|s.log|], r.replies[0]);
    }
  }

  /** Served at once: opened, and closed with what the reply carries. */
  lemma DirectDoes(s: S.Sched<byte>, r: W.Reply)
    requires S.Between(s) && Sized(s.queue) && r.Submitted? && r.seqnum !in s.order
    ensures Does(s, [S.Open(r.seqnum), S.Close(r.payload)], s.queue, [r])
  {
    var acts: seq<S.Act<byte>> := [S.Open(r.seqnum), S.Close(r.payload)];
    var mid := S.Next(s, acts[0]);
    var t := S.Next(mid, acts[1]);
    OneStep(mid, acts[1]);
    FirstStep(s, acts[0], [acts[1]]);
    assert acts == [acts[0]] + [acts[1]];
    forall told | Tells(s.log, told) ensures Tells(t.log, told + [r]) {
      TellsOne(s.log, told, t.log[|s.log|], r);
    }
  }

  lemma QueueInDoes(s: S.Sched<byte>, u: Urb)
    requires S.Between(s) && S.Can(s, S.QueueIn(u))
    ensures var full := |s.queue.pending| == MAX_PENDING_URBS;
            Does(s, [S.QueueIn(u)], PushIn(s.queue, u), if full then [V.Answer(u.seqnum, 0, 0, [])] else [])
  {
    var t := S.Next(s, S.QueueIn(u));
    OneStep(s, S.QueueIn(u));
    var rs := if |s.queue.pending| == MAX_PENDING_URBS then [V.Answer(u.seqnum, 0, 0, [])] else [];
    forall told | Tells(s.log, told) ensures Tells(t.log, told + rs) {
      if rs == [] {
        assert told + rs == told;
      } else {
        TellsOne(s.log, told, t.log[|s.log|], rs[0]);
      }
    }
  }

  /** The stream is extended; without room in the queue the transfer is answered at once. */
  lemma StreamDoes(s: S.Sched<byte>, u: Urb, now: nat, r: W.Reply)
    requires S.Between(s) && Sized(s.queue) && u.seqnum !in s.order && Canonical(u) && u.isochronous
    requires r.Submitted? && r.seqnum == u.seqnum
    ensures var full := |s.queue.pending| == MAX_PENDING_URBS;
            Does(s, [S.Open(u.seqnum), S.QueueIso(u, now)] + (if full then [S.Close(r.payload)] else []),
                 PushIso(s.queue, u, now), if full then [r] else [])
  {
    var open: S.Act<byte>, queued: S.Act<byte>, close := S.Open(u.seqnum), S.QueueIso(u, now), S.Close(r.payload);
    var s1 := S.Next(s, open);
    var s2 := S.Next(s1, queued);
    if |s.queue.pending| == MAX_PENDING_URBS {
      var s3 := S.Next(s2, close);
      OneStep(s2, close);
      FirstStep(s1, queued, [close]);
      FirstStep(s, open, [queued] + [close]);
      assert [open, queued] + [close] == [open] + ([queued] + [close]);
      forall told | Tells(s.log, told) ensures Tells(s3.log, told + [r]) {
        TellsStream(s.log, told, s2.log[|s.log|]);
        TellsOne(s2.log, told, s3.log[|s2.log|], r);
      }
    } else {
      OneStep(s1, queued);
      FirstStep(s, open, [queued]);
      assert [open, queued] + [] == [open] + [queued];
      forall told | Tells(s.log, told) ensures Tells(s2.log, told + []) {
        TellsStream(s.log, told, s2.log[|s.log|]);
        assert told + [] == told;
      }
    }
  }

  /** A command is served as its steps say. */
  lemma CommandDoes(s: S.Sched<byte>, c: W.Command, now: nat, dev: V.Callbacks)
    requires S.Between(s) && Fits(s, c)
    ensures var r := V.Serve(s.queue, c, now, dev); Does(s, CommandActs(s.queue, c, now, dev), r.queue, r.replies)
  {
    hide Does, S.Next, PushIso, V.ControlReply, V.IsoReply;
    if c.Unlink? {
      UnlinkDoes(s, c, now, dev);
    } else if W.IsIso(s.queue.table, c.direction, c.ep) {
      IsoReplyIsFor(V.UrbOf(c, true), dev);
      StreamDoes(s, V.UrbOf(c, true), now, V.IsoReply(V.UrbOf(c, true), dev.isoIn(c.seqnum)));
    } else if c.ep == 0 {
      ControlReplyIsFor(c, dev);
      DirectDoes(s, V.ControlReply(c, dev.control(c.seqnum)));
    } else if c.direction == 0 {
      DirectDoes(s, V.Answer(c.seqnum, 0, c.length, []));
    } else {
      QueueInDoes(s, V.UrbOf(c, false));
    }
  }

  lemma IsoReplyIsFor(u: Urb, dev: V.Callbacks)
    requires V.Checked(u)
    ensures var r := V.IsoReply(u, dev.isoIn(u.seqnum)); r.Submitted? && r.seqnum == u.seqnum
  {
  }

  lemma ControlReplyIsFor(c: W.Command, dev: V.Callbacks)
    requires c.Submit?
    ensures var r := V.ControlReply(c, dev.control(c.seqnum)); r.Submitted? && r.seqnum == c.seqnum
  {
  }

  // ----- The completion pass -----

  /** The data that the pass fetches for the transfer at `i`. */
  ghost function Fetched(st: G.State<byte>, i: nat, now: nat): (d: seq<byte>)
    requires G.Ready(st) && i < |st.queue.pending|
    ensures |d| == G.Got(st, i, now)
  {
    st.bufs[G.Ep(st.queue.pending[i])][..G.Got(st, i, now)]
  }

  ghost function PassActs(st: G.State<byte>, i: nat, now: nat, feeds: V.Feeds): seq<S.Act<byte>>
    requires G.Ready(st) && i <= |st.queue.pending|
    decreases |st.queue.pending| - i
  {
    var fed := G.Fed(st, G.First(feeds));
    if i == |st.queue.pending| then [S.End]
    else [S.Scan(Fetched(fed, i, now))] + PassActs(G.Step(fed, i, now), G.After(fed, i, now), now, G.Rest(feeds))
  }

  /** The replies to completed transfers, in order. */
  function DoneReplies(ds: seq<G.Done<byte>>, dev: V.Callbacks): seq<W.Reply>
    requires V.AllReplied(ds)
  {
    if ds == [] then [] else DoneReplies(ds[..|ds| - 1], dev) + [V.DoneReply(ds[|ds| - 1], dev)]
  }

  lemma DoneReplyMore(ds: seq<G.Done<byte>>, d: G.Done<byte>, dev: V.Callbacks)
    requires V.AllReplied(ds) && V.Checked(d.urb) && |d.data| <= d.urb.length
    ensures V.AllReplied(ds + [d]) && DoneReplies(ds + [d], dev) == DoneReplies(ds, dev) + [V.DoneReply(d, dev)]
  {
    assert (ds + [d])[..|ds|] == ds;
  }

  /** The session is at the same place of its pass as `st`. */
  ghost predicate InPass(s: S.Sched<byte>, st: G.State<byte>, i: nat, now: nat) {
    s.scanning && s.open.None? && s.idx == i && s.now == now && s.queue == st.queue
  }

  /** One iteration of the pass is one step of the session. */
  lemma ScanSteps(s: S.Sched<byte>, st: G.State<byte>, i: nat, now: nat)
    requires G.Ready(st) && i < |st.queue.pending| && InPass(s, st, i, now)
    ensures S.Can(s, S.Scan(Fetched(st, i, now)))
    ensures var t := S.Next(s, S.Scan(Fetched(st, i, now)));
            var st', u := G.Step(st, i, now), st.queue.pending[i];
            && InPass(t, st', G.After(st, i, now), now)
            && (if G.After(st, i, now) == i
                then t.log == s.log + [S.Ret(u.seqnum, S.How(u, now), Fetched(st, i, now))]
                     && st'.done == st.done + [G.Done(u, Fetched(st, i, now))]
                else t.log == s.log && st'.done == st.done)
  {
  }

  lemma DoneIsSaid(u: Urb, now: nat, data: seq<byte>, dev: V.Callbacks)
    requires V.Checked(u) && |data| <= u.length
    ensures Says(S.Ret(u.seqnum, S.How(u, now), data), V.DoneReply(G.Done(u, data), dev))
  {
  }

  /** One more transfer is done, and its reply said. */
  lemma DoneTells(log: seq<S.Event<byte>>, done: seq<G.Done<byte>>, u: Urb, data: seq<byte>, now: nat, dev: V.Callbacks,
                  told: seq<W.Reply>)
    requires V.AllReplied(done) && V.Checked(u) && |data| <= u.length
    ensures V.AllReplied(done + [G.Done(u, data)])
    ensures Tells(log, told + DoneReplies(done, dev)) ==>
              Tells(log + [S.Ret(u.seqnum, S.How(u, now), data)], told + DoneReplies(done + [G.Done(u, data)], dev))
  {
    hide Tells, Says, V.DoneReply, S.How;
    DoneReplyMore(done, G.Done(u, data), dev);
    DoneIsSaid(u, now, data, dev);
    var said, r := told + DoneReplies(done, dev), V.DoneReply(G.Done(u, data), dev);
    if Tells(log, said) { TellsOne(log, said, S.Ret(u.seqnum, S.How(u, now), data), r); }
    assert said + [r] == told + DoneReplies(done + [G.Done(u, data)], dev);
  }

  lemma {:induction false} PassDoes(s: S.Sched<byte>, st: G.State<byte>, i: nat, now: nat, feeds: V.Feeds, dev: V.Callbacks,
                                    told: seq<W.Reply>)
    requires G.Ready(st) && i <= |st.queue.pending| && InPass(s, st, i, now)
    requires V.AllChecked(st.queue.pending) && V.AllReplied(st.done)
    ensures CanAll(s, PassActs(st, i, now, feeds)) && V.AllReplied(G.PassWith(st, i, now, feeds).done)
    ensures var t := After(s, PassActs(st, i, now, feeds));
            && S.Between(t) && t.queue == G.PassWith(st, i, now, feeds).queue
            && (Tells(s.log, told + DoneReplies(st.done, dev)) ==>
                  Tells(t.log, told + DoneReplies(G.PassWith(st, i, now, feeds).done, dev)))
    decreases |st.queue.pending| - i
  {
    hide S.Next, S.Can, S.How, G.Step, G.After, G.Stored, V.Checked, DoneReplies, CanAll, After, Tells;
    if i == |st.queue.pending| {
      EndDoes(s, st, i, now);
    } else {
      var fed := G.Fed(st, G.First(feeds));
      ScanSteps(s, fed, i, now);
      var d, u := Fetched(fed, i, now), st.queue.pending[i];
      var t, st' := S.Next(s, S.Scan(d)), G.Step(fed, i, now);
      V.StillChecked(fed, i, now);
      if G.After(fed, i, now) == i {
        FetchFits(fed, i, now);
        DoneTells(s.log, st.done, u, d, now, dev, told);
      }
      PassDoes(t, st', G.After(fed, i, now), now, G.Rest(feeds), dev, told);
      FirstStep(s, S.Scan(d), PassActs(st', G.After(fed, i, now), now, G.Rest(feeds)));
    }
  }

  lemma EndDoes(s: S.Sched<byte>, st: G.State<byte>, i: nat, now: nat)
    requires G.Ready(st) && i == |st.queue.pending| && InPass(s, st, i, now)
    ensures CanAll(s, [S.End]) && var t := After(s, [S.End]); S.Between(t) && t.queue == st.queue && t.log == s.log
  {
    OneStep(s, S.End);
  }

  lemma FetchFits(st: G.State<byte>, i: nat, now: nat)
    requires G.Ready(st) && i < |st.queue.pending| && V.AllChecked(st.queue.pending)
    ensures V.Checked(st.queue.pending[i]) && |Fetched(st, i, now)| <= st.queue.pending[i].length
  {
  }

  // ----- Bytes -----

  lemma {:induction false} EncodeMore(a: seq<W.Reply>, b: seq<W.Reply>)
    ensures W.EncodeReplies(a + b) == W.EncodeReplies(a) + W.EncodeReplies(b)
  {
    hide W.EncodeReply;
    if a == [] {
      assert a + b == b;
    } else {
      EncodeMore(a[1..], b);
      assert (a + b)[0] == a[0] && (a + b)[1..] == a[1..] + b;
      var first := W.EncodeReply(a[0]);
      assert first + (W.EncodeReplies(a[1..]) + W.EncodeReplies(b)) == (first + W.EncodeReplies(a[1..])) + W.EncodeReplies(b);
    }
  }

  lemma EncodeOne(r: W.Reply)
    ensures W.EncodeReplies([r]) == W.EncodeReply(r)
  {
    assert W.EncodeReplies([r]) == W.EncodeReply(r) + W.EncodeReplies([]);
  }

  lemma {:induction false} DoneBytesAreReplies(ds: seq<G.Done<byte>>, dev: V.Callbacks)
    requires V.AllReplied(ds)
    ensures V.DoneBytes(ds, dev) == W.EncodeReplies(DoneReplies(ds, dev))
  {
    hide W.EncodeReply, V.DoneReply, V.Checked;
    if ds != [] {
      var n := |ds| - 1;
      DoneBytesAreReplies(ds[..n], dev);
      EncodeMore(DoneReplies(ds[..n], dev), [V.DoneReply(ds[n], dev)]);
      EncodeOne(V.DoneReply(ds[n], dev));
    }
  }

  // ----- A round -----

  /** A session between two rounds. */
  datatype Live = Live(s: S.Sched<byte>, bufs: seq<seq<byte>>)

  ghost predicate Ready(l: Live) {
    S.Between(l.s) && V.Steady(l.s.queue, l.bufs)
  }

  ghost predicate Fine(l: Live, h: V.Heard) {
    Ready(l) && (h.command.Some? ==> Fits(l.s, h.command.value))
  }

  ghost function Round(l: Live, h: V.Heard, dev: V.Callbacks): V.Round
    requires Fine(l, h)
  {
    V.RoundOf(l.s.queue, l.bufs, h, dev)
  }

  ghost function Response(l: Live, h: V.Heard, dev: V.Callbacks): (r: V.Response)
    requires Fine(l, h)
    ensures Sized(r.queue) && V.AllChecked(r.queue.pending)
  {
    assert Sized(V.AfterCommand(l.s.queue, h.command, h.now, dev).queue)
           && V.AllChecked(V.AfterCommand(l.s.queue, h.command, h.now, dev).queue.pending) by {
      if h.command.Some? { V.ServeChecks(l.s.queue, h.command.value, h.now, dev); }
    }
    V.AfterCommand(l.s.queue, h.command, h.now, dev)
  }

  /** The pass of a round, about to begin. */
  ghost function Start(l: Live, h: V.Heard, dev: V.Callbacks): (st: G.State<byte>)
    requires Fine(l, h)
    ensures G.Ready(st) && V.AllChecked(st.queue.pending) && st.done == []
  {
    G.State(Response(l, h, dev).queue.(timeoutUs := WAIT_TIMEOUT_US), l.bufs, [])
  }

  ghost function PassReplies(l: Live, h: V.Heard, dev: V.Callbacks): seq<W.Reply>
    requires Fine(l, h)
  {
    V.PassReplied(Start(l, h, dev), 0, h.later, h.feeds);
    DoneReplies(G.PassWith(Start(l, h, dev), 0, h.later, h.feeds).done, dev)
  }

  ghost function RoundReplies(l: Live, h: V.Heard, dev: V.Callbacks): seq<W.Reply>
    requires Fine(l, h)
  {
    Response(l, h, dev).replies + PassReplies(l, h, dev)
  }

  ghost function FirstActs(l: Live, h: V.Heard, dev: V.Callbacks): seq<S.Act<byte>>
    requires Fine(l, h)
  {
    if h.command.Some? then CommandActs(l.s.queue, h.command.value, h.now, dev) else []
  }

  ghost function RoundActs(l: Live, h: V.Heard, dev: V.Callbacks): seq<S.Act<byte>>
    requires Fine(l, h)
  {
    FirstActs(l, h, dev) + ([S.Begin(h.later)] + PassActs(Start(l, h, dev), 0, h.later, h.feeds))
  }

  lemma FirstDoes(l: Live, h: V.Heard, dev: V.Callbacks)
    requires Fine(l, h)
    ensures Does(l.s, FirstActs(l, h, dev), Response(l, h, dev).queue, Response(l, h, dev).replies)
  {
    if h.command.Some? {
      CommandDoes(l.s, h.command.value, h.now, dev);
    } else {
      forall told | Tells(l.s.log, told) ensures Tells(l.s.log, told + []) { assert told + [] == told; }
    }
  }

  lemma BeginSteps(s: S.Sched<byte>, st: G.State<byte>, now: nat)
    requires S.Between(s) && Sized(s.queue) && st.queue == s.queue.(timeoutUs := WAIT_TIMEOUT_US)
    ensures S.Can(s, S.Begin(now)) && var t := S.Next(s, S.Begin(now)); InPass(t, st, 0, now) && t.log == s.log
  {
  }

  /** A round is a row of steps of the session, and its replies are what they log. */
  lemma RoundDoes(l: Live, h: V.Heard, dev: V.Callbacks, told: seq<W.Reply>)
    requires Fine(l, h)
    ensures CanAll(l.s, RoundActs(l, h, dev))
    ensures var t := After(l.s, RoundActs(l, h, dev));
            && S.Between(t) && t.queue == G.PassWith(Start(l, h, dev), 0, h.later, h.feeds).queue
            && (Tells(l.s.log, told) ==> Tells(t.log, told + RoundReplies(l, h, dev)))
  {
    hide Does, CanAll, After, FirstActs, Response, Tells, PassActs, DoneReplies, G.PassWith, Fine, S.Between;
    FirstDoes(l, h, dev);
    DoesSo(l.s, FirstActs(l, h, dev), Response(l, h, dev).queue, Response(l, h, dev).replies, told);
    var first, st := FirstActs(l, h, dev), Start(l, h, dev);
    var mid, said := After(l.s, first), told + Response(l, h, dev).replies;
    PassAfter(mid, st, h.later, h.feeds, dev, said);
    AfterMore(l.s, first, [S.Begin(h.later)] + PassActs(st, 0, h.later, h.feeds));
    assert said + PassReplies(l, h, dev) == told + RoundReplies(l, h, dev);
  }

  lemma DoesSo(s: S.Sched<byte>, acts: seq<S.Act<byte>>, q: Queue, rs: seq<W.Reply>, told: seq<W.Reply>)
    requires Does(s, acts, q, rs)
    ensures CanAll(s, acts) && S.Between(After(s, acts)) && After(s, acts).queue == q
    ensures Tells(s.log, told) ==> Tells(After(s, acts).log, told + rs)
  {
  }

  /** The pass, from its beginning. */
  lemma PassAfter(s: S.Sched<byte>, st: G.State<byte>, now: nat, feeds: V.Feeds, dev: V.Callbacks, told: seq<W.Reply>)
    requires S.Between(s) && Sized(s.queue) && st.queue == s.queue.(timeoutUs := WAIT_TIMEOUT_US)
    requires G.Ready(st) && V.AllChecked(st.queue.pending) && st.done == []
    ensures CanAll(s, [S.Begin(now)] + PassActs(st, 0, now, feeds)) && V.AllReplied(G.PassWith(st, 0, now, feeds).done)
    ensures var t := After(s, [S.Begin(now)] + PassActs(st, 0, now, feeds));
            && S.Between(t) && t.queue == G.PassWith(st, 0, now, feeds).queue
            && (Tells(s.log, told) ==> Tells(t.log, told + DoneReplies(G.PassWith(st, 0, now, feeds).done, dev)))
  {
    hide S.Next, S.Can, Tells, PassActs, G.PassWith, CanAll, After;
    BeginSteps(s, st, now);
    assert told + DoneReplies(st.done, dev) == told;
    PassDoes(S.Next(s, S.Begin(now)), st, 0, now, feeds, dev, told);
    FirstStep(s, S.Begin(now), PassActs(st, 0, now, feeds));
  }

  /** The round's bytes are the encoding of those replies. */
  lemma RoundBytes(l: Live, h: V.Heard, dev: V.Callbacks)
    requires Fine(l, h)
    ensures Round(l, h, dev).bytes == W.EncodeReplies(RoundReplies(l, h, dev))
    ensures Round(l, h, dev).queue == G.PassWith(Start(l, h, dev), 0, h.later, h.feeds).queue
  {
    var st := Start(l, h, dev);
    V.PassReplied(st, 0, h.later, h.feeds);
    DoneBytesAreReplies(G.PassWith(st, 0, h.later, h.feeds).done, dev);
    EncodeMore(Response(l, h, dev).replies, PassReplies(l, h, dev));
  }

  // ----- A whole session -----

  /** The session after a round. */
  ghost function Turned(l: Live, h: V.Heard, dev: V.Callbacks): (t: Live)
    requires Fine(l, h)
    ensures Ready(t) && t.s.queue == Round(l, h, dev).queue
  {
    RoundDoes(l, h, dev, []);
    RoundBytes(l, h, dev);
    Live(After(l.s, RoundActs(l, h, dev)), Round(l, h, dev).bufs)
  }

  /** Every round's command fits the session as it then is. */
  ghost predicate AllFine(l: Live, hs: seq<V.Heard>, dev: V.Callbacks)
    requires Ready(l)
    decreases |hs|, 0
  {
    hs != [] ==>
      var n := |hs| - 1;
      AllFine(l, hs[..n], dev) && Fine(Later(l, hs[..n], dev), hs[n])
  }

  /** The session after any number of rounds. */
  ghost function Later(l: Live, hs: seq<V.Heard>, dev: V.Callbacks): (t: Live)
    requires Ready(l) && AllFine(l, hs, dev)
    ensures Ready(t)
    decreases |hs|, 1
  {
    if hs == [] then l else Turned(Later(l, hs[..|hs| - 1], dev), hs[|hs| - 1], dev)
  }

  lemma {:induction false} LastRound(l: Live, hs: seq<V.Heard>, dev: V.Callbacks)
    requires Ready(l) && AllFine(l, hs, dev) && hs != []
    ensures var n := |hs| - 1;
            && AllFine(l, hs[..n], dev) && Fine(Later(l, hs[..n], dev), hs[n])
            && Later(l, hs, dev) == Turned(Later(l, hs[..n], dev), hs[n], dev)
  {
  }

  /** The steps of `Schedule` that those rounds are. */
  ghost function SessionActs(l: Live, hs: seq<V.Heard>, dev: V.Callbacks): seq<S.Act<byte>>
    requires Ready(l) && AllFine(l, hs, dev)
  {
    if hs == [] then []
    else
      var n := |hs| - 1;
      SessionActs(l, hs[..n], dev) + RoundActs(Later(l, hs[..n], dev), hs[n], dev)
  }

  /** The replies of those rounds. */
  ghost function SessionReplies(l: Live, hs: seq<V.Heard>, dev: V.Callbacks): seq<W.Reply>
    requires Ready(l) && AllFine(l, hs, dev)
  {
    if hs == [] then []
    else
      var n := |hs| - 1;
      SessionReplies(l, hs[..n], dev) + RoundReplies(Later(l, hs[..n], dev), hs[n], dev)
  }

  /** Any number of rounds is a run of `Schedule`, and their replies are what it logs. */
  lemma {:induction false} SessionDoes(l: Live, hs: seq<V.Heard>, dev: V.Callbacks, told: seq<W.Reply>)
    requires Ready(l) && AllFine(l, hs, dev)
    ensures CanAll(l.s, SessionActs(l, hs, dev)) && After(l.s, SessionActs(l, hs, dev)) == Later(l, hs, dev).s
    ensures Tells(l.s.log, told) ==> Tells(Later(l, hs, dev).s.log, told + SessionReplies(l, hs, dev))
  {
    hide Tells, RoundActs, RoundReplies, Round, Fine, Ready;
    if hs == [] {
      assert told + [] == told;
    } else {
      var n := |hs| - 1;
      SessionDoes(l, hs[..n], dev, told);
      var mid, said := Later(l, hs[..n], dev), told + SessionReplies(l, hs[..n], dev);
      RoundDoes(mid, hs[n], dev, said);
      AfterMore(l.s, SessionActs(l, hs[..n], dev), RoundActs(mid, hs[n], dev));
      assert said + RoundReplies(mid, hs[n], dev) == told + SessionReplies(l, hs, dev);
    }
  }

  /** All bytes the server's loop writes in these rounds are the encoding of exactly those replies. */
  lemma {:induction false} SessionBytes(l: Live, hs: seq<V.Heard>, dev: V.Callbacks)
    requires Ready(l) && AllFine(l, hs, dev)
    ensures V.Hears(l.s.queue, l.bufs, hs, dev)
    ensures var r, t := V.Rounds(l.s.queue, l.bufs, hs, dev), Later(l, hs, dev);
            r.queue == t.s.queue && r.bufs == t.bufs && r.bytes == W.EncodeReplies(SessionReplies(l, hs, dev))
  {
    hide V.RoundOf, RoundReplies, W.EncodeReply;
    if hs != [] {
      var n := |hs| - 1;
      SessionBytes(l, hs[..n], dev);
      var mid := Later(l, hs[..n], dev);
      RoundBytes(mid, hs[n], dev);
      EncodeMore(SessionReplies(l, hs[..n], dev), RoundReplies(mid, hs[n], dev));
    }
  }

  /** The states of a row of steps. */
  ghost function States(s: S.Sched<byte>, acts: seq<S.Act<byte>>): (ss: seq<S.Sched<byte>>)
    requires CanAll(s, acts)
    ensures |ss| == |acts| + 1 && ss[0] == s
    decreases |acts|
  {
    if acts == [] then [s] else [s] + States(S.Next(s, acts[0]), acts[1..])
  }

  lemma {:induction false} StatesStep(s: S.Sched<byte>, acts: seq<S.Act<byte>>, i: nat)
    requires CanAll(s, acts) && i < |acts|
    ensures var ss := States(s, acts); S.Can(ss[i], acts[i]) && ss[i + 1] == S.Next(ss[i], acts[i])
    decreases |acts|
  {
    hide S.Can, S.Next;
    if i > 0 {
      StatesStep(S.Next(s, acts[0]), acts[1..], i - 1);
    }
  }

  lemma {:induction false} StatesEnd(s: S.Sched<byte>, acts: seq<S.Act<byte>>)
    requires CanAll(s, acts)
    ensures States(s, acts)[|acts|] == After(s, acts)
    decreases |acts|
  {
    hide S.Can, S.Next;
    if acts != [] {
      StatesEnd(S.Next(s, acts[0]), acts[1..]);
    }
  }

  /** A reply's event is somewhere in the log. */
  lemma {:induction false} Somewhere(log: seq<S.Event<byte>>, rs: seq<W.Reply>, i: nat) returns (k: nat)
    requires Tells(log, rs) && i < |rs|
    ensures k < |log| && Says(log[k], rs[i])
  {
    var n, m := |log| - 1, |rs| - 1;
    if log[n].Stream? {
      k := Somewhere(log[..n], rs, i);
    } else if i == m {
      k := n;
    } else {
      k := Somewhere(log[..n], rs[..m], i);
    }
  }

  /** Two replies have two events. */
  lemma {:induction false} Apart(log: seq<S.Event<byte>>, rs: seq<W.Reply>, i: nat, j: nat) returns (k: nat, l: nat)
    requires Tells(log, rs) && i < j < |rs|
    ensures k < l < |log| && Says(log[k], rs[i]) && Says(log[l], rs[j])
  {
    var n, m := |log| - 1, |rs| - 1;
    if log[n].Stream? {
      k, l := Apart(log[..n], rs, i, j);
    } else if j == m {
      k := Somewhere(log[..n], rs[..m], i);
      l := n;
    } else {
      k, l := Apart(log[..n], rs[..m], i, j);
    }
  }

  /** No transfer is ended twice. */
  ghost predicate Once(log: seq<S.Event<byte>>) {
    forall k, l :: 0 <= k < l < |log| && S.Closer(log[k]) && S.Closer(log[l]) ==> S.Subject(log[k]) != S.Subject(log[l])
  }

  /** No two RET_SUBMITs are for one sequence number. */
  predicate Distinct(rs: seq<W.Reply>) {
    forall i, j :: 0 <= i < j < |rs| && rs[i].Submitted? && rs[j].Submitted? ==> rs[i].seqnum != rs[j].seqnum
  }

  lemma OneAnswerEach(log: seq<S.Event<byte>>, rs: seq<W.Reply>)
    requires Tells(log, rs) && Once(log)
    ensures Distinct(rs)
  {
    forall i, j | 0 <= i < j < |rs| && rs[i].Submitted? && rs[j].Submitted? ensures rs[i].seqnum != rs[j].seqnum {
      var k, l := Apart(log, rs, i, j);
      assert S.Closer(log[k]) && S.Closer(log[l]);
    }
  }

  lemma LogIsOnce(table: seq<Endpoint>, acts: seq<S.Act<byte>>)
    requires S.FreshTable(table) && CanAll(S.Fresh(table), acts)
    ensures Once(After(S.Fresh(table), acts).log)
  {
    hide S.Can, S.Next, States, After, CanAll;
    var ss := States(S.Fresh(table), acts);
    forall i | 0 <= i < |acts| ensures S.Can(ss[i], acts[i]) && ss[i + 1] == S.Next(ss[i], acts[i]) {
      StatesStep(S.Fresh(table), acts, i);
    }
    StatesEnd(S.Fresh(table), acts);
    S.RunKeepsInv(ss, acts, table, |acts|);
  }

  /** A session right after its import: the queue is empty and nothing is buffered. */
  ghost function Imported(table: seq<Endpoint>): (l: Live)
    requires S.FreshTable(table)
    ensures Ready(l) && l.s == S.Fresh(table) && l.s.log == []
  {
    Live(S.Fresh(table), V.NoData())
  }

  /** Whatever the client sends from an import on: no sequence number is answered twice. */
  lemma NoAnswerTwice(table: seq<Endpoint>, hs: seq<V.Heard>, dev: V.Callbacks)
    requires S.FreshTable(table) && AllFine(Imported(table), hs, dev)
    ensures Distinct(SessionReplies(Imported(table), hs, dev))
  {
    hide AllFine, Distinct, Once, CanAll, After, S.FreshTable, SessionReplies, SessionActs, Later;
    var l := Imported(table);
    var rs := SessionReplies(l, hs, dev);
    SessionDoes(l, hs, dev, []);
    assert [] + rs == rs;
    LogIsOnce(table, SessionActs(l, hs, dev));
    OneAnswerEach(Later(l, hs, dev).s.log, rs);
  }

  // ----- Control replies -----

  /** The reply to a control request stalls and carries what the machine of threads says it does. */
  lemma ControlAgrees(c: W.Command, r: V.ControlResult)
    requires c.Submit? && c.direction <= 1
    ensures var reply := V.ControlReply(c, r);
            var req := H.Request(c.seqnum, c.direction == 1, c.length, if r.supported then H.Silent else H.Unsupported);
            var stall := H.Stalls(req, r.answer.Some?);
            && reply.status == (if stall then V.EP_STALL else 0)
            && reply.payload == (if stall || !req.toHost then [] else Cut(if r.answer.Some? then r.answer.value else [], c.length))
            && reply.actual == if stall then 0 else if req.toHost then |reply.payload| else c.length
  {
  }
}
