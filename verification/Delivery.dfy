/** What device threads hand over reaches the host: on every data endpoint, the data of the replies to
    polled transfers, in order, followed by what is still buffered, is everything that was accepted. */
module Delivery {
  import opened Urbs
  import S = Schedule
  import W = Wire
  import V = Service
  import G = Greedy
  import R = Rounds

  /** The data of the transfers polled from an endpoint, in order. */
  ghost function Polled(log: seq<S.Event<byte>>, slot: nat): seq<byte> {
    if log == [] then []
    else
      var n := |log| - 1;
      Polled(log[..n], slot) + if S.PolledOn(log[n], slot) then log[n].data else []
  }

  lemma PolledMore(log: seq<S.Event<byte>>, e: S.Event<byte>, slot: nat)
    ensures Polled(log + [e], slot) == Polled(log, slot) + if S.PolledOn(e, slot) then e.data else []
  {
    assert (log + [e])[..|log|] == log;
  }

  // ----- What is accepted -----

  /** Of what is handed over, the data an endpoint's buffer takes. */
  ghost function Taken(bufs: seq<seq<byte>>, ss: seq<G.Store<byte>>, e: nat): seq<byte>
    requires |bufs| == 16 && 0 < e < 16
  {
    if ss == [] then []
    else
      Taken(bufs, ss[..|ss| - 1], e) + TakenLast(bufs, ss, e)
  }

  ghost function TakenLast(bufs: seq<seq<byte>>, ss: seq<G.Store<byte>>, e: nat): seq<byte>
    requires |bufs| == 16 && 0 < e < 16 && ss != []
  {
    var n := |ss| - 1;
    if ss[n].ep % 16 == e && G.Stored(bufs, ss[..n])[e] == [] then Cut(ss[n].data, ENDPOINT_MAX_DATA) else []
  }

  lemma {:induction false} StoredIsTaken(bufs: seq<seq<byte>>, ss: seq<G.Store<byte>>, e: nat)
    requires |bufs| == 16 && 0 < e < 16
    ensures G.Stored(bufs, ss)[e] == bufs[e] + Taken(bufs, ss, e)
  {
    if ss == [] {
      assert bufs[e] + [] == bufs[e];
    } else {
      var n := |ss| - 1;
      StoredIsTaken(bufs, ss[..n], e);
      LastStore(bufs, ss, e);
      var before, here := Taken(bufs, ss[..n], e), TakenLast(bufs, ss, e);
      assert (bufs[e] + before) + here == bufs[e] + (before + here);
    }
  }

  lemma {:induction false} LastStore(bufs: seq<seq<byte>>, ss: seq<G.Store<byte>>, e: nat)
    requires |bufs| == 16 && 0 < e < 16 && ss != []
    ensures G.Stored(bufs, ss)[e] == G.Stored(bufs, ss[..|ss| - 1])[e] + TakenLast(bufs, ss, e)
  {
    hide Cut;
  }

  /** What an endpoint takes during a pass. */
  ghost function PassTaken(st: G.State<byte>, i: nat, now: nat, feeds: V.Feeds, e: nat): seq<byte>
    requires G.Ready(st) && i <= |st.queue.pending| && 0 < e < 16
    decreases |st.queue.pending| - i
  {
    var fed := G.Fed(st, G.First(feeds));
    Taken(st.bufs, G.First(feeds), e)
    + if i == |st.queue.pending| then [] else PassTaken(G.Step(fed, i, now), G.After(fed, i, now), now, G.Rest(feeds), e)
  }

  // ----- The pass -----

  /** One iteration moves bytes from the front of a buffer to the end of what was sent. */
  lemma ScanDelivers(s: S.Sched<byte>, st: G.State<byte>, i: nat, now: nat, e: nat)
    requires G.Ready(st) && i < |st.queue.pending| && R.InPass(s, st, i, now) && 0 < e < 16
    ensures S.Can(s, S.Scan(R.Fetched(st, i, now)))
    ensures var t := S.Next(s, S.Scan(R.Fetched(st, i, now)));
            Polled(t.log, 16 + e) + G.Step(st, i, now).bufs[e] == Polled(s.log, 16 + e) + st.bufs[e]
  {
    hide S.Can, S.Next, G.Step, G.After, Polled, R.Fetched;
    R.ScanSteps(s, st, i, now);
    StepTakes(st, i, now, e);
    var d, u, sent := R.Fetched(st, i, now), st.queue.pending[i], Polled(s.log, 16 + e);
    if G.After(st, i, now) == i {
      PolledMore(s.log, S.Ret(u.seqnum, S.How(u, now), d), 16 + e);
      if !u.isochronous && G.Ep(u) == e {
        assert (sent + d) + st.bufs[e][|d|..] == sent + (d + st.bufs[e][|d|..]);
      } else {
        assert sent + [] == sent;
      }
    }
  }

  /** What one iteration takes out of a buffer. */
  lemma StepTakes(st: G.State<byte>, i: nat, now: nat, e: nat)
    requires G.Ready(st) && i < |st.queue.pending| && e < 16
    ensures var u, d, left := st.queue.pending[i], R.Fetched(st, i, now), G.Step(st, i, now).bufs[e];
            if G.After(st, i, now) == i && !u.isochronous && G.Ep(u) == e
            then |d| <= |st.bufs[e]| && left == st.bufs[e][|d|..] && d + left == st.bufs[e]
            else left == st.bufs[e]
  {
  }

  lemma Joins<X>(a: seq<X>, b: seq<X>, c: seq<X>, d: seq<X>)
    ensures (a + (b + c)) + d == (a + b) + (c + d)
  {
  }

  lemma {:induction false} PassDelivers(s: S.Sched<byte>, st: G.State<byte>, i: nat, now: nat, feeds: V.Feeds, e: nat)
    requires G.Ready(st) && i <= |st.queue.pending| && R.InPass(s, st, i, now) && 0 < e < 16
    ensures R.CanAll(s, R.PassActs(st, i, now, feeds))
    ensures Polled(R.After(s, R.PassActs(st, i, now, feeds)).log, 16 + e) + G.PassWith(st, i, now, feeds).bufs[e]
            == (Polled(s.log, 16 + e) + st.bufs[e]) + PassTaken(st, i, now, feeds, e)
    decreases |st.queue.pending| - i
  {
    hide S.Next, S.Can, G.Step, G.After, G.Stored, Taken, Polled, R.CanAll, R.After;
    var fed := G.Fed(st, G.First(feeds));
    var sent, got := Polled(s.log, 16 + e), Taken(st.bufs, G.First(feeds), e);
    StoredIsTaken(st.bufs, G.First(feeds), e);
    if i == |st.queue.pending| {
      R.EndDoes(s, st, i, now);
      Joins(sent, st.bufs[e], got, []);
      assert (sent + (st.bufs[e] + got)) + [] == sent + (st.bufs[e] + got);
    } else {
      R.ScanSteps(s, fed, i, now);
      ScanDelivers(s, fed, i, now, e);
      Shrinks(fed, i, now);
      var d, st' := R.Fetched(fed, i, now), G.Step(fed, i, now);
      var t, i' := S.Next(s, S.Scan(d)), G.After(fed, i, now);
      PassDelivers(t, st', i', now, G.Rest(feeds), e);
      R.FirstStep(s, S.Scan(d), R.PassActs(st', i', now, G.Rest(feeds)));
      Joins(sent, st.bufs[e], got, PassTaken(st', i', now, G.Rest(feeds), e));
    }
  }

  lemma Shrinks(st: G.State<byte>, i: nat, now: nat)
    requires G.Ready(st) && i < |st.queue.pending|
    ensures |G.Step(st, i, now).queue.pending| - G.After(st, i, now) < |st.queue.pending| - i
  {
  }

  // ----- Commands send nothing from the buffers -----

  lemma {:induction false} PolledStays(s: S.Sched<byte>, acts: seq<S.Act<byte>>, slot: nat)
    requires R.CanAll(s, acts) && forall k :: 0 <= k < |acts| ==> !acts[k].Scan?
    ensures Polled(R.After(s, acts).log, slot) == Polled(s.log, slot)
    decreases |acts|
  {
    if acts != [] {
      var t := S.Next(s, acts[0]);
      PolledStays(t, acts[1..], slot);
      if |t.log| > |s.log| { PolledMore(s.log, t.log[|s.log|], slot); }
    }
  }

  // ----- Rounds -----

  /** What an endpoint takes in a round. */
  ghost function RoundTaken(l: R.Live, h: V.Heard, dev: V.Callbacks, e: nat): seq<byte>
    requires R.Fine(l, h) && 0 < e < 16
  {
    PassTaken(R.Start(l, h, dev), 0, h.later, h.feeds, e)
  }

  /** The data a session's host got from an endpoint, and what is buffered there. */
  ghost function Sum(l: R.Live, e: nat): seq<byte>
    requires R.Ready(l) && 0 < e < 16
  {
    Polled(l.s.log, 16 + e) + l.bufs[e]
  }

  lemma RoundDelivers(l: R.Live, h: V.Heard, dev: V.Callbacks, e: nat)
    requires R.Fine(l, h) && 0 < e < 16
    ensures Sum(R.Turned(l, h, dev), e) == Sum(l, e) + RoundTaken(l, h, dev, e)
  {
    hide R.CommandActs, R.Does, S.Next, S.Can, G.PassWith, Polled, R.CanAll, R.After, R.PassActs, R.Response, PassTaken, R.Tells;
    var first, st := R.FirstActs(l, h, dev), R.Start(l, h, dev);
    R.FirstDoes(l, h, dev);
    R.DoesSo(l.s, first, R.Response(l, h, dev).queue, R.Response(l, h, dev).replies, []);
    var mid := R.After(l.s, first);
    CommandsScanNothing(l, h, dev);
    PolledStays(l.s, first, 16 + e);
    R.BeginSteps(mid, st, h.later);
    PassDelivers(S.Next(mid, S.Begin(h.later)), st, 0, h.later, h.feeds, e);
    R.FirstStep(mid, S.Begin(h.later), R.PassActs(st, 0, h.later, h.feeds));
    R.AfterMore(l.s, first, [S.Begin(h.later)] + R.PassActs(st, 0, h.later, h.feeds));
    RoundBufs(l, h, dev);
  }

  lemma CommandsScanNothing(l: R.Live, h: V.Heard, dev: V.Callbacks)
    requires R.Fine(l, h)
    ensures forall k :: 0 <= k < |R.FirstActs(l, h, dev)| ==> !R.FirstActs(l, h, dev)[k].Scan?
  {
  }

  lemma RoundBufs(l: R.Live, h: V.Heard, dev: V.Callbacks)
    requires R.Fine(l, h)
    ensures R.Round(l, h, dev).bufs == G.PassWith(R.Start(l, h, dev), 0, h.later, h.feeds).bufs
  {
    V.RoundParts(l.s.queue, l.bufs, h, dev);
  }

  /** What an endpoint takes in any number of rounds. */
  ghost function SessionTaken(l: R.Live, hs: seq<V.Heard>, dev: V.Callbacks, e: nat): seq<byte>
    requires R.Ready(l) && R.AllFine(l, hs, dev) && 0 < e < 16
  {
    if hs == [] then []
    else
      var n := |hs| - 1;
      SessionTaken(l, hs[..n], dev, e) + RoundTaken(R.Later(l, hs[..n], dev), hs[n], dev, e)
  }

  lemma {:induction false} NothingTaken(l: R.Live, hs: seq<V.Heard>, dev: V.Callbacks, e: nat)
    requires R.Ready(l) && R.AllFine(l, hs, dev) && 0 < e < 16 && hs == []
    ensures R.Later(l, hs, dev) == l && SessionTaken(l, hs, dev, e) == []
  {
    hide R.Ready;
  }

  lemma {:induction false} LastTaken(l: R.Live, hs: seq<V.Heard>, dev: V.Callbacks, e: nat)
    requires R.Ready(l) && R.AllFine(l, hs, dev) && 0 < e < 16 && hs != []
    ensures R.AllFine(l, hs[..|hs| - 1], dev) && R.Fine(R.Later(l, hs[..|hs| - 1], dev), hs[|hs| - 1])
    ensures var n := |hs| - 1;
            SessionTaken(l, hs, dev, e)
            == SessionTaken(l, hs[..n], dev, e) + RoundTaken(R.Later(l, hs[..n], dev), hs[n], dev, e)
  {
    hide RoundTaken, R.Turned, R.Fine, R.Ready;
  }

  /** Over any number of rounds nothing is lost, doubled or reordered. */
  lemma {:induction false} SessionDelivers(l: R.Live, hs: seq<V.Heard>, dev: V.Callbacks, e: nat)
    requires R.Ready(l) && R.AllFine(l, hs, dev) && 0 < e < 16
    ensures Sum(R.Later(l, hs, dev), e) == Sum(l, e) + SessionTaken(l, hs, dev, e)
  {
    hide *;
    if hs == [] {
      NothingTaken(l, hs, dev, e);
      assert Sum(l, e) + [] == Sum(l, e);
    } else {
      var n := |hs| - 1;
      R.LastRound(l, hs, dev);
      LastTaken(l, hs, dev, e);
      SessionDelivers(l, hs[..n], dev, e);
      var mid := R.Later(l, hs[..n], dev);
      RoundDelivers(mid, hs[n], dev, e);
      var before, now := SessionTaken(l, hs[..n], dev, e), RoundTaken(mid, hs[n], dev, e);
      assert (Sum(l, e) + before) + now == Sum(l, e) + (before + now);
    }
  }

  // ----- Replies -----

  /** The payloads of the replies to transfers polled from an endpoint, in order. */
  ghost function Carried(log: seq<S.Event<byte>>, rs: seq<W.Reply>, slot: nat): seq<byte>
    requires R.Tells(log, rs)
  {
    if log == [] then []
    else
      var n, m := |log| - 1, |rs| - 1;
      if log[n].Stream? then Carried(log[..n], rs, slot)
      else Carried(log[..n], rs[..m], slot) + if S.PolledOn(log[n], slot) then rs[m].payload else []
  }

  lemma {:induction false} CarriedIsPolled(log: seq<S.Event<byte>>, rs: seq<W.Reply>, slot: nat)
    requires R.Tells(log, rs)
    ensures Carried(log, rs, slot) == Polled(log, slot)
  {
    if log != [] {
      var n := |log| - 1;
      if log[n].Stream? {
        CarriedIsPolled(log[..n], rs, slot);
        assert Polled(log[..n], slot) + [] == Polled(log[..n], slot);
      } else {
        CarriedIsPolled(log[..n], rs[..|rs| - 1], slot);
      }
    }
  }

  /** From an import on: the replies to polled transfers carry what the endpoint took, but for what is
      still buffered. */
  lemma ImportDelivers(table: seq<Endpoint>, hs: seq<V.Heard>, dev: V.Callbacks, e: nat)
    requires S.FreshTable(table) && R.AllFine(R.Imported(table), hs, dev) && 0 < e < 16
    ensures var l := R.Imported(table);
            var t, rs := R.Later(l, hs, dev), R.SessionReplies(l, hs, dev);
            && R.Tells(t.s.log, rs)
            && Carried(t.s.log, rs, 16 + e) + t.bufs[e] == SessionTaken(l, hs, dev, e)
  {
    hide R.AllFine, R.Later, SessionTaken, Carried, R.SessionReplies, R.SessionActs, R.CanAll, R.After;
    var l := R.Imported(table);
    var t, rs := R.Later(l, hs, dev), R.SessionReplies(l, hs, dev);
    SessionDelivers(l, hs, dev, e);
    assert Sum(l, e) == [];
    assert [] + SessionTaken(l, hs, dev, e) == SessionTaken(l, hs, dev, e);
    assert R.Tells(l.s.log, []);
    R.SessionDoes(l, hs, dev, []);
    assert [] + rs == rs;
    CarriedIsPolled(t.s.log, rs, 16 + e);
  }

  // ----- A bulk transfer -----

  /** What a device thread's data leaves of a pass over one waiting transfer. */
  lemma OnePolled(q: Queue, u: Urb, bufs: seq<seq<byte>>, now: nat, data: seq<byte>)
    requires Sized(q) && q.pending == [u] && |bufs| == 16
    requires !u.isochronous && 0 < u.ep < 16 && u.length > 0 && bufs[u.ep] == [] && data != []
    requires IsDue(q, u, now)
    ensures var n := Min(u.length, |Cut(data, ENDPOINT_MAX_DATA)|);
            G.PassWith(G.State(q, bufs, []), 0, now, [[G.Store(u.ep, data)]]).done == [G.Done(u, data[..n])]
  {
    var st, ss := G.State(q, bufs, []), [G.Store(u.ep, data)];
    assert ss[..0] == [] && G.Stored(bufs, []) == bufs;
    var fed := G.Fed(st, ss);
    assert fed.bufs[u.ep] == Cut(data, ENDPOINT_MAX_DATA);
    var n := Min(u.length, |Cut(data, ENDPOINT_MAX_DATA)|);
    assert G.Got(fed, 0, now) == n && Cut(data, ENDPOINT_MAX_DATA)[..n] == data[..n];
    var after := G.Step(fed, 0, now);
    assert after.done == [G.Done(u, data[..n])] && after.queue.pending == [];
    assert G.Rest([ss]) == [] && G.PassWith(after, 0, now, []) == after;
  }

  /** A host asks a bulk endpoint for data, a device thread hands some over while the server waits, and
      the host is answered with it: such a session is one the theorems speak of. */
  lemma BulkSession(table: seq<Endpoint>, c: W.Command, now: nat, later: nat, data: seq<byte>, dev: V.Callbacks)
    requires S.FreshTable(table) && W.WellFormed(c, table) && c.Submit?
    requires c.direction == 1 && 0 < c.ep < 16 && !W.IsIso(table, 1, c.ep) && c.length > 0 && data != []
    ensures var hs := [V.Heard(Some(c), now, later, [[G.Store(c.ep, data)]])];
            var n := Min(c.length, |Cut(data, ENDPOINT_MAX_DATA)|);
            && R.AllFine(R.Imported(table), hs, dev)
            && R.SessionReplies(R.Imported(table), hs, dev) == [V.Answer(c.seqnum, 0, n, data[..n])]
  {
    var l, h := R.Imported(table), V.Heard(Some(c), now, later, [[G.Store(c.ep, data)]]);
    BulkRound(l, h, c, data, dev);
    OneRound(l, h, dev);
  }

  lemma OneRound(l: R.Live, h: V.Heard, dev: V.Callbacks)
    requires R.Fine(l, h)
    ensures R.AllFine(l, [h], dev) && R.SessionReplies(l, [h], dev) == R.RoundReplies(l, h, dev)
  {
    hide R.RoundReplies, R.Turned;
    assert [h][..0] == [];
    assert R.AllFine(l, [], dev) && R.Later(l, [], dev) == l && R.SessionReplies(l, [], dev) == [];
    assert [] + R.RoundReplies(l, h, dev) == R.RoundReplies(l, h, dev);
  }

  lemma BulkRound(l: R.Live, h: V.Heard, c: W.Command, data: seq<byte>, dev: V.Callbacks)
    requires R.Ready(l) && l.s.queue.pending == [] && S.FreshTable(l.s.queue.table) && W.WellFormed(c, l.s.queue.table)
    requires c.Submit? && c.seqnum !in l.s.order && h.command == Some(c) && h.feeds == [[G.Store(c.ep, data)]]
    requires c.direction == 1 && 0 < c.ep < 16 && !W.IsIso(l.s.queue.table, 1, c.ep) && c.length > 0
    requires l.bufs[c.ep] == [] && data != []
    ensures R.Fine(l, h)
    ensures var n := Min(c.length, |Cut(data, ENDPOINT_MAX_DATA)|);
            R.RoundReplies(l, h, dev) == [V.Answer(c.seqnum, 0, n, data[..n])]
  {
    hide G.PassWith;
    var u, st := V.UrbOf(c, false), R.Start(l, h, dev);
    assert st.queue.pending == [u];
    OnePolled(st.queue, u, l.bufs, h.later, data);
    var n := Min(c.length, |Cut(data, ENDPOINT_MAX_DATA)|);
    var d := G.Done(u, data[..n]);
    assert [d][..0] == [] && V.AllReplied([d]) && R.DoneReplies([], dev) == [];
    assert R.DoneReplies([d], dev) == [] + [V.DoneReply(d, dev)];
    assert V.DoneReply(d, dev) == V.Answer(c.seqnum, 0, n, data[..n]);
    assert R.Response(l, h, dev).replies == [];
  }
}
