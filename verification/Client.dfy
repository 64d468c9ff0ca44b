/** What the client makes of the bytes it gets: it remembers the direction and the type of the transfers
    it submitted, and with that reads back exactly the replies of the session. */
module Client {
  import opened Urbs
  import S = Schedule
  import W = Wire
  import V = Service
  import G = Greedy
  import R = Rounds

  // ----- Every transfer keeps the kind its command announced -----

  predicate OfKind(u: Urb, kinds: u32 -> W.Kind) {
    kinds(u.seqnum) == V.KindOfUrb(u) && (!u.isochronous ==> u.direction != 0)
  }

  predicate Known(us: seq<Urb>, kinds: u32 -> W.Kind) {
    forall i :: 0 <= i < |us| ==> OfKind(us[i], kinds)
  }

  predicate KnownDone(ds: seq<G.Done<byte>>, kinds: u32 -> W.Kind) {
    forall i :: 0 <= i < |ds| ==> OfKind(ds[i].urb, kinds)
  }

  /** Each reply has the shape the client expects of its transfer. */
  predicate Fitting(rs: seq<W.Reply>, kinds: u32 -> W.Kind) {
    forall i :: 0 <= i < |rs| ==> W.Fits(rs[i], kinds(rs[i].seqnum))
  }

  /** The client remembers this command as what it was. */
  predicate Remembers(kinds: u32 -> W.Kind, c: Option<W.Command>, table: seq<Endpoint>)
    requires |table| == 32
  {
    c.Some? && c.value.Submit? ==> kinds(c.value.seqnum) == V.KindOf(c.value, table)
  }

  lemma RemembersSame(kinds: u32 -> W.Kind, c: Option<W.Command>, a: seq<Endpoint>, b: seq<Endpoint>)
    requires V.SameKinds(a, b) && Remembers(kinds, c, a)
    ensures Remembers(kinds, c, b)
  {
  }

  lemma ServeKnown(q: Queue, c: W.Command, now: nat, dev: V.Callbacks, kinds: u32 -> W.Kind)
    requires Sized(q) && W.WellFormed(c, q.table) && Known(q.pending, kinds) && Remembers(kinds, Some(c), q.table)
    ensures var r := V.Serve(q, c, now, dev); Known(r.queue.pending, kinds) && Fitting(r.replies, kinds)
  {
    var r := V.Serve(q, c, now, dev);
    forall k | 0 <= k < |r.replies| ensures W.Fits(r.replies[k], kinds(r.replies[k].seqnum)) {
      V.ServeFits(q, c, now, dev, k);
    }
  }

  lemma StepKnown(st: G.State<byte>, i: nat, now: nat, kinds: u32 -> W.Kind)
    requires G.Ready(st) && i < |st.queue.pending| && Known(st.queue.pending, kinds) && KnownDone(st.done, kinds)
    ensures Known(G.Step(st, i, now).queue.pending, kinds) && KnownDone(G.Step(st, i, now).done, kinds)
  {
  }

  lemma {:induction false} PassKnown(st: G.State<byte>, i: nat, now: nat, feeds: V.Feeds, kinds: u32 -> W.Kind)
    requires G.Ready(st) && i <= |st.queue.pending| && Known(st.queue.pending, kinds) && KnownDone(st.done, kinds)
    ensures Known(G.PassWith(st, i, now, feeds).queue.pending, kinds) && KnownDone(G.PassWith(st, i, now, feeds).done, kinds)
    decreases |st.queue.pending| - i
  {
    if i < |st.queue.pending| {
      hide Known, KnownDone, G.Stored;
      var fed := G.Fed(st, G.First(feeds));
      StepKnown(fed, i, now, kinds);
      PassKnown(G.Step(fed, i, now), G.After(fed, i, now), now, G.Rest(feeds), kinds);
    }
  }

  lemma FittingMore(rs: seq<W.Reply>, more: seq<W.Reply>, kinds: u32 -> W.Kind)
    requires Fitting(rs, kinds) && Fitting(more, kinds)
    ensures Fitting(rs + more, kinds)
  {
  }

  lemma {:induction false} DoneFitting(ds: seq<G.Done<byte>>, dev: V.Callbacks, kinds: u32 -> W.Kind)
    requires V.AllReplied(ds) && KnownDone(ds, kinds)
    ensures Fitting(R.DoneReplies(ds, dev), kinds)
  {
    if ds != [] {
      var n := |ds| - 1;
      DoneFitting(ds[..n], dev, kinds);
      assert OfKind(ds[n].urb, kinds);
      V.DoneFits(ds[n], dev);
      FittingMore(R.DoneReplies(ds[..n], dev), [V.DoneReply(ds[n], dev)], kinds);
    }
  }

  /** A session the client knows the transfers of. */
  ghost predicate Follows(l: R.Live, kinds: u32 -> W.Kind, table: seq<Endpoint>) {
    Known(l.s.queue.pending, kinds) && V.SameKinds(table, l.s.queue.table)
  }

  lemma ResponseFits(l: R.Live, h: V.Heard, dev: V.Callbacks, kinds: u32 -> W.Kind)
    requires R.Fine(l, h) && Known(l.s.queue.pending, kinds) && Remembers(kinds, h.command, l.s.queue.table)
    ensures var r := R.Response(l, h, dev); Known(r.queue.pending, kinds) && Fitting(r.replies, kinds)
  {
    if h.command.Some? { ServeKnown(l.s.queue, h.command.value, h.now, dev, kinds); }
  }

  lemma RoundFits(l: R.Live, h: V.Heard, dev: V.Callbacks, kinds: u32 -> W.Kind, table: seq<Endpoint>)
    requires R.Fine(l, h) && Follows(l, kinds, table) && Remembers(kinds, h.command, table)
    ensures Fitting(R.RoundReplies(l, h, dev), kinds) && Follows(R.Turned(l, h, dev), kinds, table)
  {
    hide Known, KnownDone, Fitting, Remembers, G.PassWith, R.Response;
    var st := R.Start(l, h, dev);
    RemembersSame(kinds, h.command, table, l.s.queue.table);
    ResponseFits(l, h, dev, kinds);
    NoneDone(kinds);
    PassKnown(st, 0, h.later, h.feeds, kinds);
    V.PassReplied(st, 0, h.later, h.feeds);
    DoneFitting(G.PassWith(st, 0, h.later, h.feeds).done, dev, kinds);
    FittingMore(R.Response(l, h, dev).replies, R.PassReplies(l, h, dev), kinds);
    R.RoundBytes(l, h, dev);
    V.RoundKeepsKinds(l.s.queue, l.bufs, h, dev);
  }

  lemma NoneDone(kinds: u32 -> W.Kind)
    ensures KnownDone([], kinds)
  {
  }

  /** Every reply of a session has the shape its own command announced. */
  lemma {:induction false} SessionFits(l: R.Live, hs: seq<V.Heard>, dev: V.Callbacks, kinds: u32 -> W.Kind, table: seq<Endpoint>)
    requires R.Ready(l) && R.AllFine(l, hs, dev) && Follows(l, kinds, table)
    requires forall k :: 0 <= k < |hs| ==> Remembers(kinds, hs[k].command, table)
    ensures Fitting(R.SessionReplies(l, hs, dev), kinds) && Follows(R.Later(l, hs, dev), kinds, table)
  {
    if hs != [] {
      hide Follows, Remembers, R.RoundReplies, R.Turned;
      var n := |hs| - 1;
      SessionFits(l, hs[..n], dev, kinds, table);
      var mid := R.Later(l, hs[..n], dev);
      RoundFits(mid, hs[n], dev, kinds, table);
      FittingMore(R.SessionReplies(l, hs[..n], dev), R.RoundReplies(mid, hs[n], dev), kinds);
    }
  }

  // ----- What the client remembers -----

  predicate Submits(h: V.Heard, q: u32) {
    h.command.Some? && h.command.value.Submit? && h.command.value.seqnum == q
  }

  /** The kind of the last transfer submitted with this sequence number. */
  function KindHeard(hs: seq<V.Heard>, table: seq<Endpoint>, q: u32): W.Kind
    requires |table| == 32
  {
    if hs == [] then W.Kind(false, false)
    else
      var n := |hs| - 1;
      if Submits(hs[n], q) then V.KindOf(hs[n].command.value, table) else KindHeard(hs[..n], table, q)
  }

  function KindsHeard(hs: seq<V.Heard>, table: seq<Endpoint>): u32 -> W.Kind
    requires |table| == 32
  {
    (q: u32) => KindHeard(hs, table, q)
  }

  lemma {:induction false} OrderGrows(s: S.Sched<byte>, acts: seq<S.Act<byte>>)
    requires R.CanAll(s, acts)
    ensures s.order.Keys <= R.After(s, acts).order.Keys
    decreases |acts|
  {
    if acts != [] { OrderGrows(S.Next(s, acts[0]), acts[1..]); }
  }

  lemma FirstAct(l: R.Live, h: V.Heard, dev: V.Callbacks)
    requires R.Fine(l, h) && h.command.Some? && h.command.value.Submit?
    ensures var acts := R.RoundActs(l, h, dev);
            acts != [] && (S.Can(l.s, acts[0]) ==> h.command.value.seqnum in S.Next(l.s, acts[0]).order)
  {
    var c := h.command.value;
    var first := R.CommandActs(l.s.queue, c, h.now, dev);
    assert R.RoundActs(l, h, dev)[0] == first[0];
    assert first[0] == S.Open(c.seqnum) || first[0] == S.QueueIn(V.UrbOf(c, false));
  }

  /** What this command submitted, if anything, is part of the session. */
  ghost predicate Counts(l: R.Live, h: V.Heard) {
    h.command.Some? && h.command.value.Submit? ==> h.command.value.seqnum in l.s.order
  }

  lemma RoundCounts(l: R.Live, h: V.Heard, dev: V.Callbacks, earlier: V.Heard)
    requires R.Fine(l, h)
    ensures Counts(R.Turned(l, h, dev), h)
    ensures Counts(l, earlier) ==> Counts(R.Turned(l, h, dev), earlier)
  {
    var acts := R.RoundActs(l, h, dev);
    R.RoundDoes(l, h, dev, []);
    OrderGrows(l.s, acts);
    if h.command.Some? && h.command.value.Submit? {
      FirstAct(l, h, dev);
      OrderGrows(S.Next(l.s, acts[0]), acts[1..]);
    }
  }

  lemma {:induction false} SubmitsCount(l: R.Live, hs: seq<V.Heard>, dev: V.Callbacks, k: nat)
    requires R.Ready(l) && R.AllFine(l, hs, dev) && k < |hs|
    ensures Counts(R.Later(l, hs, dev), hs[k])
  {
    hide *;
    var n := |hs| - 1;
    R.LastRound(l, hs, dev);
    var before := R.Later(l, hs[..n], dev);
    RoundCounts(before, hs[n], dev, hs[k]);
    if k < n {
      assert hs[..n][k] == hs[k];
      SubmitsCount(l, hs[..n], dev, k);
    }
  }

  /** A transfer stays remembered while its number is not used again. */
  lemma {:induction false} RememberedStill(hs: seq<V.Heard>, table: seq<Endpoint>, c: Option<W.Command>)
    requires |table| == 32 && hs != [] && Remembers(KindsHeard(hs[..|hs| - 1], table), c, table)
    requires c.Some? && c.value.Submit? ==> !Submits(hs[|hs| - 1], c.value.seqnum)
    ensures Remembers(KindsHeard(hs, table), c, table)
  {
  }

  lemma {:induction false} LastIsRemembered(hs: seq<V.Heard>, table: seq<Endpoint>)
    requires |table| == 32 && hs != []
    ensures Remembers(KindsHeard(hs, table), hs[|hs| - 1].command, table)
  {
  }

  /** Sequence numbers are never used twice, so the last transfer with one is the only one. */
  lemma {:induction false} HeardIsRemembered(l: R.Live, hs: seq<V.Heard>, dev: V.Callbacks, table: seq<Endpoint>, k: nat)
    requires R.Ready(l) && R.AllFine(l, hs, dev) && |table| == 32 && k < |hs|
    ensures Remembers(KindsHeard(hs, table), hs[k].command, table)
  {
    hide Remembers, KindsHeard, Counts, R.Turned, R.Fine, R.Ready, R.Later, R.AllFine;
    var n := |hs| - 1;
    if k < n {
      R.LastRound(l, hs, dev);
      assert hs[..n][k] == hs[k];
      HeardIsRemembered(l, hs[..n], dev, table, k);
      SubmitsCount(l, hs[..n], dev, k);
      NewNumber(R.Later(l, hs[..n], dev), hs[n], hs[k]);
      RememberedStill(hs, table, hs[k].command);
    } else {
      LastIsRemembered(hs, table);
    }
  }

  lemma NewNumber(l: R.Live, h: V.Heard, earlier: V.Heard)
    requires R.Fine(l, h) && Counts(l, earlier)
    ensures earlier.command.Some? && earlier.command.value.Submit? ==> !Submits(h, earlier.command.value.seqnum)
  {
  }

  // ----- The theorem -----

  /** Whatever a client sends from an import on: reading the bytes of the session with what it remembers
      of its own submits, it gets exactly the session's replies, and no transfer is answered twice. */
  lemma ClientReadsSession(table: seq<Endpoint>, hs: seq<V.Heard>, dev: V.Callbacks)
    requires S.FreshTable(table) && R.AllFine(R.Imported(table), hs, dev)
    ensures var l := R.Imported(table);
            && V.Hears(l.s.queue, l.bufs, hs, dev)
            && var rs := R.SessionReplies(l, hs, dev);
               && W.ParseReplies(V.Rounds(l.s.queue, l.bufs, hs, dev).bytes, KindsHeard(hs, table)) == Some(rs)
               && R.Distinct(rs)
  {
    hide R.AllFine, R.SessionReplies, R.Distinct, V.Hears, V.Rounds, KindsHeard, Remembers, W.ParseReplies;
    var l, kinds := R.Imported(table), KindsHeard(hs, table);
    R.SessionBytes(l, hs, dev);
    R.NoAnswerTwice(table, hs, dev);
    forall k | 0 <= k < |hs| ensures Remembers(kinds, hs[k].command, table) {
      HeardIsRemembered(l, hs, dev, table, k);
    }
    SessionFits(l, hs, dev, kinds, table);
    W.RepliesParseBack(R.SessionReplies(l, hs, dev), kinds);
  }
}
