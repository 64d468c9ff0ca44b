/** The server never sleeps through data it could deliver. */
module HandoffWakeups {
  import opened Urbs
  import opened Schedule
  import opened Handoff
  import opened HandoffSession

  /** The event is set, or a thread between its store and its event write will set it. */
  ghost predicate Waker(c: Core) {
    || c.event
    || c.server.Notifying?
    || exists t :: t in c.threads && c.threads[t].pc.Signalling?
  }

  /** How many transfers, from the front of the queue, the last or the running pass answers for. */
  function Covered(c: Spc, s: Sched<Tagged>): nat {
    if s.scanning then s.idx else if c.Wait? then |s.queue.pending| else 0
  }

  /** A transfer that could be delivered is waiting for its endpoint's next poll, and the server
      sleeps no longer than until then. */
  ghost predicate WaitsForPoll(s: Sched<Tagged>, u: Urb)
    requires Sized(s.queue)
  {
    s.now + s.queue.timeoutUs <= s.queue.table[Slot(1, u.ep)].nextPollUs
  }

  predicate Deliverable(u: Urb, bufs: seq<seq<Tagged>>)
    requires |bufs| == 16
  {
    !u.isochronous && u.length > 0 && bufs[u.ep % 16] != []
  }

  /** Of the first `n` transfers, the deliverable ones have a waker or wait for their poll. */
  ghost predicate Heard(waker: bool, bufs: seq<seq<Tagged>>, s: Sched<Tagged>, n: nat)
    requires Sized(s.queue) && |bufs| == 16
  {
    forall i :: 0 <= i < n && i < |s.queue.pending| && Deliverable(s.queue.pending[i], bufs) ==>
      waker || WaitsForPoll(s, s.queue.pending[i])
  }

  /** Only data endpoints have waiting transfers, and a pass never computes a timeout of zero. */
  ghost predicate Sane(s: Sched<Tagged>) {
    && (forall i :: 0 <= i < |s.queue.pending| && !s.queue.pending[i].isochronous ==> s.queue.pending[i].ep % 16 != 0)
    && (s.scanning ==> s.queue.timeoutUs > 0)
  }

  ghost predicate Wakeups(c: Core, s: Sched<Tagged>) {
    && Sized(s.queue) && |c.dev.bufs| == 16
    && Sane(s)
    && Heard(Waker(c), c.dev.bufs, s, Covered(c.server, s))
  }

  lemma WakerByThread(c: Core, t: nat, m: Move)
    requires CanMove(c, t, m)
    ensures Waker(c) ==> Waker(DoMove(c, t, m))
    ensures m.Store? && Puts(c.dev, c.threads[t]).Some? && c.threads[t].pc.ep != 0 ==> Waker(DoMove(c, t, m))
  {
    var c' := DoMove(c, t, m);
    if m.Store? && Puts(c.dev, c.threads[t]).Some? && c.threads[t].pc.ep != 0 {
      assert c'.threads[t].pc.Signalling?;
    } else if !c'.event && !c'.server.Notifying? && Waker(c) {
      var u :| u in c.threads && c.threads[u].pc.Signalling?;
      assert c'.threads[u].pc.Signalling?;
    }
  }

  lemma WakeupsByThread(c: Core, s: Sched<Tagged>, t: nat, m: Move)
    requires Wakeups(c, s) && CanMove(c, t, m)
    ensures Wakeups(DoMove(c, t, m), s)
  {
    WakerByThread(c, t, m);
    assert forall e :: 0 < e < 16 && !(m.Store? && Puts(c.dev, c.threads[t]).Some?) ==> DoMove(c, t, m).dev.bufs[e] == c.dev.bufs[e];
  }

  lemma SaneByAct(s: Sched<Tagged>, a: Act<Tagged>)
    requires Sane(s) && Can(s, a) && (a.QueueIn? ==> a.urb.ep % 16 != 0)
    ensures Sane(Next(s, a))
  {
  }

  /** One iteration of the pass, with the buffers as they are when it fetches. */
  lemma HeardByScan(waker: bool, bufs: seq<seq<Tagged>>, s: Sched<Tagged>, d: seq<Tagged>)
    requires At(s) && Can(s, Scan(d)) && |bufs| == 16 && Sane(s) && Heard(waker, bufs, s, s.idx)
    requires !Current(s).isochronous && IsDue(s.queue, Current(s), s.now) ==> d == Cut(bufs[Current(s).ep % 16], Current(s).length)
    ensures var e := Current(s).ep % 16;
            var bufs' := if d == [] || Current(s).isochronous then bufs else bufs[e := bufs[e][|d|..]];
            Heard(waker, bufs', Next(s, Scan(d)), Next(s, Scan(d)).idx)
  {
  }

  /** The step changes nothing the pass answers for, or starts over. */
  ghost predicate Settles(c: Spc, s: Sched<Tagged>, s': Sched<Tagged>, g: Go)
    requires CanGo(c, g)
  {
    || Covered(Goto(c, g), s') == 0 || |s'.queue.pending| == 0
    || (s' == s && Covered(Goto(c, g), s') == Covered(c, s) && !g.Clean? && !g.ClearEvent?)
  }

  lemma CoveredByGoAtEnd(c: Spc, s: Sched<Tagged>, s': Sched<Tagged>, r: Record, g: Go)
    requires PhaseOk(PhaseOf(c), s, r) && CanGo(c, g) && Shape(s, s', GoEffect(c, g)) && Orderly(s, r)
    requires EndsTask(g) && (g.Streamed? ==> !g.ok)
    ensures Settles(c, s, s', g)
  {
  }

  lemma CoveredByGoAtCommand(c: Spc, s: Sched<Tagged>, s': Sched<Tagged>, r: Record, g: Go)
    requires PhaseOk(PhaseOf(c), s, r) && CanGo(c, g) && Shape(s, s', GoEffect(c, g)) && Orderly(s, r)
    requires HearsClient(g)
    ensures Settles(c, s, s', g)
  {
  }

  lemma CoveredByGoElse(c: Spc, s: Sched<Tagged>, s': Sched<Tagged>, r: Record, g: Go)
    requires PhaseOk(PhaseOf(c), s, r) && CanGo(c, g) && Shape(s, s', GoEffect(c, g)) && Orderly(s, r)
    requires !EndsTask(g) && !HearsClient(g) && !g.NotDue? && !g.EndPass? && (g.BeginPass? ==> s'.idx == 0)
    ensures Settles(c, s, s', g)
  {
  }

  lemma CoveredByGo(c: Spc, s: Sched<Tagged>, s': Sched<Tagged>, r: Record, g: Go)
    requires PhaseOk(PhaseOf(c), s, r) && CanGo(c, g) && Shape(s, s', GoEffect(c, g)) && Orderly(s, r)
    requires g.BeginPass? ==> s'.idx == 0
    requires !g.NotDue? && !g.EndPass? && (g.Streamed? ==> !g.ok)
    ensures Settles(c, s, s', g)
  {
    hide *;
    if EndsTask(g) {
      CoveredByGoAtEnd(c, s, s', r, g);
    } else if HearsClient(g) {
      CoveredByGoAtCommand(c, s, s', r, g);
    } else {
      CoveredByGoElse(c, s, s', r, g);
    }
  }

  lemma SaneByGo(c: Spc, s: Sched<Tagged>, g: Go)
    requires Sane(s) && CanGo(c, g) && CanApply(s, GoEffect(c, g)) && Matches(s, g)
    ensures Sane(Apply(s, GoEffect(c, g)))
  {
    var e := GoEffect(c, g);
    if e.Act? { SaneByAct(s, e.act); }
  }

  lemma WakerByGo(c: Core, g: Go)
    requires CanGo(c.server, g)
    ensures Waker(c) && !g.Clean? && !g.ClearEvent? ==> Waker(DoGo(c, g))
  {
  }

  lemma HeardByPass(waker: bool, c: Spc, bufs: seq<seq<Tagged>>, s: Sched<Tagged>, g: Go)
    requires Sized(s.queue) && |bufs| == 16 && Sane(s) && Heard(waker, bufs, s, Covered(c, s)) && WorkOk(c, s)
    requires CanGo(c, g) && Matches(s, g) && (g.NotDue? || (g.Streamed? && g.ok)) && Can(s, Scan([]))
    ensures Heard(waker, bufs, Next(s, Scan([])), Covered(Goto(c, g), Next(s, Scan([]))))
  {
    HeardByScan(waker, bufs, s, []);
  }

  lemma HeardByGo(waker: bool, c: Spc, bufs: seq<seq<Tagged>>, s: Sched<Tagged>, r: Record, g: Go)
    requires |bufs| == 16 && Orderly(s, r) && Sane(s) && Heard(waker, bufs, s, Covered(c, s))
    requires PhaseOk(PhaseOf(c), s, r) && WorkOk(c, s)
    requires CanGo(c, g) && CanApply(s, GoEffect(c, g)) && Matches(s, g) && !g.Clean? && !g.ClearEvent?
    ensures var s' := Apply(s, GoEffect(c, g)); Sized(s'.queue) && Heard(waker, bufs, s', Covered(Goto(c, g), s'))
  {
    hide Heard, Next, Covered, PhaseOk, PhaseOf, WorkOk, Sane, Goto, Shape, Can;
    ServerActs(c, s, r, g);
    ShapeOf(s, GoEffect(c, g));
    SizedByShape(s, Apply(s, GoEffect(c, g)), GoEffect(c, g));
    if g.NotDue? || (g.Streamed? && g.ok) {
      HeardByPass(waker, c, bufs, s, g);
    } else if g.EndPass? {
      HeardByEnd(waker, c, bufs, s, g);
    } else {
      if g.BeginPass? { PassStarts(s, g.now); }
      CoveredByGo(c, s, Apply(s, GoEffect(c, g)), r, g);
      HeardAsBefore(waker, bufs, s, Apply(s, GoEffect(c, g)), Covered(c, s), Covered(Goto(c, g), Apply(s, GoEffect(c, g))));
    }
  }

  lemma PassStarts(s: Sched<Tagged>, now: nat)
    requires Can(s, Begin(now))
    ensures Next(s, Begin(now)).idx == 0
  {
  }

  lemma SizedByShape(s: Sched<Tagged>, s': Sched<Tagged>, e: Effect)
    requires Shape(s, s', e)
    ensures Sized(s'.queue)
  {
  }

  lemma HeardByEnd(waker: bool, c: Spc, bufs: seq<seq<Tagged>>, s: Sched<Tagged>, g: Go)
    requires Sized(s.queue) && |bufs| == 16 && Heard(waker, bufs, s, Covered(c, s))
    requires CanGo(c, g) && g.EndPass? && Can(s, End)
    ensures Heard(waker, bufs, Next(s, End), Covered(Goto(c, g), Next(s, End)))
  {
  }

  lemma HeardAsBefore(waker: bool, bufs: seq<seq<Tagged>>, s: Sched<Tagged>, s': Sched<Tagged>, n: nat, n': nat)
    requires |bufs| == 16 && Sized(s.queue) && Sized(s'.queue) && Heard(waker, bufs, s, n)
    requires n' == 0 || |s'.queue.pending| == 0 || (s' == s && n' == n)
    ensures Heard(waker, bufs, s', n')
  {
  }

  lemma WakeupsByServer(c: Core, s: Sched<Tagged>, r: Record, g: Go)
    requires Wakeups(c, s) && Orderly(s, r) && PhaseOk(PhaseOf(c.server), s, r) && WorkOk(c.server, s)
    requires CanGo(c.server, g) && CanApply(s, GoEffect(c.server, g)) && Matches(s, g)
    ensures Wakeups(DoGo(c, g), Apply(s, GoEffect(c.server, g)))
  {
    var e := GoEffect(c.server, g);
    WakerByGo(c, g);
    SaneByGo(c.server, s, g);
    if g.Clean? || g.ClearEvent? {
      CoveredByGo(c.server, s, s, r, g);
    } else {
      HeardByGo(Waker(c), c.server, c.dev.bufs, s, r, g);
    }
  }

  lemma WakerByBody(c: Core, ok: bool, answers: nat)
    requires CanBody(c)
    ensures Waker(c) ==> Waker(DoBody(c, ok, answers))
  {
    var c' := DoBody(c, ok, answers);
    if Waker(c) && !c.event {
      var t :| t in c.threads && c.threads[t].pc.Signalling?;
      assert c'.threads[t].pc.Signalling?;
    }
  }

  /** Outside a pass, a section leaves nothing the last pass answers for. */
  lemma CoveredByBody(dev: Device, op: Op, s: Sched<Tagged>, s': Sched<Tagged>, r: Record, ok: bool, answers: nat)
    requires |dev.bufs| == 16 && !op.Fetch? && !op.Say?
    requires PhaseOk(OpPhase(op), s, r) && Shape(s, s', BodyEffect(dev, op, ok)) && Orderly(s, r)
    ensures Covered(BodyNext(dev, op, ok, answers), s') == 0 || op.Halt?
  {
  }

  /** Storing data in a callback during a pass makes the server itself the waker. */
  lemma HeardBySay(c: Core, s: Sched<Tagged>, ok: bool, answers: nat)
    requires Wakeups(c, s) && CanBody(c) && c.server.op.Say?
    ensures Wakeups(DoBody(c, ok, answers), s)
  {
    WakerByBody(c, ok, answers);
  }

  lemma HeardByFetch(c: Core, s: Sched<Tagged>, ok: bool, answers: nat)
    requires Wakeups(c, s) && CanBody(c) && c.server.op.Fetch? && WorkOk(c.server, s)
    requires CanApply(s, BodyEffect(c.dev, c.server.op, ok))
    ensures Wakeups(DoBody(c, ok, answers), Apply(s, BodyEffect(c.dev, c.server.op, ok)))
  {
    WakerByBody(c, ok, answers);
    if BodyEffect(c.dev, c.server.op, ok).Act? {
      SaneByAct(s, Scan(Chunk(c.dev, c.server.op)));
      HeardByScan(Waker(c), c.dev.bufs, s, Chunk(c.dev, c.server.op));
    }
  }

  lemma WakeupsByBody(c: Core, s: Sched<Tagged>, r: Record, ok: bool, answers: nat)
    requires Wakeups(c, s) && CanBody(c) && Orderly(s, r) && PhaseOk(PhaseOf(c.server), s, r) && WorkOk(c.server, s)
    requires CanApply(s, BodyEffect(c.dev, c.server.op, ok))
    ensures Wakeups(DoBody(c, ok, answers), Apply(s, BodyEffect(c.dev, c.server.op, ok)))
  {
    var op := c.server.op;
    var e := BodyEffect(c.dev, op, ok);
    if op.Fetch? {
      HeardByFetch(c, s, ok, answers);
    } else if op.Say? {
      HeardBySay(c, s, ok, answers);
    } else {
      ShapeOf(s, e);
      if e.Act? { SaneByAct(s, e.act); }
      CoveredByBody(c.dev, op, s, Apply(s, e), r, ok, answers);
    }
  }

  /** When the server waits, the invariant speaks about the whole queue. */
  lemma HeardAtWait(c: Core, s: Sched<Tagged>, j: nat)
    requires Wakeups(c, s) && c.server.Wait? && !s.scanning && j < |s.queue.pending|
    requires Deliverable(s.queue.pending[j], c.dev.bufs)
    ensures Waker(c) || WaitsForPoll(s, s.queue.pending[j])
  {
  }
}
