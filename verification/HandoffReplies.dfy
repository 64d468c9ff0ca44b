/** Each control request of a session is replied to once, and the recorded replies are those the host
    got. */
module HandoffReplies {
  import opened Urbs
  import opened Schedule
  import opened Handoff
  import opened HandoffSession

  /** The RET_SUBMIT of this request with this data. */
  ghost predicate Logged(log: seq<Event<Tagged>>, q: u32, data: seq<Tagged>) {
    exists n :: 0 <= n < |log| && log[n] == Ret(q, Direct, data)
  }

  /** The requests heard are the ones replied to and the one being served, each with its own sequence
      number. */
  predicate Counted(now: Option<Request>, asked: seq<Request>, replies: seq<ControlReply>) {
    && |asked| == |replies| + (if now.Some? then 1 else 0)
    && (forall k :: 0 <= k < |replies| ==> asked[k] == replies[k].req)
    && (now.Some? ==> asked[|replies|] == now.value)
    && (forall k, l :: 0 <= k < l < |asked| ==> asked[k].seqnum != asked[l].seqnum)
  }

  ghost predicate Tied(c: Spc, s: Sched<Tagged>, r: Record) {
    && Counted(RequestOf(c), r.asked, r.replies)
    && (forall k :: 0 <= k < |r.asked| ==> r.asked[k].seqnum in s.order)
    && (forall k :: 0 <= k < |r.replies| ==> Logged(s.log, r.replies[k].req.seqnum, r.replies[k].data))
  }

  lemma LoggedStays(log: seq<Event<Tagged>>, log': seq<Event<Tagged>>, q: u32, data: seq<Tagged>)
    requires Logged(log, q, data) && log <= log'
    ensures Logged(log', q, data)
  {
    var n :| 0 <= n < |log| && log[n] == Ret(q, Direct, data);
    assert log'[n] == log[n];
  }

  lemma LoggedNow(log: seq<Event<Tagged>>, q: u32, data: seq<Tagged>)
    ensures Logged(log + [Ret(q, Direct, data)], q, data)
  {
    assert (log + [Ret(q, Direct, data)])[|log|] == Ret(q, Direct, data);
  }

  // ----- What steps do to the session -----

  /** Within a session nothing is forgotten. */
  ghost predicate Grows(s: Sched<Tagged>, s': Sched<Tagged>) {
    s.order.Keys <= s'.order.Keys && s.log <= s'.log
  }

  lemma GrowsByAct(s: Sched<Tagged>, a: Act<Tagged>)
    requires Can(s, a)
    ensures Grows(s, Next(s, a))
    ensures a.Open? ==> a.seqnum !in s.order && a.seqnum in Next(s, a).order
    ensures a.Close? ==> s.open.Some? && Next(s, a).log == s.log + [Ret(s.open.value, Direct, a.data)]
  {
  }

  /** Nothing is asked or replied. */
  lemma TiedStays(c: Spc, c': Spc, s: Sched<Tagged>, s': Sched<Tagged>, r: Record, r': Record)
    requires Tied(c, s, r) && Grows(s, s') && RequestOf(c') == RequestOf(c)
    requires r'.asked == r.asked && r'.replies == r.replies
    ensures Tied(c', s', r')
  {
    forall k | 0 <= k < |r.replies| ensures Logged(s'.log, r.replies[k].req.seqnum, r.replies[k].data) {
      LoggedStays(s.log, s'.log, r.replies[k].req.seqnum, r.replies[k].data);
    }
  }

  /** A request is heard. */
  lemma TiedAsks(c: Spc, c': Spc, s: Sched<Tagged>, r: Record, r': Record, req: Request)
    requires Tied(c, s, r) && RequestOf(c).None? && RequestOf(c') == Some(req) && Can(s, Open(req.seqnum))
    requires r'.asked == r.asked + [req] && r'.replies == r.replies
    ensures Tied(c', Next(s, Open(req.seqnum)), r')
  {
  }

  /** The request being served is replied to. */
  lemma TiedReplies(c: Spc, c': Spc, s: Sched<Tagged>, r: Record, r': Record, p: ControlReply)
    requires Tied(c, s, r) && RequestOf(c) == Some(p.req) && RequestOf(c').None? && Can(s, Close(p.data))
    requires s.open == Some(p.req.seqnum) && r'.asked == r.asked && r'.replies == r.replies + [p]
    ensures Tied(c', Next(s, Close(p.data)), r')
  {
    var log' := Next(s, Close(p.data)).log;
    LoggedNow(s.log, p.req.seqnum, p.data);
    forall k | 0 <= k < |r.replies| ensures Logged(log', r.replies[k].req.seqnum, r.replies[k].data) {
      LoggedStays(s.log, log', r.replies[k].req.seqnum, r.replies[k].data);
    }
  }

  // ----- The server's steps -----

  /** Neither hears a control request nor replies to one. */
  predicate Aside(c: Spc, g: Go) {
    !g.ReadControl? && !(g.Controlled? && c.Working? && c.task.Control? && !c.task.req.toHost)
  }

  lemma AsideAtEnd(c: Spc, g: Go)
    requires CanGo(c, g) && Aside(c, g) && EndsTask(g) && !GoEffect(c, g).Forget?
    ensures RequestOf(Goto(c, g)) == RequestOf(c)
  {
  }

  lemma AsideAtCommand(c: Spc, g: Go)
    requires CanGo(c, g) && Aside(c, g) && HearsClient(g) && !GoEffect(c, g).Forget?
    ensures RequestOf(Goto(c, g)) == RequestOf(c)
  {
  }

  lemma AsideElse(c: Spc, g: Go)
    requires CanGo(c, g) && !EndsTask(g) && !HearsClient(g) && !g.Import?
    ensures RequestOf(Goto(c, g)) == RequestOf(c)
  {
  }

  lemma AsideKeepsRequest(c: Spc, g: Go)
    requires CanGo(c, g) && Aside(c, g) && !GoEffect(c, g).Forget? && !GoEffect(c, g).Begins?
    ensures RequestOf(Goto(c, g)) == RequestOf(c)
  {
    hide CanGo, Goto, RequestOf, Aside;
    if EndsTask(g) {
      AsideAtEnd(c, g);
    } else if HearsClient(g) {
      AsideAtCommand(c, g);
    } else {
      AsideElse(c, g);
    }
  }

  lemma AsideKeepsRecord(c: Spc, r: Record, g: Go)
    requires CanGo(c, g) && Aside(c, g) && !GoEffect(c, g).Forget? && !GoEffect(c, g).Begins?
    ensures GoRecord(r, c, g).asked == r.asked && GoRecord(r, c, g).replies == r.replies
  {
  }

  /** With the session its requests are forgotten. */
  lemma ForgottenByGo(c: Spc, r: Record, g: Go)
    requires CanGo(c, g) && (GoEffect(c, g).Forget? || GoEffect(c, g).Begins?)
    ensures RequestOf(Goto(c, g)).None? && GoRecord(r, c, g).asked == [] && GoRecord(r, c, g).replies == []
  {
  }

  lemma TiedByReply(c: Spc, s: Sched<Tagged>, r: Record, g: Go)
    requires Tied(c, s, r) && WorkOk(c, s) && CanGo(c, g) && CanApply(s, GoEffect(c, g))
    requires !Aside(c, g) && !g.ReadControl? && GoEffect(c, g).Act?
    ensures Tied(Goto(c, g), Apply(s, GoEffect(c, g)), GoRecord(r, c, g))
  {
    hide Tied, Next;
    var p := GoRecord(r, c, g).replies[|r.replies|];
    TiedReplies(c, Goto(c, g), s, r, GoRecord(r, c, g), p);
  }

  lemma TiedByAsking(c: Spc, s: Sched<Tagged>, r: Record, g: Go)
    requires Tied(c, s, r) && CanGo(c, g) && CanApply(s, GoEffect(c, g)) && g.ReadControl?
    ensures Tied(Goto(c, g), Apply(s, GoEffect(c, g)), GoRecord(r, c, g))
  {
    hide Tied, Next;
    TiedAsks(c, Goto(c, g), s, r, GoRecord(r, c, g), g.req);
  }

  lemma TiedByServer(c: Spc, s: Sched<Tagged>, r: Record, g: Go)
    requires Tied(c, s, r) && WorkOk(c, s) && CanGo(c, g) && CanApply(s, GoEffect(c, g))
    ensures Tied(Goto(c, g), Apply(s, GoEffect(c, g)), GoRecord(r, c, g))
  {
    var e := GoEffect(c, g);
    if e.Forget? || e.Begins? {
      hide GoEffect, Goto, GoRecord, RequestOf, Next;
      ForgottenByGo(c, r, g);
    } else if Aside(c, g) {
      hide Tied, GoEffect, Goto, GoRecord, RequestOf, Next;
      AsideKeepsRequest(c, g);
      AsideKeepsRecord(c, r, g);
      if e.Act? { GrowsByAct(s, e.act); }
      TiedStays(c, Goto(c, g), s, Apply(s, e), r, GoRecord(r, c, g));
    } else if g.ReadControl? {
      hide *;
      TiedByAsking(c, s, r, g);
    } else {
      hide Tied, Goto, GoRecord, Next, Apply, WorkOk;
      TiedByReply(c, s, r, g);
    }
  }

  lemma ForgottenByBody(dev: Device, op: Op, r: Record, ok: bool, answers: nat)
    requires |dev.bufs| == 16 && (op.Fetch? || op.Say? ==> op.ep < 16) && BodyEffect(dev, op, ok).Forget?
    ensures var r' := BodyRecord(r, dev, op, ok);
            RequestOf(BodyNext(dev, op, ok, answers)).None? && r'.asked == [] && r'.replies == []
  {
  }

  lemma OtherBody(dev: Device, op: Op, r: Record, ok: bool, answers: nat)
    requires |dev.bufs| == 16 && (op.Fetch? || op.Say? ==> op.ep < 16) && !BodyEffect(dev, op, ok).Forget? && !op.Reply?
    ensures var r' := BodyRecord(r, dev, op, ok);
            RequestOf(BodyNext(dev, op, ok, answers)) == OpRequest(op) && r'.asked == r.asked && r'.replies == r.replies
  {
  }

  lemma TiedByBody(dev: Device, op: Op, s: Sched<Tagged>, r: Record, ok: bool, answers: nat)
    requires |dev.bufs| == 16 && (op.Fetch? || op.Say? ==> op.ep < 16)
    requires Tied(Hold(op), s, r) && WorkOk(Hold(op), s) && CanApply(s, BodyEffect(dev, op, ok))
    ensures Tied(BodyNext(dev, op, ok, answers), Apply(s, BodyEffect(dev, op, ok)), BodyRecord(r, dev, op, ok))
  {
    var e, c', r' := BodyEffect(dev, op, ok), BodyNext(dev, op, ok, answers), BodyRecord(r, dev, op, ok);
    if e.Forget? {
      ForgottenByBody(dev, op, r, ok, answers);
    } else if op.Reply? {
      TiedReplies(Hold(op), c', s, r, r', r'.replies[|r.replies|]);
    } else {
      OtherBody(dev, op, r, ok, answers);
      if e.Act? { GrowsByAct(s, e.act); }
      assert !e.Begins?;
      TiedStays(Hold(op), c', s, Apply(s, e), r, r');
    }
  }
}
