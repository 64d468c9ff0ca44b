/** What happens to the bytes device threads transmit: none is lost, doubled or reordered within a
    session, and none survives a reset. */
module HandoffBytes {
  import opened Urbs
  import opened Schedule
  import opened Handoff
  import opened HandoffSession

  /** The bytes the host received from an IN endpoint, in order. */
  ghost function Sent(log: seq<Event<Tagged>>, slot: nat): seq<Tagged> {
    if log == [] then []
    else Sent(log[..|log| - 1], slot) + if PolledOn(log[|log| - 1], slot) then log[|log| - 1].data else []
  }

  /** The bytes accepted for an endpoint since the last reset, in order. */
  ghost function Accepted(taken: seq<Taken>, ep: nat): seq<Tagged> {
    if taken == [] then []
    else Accepted(taken[..|taken| - 1], ep) + if taken[|taken| - 1].ep == ep then taken[|taken| - 1].data else []
  }

  lemma SentGrows(log: seq<Event<Tagged>>, e: Event<Tagged>, slot: nat)
    ensures Sent(log + [e], slot) == Sent(log, slot) + if PolledOn(e, slot) then e.data else []
  {
    assert (log + [e])[..|log|] == log;
  }

  lemma AcceptedGrows(taken: seq<Taken>, k: Taken, ep: nat)
    ensures Accepted(taken + [k], ep) == Accepted(taken, ep) + if k.ep == ep then k.data else []
  {
    assert (taken + [k])[..|taken|] == taken;
  }

  /** The slot a step of the completion pass polls. */
  ghost predicate Polls(s: Sched<Tagged>, a: Act<Tagged>, slot: nat) {
    a.Scan? && At(s) && IsDue(s.queue, Current(s), s.now) && !Current(s).isochronous && slot == Slot(1, Current(s).ep)
  }

  /** Only polling sends buffered bytes, and it sends exactly what was fetched. */
  lemma SentByAct(s: Sched<Tagged>, a: Act<Tagged>, slot: nat)
    requires Can(s, a)
    ensures Sent(Next(s, a).log, slot) == Sent(s.log, slot) + if Polls(s, a, slot) then a.data else []
  {
    var log' := Next(s, a).log;
    if |log'| > |s.log| { SentGrows(s.log, log'[|s.log|], slot); }
  }

  // ----- Reset isolation -----

  ghost predicate From(data: seq<Tagged>, gen: nat) {
    forall i :: 0 <= i < |data| ==> data[i].gen == gen
  }

  /** Every buffered byte, and every byte of every reply in this session, is of the current
      generation. */
  ghost predicate Isolated(dev: Device, log: seq<Event<Tagged>>) {
    && |dev.bufs| == 16
    && (forall e :: 0 <= e < 16 ==> From(dev.bufs[e], dev.gen))
    && (forall k :: 0 <= k < |log| && log[k].Ret? ==> From(log[k].data, dev.gen))
  }

  lemma IsolatedByThread(c: Core, log: seq<Event<Tagged>>, t: nat, m: Move)
    requires Isolated(c.dev, log) && CanMove(c, t, m)
    ensures Isolated(DoMove(c, t, m).dev, log)
  {
  }

  lemma IsolatedByEffect(dev: Device, s: Sched<Tagged>, e: Effect)
    requires Isolated(dev, s.log) && CanApply(s, e)
    requires e.Act? && (e.act.Scan? || e.act.Close?) ==> From(e.act.data, dev.gen)
    ensures Isolated(dev, Apply(s, e).log)
  {
  }

  lemma IsolatedByBody(dev: Device, log: seq<Event<Tagged>>, op: Op)
    requires Isolated(dev, log) && (op.Fetch? || op.Say? ==> op.ep < 16)
    requires op.Reset? ==> log == []
    ensures Isolated(BodyDevice(dev, op), log)
  {
  }

  // ----- Conservation -----

  /** The window in which a lost session's bytes are still buffered. */
  predicate Resetting(c: Spc) {
    c == LOST || c == Hold(Reset(false))
  }

  /** On every endpoint but the control endpoint, what was sent followed by what is buffered is
      what was accepted. */
  ghost predicate Conserved(c: Spc, dev: Device, log: seq<Event<Tagged>>, taken: seq<Taken>) {
    && |dev.bufs| == 16
    && (!Resetting(c) && !dev.stopped ==>
          forall e :: 1 <= e < 16 ==> Sent(log, 16 + e) + dev.bufs[e] == Accepted(taken, e))
  }

  /** A transmit is stored into an empty buffer. */
  lemma ConservedByPut(c: Spc, dev: Device, log: seq<Event<Tagged>>, taken: seq<Taken>, k: Taken)
    requires Conserved(c, dev, log, taken) && k.ep < 16 && (k.ep == 0 || dev.bufs[k.ep] == [])
    ensures Conserved(c, Put(dev, k.ep, k.data), log, taken + [k])
  {
    forall e | 1 <= e < 16 ensures Accepted(taken + [k], e) == Accepted(taken, e) + if k.ep == e then k.data else [] {
      AcceptedGrows(taken, k, e);
    }
  }

  lemma ConservedByThread(c: Core, r: Record, log: seq<Event<Tagged>>, t: nat, m: Move)
    requires Conserved(c.server, c.dev, log, r.taken) && CanMove(c, t, m)
    ensures var r' := if m.Store? then Takes(r, Puts(c.dev, c.threads[t])) else r;
            Conserved(c.server, DoMove(c, t, m).dev, log, r'.taken)
  {
    if m.Store? && Puts(c.dev, c.threads[t]).Some? {
      ConservedByPut(c.server, c.dev, log, r.taken, Puts(c.dev, c.threads[t]).value);
    }
  }

  /** Between fetches the server sends nothing from the buffers. */
  lemma GoPollsNothing(c: Spc, s: Sched<Tagged>, g: Go, slot: nat)
    requires CanGo(c, g) && GoEffect(c, g).Act? && Matches(s, g) && WorkOk(c, s)
    ensures !Polls(s, GoEffect(c, g).act, slot)
  {
    var a := GoEffect(c, g).act;
    if a.Scan? { assert g.Streamed? || g.NotDue?; }
  }

  lemma NothingToForget(c: Spc, s: Sched<Tagged>, r: Record, g: Go)
    requires PhaseOk(PhaseOf(c), s, r) && (r.table.None? ==> s.log == []) && CanGo(c, g) && Goto(c, g) != LOST
    requires GoEffect(c, g).Forget? || GoEffect(c, g).Begins?
    ensures s.log == []
  {
    assert g.Import? || g.Attached?;
  }

  lemma GoSendsNothing(c: Spc, s: Sched<Tagged>, r: Record, g: Go, slot: nat)
    requires PhaseOk(PhaseOf(c), s, r) && (r.table.None? ==> s.log == [])
    requires CanGo(c, g) && CanApply(s, GoEffect(c, g)) && Matches(s, g)
    requires WorkOk(c, s)
    ensures Goto(c, g) != LOST ==> Sent(Apply(s, GoEffect(c, g)).log, slot) == Sent(s.log, slot)
  {
    hide CanGo, GoEffect, Goto, PhaseOk, PhaseOf, WorkOk, Matches, Polls, Sent, Next, Can;
    var e := GoEffect(c, g);
    if e.Act? {
      SentByAct(s, e.act, slot);
      GoPollsNothing(c, s, g, slot);
    } else if Goto(c, g) != LOST && !e.Stay? {
      NothingToForget(c, s, r, g);
    }
  }

  lemma ConservedAcross(c: Spc, c': Spc, dev: Device, dev': Device, log: seq<Event<Tagged>>, log': seq<Event<Tagged>>,
                        taken: seq<Taken>)
    requires Conserved(c, dev, log, taken) && !Resetting(c)
    requires |dev'.bufs| == 16 && dev'.stopped == dev.stopped && forall e :: 1 <= e < 16 ==> dev'.bufs[e] == dev.bufs[e]
    requires !Resetting(c') ==> forall slot :: Sent(log', slot) == Sent(log, slot)
    ensures Conserved(c', dev', log', taken)
  {
  }

  lemma ResetsByGo(c: Spc, g: Go)
    requires CanGo(c, g)
    ensures !Resetting(c) && (Resetting(Goto(c, g)) ==> Goto(c, g) == LOST)
  {
  }

  lemma GoKeepsTaken(c: Spc, r: Record, g: Go)
    requires CanGo(c, g)
    ensures GoRecord(r, c, g).taken == r.taken && !Resetting(c) && (Resetting(Goto(c, g)) ==> Goto(c, g) == LOST)
  {
    hide Goto, Resetting;
    ResetsByGo(c, g);
  }

  lemma ConservedByServer(c: Spc, dev: Device, s: Sched<Tagged>, r: Record, g: Go)
    requires Conserved(c, dev, s.log, r.taken) && Sessions(c, s, r)
    requires CanGo(c, g) && CanApply(s, GoEffect(c, g)) && Matches(s, g)
    ensures Conserved(Goto(c, g), dev, Apply(s, GoEffect(c, g)).log, GoRecord(r, c, g).taken)
  {
    var log' := Apply(s, GoEffect(c, g)).log;
    GoKeepsTaken(c, r, g);
    forall slot ensures Goto(c, g) != LOST ==> Sent(log', slot) == Sent(s.log, slot) { GoSendsNothing(c, s, r, g, slot); }
    ConservedAcross(c, Goto(c, g), dev, dev, s.log, log', r.taken);
  }

  /** Bytes go from the front of a buffer to the end of what was sent. */
  lemma Shifts<X>(sent: seq<X>, buf: seq<X>, n: nat)
    requires n <= |buf|
    ensures (sent + buf[..n]) + buf[n..] == sent + buf
  {
  }

  lemma FetchSends(s: Sched<Tagged>, d: seq<Tagged>, ep: nat, length: nat, slot: nat)
    requires WorkOk(Hold(Fetch(ep, length)), s) && Can(s, Scan(d)) && slot < 32
    ensures Sent(Next(s, Scan(d)).log, slot) == Sent(s.log, slot) + if slot == 16 + ep then d else []
  {
    hide Sent, Next;
    SentByAct(s, Scan(d), slot);
  }

  /** A fetch moves bytes from the front of the buffer to the end of what was sent. */
  lemma ConservedByFetch(dev: Device, s: Sched<Tagged>, taken: seq<Taken>, op: Op)
    requires op.Fetch? && Conserved(Hold(op), dev, s.log, taken) && WorkOk(Hold(op), s)
    requires Can(s, Scan(Cut(dev.bufs[op.ep], op.length)))
    ensures Conserved(Visiting, BodyDevice(dev, op), Next(s, Scan(Chunk(dev, op))).log, taken)
  {
    hide Sent, Next, Can, Accepted;
    var d := Chunk(dev, op);
    var log' := Next(s, Scan(d)).log;
    forall e | 1 <= e < 16
      ensures Sent(log', 16 + e) + BodyDevice(dev, op).bufs[e] == Sent(s.log, 16 + e) + dev.bufs[e]
    {
      FetchSends(s, d, op.ep, op.length, 16 + e);
      Shifts(Sent(s.log, 16 + e), dev.bufs[op.ep], |d|);
    }
  }

  /** Sections that leave the data endpoints alone. */
  lemma ConservedByControl(dev: Device, op: Op, s: Sched<Tagged>, taken: seq<Taken>, ok: bool, answers: nat)
    requires |dev.bufs| == 16 && (op.BeginControl? || op.Flag? || op.Reply?)
    requires Conserved(Hold(op), dev, s.log, taken) && CanApply(s, BodyEffect(dev, op, ok))
    ensures Conserved(BodyNext(dev, op, ok, answers), BodyDevice(dev, op), Apply(s, BodyEffect(dev, op, ok)).log, taken)
  {
    var e := BodyEffect(dev, op, ok);
    var log' := Apply(s, e).log;
    forall slot ensures !e.Forget? ==> Sent(log', slot) == Sent(s.log, slot) {
      if e.Act? { SentByAct(s, e.act, slot); }
    }
    ConservedAcross(Hold(op), BodyNext(dev, op, ok, answers), dev, BodyDevice(dev, op), s.log, log', taken);
  }

  /** The server thread's own transmits, in a callback or for the library. */
  lemma ConservedBySpeech(dev: Device, op: Op, log: seq<Event<Tagged>>, r: Record, answers: nat, ok: bool)
    requires |dev.bufs| == 16 && (op.Own? || op.Say?) && (op.Say? ==> op.ep < 16)
    requires Conserved(Hold(op), dev, log, r.taken)
    ensures Conserved(BodyNext(dev, op, ok, answers), BodyDevice(dev, op), log, BodyRecord(r, dev, op, ok).taken)
  {
    var put := Speaks(dev, op);
    if put.Some? { ConservedByPut(Hold(op), dev, log, r.taken, put.value); }
  }

  lemma ConservedByBody(dev: Device, op: Op, s: Sched<Tagged>, r: Record, ok: bool, answers: nat)
    requires |dev.bufs| == 16 && (op.Fetch? || op.Say? ==> op.ep < 16)
    requires Conserved(Hold(op), dev, s.log, r.taken) && CanApply(s, BodyEffect(dev, op, ok))
    requires WorkOk(Hold(op), s) && (op.Reset? ==> s.log == [])
    ensures Conserved(BodyNext(dev, op, ok, answers), BodyDevice(dev, op), Apply(s, BodyEffect(dev, op, ok)).log,
                      BodyRecord(r, dev, op, ok).taken)
  {
    match op
    case Reset(_) =>
    case Halt =>
    case Fetch(_, _) => if BodyEffect(dev, op, ok).Act? { ConservedByFetch(dev, s, r.taken, op); }
    case Own(_, _) => ConservedBySpeech(dev, op, s.log, r, answers, ok);
    case Say(_, _, _) => ConservedBySpeech(dev, op, s.log, r, answers, ok);
    case _ => ConservedByControl(dev, op, s, r.taken, ok, answers);
  }
}
