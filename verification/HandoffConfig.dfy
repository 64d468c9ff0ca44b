/** GET_CONFIGURATION reports what the host itself set last, told from its own requests. */
module HandoffConfig {
  import opened Urbs
  import opened Handoff
  import opened HandoffSession
  import opened HandoffControl
  import opened HandoffReplies
  import opened HandoffSafety

  /** The configuration that the last SET_CONFIGURATION of these requests set, 0 before any. */
  function LatestSet(asked: seq<Request>): byte {
    if asked == [] then 0
    else
      var last := asked[|asked| - 1];
      if last.action.SetConfig? then last.action.conf else LatestSet(asked[..|asked| - 1])
  }

  /** The device is about to be reset. */
  predicate BeforeReset(c: Spc) {
    OpOf(c).Some? && OpOf(c).value.Reset?
  }

  /** The requests that the device has begun to serve. */
  function Begun(c: Spc, asked: seq<Request>): seq<Request> {
    if OpOf(c).Some? && OpOf(c).value.BeginControl? && asked != [] then asked[..|asked| - 1] else asked
  }

  ghost predicate Recalls(c: Spc, r: Record) {
    && |r.replies| <= |r.asked|
    && (!BeforeReset(c) ==> r.lastConf == LatestSet(Begun(c, r.asked)))
    && (forall k :: 0 <= k < |r.replies| ==> r.replies[k].conf == LatestSet(r.asked[..k + 1]))
  }

  lemma LatestMore(asked: seq<Request>, req: Request)
    ensures LatestSet(asked + [req]) == if req.action.SetConfig? then req.action.conf else LatestSet(asked)
  {
    assert (asked + [req])[..|asked|] == asked;
  }

  // ----- Steps without a lock -----

  /** A control request is heard. */
  lemma RecallsMore(c: Spc, c': Spc, r: Record, r': Record, req: Request)
    requires Recalls(c, r) && OpOf(c).None? && OpOf(c') == Some(BeginControl(req))
    requires r'.asked == r.asked + [req] && r'.replies == r.replies && r'.lastConf == r.lastConf
    ensures Recalls(c', r')
  {
    hide OpOf, LatestSet;
    assert r'.asked[..|r.asked|] == r.asked;
    forall k | 0 <= k < |r.replies| ensures r.replies[k].conf == LatestSet(r'.asked[..k + 1]) {
      assert r'.asked[..k + 1] == r.asked[..k + 1];
    }
  }

  lemma RecallsByHearing(c: Spc, r: Record, g: Go)
    requires CanGo(c, g) && g.ReadControl? && Recalls(c, r)
    ensures Recalls(Goto(c, g), GoRecord(r, c, g))
  {
    hide Recalls;
    RecallsMore(c, Goto(c, g), r, GoRecord(r, c, g), g.req);
  }

  lemma RecallsByReplying(c: Spc, r: Record, g: Go)
    requires CanGo(c, g) && !Aside(c, g) && !g.ReadControl? && !GoEffect(c, g).Forget?
    requires Recalls(c, r) && Counted(RequestOf(c), r.asked, r.replies)
    ensures Recalls(Goto(c, g), GoRecord(r, c, g))
  {
    assert r.asked[..|r.replies| + 1] == r.asked;
  }

  lemma ResetFollows(c: Spc, g: Go)
    requires CanGo(c, g) && (GoEffect(c, g).Forget? || GoEffect(c, g).Begins?)
    ensures BeforeReset(Goto(c, g)) || g == Attached(false)
  {
  }

  lemma RecallsByEnding(c: Spc, r: Record, g: Go)
    requires CanGo(c, g) && (GoEffect(c, g).Forget? || GoEffect(c, g).Begins?) && Recalls(c, r)
    requires Starting(c) ==> r.lastConf == 0
    ensures Recalls(Goto(c, g), GoRecord(r, c, g))
  {
    hide Goto, GoEffect, GoRecord, Starting;
    ForgottenByGo(c, r, g);
    ResetFollows(c, g);
    if !BeforeReset(Goto(c, g)) { AttachFails(c, r, g); }
  }

  lemma AttachFails(c: Spc, r: Record, g: Go)
    requires CanGo(c, g) && g == Attached(false)
    ensures Starting(c) && Goto(c, g) == Idle && GoRecord(r, c, g).lastConf == r.lastConf
  {
  }

  lemma ConfKept(c: Spc, r: Record, g: Go)
    requires CanGo(c, g)
    ensures GoRecord(r, c, g).lastConf == r.lastConf
  {
    AnswersByServer(c, r, g);
  }

  lemma NoSection(c: Spc, g: Go)
    requires CanGo(c, g)
    ensures OpOf(c).None?
  {
  }

  lemma NextSection(c: Spc, g: Go)
    requires CanGo(c, g) && Aside(c, g) && !GoEffect(c, g).Forget? && !GoEffect(c, g).Begins?
    ensures var op := OpOf(Goto(c, g)); op.Some? ==> !op.value.BeginControl? && !op.value.Reset?
  {
    hide GoRecord;
  }

  lemma SectionsKept(c: Spc, r: Record, g: Go)
    requires CanGo(c, g) && Aside(c, g) && !GoEffect(c, g).Forget? && !GoEffect(c, g).Begins?
    ensures GoRecord(r, c, g).lastConf == r.lastConf
    ensures var op := OpOf(Goto(c, g)); op.Some? ==> !op.value.BeginControl? && !op.value.Reset?
    ensures OpOf(c).None?
  {
    hide *;
    ConfKept(c, r, g);
    NoSection(c, g);
    NextSection(c, g);
  }

  lemma RecallsByGo(c: Spc, r: Record, g: Go)
    requires CanGo(c, g) && Recalls(c, r) && Counted(RequestOf(c), r.asked, r.replies) && (Starting(c) ==> r.lastConf == 0)
    ensures Recalls(Goto(c, g), GoRecord(r, c, g))
  {
    if GoEffect(c, g).Forget? || GoEffect(c, g).Begins? {
      RecallsByEnding(c, r, g);
    } else if g.ReadControl? {
      RecallsByHearing(c, r, g);
    } else if !Aside(c, g) {
      RecallsByReplying(c, r, g);
    } else {
      hide Goto, GoRecord, GoEffect, CanGo, Aside;
      AsideKeepsRecord(c, r, g);
      SectionsKept(c, r, g);
    }
  }

  // ----- Sections -----

  lemma RecallsByReply(dev: Device, op: Op, r: Record, ok: bool)
    requires |dev.bufs| == 16 && op.Reply? && Recalls(Hold(op), r) && Counted(RequestOf(Hold(op)), r.asked, r.replies)
    ensures Recalls(BodyNext(dev, op, ok, |r.answers|), BodyRecord(r, dev, op, ok))
  {
    assert r.asked[..|r.replies| + 1] == r.asked;
  }

  lemma RecallsByBegin(dev: Device, op: Op, r: Record, ok: bool)
    requires |dev.bufs| == 16 && op.BeginControl? && Recalls(Hold(op), r) && Counted(RequestOf(Hold(op)), r.asked, r.replies)
    ensures Recalls(BodyNext(dev, op, ok, |r.answers|), BodyRecord(r, dev, op, ok))
  {
    var n := |r.asked| - 1;
    assert r.asked == r.asked[..n] + [op.req];
    LatestMore(r.asked[..n], op.req);
  }

  lemma RecallsByReset(dev: Device, op: Op, r: Record, ok: bool)
    requires |dev.bufs| == 16 && op.Reset? && Recalls(Hold(op), r) && r.asked == []
    ensures Recalls(BodyNext(dev, op, ok, |r.answers|), BodyRecord(r, dev, op, ok))
  {
  }

  lemma RecallsByOther(dev: Device, op: Op, r: Record, ok: bool)
    requires |dev.bufs| == 16 && !op.Reset? && !op.Reply? && !op.BeginControl? && (op.Fetch? || op.Say? ==> op.ep < 16)
    requires Recalls(Hold(op), r)
    ensures Recalls(BodyNext(dev, op, ok, |r.answers|), BodyRecord(r, dev, op, ok))
  {
  }

  // ----- Runs -----

  /** Before a reset the session's requests are forgotten. */
  ghost predicate Forgotten(c: Spc, r: Record) {
    BeforeReset(c) ==> r.asked == []
  }

  lemma ForgottenKept(w: World, st: Step)
    requires Enabled(w, st) && Forgotten(w.core.server, w.rec)
    ensures Forgotten(Do(w, st).core.server, Do(w, st).rec)
  {
    if st.ByServer? {
      ForgottenBeforeReset(w.core.server, w.rec, st.go);
    } else if st.Body? {
      ForgottenAfterSection(w.core.dev, w.core.server.op, w.rec, st.ok, |w.rec.answers|);
    }
  }

  lemma ForgottenBeforeReset(c: Spc, r: Record, g: Go)
    requires CanGo(c, g)
    ensures Forgotten(Goto(c, g), GoRecord(r, c, g))
  {
    if BeforeReset(Goto(c, g)) {
      OnlyEndsReset(c, g);
      ForgottenByGo(c, r, g);
    }
  }

  lemma OnlyEndsReset(c: Spc, g: Go)
    requires CanGo(c, g) && BeforeReset(Goto(c, g))
    ensures GoEffect(c, g).Forget? || GoEffect(c, g).Begins?
  {
  }

  lemma ForgottenAfterSection(dev: Device, op: Op, r: Record, ok: bool, answers: nat)
    requires |dev.bufs| == 16 && (op.Fetch? || op.Say? ==> op.ep < 16)
    ensures Forgotten(BodyNext(dev, op, ok, answers), BodyRecord(r, dev, op, ok))
  {
  }

  /** What the other parts of the invariant contribute. */
  lemma Background(ws: seq<World>, steps: seq<Step>, i: nat)
    requires Run(ws, steps) && i < |ws|
    ensures Counted(RequestOf(ws[i].core.server), ws[i].rec.asked, ws[i].rec.replies)
    ensures Starting(ws[i].core.server) ==> ws[i].rec.lastConf == 0
  {
    RunIsSafe(ws, steps, i);
  }

  lemma RecallsKept(w: World, st: Step)
    requires Enabled(w, st) && Recalls(w.core.server, w.rec) && Forgotten(w.core.server, w.rec)
    requires Counted(RequestOf(w.core.server), w.rec.asked, w.rec.replies)
    requires Starting(w.core.server) ==> w.rec.lastConf == 0
    ensures Recalls(Do(w, st).core.server, Do(w, st).rec)
  {
    if st.ByServer? {
      RecallsByGo(w.core.server, w.rec, st.go);
    } else if st.Body? {
      RecallsBySection(w.core.dev, w.core.server.op, w.rec, st.ok);
    }
  }

  lemma RecallsBySection(dev: Device, op: Op, r: Record, ok: bool)
    requires |dev.bufs| == 16 && (op.Fetch? || op.Say? ==> op.ep < 16)
    requires Recalls(Hold(op), r) && Forgotten(Hold(op), r) && Counted(RequestOf(Hold(op)), r.asked, r.replies)
    ensures Recalls(BodyNext(dev, op, ok, |r.answers|), BodyRecord(r, dev, op, ok))
  {
    hide Recalls, BodyNext, BodyRecord, Counted, RequestOf;
    if op.Reply? {
      RecallsByReply(dev, op, r, ok);
    } else if op.BeginControl? {
      RecallsByBegin(dev, op, r, ok);
    } else if op.Reset? {
      RecallsByReset(dev, op, r, ok);
    } else {
      RecallsByOther(dev, op, r, ok);
    }
  }

  lemma {:induction false} RunRecalls(ws: seq<World>, steps: seq<Step>, i: nat)
    requires Run(ws, steps) && i < |ws|
    ensures Recalls(ws[i].core.server, ws[i].rec) && Forgotten(ws[i].core.server, ws[i].rec)
  {
    if i > 0 {
      hide Recalls, Forgotten, Do, Enabled, Counted, RequestOf, Starting;
      RunRecalls(ws, steps, i - 1);
      Background(ws, steps, i - 1);
      RecallsKept(ws[i - 1], steps[i - 1]);
      ForgottenKept(ws[i - 1], steps[i - 1]);
    }
  }

  /** GET_CONFIGURATION never stalls. Among its answers is the configuration that the host set last in
      this session, 0 if it set none, and that is what it gets unless someone else answers as well. */
  lemma ConfigurationIsReported(ws: seq<World>, steps: seq<Step>, i: nat, k: nat)
    requires Run(ws, steps) && i < |ws| && k < |ws[i].rec.replies|
    requires ws[i].rec.replies[k].req.action.GetConfig? && ws[i].rec.replies[k].req.toHost
    ensures k < |ws[i].rec.asked| && ws[i].rec.asked[k] == ws[i].rec.replies[k].req
    ensures var p, conf := ws[i].rec.replies[k], LatestSet(ws[i].rec.asked[..k]);
            && !p.stall && Told(p.given, [conf]) && p.data == Cut(LastOf(p.given), p.req.length)
            && (|p.given| == 1 ==> Values(p.data) == Cut([conf], p.req.length))
  {
    hide Run, Told, LastOf;
    var asked, p := ws[i].rec.asked, ws[i].rec.replies[k];
    LibraryAnswersItself(ws, steps, i, k);
    ControlRequestsAreReplied(ws, steps, i);
    RunRecalls(ws, steps, i);
    assert asked[..k + 1] == asked[..k] + [p.req];
    LatestMore(asked[..k], p.req);
  }
}
