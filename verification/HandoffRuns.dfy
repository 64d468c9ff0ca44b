/** The session inside a run of `Handoff` is a run of `Schedule`, and what a run can show. */
module HandoffRuns {
  import opened Urbs
  import opened Schedule
  import opened Handoff
  import opened HandoffSession
  import opened HandoffSafety

  /** What a step does to the session. */
  ghost function EffectOf(w: World, st: Step): Effect
    requires Enabled(w, st)
  {
    match st
    case ByServer(g) => GoEffect(w.core.server, g)
    case Body(ok) => BodyEffect(w.core.dev, w.core.server.op, ok)
    case _ => Stay
  }

  lemma EffectIsDone(w: World, st: Step)
    requires Enabled(w, st) && InSession(w)
    ensures CanApply(w.sched, EffectOf(w, st)) && Do(w, st).sched == Apply(w.sched, EffectOf(w, st))
    ensures Do(w, st).rec.table == TableAfter(w.rec, EffectOf(w, st))
    ensures EffectOf(w, st).Begins? ==> FreshTable(EffectOf(w, st).table)
  {
    match st
    case ByServer(g) =>
      TableByServer(w.rec, w.core.server, g);
      ServerActs(w.core.server, w.sched, w.rec, g);
    case Body(ok) => BodyActs(w.core.dev, w.core.server.op, w.sched, w.rec, ok);
    case _ =>
  }

  /** The session's steps since it began. */
  ghost function ActsSince(ws: seq<World>, steps: seq<Step>, i: nat): seq<Act<Tagged>>
    requires Run(ws, steps) && i < |ws|
  {
    if i == 0 then []
    else
      match EffectOf(ws[i - 1], steps[i - 1])
      case Stay => ActsSince(ws, steps, i - 1)
      case Act(a) => ActsSince(ws, steps, i - 1) + [a]
      case _ => []
  }

  /** The states those steps lead through. */
  ghost function StatesSince(ws: seq<World>, steps: seq<Step>, i: nat): (ss: seq<Sched<Tagged>>)
    requires Run(ws, steps) && i < |ws|
    ensures |ss| == |ActsSince(ws, steps, i)| + 1
  {
    if i == 0 then [ws[0].sched]
    else
      match EffectOf(ws[i - 1], steps[i - 1])
      case Stay => StatesSince(ws, steps, i - 1)
      case Act(a) => StatesSince(ws, steps, i - 1) + [ws[i].sched]
      case _ => [ws[i].sched]
  }

  lemma RunMore<T>(ss: seq<Sched<T>>, acts: seq<Act<T>>, table: seq<Endpoint>, a: Act<T>)
    requires SessionRun(ss, acts, table) && Can(ss[|acts|], a)
    ensures SessionRun(ss + [Next(ss[|acts|], a)], acts + [a], table)
  {
    hide Can, Next;
  }

  /** The last step starts a session, adds to one, or leaves it. */
  lemma {:induction false} SinceMore(ws: seq<World>, steps: seq<Step>, i: nat)
    requires Run(ws, steps) && 0 < i < |ws|
    ensures Enabled(ws[i - 1], steps[i - 1]) && ws[i] == Do(ws[i - 1], steps[i - 1])
    ensures var e := EffectOf(ws[i - 1], steps[i - 1]);
            var ss, acts := StatesSince(ws, steps, i - 1), ActsSince(ws, steps, i - 1);
            && StatesSince(ws, steps, i) == (if e.Stay? then ss else if e.Act? then ss + [ws[i].sched] else [ws[i].sched])
            && ActsSince(ws, steps, i) == (if e.Stay? then acts else if e.Act? then acts + [e.act] else [])
  {
    hide Enabled, Do, EffectOf, Init;
  }

  /** The states and steps since the last import end here, and are a run if there is a session. */
  ghost predicate SoFar(ss: seq<Sched<Tagged>>, acts: seq<Act<Tagged>>, s: Sched<Tagged>, table: Option<seq<Endpoint>>) {
    |ss| == |acts| + 1 && ss[|acts|] == s && (table.Some? ==> SessionRun(ss, acts, table.value))
  }

  lemma SoFarAndOn(ss: seq<Sched<Tagged>>, acts: seq<Act<Tagged>>, s: Sched<Tagged>, table: Option<seq<Endpoint>>, e: Effect)
    requires SoFar(ss, acts, s, table) && CanApply(s, e) && (e.Begins? ==> FreshTable(e.table))
    ensures var s' := Apply(s, e);
            SoFar(if e.Stay? then ss else if e.Act? then ss + [s'] else [s'],
                  if e.Stay? then acts else if e.Act? then acts + [e.act] else [],
                  s', if e.Begins? then Some(e.table) else if e.Forget? then None else table)
  {
    hide Can, Next, FreshTable;
    if e.Act? && table.Some? { RunMore(ss, acts, table.value, e.act); }
  }

  lemma {:induction false} SoFarAlways(ws: seq<World>, steps: seq<Step>, i: nat)
    requires Run(ws, steps) && i < |ws|
    ensures SoFar(StatesSince(ws, steps, i), ActsSince(ws, steps, i), ws[i].sched, ws[i].rec.table)
  {
    if i > 0 {
      hide *;
      var w, st := ws[i - 1], steps[i - 1];
      SoFarAlways(ws, steps, i - 1);
      RunInSession(ws, steps, i - 1);
      SinceMore(ws, steps, i);
      EffectIsDone(w, st);
      TableIsAfter(w.rec, EffectOf(w, st));
      SoFarAndOn(StatesSince(ws, steps, i - 1), ActsSince(ws, steps, i - 1), w.sched, w.rec.table, EffectOf(w, st));
    }
  }

  lemma TableIsAfter(r: Record, e: Effect)
    ensures TableAfter(r, e) == if e.Begins? then Some(e.table) else if e.Forget? then None else r.table
  {
  }

  /** The session of a run, however the threads interleave, is a run of `Schedule` from the table of
      its import to the state it is in. */
  lemma {:induction false} SessionsAreRuns(ws: seq<World>, steps: seq<Step>, i: nat)
    requires Run(ws, steps) && i < |ws|
    ensures var ss := StatesSince(ws, steps, i); ss[|ss| - 1] == ws[i].sched
    ensures ws[i].rec.table.Some? ==>
              SessionRun(StatesSince(ws, steps, i), ActsSince(ws, steps, i), ws[i].rec.table.value)
  {
    hide Run, StatesSince, ActsSince, SessionRun;
    SoFarAlways(ws, steps, i);
  }

  /** No session begins or ends with the steps from `i` up to `j`. */
  ghost predicate SameSession(ws: seq<World>, steps: seq<Step>, i: nat, j: nat)
    requires Run(ws, steps) && i <= j < |ws|
  {
    forall k :: i <= k < j ==> EffectOf(ws[k], steps[k]).Stay? || EffectOf(ws[k], steps[k]).Act?
  }

  lemma {:induction false} SinceGrows(ws: seq<World>, steps: seq<Step>, i: nat, j: nat)
    requires Run(ws, steps) && i <= j < |ws| && SameSession(ws, steps, i, j)
    ensures ActsSince(ws, steps, i) <= ActsSince(ws, steps, j)
    ensures StatesSince(ws, steps, i) <= StatesSince(ws, steps, j)
  {
    if i < j {
      hide Enabled, Do;
      SinceGrows(ws, steps, i, j - 1);
      assert EffectOf(ws[j - 1], steps[j - 1]).Stay? || EffectOf(ws[j - 1], steps[j - 1]).Act?;
    }
  }

  /** So what `Schedule` says about two moments holds of two moments of an interleaved run: an unlink
      reports -ECONNRESET exactly when its target is pending, and then the target is never answered. */
  lemma UnlinkIsFinalInRuns(ws: seq<World>, steps: seq<Step>, i: nat, j: nat)
    requires Run(ws, steps) && i < j < |ws| && SameSession(ws, steps, i, j) && ws[j].rec.table.Some?
    requires EffectOf(ws[i], steps[i]).Act? && EffectOf(ws[i], steps[i]).act.Unlink?
    ensures var n, target, log := |ws[i].sched.log|, EffectOf(ws[i], steps[i]).act.target, ws[j].sched.log;
            && n < |log| && log[n].Unlinked? && log[n].target == target
            && (log[n].cancelled <==> target in Waiting(ws[i].sched.queue.pending))
            && (log[n].cancelled ==> forall k :: 0 <= k < |log| && log[k].Ret? ==> log[k].seqnum != target)
  {
    SessionsAreRuns(ws, steps, i);
    SessionsAreRuns(ws, steps, j);
    SinceGrows(ws, steps, i, i + 1);
    SinceGrows(ws, steps, i + 1, j);
    var ss, acts := StatesSince(ws, steps, j), ActsSince(ws, steps, j);
    var m := |ActsSince(ws, steps, i)|;
    assert ss[m] == ws[i].sched && acts[m] == EffectOf(ws[i], steps[i]).act;
    UnlinkIsFinal(ss, acts, ws[j].rec.table.value, m, |acts|);
  }
}
