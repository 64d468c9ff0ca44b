/** Which control requests reach the device: its callback runs once for a request that the library leaves
    to it and for SET_CONFIGURATION, before the reply, and for no other. */
module HandoffCallbacks {
  import opened Urbs
  import opened Handoff
  import opened HandoffSession
  import opened HandoffSafety
  import opened HandoffTransmit

  /** A control request begins. */
  predicate Begins(w: World, st: Step) {
    st.Body? && w.core.server.Hold? && w.core.server.op.BeginControl?
  }

  /** The last control request that began before step `n`. */
  function LastBegin(ws: seq<World>, steps: seq<Step>, n: nat): (i: Option<nat>)
    requires n <= |steps| <= |ws|
    ensures i.Some? ==> i.value < n && Begins(ws[i.value], steps[i.value]) && forall m :: i.value < m < n ==> !Begins(ws[m], steps[m])
  {
    if n == 0 then None else if Begins(ws[n - 1], steps[n - 1]) then Some(n - 1) else LastBegin(ws, steps, n - 1)
  }

  /** How often a callback was entered from step `i` on and before step `n`. */
  function Entered(steps: seq<Step>, i: nat, n: nat): nat
    requires i <= n <= |steps|
    decreases n
  {
    if i == n then 0 else Entered(steps, i, n - 1) + if steps[n - 1].EnterCallback? then 1 else 0
  }

  /** The device has to hear of it. */
  predicate Concerns(req: Request) {
    req.action.Ask? || req.action.SetConfig?
  }

  /** The request that is being carried out: it has begun, and there is no reply yet. */
  function Serving(c: Spc): Option<Request> {
    if TaskOf(c).Some? && TaskOf(c).value.Control? then Some(TaskOf(c).value.req)
    else if (c.Want? || c.Hold?) && c.op.Own? then Some(c.op.req)
    else None
  }

  /** Where the server is with it tells how often its callback has been entered. */
  function Times(c: Spc, req: Request): nat {
    if Concerns(req) && !c.Calling? then 1 else 0
  }

  /** Only a request that concerns the device is somewhere around its callback. */
  predicate Placed(c: Spc, req: Request) {
    c.Working? || (if (c.Want? || c.Hold?) && c.op.Own? then !Concerns(req) else Concerns(req))
  }

  ghost predicate Heard(ws: seq<World>, steps: seq<Step>, c: Spc, n: nat)
    requires n <= |steps| <= |ws|
  {
    Serving(c).Some? ==>
      var i, req := LastBegin(ws, steps, n), Serving(c).value;
      && i.Some? && ws[i.value].core.server.op.req == req
      && Placed(c, req) && Entered(steps, i.value, n) == Times(c, req)
  }

  // ----- Steps -----

  lemma HeardByGo(ws: seq<World>, steps: seq<Step>, c: Spc, g: Go, n: nat)
    requires 0 < n <= |steps| <= |ws| && steps[n - 1] == ByServer(g) && CanGo(c, g) && Heard(ws, steps, c, n - 1)
    ensures Heard(ws, steps, Goto(c, g), n)
  {
    ServedOn(c, g);
  }

  /** Without a lock the server only goes on with what it serves. */
  lemma ServedOn(c: Spc, g: Go)
    requires CanGo(c, g)
    ensures var c' := Goto(c, g);
            Serving(c').Some? ==>
              && Serving(c) == Serving(c') && !c'.Calling? && (c.Working? ==> c'.Working?)
              && !((c'.Want? || c'.Hold?) && c'.op.Own?) && !((c.Want? || c.Hold?) && c.op.Own?) && !c.Calling?
  {
    if EndsTask(g) { ServedAtEnd(c, g); } else if HearsClient(g) { ServedAtCommand(c, g); } else { ServedElse(c, g); }
  }

  lemma ServedAtEnd(c: Spc, g: Go)
    requires CanGo(c, g) && EndsTask(g)
    ensures Serving(Goto(c, g)).None?
  {
  }

  lemma ServedAtCommand(c: Spc, g: Go)
    requires CanGo(c, g) && HearsClient(g)
    ensures Serving(Goto(c, g)).None?
  {
  }

  lemma ServedElse(c: Spc, g: Go)
    requires CanGo(c, g) && !EndsTask(g) && !HearsClient(g)
    ensures var c' := Goto(c, g);
            Serving(c').Some? ==>
              && Serving(c) == Serving(c') && !c'.Calling? && (c.Working? ==> c'.Working?)
              && !((c'.Want? || c'.Hold?) && c'.op.Own?) && !((c.Want? || c.Hold?) && c.op.Own?) && !c.Calling?
  {
  }

  lemma HeardByBegin(ws: seq<World>, steps: seq<Step>, dev: Device, op: Op, ok: bool, answers: nat, n: nat)
    requires 0 < n <= |steps| <= |ws| && Begins(ws[n - 1], steps[n - 1]) && op == ws[n - 1].core.server.op && |dev.bufs| == 16
    ensures Heard(ws, steps, BodyNext(dev, op, ok, answers), n)
  {
  }

  lemma HeardBySection(ws: seq<World>, steps: seq<Step>, dev: Device, op: Op, ok: bool, answers: nat, n: nat)
    requires 0 < n <= |steps| <= |ws| && steps[n - 1].Body? && !Begins(ws[n - 1], steps[n - 1]) && !op.BeginControl?
    requires |dev.bufs| == 16 && (op.Fetch? || op.Say? ==> op.ep < 16) && Heard(ws, steps, Hold(op), n - 1)
    ensures Heard(ws, steps, BodyNext(dev, op, ok, answers), n)
  {
  }

  lemma HeardByOther(ws: seq<World>, steps: seq<Step>, w: World, st: Step, n: nat)
    requires 0 < n <= |steps| <= |ws| && steps[n - 1] == st && Enabled(w, st) && !st.ByServer? && !st.Body?
    requires Heard(ws, steps, w.core.server, n - 1)
    ensures Heard(ws, steps, Do(w, st).core.server, n)
  {
  }

  lemma HeardStep(ws: seq<World>, steps: seq<Step>, n: nat)
    requires |ws| == |steps| + 1 && 0 < n < |ws| && Enabled(ws[n - 1], steps[n - 1]) && ws[n] == Do(ws[n - 1], steps[n - 1])
    requires Heard(ws, steps, ws[n - 1].core.server, n - 1)
    ensures Heard(ws, steps, ws[n].core.server, n)
  {
    var w, st := ws[n - 1], steps[n - 1];
    hide Heard, Goto, BodyNext, CanGo;
    if st.ByServer? {
      HeardByGo(ws, steps, w.core.server, st.go, n);
    } else if st.Body? {
      if Begins(w, st) {
        HeardByBegin(ws, steps, w.core.dev, w.core.server.op, st.ok, |w.rec.answers|, n);
      } else {
        HeardBySection(ws, steps, w.core.dev, w.core.server.op, st.ok, |w.rec.answers|, n);
      }
    } else {
      HeardByOther(ws, steps, w, st, n);
    }
  }

  lemma NothingServed(ws: seq<World>, steps: seq<Step>)
    requires Run(ws, steps)
    ensures Heard(ws, steps, ws[0].core.server, 0)
  {
    hide Enabled, Do;
  }

  lemma {:induction false} HeardAlways(ws: seq<World>, steps: seq<Step>, n: nat)
    requires Run(ws, steps) && n < |ws|
    ensures |ws| == |steps| + 1 && Heard(ws, steps, ws[n].core.server, n)
  {
    hide *;
    Spans(ws, steps);
    if n == 0 {
      NothingServed(ws, steps);
    } else {
      StepOf(ws, steps, n - 1);
      HeardAlways(ws, steps, n - 1);
      HeardStep(ws, steps, n);
    }
  }

  /** In every run, when the server is done with a control request, the device's callback has been entered
      exactly once since the request began if the request concerns the device, and not at all if not. */
  lemma CallbackIsAsked(ws: seq<World>, steps: seq<Step>, j: nat) returns (i: nat)
    requires Run(ws, steps) && j < |steps| && steps[j].ByServer? && steps[j].go.Controlled?
    ensures |ws| == |steps| + 1 && LastBegin(ws, steps, j) == Some(i)
    ensures ws[j].core.server == Working(Control(ws[i].core.server.op.req))
    ensures Entered(steps, i, j) == if Concerns(ws[i].core.server.op.req) then 1 else 0
  {
    StepOf(ws, steps, j);
    HeardAlways(ws, steps, j);
    i := LastBegin(ws, steps, j).value;
  }
}
