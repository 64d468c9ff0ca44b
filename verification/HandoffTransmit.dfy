/** What becomes of each transmit, told by the calls themselves.

    `HandoffSafety` speaks of what was accepted and of the generations that bytes carry. Here both are
    traced back over the run: to the call of `usbip_device_transmit` that handed the bytes over, and to
    the moment its thread first got the mutex. */
module HandoffTransmit {
  import opened Urbs
  import opened Handoff
  import opened HandoffBytes
  import opened HandoffSafety

  // ----- Looking back over a run -----

  predicate CallsBy(st: Step, t: nat) {
    st.ByThread? && st.t == t && st.move.Call?
  }

  predicate LocksBy(st: Step, t: nat) {
    st.ByThread? && st.t == t && st.move.Lock?
  }

  predicate Speaking(st: Step) {
    st.ByServer? && st.go.Speak?
  }

  /** The device's buffers are emptied and a new generation starts. */
  predicate Resets(w: World, st: Step) {
    st.Body? && w.core.server.Hold? && w.core.server.op.Reset?
  }

  /** The last transmit of a thread that began before step `n`. */
  function LastCall(steps: seq<Step>, t: nat, n: nat): (i: Option<nat>)
    requires n <= |steps|
    ensures i.Some? ==> i.value < n && CallsBy(steps[i.value], t) && forall m :: i.value < m < n ==> !CallsBy(steps[m], t)
    ensures i.None? ==> forall m :: 0 <= m < n ==> !CallsBy(steps[m], t)
  {
    if n == 0 then None else if CallsBy(steps[n - 1], t) then Some(n - 1) else LastCall(steps, t, n - 1)
  }

  /** The first time from step `i` on, and before step `n`, that a thread got the mutex. */
  function FirstLock(steps: seq<Step>, t: nat, i: nat, n: nat): (k: Option<nat>)
    requires i <= n <= |steps|
    ensures k.Some? ==> i <= k.value < n && LocksBy(steps[k.value], t) && forall m :: i <= m < k.value ==> !LocksBy(steps[m], t)
    ensures k.None? ==> forall m :: i <= m < n ==> !LocksBy(steps[m], t)
    decreases n
  {
    if i == n then None
    else
      var k := FirstLock(steps, t, i, n - 1);
      if k.Some? then k else if LocksBy(steps[n - 1], t) then Some(n - 1) else None
  }

  /** The last thing a callback of the server thread transmitted before step `n`. */
  function LastSpeech(steps: seq<Step>, n: nat): (i: Option<nat>)
    requires n <= |steps|
    ensures i.Some? ==> i.value < n && Speaking(steps[i.value]) && forall m :: i.value < m < n ==> !Speaking(steps[m])
  {
    if n == 0 then None else if Speaking(steps[n - 1]) then Some(n - 1) else LastSpeech(steps, n - 1)
  }

  ghost predicate NoReset(ws: seq<World>, steps: seq<Step>, k: nat, j: nat)
    requires k <= j <= |steps| <= |ws|
  {
    forall n :: k <= n < j ==> !Resets(ws[n], steps[n])
  }

  // ----- Generations -----

  lemma GenByStep(w: World, st: Step)
    requires Enabled(w, st)
    ensures Do(w, st).core.dev.gen == w.core.dev.gen + if Resets(w, st) then 1 else 0
  {
  }

  /** A generation ends with a reset and nothing else. */
  lemma {:induction false} GenAcross(ws: seq<World>, steps: seq<Step>, k: nat, j: nat)
    requires Run(ws, steps) && k <= j < |ws|
    ensures |ws| == |steps| + 1 && ws[k].core.dev.gen <= ws[j].core.dev.gen
    ensures ws[k].core.dev.gen == ws[j].core.dev.gen <==> NoReset(ws, steps, k, j)
    decreases j
  {
    hide *;
    Spans(ws, steps);
    if k == j {
      NoResetYet(ws, steps, k);
    } else {
      GenAtStep(ws, steps, j - 1);
      GenAcross(ws, steps, k, j - 1);
      NoResetMore(ws, steps, k, j);
    }
  }

  lemma NoResetYet(ws: seq<World>, steps: seq<Step>, k: nat)
    requires k <= |steps| <= |ws|
    ensures NoReset(ws, steps, k, k)
  {
  }

  lemma NoResetMore(ws: seq<World>, steps: seq<Step>, k: nat, j: nat)
    requires k < j <= |steps| <= |ws|
    ensures NoReset(ws, steps, k, j) <==> NoReset(ws, steps, k, j - 1) && !Resets(ws[j - 1], steps[j - 1])
  {
    hide Resets;
  }

  lemma GenAtStep(ws: seq<World>, steps: seq<Step>, j: nat)
    requires Run(ws, steps) && j < |steps|
    ensures ws[j + 1].core.dev.gen == ws[j].core.dev.gen + if Resets(ws[j], steps[j]) then 1 else 0
  {
    hide Do, Resets, Enabled;
    GenByStep(ws[j], steps[j]);
  }

  // ----- What a thread is about to hand over -----

  predicate Handing(pc: Pc) {
    pc.Locking? || pc.Storing? || pc.Asleep?
  }

  /** A thread that holds or awaits the mutex for a transmit has the endpoint and the data of its last
      call, and the generation of the moment it first got the mutex since. */
  ghost predicate Traced(ws: seq<World>, steps: seq<Step>, pc: Pc, t: nat, n: nat)
    requires |ws| == |steps| + 1 && n < |ws|
  {
    Handing(pc) ==>
      var i := LastCall(steps, t, n);
      && i.Some?
      && pc.ep == steps[i.value].move.ep && pc.data == Cut(steps[i.value].move.data, ENDPOINT_MAX_DATA)
      && var k := FirstLock(steps, t, i.value + 1, n);
         if pc.Locking? && pc.since.None? then k.None?
         else k.Some? && ws[k.value].core.dev.gen == if pc.Locking? then pc.since.value else pc.gen
  }

  /** Another's step leaves a thread where it is, at most notified. */
  predicate Stays(pc: Pc, pc': Pc) {
    pc' == pc || (pc.Asleep? && pc' == pc.(notified := true))
  }

  lemma ThreadStays(w: World, st: Step, t: nat)
    requires Enabled(w, st) && t in Do(w, st).core.threads && !(st.ByThread? && st.t == t)
    ensures t in w.core.threads && Stays(w.core.threads[t].pc, Do(w, st).core.threads[t].pc)
  {
  }

  lemma ThreadMoves(w: World, t: nat, m: Move)
    requires Enabled(w, ByThread(t, m))
    ensures var w' := Do(w, ByThread(t, m));
            && t in w.core.threads && t in w'.core.threads
            && w'.core.threads[t].pc == NextPc(w.core.dev, w.core.threads[t], m)
  {
  }

  lemma TracedStays(ws: seq<World>, steps: seq<Step>, pc: Pc, pc': Pc, t: nat, n: nat)
    requires |ws| == |steps| + 1 && 0 < n < |ws| && !(steps[n - 1].ByThread? && steps[n - 1].t == t)
    requires Traced(ws, steps, pc, t, n - 1) && Stays(pc, pc')
    ensures Traced(ws, steps, pc', t, n)
  {
  }

  lemma TracedMoves(ws: seq<World>, steps: seq<Step>, t: nat, n: nat, m: Move)
    requires |ws| == |steps| + 1 && 0 < n < |ws| && steps[n - 1] == ByThread(t, m)
    requires CanMove(ws[n - 1].core, t, m) && Traced(ws, steps, ws[n - 1].core.threads[t].pc, t, n - 1)
    ensures Traced(ws, steps, NextPc(ws[n - 1].core.dev, ws[n - 1].core.threads[t], m), t, n)
  {
  }

  lemma TracedStep(ws: seq<World>, steps: seq<Step>, t: nat, n: nat)
    requires |ws| == |steps| + 1 && 0 < n < |ws| && Enabled(ws[n - 1], steps[n - 1]) && ws[n] == Do(ws[n - 1], steps[n - 1])
    requires t in ws[n].core.threads && t in ws[n - 1].core.threads
    requires Traced(ws, steps, ws[n - 1].core.threads[t].pc, t, n - 1)
    ensures Traced(ws, steps, ws[n].core.threads[t].pc, t, n)
  {
    hide Traced, Do, NextPc, Stays;
    var w, st := ws[n - 1], steps[n - 1];
    if st.ByThread? && st.t == t {
      ThreadMoves(w, t, st.move);
      TracedMoves(ws, steps, t, n, st.move);
    } else {
      ThreadStays(w, st, t);
      TracedStays(ws, steps, w.core.threads[t].pc, ws[n].core.threads[t].pc, t, n);
    }
  }

  lemma ThreadWasThere(w: World, st: Step, t: nat)
    requires Enabled(w, st) && t in Do(w, st).core.threads
    ensures t in w.core.threads
  {
  }

  lemma NothingHanded(ws: seq<World>, steps: seq<Step>, t: nat)
    requires Run(ws, steps) && t in ws[0].core.threads
    ensures Traced(ws, steps, ws[0].core.threads[t].pc, t, 0)
  {
    hide Enabled, Do;
  }

  lemma StepOf(ws: seq<World>, steps: seq<Step>, j: nat)
    requires Run(ws, steps) && j < |steps|
    ensures |ws| == |steps| + 1 && Enabled(ws[j], steps[j]) && ws[j + 1] == Do(ws[j], steps[j])
  {
    hide Enabled, Do, Init;
  }

  lemma {:induction false} TracedAlways(ws: seq<World>, steps: seq<Step>, t: nat, n: nat)
    requires Run(ws, steps) && n < |ws| && t in ws[n].core.threads
    ensures |ws| == |steps| + 1 && Traced(ws, steps, ws[n].core.threads[t].pc, t, n)
    decreases n
  {
    hide *;
    Spans(ws, steps);
    if n == 0 {
      NothingHanded(ws, steps, t);
    } else {
      StepOf(ws, steps, n - 1);
      ThreadWasThere(ws[n - 1], steps[n - 1], t);
      TracedAlways(ws, steps, t, n - 1);
      TracedStep(ws, steps, t, n);
    }
  }

  // ----- The outcome of a transmit -----

  /** What a thread's transmit comes to at step `j`, where it holds the mutex: the call, when it first
      got the mutex, and whether it waits, stores or gives up. */
  datatype Outcome = Outcome(call: nat, lock: nat, waits: bool, stores: bool)

  /** Told from the run alone. It waits for a full data endpoint, if it may and the device runs. It
      stores unless the device is stopped, a reset came after it first got the mutex, or there is data
      in its way. */
  ghost predicate Decides(ws: seq<World>, steps: seq<Step>, t: nat, j: nat, o: Outcome)
    requires |ws| == |steps| + 1 && j < |steps| && t in ws[j].core.threads && |ws[j].core.dev.bufs| == 16
  {
    && LastCall(steps, t, j) == Some(o.call)
    && FirstLock(steps, t, o.call + 1, j) == Some(o.lock)
    && var dev, ep := ws[j].core.dev, steps[o.call].move.ep;
       && ep < 16
       && (o.waits <==> ep != 0 && !ws[j].core.threads[t].critical && !dev.stopped && dev.bufs[ep] != [])
       && (o.stores <==> !o.waits && !dev.stopped && NoReset(ws, steps, o.lock, j) && (ep == 0 || dev.bufs[ep] == []))
  }

  /** What is stored: the call's own data, at most 512 bytes of it, for the call's own endpoint. */
  ghost function Handed(ws: seq<World>, steps: seq<Step>, o: Outcome): Taken
    requires |ws| == |steps| + 1 && o.call < |steps| && o.lock < |ws|
    requires steps[o.call].ByThread? && steps[o.call].move.Call?
  {
    Taken(steps[o.call].move.ep, Tag(Cut(steps[o.call].move.data, 512), ws[o.lock].core.dev.gen))
  }

  /** However the threads interleave: a transmit waits, stores or gives up as `Decides` tells, it stores
      exactly what its call handed over, and nothing of a generation that a reset has ended. */
  lemma TransmitOutcome(ws: seq<World>, steps: seq<Step>, t: nat, j: nat) returns (o: Outcome)
    requires Run(ws, steps) && j < |steps| && steps[j] == ByThread(t, Store)
    ensures t in ws[j].core.threads && t in ws[j + 1].core.threads && |ws[j].core.dev.bufs| == 16
    ensures Decides(ws, steps, t, j, o)
    ensures o.waits <==> ws[j + 1].core.threads[t].pc.Asleep?
    ensures ws[j + 1].rec.taken == ws[j].rec.taken + if o.stores then [Handed(ws, steps, o)] else []
    ensures ws[j + 1].core.dev.bufs
            == if o.stores then ws[j].core.dev.bufs[steps[o.call].move.ep := Handed(ws, steps, o).data] else ws[j].core.dev.bufs
    ensures o.stores ==> ws[o.lock].core.dev.gen == ws[j].core.dev.gen
  {
    var c := ws[j].core;
    assert Enabled(ws[j], steps[j]) && ws[j + 1] == Do(ws[j], steps[j]);
    TracedAlways(ws, steps, t, j);
    var pc := c.threads[t].pc;
    var i := LastCall(steps, t, j).value;
    var k := FirstLock(steps, t, i + 1, j).value;
    GenAcross(ws, steps, k, j);
    var waits := MustWait(c.dev, pc.ep, !c.threads[t].critical);
    o := Outcome(i, k, waits, Puts(c.dev, c.threads[t]).Some?);
  }

  // ----- What callbacks transmit -----

  /** The server thread's transmit has the endpoint and the data that the callback gave it. */
  predicate Voiced(steps: seq<Step>, c: Spc, n: nat)
    requires n <= |steps|
  {
    (c.Want? || c.Hold?) && c.op.Say? ==>
      var i := LastSpeech(steps, n);
      && i.Some?
      && c.op.ep == steps[i.value].go.ep && c.op.data == Cut(steps[i.value].go.data, ENDPOINT_MAX_DATA)
  }

  lemma VoicedByGo(steps: seq<Step>, c: Spc, g: Go, n: nat)
    requires 0 < n <= |steps| && steps[n - 1] == ByServer(g) && CanGo(c, g)
    ensures Voiced(steps, Goto(c, g), n)
  {
  }

  lemma VoicedByBody(steps: seq<Step>, dev: Device, op: Op, ok: bool, answers: nat, n: nat)
    requires n <= |steps| && |dev.bufs| == 16 && (op.Fetch? || op.Say? ==> op.ep < 16)
    ensures Voiced(steps, BodyNext(dev, op, ok, answers), n)
  {
  }

  lemma VoicedByOther(steps: seq<Step>, w: World, st: Step, n: nat)
    requires 0 < n <= |steps| && steps[n - 1] == st && Enabled(w, st) && !st.ByServer? && !st.Body?
    requires Voiced(steps, w.core.server, n - 1)
    ensures Voiced(steps, Do(w, st).core.server, n)
  {
  }

  lemma VoicedStep(steps: seq<Step>, w: World, n: nat)
    requires 0 < n <= |steps| && Enabled(w, steps[n - 1]) && Voiced(steps, w.core.server, n - 1)
    ensures Voiced(steps, Do(w, steps[n - 1]).core.server, n)
  {
    hide Voiced, Goto, BodyNext, CanGo;
    var st := steps[n - 1];
    if st.ByServer? {
      VoicedByGo(steps, w.core.server, st.go, n);
    } else if st.Body? {
      VoicedByBody(steps, w.core.dev, w.core.server.op, st.ok, |w.rec.answers|, n);
    } else {
      VoicedByOther(steps, w, st, n);
    }
  }

  lemma NothingVoiced(ws: seq<World>, steps: seq<Step>)
    requires Run(ws, steps)
    ensures Voiced(steps, ws[0].core.server, 0)
  {
    hide Enabled, Do;
  }

  lemma {:induction false} VoicedAlways(ws: seq<World>, steps: seq<Step>, n: nat)
    requires Run(ws, steps) && n < |ws|
    ensures |ws| == |steps| + 1 && Voiced(steps, ws[n].core.server, n)
  {
    hide *;
    Spans(ws, steps);
    if n == 0 {
      NothingVoiced(ws, steps);
    } else {
      StepOf(ws, steps, n - 1);
      VoicedAlways(ws, steps, n - 1);
      VoicedStep(steps, ws[n - 1], n);
    }
  }

  /** The server thread in the section of a callback's transmit. */
  predicate Says(w: World, st: Step) {
    st.Body? && w.core.server.Hold? && w.core.server.op.Say?
  }

  /** A callback's transmit never waits: it stores what the callback gave it, at most 512 bytes, unless
      the device is stopped or there is data in its way. On endpoint 0 that is an answer. */
  lemma SpeechOutcome(ws: seq<World>, steps: seq<Step>, j: nat) returns (i: nat, stores: bool)
    requires Run(ws, steps) && j < |steps| && Says(ws[j], steps[j])
    ensures LastSpeech(steps, j) == Some(i) && |ws[j].core.dev.bufs| == 16 && steps[i].go.ep < 16
    ensures var dev, ep := ws[j].core.dev, steps[i].go.ep;
            var data := Tag(Cut(steps[i].go.data, 512), dev.gen);
            && (stores <==> !dev.stopped && (ep == 0 || dev.bufs[ep] == []))
            && ws[j + 1].rec.taken == ws[j].rec.taken + (if stores then [Taken(ep, data)] else [])
            && ws[j + 1].rec.answers == ws[j].rec.answers + (if stores && ep == 0 then [data] else [])
            && ws[j + 1].core.dev.bufs == if stores then dev.bufs[ep := data] else dev.bufs
  {
    assert Enabled(ws[j], steps[j]) && ws[j + 1] == Do(ws[j], steps[j]);
    VoicedAlways(ws, steps, j);
    i := LastSpeech(steps, j).value;
    stores := Speaks(ws[j].core.dev, ws[j].core.server.op).Some?;
  }

  // ----- The stream of an endpoint is what was handed over -----

  /** What a data endpoint gets in step `j`, told by the calls. */
  ghost function Gets(ws: seq<World>, steps: seq<Step>, j: nat, e: nat): seq<byte>
    requires |ws| == |steps| + 1 && j < |steps| && 0 < e < 16 && |ws[j].core.dev.bufs| == 16
  {
    var dev, st := ws[j].core.dev, steps[j];
    if dev.stopped || dev.bufs[e] != [] then []
    else if st.ByThread? && st.move.Store? then
      var i := LastCall(steps, st.t, j);
      if i.None? || steps[i.value].move.ep != e then []
      else
        var k := FirstLock(steps, st.t, i.value + 1, j);
        if k.Some? && NoReset(ws, steps, k.value, j) then Cut(steps[i.value].move.data, 512) else []
    else if Says(ws[j], st) then
      var i := LastSpeech(steps, j);
      if i.Some? && steps[i.value].go.ep == e then Cut(steps[i.value].go.data, 512) else []
    else []
  }

  /** What it got since the last reset. */
  ghost function GotSince(ws: seq<World>, steps: seq<Step>, n: nat, e: nat): seq<byte>
    requires |ws| == |steps| + 1 && n < |ws| && 0 < e < 16 && forall j :: 0 <= j < |ws| ==> |ws[j].core.dev.bufs| == 16
  {
    if n == 0 || Resets(ws[n - 1], steps[n - 1]) then []
    else GotSince(ws, steps, n - 1, e) + Gets(ws, steps, n - 1, e)
  }

  lemma ValuesOfTag(data: seq<byte>, gen: nat)
    ensures Values(Tag(data, gen)) == data
  {
  }

  lemma ValuesJoin(a: seq<Tagged>, b: seq<Tagged>)
    ensures Values(a + b) == Values(a) + Values(b)
  {
  }

  /** One more thing is accepted. */
  lemma AcceptedMore(taken: seq<Taken>, k: Taken, e: nat)
    ensures Values(Accepted(taken + [k], e)) == Values(Accepted(taken, e)) + if k.ep == e then Values(k.data) else []
  {
    AcceptedGrows(taken, k, e);
    ValuesJoin(Accepted(taken, e), k.data);
    assert Accepted(taken, e) + [] == Accepted(taken, e);
  }

  lemma GetsByThread(ws: seq<World>, steps: seq<Step>, t: nat, j: nat, e: nat)
    requires Run(ws, steps) && j < |steps| && steps[j] == ByThread(t, Store) && 0 < e < 16 && |ws[j].core.dev.bufs| == 16
    ensures Values(Accepted(ws[j + 1].rec.taken, e)) == Values(Accepted(ws[j].rec.taken, e)) + Gets(ws, steps, j, e)
  {
    hide Enabled, Do, Init, Accepted;
    var before := Values(Accepted(ws[j].rec.taken, e));
    assert before + [] == before && ws[j].rec.taken + [] == ws[j].rec.taken;
    var o := TransmitOutcome(ws, steps, t, j);
    if o.stores {
      var k := Handed(ws, steps, o);
      AcceptedMore(ws[j].rec.taken, k, e);
      ValuesOfTag(Cut(steps[o.call].move.data, 512), ws[o.lock].core.dev.gen);
    }
  }

  lemma GetsBySpeech(ws: seq<World>, steps: seq<Step>, j: nat, e: nat)
    requires Run(ws, steps) && j < |steps| && Says(ws[j], steps[j]) && 0 < e < 16 && |ws[j].core.dev.bufs| == 16
    ensures Values(Accepted(ws[j + 1].rec.taken, e)) == Values(Accepted(ws[j].rec.taken, e)) + Gets(ws, steps, j, e)
  {
    hide Enabled, Do, Init, Accepted;
    var before := Values(Accepted(ws[j].rec.taken, e));
    assert before + [] == before && ws[j].rec.taken + [] == ws[j].rec.taken;
    var i, stores := SpeechOutcome(ws, steps, j);
    if stores {
      var data := Cut(steps[i].go.data, 512);
      AcceptedMore(ws[j].rec.taken, Taken(steps[i].go.ep, Tag(data, ws[j].core.dev.gen)), e);
      ValuesOfTag(data, ws[j].core.dev.gen);
    }
  }

  /** No other step adds to what a data endpoint accepted, and a reset starts over. */
  lemma OthersGiveNothing(w: World, st: Step, e: nat)
    requires Enabled(w, st) && !(st.ByThread? && st.move.Store?) && !Says(w, st) && 0 < e < 16
    ensures Accepted(Do(w, st).rec.taken, e) == if Resets(w, st) then [] else Accepted(w.rec.taken, e)
  {
    if st.ByServer? {
      GoKeepsTaken(w.core.server, w.rec, st.go);
    } else if st.Body? {
      SectionGivesNothing(w.core.dev, w.core.server.op, w.rec, st.ok, e);
    }
  }

  lemma SectionGivesNothing(dev: Device, op: Op, r: Record, ok: bool, e: nat)
    requires |dev.bufs| == 16 && (op.Fetch? ==> op.ep < 16) && !op.Say? && 0 < e < 16
    ensures Accepted(BodyRecord(r, dev, op, ok).taken, e) == if op.Reset? then [] else Accepted(r.taken, e)
  {
    if op.Own? {
      var put := Speaks(dev, op);
      if put.Some? { AcceptedGrows(r.taken, put.value, e); }
    }
  }

  lemma AllSized(ws: seq<World>, steps: seq<Step>)
    requires Run(ws, steps)
    ensures forall j :: 0 <= j < |ws| ==> |ws[j].core.dev.bufs| == 16
  {
    forall j | 0 <= j < |ws| ensures |ws[j].core.dev.bufs| == 16 { ResetIsolation(ws, steps, j); }
  }

  lemma {:induction false} GotMore(ws: seq<World>, steps: seq<Step>, n: nat, e: nat)
    requires |ws| == |steps| + 1 && 0 < n < |ws| && 0 < e < 16 && forall j :: 0 <= j < |ws| ==> |ws[j].core.dev.bufs| == 16
    ensures GotSince(ws, steps, n, e)
            == if Resets(ws[n - 1], steps[n - 1]) then [] else GotSince(ws, steps, n - 1, e) + Gets(ws, steps, n - 1, e)
  {
    hide Resets, Gets;
  }

  lemma NothingGot(ws: seq<World>, steps: seq<Step>, e: nat)
    requires Run(ws, steps) && 0 < e < 16 && forall j :: 0 <= j < |ws| ==> |ws[j].core.dev.bufs| == 16
    ensures Values(Accepted(ws[0].rec.taken, e)) == [] && GotSince(ws, steps, 0, e) == []
  {
    hide Enabled, Do, Gets, Resets;
  }

  lemma {:induction false} AcceptedIsGot(ws: seq<World>, steps: seq<Step>, n: nat, e: nat)
    requires Run(ws, steps) && n < |ws| && 0 < e < 16 && forall j :: 0 <= j < |ws| ==> |ws[j].core.dev.bufs| == 16
    ensures Values(Accepted(ws[n].rec.taken, e)) == GotSince(ws, steps, n, e)
  {
    hide *;
    Spans(ws, steps);
    if n == 0 {
      NothingGot(ws, steps, e);
    } else {
      AcceptedIsGot(ws, steps, n - 1, e);
      OneStepGives(ws, steps, n - 1, e);
      GotMore(ws, steps, n, e);
    }
  }

  lemma Spans(ws: seq<World>, steps: seq<Step>)
    requires Run(ws, steps)
    ensures |ws| == |steps| + 1
  {
  }

  lemma OneStepGives(ws: seq<World>, steps: seq<Step>, j: nat, e: nat)
    requires Run(ws, steps) && j < |steps| && 0 < e < 16 && |ws[j].core.dev.bufs| == 16
    ensures Values(Accepted(ws[j + 1].rec.taken, e))
            == if Resets(ws[j], steps[j]) then [] else Values(Accepted(ws[j].rec.taken, e)) + Gets(ws, steps, j, e)
  {
    hide Accepted, Do, Enabled;
    var w, st := ws[j], steps[j];
    assert Enabled(w, st) && ws[j + 1] == Do(w, st);
    if st.ByThread? && st.move.Store? {
      GetsByThread(ws, steps, st.t, j, e);
    } else if Says(w, st) {
      GetsBySpeech(ws, steps, j, e);
    } else {
      OthersGiveNothing(w, st, e);
      assert Gets(ws, steps, j, e) == [];
    }
  }

  /** So, however the threads interleave, the bytes the host received from a data endpoint followed by
      those buffered are exactly what was handed over since the last reset, call by call. */
  lemma StreamIsHandedOver(ws: seq<World>, steps: seq<Step>, n: nat, e: nat)
    requires Run(ws, steps) && n < |ws| && 0 < e < 16
    requires !Resetting(ws[n].core.server) && !ws[n].core.dev.stopped
    ensures forall j :: 0 <= j < |ws| ==> |ws[j].core.dev.bufs| == 16
    ensures Values(Sent(ws[n].sched.log, 16 + e)) + Values(ws[n].core.dev.bufs[e]) == GotSince(ws, steps, n, e)
  {
    hide Run, Sent, Accepted, GotSince;
    AllSized(ws, steps);
    StreamConserved(ws, steps, n, e);
    AcceptedIsGot(ws, steps, n, e);
    ValuesJoin(Sent(ws[n].sched.log, 16 + e), ws[n].core.dev.bufs[e]);
  }

  // ----- After a reset, and after a stop -----

  /** After a reset the device is as it was before any client came, but for its generation. */
  lemma ResetStartsOver(ws: seq<World>, steps: seq<Step>, j: nat)
    requires Run(ws, steps) && j < |steps| && Resets(ws[j], steps[j])
    ensures ws[j + 1].core.dev == ws[0].core.dev.(gen := ws[j].core.dev.gen + 1, stopped := ws[j].core.dev.stopped)
  {
    assert Enabled(ws[j], steps[j]) && ws[j + 1] == Do(ws[j], steps[j]);
  }

  lemma StoppedByStep(w: World, st: Step)
    requires Enabled(w, st) && |w.core.dev.bufs| == 16 && (w.core.dev.stopped ==> w.core.dev.bufs == Empty())
    ensures var dev := Do(w, st).core.dev; |dev.bufs| == 16 && (dev.stopped ==> dev.bufs == Empty())
  {
    if st.Body? {
      StoppedBySection(w.core.dev, w.core.server.op);
    }
  }

  lemma StoppedBySection(dev: Device, op: Op)
    requires |dev.bufs| == 16 && (op.Fetch? || op.Say? ==> op.ep < 16) && (dev.stopped ==> dev.bufs == Empty())
    ensures var dev' := BodyDevice(dev, op); |dev'.bufs| == 16 && (dev'.stopped ==> dev'.bufs == Empty())
  {
    if dev.stopped && op.Fetch? { assert Empty()[op.ep := []] == Empty(); }
    if dev.stopped { assert Empty()[0 := []] == Empty(); }
  }

  /** A stopped device holds nothing, whatever its threads still transmit. */
  lemma {:induction false} StoppedIsEmpty(ws: seq<World>, steps: seq<Step>, n: nat)
    requires Run(ws, steps) && n < |ws|
    ensures |ws[n].core.dev.bufs| == 16
    ensures ws[n].core.dev.stopped ==> forall e :: 0 <= e < 16 ==> ws[n].core.dev.bufs[e] == []
  {
    StoppedHolds(ws, steps, n);
  }

  lemma {:induction false} StoppedHolds(ws: seq<World>, steps: seq<Step>, n: nat)
    requires Run(ws, steps) && n < |ws|
    ensures var dev := ws[n].core.dev; |dev.bufs| == 16 && (dev.stopped ==> dev.bufs == Empty())
  {
    if n > 0 {
      hide Do, Enabled, Init;
      StoppedHolds(ws, steps, n - 1);
      StoppedByStep(ws[n - 1], steps[n - 1]);
    }
  }
}
