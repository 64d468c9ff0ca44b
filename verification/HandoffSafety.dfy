/** What holds in every state of every run of `Handoff`. */
module HandoffSafety {
  import opened Urbs
  import opened Schedule
  import opened Handoff
  import opened HandoffLocks
  import opened HandoffSession
  import opened HandoffBytes
  import opened HandoffWakeups
  import opened HandoffControl
  import opened HandoffReplies

  ghost predicate InSession(w: World) {
    Sessions(w.core.server, w.sched, w.rec)
  }

  ghost predicate Threads(w: World) {
    Locks(w.core) && Sleepers(w.core)
  }

  ghost predicate Isolation(w: World) {
    Isolated(w.core.dev, w.sched.log)
  }

  ghost predicate Conservation(w: World) {
    Conserved(w.core.server, w.core.dev, w.sched.log, w.rec.taken)
  }

  ghost predicate ServerWakes(w: World) {
    Wakeups(w.core, w.sched)
  }

  ghost predicate RepliesFit(w: World) {
    Controls(w.core.server, w.core.dev, w.rec)
  }

  ghost predicate RepliesCount(w: World) {
    Tied(w.core.server, w.sched, w.rec)
  }

  ghost predicate Safe(w: World) {
    && InSession(w) && Threads(w) && Isolation(w) && Conservation(w)
    && ServerWakes(w) && RepliesFit(w) && RepliesCount(w)
  }

  // ----- The session -----

  lemma SessionByServer(w: World, g: Go)
    requires Enabled(w, ByServer(g)) && InSession(w)
    ensures InSession(Do(w, ByServer(g)))
  {
    SessionsByServer(w.core.server, w.sched, w.rec, g);
  }

  lemma SessionByBody(w: World, ok: bool)
    requires Enabled(w, Body(ok)) && InSession(w)
    ensures InSession(Do(w, Body(ok)))
  {
    SessionsByBody(w.core.dev, w.core.server.op, w.sched, w.rec, ok, |w.rec.answers|);
  }

  lemma SessionKept(w: World, st: Step)
    requires Enabled(w, st) && InSession(w)
    ensures InSession(Do(w, st))
  {
    if st.ByServer? {
      SessionByServer(w, st.go);
    } else if st.Body? {
      SessionByBody(w, st.ok);
    } else {
      var w' := Do(w, st);
      SessionsBySame(w.core.server, w'.core.server, w.sched, w.rec, w'.rec);
    }
  }

  // ----- Threads -----

  lemma ThreadsKept(w: World, st: Step)
    requires Enabled(w, st) && Threads(w)
    ensures Threads(Do(w, st))
  {
    match st
    case ByThread(t, m) => LocksByThread(w.core, t, m); SleepersByThread(w.core, t, m);
    case ByServer(g) => LocksByServer(w.core, g); SleepersByServer(w.core, g);
    case Body(ok) => LocksByBody(w.core, ok, |w.rec.answers|); SleepersByBody(w.core, ok, |w.rec.answers|);
    case _ =>
  }

  // ----- Bytes -----

  lemma IsolationKept(w: World, st: Step)
    requires Enabled(w, st) && Isolation(w) && Orderly(w.sched, w.rec) && PhaseOk(PhaseOf(w.core.server), w.sched, w.rec)
    ensures Isolation(Do(w, st))
  {
    var c := w.core;
    match st
    case ByThread(t, m) => IsolatedByThread(c, w.sched.log, t, m);
    case ByServer(g) => IsolatedByEffect(c.dev, w.sched, GoEffect(c.server, g));
    case Body(ok) =>
      IsolatedByEffect(c.dev, w.sched, BodyEffect(c.dev, c.server.op, ok));
      IsolatedByBody(c.dev, Do(w, st).sched.log, c.server.op);
    case _ =>
  }

  lemma ConservationByServer(w: World, g: Go)
    requires Enabled(w, ByServer(g)) && Conservation(w) && InSession(w)
    ensures Conservation(Do(w, ByServer(g)))
  {
    ConservedByServer(w.core.server, w.core.dev, w.sched, w.rec, g);
  }

  lemma ConservationByBody(w: World, ok: bool)
    requires Enabled(w, Body(ok)) && Conservation(w) && WorkOk(w.core.server, w.sched)
    requires Orderly(w.sched, w.rec) && PhaseOk(PhaseOf(w.core.server), w.sched, w.rec)
    ensures Conservation(Do(w, Body(ok)))
  {
    ConservedByBody(w.core.dev, w.core.server.op, w.sched, w.rec, ok, |w.rec.answers|);
  }

  lemma ConservationByThread(w: World, t: nat, m: Move)
    requires Enabled(w, ByThread(t, m)) && Conservation(w)
    ensures Conservation(Do(w, ByThread(t, m)))
  {
    ConservedByThread(w.core, w.rec, w.sched.log, t, m);
  }

  lemma ConservationByLock(w: World, st: Step)
    requires (st.TakeLock? || st.EnterCallback? || st.Return?) && Enabled(w, st) && Conservation(w)
    ensures Conservation(Do(w, st))
  {
  }

  lemma ConservationKept(w: World, st: Step)
    requires Enabled(w, st) && Conservation(w) && InSession(w)
    ensures Conservation(Do(w, st))
  {
    SessionParts(w);
    hide *;
    if st.ByThread? {
      ConservationByThread(w, st.t, st.move);
    } else if st.ByServer? {
      ConservationByServer(w, st.go);
    } else if st.Body? {
      ConservationByBody(w, st.ok);
    } else {
      ConservationByLock(w, st);
    }
  }

  lemma SessionParts(w: World)
    requires InSession(w)
    ensures WorkOk(w.core.server, w.sched) && Orderly(w.sched, w.rec)
    ensures PhaseOk(PhaseOf(w.core.server), w.sched, w.rec)
  {
    SchedOrderly(w.core.server, w.sched, w.rec);
  }

  // ----- Wake-ups -----

  lemma ServerWakesKept(w: World, st: Step)
    requires Enabled(w, st) && ServerWakes(w) && Orderly(w.sched, w.rec)
    requires PhaseOk(PhaseOf(w.core.server), w.sched, w.rec) && WorkOk(w.core.server, w.sched)
    ensures ServerWakes(Do(w, st))
  {
    match st
    case ByThread(t, m) => WakeupsByThread(w.core, w.sched, t, m);
    case ByServer(g) => WakeupsByServer(w.core, w.sched, w.rec, g);
    case Body(ok) => WakeupsByBody(w.core, w.sched, w.rec, ok, |w.rec.answers|);
    case _ =>
  }

  // ----- Control replies -----

  lemma RepliesFitKept(w: World, st: Step)
    requires Enabled(w, st) && RepliesFit(w)
    ensures RepliesFit(Do(w, st))
  {
    var c := w.core;
    match st
    case ByThread(t, m) => ControlsByThread(c, w.rec, t, m);
    case ByServer(g) => ControlsByServer(c.server, c.dev, w.rec, g);
    case Body(ok) => ControlsByBody(c.dev, c.server.op, w.rec, ok);
    case _ =>
  }

  lemma CountByThread(w: World, t: nat, m: Move)
    requires Enabled(w, ByThread(t, m)) && RepliesCount(w)
    ensures RepliesCount(Do(w, ByThread(t, m)))
  {
    TiedStays(w.core.server, w.core.server, w.sched, w.sched, w.rec, Do(w, ByThread(t, m)).rec);
  }

  lemma CountByServer(w: World, g: Go)
    requires Enabled(w, ByServer(g)) && RepliesCount(w) && WorkOk(w.core.server, w.sched)
    ensures RepliesCount(Do(w, ByServer(g)))
  {
    TiedByServer(w.core.server, w.sched, w.rec, g);
  }

  lemma CountByBody(w: World, ok: bool)
    requires Enabled(w, Body(ok)) && RepliesCount(w) && WorkOk(w.core.server, w.sched)
    ensures RepliesCount(Do(w, Body(ok)))
  {
    TiedByBody(w.core.dev, w.core.server.op, w.sched, w.rec, ok, |w.rec.answers|);
  }

  lemma CountByLock(w: World, st: Step)
    requires (st.TakeLock? || st.EnterCallback? || st.Return?) && Enabled(w, st) && RepliesCount(w)
    ensures RepliesCount(Do(w, st))
  {
    PhaseBySame(w.core.server, Do(w, st).core.server);
    TiedStays(w.core.server, Do(w, st).core.server, w.sched, w.sched, w.rec, w.rec);
  }

  lemma RepliesCountKept(w: World, st: Step)
    requires Enabled(w, st) && RepliesCount(w) && WorkOk(w.core.server, w.sched)
    ensures RepliesCount(Do(w, st))
  {
    hide *;
    if st.ByThread? {
      CountByThread(w, st.t, st.move);
    } else if st.ByServer? {
      CountByServer(w, st.go);
    } else if st.Body? {
      CountByBody(w, st.ok);
    } else {
      CountByLock(w, st);
    }
  }

  lemma SafeKept(w: World, st: Step)
    requires Enabled(w, st) && Safe(w)
    ensures Safe(Do(w, st))
  {
    SchedOrderly(w.core.server, w.sched, w.rec);
    SessionKept(w, st);
    ThreadsKept(w, st);
    IsolationKept(w, st);
    ConservationKept(w, st);
    ServerWakesKept(w, st);
    RepliesFitKept(w, st);
    RepliesCountKept(w, st);
  }

  lemma SafeAtStart(w: World)
    requires Init(w)
    ensures Safe(w)
  {
  }

  lemma {:induction false} RunIsSafe(ws: seq<World>, steps: seq<Step>, i: nat)
    requires Run(ws, steps) && i < |ws|
    ensures Safe(ws[i])
  {
    if i == 0 {
      SafeAtStart(ws[0]);
    } else {
      RunIsSafe(ws, steps, i - 1);
      SafeKept(ws[i - 1], steps[i - 1]);
    }
  }

  // ----- Theorems -----

  lemma RunInSession(ws: seq<World>, steps: seq<Step>, i: nat)
    requires Run(ws, steps) && i < |ws|
    ensures InSession(ws[i])
  {
    RunIsSafe(ws, steps, i);
  }

  lemma RunServerWakes(ws: seq<World>, steps: seq<Step>, i: nat)
    requires Run(ws, steps) && i < |ws|
    ensures ServerWakes(ws[i]) && PhaseOk(PhaseOf(ws[i].core.server), ws[i].sched, ws[i].rec)
  {
    RunIsSafe(ws, steps, i);
  }

  lemma RunHygiene(ws: seq<World>, steps: seq<Step>, i: nat)
    requires Run(ws, steps) && i < |ws|
    ensures PhaseOk(PhaseOf(ws[i].core.server), ws[i].sched, ws[i].rec) && Orderly(ws[i].sched, ws[i].rec)
    ensures Starting(ws[i].core.server) ==> ws[i].core.dev.conf == 0
  {
    RunIsSafe(ws, steps, i);
    SchedOrderly(ws[i].core.server, ws[i].sched, ws[i].rec);
  }

  /** No lost wake-up for the server: whenever it is about to wait, each waiting transfer it could
      deliver has the event set, or a thread about to set it, or its endpoint's next poll no
      sooner than the wait ends. */
  lemma ServerNeverSleepsThroughData(ws: seq<World>, steps: seq<Step>, i: nat, j: nat)
    requires Run(ws, steps) && i < |ws| && ws[i].core.server.Wait?
    requires j < |ws[i].sched.queue.pending| && |ws[i].core.dev.bufs| == 16
    requires Deliverable(ws[i].sched.queue.pending[j], ws[i].core.dev.bufs)
    ensures Sized(ws[i].sched.queue)
    ensures Waker(ws[i].core) || WaitsForPoll(ws[i].sched, ws[i].sched.queue.pending[j])
  {
    RunServerWakes(ws, steps, i);
    HeardAtWait(ws[i].core, ws[i].sched, j);
  }

  /** No lost wake-up for transmitters: a thread sleeping un-notified has data in its way on a data
      endpoint of a running device, and is in no critical section. The server never sleeps. */
  lemma TransmittersAreWoken(ws: seq<World>, steps: seq<Step>, i: nat, t: nat)
    requires Run(ws, steps) && i < |ws| && t in ws[i].core.threads
    requires ws[i].core.threads[t].pc.Asleep? && !ws[i].core.threads[t].pc.notified
    ensures var (c, pc) := (ws[i].core, ws[i].core.threads[t].pc);
            0 < pc.ep < |c.dev.bufs| && c.dev.bufs[pc.ep] != [] && !c.dev.stopped && !c.threads[t].critical && t != 0
  {
    RunIsSafe(ws, steps, i);
  }

  /** Reset isolation: every byte in a buffer, and every byte of every reply the current host got, was
      transmitted after the last reset. */
  lemma ResetIsolation(ws: seq<World>, steps: seq<Step>, i: nat)
    requires Run(ws, steps) && i < |ws|
    ensures var w := ws[i];
            && |w.core.dev.bufs| == 16 && (forall e :: 0 <= e < 16 ==> From(w.core.dev.bufs[e], w.core.dev.gen))
            && (forall k :: 0 <= k < |w.sched.log| && w.sched.log[k].Ret? ==> From(w.sched.log[k].data, w.core.dev.gen))
  {
    RunIsSafe(ws, steps, i);
  }

  /** Byte stream conservation: on a data endpoint, what the host received followed by what is
      buffered is exactly what was accepted since the last reset. */
  lemma StreamConserved(ws: seq<World>, steps: seq<Step>, i: nat, e: nat)
    requires Run(ws, steps) && i < |ws| && 1 <= e < 16
    requires !Resetting(ws[i].core.server) && !ws[i].core.dev.stopped
    ensures var w := ws[i];
            |w.core.dev.bufs| == 16 && Sent(w.sched.log, 16 + e) + w.core.dev.bufs[e] == Accepted(w.rec.taken, e)
  {
    RunIsSafe(ws, steps, i);
  }

  /** Control replies belong to their request, and are what the host got: the RET_SUBMIT of the request
      carries the reply's data. */
  lemma ControlRepliesAreProper(ws: seq<World>, steps: seq<Step>, i: nat, k: nat)
    requires Run(ws, steps) && i < |ws| && k < |ws[i].rec.replies|
    ensures Proper(ws[i].rec.replies[k])
    ensures Logged(ws[i].sched.log, ws[i].rec.replies[k].req.seqnum, ws[i].rec.replies[k].data)
  {
    RunIsSafe(ws, steps, i);
  }

  /** Each control request of a session is replied to once, in the order they came: all of them have
      been, but for the one being served. */
  lemma ControlRequestsAreReplied(ws: seq<World>, steps: seq<Step>, i: nat)
    requires Run(ws, steps) && i < |ws|
    ensures Counted(RequestOf(ws[i].core.server), ws[i].rec.asked, ws[i].rec.replies)
  {
    RunIsSafe(ws, steps, i);
  }

  /** What the library itself answers is among the answers of its request, and is what the host gets,
      cut to the requested length, unless someone else answers as well. */
  lemma LibraryAnswersItself(ws: seq<World>, steps: seq<Step>, i: nat, k: nat)
    requires Run(ws, steps) && i < |ws| && k < |ws[i].rec.replies|
    requires SelfAnswered(ws[i].rec.replies[k].req.action) && ws[i].rec.replies[k].req.toHost
    ensures var p := ws[i].rec.replies[k];
            var words := if p.req.action.Says? then Cut(p.req.action.data, 512) else [p.conf];
            && !p.stall && Told(p.given, words) && p.data == Cut(LastOf(p.given), p.req.length)
            && (|p.given| == 1 ==> Values(p.data) == Cut(words, p.req.length))
  {
    hide Run, Proper;
    ControlRepliesAreProper(ws, steps, i, k);
    OwnWords(ws[i].rec.replies[k]);
  }

  /** A request that the library answers itself, or whose callback transmits on endpoint 0 before it
      returns, does not stall: unlike a device thread's, such an answer is never late. */
  lemma OwnAnswersNeverStall(ws: seq<World>, steps: seq<Step>, i: nat, k: nat)
    requires Run(ws, steps) && i < |ws| && k < |ws[i].rec.replies|
    requires var p := ws[i].rec.replies[k]; (p.own || SelfAnswered(p.req.action)) && !p.req.action.Unsupported?
    ensures var p := ws[i].rec.replies[k];
            !p.stall && (p.req.toHost ==> p.data == Cut(LastOf(p.given), p.req.length))
  {
    hide Run, Proper;
    ControlRepliesAreProper(ws, steps, i, k);
    OwnAnswerIsInTime(ws[i].rec.replies[k]);
  }

  /** However the threads interleave, a session keeps the invariant of `Schedule`. `HandoffRuns` shows
      that it is a run of it. */
  lemma SessionsObeySchedule(ws: seq<World>, steps: seq<Step>, i: nat)
    requires Run(ws, steps) && i < |ws| && ws[i].rec.table.Some?
    ensures FreshTable(ws[i].rec.table.value) && Inv(ws[i].sched, Intervals(ws[i].rec.table.value))
  {
    RunIsSafe(ws, steps, i);
  }

  /** Session hygiene: with no client served nothing is imported and nothing is pending, and a
      session starts with an empty queue, zeroed pacing and configuration 0. */
  lemma SessionHygiene(ws: seq<World>, steps: seq<Step>, i: nat)
    requires Run(ws, steps) && i < |ws|
    ensures ws[i].core.server.Idle? || ws[i].core.server.Greeting? ==>
              !ws[i].rec.imported && ws[i].sched.queue.pending == []
    ensures i < |steps| && steps[i] == ByServer(Attached(true)) ==>
              && ws[i + 1].rec.imported && !ws[i].rec.imported
              && ws[i + 1].sched.queue.pending == [] && FreshTable(ws[i + 1].sched.queue.table)
              && ws[i + 1].core.dev.conf == 0 && ws[i + 1].sched.log == []
  {
    RunHygiene(ws, steps, i);
  }
}
