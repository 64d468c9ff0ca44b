/** A run in which an answer comes too late: the host sees a stall, although the request was answered
    before the reply was written. */
module HandoffExample {
  import opened Urbs
  import opened Schedule
  import opened Handoff
  import D = Descriptors

  /** Some run leads here. */
  ghost predicate Reached(w: World) {
    exists ws, steps :: Run(ws, steps) && ws[|steps|] == w
  }

  lemma ReachedAtStart(w: World)
    requires Init(w)
    ensures Reached(w)
  {
    assert Run([w], []) && [w][0] == w;
  }

  lemma ReachedNext(w: World, st: Step)
    requires Reached(w) && Enabled(w, st)
    ensures Reached(Do(w, st))
  {
    hide Init, Enabled, Do;
    var ws, steps :| Run(ws, steps) && ws[|steps|] == w;
    var ws', steps' := ws + [Do(w, st)], steps + [st];
    assert Run(ws', steps') && ws'[|steps'|] == Do(w, st);
  }

  /** A configuration that is only its own descriptor. */
  const CONFIG: seq<byte> := [9, 2, 9, 0, 0, 1, 0, 0x80, 50]

  /** What the example needs to know of a world between its steps: one device thread outside the
      library, no lock held, and nothing replied yet. */
  ghost predicate Calm(w: World) {
    && |w.core.dev.bufs| == 16 && w.core.dev.bufs[0] == [] && !w.core.dev.stopped
    && w.core.epLock.None? && w.core.threads == map[1 := Thread(Outside, false)]
    && Sized(w.sched.queue) && !w.sched.scanning && w.rec.replies == []
  }

  lemma TakesLock(w: World)
    requires Reached(w) && w.core.server.Want? && w.core.epLock.None?
    ensures Reached(w.(core := DoTakeLock(w.core)))
  {
    ReachedNext(w, TakeLock);
  }

  lemma Connects() returns (w: World)
    ensures Reached(w) && Calm(w) && w.core.server.Greeting?
  {
    var queue := Queue([], seq(32, _ => NO_ENDPOINT), 0);
    var start := World(Core(Device(Empty(), 0, false, 0, false), false, None, None, Idle, map[1 := Thread(Outside, false)]),
                       Sched(queue, false, 0, 0, None, map[], []), Record(false, None, [], [], false, [], [], 0));
    ReachedAtStart(start);
    hide Reached;
    ReachedNext(start, ByServer(Accept));
    w := Do(start, ByServer(Accept));
  }

  lemma Imports(w0: World) returns (w: World)
    requires Reached(w0) && Calm(w0) && w0.core.server.Greeting?
    ensures Reached(w) && Calm(w) && w.core.server == Want(Reset(true)) && w.sched.open.None? && w.sched.order == map[]
  {
    hide Reached, D.Walked;
    ReachedNext(w0, ByServer(Import(CONFIG)));
    w := Do(w0, ByServer(Import(CONFIG)));
  }

  /** A client connects and imports the device. */
  lemma Attaches() returns (w: World)
    ensures Reached(w) && Calm(w) && w.core.server.Wait? && w.sched.open.None? && w.sched.order == map[]
  {
    hide Reached;
    w := Connects();
    w := Imports(w);
    w := Resets(w);
    ReachedNext(w, ByServer(Attached(true)));
    w := Do(w, ByServer(Attached(true)));
  }

  lemma Resets(w0: World) returns (w: World)
    requires Reached(w0) && Calm(w0) && w0.core.server == Want(Reset(true))
    ensures Reached(w) && Calm(w) && w.core.server == Working(Attach) && w.sched == w0.sched
  {
    TakesLock(w0);
    w := w0.(core := DoTakeLock(w0.core));
    ReachedNext(w, Body(true));
    w := Do(w, Body(true));
    ReachedNext(w, ByServer(Clean));
    w := Do(w, ByServer(Clean));
  }

  /** A section of the server that leaves the session alone. */
  lemma RunsSection(w0: World) returns (w: World)
    requires Reached(w0) && Calm(w0) && w0.core.server.Want? && (w0.core.server.op.BeginControl? || w0.core.server.op.Flag?)
    requires w0.core.server.op.BeginControl? ==> w0.core.server.op.req.action.Silent?
    ensures Reached(w) && Calm(w) && w.sched == w0.sched
    ensures w.core.server == BodyNext(w0.core.dev, w0.core.server.op, true, |w0.rec.answers|)
    ensures w.core.dev == BodyDevice(w0.core.dev, w0.core.server.op)
    ensures w.rec.answers == if w0.core.server.op.BeginControl? then [] else w0.rec.answers
  {
    TakesLock(w0);
    w := w0.(core := DoTakeLock(w0.core));
    ReachedNext(w, Body(true));
    w := Do(w, Body(true));
  }

  /** A request that the library supports and has no answer to, such as a string it does not have. */
  const ASKED: Request := Request(7, true, 1, Silent)

  lemma Asks() returns (w: World)
    ensures Reached(w) && Calm(w) && w.core.server == Want(BeginControl(ASKED)) && w.sched.open == Some(7)
  {
    hide Reached;
    w := Attaches();
    ReachedNext(w, ByServer(ReadControl(ASKED)));
    w := Do(w, ByServer(ReadControl(ASKED)));
  }

  lemma Controls(w0: World) returns (w: World)
    requires Reached(w0) && Calm(w0) && w0.core.server == Working(Control(ASKED))
    ensures Reached(w) && Calm(w) && w.core.server == Want(Flag(ASKED)) && w.core.dev == w0.core.dev
    ensures w.sched == w0.sched && w.rec == w0.rec
  {
    hide Reached;
    ReachedNext(w0, ByServer(Controlled(true)));
    w := Do(w0, ByServer(Controlled(true)));
  }

  /** The server has looked, and nobody had answered. */
  lemma Looks() returns (w: World)
    ensures Reached(w) && Calm(w) && w.core.server == Want(Reply(ASKED, false, 0))
    ensures w.sched.open == Some(7) && w.rec.answers == []
  {
    hide Reached, Calm;
    w := Asks();
    w := RunsSection(w);
    w := Controls(w);
    w := RunsSection(w);
  }

  /** A device thread answers now. */
  lemma Answers(w0: World) returns (w: World)
    requires Reached(w0) && Calm(w0) && w0.rec.answers == []
    ensures Reached(w) && w.core.server == w0.core.server && w.core.epLock.None? && w.sched == w0.sched
    ensures |w.core.dev.bufs| == 16 && w.rec.replies == [] && |w.rec.answers| == 1
  {
    hide Reached;
    ReachedNext(w0, ByThread(1, Call(0, [3])));
    w := Do(w0, ByThread(1, Call(0, [3])));
    ReachedNext(w, ByThread(1, Lock));
    w := Do(w, ByThread(1, Lock));
    ReachedNext(w, ByThread(1, Store));
    w := Do(w, ByThread(1, Store));
  }

  /** The reply is written. */
  lemma Replies(w0: World) returns (w: World)
    requires Reached(w0) && w0.core.server == Want(Reply(ASKED, false, 0)) && w0.core.epLock.None?
    requires w0.sched.open == Some(7) && !w0.sched.scanning && Sized(w0.sched.queue)
    requires |w0.core.dev.bufs| == 16 && w0.rec.replies == []
    ensures Reached(w) && |w.rec.replies| == 1
    ensures var p := w.rec.replies[0]; p.req == ASKED && p.stall && p.given == w0.rec.answers
  {
    hide Reached;
    TakesLock(w0);
    w := w0.(core := DoTakeLock(w0.core));
    ReachedNext(w, Body(true));
    w := Do(w, Body(true));
  }

  /** Some run has a reply that stalls although the request is supported and was answered: an answer
      given after the server's look is too late. */
  lemma LateAnswerStalls()
    ensures exists w :: Reached(w) && |w.rec.replies| == 1
                        && w.rec.replies[0].req == ASKED && w.rec.replies[0].stall && w.rec.replies[0].given != []
  {
    hide Reached;
    var w := Looks();
    w := Answers(w);
    w := Replies(w);
  }
}
