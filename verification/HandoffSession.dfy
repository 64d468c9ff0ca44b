/** Where the server thread is in its loop, and what that says about the session. */
module HandoffSession {
  import opened Urbs
  import opened Schedule
  import opened Handoff
  import D = Descriptors

  /** Off: no session. Attaching: a session that has not started. Ready: between requests.
      Passing: in a completion pass. Serving: one request is open. Ending: told to stop. */
  datatype Phase = Off | Attaching | Ready | Passing | Serving | Ending

  function TaskPhase(task: Task): Phase {
    match task
    case Attach => Attaching
    case Detach => Off
    case Streaming => Passing
    case _ => Serving
  }

  function OpPhase(op: Op): Phase {
    match op
    case Reset(attach) => if attach then Attaching else Off
    case Fetch(_, _) => Passing
    case Say(task, _, _) => TaskPhase(task)
    case Halt => Ending
    case _ => Serving
  }

  function PhaseOf(s: Spc): Phase {
    match s
    case Idle => Off
    case Greeting => Off
    case Wait => Ready
    case Clear => Ready
    case Sample => Ready
    case Visiting => Passing
    case Stopped => Ending
    case Working(task) => TaskPhase(task)
    case Calling(task) => TaskPhase(task)
    case InCallback(task) => TaskPhase(task)
    case Notifying(task) => TaskPhase(task)
    case Want(op) => OpPhase(op)
    case Hold(op) => OpPhase(op)
    case Cleaning(attach) => if attach then Attaching else Off
  }

  /** The task the server may be running callbacks for. */
  function TaskOf(s: Spc): Option<Task> {
    match s
    case Working(task) => Some(task)
    case Calling(task) => Some(task)
    case InCallback(task) => Some(task)
    case Notifying(task) => Some(task)
    case Want(op) => if op.Say? then Some(op.task) else None
    case Hold(op) => if op.Say? then Some(op.task) else None
    case _ => None
  }

  /** The control request the server is serving. */
  function RequestOf(s: Spc): Option<Request> {
    match s
    case Want(op) => OpRequest(op)
    case Hold(op) => OpRequest(op)
    case _ => if TaskOf(s).Some? && TaskOf(s).value.Control? then Some(TaskOf(s).value.req) else None
  }

  function OpRequest(op: Op): Option<Request> {
    match op
    case BeginControl(req) => Some(req)
    case Flag(req) => Some(req)
    case Reply(req, _, _) => Some(req)
    case Own(req, _) => Some(req)
    case Say(task, _, _) => if task.Control? then Some(task.req) else None
    case _ => None
  }

  /** What the session looks like in each phase. Without one the queue is empty, and a session
      that starts has an empty queue and zeroed pacing. */
  ghost predicate PhaseOk(p: Phase, s: Sched<Tagged>, r: Record) {
    && Sized(s.queue)
    && (r.imported ==> r.table.Some?)
    && match p
       case Off => !r.imported && r.table.None?
       case Attaching => !r.imported && r.table.Some? && FreshTable(r.table.value) && s == Fresh(r.table.value)
       case Ready => r.imported && Between(s)
       case Passing => r.imported && s.scanning && s.open.None?
       case Serving => r.imported && !s.scanning && s.open.Some?
       case Ending => true
  }

  /** What the server knows about the transfer it works on. */
  ghost predicate WorkOk(c: Spc, s: Sched<Tagged>) {
    && (TaskOf(c) == Some(Streaming) ==>
          At(s) && IsDue(s.queue, Current(s), s.now) && Current(s).isochronous)
    && ((c.Want? || c.Hold?) && c.op.Fetch? ==>
          && At(s) && IsDue(s.queue, Current(s), s.now) && !Current(s).isochronous
          && c.op.ep == Current(s).ep % 16 && c.op.length == Current(s).length)
    && (TaskOf(c).Some? && TaskOf(c).value.Queueing? ==>
          var u := TaskOf(c).value.urb; s.open == Some(u.seqnum) && Canonical(u) && u.isochronous)
    && (RequestOf(c).Some? ==> s.open == Some(RequestOf(c).value.seqnum))
  }

  /** A session obeys the schedule, no session leaves nothing behind. */
  ghost predicate SchedOk(s: Sched<Tagged>, r: Record) {
    if r.table.Some? then FreshTable(r.table.value) && Inv(s, Intervals(r.table.value))
    else s.queue.pending == [] && s.log == [] && !s.scanning && s.open.None? && s.order == map[]
  }

  /** The little of it that most arguments need. */
  predicate Orderly(s: Sched<Tagged>, r: Record) {
    && Sized(s.queue)
    && (s.scanning ==> s.open.None? && s.idx <= |s.queue.pending|)
    && (r.table.None? ==> s.queue.pending == [] && s.log == [] && !s.scanning)
  }

  lemma SchedOrderly(c: Spc, s: Sched<Tagged>, r: Record)
    requires Sessions(c, s, r)
    ensures Orderly(s, r)
  {
  }

  ghost predicate Sessions(c: Spc, s: Sched<Tagged>, r: Record) {
    PhaseOk(PhaseOf(c), s, r) && WorkOk(c, s) && SchedOk(s, r)
  }

  /** What an effect does to the server's place in its loop, all the phases need to know. */
  ghost predicate Shape(s: Sched<Tagged>, s': Sched<Tagged>, e: Effect) {
    && Sized(s'.queue)
    && match e
       case Stay => s' == s
       case Begins(table) => s' == Fresh(table)
       case Forget => s'.queue.pending == [] && s'.log == [] && s'.order == map[] && Between(s')
       case Act(a) =>
         && s'.scanning == (a.Begin? || a.Scan?)
         && s'.open == (match a
                        case Open(q) => Some(q)
                        case QueueIso(_, _) => if |s.queue.pending| == MAX_PENDING_URBS then s.open else None
                        case _ => None)
  }

  lemma ShapeOf(s: Sched<Tagged>, e: Effect)
    requires Sized(s.queue) && (s.scanning ==> s.open.None?) && CanApply(s, e)
    requires e.Begins? ==> FreshTable(e.table)
    ensures Shape(s, Apply(s, e), e)
  {
  }

  lemma PhaseByServerAtEnd(c: Spc, s: Sched<Tagged>, s': Sched<Tagged>, r: Record, g: Go)
    requires PhaseOk(PhaseOf(c), s, r) && CanGo(c, g) && Shape(s, s', GoEffect(c, g))
    requires g.Queued? ==> (g.full <==> |s.queue.pending| == MAX_PENDING_URBS)
    requires EndsTask(g)
    ensures PhaseOk(PhaseOf(Goto(c, g)), s', GoRecord(r, c, g))
  {
  }

  lemma PhaseByServerAtCommand(c: Spc, s: Sched<Tagged>, s': Sched<Tagged>, r: Record, g: Go)
    requires PhaseOk(PhaseOf(c), s, r) && CanGo(c, g) && Shape(s, s', GoEffect(c, g))
    requires HearsClient(g)
    ensures PhaseOk(PhaseOf(Goto(c, g)), s', GoRecord(r, c, g))
  {
  }

  lemma PhaseByImport(c: Spc, s: Sched<Tagged>, s': Sched<Tagged>, r: Record, g: Go)
    requires PhaseOk(PhaseOf(c), s, r) && CanGo(c, g) && Shape(s, s', GoEffect(c, g)) && g.Import?
    ensures PhaseOk(PhaseOf(Goto(c, g)), s', GoRecord(r, c, g))
  {
    D.ImportedIsFresh(g.config);
  }

  lemma PhaseByServerElse(c: Spc, s: Sched<Tagged>, s': Sched<Tagged>, r: Record, g: Go)
    requires PhaseOk(PhaseOf(c), s, r) && CanGo(c, g) && Shape(s, s', GoEffect(c, g))
    requires !EndsTask(g) && !HearsClient(g) && !g.Import?
    ensures PhaseOk(PhaseOf(Goto(c, g)), s', GoRecord(r, c, g))
  {
  }

  lemma PhaseByServer(c: Spc, s: Sched<Tagged>, s': Sched<Tagged>, r: Record, g: Go)
    requires PhaseOk(PhaseOf(c), s, r) && CanGo(c, g) && Shape(s, s', GoEffect(c, g))
    requires g.Queued? ==> (g.full <==> |s.queue.pending| == MAX_PENDING_URBS)
    ensures PhaseOk(PhaseOf(Goto(c, g)), s', GoRecord(r, c, g))
  {
    hide *;
    if EndsTask(g) {
      PhaseByServerAtEnd(c, s, s', r, g);
    } else if HearsClient(g) {
      PhaseByServerAtCommand(c, s, s', r, g);
    } else if g.Import? {
      PhaseByImport(c, s, s', r, g);
    } else {
      PhaseByServerElse(c, s, s', r, g);
    }
  }

  /** The server works on no transfer and no request. */
  predicate Free(c: Spc) {
    && (c.Want? || c.Hold? ==> c.op.Reset? || c.op.Halt?)
    && (TaskOf(c).Some? ==> var t := TaskOf(c).value; !t.Streaming? && !t.Queueing? && !t.Control?)
  }

  lemma FreeAtEnd(c: Spc, g: Go)
    requires CanGo(c, g) && EndsTask(g)
    ensures Free(Goto(c, g)) || (g.Controlled? && c.task.req.toHost)
  {
  }

  lemma FreeWork(c: Spc, s: Sched<Tagged>)
    requires Free(c)
    ensures WorkOk(c, s)
  {
  }

  lemma WorkByServerAtEnd(c: Spc, s: Sched<Tagged>, s': Sched<Tagged>, g: Go)
    requires WorkOk(c, s) && CanGo(c, g) && Shape(s, s', GoEffect(c, g))
    requires EndsTask(g)
    ensures WorkOk(Goto(c, g), s')
  {
    FreeAtEnd(c, g);
    if Free(Goto(c, g)) {
      hide WorkOk, Shape, Goto, GoEffect;
      FreeWork(Goto(c, g), s');
    } else {
      assert s' == s && Goto(c, g) == Want(Flag(c.task.req));
    }
  }

  lemma WorkByServerAtCommand(c: Spc, s: Sched<Tagged>, s': Sched<Tagged>, g: Go)
    requires WorkOk(c, s) && CanGo(c, g) && Matches(s, g) && Shape(s, s', GoEffect(c, g))
    requires HearsClient(g)
    ensures WorkOk(Goto(c, g), s')
  {
  }

  lemma WorkByServerElse(c: Spc, s: Sched<Tagged>, s': Sched<Tagged>, g: Go)
    requires WorkOk(c, s) && CanGo(c, g) && Matches(s, g) && Shape(s, s', GoEffect(c, g))
    requires !EndsTask(g) && !HearsClient(g)
    ensures WorkOk(Goto(c, g), s')
  {
  }

  lemma WorkByServer(c: Spc, s: Sched<Tagged>, s': Sched<Tagged>, g: Go)
    requires WorkOk(c, s) && CanGo(c, g) && Matches(s, g) && Shape(s, s', GoEffect(c, g))
    ensures WorkOk(Goto(c, g), s')
  {
    hide *;
    if EndsTask(g) {
      WorkByServerAtEnd(c, s, s', g);
    } else if HearsClient(g) {
      WorkByServerAtCommand(c, s, s', g);
    } else {
      WorkByServerElse(c, s, s', g);
    }
  }

  lemma PhaseByBody(dev: Device, op: Op, s: Sched<Tagged>, s': Sched<Tagged>, r: Record, ok: bool, answers: nat)
    requires |dev.bufs| == 16 && (op.Fetch? || op.Say? ==> op.ep < 16)
    requires PhaseOk(OpPhase(op), s, r) && Shape(s, s', BodyEffect(dev, op, ok))
    ensures PhaseOk(PhaseOf(BodyNext(dev, op, ok, answers)), s', BodyRecord(r, dev, op, ok))
  {
  }

  lemma WorkByBody(dev: Device, op: Op, s: Sched<Tagged>, s': Sched<Tagged>, ok: bool, answers: nat)
    requires |dev.bufs| == 16 && (op.Fetch? || op.Say? ==> op.ep < 16)
    requires WorkOk(Hold(op), s) && Shape(s, s', BodyEffect(dev, op, ok))
    ensures WorkOk(BodyNext(dev, op, ok, answers), s')
  {
  }

  function TableAfter(r: Record, e: Effect): Option<seq<Endpoint>> {
    if e.Begins? then Some(e.table) else if e.Forget? then None else r.table
  }

  lemma SchedByEffect(s: Sched<Tagged>, r: Record, e: Effect)
    requires SchedOk(s, r) && CanApply(s, e) && (e.Begins? ==> FreshTable(e.table))
    requires e.Act? ==> r.table.Some?
    ensures SchedOk(Apply(s, e), r.(table := TableAfter(r, e)))
  {
    hide Inv, Next, Can, FreshTable;
    match e
    case Act(a) => InvKept(s, a, Intervals(r.table.value));
    case Begins(table) => InvAtStart<Tagged>(table);
    case _ =>
  }

  /** The table a step leaves is the one its effect says. */
  lemma TableByServer(r: Record, c: Spc, g: Go)
    requires CanGo(c, g)
    ensures GoRecord(r, c, g).table == TableAfter(r, GoEffect(c, g))
  {
  }

  /** The server acts within a session, and starts one from a fresh table. */
  lemma ServerActs(c: Spc, s: Sched<Tagged>, r: Record, g: Go)
    requires PhaseOk(PhaseOf(c), s, r) && CanGo(c, g)
    ensures GoEffect(c, g).Act? ==> r.table.Some?
    ensures GoEffect(c, g).Begins? ==> FreshTable(GoEffect(c, g).table)
  {
    if g.Import? { D.ImportedIsFresh(g.config); }
  }

  lemma SessionsByServer(c: Spc, s: Sched<Tagged>, r: Record, g: Go)
    requires Sessions(c, s, r) && CanGo(c, g) && CanApply(s, GoEffect(c, g)) && Matches(s, g)
    ensures Sessions(Goto(c, g), Apply(s, GoEffect(c, g)), GoRecord(r, c, g))
  {
    hide PhaseOk, PhaseOf, WorkOk, SchedOk, CanGo, GoEffect, Goto, GoRecord, CanApply, Apply, Shape, Inv;
    var e := GoEffect(c, g);
    SchedOrderly(c, s, r);
    ServerActs(c, s, r, g);
    ShapeOf(s, e);
    PhaseByServer(c, s, Apply(s, e), r, g);
    WorkByServer(c, s, Apply(s, e), g);
    SchedByEffect(s, r, e);
    TableByServer(r, c, g);
    SchedBySame(Apply(s, e), r.(table := TableAfter(r, e)), GoRecord(r, c, g));
  }

  lemma BodyActs(dev: Device, op: Op, s: Sched<Tagged>, r: Record, ok: bool)
    requires |dev.bufs| == 16 && (op.Fetch? || op.Say? ==> op.ep < 16) && PhaseOk(PhaseOf(Hold(op)), s, r)
    ensures BodyRecord(r, dev, op, ok).table == TableAfter(r, BodyEffect(dev, op, ok))
    ensures BodyEffect(dev, op, ok).Act? ==> r.table.Some?
    ensures !BodyEffect(dev, op, ok).Begins?
  {
  }

  lemma SessionsByBody(dev: Device, op: Op, s: Sched<Tagged>, r: Record, ok: bool, answers: nat)
    requires |dev.bufs| == 16 && (op.Fetch? || op.Say? ==> op.ep < 16)
    requires Sessions(Hold(op), s, r) && CanApply(s, BodyEffect(dev, op, ok))
    ensures Sessions(BodyNext(dev, op, ok, answers), Apply(s, BodyEffect(dev, op, ok)), BodyRecord(r, dev, op, ok))
  {
    hide PhaseOk, WorkOk, SchedOk, BodyEffect, BodyNext, BodyRecord, CanApply, Apply, Shape, Inv;
    var e := BodyEffect(dev, op, ok);
    SchedOrderly(Hold(op), s, r);
    BodyActs(dev, op, s, r, ok);
    ShapeOf(s, e);
    PhaseByBody(dev, op, s, Apply(s, e), r, ok, answers);
    WorkByBody(dev, op, s, Apply(s, e), ok, answers);
    SchedByEffect(s, r, e);
    SchedBySame(Apply(s, e), r.(table := TableAfter(r, e)), BodyRecord(r, dev, op, ok));
  }

  /** Taking or leaving a lock changes nothing the session depends on. */
  predicate SamePlace(c: Spc, c': Spc) {
    || c' == c
    || (c.Want? && c' == Hold(c.op))
    || (c.Calling? && c' == InCallback(c.task))
    || (c.InCallback? && c' == Working(c.task))
  }

  lemma PhaseBySame(c: Spc, c': Spc)
    requires SamePlace(c, c')
    ensures PhaseOf(c') == PhaseOf(c) && TaskOf(c') == TaskOf(c) && RequestOf(c') == RequestOf(c)
    ensures (c'.Want? || c'.Hold?) && c'.op.Fetch? ==> (c.Want? || c.Hold?) && c.op == c'.op
  {
  }

  lemma WorkBySame(c: Spc, c': Spc, s: Sched<Tagged>)
    requires SamePlace(c, c') && WorkOk(c, s)
    ensures WorkOk(c', s)
  {
    PhaseBySame(c, c');
  }

  lemma SchedBySame(s: Sched<Tagged>, r: Record, r': Record)
    requires SchedOk(s, r) && r'.table == r.table
    ensures SchedOk(s, r')
  {
  }

  lemma SessionsBySame(c: Spc, c': Spc, s: Sched<Tagged>, r: Record, r': Record)
    requires Sessions(c, s, r) && r'.imported == r.imported && r'.table == r.table && SamePlace(c, c')
    ensures Sessions(c', s, r')
  {
    PhaseBySame(c, c');
    WorkBySame(c, c', s);
    SchedBySame(s, r, r');
  }
}
