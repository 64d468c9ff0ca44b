/** The server thread and the device's threads, as one machine of atomic steps.

    Threads meet in the endpoint buffers, which `ep_access_mutex` protects, in the event that wakes
    the server, and in `receive_lock`, which keeps device callbacks out of critical sections. A step
    ends wherever another thread can get in: before a lock is taken, when it is released, and between
    storing data and writing the event. What the server does to the URB queue between two such points
    is one step of `Schedule`.

    A state has three parts: what the threads share (`Core`), the server's session (`Sched`), and a
    record of the run that the program itself does not keep (`Record`). */
module Handoff {
  import opened Urbs
  import opened Schedule
  import D = Descriptors

  /** A byte and the reset generation its transmit captured. */
  datatype Tagged = Tagged(value: byte, gen: nat)

  datatype Device = Device(bufs: seq<seq<Tagged>>, gen: nat, stopped: bool, conf: byte, answered: bool)

  /** Where a device thread is in `usbip_device_transmit` or around a critical section. */
  datatype Pc =
    | Outside
    | Locking(ep: nat, data: seq<byte>, since: Option<nat>)
    | Storing(ep: nat, data: seq<byte>, gen: nat)
    | Asleep(ep: nat, data: seq<byte>, gen: nat, notified: bool)
    | Signalling
    | Entering

  datatype Thread = Thread(pc: Pc, critical: bool)

  /** What the library does for a control request: nothing it supports, nothing that answers,
      an answer of its own, the configuration value, or the device's callback. */
  datatype Action = Unsupported | Silent | Says(data: seq<byte>) | GetConfig | SetConfig(conf: byte) | Ask

  datatype Request = Request(seqnum: u32, toHost: bool, length: nat, action: Action)

  /** What the server thread is doing when it may run device callbacks. */
  datatype Task = Attach | Detach | Receive | Control(req: Request) | Queueing(urb: Urb) | Overflowing | Streaming

  /** A section the server thread runs with `ep_access_mutex` held. */
  datatype Op =
    | Reset(attach: bool)
    | Fetch(ep: nat, length: nat)
    | BeginControl(req: Request)
    | Flag(req: Request)
    | Reply(req: Request, answered: bool, seen: nat)
    | Own(req: Request, data: seq<byte>)
    | Say(task: Task, ep: nat, data: seq<byte>)
    | Halt

  datatype Spc =
    | Idle | Greeting | Wait | Clear | Sample | Visiting | Stopped
    | Working(task: Task)
    | Calling(task: Task)
    | InCallback(task: Task)
    | Notifying(task: Task)
    | Want(op: Op)
    | Hold(op: Op)
    | Cleaning(attach: bool)

  datatype Core = Core(dev: Device, event: bool, epLock: Option<nat>, rxLock: Option<nat>,
                       server: Spc, threads: map<nat, Thread>)

  datatype Taken = Taken(ep: nat, data: seq<Tagged>)

  datatype ControlReply = ControlReply(req: Request, stall: bool, data: seq<Tagged>,
                                       seen: nat, given: seq<seq<Tagged>>, own: bool, conf: byte)

  /** `table` is the endpoint table of the session, if there is one, `answers` are those given since the
      current control request began and `own` whether one was the server thread's, `asked` and `replies`
      are the session's control requests and what was replied to them. */
  datatype Record = Record(imported: bool, table: Option<seq<Endpoint>>, taken: seq<Taken>,
                           answers: seq<seq<Tagged>>, own: bool, asked: seq<Request>, replies: seq<ControlReply>, lastConf: byte)

  datatype World = World(core: Core, sched: Sched<Tagged>, rec: Record)

  /** A device thread's steps. `Spurious` is a wake-up nobody asked for. */
  datatype Move = Call(ep: nat, data: seq<byte>) | Lock | Store | Wake | Spurious | WriteEvent | AskCritical | Enter | Exit

  /** The server's steps that take no lock. `ok` is whether the reply could be written. */
  datatype Go =
    | Accept | Refuse | Import(config: seq<byte>) | Clean
    | CallBack | Speak(ep: nat, data: seq<byte>) | Notify
    | Attached(ok: bool) | Detached | Received(ok: bool) | Controlled(ok: bool)
    | Queued(arrived: nat, full: bool) | Overflowed(ok: bool) | Streamed(ok: bool)
    | Hangup | Quiet | ReadIn(urb: Urb, ok: bool) | ReadIso(urb: Urb) | ReadOut(seqnum: u32)
    | ReadControl(req: Request) | ReadUnlink(seqnum: u32, target: u32, ok: bool)
    | ClearEvent | BeginPass(now: nat) | NotDue | StreamDue | PollDue(ep: nat, length: nat) | EndPass | Quit

  datatype Step =
    | ByThread(t: nat, move: Move)
    | ByServer(go: Go)
    | TakeLock
    | Body(ok: bool)
    | EnterCallback
    | Return

  // ----- Endpoint buffers -----

  function Tag(data: seq<byte>, gen: nat): (r: seq<Tagged>)
    ensures |r| == |data|
  {
    seq(|data|, i requires 0 <= i < |data| => Tagged(data[i], gen))
  }

  /** The bytes themselves. */
  function Values(data: seq<Tagged>): (r: seq<byte>)
    ensures |r| == |data|
  {
    seq(|data|, i requires 0 <= i < |data| => data[i].value)
  }

  function Empty(): (r: seq<seq<Tagged>>)
    ensures |r| == 16 && forall e :: 0 <= e < 16 ==> r[e] == []
  {
    seq(16, _ => [])
  }

  predicate MustWait(dev: Device, ep: nat, mayWait: bool)
    requires ep < |dev.bufs|
  {
    ep != 0 && mayWait && !dev.stopped && dev.bufs[ep] != []
  }

  predicate MayStore(dev: Device, ep: nat, gen: nat)
    requires ep < |dev.bufs|
  {
    !dev.stopped && gen == dev.gen && (ep == 0 || dev.bufs[ep] == [])
  }

  /** Data goes into an endpoint's buffer, on endpoint 0 as an answer. */
  function Put(dev: Device, ep: nat, data: seq<Tagged>): Device
    requires ep < |dev.bufs|
  {
    dev.(bufs := dev.bufs[ep := data], answered := dev.answered || ep == 0)
  }

  /** `pthread_cond_broadcast` */
  function Wakened(threads: map<nat, Thread>): map<nat, Thread> {
    map t | t in threads ::
      if threads[t].pc.Asleep? then threads[t].(pc := threads[t].pc.(notified := true)) else threads[t]
  }

  // ----- Device threads -----

  predicate CanMove(c: Core, t: nat, m: Move) {
    && t in c.threads && |c.dev.bufs| == 16
    && var th := c.threads[t];
       match m
       case Call(ep, _) => th.pc.Outside? && ep < 16
       case Lock => th.pc.Locking? && c.epLock.None?
       case Store => th.pc.Storing? && th.pc.ep < 16 && c.epLock == Some(t)
       case Wake => th.pc.Asleep? && th.pc.notified
       case Spurious => th.pc.Asleep?
       case WriteEvent => th.pc.Signalling?
       case AskCritical => th.pc.Outside? && !th.critical
       case Enter => th.pc.Entering? && c.rxLock.None?
       case Exit => th.pc.Outside? && th.critical && c.rxLock == Some(t)
  }

  /** What `usbip_device_transmit` stores once it holds the mutex, if anything. */
  function Puts(dev: Device, th: Thread): Option<Taken>
    requires th.pc.Storing? && th.pc.ep < |dev.bufs|
  {
    if !MustWait(dev, th.pc.ep, !th.critical) && MayStore(dev, th.pc.ep, th.pc.gen)
    then Some(Taken(th.pc.ep, Tag(th.pc.data, th.pc.gen))) else None
  }

  /** A device thread's next program counter. */
  function NextPc(dev: Device, th: Thread, m: Move): Pc
    requires m.Store? ==> th.pc.Storing? && th.pc.ep < |dev.bufs|
    requires m.Lock? ==> th.pc.Locking?
    requires m.Wake? || m.Spurious? ==> th.pc.Asleep?
  {
    match m
    case Call(ep, data) => Locking(ep, Cut(data, ENDPOINT_MAX_DATA), None)
    case Lock => Storing(th.pc.ep, th.pc.data, if th.pc.since.Some? then th.pc.since.value else dev.gen)
    case Store =>
      if MustWait(dev, th.pc.ep, !th.critical) then Asleep(th.pc.ep, th.pc.data, th.pc.gen, false)
      else if Puts(dev, th).Some? && th.pc.ep != 0 then Signalling
      else Outside
    case Wake => Locking(th.pc.ep, th.pc.data, Some(th.pc.gen))
    case Spurious => Locking(th.pc.ep, th.pc.data, Some(th.pc.gen))
    case WriteEvent => Outside
    case AskCritical => Entering
    case Enter => Outside
    case Exit => Outside
  }

  function DoMove(c: Core, t: nat, m: Move): Core
    requires CanMove(c, t, m)
  {
    var th := c.threads[t];
    var put := if m.Store? then Puts(c.dev, th) else None;
    Core(if put.Some? then Put(c.dev, put.value.ep, put.value.data) else c.dev,
         c.event || m.WriteEvent?,
         if m.Lock? then Some(t) else if m.Store? then None else c.epLock,
         if m.Enter? then Some(t) else if m.Exit? then None else c.rxLock,
         c.server,
         c.threads[t := Thread(NextPc(c.dev, th, m), if m.Enter? then true else if m.Exit? then false else th.critical)])
  }

  // ----- The server thread: steps without a lock -----

  predicate CanGo(s: Spc, g: Go) {
    match g
    case Accept => s.Idle?
    case Refuse => s.Greeting?
    case Import(config) => s.Greeting? && D.Config(config)
    case Clean => s.Cleaning?
    case CallBack => s.Working? && !s.task.Control?
    case Speak(ep, _) => s.InCallback? && ep < 16
    case Notify => s.Notifying?
    case Attached(_) => s == Working(Attach)
    case Detached => s == Working(Detach)
    case Received(_) => s == Working(Receive)
    case Controlled(_) => s.Working? && s.task.Control?
    case Queued(_, _) => s.Working? && s.task.Queueing?
    case Overflowed(_) => s == Working(Overflowing)
    case Streamed(_) => s == Working(Streaming)
    case ClearEvent => s.Clear?
    case BeginPass(_) => s.Sample?
    case NotDue => s.Visiting?
    case StreamDue => s.Visiting?
    case PollDue(ep, _) => s.Visiting? && ep < 16
    case EndPass => s.Visiting?
    case Quit => s.Wait? || s.Idle? || s.Greeting?
    case _ => s.Wait?
  }

  /** A task of the server ends. */
  predicate EndsTask(g: Go) {
    g.Attached? || g.Detached? || g.Received? || g.Controlled? || g.Queued? || g.Overflowed? || g.Streamed?
  }

  /** The server has waited for the client. */
  predicate HearsClient(g: Go) {
    g.Hangup? || g.Quiet? || g.ReadIn? || g.ReadIso? || g.ReadOut? || g.ReadControl? || g.ReadUnlink?
  }

  /** The connection is lost: the device is reset next. */
  const LOST := Want(Reset(false))

  function Goto(s: Spc, g: Go): Spc
    requires CanGo(s, g)
  {
    match g
    case Accept => Greeting
    case Refuse => Idle
    case Import(_) => Want(Reset(true))
    case Clean => Working(if s.attach then Attach else Detach)
    case CallBack => Calling(s.task)
    case Speak(ep, data) => Want(Say(s.task, ep, Cut(data, ENDPOINT_MAX_DATA)))
    case Notify => InCallback(s.task)
    case Attached(ok) => if ok then Wait else Idle
    case Detached => Idle
    case Received(ok) => if ok then Clear else LOST
    case Controlled(ok) => if s.task.req.toHost then Want(Flag(s.task.req)) else if ok then Clear else LOST
    case Queued(_, full) => if full then Working(Overflowing) else Clear
    case Overflowed(ok) => if ok then Clear else LOST
    case Streamed(ok) => if ok then Visiting else LOST
    case Hangup => LOST
    case Quiet => Clear
    case ReadIn(_, ok) => if ok then Clear else LOST
    case ReadIso(u) => Working(Queueing(u))
    case ReadOut(_) => Working(Receive)
    case ReadControl(req) => Want(BeginControl(req))
    case ReadUnlink(_, _, ok) => if ok then Clear else LOST
    case ClearEvent => Sample
    case BeginPass(_) => Visiting
    case NotDue => Visiting
    case StreamDue => Working(Streaming)
    case PollDue(ep, length) => Want(Fetch(ep, length))
    case EndPass => Wait
    case Quit => Want(Halt)
  }

  function DoGo(c: Core, g: Go): Core
    requires CanGo(c.server, g)
  {
    c.(server := Goto(c.server, g),
       event := if g.Clean? || g.ClearEvent? then false else c.event || g.Notify?)
  }

  // ----- The server thread: sections under `ep_access_mutex` -----

  predicate CanBody(c: Core) {
    && c.server.Hold? && c.epLock == Some(0) && |c.dev.bufs| == 16
    && (c.server.op.Fetch? || c.server.op.Say? ==> c.server.op.ep < 16)
  }

  /** The bytes a fetch returns. */
  function Chunk(dev: Device, op: Op): seq<Tagged>
    requires op.Fetch? && op.ep < |dev.bufs|
  {
    Cut(dev.bufs[op.ep], op.length)
  }

  /** What the server thread's own transmit stores: it never waits. */
  function Speaks(dev: Device, op: Op): Option<Taken>
    requires |dev.bufs| == 16 && (op.Say? ==> op.ep < 16)
  {
    match op
    case Own(_, data) => if MayStore(dev, 0, dev.gen) then Some(Taken(0, Tag(data, dev.gen))) else None
    case Say(_, ep, data) => if MayStore(dev, ep, dev.gen) then Some(Taken(ep, Tag(data, dev.gen))) else None
    case _ => None
  }

  function BodyDevice(dev: Device, op: Op): Device
    requires |dev.bufs| == 16 && (op.Fetch? || op.Say? ==> op.ep < 16)
  {
    match op
    case Reset(_) => Device(Empty(), dev.gen + 1, dev.stopped, 0, false)
    case Fetch(ep, _) => dev.(bufs := dev.bufs[ep := dev.bufs[ep][|Chunk(dev, op)|..]])
    case BeginControl(req) =>
      dev.(bufs := dev.bufs[0 := []], answered := false,
           conf := if req.action.SetConfig? then req.action.conf else dev.conf)
    case Flag(_) => dev.(answered := false)
    case Reply(_, _, _) => dev.(bufs := dev.bufs[0 := []])
    case Halt => dev.(bufs := Empty(), stopped := true)
    case _ =>
      var put := Speaks(dev, op);
      if put.Some? then Put(dev, put.value.ep, put.value.data) else dev
  }

  function BodyNext(dev: Device, op: Op, ok: bool, answers: nat): Spc
    requires |dev.bufs| == 16 && (op.Fetch? || op.Say? ==> op.ep < 16)
  {
    match op
    case Reset(attach) => Cleaning(attach)
    case Fetch(_, _) => if Chunk(dev, op) != [] && !ok then LOST else Visiting
    case BeginControl(req) =>
      (match req.action
       case Says(data) => Want(Own(req, Cut(data, ENDPOINT_MAX_DATA)))
       case GetConfig => Want(Own(req, [dev.conf]))
       case SetConfig(_) => Calling(Control(req))
       case Ask => Calling(Control(req))
       case _ => Working(Control(req)))
    case Flag(req) => Want(Reply(req, dev.answered, answers))
    case Reply(_, _, _) => if ok then Clear else LOST
    case Own(req, _) => Working(Control(req))
    case Say(task, ep, _) => if Speaks(dev, op).Some? && ep != 0 then Notifying(task) else InCallback(task)
    case Halt => Stopped
  }

  /** Whether a section broadcasts that endpoint data was consumed. */
  predicate Broadcasts(dev: Device, op: Op)
    requires op.Fetch? ==> op.ep < |dev.bufs|
  {
    op.Reset? || op.Halt? || op.Reply? || (op.Fetch? && |Chunk(dev, op)| == |dev.bufs[op.ep]|)
  }

  /** `answers` counts the answers on endpoint 0 since the current control request began. */
  function DoBody(c: Core, ok: bool, answers: nat): Core
    requires CanBody(c)
  {
    var op := c.server.op;
    Core(BodyDevice(c.dev, op), c.event, None, c.rxLock, BodyNext(c.dev, op, ok, answers),
         if Broadcasts(c.dev, op) then Wakened(c.threads) else c.threads)
  }

  // ----- The session -----

  /** What a step means for the URB queue. */
  datatype Effect = Stay | Act(act: Act<Tagged>) | Begins(table: seq<Endpoint>) | Forget

  function Unless(lost: bool, a: Act<Tagged>): Effect {
    if lost then Forget else Act(a)
  }

  function GoEffect(s: Spc, g: Go): Effect
    requires CanGo(s, g)
  {
    match g
    case Import(config) => Begins(D.Walked(config, 0, D.NoTable()))
    case Attached(ok) => if ok then Stay else Forget
    case Received(ok) => Unless(!ok, Close([]))
    case Controlled(ok) => if s.task.req.toHost then Stay else Unless(!ok, Close([]))
    case Queued(arrived, _) => Act(QueueIso(s.task.urb, arrived))
    case Overflowed(ok) => Unless(!ok, Close([]))
    case Streamed(ok) => Unless(!ok, Scan([]))
    case Hangup => Forget
    case ReadIn(u, ok) => Unless(!ok, QueueIn(u))
    case ReadIso(u) => Act(Open(u.seqnum))
    case ReadOut(q) => Act(Open(q))
    case ReadControl(req) => Act(Open(req.seqnum))
    case ReadUnlink(q, target, ok) => Unless(!ok, Unlink(q, target))
    case BeginPass(now) => Act(Begin(now))
    case NotDue => Act(Scan([]))
    case EndPass => Act(End)
    case _ => Stay
  }

  predicate Stalls(req: Request, answered: bool) {
    req.action.Unsupported? || (req.toHost && req.length > 0 && !answered)
  }

  /** What a control reply carries. */
  function Carries(dev: Device, op: Op): seq<Tagged>
    requires op.Reply? && |dev.bufs| == 16
  {
    if Stalls(op.req, op.answered) then [] else Cut(dev.bufs[0], op.req.length)
  }

  function BodyEffect(dev: Device, op: Op, ok: bool): Effect
    requires |dev.bufs| == 16 && (op.Fetch? ==> op.ep < 16)
  {
    match op
    case Fetch(_, _) => var d := Chunk(dev, op); Unless(d != [] && !ok, Scan(d))
    case Reply(_, _, _) => Unless(!ok, Close(Carries(dev, op)))
    case _ => Stay
  }

  ghost predicate CanApply(s: Sched<Tagged>, e: Effect) {
    e.Act? ==> Can(s, e.act)
  }

  ghost function Apply(s: Sched<Tagged>, e: Effect): Sched<Tagged>
    requires CanApply(s, e)
  {
    match e
    case Stay => s
    case Act(a) => Next(s, a)
    case Begins(table) => Fresh(table)
    case Forget => Sched(s.queue.(pending := []), false, 0, s.now, None, map[], [])
  }

  /** The server's label matches the transfer it is looking at. */
  ghost predicate Matches(s: Sched<Tagged>, g: Go) {
    match g
    case ReadIn(u, ok) => u.ep != 0 && (!ok ==> |s.queue.pending| == MAX_PENDING_URBS)
    case ReadIso(u) => Canonical(u) && u.isochronous
    case Queued(_, full) => full <==> |s.queue.pending| == MAX_PENDING_URBS
    case NotDue => At(s) && !IsDue(s.queue, Current(s), s.now)
    case StreamDue => At(s) && IsDue(s.queue, Current(s), s.now) && Current(s).isochronous
    case PollDue(ep, length) =>
      && At(s) && IsDue(s.queue, Current(s), s.now) && !Current(s).isochronous
      && ep == Current(s).ep % 16 && length == Current(s).length
    case _ => true
  }

  predicate At(s: Sched<Tagged>) {
    Sized(s.queue) && s.scanning && s.idx < |s.queue.pending|
  }

  /** The transfer the completion pass is looking at. */
  function Current(s: Sched<Tagged>): Urb
    requires At(s)
  {
    s.queue.pending[s.idx]
  }

  // ----- The record -----

  function Takes(r: Record, put: Option<Taken>): Record {
    if put.None? then r
    else r.(taken := r.taken + [put.value],
            answers := if put.value.ep == 0 then r.answers + [put.value.data] else r.answers)
  }

  /** The session is over. */
  function Over(r: Record): Record {
    r.(imported := false, table := None, asked := [], replies := [])
  }

  function GoRecord(r: Record, s: Spc, g: Go): Record
    requires CanGo(s, g)
  {
    if GoEffect(s, g).Forget? then Over(r)
    else
      match g
      case Import(_) => r.(table := Some(GoEffect(s, g).table), asked := [], replies := [])
      case Attached(_) => r.(imported := true)
      case ReadControl(req) => r.(asked := r.asked + [req])
      case Controlled(_) =>
        if s.task.req.toHost then r
        else r.(replies := r.replies + [ControlReply(s.task.req, Stalls(s.task.req, false), [], 0, r.answers, r.own, r.lastConf)])
      case _ => r
  }

  function BodyRecord(r: Record, dev: Device, op: Op, ok: bool): Record
    requires |dev.bufs| == 16 && (op.Fetch? || op.Say? ==> op.ep < 16)
  {
    if BodyEffect(dev, op, ok).Forget? then Over(r)
    else
      match op
      case Reset(_) => r.(taken := [], lastConf := 0)
      case BeginControl(req) =>
        r.(answers := [], own := false, lastConf := if req.action.SetConfig? then req.action.conf else r.lastConf)
      case Reply(req, answered, seen) =>
        r.(replies := r.replies
                      + [ControlReply(req, Stalls(req, answered), Carries(dev, op), seen, r.answers, r.own, r.lastConf)])
      case _ =>
        var put := Speaks(dev, op);
        Takes(r, put).(own := r.own || (put.Some? && put.value.ep == 0))
  }

  // ----- The whole machine -----

  ghost predicate Enabled(w: World, st: Step) {
    match st
    case ByThread(t, m) => CanMove(w.core, t, m)
    case ByServer(g) => CanGo(w.core.server, g) && CanApply(w.sched, GoEffect(w.core.server, g)) && Matches(w.sched, g)
    case TakeLock => w.core.server.Want? && w.core.epLock.None?
    case Body(ok) => CanBody(w.core) && CanApply(w.sched, BodyEffect(w.core.dev, w.core.server.op, ok))
    case EnterCallback => w.core.server.Calling? && w.core.rxLock.None?
    case Return => w.core.server.InCallback? && w.core.rxLock == Some(0)
  }

  function DoTakeLock(c: Core): Core
    requires c.server.Want?
  {
    c.(epLock := Some(0), server := Hold(c.server.op))
  }

  function DoEnterCallback(c: Core): Core
    requires c.server.Calling?
  {
    c.(rxLock := Some(0), server := InCallback(c.server.task))
  }

  function DoReturn(c: Core): Core
    requires c.server.InCallback?
  {
    c.(rxLock := None, server := Working(c.server.task))
  }

  ghost function Do(w: World, st: Step): World
    requires Enabled(w, st)
  {
    var c := w.core;
    match st
    case ByThread(t, m) =>
      World(DoMove(c, t, m), w.sched, if m.Store? then Takes(w.rec, Puts(c.dev, c.threads[t])) else w.rec)
    case ByServer(g) => World(DoGo(c, g), Apply(w.sched, GoEffect(c.server, g)), GoRecord(w.rec, c.server, g))
    case TakeLock => w.(core := DoTakeLock(c))
    case Body(ok) =>
      World(DoBody(c, ok, |w.rec.answers|), Apply(w.sched, BodyEffect(c.dev, c.server.op, ok)),
            BodyRecord(w.rec, c.dev, c.server.op, ok))
    case EnterCallback => w.(core := DoEnterCallback(c))
    case Return => w.(core := DoReturn(c))
  }

  /** Before anything happened: no client, and every device thread outside the library. */
  ghost predicate Init(w: World) {
    && Sized(w.sched.queue) && w.sched.queue.pending == [] && !w.sched.scanning && w.sched.open.None?
    && w.sched.log == [] && w.sched.order == map[]
    && w.core.dev == Device(Empty(), 0, false, 0, false) && !w.core.event
    && w.core.epLock.None? && w.core.rxLock.None? && w.core.server.Idle?
    && 0 !in w.core.threads && (forall t :: t in w.core.threads ==> w.core.threads[t] == Thread(Outside, false))
    && w.rec == Record(false, None, [], [], false, [], [], 0)
  }

  /** A run: every interleaving of the threads, for any number of sessions. */
  ghost predicate Run(ws: seq<World>, steps: seq<Step>) {
    && |ws| == |steps| + 1
    && Init(ws[0])
    && forall i :: 0 <= i < |steps| ==> Enabled(ws[i], steps[i]) && ws[i + 1] == Do(ws[i], steps[i])
  }
}
