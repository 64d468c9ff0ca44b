/** No deadlock: whoever cannot step waits for a lock whose holder can. */
module HandoffProgress {
  import opened Urbs
  import opened Schedule
  import opened Handoff
  import opened HandoffLocks
  import opened HandoffSession
  import opened HandoffSafety

  /** A device thread can take a step of its own, without a spurious wake-up. */
  ghost predicate ThreadCanStep(w: World, t: nat) {
    exists m: Move :: !m.Spurious? && Enabled(w, ByThread(t, m))
  }

  ghost predicate ServerCanStep(w: World) {
    exists st: Step :: !st.ByThread? && Enabled(w, st)
  }

  /** Thread 0 is the server. */
  ghost predicate CanStep(w: World, who: nat) {
    if who == 0 then ServerCanStep(w) else ThreadCanStep(w, who)
  }

  ghost predicate HolderCanStep(w: World, lock: Option<nat>) {
    lock.Some? && CanStep(w, lock.value)
  }

  /** With `ep_access_mutex` held the server always finishes its section. */
  lemma BodyIsEnabled(w: World)
    requires PhaseOk(PhaseOf(w.core.server), w.sched, w.rec) && WorkOk(w.core.server, w.sched) && Orderly(w.sched, w.rec)
    requires w.core.server.Hold? && w.core.epLock == Some(0) && |w.core.dev.bufs| == 16 && AddressedOp(w.core.server)
    ensures Enabled(w, Body(true))
  {
  }

  /** Whoever holds `ep_access_mutex` can step: no thread waits for anything while it holds it. */
  lemma MutexHolderCanStep(w: World)
    requires InSession(w) && Threads(w) && w.core.epLock.Some?
    ensures HolderCanStep(w, w.core.epLock)
  {
    var t := w.core.epLock.value;
    if t == 0 {
      SchedOrderly(w.core.server, w.sched, w.rec);
      BodyIsEnabled(w);
      assert !Body(true).ByThread?;
    } else {
      assert LocksOf(w.core.threads[t], true, w.core.rxLock == Some(t));
      assert Enabled(w, ByThread(t, Store));
      assert !Store.Spurious?;
    }
  }

  /** Whoever holds `receive_lock` can step or waits for `ep_access_mutex` only: locks are taken
      in one order. */
  lemma ReceiveHolderCanStep(w: World)
    requires InSession(w) && Threads(w) && w.core.rxLock.Some?
    ensures HolderCanStep(w, w.core.rxLock) || HolderCanStep(w, w.core.epLock)
  {
    var t := w.core.rxLock.value;
    if w.core.epLock.Some? {
      MutexHolderCanStep(w);
    } else if t == 0 {
      var s := w.core.server;
      var st := if s.InCallback? then Return else if s.Notifying? then ByServer(Notify) else TakeLock;
      assert Enabled(w, st) && !st.ByThread?;
    } else {
      var th := w.core.threads[t];
      assert LocksOf(th, false, true);
      CriticalCanStep(w, t);
    }
  }

  /** A thread in a critical section is never asleep, so it can always go on. */
  lemma CriticalCanStep(w: World, t: nat)
    requires Threads(w) && t in w.core.threads && w.core.threads[t].critical && w.core.epLock.None?
    ensures CanStep(w, t)
  {
    var pc := w.core.threads[t].pc;
    assert Rests(w.core.threads[t], w.core.dev);
    assert LocksOf(w.core.threads[t], w.core.epLock == Some(t), w.core.rxLock == Some(t));
    var m := if pc.Outside? then Exit else if pc.Locking? then Lock else WriteEvent;
    assert Enabled(w, ByThread(t, m)) && !m.Spurious?;
  }

  /** The step the server takes next when no lock is in its way. */
  ghost function Onward(w: World): Go
    requires w.core.server.Visiting? ==> Sized(w.sched.queue)
  {
    var s := w.core.server;
    match s
    case Idle => Accept
    case Greeting => Refuse
    case Wait => Quiet
    case Clear => ClearEvent
    case Sample => BeginPass(0)
    case Cleaning(_) => Clean
    case Visiting =>
      if !At(w.sched) then EndPass
      else
        var u := Current(w.sched);
        if !IsDue(w.sched.queue, u, w.sched.now) then NotDue
        else if u.isochronous then StreamDue
        else PollDue(u.ep % 16, u.length)
    case Working(task) =>
      (match task
       case Attach => Attached(true)
       case Detach => Detached
       case Receive => Received(true)
       case Control(_) => Controlled(true)
       case Queueing(_) => Queued(0, |w.sched.queue.pending| == MAX_PENDING_URBS)
       case Overflowing => Overflowed(true)
       case Streaming => Go.Streamed(true))
    case _ => Notify
  }

  lemma OnwardIsEnabled(w: World)
    requires PhaseOk(PhaseOf(w.core.server), w.sched, w.rec) && WorkOk(w.core.server, w.sched) && Orderly(w.sched, w.rec)
    requires var s := w.core.server; !s.Calling? && !s.InCallback? && !s.Want? && !s.Hold? && !s.Stopped?
    ensures Enabled(w, ByServer(Onward(w)))
  {
  }

  /** The server steps, or waits for a lock whose holder does. */
  lemma ServerProgress(w: World)
    requires InSession(w) && Threads(w) && !w.core.server.Stopped?
    ensures CanStep(w, 0) || HolderCanStep(w, w.core.epLock) || HolderCanStep(w, w.core.rxLock)
  {
    var s := w.core.server;
    SchedOrderly(s, w.sched, w.rec);
    if w.core.epLock.Some? {
      MutexHolderCanStep(w);
    } else if s.Want? {
      assert Enabled(w, TakeLock) && !TakeLock.ByThread?;
    } else if s.Calling? {
      if w.core.rxLock.Some? { ReceiveHolderCanStep(w); } else { assert Enabled(w, EnterCallback) && !EnterCallback.ByThread?; }
    } else if s.InCallback? {
      assert Enabled(w, Return) && !Return.ByThread?;
    } else {
      OnwardIsEnabled(w);
      assert !ByServer(Onward(w)).ByThread?;
    }
  }

  /** So does every device thread, unless it sleeps waiting for the host. */
  lemma ThreadProgress(w: World, t: nat)
    requires InSession(w) && Threads(w) && t in w.core.threads
    ensures var pc := w.core.threads[t].pc;
            || (pc.Asleep? && !pc.notified)
            || CanStep(w, t) || HolderCanStep(w, w.core.epLock) || HolderCanStep(w, w.core.rxLock)
  {
    var pc := w.core.threads[t].pc;
    if w.core.epLock.Some? {
      MutexHolderCanStep(w);
    } else if pc.Entering? && w.core.rxLock.Some? {
      ReceiveHolderCanStep(w);
    } else {
      assert LocksOf(w.core.threads[t], false, w.core.rxLock == Some(t));
      var m := if pc.Outside? then Call(0, []) else if pc.Locking? then Lock
               else if pc.Asleep? then Wake else if pc.Entering? then Enter else WriteEvent;
      if !pc.Asleep? || pc.notified {
        assert Enabled(w, ByThread(t, m)) && !m.Spurious?;
      }
    }
  }

  /** No deadlock, in any state of any run: the server steps until it is told to stop, and every
      device thread that is not waiting for the host steps, or either waits for a lock whose holder
      can step. Once stopped, nobody is left waiting for the host. */
  lemma NoDeadlock(ws: seq<World>, steps: seq<Step>, i: nat, t: nat)
    requires Run(ws, steps) && i < |ws|
    ensures var w := ws[i];
            && (!w.core.server.Stopped? ==> CanStep(w, 0) || HolderCanStep(w, w.core.epLock) || HolderCanStep(w, w.core.rxLock))
            && (t in w.core.threads ==>
                  var pc := w.core.threads[t].pc;
                  || (pc.Asleep? && !pc.notified && !w.core.dev.stopped)
                  || CanStep(w, t) || HolderCanStep(w, w.core.epLock) || HolderCanStep(w, w.core.rxLock))
  {
    RunIsSafe(ws, steps, i);
    if !ws[i].core.server.Stopped? { ServerProgress(ws[i]); }
    if t in ws[i].core.threads {
      ThreadProgress(ws[i], t);
      assert Rests(ws[i].core.threads[t], ws[i].core.dev);
    }
  }
}
