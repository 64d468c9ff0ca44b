/** Locks, sleepers and progress of the threads in `Handoff`. */
module HandoffLocks {
  import opened Urbs
  import opened Handoff

  /** The server holds `receive_lock` from entering a callback until it returns. */
  predicate InReceive(s: Spc) {
    s.InCallback? || s.Notifying? || ((s.Want? || s.Hold?) && s.op.Say?)
  }

  predicate LocksOf(th: Thread, ep: bool, rx: bool) {
    && (ep <==> th.pc.Storing?)
    && (rx <==> th.critical)
    && (th.pc.Entering? ==> !th.critical)
  }

  /** Each lock is held by exactly the thread whose program counter says so. */
  ghost predicate Locks(c: Core) {
    && 0 !in c.threads
    && (c.epLock == Some(0) <==> c.server.Hold?)
    && (c.rxLock == Some(0) <==> InReceive(c.server))
    && (c.epLock.Some? ==> c.epLock.value == 0 || c.epLock.value in c.threads)
    && (c.rxLock.Some? ==> c.rxLock.value == 0 || c.rxLock.value in c.threads)
    && forall t :: t in c.threads ==> LocksOf(c.threads[t], c.epLock == Some(t), c.rxLock == Some(t))
  }

  /** A thread sleeping un-notified has something to wait for, and may wait: it is in no
      critical section, and it is not the server, which has no `Asleep`. */
  predicate Rests(th: Thread, dev: Device) {
    th.pc.Asleep? ==>
      && 0 < th.pc.ep < |dev.bufs| && !th.critical
      && (!th.pc.notified ==> dev.bufs[th.pc.ep] != [] && !dev.stopped)
  }

  predicate Addressed(th: Thread) {
    (th.pc.Locking? || th.pc.Storing? || th.pc.Asleep?) ==> th.pc.ep < 16 && |th.pc.data| <= ENDPOINT_MAX_DATA
  }

  predicate AddressedOp(s: Spc) {
    && ((s.Want? || s.Hold?) && (s.op.Fetch? || s.op.Say?) ==> s.op.ep < 16)
    && ((s.Want? || s.Hold?) && (s.op.Own? || s.op.Say?) ==> |s.op.data| <= ENDPOINT_MAX_DATA)
  }

  ghost predicate Sleepers(c: Core) {
    && |c.dev.bufs| == 16
    && AddressedOp(c.server)
    && forall t :: t in c.threads ==> Rests(c.threads[t], c.dev) && Addressed(c.threads[t])
  }

  lemma LocksByThread(c: Core, t: nat, m: Move)
    requires Locks(c) && CanMove(c, t, m)
    ensures Locks(DoMove(c, t, m))
  {
  }

  lemma LocksByServer(c: Core, g: Go)
    requires Locks(c) && CanGo(c.server, g)
    ensures Locks(DoGo(c, g))
  {
  }

  lemma LocksByBody(c: Core, ok: bool, answers: nat)
    requires Locks(c) && CanBody(c)
    ensures Locks(DoBody(c, ok, answers))
  {
  }

  lemma SleepersByThread(c: Core, t: nat, m: Move)
    requires Sleepers(c) && CanMove(c, t, m)
    ensures Sleepers(DoMove(c, t, m))
  {
  }

  lemma SleepersByServer(c: Core, g: Go)
    requires Sleepers(c) && CanGo(c.server, g)
    ensures Sleepers(DoGo(c, g))
  {
  }

  lemma SleepersByBody(c: Core, ok: bool, answers: nat)
    requires Sleepers(c) && CanBody(c)
    ensures Sleepers(DoBody(c, ok, answers))
  {
  }
}
