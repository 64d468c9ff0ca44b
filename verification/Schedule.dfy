/** One session of the URB scheduler as a state machine over its steps.

    A session's state is the queue, the position of a running completion pass, the request being
    served right now, and the log of everything submitted and answered. `T` is the type of a
    transferred byte. A step takes the fetched data as a parameter, so a run of this machine covers
    every interleaving of device threads with the completion pass. */
module Schedule {
  import opened Urbs

  /** How a transfer was answered: at once, because the queue was full, by polling an endpoint
      at time `at`, or at its place in an isochronous stream. */
  datatype Via = Direct | Overflow | Polled(slot: nat, at: nat) | Streamed(slot: nat, due: nat, at: nat)

  datatype Event<+T> =
    | Stream(seqnum: u32, slot: nat, arrived: nat, packets: nat, due: nat)
    | Ret(seqnum: u32, via: Via, data: seq<T>)
    | Unlinked(seqnum: u32, target: u32, cancelled: bool, drained: Option<nat>)

  /** `now` is the clock as the last completion pass sampled it, and `order` the number each
      request got when it was submitted. */
  datatype Sched<+T> = Sched(queue: Queue, scanning: bool, idx: nat, now: nat,
                             open: Option<u32>, order: map<u32, nat>, log: seq<Event<T>>)

  datatype Act<+T> =
    | Open(seqnum: u32)
    | Close(data: seq<T>)
    | QueueIn(urb: Urb)
    | QueueIso(urb: Urb, arrived: nat)
    | Unlink(seqnum: u32, target: u32)
    | Begin(now: nat)
    | Scan(data: seq<T>)
    | End

  predicate FreshTable(table: seq<Endpoint>) {
    && |table| == 32
    && forall s :: 0 <= s < |table| ==> table[s].nextPollUs == 0 && table[s].streamEndUs == 0
  }

  function Fresh<T>(table: seq<Endpoint>): Sched<T> {
    Sched(Queue([], table, WAIT_TIMEOUT_US), false, 0, 0, None, map[], [])
  }

  predicate Between<T>(s: Sched<T>) {
    !s.scanning && s.open.None?
  }

  /** When a step can be taken. The server thread works on one request at a time, sequence numbers
      are unique within a session, addresses are canonical, and a fetch returns at most what was
      asked for. */
  ghost predicate Can<T>(s: Sched<T>, a: Act<T>) {
    && Sized(s.queue)
    && match a
       case Open(q) => Between(s) && q !in s.order
       case Close(_) => !s.scanning && s.open.Some?
       case QueueIn(u) =>
         Between(s) && u.seqnum !in s.order && Canonical(u) && u.direction == 1 && !u.isochronous
       case QueueIso(u, _) => !s.scanning && s.open == Some(u.seqnum) && Canonical(u) && u.isochronous
       case Unlink(_, _) => Between(s)
       case Begin(_) => Between(s)
       case Scan(d) =>
         && s.scanning && s.idx < |s.queue.pending|
         && var u := s.queue.pending[s.idx];
            (!u.isochronous ==> |d| <= u.length) && (!IsDue(s.queue, u, s.now) ==> d == [])
       case End => s.scanning && s.idx == |s.queue.pending|
  }

  ghost function Next<T>(s: Sched<T>, a: Act<T>): Sched<T>
    requires Can(s, a)
  {
    var full := |s.queue.pending| == MAX_PENDING_URBS;
    match a
    case Open(q) => s.(open := Some(q), order := s.order[q := |s.order|])
    case Close(d) => s.(open := None, log := s.log + [Ret(s.open.value, Direct, d)])
    case QueueIn(u) =>
      s.(queue := PushIn(s.queue, u), order := s.order[u.seqnum := |s.order|],
         log := if full then s.log + [Ret(u.seqnum, Overflow, [])] else s.log)
    case QueueIso(u, t) =>
      var slot := Slot(u.direction, u.ep);
      s.(queue := PushIso(s.queue, u, t), open := if full then s.open else None,
         log := s.log + [Stream(u.seqnum, slot, t, |u.packets|, Due(s.queue.table[slot], |u.packets|, t))])
    case Unlink(q, target) =>
      var i := Find(s.queue.pending, target);
      var hit := i < |s.queue.pending|;
      var drained :=
        if hit && Drains(s.queue.pending, i)
        then Some(Slot(s.queue.pending[i].direction, s.queue.pending[i].ep)) else None;
      s.(queue := Cancel(s.queue, target), log := s.log + [Unlinked(q, target, hit, drained)])
    case Begin(now) =>
      s.(queue := s.queue.(timeoutUs := WAIT_TIMEOUT_US), scanning := true, idx := 0, now := now)
    case Scan(d) =>
      var u := s.queue.pending[s.idx];
      var q := Visit(s.queue, s.idx, s.now, |d|);
      if Completes(s.queue, s.idx, s.now, |d|) then
        s.(queue := q, log := s.log + [Ret(u.seqnum, How(u, s.now), d)])
      else s.(queue := q, idx := s.idx + 1)
    case End => s.(scanning := false)
  }

  function How(u: Urb, now: nat): Via {
    if u.isochronous then Streamed(Slot(u.direction, u.ep), u.completeUs, now) else Polled(Slot(1, u.ep), now)
  }

  // ----- Reading the log -----

  /** An event that ends a transfer. */
  predicate Closer<T>(e: Event<T>) {
    e.Ret? || (e.Unlinked? && e.cancelled)
  }

  function Subject<T>(e: Event<T>): u32 {
    if e.Unlinked? then e.target else e.seqnum
  }

  ghost function Closed<T>(log: seq<Event<T>>): set<u32> {
    set k | 0 <= k < |log| && Closer(log[k]) :: Subject(log[k])
  }

  ghost function Waiting(pending: seq<Urb>): set<u32> {
    set i | 0 <= i < |pending| :: pending[i].seqnum
  }

  ghost function Serving(open: Option<u32>): set<u32> {
    if open.Some? then {open.value} else {}
  }

  /** When the last transfer of a stream completes, recomputed from the log alone. */
  ghost function StreamEnd<T>(log: seq<Event<T>>, slot: nat): nat {
    if log == [] then 0
    else
      var e := log[|log| - 1];
      if e.Stream? && e.slot == slot then e.due
      else if e.Unlinked? && e.drained == Some(slot) then 0
      else StreamEnd(log[..|log| - 1], slot)
  }

  // ----- What every step keeps -----

  /** Every submitted transfer is in exactly one place, and nothing is answered twice. */
  ghost predicate Fates<T>(pending: seq<Urb>, open: Option<u32>, order: map<u32, nat>, log: seq<Event<T>>) {
    && order.Keys == Waiting(pending) + Closed(log) + Serving(open)
    && Waiting(pending) !! Closed(log)
    && Serving(open) !! (Waiting(pending) + Closed(log))
    && (forall i, j :: 0 <= i < j < |pending| ==> pending[i].seqnum != pending[j].seqnum)
    && (forall k, l :: 0 <= k < l < |log| && Closer(log[k]) && Closer(log[l]) ==> Subject(log[k]) != Subject(log[l]))
  }

  predicate SameStream(u: Urb, v: Urb) {
    u.isochronous && v.isochronous && Slot(u.direction, u.ep) == Slot(v.direction, v.ep)
  }

  /** Deadlines follow queue order within a stream and never pass the stream's end. */
  ghost predicate Deadlines(pending: seq<Urb>, table: seq<Endpoint>)
    requires |table| == 32
  {
    && (forall i, j :: 0 <= i < j < |pending| && SameStream(pending[i], pending[j])
          ==> pending[i].completeUs <= pending[j].completeUs)
    && (forall i :: 0 <= i < |pending| && pending[i].isochronous
          ==> pending[i].completeUs <= table[Slot(pending[i].direction, pending[i].ep)].streamEndUs)
  }

  /** Transfers wait in the order they were submitted, the one being served is the youngest. */
  ghost predicate InOrder(pending: seq<Urb>, open: Option<u32>, order: map<u32, nat>) {
    && (forall q :: q in order ==> order[q] < |order|)
    && (forall i :: 0 <= i < |pending| ==> pending[i].seqnum in order)
    && (forall i, j :: 0 <= i < j < |pending| ==> order[pending[i].seqnum] < order[pending[j].seqnum])
    && (open.Some? ==> open.value in order && order[open.value] == |order| - 1)
    && (open.Some? ==> forall i :: 0 <= i < |pending| ==> order[pending[i].seqnum] < |order| - 1)
  }

  predicate StreamedOn<T>(e: Event<T>, slot: nat) {
    e.Ret? && e.via.Streamed? && e.via.slot == slot
  }

  /** Queued isochronous transfers of a stream complete in submit order, never early. */
  ghost predicate StreamsInOrder<T>(pending: seq<Urb>, open: Option<u32>, order: map<u32, nat>, log: seq<Event<T>>)
    requires InOrder(pending, open, order)
  {
    && (forall k :: 0 <= k < |log| && log[k].Ret? && log[k].via.Streamed? ==>
          log[k].seqnum in order && log[k].via.due <= log[k].via.at)
    && (forall k, l :: 0 <= k < l < |log| && log[k].Ret? && log[k].via.Streamed? && StreamedOn(log[l], log[k].via.slot)
          ==> order[log[k].seqnum] < order[log[l].seqnum])
    && (forall k, i :: 0 <= k < |log| && 0 <= i < |pending| && pending[i].isochronous
                       && StreamedOn(log[k], Slot(pending[i].direction, pending[i].ep))
          ==> order[log[k].seqnum] < order[pending[i].seqnum])
    && (open.Some? ==> forall k :: 0 <= k < |log| && log[k].Ret? && log[k].via.Streamed? ==>
          order[log[k].seqnum] < |order| - 1)
  }

  /** The start of a transfer on a stream, with the deadline computed for it. */
  predicate Announces<T>(e: Event<T>, q: u32, slot: nat, due: nat) {
    e.Stream? && e.seqnum == q && e.slot == slot && e.due == due
  }

  ghost predicate Announced<T>(log: seq<Event<T>>, q: u32, slot: nat, due: nat) {
    exists k :: 0 <= k < |log| && Announces(log[k], q, slot, due)
  }

  /** The deadline a transfer waits for, or completed at, is the one computed when it was submitted. */
  ghost predicate Promised<T>(pending: seq<Urb>, log: seq<Event<T>>) {
    && (forall i :: 0 <= i < |pending| && pending[i].isochronous ==>
          Announced(log, pending[i].seqnum, Slot(pending[i].direction, pending[i].ep), pending[i].completeUs))
    && (forall l :: 0 <= l < |log| && log[l].Ret? && log[l].via.Streamed? ==>
          Announced(log[..l], log[l].seqnum, log[l].via.slot, log[l].via.due))
  }

  predicate PolledOn<T>(e: Event<T>, slot: nat) {
    e.Ret? && e.via.Polled? && e.via.slot == slot
  }

  /** Two transfers polled from an endpoint are at least its service interval apart. */
  ghost predicate Paced<T>(table: seq<Endpoint>, log: seq<Event<T>>)
    requires |table| == 32
  {
    && (forall k :: 0 <= k < |log| && log[k].Ret? && log[k].via.Polled? ==>
          log[k].via.slot < 32
          && log[k].via.at + table[log[k].via.slot].intervalUs <= table[log[k].via.slot].nextPollUs)
    && (forall k, l :: 0 <= k < l < |log| && log[k].Ret? && log[k].via.Polled? && PolledOn(log[l], log[k].via.slot) ==>
          log[k].via.at + table[log[k].via.slot].intervalUs <= log[l].via.at)
  }

  ghost function DueAfter<T>(log: seq<Event<T>>, k: nat, interval: nat): nat
    requires k < |log| && log[k].Stream?
  {
    var end := StreamEnd(log[..k], log[k].slot);
    (if end > log[k].arrived then end else log[k].arrived) + log[k].packets * interval
  }

  /** The table holds exactly the stream ends the log describes, and the intervals never change. */
  ghost predicate Clocked<T>(table: seq<Endpoint>, log: seq<Event<T>>, intervals: seq<nat>)
    requires |table| == 32
  {
    && |intervals| == 32
    && (forall slot :: 0 <= slot < 32 ==>
          table[slot].intervalUs == intervals[slot] && table[slot].streamEndUs == StreamEnd(log, slot))
    && (forall k :: 0 <= k < |log| && log[k].Stream? ==>
          log[k].slot < 32 && log[k].due == DueAfter(log, k, intervals[log[k].slot]))
  }

  /** Addresses are canonical, only IN transfers wait for data, and no isochronous transfer that
      a running pass has left behind is due. */
  ghost predicate Scanned<T>(s: Sched<T>) {
    && Sized(s.queue)
    && (s.scanning ==> s.idx <= |s.queue.pending| && s.open.None?)
    && (forall i :: 0 <= i < |s.queue.pending| ==> Canonical(s.queue.pending[i]))
    && (forall i :: 0 <= i < |s.queue.pending| && !s.queue.pending[i].isochronous ==> s.queue.pending[i].direction == 1)
    && (s.scanning ==> NoneDueBefore(s.queue.pending, s.idx, s.now))
  }

  predicate NoneDueBefore(pending: seq<Urb>, idx: nat, now: nat)
    requires idx <= |pending|
  {
    forall i :: 0 <= i < idx && pending[i].isochronous ==> now < pending[i].completeUs
  }

  ghost predicate Inv<T>(s: Sched<T>, intervals: seq<nat>) {
    && Scanned(s)
    && Fates(s.queue.pending, s.open, s.order, s.log)
    && Deadlines(s.queue.pending, s.queue.table)
    && Ordered(s.queue.pending, s.open, s.order, s.log)
    && Promised(s.queue.pending, s.log)
    && Paced(s.queue.table, s.log)
    && Clocked(s.queue.table, s.log, intervals)
  }

  function Intervals(table: seq<Endpoint>): seq<nat> {
    seq(|table|, i requires 0 <= i < |table| => table[i].intervalUs)
  }

  // ----- The log grows -----

  lemma ClosedGrows<T>(log: seq<Event<T>>, e: Event<T>)
    ensures Closed(log + [e]) == Closed(log) + if Closer(e) then {Subject(e)} else {}
  {
    var l := log + [e];
    assert l[|log|] == e && forall k :: 0 <= k < |log| ==> l[k] == log[k];
    forall q | q in Closed(log) ensures q in Closed(l) {
      var k :| 0 <= k < |log| && Closer(log[k]) && Subject(log[k]) == q;
      assert Closer(l[k]);
    }
  }

  lemma StreamEndGrows<T>(log: seq<Event<T>>, e: Event<T>, slot: nat)
    ensures StreamEnd(log + [e], slot) ==
            if e.Stream? && e.slot == slot then e.due
            else if e.Unlinked? && e.drained == Some(slot) then 0
            else StreamEnd(log, slot)
  {
    assert (log + [e])[..|log|] == log;
  }

  lemma WaitingAfterRemove(pending: seq<Urb>, i: nat)
    requires i < |pending|
    requires forall a, b :: 0 <= a < b < |pending| ==> pending[a].seqnum != pending[b].seqnum
    ensures Waiting(Remove(pending, i)) == Waiting(pending) - {pending[i].seqnum}
  {
    var r := Remove(pending, i);
    forall q | q in Waiting(pending) - {pending[i].seqnum} ensures q in Waiting(r) {
      var a :| 0 <= a < |pending| && pending[a].seqnum == q;
      assert r[if a < i then a else a - 1] == pending[a];
    }
  }

  lemma WaitingAfterPush(pending: seq<Urb>, u: Urb)
    ensures Waiting(pending + [u]) == Waiting(pending) + {u.seqnum}
  {
    var p := pending + [u];
    assert p[|pending|] == u;
    forall q | q in Waiting(pending) ensures q in Waiting(p) {
      var a :| 0 <= a < |pending| && pending[a].seqnum == q;
      assert p[a] == pending[a];
    }
  }

  // ----- Five moves make up every step -----

  /** A request starts being served. */
  lemma FatesOpen<T>(pending: seq<Urb>, order: map<u32, nat>, log: seq<Event<T>>, q: u32)
    requires Fates(pending, None, order, log) && q !in order
    ensures Fates(pending, Some(q), order[q := |order|], log)
  {
  }

  /** Something is logged that ends no transfer. */
  lemma FatesNote<T>(pending: seq<Urb>, open: Option<u32>, order: map<u32, nat>, log: seq<Event<T>>, e: Event<T>)
    requires Fates(pending, open, order, log) && !Closer(e)
    ensures Fates(pending, open, order, log + [e])
  {
    ClosedGrows(log, e);
  }

  /** The request being served is answered. */
  lemma FatesAnswer<T>(pending: seq<Urb>, open: Option<u32>, order: map<u32, nat>, log: seq<Event<T>>, e: Event<T>)
    requires Fates(pending, open, order, log) && e.Ret? && open == Some(e.seqnum)
    ensures Fates(pending, None, order, log + [e])
  {
    ClosedGrows(log, e);
    forall k | 0 <= k < |log| && Closer(log[k]) ensures Subject(log[k]) != e.seqnum {
      assert Subject(log[k]) in Closed(log);
    }
  }

  /** The request being served is queued. */
  lemma FatesQueue<T>(pending: seq<Urb>, open: Option<u32>, order: map<u32, nat>, log: seq<Event<T>>, u: Urb)
    requires Fates(pending, open, order, log) && open == Some(u.seqnum)
    ensures Fates(pending + [u], None, order, log)
  {
    WaitingAfterPush(pending, u);
    forall i | 0 <= i < |pending| ensures pending[i].seqnum != u.seqnum {
      assert pending[i].seqnum in Waiting(pending);
    }
  }

  /** A queued transfer leaves the queue with the event that ends it. */
  lemma FatesTake<T>(pending: seq<Urb>, order: map<u32, nat>, log: seq<Event<T>>, i: nat, e: Event<T>)
    requires Fates(pending, None, order, log) && i < |pending| && Closer(e) && Subject(e) == pending[i].seqnum
    ensures Fates(Remove(pending, i), None, order, log + [e])
  {
    ClosedGrows(log, e);
    WaitingAfterRemove(pending, i);
    assert Subject(e) in Waiting(pending);
    forall k | 0 <= k < |log| && Closer(log[k]) ensures Subject(log[k]) != Subject(e) {
      assert Subject(log[k]) in Closed(log);
    }
  }

  lemma OrderOpen<T>(pending: seq<Urb>, order: map<u32, nat>, log: seq<Event<T>>, q: u32)
    requires InOrder(pending, None, order) && StreamsInOrder(pending, None, order, log) && q !in order
    ensures InOrder(pending, Some(q), order[q := |order|])
    ensures StreamsInOrder(pending, Some(q), order[q := |order|], log)
  {
  }

  lemma OrderNote<T>(pending: seq<Urb>, open: Option<u32>, order: map<u32, nat>, log: seq<Event<T>>, e: Event<T>)
    requires InOrder(pending, open, order) && StreamsInOrder(pending, open, order, log)
    requires !(e.Ret? && e.via.Streamed?)
    ensures StreamsInOrder(pending, open, order, log + [e])
  {
  }

  lemma OrderQueue<T>(pending: seq<Urb>, open: Option<u32>, order: map<u32, nat>, log: seq<Event<T>>, u: Urb)
    requires InOrder(pending, open, order) && StreamsInOrder(pending, open, order, log) && open == Some(u.seqnum)
    ensures InOrder(pending + [u], None, order)
    ensures StreamsInOrder(pending + [u], None, order, log)
  {
  }

  lemma OrderRemove<T>(pending: seq<Urb>, order: map<u32, nat>, log: seq<Event<T>>, i: nat)
    requires InOrder(pending, None, order) && StreamsInOrder(pending, None, order, log) && i < |pending|
    ensures InOrder(Remove(pending, i), None, order)
    ensures StreamsInOrder(Remove(pending, i), None, order, log)
  {
  }

  /** The first due transfer of a stream completes. */
  lemma OrderStream<T>(pending: seq<Urb>, order: map<u32, nat>, log: seq<Event<T>>, i: nat, e: Event<T>)
    requires InOrder(pending, None, order) && StreamsInOrder(pending, None, order, log) && i < |pending|
    requires pending[i].isochronous && forall j :: 0 <= j < i ==> !SameStream(pending[j], pending[i])
    requires e.Ret? && e.via.Streamed? && e.seqnum == pending[i].seqnum && e.via.due <= e.via.at
    requires e.via.slot == Slot(pending[i].direction, pending[i].ep)
    ensures InOrder(Remove(pending, i), None, order)
    ensures StreamsInOrder(Remove(pending, i), None, order, log + [e])
  {
  }

  // ----- Every step keeps every property -----

  lemma FatesKept<T>(s: Sched<T>, a: Act<T>)
    requires Fates(s.queue.pending, s.open, s.order, s.log) && Can(s, a)
    requires s.scanning ==> s.open.None?
    ensures var s' := Next(s, a); Fates(s'.queue.pending, s'.open, s'.order, s'.log)
  {
    var p := s.queue.pending;
    match a
    case Open(q) => FatesOpen(p, s.order, s.log, q);
    case Close(d) => FatesAnswer(p, s.open, s.order, s.log, Ret(s.open.value, Direct, d));
    case QueueIn(u) =>
      FatesOpen(p, s.order, s.log, u.seqnum);
      var order := s.order[u.seqnum := |s.order|];
      if |p| == MAX_PENDING_URBS {
        FatesAnswer(p, Some(u.seqnum), order, s.log, Ret(u.seqnum, Overflow, []));
      } else {
        FatesQueue(p, Some(u.seqnum), order, s.log, u);
      }
    case QueueIso(u, t) =>
      var e := Next(s, a).log[|s.log|];
      FatesNote(p, s.open, s.order, s.log, e);
      if |p| < MAX_PENDING_URBS {
        FatesQueue(p, s.open, s.order, s.log + [e], u.(completeUs := e.due));
      }
    case Unlink(q, target) =>
      var e := Next(s, a).log[|s.log|];
      if e.cancelled {
        FatesTake(p, s.order, s.log, Find(p, target), e);
      } else {
        FatesNote(p, s.open, s.order, s.log, e);
      }
    case Begin(now) =>
    case Scan(d) =>
      if Completes(s.queue, s.idx, s.now, |d|) {
        FatesTake(p, s.order, s.log, s.idx, Ret(p[s.idx].seqnum, How(p[s.idx], s.now), d));
      }
    case End =>
  }

  /** A due transfer is the first of its stream: anything before it would have been due as well. */
  lemma FirstOfStream<T>(s: Sched<T>)
    requires Scanned(s) && Deadlines(s.queue.pending, s.queue.table)
    requires s.scanning && s.idx < |s.queue.pending|
    requires s.queue.pending[s.idx].isochronous && IsDue(s.queue, s.queue.pending[s.idx], s.now)
    ensures forall j :: 0 <= j < s.idx ==> !SameStream(s.queue.pending[j], s.queue.pending[s.idx])
  {
  }

  ghost predicate Ordered<T>(pending: seq<Urb>, open: Option<u32>, order: map<u32, nat>, log: seq<Event<T>>) {
    InOrder(pending, open, order) && StreamsInOrder(pending, open, order, log)
  }

  lemma OrderKeptByQueue<T>(s: Sched<T>, a: Act<T>)
    requires Can(s, a) && (a.QueueIn? || a.QueueIso?) && Ordered(s.queue.pending, s.open, s.order, s.log)
    ensures var s' := Next(s, a); Ordered(s'.queue.pending, s'.open, s'.order, s'.log)
  {
    hide InOrder, StreamsInOrder;
    var p, u := s.queue.pending, a.urb;
    if a.QueueIn? {
      OrderOpen(p, s.order, s.log, u.seqnum);
      var order := s.order[u.seqnum := |s.order|];
      if |p| == MAX_PENDING_URBS {
        OrderServed(p, order, u.seqnum);
        OrderNote(p, Some(u.seqnum), order, s.log, Ret(u.seqnum, Overflow, []));
        StreamsServed(p, order, Next(s, a).log, u.seqnum);
      } else {
        OrderQueue(p, Some(u.seqnum), order, s.log, u);
      }
    } else {
      var e := Next(s, a).log[|s.log|];
      OrderNote(p, s.open, s.order, s.log, e);
      if |p| < MAX_PENDING_URBS {
        OrderQueue(p, s.open, s.order, s.log + [e], u.(completeUs := e.due));
      }
    }
  }

  /** The request being served is done with. */
  lemma OrderServed(pending: seq<Urb>, order: map<u32, nat>, q: u32)
    requires InOrder(pending, Some(q), order)
    ensures InOrder(pending, None, order)
  {
  }

  lemma StreamsServed<T>(pending: seq<Urb>, order: map<u32, nat>, log: seq<Event<T>>, q: u32)
    requires InOrder(pending, Some(q), order) && InOrder(pending, None, order)
    requires StreamsInOrder(pending, Some(q), order, log)
    ensures StreamsInOrder(pending, None, order, log)
  {
  }

  lemma OrderKeptByUnlink<T>(s: Sched<T>, a: Act<T>)
    requires Can(s, a) && a.Unlink? && Ordered(s.queue.pending, s.open, s.order, s.log)
    ensures var s' := Next(s, a); Ordered(s'.queue.pending, s'.open, s'.order, s'.log)
  {
    hide InOrder, StreamsInOrder, Find, Remove, Drains;
    var p, e := s.queue.pending, Next(s, a).log[|s.log|];
    OrderNote(p, s.open, s.order, s.log, e);
    if e.cancelled { OrderRemove(p, s.order, s.log + [e], Find(p, a.target)); }
  }

  lemma OrderKeptByCommand<T>(s: Sched<T>, a: Act<T>)
    requires Can(s, a) && !a.Scan? && Ordered(s.queue.pending, s.open, s.order, s.log)
    ensures var s' := Next(s, a); Ordered(s'.queue.pending, s'.open, s'.order, s'.log)
  {
    hide InOrder, StreamsInOrder, Find, Remove, Drains;
    var p := s.queue.pending;
    if a.QueueIn? || a.QueueIso? {
      OrderKeptByQueue(s, a);
    } else if a.Unlink? {
      OrderKeptByUnlink(s, a);
    } else if a.Open? {
      OrderOpen(p, s.order, s.log, a.seqnum);
    } else if a.Close? {
      OrderNote(p, s.open, s.order, s.log, Ret(s.open.value, Direct, a.data));
      OrderServed(p, s.order, s.open.value);
      StreamsServed(p, s.order, Next(s, a).log, s.open.value);
    }
  }

  lemma OrderKept<T>(s: Sched<T>, a: Act<T>)
    requires Can(s, a) && Scanned(s) && Deadlines(s.queue.pending, s.queue.table)
    requires Ordered(s.queue.pending, s.open, s.order, s.log)
    ensures var s' := Next(s, a); Ordered(s'.queue.pending, s'.open, s'.order, s'.log)
  {
    if !a.Scan? {
      OrderKeptByCommand(s, a);
    } else if Completes(s.queue, s.idx, s.now, |a.data|) {
      var p := s.queue.pending;
      var e := Ret(p[s.idx].seqnum, How(p[s.idx], s.now), a.data);
      if p[s.idx].isochronous {
        FirstOfStream(s);
        OrderStream(p, s.order, s.log, s.idx, e);
      } else {
        OrderNote(p, s.open, s.order, s.log, e);
        OrderRemove(p, s.order, s.log + [e], s.idx);
      }
    }
  }

  lemma AnnouncedStays<T>(log: seq<Event<T>>, e: Event<T>, q: u32, slot: nat, due: nat)
    requires Announced(log, q, slot, due)
    ensures Announced(log + [e], q, slot, due)
  {
    var k :| 0 <= k < |log| && Announces(log[k], q, slot, due);
    assert (log + [e])[k] == log[k];
  }

  /** Something is logged; if it ends a transfer of a stream, its deadline was announced. */
  lemma PromisedNote<T>(pending: seq<Urb>, log: seq<Event<T>>, e: Event<T>)
    requires Promised(pending, log)
    requires e.Ret? && e.via.Streamed? ==> Announced(log, e.seqnum, e.via.slot, e.via.due)
    ensures Promised(pending, log + [e])
  {
    var log' := log + [e];
    forall i | 0 <= i < |pending| && pending[i].isochronous
      ensures Announced(log', pending[i].seqnum, Slot(pending[i].direction, pending[i].ep), pending[i].completeUs)
    {
      AnnouncedStays(log, e, pending[i].seqnum, Slot(pending[i].direction, pending[i].ep), pending[i].completeUs);
    }
    assert log'[..|log|] == log;
    assert forall l :: 0 <= l < |log| ==> log'[..l] == log[..l];
  }

  lemma PromisedQueue<T>(pending: seq<Urb>, log: seq<Event<T>>, u: Urb)
    requires Promised(pending, log)
    requires u.isochronous ==> Announced(log, u.seqnum, Slot(u.direction, u.ep), u.completeUs)
    ensures Promised(pending + [u], log)
  {
  }

  lemma PromisedRemove<T>(pending: seq<Urb>, log: seq<Event<T>>, i: nat)
    requires Promised(pending, log) && i < |pending|
    ensures Promised(Remove(pending, i), log)
  {
  }

  lemma PromisedKept<T>(s: Sched<T>, a: Act<T>)
    requires Can(s, a) && Promised(s.queue.pending, s.log)
    ensures Promised(Next(s, a).queue.pending, Next(s, a).log)
  {
    hide Promised, Announced;
    var p, s' := s.queue.pending, Next(s, a);
    if a.QueueIn? {
      PromisedQueue(p, s.log, a.urb);
      if |p| == MAX_PENDING_URBS { PromisedNote(p, s.log, s'.log[|s.log|]); }
    } else if a.QueueIso? {
      var e := s'.log[|s.log|];
      PromisedNote(p, s.log, e);
      AnnouncedNow(s.log, e);
      PromisedQueue(p, s.log + [e], a.urb.(completeUs := e.due));
    } else if a.Unlink? {
      PromisedNote(p, s.log, s'.log[|s.log|]);
      if Find(p, a.target) < |p| { PromisedRemove(p, s'.log, Find(p, a.target)); }
    } else if a.Close? {
      PromisedNote(p, s.log, s'.log[|s.log|]);
    } else if a.Scan? && Completes(s.queue, s.idx, s.now, |a.data|) {
      var u := p[s.idx];
      if u.isochronous { PromisedOf(p, s.log, s.idx); }
      PromisedNote(p, s.log, Ret(u.seqnum, How(u, s.now), a.data));
      PromisedRemove(p, s'.log, s.idx);
    }
  }

  lemma AnnouncedNow<T>(log: seq<Event<T>>, e: Event<T>)
    requires e.Stream?
    ensures Announced(log + [e], e.seqnum, e.slot, e.due)
  {
    assert Announces((log + [e])[|log|], e.seqnum, e.slot, e.due);
  }

  lemma PromisedOf<T>(pending: seq<Urb>, log: seq<Event<T>>, i: nat)
    requires Promised(pending, log) && i < |pending| && pending[i].isochronous
    ensures Announced(log, pending[i].seqnum, Slot(pending[i].direction, pending[i].ep), pending[i].completeUs)
  {
  }

  lemma ScannedByCommand<T>(s: Sched<T>, a: Act<T>)
    requires Scanned(s) && Can(s, a) && !a.Scan? && !a.Unlink?
    ensures Scanned(Next(s, a))
  {
  }

  lemma ScannedByUnlink<T>(s: Sched<T>, a: Act<T>)
    requires Scanned(s) && Can(s, a) && a.Unlink?
    ensures Scanned(Next(s, a))
  {
    hide Drains, Find;
  }

  lemma ScannedByScan<T>(s: Sched<T>, a: Act<T>)
    requires Scanned(s) && Can(s, a) && a.Scan?
    ensures Scanned(Next(s, a))
  {
  }

  lemma ScannedKept<T>(s: Sched<T>, a: Act<T>)
    requires Scanned(s) && Can(s, a)
    ensures Scanned(Next(s, a))
  {
    hide Scanned, Next, Can;
    if a.Scan? {
      ScannedByScan(s, a);
    } else if a.Unlink? {
      ScannedByUnlink(s, a);
    } else {
      ScannedByCommand(s, a);
    }
  }

  lemma DeadlinesPush(pending: seq<Urb>, table: seq<Endpoint>, u: Urb, due: nat)
    requires |table| == 32 && Deadlines(pending, table)
    requires u.isochronous ==> u.completeUs == due && table[Slot(u.direction, u.ep)].streamEndUs <= due
    ensures var slot := Slot(u.direction, u.ep);
            var table' := if u.isochronous then table[slot := table[slot].(streamEndUs := due)] else table;
            Deadlines(pending, table') && Deadlines(pending + [u], table')
  {
  }

  lemma DeadlinesRemove(pending: seq<Urb>, table: seq<Endpoint>, i: nat)
    requires |table| == 32 && Deadlines(pending, table) && i < |pending|
    ensures Deadlines(Remove(pending, i), table)
  {
  }

  lemma DeadlinesKept<T>(s: Sched<T>, a: Act<T>)
    requires Scanned(s) && Deadlines(s.queue.pending, s.queue.table) && Can(s, a)
    ensures Deadlines(Next(s, a).queue.pending, Next(s, a).queue.table)
  {
    var p, table := s.queue.pending, s.queue.table;
    match a
    case QueueIn(u) => DeadlinesPush(p, table, u, 0);
    case QueueIso(u, t) =>
      var due := Due(table[Slot(u.direction, u.ep)], |u.packets|, t);
      DeadlinesPush(p, table, u.(completeUs := due), due);
    case Unlink(q, target) => CancelKeepsDeadlines(s.queue, target);
    case Scan(d) => DeadlinesRemove(p, table, s.idx);
    case _ =>
  }

  /** A transfer is polled once its endpoint may be. */
  lemma PacedPoll<T>(table: seq<Endpoint>, log: seq<Event<T>>, slot: nat, now: nat, q: u32, d: seq<T>)
    requires |table| == 32 && Paced(table, log) && slot < 32 && table[slot].nextPollUs <= now
    ensures Paced(table[slot := table[slot].(nextPollUs := now + table[slot].intervalUs)], log + [Ret(q, Polled(slot, now), d)])
  {
  }

  lemma PacedNote<T>(table: seq<Endpoint>, log: seq<Event<T>>, slot: nat, end: nat, e: Event<T>)
    requires |table| == 32 && Paced(table, log) && slot < 32 && !(e.Ret? && e.via.Polled?)
    ensures Paced(table, log + [e])
    ensures Paced(table[slot := table[slot].(streamEndUs := end)], log + [e])
  {
  }

  lemma PacedKept<T>(s: Sched<T>, a: Act<T>)
    requires Can(s, a) && Paced(s.queue.table, s.log)
    ensures Paced(Next(s, a).queue.table, Next(s, a).log)
  {
    var s' := Next(s, a);
    var p, table := s.queue.pending, s.queue.table;
    if |s'.log| > |s.log| {
      var e := s'.log[|s.log|];
      if a.Scan? && !p[s.idx].isochronous {
        PacedPoll(table, s.log, Slot(1, p[s.idx].ep), s.now, p[s.idx].seqnum, a.data);
      } else if e.Stream? {
        PacedNote(table, s.log, e.slot, e.due, e);
      } else {
        PacedNote(table, s.log, if e.Unlinked? && e.drained.Some? then e.drained.value else 0, 0, e);
      }
    }
  }

  /** What an event does to the table: it starts a stream, or drains one, or neither. */
  ghost predicate Retimes<T>(table: seq<Endpoint>, table': seq<Endpoint>, e: Event<T>)
    requires |table| == 32
  {
    && |table'| == 32
    && (e.Stream? ==> e.slot < 32 && e.due == Due(table[e.slot], e.packets, e.arrived))
    && forall slot :: 0 <= slot < 32 ==>
         && table'[slot].intervalUs == table[slot].intervalUs
         && table'[slot].streamEndUs ==
            if e.Stream? && e.slot == slot then e.due
            else if e.Unlinked? && e.drained == Some(slot) then 0
            else table[slot].streamEndUs
  }

  lemma ClockedNote<T>(table: seq<Endpoint>, table': seq<Endpoint>, log: seq<Event<T>>, e: Event<T>, intervals: seq<nat>)
    requires |table| == 32 && Clocked(table, log, intervals) && Retimes(table, table', e)
    ensures Clocked(table', log + [e], intervals)
  {
    hide StreamEnd;
    var log' := log + [e];
    forall slot { StreamEndGrows(log, e, slot); }
    forall k | 0 <= k < |log'| && log'[k].Stream?
      ensures log'[k].slot < 32 && log'[k].due == DueAfter(log', k, intervals[log'[k].slot])
    {
      assert log'[..k] == log[..k];
      if k == |log| { assert log[..k] == log; }
    }
  }

  lemma RetimedByUnlink<T>(s: Sched<T>, a: Act<T>)
    requires Can(s, a) && a.Unlink?
    ensures var s' := Next(s, a);
            |s'.log| > |s.log| && s'.log == s.log + [s'.log[|s.log|]]
            && Retimes(s.queue.table, s'.queue.table, s'.log[|s.log|])
  {
    hide Find, Drains, Remove;
  }

  lemma RetimedByAct<T>(s: Sched<T>, a: Act<T>)
    requires Can(s, a) && !a.Unlink? && |Next(s, a).log| > |s.log|
    ensures var s' := Next(s, a);
            s'.log == s.log + [s'.log[|s.log|]] && Retimes(s.queue.table, s'.queue.table, s'.log[|s.log|])
  {
    hide Remove;
  }

  lemma QuietAct<T>(s: Sched<T>, a: Act<T>)
    requires Can(s, a) && |Next(s, a).log| <= |s.log|
    ensures Next(s, a).log == s.log && Next(s, a).queue.table == s.queue.table
  {
    hide Remove, Find, Drains;
  }

  lemma ClockedKept<T>(s: Sched<T>, a: Act<T>, intervals: seq<nat>)
    requires Can(s, a) && Clocked(s.queue.table, s.log, intervals)
    ensures Clocked(Next(s, a).queue.table, Next(s, a).log, intervals)
  {
    hide Clocked, Retimes, Next;
    var s' := Next(s, a);
    if |s'.log| > |s.log| {
      if a.Unlink? { RetimedByUnlink(s, a); } else { RetimedByAct(s, a); }
      ClockedNote(s.queue.table, s'.queue.table, s.log, s'.log[|s.log|], intervals);
    } else {
      QuietAct(s, a);
    }
  }

  // ----- Unlinking and the address a transfer was submitted with -----

  /** Some other transfer in the queue shares the table entry of the one at `i` and has a deadline. */
  ghost predicate Shares(pending: seq<Urb>, i: nat)
    requires i < |pending|
  {
    exists j :: 0 <= j < |pending| && j != i && SameStream(pending[j], pending[i]) && pending[j].completeUs > 0
  }

  /** The unlinked transfer empties its stream by the exact address it carries, but another
      address still has a transfer with a deadline in the same table entry. */
  ghost predicate Aliased(q: Queue, target: u32) {
    var i := Find(q.pending, target);
    i < |q.pending| && Drains(q.pending, i) && Shares(q.pending, i)
  }

  lemma DrainDeadlines(pending: seq<Urb>, table: seq<Endpoint>, i: nat)
    requires |table| == 32 && Deadlines(pending, table) && i < |pending| && pending[i].isochronous
    ensures var slot := Slot(pending[i].direction, pending[i].ep);
            Deadlines(Remove(pending, i), table[slot := table[slot].(streamEndUs := 0)]) <==> !Shares(pending, i)
  {
    var rest := Remove(pending, i);
    if Shares(pending, i) {
      var j :| 0 <= j < |pending| && j != i && SameStream(pending[j], pending[i]) && pending[j].completeUs > 0;
      assert rest[if j < i then j else j - 1] == pending[j];
    } else {
      forall j | 0 <= j < |rest| && SameStream(rest[j], pending[i]) ensures rest[j].completeUs == 0 {
        assert rest[j] == pending[if j < i then j else j + 1];
      }
    }
  }

  /** Unlinking keeps the deadlines below their stream's end exactly when no other address
      shares the emptied stream's table entry. */
  lemma CancelDeadlines(q: Queue, target: u32)
    requires Sized(q) && Deadlines(q.pending, q.table)
    ensures Deadlines(Cancel(q, target).pending, Cancel(q, target).table) <==> !Aliased(q, target)
  {
    var i := Find(q.pending, target);
    if i < |q.pending| {
      DeadlinesRemove(q.pending, q.table, i);
      if Drains(q.pending, i) { DrainDeadlines(q.pending, q.table, i); }
    }
  }

  /** An isochronous IN endpoint 1 with a service interval of one microframe, and nothing else. */
  function IsoTable(): (t: seq<Endpoint>)
    ensures |t| == 32 && t[17] == Endpoint(XFER_ISOC, 125, 0, 0)
  {
    seq(32, s => if s == 17 then Endpoint(XFER_ISOC, 125, 0, 0) else NO_ENDPOINT)
  }

  /** A transfer of one empty packet on an IN endpoint. */
  function OnePacketUrb(seqnum: u32, ep: u32): Urb {
    Urb(seqnum, ep, 1, 0, true, 0, [Packet(0, 0)], 0)
  }

  /** Two addresses of one table entry: endpoint 17 is endpoint 1 with a number the host may not use.
      A transfer is submitted on each, and the first one unlinked. */
  lemma AliasedExample()
    ensures var u, v := OnePacketUrb(7, 1), OnePacketUrb(8, 17);
            var q := PushIso(PushIso(Queue([], IsoTable(), 0), u, 5), v, 5);
            && Sized(q) && Deadlines(q.pending, q.table)
            && !Deadlines(Cancel(q, 7).pending, Cancel(q, 7).table)
  {
    var u, v := OnePacketUrb(7, 1), OnePacketUrb(8, 17);
    var q1 := PushIso(Queue([], IsoTable(), 0), u, 5);
    assert q1.pending == [u.(completeUs := 130)] && q1.table[17] == Endpoint(XFER_ISOC, 125, 0, 130);
    var q := PushIso(q1, v, 5);
    assert q.pending == [u.(completeUs := 130), v.(completeUs := 255)];
    AliasedPair(q, q.pending[0], q.pending[1]);
  }

  lemma AliasedPair(q: Queue, u: Urb, v: Urb)
    requires Sized(q) && Deadlines(q.pending, q.table) && q.pending == [u, v]
    requires u.isochronous && v.isochronous && u.seqnum != v.seqnum && u.ep != v.ep
    requires Slot(u.direction, u.ep) == Slot(v.direction, v.ep) && v.completeUs > 0
    ensures !Deadlines(Cancel(q, u.seqnum).pending, Cancel(q, u.seqnum).table)
  {
    assert Find(q.pending, u.seqnum) == 0 && Remove(q.pending, 0) == [v];
    assert SameStream(q.pending[1], q.pending[0]);
    CancelDeadlines(q, u.seqnum);
  }

  lemma CanonicalDrains(pending: seq<Urb>, i: nat)
    requires i < |pending| && Drains(pending, i)
    requires forall j :: 0 <= j < |pending| ==> Canonical(pending[j])
    ensures !Shares(pending, i)
  {
    var rest, u := Remove(pending, i), pending[i];
    forall j | 0 <= j < |pending| && j != i ensures !SameStream(pending[j], u) {
      var v := rest[if j < i then j else j - 1];
      assert v == pending[j];
      assert !(v.isochronous && v.ep == u.ep && v.direction == u.direction);
      assert Canonical(v) && Canonical(u);
    }
  }

  /** With canonical addresses that is always so. */
  lemma CancelKeepsDeadlines(q: Queue, target: u32)
    requires Sized(q) && Deadlines(q.pending, q.table)
    requires forall i :: 0 <= i < |q.pending| ==> Canonical(q.pending[i])
    ensures Deadlines(Cancel(q, target).pending, Cancel(q, target).table)
  {
    CancelDeadlines(q, target);
    var i := Find(q.pending, target);
    if i < |q.pending| && Drains(q.pending, i) { CanonicalDrains(q.pending, i); }
  }

  // ----- Whole sessions -----

  lemma InvKept<T>(s: Sched<T>, a: Act<T>, intervals: seq<nat>)
    requires Inv(s, intervals) && Can(s, a)
    ensures Inv(Next(s, a), intervals)
  {
    ScannedKept(s, a);
    FatesKept(s, a);
    DeadlinesKept(s, a);
    OrderKept(s, a);
    PromisedKept(s, a);
    PacedKept(s, a);
    ClockedKept(s, a, intervals);
  }

  lemma InvAtStart<T>(table: seq<Endpoint>)
    requires FreshTable(table)
    ensures Inv<T>(Fresh(table), Intervals(table))
  {
    ClockedAtStart<T>(table);
    FatesAtStart<T>();
    hide Clocked, Fates;
  }

  lemma ClockedAtStart<T>(table: seq<Endpoint>)
    requires FreshTable(table)
    ensures Clocked<T>(table, [], Intervals(table))
  {
  }

  lemma FatesAtStart<T>()
    ensures Fates<T>([], None, map[], [])
  {
  }

  /** A run of a session: its states and the steps between them. */
  ghost predicate SessionRun<T>(ss: seq<Sched<T>>, acts: seq<Act<T>>, table: seq<Endpoint>) {
    && FreshTable(table)
    && |ss| == |acts| + 1
    && ss[0] == Fresh(table)
    && forall i :: 0 <= i < |acts| ==> Can(ss[i], acts[i]) && ss[i + 1] == Next(ss[i], acts[i])
  }

  lemma {:induction false} RunKeepsInv<T>(ss: seq<Sched<T>>, acts: seq<Act<T>>, table: seq<Endpoint>, i: nat)
    requires SessionRun(ss, acts, table) && i < |ss|
    ensures Inv(ss[i], Intervals(table))
  {
    if i == 0 {
      InvAtStart<T>(table);
    } else {
      RunKeepsInv(ss, acts, table, i - 1);
      InvKept(ss[i - 1], acts[i - 1], Intervals(table));
    }
  }

  /** Exactly-once fate: in every state of every session, a submitted transfer is either pending,
      being served, or ended by exactly one event, a RET_SUBMIT or a successful unlink. */
  lemma ExactlyOnce<T>(ss: seq<Sched<T>>, acts: seq<Act<T>>, table: seq<Endpoint>, i: nat, q: u32)
    requires SessionRun(ss, acts, table) && i < |ss| && q in ss[i].order
    ensures var s := ss[i];
            && (q in Waiting(s.queue.pending) <==> q !in Closed(s.log) && s.open != Some(q))
            && (s.open == Some(q) ==> q !in Closed(s.log))
            && (forall k, l :: 0 <= k < l < |s.log| && Closer(s.log[k]) && Subject(s.log[k]) == q && Closer(s.log[l])
                  ==> Subject(s.log[l]) != q)
  {
    RunKeepsInv(ss, acts, table, i);
  }

  /** The log only grows, so what it says about a moment stays said. */
  lemma {:induction false} LogExtends<T>(ss: seq<Sched<T>>, acts: seq<Act<T>>, table: seq<Endpoint>, i: nat, j: nat)
    requires SessionRun(ss, acts, table) && i <= j < |ss|
    ensures ss[i].log <= ss[j].log
  {
    if i < j { LogExtends(ss, acts, table, i, j - 1); }
  }

  /** An unlink reports -ECONNRESET exactly when its target is pending, and from then on the
      target is never answered. */
  lemma UnlinkIsFinal<T>(ss: seq<Sched<T>>, acts: seq<Act<T>>, table: seq<Endpoint>, i: nat, j: nat)
    requires SessionRun(ss, acts, table) && i < j < |ss| && acts[i].Unlink?
    ensures var n := |ss[i].log|;
            && n < |ss[j].log| && ss[j].log[n].Unlinked? && ss[j].log[n].target == acts[i].target
            && (ss[j].log[n].cancelled <==> acts[i].target in Waiting(ss[i].queue.pending))
            && (ss[j].log[n].cancelled ==>
                  forall k :: 0 <= k < |ss[j].log| && ss[j].log[k].Ret? ==> ss[j].log[k].seqnum != acts[i].target)
  {
    var n := |ss[i].log|;
    LogExtends(ss, acts, table, i + 1, j);
    assert ss[i + 1] == Next(ss[i], acts[i]);
    var e := ss[i + 1].log[n];
    assert ss[j].log[n] == e;
    RunKeepsInv(ss, acts, table, j);
    forall k | 0 <= k < |ss[j].log| && ss[j].log[k].Ret? && e.cancelled ensures ss[j].log[k].seqnum != acts[i].target {
      assert Closer(ss[j].log[k]) && Closer(ss[j].log[n]);
    }
  }

  /** Isochronous schedule: in every state deadlines follow queue order and the stream's end, and
      queued transfers of a stream have completed in submit order and not before their deadline,
      which is the one computed when they were submitted. */
  lemma IsochronousSchedule<T>(ss: seq<Sched<T>>, acts: seq<Act<T>>, table: seq<Endpoint>, i: nat)
    requires SessionRun(ss, acts, table) && i < |ss|
    ensures Sized(ss[i].queue) && Deadlines(ss[i].queue.pending, ss[i].queue.table)
    ensures Ordered(ss[i].queue.pending, ss[i].open, ss[i].order, ss[i].log)
    ensures Promised(ss[i].queue.pending, ss[i].log)
  {
    RunKeepsInv(ss, acts, table, i);
  }

  /** Interrupt pacing: two transfers polled from one endpoint are an interval apart. */
  lemma InterruptPacing<T>(ss: seq<Sched<T>>, acts: seq<Act<T>>, table: seq<Endpoint>, i: nat, k: nat, l: nat)
    requires SessionRun(ss, acts, table) && i < |ss| && k < l < |ss[i].log|
    requires ss[i].log[k].Ret? && ss[i].log[k].via.Polled? && PolledOn(ss[i].log[l], ss[i].log[k].via.slot)
    ensures ss[i].log[k].via.slot < 32
    ensures ss[i].log[k].via.at + table[ss[i].log[k].via.slot].intervalUs <= ss[i].log[l].via.at
  {
    RunKeepsInv(ss, acts, table, i);
  }

  // ----- Zero drift -----

  /** Packets queued on a stream by the events from `a` up to `b`. */
  ghost function PacketsBetween<T>(log: seq<Event<T>>, slot: nat, a: nat, b: nat): nat
    requires a <= b <= |log|
    decreases b
  {
    if a == b then 0
    else PacketsBetween(log, slot, a, b - 1)
         + if log[b - 1].Stream? && log[b - 1].slot == slot then log[b - 1].packets else 0
  }

  /** From `a` up to `b` the stream is fed in time and not stopped. */
  ghost predicate Fed<T>(log: seq<Event<T>>, slot: nat, a: nat, b: nat)
    requires a <= b <= |log|
  {
    forall k :: a <= k < b ==>
      && (log[k].Stream? && log[k].slot == slot ==> log[k].arrived <= StreamEnd(log[..k], slot))
      && !(log[k].Unlinked? && log[k].drained == Some(slot))
  }

  lemma StreamEndAt<T>(log: seq<Event<T>>, k: nat, slot: nat)
    requires k < |log|
    ensures StreamEnd(log[..k + 1], slot) ==
            if log[k].Stream? && log[k].slot == slot then log[k].due
            else if log[k].Unlinked? && log[k].drained == Some(slot) then 0
            else StreamEnd(log[..k], slot)
  {
    assert log[..k + 1] == log[..k] + [log[k]];
    StreamEndGrows(log[..k], log[k], slot);
  }

  /** The event at `k` moves the end of a stream by its packets, if it moves it at all. */
  ghost predicate Advances<T>(log: seq<Event<T>>, slot: nat, interval: nat, k: nat)
    requires k < |log|
  {
    && (log[k].Stream? && log[k].slot == slot ==> log[k].due == StreamEnd(log[..k], slot) + interval * log[k].packets)
    && !(log[k].Unlinked? && log[k].drained == Some(slot))
  }

  /** A transfer that arrives in time is due its packets after the stream's end. */
  lemma FedAdvances<T>(log: seq<Event<T>>, slot: nat, interval: nat, a: nat, k: nat, b: nat)
    requires a <= k < b <= |log| && Fed(log, slot, a, b)
    requires log[k].Stream? && log[k].slot == slot ==> log[k].due == DueAfter(log, k, interval)
    ensures Advances(log, slot, interval, k)
  {
  }

  lemma Distribute(x: nat, y: nat, z: nat)
    ensures x * (y + z) == x * y + x * z
  {
  }

  lemma AdvancesBy<T>(log: seq<Event<T>>, slot: nat, interval: nat, a: nat, k: nat)
    requires a <= k < |log| && Advances(log, slot, interval, k)
    ensures StreamEnd(log[..k + 1], slot) - StreamEnd(log[..k], slot)
            == interval * PacketsBetween(log, slot, a, k + 1) - interval * PacketsBetween(log, slot, a, k)
  {
    StreamEndAt(log, k, slot);
    if log[k].Stream? && log[k].slot == slot {
      Distribute(interval, PacketsBetween(log, slot, a, k), log[k].packets);
    }
  }

  lemma {:induction false} StreamEndAdvances<T>(log: seq<Event<T>>, slot: nat, interval: nat, a: nat, b: nat)
    requires a <= b <= |log| && forall k :: a <= k < b ==> Advances(log, slot, interval, k)
    ensures StreamEnd(log[..b], slot) == StreamEnd(log[..a], slot) + interval * PacketsBetween(log, slot, a, b)
  {
    if a < b {
      StreamEndAdvances(log, slot, interval, a, b - 1);
      AdvancesBy(log, slot, interval, a, b - 1);
    }
  }

  /** In a session, a transfer's deadline is computed from the log and its endpoint's interval. */
  lemma DueInRun<T>(ss: seq<Sched<T>>, acts: seq<Act<T>>, table: seq<Endpoint>, i: nat, k: nat)
    requires SessionRun(ss, acts, table) && i < |ss| && k < |ss[i].log| && ss[i].log[k].Stream?
    ensures var (log, slot) := (ss[i].log, ss[i].log[k].slot);
            slot < 32 && log[k].due == DueAfter(log, k, table[slot].intervalUs)
  {
    hide StreamEnd, DueAfter, Fates, Deadlines, Ordered, Promised, Paced;
    RunKeepsInv(ss, acts, table, i);
    assert Clocked(ss[i].queue.table, ss[i].log, Intervals(table));
  }

  /** A log whose deadlines are computed so has no drift. */
  lemma {:induction false} LogHasNoDrift<T>(log: seq<Event<T>>, slot: nat, interval: nat, a: nat, b: nat)
    requires a <= b < |log| && Fed(log, slot, a + 1, b + 1)
    requires log[a].Stream? && log[a].slot == slot && log[b].Stream? && log[b].slot == slot
    requires forall k :: a < k <= b && log[k].Stream? && log[k].slot == slot ==> log[k].due == DueAfter(log, k, interval)
    ensures log[b].due == log[a].due + interval * PacketsBetween(log, slot, a + 1, b + 1)
  {
    hide StreamEnd, PacketsBetween, Advances, Fed;
    forall k | a + 1 <= k < b + 1 ensures Advances(log, slot, interval, k) {
      FedAdvances(log, slot, interval, a + 1, k, b + 1);
    }
    StreamEndAdvances(log, slot, interval, a + 1, b + 1);
    StreamEndAt(log, a, slot);
    StreamEndAt(log, b, slot);
  }

  /** Zero drift: while a stream is fed in time, the deadline of a transfer queued at `b` is the
      deadline of the one queued at `a` plus one interval per packet since, whatever the jitter. */
  lemma ZeroDrift<T>(ss: seq<Sched<T>>, acts: seq<Act<T>>, table: seq<Endpoint>, i: nat, slot: nat, a: nat, b: nat)
    requires SessionRun(ss, acts, table) && i < |ss| && a <= b < |ss[i].log| && slot < 32
    requires ss[i].log[a].Stream? && ss[i].log[a].slot == slot
    requires ss[i].log[b].Stream? && ss[i].log[b].slot == slot
    requires Fed(ss[i].log, slot, a + 1, b + 1)
    ensures var (log, interval) := (ss[i].log, table[slot].intervalUs);
            && log[a].due == DueAfter(log, a, interval)
            && log[b].due == log[a].due + interval * PacketsBetween(log, slot, a + 1, b + 1)
  {
    hide Can, Next, StreamEnd, PacketsBetween, Fed, DueAfter;
    var log, interval := ss[i].log, table[slot].intervalUs;
    forall k | a <= k <= b && log[k].Stream? && log[k].slot == slot ensures log[k].due == DueAfter(log, k, interval) {
      DueInRun(ss, acts, table, i, k);
    }
    LogHasNoDrift(log, slot, interval, a, b);
  }

  /** A transfer of a stream completes no earlier than the deadline its submit computed: the stream's
      end or the arrival, whichever is later, and one interval per packet. */
  lemma CompletionsKeepDeadlines<T>(ss: seq<Sched<T>>, acts: seq<Act<T>>, table: seq<Endpoint>, i: nat, l: nat) returns (a: nat)
    requires SessionRun(ss, acts, table) && i < |ss| && l < |ss[i].log|
    requires ss[i].log[l].Ret? && ss[i].log[l].via.Streamed?
    ensures var (log, e) := (ss[i].log, ss[i].log[l]);
            && a < l && log[a].Stream? && log[a].seqnum == e.seqnum && log[a].slot == e.via.slot < 32
            && log[a].due == e.via.due == DueAfter(log, a, table[e.via.slot].intervalUs) <= e.via.at
  {
    hide StreamEnd, DueAfter, Scanned, Fates, Deadlines, Paced, Clocked;
    RunKeepsInv(ss, acts, table, i);
    var log, e := ss[i].log, ss[i].log[l];
    assert Announced(log[..l], e.seqnum, e.via.slot, e.via.due);
    a :| 0 <= a < l && Announces(log[..l][a], e.seqnum, e.via.slot, e.via.due);
    DueInRun(ss, acts, table, i, a);
  }

  /** So two completions of a stream that is fed in time between their submits have deadlines exactly
      one interval per packet apart. */
  lemma CompletionsDoNotDrift<T>(ss: seq<Sched<T>>, acts: seq<Act<T>>, table: seq<Endpoint>, i: nat, k: nat, l: nat)
      returns (a: nat, b: nat)
    requires SessionRun(ss, acts, table) && i < |ss| && k < |ss[i].log| && l < |ss[i].log|
    requires ss[i].log[k].Ret? && ss[i].log[k].via.Streamed? && StreamedOn(ss[i].log[l], ss[i].log[k].via.slot)
    ensures var (log, slot) := (ss[i].log, ss[i].log[k].via.slot);
            && slot < 32 && a < k && b < l && log[a].Stream? && log[b].Stream?
            && log[a].seqnum == log[k].seqnum && log[b].seqnum == log[l].seqnum
            && (a <= b && Fed(log, slot, a + 1, b + 1) ==>
                  log[l].via.due == log[k].via.due + table[slot].intervalUs * PacketsBetween(log, slot, a + 1, b + 1))
  {
    var log, slot := ss[i].log, ss[i].log[k].via.slot;
    a := CompletionsKeepDeadlines(ss, acts, table, i, k);
    b := CompletionsKeepDeadlines(ss, acts, table, i, l);
    if a <= b && Fed(log, slot, a + 1, b + 1) {
      ZeroDrift(ss, acts, table, i, slot, a, b);
    }
  }
}
