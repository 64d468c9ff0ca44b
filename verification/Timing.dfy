/** When a session's transfers are due, told from its log and its queue alone.

    `Schedule` bounds the times in the endpoint table. Here they are exact: a stream that an unlink has
    emptied starts over, an endpoint may be polled as soon as its interval has passed, and a pass
    completes exactly what is due. */
module Timing {
  import opened Urbs
  import opened Schedule

  // ----- A stopped stream starts over -----

  /** Some isochronous transfer with this exact address waits. */
  ghost predicate Feeding(pending: seq<Urb>, ep: u32, direction: u32) {
    exists j :: 0 <= j < |pending| && pending[j].isochronous && pending[j].ep == ep && pending[j].direction == direction
  }

  /** What an unlink leaves: the first transfer with the target's number is gone, and the end of its
      stream is 0 if and only if that was the last one with its address. Nothing else changes. */
  lemma CancelOutcome(q: Queue, target: u32, i: nat)
    requires Sized(q) && i < |q.pending| && q.pending[i].seqnum == target
    requires forall j :: 0 <= j < i ==> q.pending[j].seqnum != target
    ensures var q', u := Cancel(q, target), q.pending[i];
            var slot := Slot(u.direction, u.ep);
            && q'.pending == q.pending[..i] + q.pending[i + 1..] && q'.timeoutUs == q.timeoutUs
            && q'.table == if u.isochronous && !Feeding(q'.pending, u.ep, u.direction)
                           then q.table[slot := q.table[slot].(streamEndUs := 0)] else q.table
  {
    assert Find(q.pending, target) == i;
  }

  lemma CancelMisses(q: Queue, target: u32)
    requires Sized(q) && forall j :: 0 <= j < |q.pending| ==> q.pending[j].seqnum != target
    ensures Cancel(q, target) == q
  {
  }

  /** A step that queues a transfer on this stream. */
  predicate Feeds<T>(a: Act<T>, slot: nat) {
    a.QueueIso? && Slot(a.urb.direction, a.urb.ep) == slot
  }

  /** Only a submit moves the end of a stream that has ended. */
  lemma EndStays<T>(s: Sched<T>, a: Act<T>, slot: nat)
    requires Can(s, a) && slot < 32 && s.queue.table[slot].streamEndUs == 0 && !Feeds(a, slot)
    ensures Next(s, a).queue.table[slot].streamEndUs == 0
  {
    hide Drains, Find, Remove;
  }

  lemma {:induction false} EndStaysInRun<T>(ss: seq<Sched<T>>, acts: seq<Act<T>>, table: seq<Endpoint>, i: nat, j: nat, slot: nat)
    requires SessionRun(ss, acts, table) && i <= j < |ss| && slot < 32
    requires Sized(ss[i].queue) && ss[i].queue.table[slot].streamEndUs == 0
    requires forall k :: i <= k < j ==> !Feeds(acts[k], slot)
    ensures Sized(ss[j].queue) && ss[j].queue.table[slot].streamEndUs == 0
    decreases j
  {
    if i < j {
      hide Next;
      EndStaysInRun(ss, acts, table, i, j - 1, slot);
      EndStays(ss[j - 1], acts[j - 1], slot);
      StaysSized(ss, acts, table, j);
    }
  }

  lemma StaysSized<T>(ss: seq<Sched<T>>, acts: seq<Act<T>>, table: seq<Endpoint>, i: nat)
    requires SessionRun(ss, acts, table) && i < |ss|
    ensures Sized(ss[i].queue) && |table| == 32 && forall slot :: 0 <= slot < 32 ==> ss[i].queue.table[slot].intervalUs == table[slot].intervalUs
  {
    hide Can, Next, Fates, Deadlines, Ordered, Promised, Paced;
    RunKeepsInv(ss, acts, table, i);
    assert Clocked(ss[i].queue.table, ss[i].log, Intervals(table));
  }

  /** Whether the unlink at step `i` takes the last transfer of this address out of the queue. */
  ghost predicate Empties<T>(s: Sched<T>, a: Act<T>, t: Sched<T>, ep: u32, direction: u32) {
    && a.Unlink? && !Feeding(t.queue.pending, ep, direction)
    && exists k :: 0 <= k < |s.queue.pending| && s.queue.pending[k].seqnum == a.target
                   && (forall j :: 0 <= j < k ==> s.queue.pending[j].seqnum != a.target)
                   && s.queue.pending[k].isochronous && s.queue.pending[k].ep == ep && s.queue.pending[k].direction == direction
  }

  lemma EmptiesStops<T>(s: Sched<T>, a: Act<T>, ep: u32, direction: u32)
    requires Can(s, a) && Empties(s, a, Next(s, a), ep, direction)
    ensures Next(s, a).queue.table[Slot(direction, ep)].streamEndUs == 0
  {
    var k :| 0 <= k < |s.queue.pending| && s.queue.pending[k].seqnum == a.target
             && (forall j :: 0 <= j < k ==> s.queue.pending[j].seqnum != a.target)
             && s.queue.pending[k].isochronous && s.queue.pending[k].ep == ep && s.queue.pending[k].direction == direction;
    hide Cancel, Feeding;
    CancelOutcome(s.queue, a.target, k);
  }

  /** In every session: after an unlink that empties a stream, the next transfer submitted to it is due
      one interval per packet after its own arrival, whatever was scheduled before. */
  lemma StreamStartsOver<T>(ss: seq<Sched<T>>, acts: seq<Act<T>>, table: seq<Endpoint>, i: nat, j: nat, ep: u32, direction: u32)
    requires SessionRun(ss, acts, table) && i < j < |acts| && Empties(ss[i], acts[i], ss[i + 1], ep, direction)
    requires Feeds(acts[j], Slot(direction, ep)) && forall k :: i < k < j ==> !Feeds(acts[k], Slot(direction, ep))
    ensures var n, u, slot := |ss[j].log|, acts[j].urb, Slot(direction, ep);
            && |table| == 32 && n < |ss[j + 1].log| && ss[j + 1].log[n].Stream? && ss[j + 1].log[n].seqnum == u.seqnum
            && ss[j + 1].log[n].due == acts[j].arrived + |u.packets| * table[slot].intervalUs
  {
    assert Can(ss[i], acts[i]) && ss[i + 1] == Next(ss[i], acts[i]);
    assert Can(ss[j], acts[j]) && ss[j + 1] == Next(ss[j], acts[j]);
    EmptiesStops(ss[i], acts[i], ep, direction);
    StaysSized(ss, acts, table, i + 1);
    EndStaysInRun(ss, acts, table, i + 1, j, Slot(direction, ep));
    StaysSized(ss, acts, table, j);
  }

  // ----- When an endpoint may be polled -----

  /** One interval after it was last polled with success, or at any time before that. */
  ghost function NextPoll<T>(log: seq<Event<T>>, slot: nat, interval: nat): nat {
    if log == [] then 0
    else
      var e := log[|log| - 1];
      if PolledOn(e, slot) then e.via.at + interval else NextPoll(log[..|log| - 1], slot, interval)
  }

  lemma PollGrows<T>(log: seq<Event<T>>, e: Event<T>, slot: nat, interval: nat)
    ensures NextPoll(log + [e], slot, interval) == if PolledOn(e, slot) then e.via.at + interval else NextPoll(log, slot, interval)
  {
    assert (log + [e])[..|log|] == log;
  }

  /** What a step does to the next poll of an endpoint. */
  lemma PollByAct<T>(s: Sched<T>, a: Act<T>, slot: nat)
    requires Can(s, a) && slot < 32 && !a.Unlink?
    ensures var t := Next(s, a);
            if |t.log| > |s.log| && PolledOn(t.log[|s.log|], slot)
            then t.queue.table[slot].nextPollUs == t.log[|s.log|].via.at + s.queue.table[slot].intervalUs
            else t.queue.table[slot].nextPollUs == s.queue.table[slot].nextPollUs
    ensures var t := Next(s, a); t.log == s.log || t.log == s.log + [t.log[|s.log|]]
  {
    hide Remove;
  }

  lemma PollByUnlink<T>(s: Sched<T>, a: Act<T>, slot: nat)
    requires Can(s, a) && slot < 32 && a.Unlink?
    ensures var t := Next(s, a);
            && t.queue.table[slot].nextPollUs == s.queue.table[slot].nextPollUs
            && t.log == s.log + [t.log[|s.log|]] && t.log[|s.log|].Unlinked?
  {
    hide Drains, Find, Remove;
  }

  lemma {:induction false} PollTimes<T>(ss: seq<Sched<T>>, acts: seq<Act<T>>, table: seq<Endpoint>, i: nat, slot: nat)
    requires SessionRun(ss, acts, table) && i < |ss| && slot < 32
    ensures Sized(ss[i].queue) && |table| == 32
    ensures ss[i].queue.table[slot].nextPollUs == NextPoll(ss[i].log, slot, table[slot].intervalUs)
  {
    StaysSized(ss, acts, table, i);
    if i > 0 {
      hide Next, NextPoll, PolledOn, Can;
      var s, a, interval := ss[i - 1], acts[i - 1], table[slot].intervalUs;
      assert Can(s, a) && ss[i] == Next(s, a);
      PollTimes(ss, acts, table, i - 1, slot);
      StaysSized(ss, acts, table, i - 1);
      if a.Unlink? {
        PollByUnlink(s, a, slot);
        UnlinkPollsNothing(ss[i].log[|s.log|], slot);
      } else {
        PollByAct(s, a, slot);
      }
      if |ss[i].log| > |s.log| { PollGrows(s.log, ss[i].log[|s.log|], slot, interval); }
    }
  }

  lemma UnlinkPollsNothing<T>(e: Event<T>, slot: nat)
    requires e.Unlinked?
    ensures !PolledOn(e, slot)
  {
  }

  // ----- A pass completes what is due -----

  /** In every session, at every transfer a pass visits: data may be fetched for it if and only if its
      endpoint's interval has passed since it was last polled with success, and it completes if and only
      if some was; an isochronous one completes if and only if its deadline has come. Otherwise it stays
      and nothing is logged. */
  lemma ScanOutcome<T>(ss: seq<Sched<T>>, acts: seq<Act<T>>, table: seq<Endpoint>, i: nat, d: seq<T>)
    requires SessionRun(ss, acts, table) && i < |ss| && ss[i].scanning && ss[i].idx < |ss[i].queue.pending|
    requires |d| <= ss[i].queue.pending[ss[i].idx].length
    ensures |table| == 32
    ensures var s, u := ss[i], ss[i].queue.pending[ss[i].idx];
            var slot := Slot(if u.isochronous then u.direction else 1, u.ep);
            var due := if u.isochronous then u.completeUs else NextPoll(s.log, slot, table[slot].intervalUs);
            && (Can(s, Scan(d)) <==> d == [] || due <= s.now)
            && (Can(s, Scan(d)) ==>
                  var t := Next(s, Scan(d));
                  if due <= s.now && (u.isochronous || d != [])
                  then && t.queue.pending == s.queue.pending[..s.idx] + s.queue.pending[s.idx + 1..] && t.idx == s.idx
                       && t.log == s.log + [Ret(u.seqnum, if u.isochronous then Streamed(slot, due, s.now) else Polled(slot, s.now), d)]
                  else t.queue.pending == s.queue.pending && t.idx == s.idx + 1 && t.log == s.log)
  {
    var s, u := ss[i], ss[i].queue.pending[ss[i].idx];
    PollTimes(ss, acts, table, i, Slot(1, u.ep));
    hide SessionRun, NextPoll;
  }
}
