/** What a completion pass does, endpoint by endpoint.

    The server makes one pass over the whole queue, deleting in place, with every endpoint mixed
    into it. `Serve` is the simple meaning: each endpoint by itself hands its buffered bytes to its
    own transfers, oldest first. This module proves that the pass, undisturbed by device threads,
    is that for every endpoint at once. */
module Greedy {
  import opened Urbs

  datatype Done<T> = Done(urb: Urb, data: seq<T>)

  datatype State<T> = State(queue: Queue, bufs: seq<seq<T>>, done: seq<Done<T>>)

  predicate Ready<T>(st: State<T>) {
    Sized(st.queue) && |st.bufs| == 16
  }

  /** Endpoint buffer of a transfer. */
  function Ep(u: Urb): (e: nat)
    ensures e < 16
  {
    u.ep % 16
  }

  /** How many bytes the pass fetches for the transfer at `i`. */
  function Got<T>(st: State<T>, i: nat, now: nat): nat
    requires Ready(st) && i < |st.queue.pending|
  {
    var u := st.queue.pending[i];
    if IsDue(st.queue, u, now) && !u.isochronous then Min(u.length, |st.bufs[Ep(u)]|) else 0
  }

  function Step<T>(st: State<T>, i: nat, now: nat): (r: State<T>)
    requires Ready(st) && i < |st.queue.pending|
    ensures Ready(r)
  {
    var u := st.queue.pending[i];
    var got := Got(st, i, now);
    var buf := st.bufs[Ep(u)];
    State(Visit(st.queue, i, now, got),
          if got > 0 then st.bufs[Ep(u) := buf[got..]] else st.bufs,
          if Completes(st.queue, i, now, got) then st.done + [Done(u, if got > 0 then buf[..got] else [])] else st.done)
  }

  /** The pass stays at an index whose transfer completed. */
  function After<T>(st: State<T>, i: nat, now: nat): (i': nat)
    requires Ready(st) && i < |st.queue.pending|
    ensures i' <= |Step(st, i, now).queue.pending|
  {
    if Completes(st.queue, i, now, Got(st, i, now)) then i else i + 1
  }

  /** The completion pass from index `i` on. */
  function Pass<T>(st: State<T>, i: nat, now: nat): (r: State<T>)
    requires Ready(st) && i <= |st.queue.pending|
    ensures Ready(r)
    decreases |st.queue.pending| - i
  {
    if i == |st.queue.pending| then st
    else Pass(Step(st, i, now), After(st, i, now), now)
  }

  // ----- Data that arrives -----

  /** What a device thread hands over to an endpoint. */
  datatype Store<T> = Store(ep: nat, data: seq<T>)

  /** Data goes into an empty buffer of a data endpoint, cut to what fits. Into any other it does not
      go now: its thread waits, or gives up. */
  function Stored<T>(bufs: seq<seq<T>>, ss: seq<Store<T>>): (r: seq<seq<T>>)
    requires |bufs| == 16
    ensures |r| == 16
  {
    if ss == [] then bufs
    else
      var b, s := Stored(bufs, ss[..|ss| - 1]), ss[|ss| - 1];
      var e := s.ep % 16;
      if e != 0 && b[e] == [] then b[e := Cut(s.data, ENDPOINT_MAX_DATA)] else b
  }

  function Fed<T>(st: State<T>, ss: seq<Store<T>>): (r: State<T>)
    requires Ready(st)
    ensures Ready(r)
  {
    st.(bufs := Stored(st.bufs, ss))
  }

  /** What arrives before the next iteration of a pass, and after it. */
  function First<T>(feeds: seq<seq<Store<T>>>): seq<Store<T>> {
    if feeds == [] then [] else feeds[0]
  }

  function Rest<T>(feeds: seq<seq<Store<T>>>): seq<seq<Store<T>>> {
    if feeds == [] then [] else feeds[1..]
  }

  /** The completion pass with data arriving before each iteration, and after the last one. */
  function PassWith<T>(st: State<T>, i: nat, now: nat, feeds: seq<seq<Store<T>>>): (r: State<T>)
    requires Ready(st) && i <= |st.queue.pending|
    ensures Ready(r)
    decreases |st.queue.pending| - i
  {
    var fed := Fed(st, First(feeds));
    if i == |st.queue.pending| then fed
    else PassWith(Step(fed, i, now), After(fed, i, now), now, Rest(feeds))
  }

  /** Without arrivals it is the pass. */
  lemma {:induction false} PassUndisturbed<T>(st: State<T>, i: nat, now: nat)
    requires Ready(st) && i <= |st.queue.pending|
    ensures PassWith(st, i, now, []) == Pass(st, i, now)
    decreases |st.queue.pending| - i
  {
    if i < |st.queue.pending| {
      PassUndisturbed(Step(st, i, now), After(st, i, now), now);
    }
  }

  /** A pass only adds to what it has completed. */
  lemma {:induction false} PassAdds<T>(st: State<T>, i: nat, now: nat, feeds: seq<seq<Store<T>>>)
    requires Ready(st) && i <= |st.queue.pending|
    ensures st.done <= PassWith(st, i, now, feeds).done
    decreases |st.queue.pending| - i
  {
    if i < |st.queue.pending| {
      var fed := Fed(st, First(feeds));
      PassAdds(Step(fed, i, now), After(fed, i, now), now, Rest(feeds));
    }
  }

  // ----- The simple meaning -----

  datatype Served<T> = Served(done: seq<Done<T>>, left: seq<Urb>, rest: seq<T>)

  /** One endpoint alone: `open` if it may be polled, `paced` if only once. */
  function Serve<T>(us: seq<Urb>, buf: seq<T>, open: bool, paced: bool): Served<T> {
    if us == [] then Served([], [], buf)
    else
      var n := Min(us[0].length, |buf|);
      if open && n > 0 then
        var r := Serve(us[1..], buf[n..], !paced, paced);
        Served([Done(us[0], buf[..n])] + r.done, r.left, r.rest)
      else
        var r := Serve(us[1..], buf, open, paced);
        Served(r.done, [us[0]] + r.left, r.rest)
  }

  predicate Mine(u: Urb, e: nat) {
    !u.isochronous && Ep(u) == e
  }

  function On(us: seq<Urb>, e: nat): seq<Urb> {
    if us == [] then [] else (if Mine(us[0], e) then [us[0]] else []) + On(us[1..], e)
  }

  function DoneOn<T>(ds: seq<Done<T>>, e: nat): seq<Done<T>> {
    if ds == [] then [] else (if Mine(ds[0].urb, e) then [ds[0]] else []) + DoneOn(ds[1..], e)
  }

  function Open(q: Queue, e: nat, now: nat): bool
    requires Sized(q) && e < 16
  {
    q.table[16 + e].nextPollUs <= now
  }

  function ServeFrom<T>(st: State<T>, i: nat, now: nat, e: nat): Served<T>
    requires Ready(st) && i <= |st.queue.pending| && e < 16
  {
    Serve(On(st.queue.pending[i..], e), st.bufs[e], Open(st.queue, e, now), st.queue.table[16 + e].intervalUs > 0)
  }

  lemma {:induction false} OnAppend(a: seq<Urb>, b: seq<Urb>, e: nat)
    ensures On(a + b, e) == On(a, e) + On(b, e)
  {
    if a == [] {
      assert a + b == b;
    } else {
      OnAppend(a[1..], b, e);
      assert (a + b)[0] == a[0] && (a + b)[1..] == a[1..] + b;
      var here := if Mine(a[0], e) then [a[0]] else [];
      assert here + (On(a[1..], e) + On(b, e)) == (here + On(a[1..], e)) + On(b, e);
    }
  }

  lemma {:induction false} DoneOnAppend<T>(a: seq<Done<T>>, d: Done<T>, e: nat)
    ensures DoneOn(a + [d], e) == DoneOn(a, e) + if Mine(d.urb, e) then [d] else []
  {
    var last := if Mine(d.urb, e) then [d] else [];
    if a == [] {
      assert a + [d] == [d] && [d][1..] == [];
      assert last + [] == last && [] + last == last;
    } else {
      DoneOnAppend(a[1..], d, e);
      assert (a + [d])[0] == a[0] && (a + [d])[1..] == a[1..] + [d];
      var here := if Mine(a[0].urb, e) then [a[0]] else [];
      assert here + (DoneOn(a[1..], e) + last) == (here + DoneOn(a[1..], e)) + last;
    }
  }

  /** The queue around index `i` before and after an iteration there, as one endpoint sees it. */
  lemma StepQueue<T>(st: State<T>, i: nat, now: nat, e: nat)
    requires Ready(st) && i < |st.queue.pending| && e < 16
    ensures var (p, p') := (st.queue.pending, Step(st, i, now).queue.pending);
            var here := if Mine(p[i], e) then [p[i]] else [];
            var i' := After(st, i, now);
            && On(p[i..], e) == here + On(p'[i'..], e)
            && On(p'[..i'], e) == On(p[..i], e) + if i' == i then [] else here
  {
    var p, p' := st.queue.pending, Step(st, i, now).queue.pending;
    assert p[i..][1..] == p[i + 1..];
    if After(st, i, now) == i {
      assert p'[i..] == p[i + 1..] && p'[..i] == p[..i];
    } else {
      assert p' == p && p[..i + 1] == p[..i] + [p[i]];
      OnAppend(p[..i], [p[i]], e);
    }
  }

  /** What one iteration changes for endpoint `e` besides the queue. */
  lemma StepRest<T>(st: State<T>, i: nat, now: nat, e: nat)
    requires Ready(st) && i < |st.queue.pending| && e < 16
    ensures var (u, st') := (st.queue.pending[i], Step(st, i, now));
            var got := Min(u.length, |st.bufs[e]|);
            var hit := Mine(u, e) && Open(st.queue, e, now) && got > 0;
            && (Mine(u, e) ==> (hit <==> After(st, i, now) == i))
            && st'.bufs[e] == (if hit then st.bufs[e][got..] else st.bufs[e])
            && st'.queue.table[16 + e].intervalUs == st.queue.table[16 + e].intervalUs
            && Open(st'.queue, e, now) == (if hit then st.queue.table[16 + e].intervalUs == 0 else Open(st.queue, e, now))
            && DoneOn(st'.done, e) == DoneOn(st.done, e) + if hit then [Done(u, st.bufs[e][..got])] else []
  {
    var st' := Step(st, i, now);
    if |st'.done| > |st.done| { DoneOnAppend(st.done, st'.done[|st.done|], e); }
  }

  /** `Serve` after its first transfer, or after none when the visited one is another endpoint's. */
  lemma ServeNext<T>(u: Urb, mine: bool, us: seq<Urb>, buf: seq<T>, open: bool, paced: bool,
                     done: seq<Done<T>>, left: seq<Urb>)
    ensures var n := Min(u.length, |buf|);
            var hit := mine && open && n > 0;
            var r := Serve((if mine then [u] else []) + us, buf, open, paced);
            var r' := Serve(us, if hit then buf[n..] else buf, if hit then !paced else open, paced);
            && done + r.done == (done + if hit then [Done(u, buf[..n])] else []) + r'.done
            && left + r.left == (left + if mine && !hit then [u] else []) + r'.left
            && r.rest == r'.rest
  {
    if mine {
      assert ([u] + us)[1..] == us;
    } else {
      assert [] + us == us;
    }
  }

  /** One iteration of the pass is one step of `Serve` for the endpoint it visits, and nothing
      for the others. */
  lemma StepServes<T>(st: State<T>, i: nat, now: nat, e: nat)
    requires Ready(st) && i < |st.queue.pending| && e < 16
    ensures var (st', i') := (Step(st, i, now), After(st, i, now));
            var (r, r') := (ServeFrom(st, i, now, e), ServeFrom(st', i', now, e));
            && DoneOn(st.done, e) + r.done == DoneOn(st'.done, e) + r'.done
            && On(st.queue.pending[..i], e) + r.left == On(st'.queue.pending[..i'], e) + r'.left
            && r.rest == r'.rest
  {
    StepQueue(st, i, now, e);
    StepRest(st, i, now, e);
    var st', i', u := Step(st, i, now), After(st, i, now), st.queue.pending[i];
    ServeNext(u, Mine(u, e), On(st'.queue.pending[i'..], e), st.bufs[e], Open(st.queue, e, now),
              st.queue.table[16 + e].intervalUs > 0, DoneOn(st.done, e), On(st.queue.pending[..i], e));
  }

  lemma {:induction false} PassServes<T>(st: State<T>, i: nat, now: nat, e: nat)
    requires Ready(st) && i <= |st.queue.pending| && e < 16
    ensures var (f, r) := (Pass(st, i, now), ServeFrom(st, i, now, e));
            && DoneOn(f.done, e) == DoneOn(st.done, e) + r.done
            && On(f.queue.pending, e) == On(st.queue.pending[..i], e) + r.left
            && f.bufs[e] == r.rest
    decreases |st.queue.pending| - i
  {
    var p := st.queue.pending;
    if i == |p| {
      assert p[..i] == p && p[i..] == [];
    } else {
      StepServes(st, i, now, e);
      PassServes(Step(st, i, now), After(st, i, now), now, e);
    }
  }

  /** Refinement: for every endpoint the pass completes, leaves and leaves buffered exactly what
      serving that endpoint alone would. */
  lemma PassIsGreedy<T>(q: Queue, bufs: seq<seq<T>>, now: nat, e: nat)
    requires Sized(q) && |bufs| == 16 && e < 16
    ensures var f := Pass(State(q, bufs, []), 0, now);
            Serve(On(q.pending, e), bufs[e], Open(q, e, now), q.table[16 + e].intervalUs > 0)
            == Served(DoneOn(f.done, e), On(f.queue.pending, e), f.bufs[e])
  {
    PassServes(State(q, bufs, []), 0, now, e);
    assert q.pending[0..] == q.pending && q.pending[..0] == [];
  }

  // ----- What serving one endpoint promises -----

  function Positive(us: seq<Urb>): seq<Urb> {
    if us == [] then [] else (if us[0].length > 0 then [us[0]] else []) + Positive(us[1..])
  }

  function Joined<T>(ds: seq<Done<T>>): seq<T> {
    if ds == [] then [] else ds[0].data + Joined(ds[1..])
  }

  function UrbsOf<T>(ds: seq<Done<T>>): seq<Urb> {
    if ds == [] then [] else [ds[0].urb] + UrbsOf(ds[1..])
  }

  /** One more transfer completes ahead of the others. */
  lemma {:induction false} OldestHead<T>(us: seq<Urb>, d: Done<T>, done: seq<Done<T>>, left: seq<Urb>)
    requires us != [] && us[0].length > 0 && d.urb == us[0] && UrbsOf(done) + Positive(left) == Positive(us[1..])
    ensures UrbsOf([d] + done) + Positive(left) == Positive(us)
  {
    assert ([d] + done)[1..] == done;
    assert ([us[0]] + UrbsOf(done)) + Positive(left) == [us[0]] + (UrbsOf(done) + Positive(left));
  }

  /** The completed transfers are the oldest ones that ask for data. */
  lemma {:induction false} ServeOldestFirst<T>(us: seq<Urb>, buf: seq<T>, open: bool, paced: bool)
    ensures var r := Serve(us, buf, open, paced); UrbsOf(r.done) + Positive(r.left) == Positive(us)
  {
    if us != [] {
      var n := Min(us[0].length, |buf|);
      if open && n > 0 {
        ServeOldestFirst(us[1..], buf[n..], !paced, paced);
        var r := Serve(us[1..], buf[n..], !paced, paced);
        OldestHead(us, Done(us[0], buf[..n]), r.done, r.left);
      } else if us[0].length > 0 {
        NothingServed(us, buf, open, paced);
        assert UrbsOf<T>([]) + Positive(us) == Positive(us);
      } else {
        ServeOldestFirst(us[1..], buf, open, paced);
        var r := Serve(us[1..], buf, open, paced);
        assert ([us[0]] + r.left)[1..] == r.left;
        assert Positive([us[0]] + r.left) == Positive(r.left) && Positive(us) == Positive(us[1..]);
      }
    }
  }

  lemma JoinedHead<T>(d: Done<T>, r: Served<T>, buf: seq<T>, n: nat)
    requires n <= |buf| && d.data == buf[..n] && Joined(r.done) + r.rest == buf[n..]
    ensures Joined([d] + r.done) + r.rest == buf
  {
    assert ([d] + r.done)[1..] == r.done;
    assert (d.data + Joined(r.done)) + r.rest == d.data + (Joined(r.done) + r.rest);
  }

  /** Together they carry the buffer's bytes in order. */
  lemma {:induction false} ServeConserves<T>(us: seq<Urb>, buf: seq<T>, open: bool, paced: bool)
    ensures var r := Serve(us, buf, open, paced); Joined(r.done) + r.rest == buf
  {
    if us != [] {
      var n := Min(us[0].length, |buf|);
      if open && n > 0 {
        ServeConserves(us[1..], buf[n..], !paced, paced);
        JoinedHead(Done(us[0], buf[..n]), Serve(us[1..], buf[n..], !paced, paced), buf, n);
      } else {
        ServeConserves(us[1..], buf, open, paced);
      }
    }
  }

  /** No transfer completes without data, or with more than it asked for. */
  lemma {:induction false} ServeFits<T>(us: seq<Urb>, buf: seq<T>, open: bool, paced: bool, k: nat)
    requires k < |Serve(us, buf, open, paced).done|
    ensures var d := Serve(us, buf, open, paced).done[k]; 0 < |d.data| <= d.urb.length
  {
    var n := Min(us[0].length, |buf|);
    if !(open && n > 0) {
      ServeFits(us[1..], buf, open, paced, k);
    } else if k > 0 {
      ServeFits(us[1..], buf[n..], !paced, paced, k - 1);
    }
  }

  /** Nothing is held back: a polled endpoint ends with an empty buffer or no transfer that asks
      for data, a paced one completes one if it can, a closed one none. */
  lemma {:induction false} ServeHoldsNothingBack<T>(us: seq<Urb>, buf: seq<T>, open: bool, paced: bool)
    ensures var r := Serve(us, buf, open, paced);
            && (!open ==> r.done == [])
            && (open && !paced ==> r.rest == [] || Positive(r.left) == [])
            && (open && paced ==> |r.done| == if buf != [] && Positive(us) != [] then 1 else 0)
  {
    if us != [] {
      var n := Min(us[0].length, |buf|);
      if open && n > 0 {
        ServeHoldsNothingBack(us[1..], buf[n..], !paced, paced);
      } else if !open || buf == [] {
        NothingServed(us, buf, open, paced);
      } else {
        ServeHoldsNothingBack(us[1..], buf, open, paced);
        assert Serve(us, buf, open, paced).left[1..] == Serve(us[1..], buf, open, paced).left;
      }
    }
  }

  lemma {:induction false} NothingServed<T>(us: seq<Urb>, buf: seq<T>, open: bool, paced: bool)
    requires !open || buf == []
    ensures Serve(us, buf, open, paced) == Served([], us, buf)
  {
    if us != [] { NothingServed(us[1..], buf, open, paced); }
  }

  // ----- Order, and how long the server may sleep -----

  /** `c` is `a` and `b` merged, each in its own order. */
  predicate Merges<X(==)>(a: seq<X>, b: seq<X>, c: seq<X>) {
    if c == [] then a == [] && b == []
    else
      || (a != [] && a[0] == c[0] && Merges(a[1..], b, c[1..]))
      || (b != [] && b[0] == c[0] && Merges(a, b[1..], c[1..]))
  }

  lemma MergesMore<X>(x: X, inA: bool, a: seq<X>, b: seq<X>, c: seq<X>)
    requires Merges(a, b, c)
    ensures Merges((if inA then [x] else []) + a, (if inA then [] else [x]) + b, [x] + c)
  {
    assert ([x] + c)[1..] == c && [] + a == a && [] + b == b;
    assert ([x] + a)[1..] == a && ([x] + b)[1..] == b;
  }

  lemma StepShape<T>(st: State<T>, i: nat, now: nat)
    requires Ready(st) && i < |st.queue.pending|
    ensures var (p, st', i') := (st.queue.pending, Step(st, i, now), After(st, i, now));
            && p[i..] == [p[i]] + st'.queue.pending[i'..]
            && st'.queue.pending[..i'] == p[..i] + (if i' != i then [p[i]] else [])
            && st'.done == st.done + st'.done[|st.done|..]
            && UrbsOf(st'.done[|st.done|..]) == if i' != i then [] else [p[i]]
  {
    var st' := Step(st, i, now);
    if After(st, i, now) == i {
      assert st'.done[|st.done|..] == [st'.done[|st.done|]];
    }
  }

  lemma {:induction false} UrbsOfAppend<T>(a: seq<Done<T>>, b: seq<Done<T>>)
    ensures UrbsOf(a + b) == UrbsOf(a) + UrbsOf(b)
  {
    if a == [] {
      assert a + b == b;
      assert UrbsOf(a) + UrbsOf(b) == UrbsOf(b);
    } else {
      UrbsOfAppend(a[1..], b);
      assert (a + b)[0] == a[0] && (a + b)[1..] == a[1..] + b;
      assert [a[0].urb] + (UrbsOf(a[1..]) + UrbsOf(b)) == ([a[0].urb] + UrbsOf(a[1..])) + UrbsOf(b);
    }
  }

  lemma Assoc<X>(whole: seq<X>, before: seq<X>, a: seq<X>, b: seq<X>, c: seq<X>)
    requires whole == before + c && before == a + b
    ensures whole == a + (b + c)
  {
  }

  lemma {:induction false} PassMerges<T>(st: State<T>, i: nat, now: nat) returns (left: seq<Urb>, more: seq<Done<T>>)
    requires Ready(st) && i <= |st.queue.pending|
    ensures Pass(st, i, now).queue.pending == st.queue.pending[..i] + left
    ensures Pass(st, i, now).done == st.done + more
    ensures Merges(left, UrbsOf(more), st.queue.pending[i..])
    decreases |st.queue.pending| - i
  {
    left, more := [], [];
    if i < |st.queue.pending| {
      var p, st', i' := st.queue.pending, Step(st, i, now), After(st, i, now);
      StepShape(st, i, now);
      var left', more' := PassMerges(st', i', now);
      MergesMore(p[i], i' != i, left', UrbsOf(more'), st'.queue.pending[i'..]);
      var here, ended := if i' != i then [p[i]] else [], st'.done[|st.done|..];
      left, more := here + left', ended + more';
      UrbsOfAppend(ended, more');
      Assoc(Pass(st, i, now).queue.pending, st'.queue.pending[..i'], p[..i], here, left');
      Assoc(Pass(st, i, now).done, st'.done, st.done, ended, more');
    }
  }

  /** Survivors and completed transfers both keep the queue's order, and nothing else happens
      to a transfer. */
  lemma PassKeepsOrder<T>(q: Queue, bufs: seq<seq<T>>, now: nat)
    requires Sized(q) && |bufs| == 16
    ensures var f := Pass(State(q, bufs, []), 0, now);
            Merges(f.queue.pending, UrbsOf(f.done), q.pending)
  {
    var left, more := PassMerges(State(q, bufs, []), 0, now);
    var f := Pass(State(q, bufs, []), 0, now);
    assert q.pending[0..] == q.pending && f.queue.pending == left && f.done == more;
  }

  /** A transfer that makes the server wake up in time. */
  predicate Matters(u: Urb) {
    u.isochronous || u.length > 0
  }

  /** Of what the pass has left behind: every transfer that matters is either not due, and the
      server sleeps no longer than until it is, or its endpoint has nothing to send. */
  predicate Covered<T>(st: State<T>, i: nat, now: nat)
    requires Ready(st) && i <= |st.queue.pending|
  {
    forall j :: 0 <= j < i && Matters(st.queue.pending[j]) ==>
      var u := st.queue.pending[j];
      if IsDue(st.queue, u, now) then !u.isochronous && st.bufs[Ep(u)] == []
      else st.queue.timeoutUs <= DueUs(st.queue, u) - now
  }

  /** The timeout is the default, or the time left to a transfer left behind. */
  predicate Exact(q: Queue, i: nat, now: nat)
    requires Sized(q) && i <= |q.pending|
  {
    q.timeoutUs == WAIT_TIMEOUT_US
    || exists j :: 0 <= j < i && !IsDue(q, q.pending[j], now) && q.timeoutUs == DueUs(q, q.pending[j]) - now
  }

  lemma StepCovers<T>(st: State<T>, i: nat, now: nat)
    requires Ready(st) && i < |st.queue.pending| && Covered(st, i, now)
    ensures Covered(Step(st, i, now), After(st, i, now), now)
  {
  }

  lemma StepExact<T>(st: State<T>, i: nat, now: nat)
    requires Ready(st) && i < |st.queue.pending| && Exact(st.queue, i, now)
    ensures Exact(Step(st, i, now).queue, After(st, i, now), now)
  {
    var q, q' := st.queue, Step(st, i, now).queue;
    var u := q.pending[i];
    if !IsDue(q, u, now) && DueUs(q, u) - now < q.timeoutUs {
      assert q'.pending[i] == u;
    } else if q.timeoutUs != WAIT_TIMEOUT_US {
      var j :| 0 <= j < i && !IsDue(q, q.pending[j], now) && q.timeoutUs == DueUs(q, q.pending[j]) - now;
      assert q'.pending[j] == q.pending[j];
    }
  }

  lemma {:induction false} PassCovers<T>(st: State<T>, i: nat, now: nat)
    requires Ready(st) && i <= |st.queue.pending| && Covered(st, i, now) && Exact(st.queue, i, now)
    ensures var f := Pass(st, i, now); Covered(f, |f.queue.pending|, now) && Exact(f.queue, |f.queue.pending|, now)
    decreases |st.queue.pending| - i
  {
    if i < |st.queue.pending| {
      StepCovers(st, i, now);
      StepExact(st, i, now);
      PassCovers(Step(st, i, now), After(st, i, now), now);
    }
  }

  /** The server never sleeps past the moment a waiting transfer becomes due, and never wakes
      for nothing: its timeout is the default or the time left to one of the survivors. */
  lemma PassTimeout<T>(q: Queue, bufs: seq<seq<T>>, now: nat)
    requires Sized(q) && |bufs| == 16 && q.timeoutUs == WAIT_TIMEOUT_US
    ensures var f := Pass(State(q, bufs, []), 0, now);
            && (forall j :: 0 <= j < |f.queue.pending| && Matters(f.queue.pending[j]) && !IsDue(f.queue, f.queue.pending[j], now)
                  ==> f.queue.timeoutUs <= DueUs(f.queue, f.queue.pending[j]) - now)
            && (forall j :: 0 <= j < |f.queue.pending| && Matters(f.queue.pending[j]) && IsDue(f.queue, f.queue.pending[j], now)
                  ==> !f.queue.pending[j].isochronous && f.bufs[Ep(f.queue.pending[j])] == [])
            && Exact(f.queue, |f.queue.pending|, now)
  {
    PassCovers(State(q, bufs, []), 0, now);
  }
}
