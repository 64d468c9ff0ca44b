/** A configuration as a list of descriptors, parsed recursively, and the table of endpoints that the
    server's walk over its bytes loads. */
module Descriptors {
  import opened Urbs
  import S = Schedule

  const CONFIGURATION := 2
  const INTERFACE := 4
  const ENDPOINT := 5

  /** A descriptor's bytes: its length, its type, and its fields. */
  type Desc = seq<byte>

  function TotalLength(c: seq<byte>): nat
    requires |c| >= 4
  {
    c[2] as int + 256 * c[3] as int
  }

  /** What the program is given: as many bytes as the header says, at least the header itself. */
  predicate Config(c: seq<byte>) {
    |c| >= 9 && TotalLength(c) == |c|
  }

  /** A descriptor has the length it says, and room for the fields of its type. */
  predicate Framed(d: Desc) {
    && |d| >= 2 && d[0] as int == |d|
    && (d[1] == ENDPOINT ==> |d| >= 7)
    && (d[1] == INTERFACE ==> |d| >= 9)
  }

  predicate AllFramed(ds: seq<Desc>) {
    forall i :: 0 <= i < |ds| ==> Framed(ds[i])
  }

  /** The list of descriptors in a configuration, if each ends where the next begins. */
  function Split(c: seq<byte>): Option<seq<Desc>> {
    if c == [] then Some([])
    else if c[0] < 2 || c[0] as int > |c| then None
    else
      match Split(c[c[0]..])
      case None => None
      case Some(ds) => Some([c[..c[0]]] + ds)
  }

  function Join(ds: seq<Desc>): seq<byte> {
    if ds == [] then [] else ds[0] + Join(ds[1..])
  }

  /** A configuration with the descriptors `ds`, of which the first is its own. */
  predicate WellFormed(c: seq<byte>, ds: seq<Desc>) {
    Config(c) && c[1] == CONFIGURATION && Split(c) == Some(ds) && AllFramed(ds)
  }

  predicate IsEndpoint(d: Desc)
    requires |d| >= 2
  {
    d[1] == ENDPOINT
  }

  predicate IsInterface(d: Desc)
    requires |d| >= 2
  {
    d[1] == INTERFACE
  }

  lemma {:induction false} JoinOfSplit(c: seq<byte>, ds: seq<Desc>)
    requires Split(c) == Some(ds)
    ensures Join(ds) == c
  {
    if c != [] {
      JoinOfSplit(c[c[0]..], ds[1..]);
    }
  }

  lemma {:induction false} SplitOfJoin(ds: seq<Desc>)
    requires AllFramed(ds)
    ensures Split(Join(ds)) == Some(ds)
  {
    if ds != [] {
      SplitOfJoin(ds[1..]);
      assert Framed(ds[0]);
      assert Join(ds)[|ds[0]|..] == Join(ds[1..]) && Join(ds)[..|ds[0]|] == ds[0];
      assert [ds[0]] + ds[1..] == ds;
    }
  }

  lemma {:induction false} JoinMore(ds: seq<Desc>, d: Desc)
    ensures Join(ds + [d]) == Join(ds) + d
  {
    if ds == [] {
      assert [d][1..] == [];
    } else {
      JoinMore(ds[1..], d);
      assert (ds + [d])[1..] == ds[1..] + [d];
    }
  }

  // ----- Endpoint fields -----

  function Pow2(n: nat): (r: nat)
    ensures r >= 1
  {
    if n == 0 then 1 else 2 * Pow2(n - 1)
  }

  function Kind(d: Desc): nat
    requires |d| >= 7
  {
    d[3] as int % 4
  }

  function MaxPacket(d: Desc): nat
    requires |d| >= 7
  {
    d[4] as int + 256 * d[5] as int
  }

  predicate IsIn(d: Desc)
    requires |d| >= 7
  {
    d[2] >= 128
  }

  function SlotOf(d: Desc): (s: nat)
    requires |d| >= 7
    ensures s < 32
  {
    Slot(if IsIn(d) then 1 else 0, d[2] as int % 16)
  }

  /** Whether the server itself keeps the pace of an endpoint. */
  predicate Paced(d: Desc)
    requires |d| >= 7
  {
    Kind(d) == XFER_ISOC || (IsIn(d) && Kind(d) == XFER_INT)
  }

  /** The service interval of a high speed endpoint: 2^(bInterval - 1) microframes of 125 us. */
  function HighSpeedUs(b: nat): nat {
    if b == 0 then 0 else 125 * Pow2(Min(b, 16) - 1)
  }

  // ----- The endpoint table -----

  /** What one endpoint descriptor does to its entry: an interval is only ever set, never cleared. */
  function Entry(e: Endpoint, d: Desc): Endpoint
    requires |d| >= 7
  {
    Endpoint(Kind(d), if Paced(d) && d[6] > 0 then HighSpeedUs(d[6]) else e.intervalUs, e.nextPollUs, e.streamEndUs)
  }

  function Enter(t: seq<Endpoint>, d: Desc): (r: seq<Endpoint>)
    requires |t| == 32
    ensures |r| == 32
  {
    if |d| >= 7 && IsEndpoint(d) then t[SlotOf(d) := Entry(t[SlotOf(d)], d)] else t
  }

  function NoTable(): (t: seq<Endpoint>)
    ensures |t| == 32 && forall s :: 0 <= s < 32 ==> t[s] == NO_ENDPOINT
  {
    seq(32, _ => NO_ENDPOINT)
  }

  /** The table of a list of descriptors, read from first to last. */
  function Loaded(ds: seq<Desc>): (t: seq<Endpoint>)
    ensures |t| == 32
  {
    if ds == [] then NoTable() else Enter(Loaded(ds[..|ds| - 1]), ds[|ds| - 1])
  }

  /** The table that walking the bytes from `i` on gives. */
  function Walked(c: seq<byte>, i: nat, t: seq<Endpoint>): (r: seq<Endpoint>)
    requires |t| == 32
    ensures |r| == 32
    decreases |c| - i
  {
    if i + 7 <= |c| && c[i] > 0 then Walked(c, i + c[i] as int, Enter(t, c[i..i + 7])) else t
  }

  /** Only the first seven bytes of an endpoint descriptor are looked at. */
  lemma EnterLooksAtSeven(t: seq<Endpoint>, d: Desc, rest: seq<byte>)
    requires |t| == 32 && Framed(d) && |d + rest| >= 7
    ensures Enter(t, (d + rest)[..7]) == Enter(t, d)
  {
    if |d| >= 7 {
      assert (d + rest)[..7] == d[..7];
    }
  }

  lemma {:induction false} NoRoomNoEndpoint(done: seq<Desc>, rest: seq<Desc>)
    requires AllFramed(rest) && |Join(rest)| < 7
    ensures Loaded(done + rest) == Loaded(done)
    decreases |rest|
  {
    if rest == [] {
      assert done + rest == done;
    } else {
      assert Framed(rest[0]);
      NoRoomNoEndpoint(done + [rest[0]], rest[1..]);
      assert done + rest == (done + [rest[0]]) + rest[1..];
      assert (done + [rest[0]])[..|done|] == done;
    }
  }

  /** What the walk sees of a descriptor in the middle of a configuration. */
  lemma SeenAt(before: seq<byte>, b: seq<byte>, c: seq<byte>)
    requires |b| >= 7 && c == before + b
    ensures |before| + 7 <= |c| && c[|before|] == b[0] && c[|before|..|before| + 7] == b[..7]
  {
  }

  lemma {:induction false} WalkedHead(before: seq<byte>, d: Desc, tail: seq<byte>, t: seq<Endpoint>, c: seq<byte>)
    requires Framed(d) && |d + tail| >= 7 && |t| == 32 && c == before + (d + tail)
    ensures Walked(c, |before|, t) == Walked(c, |before| + |d|, Enter(t, d))
  {
    hide Enter, Walked;
    SeenAt(before, d + tail, c);
    EnterLooksAtSeven(t, d, tail);
    WalkedPast(c, |before|, d, t);
  }

  lemma {:induction false} WalkedPast(c: seq<byte>, i: nat, d: Desc, t: seq<Endpoint>)
    requires Framed(d) && |t| == 32 && i + 7 <= |c| && c[i] == d[0] && Enter(t, c[i..i + 7]) == Enter(t, d)
    ensures Walked(c, i, t) == Walked(c, i + |d|, Enter(t, d))
  {
    hide Enter;
  }

  lemma {:induction false} WalkedIsLoaded(done: seq<Desc>, rest: seq<Desc>)
    requires AllFramed(rest)
    ensures Walked(Join(done) + Join(rest), |Join(done)|, Loaded(done)) == Loaded(done + rest)
    decreases |rest|
  {
    hide Enter;
    if |Join(rest)| < 7 {
      NoRoomNoEndpoint(done, rest);
    } else {
      hide Walked;
      var d := rest[0];
      assert Framed(d);
      WalkedHead(Join(done), d, Join(rest[1..]), Loaded(done), Join(done) + Join(rest));
      assert (done + [d])[..|done|] == done;
      JoinMore(done, d);
      WalkedIsLoaded(done + [d], rest[1..]);
      assert Join(done) + Join(rest) == Join(done + [d]) + Join(rest[1..]);
      assert done + rest == (done + [d]) + rest[1..];
    }
  }

  /** One descriptor of the loop in `load_endpoints`. */
  method LoadEndpoint(desc: Desc, endpoints: array<Endpoint>)
    requires |desc| == 7 && endpoints.Length == 32
    modifies endpoints
    ensures endpoints[..] == Enter(old(endpoints[..]), desc)
  {
    if desc[1] == ENDPOINT {
      var s := (if desc[2] >= 128 then 16 else 0) + desc[2] as int % 16;
      endpoints[s] := endpoints[s].(kind := desc[3] as int % 4);
      var paced := endpoints[s].kind == XFER_ISOC || (desc[2] >= 128 && endpoints[s].kind == XFER_INT);
      if paced && desc[6] > 0 {
        var exponent := if desc[6] > 16 then 16 else desc[6];
        endpoints[s] := endpoints[s].(intervalUs := 125 * Pow2(exponent - 1));
      }
    }
  }

  /** `load_endpoints`, for any bytes: the walk never reads outside them. */
  method LoadEndpoints(c: seq<byte>, endpoints: array<Endpoint>)
    requires Config(c) && endpoints.Length == 32
    modifies endpoints
    ensures endpoints[..] == Walked(c, 0, NoTable())
    ensures forall ds :: WellFormed(c, ds) ==> endpoints[..] == Loaded(ds)
  {
    for s := 0 to 32
      invariant forall k :: 0 <= k < s ==> endpoints[k] == NO_ENDPOINT
    {
      endpoints[s] := NO_ENDPOINT;
    }
    assert endpoints[..] == NoTable();
    var i: nat := 0;
    while i + 7 <= TotalLength(c) && c[i] > 0
      invariant Walked(c, i, endpoints[..]) == Walked(c, 0, NoTable())
      decreases |c| - i
    {
      LoadEndpoint(c[i..i + 7], endpoints);
      i := i + c[i] as int;
    }
    forall ds | WellFormed(c, ds) ensures endpoints[..] == Loaded(ds) { TableOfConfig(c, ds); }
  }

  lemma TableOfConfig(c: seq<byte>, ds: seq<Desc>)
    requires WellFormed(c, ds)
    ensures Walked(c, 0, NoTable()) == Loaded(ds)
  {
    JoinOfSplit(c, ds);
    WalkedIsLoaded([], ds);
    assert Join([]) + Join(ds) == c && [] + ds == ds;
  }

  /** Each endpoint address occurs once. */
  ghost predicate Unique(ds: seq<Desc>)
    requires AllFramed(ds)
  {
    forall i, j :: 0 <= i < j < |ds| && IsEndpoint(ds[i]) && IsEndpoint(ds[j]) ==> SlotOf(ds[i]) != SlotOf(ds[j])
  }

  ghost predicate Absent(ds: seq<Desc>, s: nat)
    requires AllFramed(ds)
  {
    forall i :: 0 <= i < |ds| && IsEndpoint(ds[i]) ==> SlotOf(ds[i]) != s
  }

  /** An address no descriptor has keeps the empty entry. */
  lemma {:induction false} AbsentEntry(ds: seq<Desc>, s: nat)
    requires AllFramed(ds) && s < 32 && Absent(ds, s)
    ensures Loaded(ds)[s] == NO_ENDPOINT
  {
    if ds != [] {
      AbsentEntry(ds[..|ds| - 1], s);
      assert Framed(ds[|ds| - 1]);
    }
  }

  /** With unique addresses, an endpoint's entry is what its own descriptor says. */
  lemma {:induction false} TableReadsOff(ds: seq<Desc>, i: nat)
    requires AllFramed(ds) && Unique(ds) && i < |ds| && IsEndpoint(ds[i])
    ensures Loaded(ds)[SlotOf(ds[i])] == Endpoint(Kind(ds[i]), if Paced(ds[i]) then HighSpeedUs(ds[i][6]) else 0, 0, 0)
  {
    var n := |ds| - 1;
    assert Framed(ds[n]);
    if i == n {
      AbsentEntry(ds[..n], SlotOf(ds[i]));
    } else {
      TableReadsOff(ds[..n], i);
      assert ds[..n][i] == ds[i];
    }
  }

  /** A session starts with no stream and no poll in the past, whatever the bytes. */
  lemma {:induction false} WalkedIsFresh(c: seq<byte>, i: nat, t: seq<Endpoint>)
    requires S.FreshTable(t)
    ensures S.FreshTable(Walked(c, i, t))
    decreases |c| - i
  {
    if i + 7 <= |c| && c[i] > 0 {
      WalkedIsFresh(c, i + c[i] as int, Enter(t, c[i..i + 7]));
    }
  }

  lemma ImportedIsFresh(c: seq<byte>)
    ensures S.FreshTable(Walked(c, 0, NoTable()))
  {
    WalkedIsFresh(c, 0, NoTable());
  }
}
