/** The interface list of a device: `get_next_interface_idx` walks the configuration's bytes to the
    next interface descriptor, once for each interface the configuration's header announces. */
module Interfaces {
  import opened Urbs
  import opened Descriptors

  /** What the device list tells about an interface. */
  datatype Interface = Interface(class_: byte, subClass: byte, protocol: byte)

  function At(d: Desc): Interface
    requires |d| >= 9
  {
    Interface(d[5], d[6], d[7])
  }

  /** All interfaces of a list of descriptors, in order. */
  function All(ds: seq<Desc>): seq<Interface>
    requires AllFramed(ds)
  {
    if ds == [] then []
    else if IsInterface(ds[0]) then [At(ds[0])] + All(ds[1..])
    else All(ds[1..])
  }

  /** Where the k-th descriptor starts. */
  function Start(ds: seq<Desc>, k: nat): nat
    requires k <= |ds|
  {
    |Join(ds[..k])|
  }

  lemma {:induction false} JoinAt(ds: seq<Desc>, k: nat)
    requires k <= |ds|
    ensures Join(ds) == Join(ds[..k]) + Join(ds[k..])
  {
    if k == 0 {
      assert ds[..0] == [] && ds[0..] == ds;
    } else {
      JoinAt(ds, k - 1);
      JoinMore(ds[..k - 1], ds[k - 1]);
      assert ds[..k] == ds[..k - 1] + [ds[k - 1]] && ds[k - 1..][1..] == ds[k..];
    }
  }

  /** The bytes of the k-th descriptor are where its start says. */
  lemma BytesAt(ds: seq<Desc>, k: nat)
    requires AllFramed(ds) && k < |ds|
    ensures Start(ds, k) + |ds[k]| == Start(ds, k + 1) <= |Join(ds)|
    ensures Join(ds)[Start(ds, k)..Start(ds, k + 1)] == ds[k]
  {
    JoinAt(ds, k);
    JoinAt(ds, k + 1);
    JoinMore(ds[..k], ds[k]);
    assert ds[..k + 1] == ds[..k] + [ds[k]];
  }

  /** What the walk sees at the k-th descriptor: its length and its type, inside the configuration. */
  lemma HeadAt(c: seq<byte>, ds: seq<Desc>, k: nat)
    requires WellFormed(c, ds) && k < |ds|
    ensures var i := Start(ds, k);
            && Framed(ds[k]) && i + |ds[k]| == Start(ds, k + 1) <= |c|
            && c[i] as int == |ds[k]| && c[i + 1] == ds[k][1] && c[i..i + |ds[k]|] == ds[k]
  {
    JoinOfSplit(c, ds);
    BytesAt(ds, k);
    assert Framed(ds[k]);
    assert ds[k] == c[Start(ds, k)..Start(ds, k + 1)];
  }

  lemma EndAt(c: seq<byte>, ds: seq<Desc>)
    requires WellFormed(c, ds)
    ensures Start(ds, |ds|) == |c|
  {
    JoinOfSplit(c, ds);
    assert ds[..|ds|] == ds;
  }

  // ----- The walk -----

  /** The next interface descriptor after the descriptor at `i`, or None when the walk leaves the
      configuration or stays at a descriptor of length zero. */
  function NextFrom(c: seq<byte>, i: nat): (r: Option<nat>)
    requires i < |c|
    ensures r.Some? ==> r.value + 1 < |c|
    decreases |c| - i
  {
    var next := i + c[i] as int;
    if next + 1 >= |c| then None
    else if c[next + 1] == INTERFACE then Some(next)
    else if c[i] == 0 then None
    else NextFrom(c, next)
  }

  /** `get_next_interface_idx`, for any bytes. None is where the program reads past the configuration's
      end, or never returns. */
  method GetNextInterfaceIdx(c: seq<byte>, start: nat) returns (r: Option<nat>)
    requires Config(c) && start < |c|
    ensures r == NextFrom(c, start)
    ensures forall ds, k :: WellFormed(c, ds) && 0 <= k < |ds| && start == Start(ds, k) ==>
      r == if NextAt(ds, k) < |ds| then Some(Start(ds, NextAt(ds, k))) else None
  {
    var idx: nat, size := start, c[start];
    while idx < TotalLength(c)
      invariant idx < |c| && size == c[idx] && NextFrom(c, idx) == NextFrom(c, start)
      decreases |c| - idx
    {
      var next := idx + size as int;
      if next + 1 >= |c| {
        r := None;
        break;
      }
      if c[next + 1] == INTERFACE {
        r := Some(next);
        break;
      }
      if size == 0 {
        r := None;
        break;
      }
      idx, size := next, c[next];
    }
    forall ds, k | WellFormed(c, ds) && 0 <= k < |ds| && start == Start(ds, k)
      ensures NextFrom(c, start) == if NextAt(ds, k) < |ds| then Some(Start(ds, NextAt(ds, k))) else None
    {
      NextParsed(c, ds, k);
    }
  }

  /** The next interface after the k-th descriptor of a list, or the list's length. */
  function NextAt(ds: seq<Desc>, k: nat): (j: nat)
    requires AllFramed(ds) && k < |ds|
    ensures k < j <= |ds|
    ensures j < |ds| ==> Framed(ds[j]) && IsInterface(ds[j])
    decreases |ds| - k
  {
    assert k + 1 < |ds| ==> Framed(ds[k + 1]);
    if k + 1 == |ds| then |ds| else if IsInterface(ds[k + 1]) then k + 1 else NextAt(ds, k + 1)
  }

  /** On a well-formed configuration the walk finds the next interface of the parsed list, and leaves
      the configuration exactly when there is none. */
  lemma {:induction false} NextParsed(c: seq<byte>, ds: seq<Desc>, k: nat)
    requires WellFormed(c, ds) && k < |ds|
    ensures Start(ds, k) < |c|
    ensures NextFrom(c, Start(ds, k)) == if NextAt(ds, k) < |ds| then Some(Start(ds, NextAt(ds, k))) else None
    decreases |ds| - k
  {
    HeadAt(c, ds, k);
    if k + 1 == |ds| {
      EndAt(c, ds);
    } else {
      HeadAt(c, ds, k + 1);
      NextParsed(c, ds, k + 1);
    }
  }

  /** `n` interfaces after the descriptor at `i`. */
  function Listed(c: seq<byte>, n: nat, i: nat): Option<seq<Interface>>
    requires i < |c|
  {
    if n == 0 then Some([])
    else
      match NextFrom(c, i)
      case None => None
      case Some(j) =>
        if j + 7 >= |c| then None
        else
          match Listed(c, n - 1, j)
          case None => None
          case Some(rest) => Some([Interface(c[j + 5], c[j + 6], c[j + 7])] + rest)
  }

  lemma {:induction false} AllFromNext(ds: seq<Desc>, k: nat)
    requires AllFramed(ds) && k < |ds|
    ensures var j := NextAt(ds, k);
            All(ds[k + 1..]) == if j < |ds| then [At(ds[j])] + All(ds[j + 1..]) else []
    decreases |ds| - k
  {
    if k + 1 < |ds| {
      assert ds[k + 1..][1..] == ds[k + 2..];
      if !IsInterface(ds[k + 1]) { AllFromNext(ds, k + 1); }
    }
  }

  /** The list of a well-formed configuration: the first interfaces of the parsed list, if there are
      enough of them. */
  lemma {:induction false} ListedParsed(c: seq<byte>, ds: seq<Desc>, n: nat, k: nat)
    requires WellFormed(c, ds) && k < |ds|
    ensures Start(ds, k) < |c|
    ensures Listed(c, n, Start(ds, k))
            == if n <= |All(ds[k + 1..])| then Some(All(ds[k + 1..])[..n]) else None
    decreases n
  {
    hide Start, Split, NextFrom, NextAt, All;
    NextParsed(c, ds, k);
    AllFromNext(ds, k);
    var j := NextAt(ds, k);
    if n > 0 && j < |ds| {
      InterfaceAt(c, ds, j);
      ListedParsed(c, ds, n - 1, j);
      var rest := All(ds[j + 1..]);
      assert n - 1 <= |rest| ==> ([At(ds[j])] + rest)[..n] == [At(ds[j])] + rest[..n - 1];
    }
  }

  lemma InterfaceAt(c: seq<byte>, ds: seq<Desc>, j: nat)
    requires WellFormed(c, ds) && j < |ds| && IsInterface(ds[j])
    ensures var i := Start(ds, j); i + 8 < |c| && Interface(c[i + 5], c[i + 6], c[i + 7]) == At(ds[j])
  {
    HeadAt(c, ds, j);
    assert ds[j] == c[Start(ds, j)..Start(ds, j) + |ds[j]|];
  }

  /** The list of interfaces, for any bytes. For a well-formed configuration: the first as many as the
      header announces, or None when there are fewer of them and the walk leaves the configuration. */
  method ListInterfaces(c: seq<byte>) returns (r: Option<seq<Interface>>)
    requires Config(c)
    ensures r == Listed(c, c[4] as int, 0)
    ensures forall ds :: WellFormed(c, ds) ==> r == if c[4] as int <= |All(ds)| then Some(All(ds)[..c[4]]) else None
  {
    var idx: nat, list := 0, [];
    var n := c[4] as int;
    r := None;
    var k := 0;
    GoesStarts(Listed(c, n, 0));
    while k < n
      invariant 0 <= k <= n && idx < |c| && Goes(Listed(c, n - k, idx), list, Listed(c, n, 0))
    {
      var next := GetNextInterfaceIdx(c, idx);
      if next.None? || next.value + 7 >= |c| {
        break;
      }
      GoesOn(c, n - k, idx, list, Listed(c, n, 0));
      idx := next.value;
      list := list + [Interface(c[idx + 5], c[idx + 6], c[idx + 7])];
      k := k + 1;
    }
    if k == n {
      r := Some(list);
      assert list + [] == list;
    }
    forall ds | WellFormed(c, ds)
      ensures Listed(c, n, 0) == if n <= |All(ds)| then Some(All(ds)[..n]) else None
    {
      WholeList(c, ds, n);
    }
  }

  /** What is left to list comes after what is listed. */
  ghost predicate Goes(rest: Option<seq<Interface>>, list: seq<Interface>, all: Option<seq<Interface>>) {
    if rest.None? then all.None? else all == Some(list + rest.value)
  }

  lemma GoesStarts(all: Option<seq<Interface>>)
    ensures Goes(all, [], all)
  {
    assert all.Some? ==> [] + all.value == all.value;
  }

  lemma GoesOn(c: seq<byte>, n: nat, i: nat, list: seq<Interface>, all: Option<seq<Interface>>)
    requires i < |c| && n > 0 && Goes(Listed(c, n, i), list, all)
    requires NextFrom(c, i).Some? && NextFrom(c, i).value + 7 < |c|
    ensures var j := NextFrom(c, i).value;
            Goes(Listed(c, n - 1, j), list + [Interface(c[j + 5], c[j + 6], c[j + 7])], all)
  {
    var j := NextFrom(c, i).value;
    var rest, here := Listed(c, n - 1, j), Interface(c[j + 5], c[j + 6], c[j + 7]);
    assert rest.Some? ==> list + ([here] + rest.value) == (list + [here]) + rest.value;
  }

  lemma WholeList(c: seq<byte>, ds: seq<Desc>, n: nat)
    requires WellFormed(c, ds)
    ensures Listed(c, n, 0) == if n <= |All(ds)| then Some(All(ds)[..n]) else None
  {
    JoinOfSplit(c, ds);
    HeadAt(c, ds, 0);
    ListedParsed(c, ds, n, 0);
    assert !IsInterface(ds[0]);
  }

  /** A configuration that announces two interfaces and has one. */
  const HEADER: Desc := [9, 2, 18, 0, 2, 1, 0, 0x80, 50]
  const ONE_INTERFACE: Desc := [9, 4, 0, 0, 0, 3, 1, 2, 0]

  lemma OverrunExample()
    ensures var c, ds := HEADER + ONE_INTERFACE, [HEADER, ONE_INTERFACE];
            WellFormed(c, ds) && All(ds) == [Interface(3, 1, 2)] && c[4] as int > |All(ds)|
  {
    var c, ds: seq<Desc> := HEADER + ONE_INTERFACE, [HEADER, ONE_INTERFACE];
    assert ds[1..] == [ONE_INTERFACE] && ds[1..][1..] == [];
    assert Join(ds[1..]) == ONE_INTERFACE + Join([]);
    assert Join(ds) == c;
    SplitOfJoin(ds);
    assert All(ds[1..]) == [At(ONE_INTERFACE)] + All([]);
    assert All(ds) == All(ds[1..]);
  }
}
