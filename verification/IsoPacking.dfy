/** How an isochronous IN transfer is packed: packets back to back, without the gaps between them.

    The device's callback fills one packet at a time and is asked for at most what the packet and the
    rest of the transfer buffer hold. `source` is what the callback produces for the k-th packet. */
module IsoPacking {
  import opened Memory
  import opened Urbs
  import opened Wire

  type Source = (nat, nat) -> seq<byte>

  /** A callback's data, never more than it was asked for. */
  function Produced(source: Source, k: nat, max: nat): (c: seq<byte>)
    ensures |c| <= max
  {
    var c := source(k, max);
    c[..Min(|c|, max)]
  }

  /** What each packet carries, from packet `k` on, with `space` bytes left in the buffer. */
  function Chunks(ps: seq<Packet>, space: nat, k: nat, source: Source): (cs: seq<seq<byte>>)
    ensures |cs| == |ps|
  {
    if ps == [] then []
    else
      var c := Produced(source, k, Min(ps[0].length, space));
      [c] + Chunks(ps[1..], space - |c|, k + 1, source)
  }

  function Joins(cs: seq<seq<byte>>): seq<byte> {
    if cs == [] then [] else cs[0] + Joins(cs[1..])
  }

  /** The host cuts the data into packets by their actual lengths. */
  function Unpack(data: seq<byte>, ds: seq<IsoDescriptor>): Option<seq<seq<byte>>> {
    if ds == [] then if data == [] then Some([]) else None
    else if |data| < ds[0].actual then None
    else
      match Unpack(data[ds[0].actual..], ds[1..])
      case None => None
      case Some(cs) => Some([data[..ds[0].actual]] + cs)
  }

  /** Lengths that fit a descriptor. */
  predicate Small(cs: seq<seq<byte>>) {
    forall i :: 0 <= i < |cs| ==> |cs[i]| < 0x1_0000_0000
  }

  /** The descriptors that describe these chunks. */
  function Described(ps: seq<Packet>, cs: seq<seq<byte>>): (ds: seq<IsoDescriptor>)
    requires |ps| == |cs| && Small(cs)
    ensures |ds| == |ps|
  {
    seq(|ps|, i requires 0 <= i < |ps| => IsoDescriptor(ps[i].offset, ps[i].length, |cs[i]|, 0))
  }

  lemma {:induction false} ChunksFit(ps: seq<Packet>, space: nat, k: nat, source: Source)
    ensures |Joins(Chunks(ps, space, k, source))| <= space
    ensures forall i :: 0 <= i < |ps| ==> |Chunks(ps, space, k, source)[i]| <= ps[i].length
  {
    if ps != [] {
      var c := Produced(source, k, Min(ps[0].length, space));
      ChunksFit(ps[1..], space - |c|, k + 1, source);
      assert Chunks(ps, space, k, source)[1..] == Chunks(ps[1..], space - |c|, k + 1, source);
    }
  }

  /** Round trip: unpacking by descriptor recovers exactly what each callback produced. */
  lemma {:induction false} UnpackOfPack(ps: seq<Packet>, cs: seq<seq<byte>>)
    requires |ps| == |cs| && Small(cs)
    ensures Unpack(Joins(cs), Described(ps, cs)) == Some(cs)
  {
    if cs != [] {
      UnpackOfPack(ps[1..], cs[1..]);
      assert Described(ps, cs)[1..] == Described(ps[1..], cs[1..]);
      assert Joins(cs)[..|cs[0]|] == cs[0] && Joins(cs)[|cs[0]|..] == Joins(cs[1..]);
      assert [cs[0]] + cs[1..] == cs;
    }
  }

  // ----- When the clamp never matters -----

  ghost function Interval(lo: int, n: nat): (r: set<int>)
    ensures forall x :: x in r <==> lo <= x < lo + n
    ensures |r| == n
  {
    if n == 0 then {} else Interval(lo, n - 1) + {lo + n - 1}
  }

  /** The positions of the transfer buffer a packet occupies. */
  ghost function Range(p: Packet): set<int> {
    Interval(p.offset, p.length)
  }

  /** Packets do not overlap in the transfer buffer. */
  ghost predicate Disjoint(ps: seq<Packet>) {
    forall i, j :: 0 <= i < j < |ps| ==> Range(ps[i]) !! Range(ps[j])
  }

  function Lengths(ps: seq<Packet>): nat {
    if ps == [] then 0 else ps[0].length + Lengths(ps[1..])
  }

  lemma {:induction false} LengthsMore(ps: seq<Packet>, p: Packet)
    ensures Lengths(ps + [p]) == Lengths(ps) + p.length
  {
    if ps == [] {
      assert [p][1..] == [];
    } else {
      LengthsMore(ps[1..], p);
      assert (ps + [p])[1..] == ps[1..] + [p];
    }
  }

  ghost function Cover(ps: seq<Packet>): set<int> {
    if ps == [] then {} else Range(ps[0]) + Cover(ps[1..])
  }

  lemma {:induction false} CoverApart(s: set<int>, ps: seq<Packet>)
    requires forall i :: 0 <= i < |ps| ==> s !! Range(ps[i])
    ensures s !! Cover(ps)
  {
    if ps != [] { CoverApart(s, ps[1..]); }
  }

  lemma {:induction false} CoverSize(ps: seq<Packet>)
    requires Disjoint(ps)
    ensures |Cover(ps)| == Lengths(ps)
  {
    if ps != [] {
      CoverSize(ps[1..]);
      CoverApart(Range(ps[0]), ps[1..]);
    }
  }

  lemma {:induction false} CoverInside(ps: seq<Packet>, length: nat)
    requires forall i :: 0 <= i < |ps| ==> ps[i].offset + ps[i].length <= length
    ensures Cover(ps) <= Interval(0, length)
  {
    if ps != [] { CoverInside(ps[1..], length); }
  }

  lemma SubsetSize(a: set<int>, b: set<int>)
    requires a <= b
    ensures |a| <= |b|
  {
    assert b == a + (b - a);
  }

  /** Non-overlapping packets inside a buffer are together no longer than the buffer. */
  lemma DisjointFits(ps: seq<Packet>, length: nat)
    requires Disjoint(ps) && forall i :: 0 <= i < |ps| ==> ps[i].offset + ps[i].length <= length
    ensures Lengths(ps) <= length
  {
    CoverSize(ps);
    CoverInside(ps, length);
    SubsetSize(Cover(ps), Interval(0, length));
  }

  /** What each packet would carry if the buffer had no end. */
  function Unclamped(ps: seq<Packet>, k: nat, source: Source): seq<seq<byte>> {
    if ps == [] then [] else [Produced(source, k, ps[0].length)] + Unclamped(ps[1..], k + 1, source)
  }

  lemma {:induction false} RoomForAll(ps: seq<Packet>, space: nat, k: nat, source: Source)
    requires Lengths(ps) <= space
    ensures Chunks(ps, space, k, source) == Unclamped(ps, k, source)
  {
    if ps != [] {
      RoomForAll(ps[1..], space - |Produced(source, k, ps[0].length)|, k + 1, source);
    }
  }

  /** If packets do not overlap, the space left in the buffer never shortens one. */
  lemma ClampNeverMatters(ps: seq<Packet>, length: nat, source: Source)
    requires Disjoint(ps) && forall i :: 0 <= i < |ps| ==> ps[i].offset + ps[i].length <= length
    ensures Chunks(ps, length, 0, source) == Unclamped(ps, 0, source)
  {
    DisjointFits(ps, length);
    RoomForAll(ps, length, 0, source);
  }

  // ----- Packing in place -----

  lemma {:induction false} JoinsMore(cs: seq<seq<byte>>, c: seq<byte>)
    ensures Joins(cs + [c]) == Joins(cs) + c
  {
    if cs == [] {
      assert [c][1..] == [];
    } else {
      JoinsMore(cs[1..], c);
      assert (cs + [c])[1..] == cs[1..] + [c];
    }
  }

  /** Halfway: the packets before i are done, the rest still have their part of the buffer. */
  ghost predicate Packing(ps: seq<Packet>, i: nat, length: nat, source: Source, done: seq<seq<byte>>, total: nat,
                          ds: seq<IsoDescriptor>)
  {
    && i <= |ps| && |done| == i && Small(done) && total == |Joins(done)| <= length
    && done + Chunks(ps[i..], length - total, i, source) == Chunks(ps, length, 0, source)
    && ds == Described(ps[..i], done)
  }

  lemma NoPacketYet(ps: seq<Packet>, length: nat, source: Source)
    ensures Packing(ps, 0, length, source, [], 0, []) && Joins([]) == []
  {
    assert ps[0..] == ps;
  }

  /** One more packet: what the callback is asked for, and what the reply then holds. */
  lemma OnePacket(ps: seq<Packet>, i: nat, length: nat, source: Source, done: seq<seq<byte>>, total: nat,
                  ds: seq<IsoDescriptor>)
    requires i < |ps| && length < 0x1_0000_0000 && Packing(ps, i, length, source, done, total, ds)
    ensures total <= length
    ensures var c := Produced(source, i, Min(ps[i].length, length - total));
            && total + |c| <= length && Joins(done + [c]) == Joins(done) + c
            && Packing(ps, i + 1, length, source, done + [c], total + |c|,
                       ds + [IsoDescriptor(ps[i].offset, ps[i].length, |c|, 0)])
  {
    var c := Produced(source, i, Min(ps[i].length, length - total));
    assert ps[i + 1..] == ps[i..][1..];
    assert Chunks(ps[i..], length - total, i, source)[0] == c;
    JoinsMore(done, c);
  }

  lemma AllPackets(ps: seq<Packet>, length: nat, source: Source, done: seq<seq<byte>>, total: nat,
                   ds: seq<IsoDescriptor>)
    requires Packing(ps, |ps|, length, source, done, total, ds)
    ensures done == Chunks(ps, length, 0, source) && Small(done) && total == |Joins(done)| <= length
    ensures ds == Described(ps, done)
  {
    assert ps[..|ps|] == ps;
  }

  /** Asks for each packet in turn and puts it right behind the one before. */
  method PackIn(ps: seq<Packet>, length: nat, buffer: array<byte>, source: Source)
      returns (ds: seq<IsoDescriptor>, total: nat)
    requires length <= buffer.Length && length < 0x1_0000_0000
    modifies buffer
    ensures var cs := Chunks(ps, length, 0, source);
            && total == |Joins(cs)| <= length && buffer[..total] == Joins(cs)
            && Small(cs) && ds == Described(ps, cs)
  {
    ghost var done: seq<seq<byte>> := [];
    total, ds := 0, [];
    NoPacketYet(ps, length, source);
    hide *;
    for i := 0 to |ps|
      invariant total <= length && Packing(ps, i, length, source, done, total, ds)
      invariant buffer[..total] == Joins(done)
    {
      OnePacket(ps, i, length, source, done, total, ds);
      var c := Produced(source, i, Min(ps[i].length, length - total));
      CopyTo(buffer, total, c);
      ds := ds + [IsoDescriptor(ps[i].offset, ps[i].length, |c|, 0)];
      total := total + |c|;
      done := done + [c];
    }
    AllPackets(ps, length, source, done, total, ds);
  }
}
