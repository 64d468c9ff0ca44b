/** The configuration that a full speed host is shown: `build_other_speed_config` rewrites the high
    speed one in place (section 9.6.4 of the USB 2.0 specification). */
module OtherSpeed {
  import opened Urbs
  import opened Descriptors

  const OTHER_SPEED := 7
  const XFER_BULK := 2
  const FULL_SPEED_MAX := 64
  const FULL_SPEED_ISO_MAX := 1023
  const BUFFER_LENGTH := 512

  function SlowInterruptInterval(b: byte): (r: byte) {
    if b == 0 then 0
    else
      var ms := Pow2(Min(b, 16) - 1) / 8;
      if ms < 1 then 1 else if ms > 255 then 255 else ms
  }

  function SlowIsoInterval(b: byte): (r: byte) {
    if b > 3 then b - 3 else 1
  }

  /** The packet size at full speed. */
  function SlowMax(d: Desc): (r: nat)
    requires |d| >= 7
    ensures r < 0x1_0000
  {
    if Kind(d) == XFER_BULK || Kind(d) == XFER_INT then Min(MaxPacket(d), FULL_SPEED_MAX)
    else if Kind(d) == XFER_ISOC then Min(MaxPacket(d) % 0x800, FULL_SPEED_ISO_MAX)
    else MaxPacket(d)
  }

  function SlowInterval(d: Desc): byte
    requires |d| >= 7
  {
    if Kind(d) == XFER_INT then SlowInterruptInterval(d[6])
    else if Kind(d) == XFER_ISOC then SlowIsoInterval(d[6])
    else d[6]
  }

  /** The descriptor of an endpoint at full speed. */
  function Slowed(d: Desc): (r: Desc)
    requires |d| >= 7
    ensures |r| == |d| && forall j :: 0 <= j < |d| && !(4 <= j <= 6) ==> r[j] == d[j]
  {
    d[4 := SlowMax(d) % 0x100][5 := SlowMax(d) / 0x100][6 := SlowInterval(d)]
  }

  function Slow(d: Desc): (r: Desc)
    ensures |r| == |d| && forall j :: 0 <= j < |d| && !(4 <= j <= 6) ==> r[j] == d[j]
  {
    if |d| >= 7 && IsEndpoint(d) then Slowed(d) else d
  }

  function AllSlow(ds: seq<Desc>): (r: seq<Desc>)
    ensures |r| == |ds|
  {
    if ds == [] then [] else [Slow(ds[0])] + AllSlow(ds[1..])
  }

  /** The descriptors that a full speed host is shown. */
  function FullSpeed(ds: seq<Desc>): (r: seq<Desc>)
    requires ds != [] && |ds[0]| >= 2
  {
    [ds[0][1 := OTHER_SPEED]] + AllSlow(ds[1..])
  }

  function Patched(b: seq<byte>, i: nat): (r: seq<byte>)
    requires i + 7 <= |b|
    ensures |r| == |b|
  {
    b[..i] + Slow(b[i..i + 7]) + b[i + 7..]
  }

  /** The bytes after the in-place walk from `i` on. */
  function Rewritten(b: seq<byte>, i: nat): (r: seq<byte>)
    decreases |b| - i
  {
    if i + 7 <= |b| && b[i] > 0 then Rewritten(Patched(b, i), i + b[i] as int) else b
  }

  lemma SlowLooksAtSeven(d: Desc, rest: seq<byte>)
    requires Framed(d) && |d + rest| >= 7
    ensures Slow((d + rest)[..7]) + (d + rest)[7..] == Slow(d) + rest
  {
    if |d| >= 7 {
      assert (d + rest)[..7] == d[..7];
    }
  }

  lemma {:induction false} NothingLeftToSlow(rest: seq<Desc>)
    requires AllFramed(rest) && |Join(rest)| < 7
    ensures AllSlow(rest) == rest
  {
    if rest != [] {
      assert Framed(rest[0]);
      NothingLeftToSlow(rest[1..]);
    }
  }

  lemma PatchedHead(before: seq<byte>, d: Desc, rest: seq<byte>)
    requires Framed(d) && |d + rest| >= 7
    ensures Patched(before + (d + rest), |before|) == (before + Slow(d)) + rest
  {
    hide Slow, Framed;
    SlowLooksAtSeven(d, rest);
    PatchedAt(before, d + rest);
    assert before + (Slow(d) + rest) == (before + Slow(d)) + rest;
  }

  lemma PatchedAt(before: seq<byte>, after: seq<byte>)
    requires |after| >= 7
    ensures Patched(before + after, |before|) == before + (Slow(after[..7]) + after[7..])
  {
    hide Slow;
    var b, i := before + after, |before|;
    assert b[..i] == before && b[i..i + 7] == after[..7] && b[i + 7..] == after[7..];
  }

  lemma {:induction false} RewrittenHead(before: seq<byte>, d: Desc, tail: seq<byte>)
    requires Framed(d) && |d + tail| >= 7
    ensures Rewritten(before + (d + tail), |before|) == Rewritten((before + Slow(d)) + tail, |before + Slow(d)|)
  {
    hide Slow, Patched;
    PatchedHead(before, d, tail);
    assert (before + (d + tail))[|before|] == d[0];
  }

  lemma RewrittenEnds(b: seq<byte>, i: nat)
    requires |b| < i + 7
    ensures Rewritten(b, i) == b
  {
  }

  lemma {:induction false} JoinSlow(rest: seq<Desc>)
    requires rest != []
    ensures Join(AllSlow(rest)) == Slow(rest[0]) + Join(AllSlow(rest[1..]))
  {
    hide Slow;
    assert AllSlow(rest)[1..] == AllSlow(rest[1..]);
  }

  lemma {:induction false} RewrittenIsSlow(done: seq<Desc>, rest: seq<Desc>)
    requires AllFramed(rest)
    ensures Rewritten(Join(done) + Join(rest), |Join(done)|) == Join(done) + Join(AllSlow(rest))
    decreases |rest|
  {
    hide Slow, Patched, Rewritten, AllSlow;
    var before := Join(done);
    if |Join(rest)| < 7 {
      NothingLeftToSlow(rest);
      RewrittenEnds(before + Join(rest), |before|);
    } else {
      var d, slow, tail := rest[0], Slow(rest[0]), Join(AllSlow(rest[1..]));
      assert Framed(d);
      RewrittenHead(before, d, Join(rest[1..]));
      JoinMore(done, slow);
      RewrittenIsSlow(done + [slow], rest[1..]);
      JoinSlow(rest);
      assert (before + slow) + tail == before + (slow + tail);
    }
  }

  lemma RewrittenWhole(ds: seq<Desc>)
    requires AllFramed(ds)
    ensures Rewritten(Join(ds), 0) == Join(AllSlow(ds))
  {
    hide Rewritten, AllSlow;
    RewrittenIsSlow([], ds);
    assert Join([]) == [];
    assert [] + Join(ds) == Join(ds) && [] + Join(AllSlow(ds)) == Join(AllSlow(ds));
  }

  // ----- In place -----

  lemma PatchedBy(a: seq<byte>, b: seq<byte>, i: nat)
    requires |a| == |b| && i + 7 <= |a| && b[..i] == a[..i] && b[i + 7..] == a[i + 7..] && b[i..i + 7] == Slow(a[i..i + 7])
    ensures b == Patched(a, i)
  {
    assert b == b[..i] + b[i..i + 7] + b[i + 7..];
  }

  lemma SlowByField(d: Desc, r: Desc)
    requires |d| == |r| == 7 && r[..4] == d[..4]
    requires if IsEndpoint(d) then r[4] as int == SlowMax(d) % 0x100 && r[5] as int == SlowMax(d) / 0x100 && r[6] == SlowInterval(d)
             else r[4..] == d[4..]
    ensures r == Slow(d)
  {
    hide SlowMax, SlowInterval;
    assert forall j :: 0 <= j < 4 ==> r[j] == r[..4][j] && d[j] == d[..4][j];
    if !IsEndpoint(d) {
      assert r == r[..4] + r[4..] && d == d[..4] + d[4..];
    }
  }

  lemma SameInterval(d: Desc, e: Desc)
    requires |d| == |e| == 7 && d[3] == e[3] && d[6] == e[6]
    ensures Kind(e) == Kind(d) && SlowInterval(e) == SlowInterval(d)
  {
  }

  /** The packet size of one descriptor of the loop. */
  method SlowDownMax(buffer: array<byte>, i: nat, kind: nat)
    requires i + 7 <= buffer.Length && kind == Kind(buffer[i..i + 7])
    modifies buffer
    ensures forall k :: 0 <= k < buffer.Length && k != i + 4 && k != i + 5 ==> buffer[k] == old(buffer[k])
    ensures buffer[i + 4] as int == SlowMax(old(buffer[i..i + 7])) % 0x100
    ensures buffer[i + 5] as int == SlowMax(old(buffer[i..i + 7])) / 0x100
  {
    var max := 256 * buffer[i + 5] as int + buffer[i + 4] as int;
    if kind == XFER_BULK || kind == XFER_INT {
      if max > FULL_SPEED_MAX {
        buffer[i + 4] := FULL_SPEED_MAX;
        buffer[i + 5] := 0;
      }
    } else if kind == XFER_ISOC {
      max := max % 0x800;
      if max > FULL_SPEED_ISO_MAX {
        max := FULL_SPEED_ISO_MAX;
      }
      buffer[i + 4] := max % 0x100;
      buffer[i + 5] := max / 0x100;
    }
  }

  /** The interval of one descriptor of the loop. */
  method SlowDownInterval(buffer: array<byte>, i: nat, kind: nat)
    requires i + 7 <= buffer.Length && kind == Kind(buffer[i..i + 7])
    modifies buffer
    ensures forall k :: 0 <= k < buffer.Length && k != i + 6 ==> buffer[k] == old(buffer[k])
    ensures buffer[i + 6] == SlowInterval(old(buffer[i..i + 7]))
  {
    if kind == XFER_INT && buffer[i + 6] > 0 {
      var exponent := if buffer[i + 6] > 16 then 16 else buffer[i + 6];
      var ms := Pow2(exponent - 1) / 8;
      buffer[i + 6] := if ms < 1 then 1 else if ms > 255 then 255 else ms;
    } else if kind == XFER_ISOC {
      buffer[i + 6] := if buffer[i + 6] > 3 then buffer[i + 6] - 3 else 1;
    }
  }

  /** One descriptor of the loop. */
  method SlowDown(buffer: array<byte>, i: nat)
    requires i + 7 <= buffer.Length
    modifies buffer
    ensures buffer[..] == Patched(old(buffer[..]), i)
  {
    ghost var d := buffer[i..i + 7];
    hide SlowMax, SlowInterval, Slow;
    if buffer[i + 1] == ENDPOINT {
      var kind := buffer[i + 3] as int % 4;
      SlowDownMax(buffer, i, kind);
      SameInterval(d, buffer[i..i + 7]);
      SlowDownInterval(buffer, i, kind);
    }
    SlowByField(d, buffer[i..i + 7]);
    PatchedBy(old(buffer[..]), buffer[..], i);
  }

  /** The walk over the copied configuration. */
  method SlowDownAll(buffer: array<byte>, n: nat)
    requires n <= buffer.Length
    modifies buffer
    ensures buffer[..n] == Rewritten(old(buffer[..n]), 0)
  {
    hide Slow, Patched;
    var i: nat := 0;
    while i + 7 <= n && buffer[i] > 0
      invariant Rewritten(buffer[..n], i) == Rewritten(old(buffer[..n]), 0)
      decreases n - i
    {
      ghost var b := buffer[..];
      SlowDown(buffer, i);
      PatchedInside(b, n, i);
      i := i + buffer[i] as int;
    }
  }

  /** For any bytes: copies as much as fits, then walks it. Nothing outside is read or written. */
  method BuildOtherSpeedConfig(c: seq<byte>, buffer: array<byte>) returns (n: nat)
    requires Config(c) && buffer.Length == BUFFER_LENGTH
    modifies buffer
    ensures n == Min(|c|, BUFFER_LENGTH)
    ensures buffer[..n] == Rewritten(c[..n][1 := OTHER_SPEED], 0)
    ensures |c| <= BUFFER_LENGTH ==> forall ds :: WellFormed(c, ds) ==> Split(buffer[..n]) == Some(FullSpeed(ds))
  {
    hide Rewritten, FullSpeed;
    n := if TotalLength(c) > buffer.Length then buffer.Length else TotalLength(c);
    for k := 0 to n
      invariant buffer[..k] == c[..k]
    {
      buffer[k] := c[k];
    }
    buffer[1] := OTHER_SPEED;
    assert buffer[..n] == c[..n][1 := OTHER_SPEED];
    SlowDownAll(buffer, n);
    if |c| <= BUFFER_LENGTH {
      assert c[..n] == c;
      forall ds | WellFormed(c, ds) ensures Split(buffer[..n]) == Some(FullSpeed(ds)) { OtherSpeedParses(c, ds); }
    }
  }

  lemma PatchedInside(b: seq<byte>, n: nat, i: nat)
    requires i + 7 <= n <= |b|
    ensures Patched(b, i)[..n] == Patched(b[..n], i) && Patched(b, i)[i] == b[i]
  {
    assert b[i..i + 7] == b[..n][i..i + 7];
  }

  // ----- What it means -----

  /** Same framing: the result parses into as many descriptors, of the same lengths, and is the full
      speed version of each. */
  lemma OtherSpeedParses(c: seq<byte>, ds: seq<Desc>)
    requires WellFormed(c, ds) && |c| <= BUFFER_LENGTH
    ensures ds != [] && Split(Rewritten(c[1 := OTHER_SPEED], 0)) == Some(FullSpeed(ds))
    ensures |FullSpeed(ds)| == |ds| && AllFramed(FullSpeed(ds))
  {
    JoinOfSplit(c, ds);
    assert Framed(ds[0]);
    var first := ds[0][1 := OTHER_SPEED];
    var renamed := [first] + ds[1..];
    assert renamed[1..] == ds[1..];
    assert Join(renamed) == c[1 := OTHER_SPEED];
    assert AllFramed(renamed);
    RewrittenWhole(renamed);
    assert AllSlow(renamed) == FullSpeed(ds);
    AllSlowFramed(renamed);
    SplitOfJoin(FullSpeed(ds));
  }

  lemma {:induction false} AllSlowFramed(ds: seq<Desc>)
    requires AllFramed(ds)
    ensures AllFramed(AllSlow(ds))
    ensures forall k :: 0 <= k < |ds| ==> AllSlow(ds)[k] == Slow(ds[k])
  {
    if ds != [] {
      AllSlowFramed(ds[1..]);
      assert Framed(ds[0]);
    }
  }

  lemma FullSpeedAt(ds: seq<Desc>, k: nat)
    requires AllFramed(ds) && 0 < k < |ds| && |ds[0]| >= 2
    ensures |FullSpeed(ds)| == |ds| && FullSpeed(ds)[k] == Slow(ds[k])
  {
    AllSlowFramed(ds[1..]);
  }

  /** Only the type of the first descriptor and three fields of endpoint descriptors change. */
  lemma OnlyEndpointsChange(ds: seq<Desc>, k: nat, j: nat)
    requires ds != [] && AllFramed(ds) && k < |ds| && j < |ds[k]|
    ensures |FullSpeed(ds)| == |ds| && |FullSpeed(ds)[k]| == |ds[k]|
    ensures FullSpeed(ds)[k][j] != ds[k][j] ==> (k == 0 && j == 1) || (k > 0 && IsEndpoint(ds[k]) && 4 <= j <= 6)
  {
    assert Framed(ds[0]);
    AllSlowFramed(ds[1..]);
  }

  /** Full speed packet sizes: at most 64 bytes, or 1023 isochronous, and otherwise as before. */
  lemma FullSpeedLimits(d: Desc)
    requires Framed(d) && IsEndpoint(d)
    ensures Kind(Slow(d)) == Kind(d) && SlotOf(Slow(d)) == SlotOf(d)
    ensures Kind(d) == XFER_BULK || Kind(d) == XFER_INT ==> MaxPacket(Slow(d)) == Min(MaxPacket(d), FULL_SPEED_MAX)
    ensures Kind(d) == XFER_ISOC ==> MaxPacket(Slow(d)) == Min(MaxPacket(d) % 0x800, FULL_SPEED_ISO_MAX)
    ensures Kind(d) == 0 ==> Slow(d) == d
  {
  }

  /** The service interval of a full speed endpoint (section 9.6.6 of the USB 2.0 specification):
      interrupt endpoints count frames of 1 ms, isochronous ones 2^(bInterval - 1) of them. */
  function FullSpeedUs(d: Desc): nat
    requires |d| >= 7
  {
    if d[6] == 0 then 0
    else if Kind(d) == XFER_ISOC then 1000 * Pow2(d[6] as int - 1)
    else 1000 * d[6] as int
  }

  lemma PowersOfTwo()
    ensures Pow2(0) == 1 && Pow2(1) == 2 && Pow2(2) == 4 && Pow2(3) == 8 && Pow2(4) == 16 && Pow2(5) == 32
    ensures Pow2(6) == 64 && Pow2(7) == 128 && Pow2(8) == 256 && Pow2(9) == 512 && Pow2(10) == 1024
    ensures Pow2(11) == 2048 && Pow2(12) == 4096 && Pow2(13) == 8192 && Pow2(14) == 16384 && Pow2(15) == 32768
  {
  }

  lemma {:induction false} PowGrows(m: nat, n: nat)
    requires m <= n
    ensures Pow2(m) <= Pow2(n)
  {
    if m < n { PowGrows(m, n - 1); }
  }

  lemma InterruptPeriod(b: byte)
    ensures 1000 * SlowInterruptInterval(b) as int == HighSpeedUs(b) <==> b == 0 || 4 <= b <= 11
  {
    PowersOfTwo();
  }

  lemma IsoPeriod(b: byte)
    ensures 1000 * Pow2(SlowIsoInterval(b) as int - 1) == HighSpeedUs(b) <==> 4 <= b <= 16
  {
    PowersOfTwo();
    if b > 16 { PowGrows(13, b - 4); }
  }

  lemma SlowPeriod(d: Desc)
    requires Framed(d) && IsEndpoint(d) && Paced(d)
    ensures FullSpeedUs(Slow(d)) == HighSpeedUs(d[6])
            <==> if Kind(d) == XFER_ISOC then 4 <= d[6] <= 16 else d[6] == 0 || 4 <= d[6] <= 11
  {
    InterruptPeriod(d[6]);
    IsoPeriod(d[6]);
    hide Pow2;
  }

  /** The period a full speed host uses is the one the server paces the high speed endpoint with
      exactly for these bIntervals. */
  lemma ServicePeriods(ds: seq<Desc>, k: nat)
    requires AllFramed(ds) && Unique(ds) && 0 < k < |ds| && IsEndpoint(ds[k]) && Paced(ds[k])
    ensures |ds[0]| >= 2 && |FullSpeed(ds)| == |ds| && |FullSpeed(ds)[k]| >= 7
    ensures FullSpeedUs(FullSpeed(ds)[k]) == Loaded(ds)[SlotOf(ds[k])].intervalUs
            <==> if Kind(ds[k]) == XFER_ISOC then 4 <= ds[k][6] <= 16 else ds[k][6] == 0 || 4 <= ds[k][6] <= 11
  {
    hide Slow, FullSpeedUs, HighSpeedUs, Loaded, FullSpeed, Unique;
    assert Framed(ds[0]) && Framed(ds[k]);
    FullSpeedAt(ds, k);
    TableReadsOff(ds, k);
    SlowPeriod(ds[k]);
  }
}
