/** The GUD display: a host checks and commits a state, announces a rectangle, and sends its pixels in
    as many bulk transfers as it likes.

    The display's state is a value here, with the list of rectangles painted since the last reset in
    place of a framebuffer. `GudDevice` proves the in-place code against it. */
module GudDisplay {
  import opened Urbs

  const WIDTH := 320
  const HEIGHT := 240
  const MAX_BUFFER_SIZE := 65536
  const RGB565: byte := 0x40
  const PROPERTY_ROTATION := 50
  const ROTATION_0 := 1
  const SET_BUFFER_SIZE := 25
  const STATE_SIZE := 26
  const PROPERTY_SIZE := 10

  datatype Status = Good | ProtocolError | InvalidParameter

  datatype Rect = Rect(x: nat, y: nat, width: nat, height: nat)

  datatype Pending = Pending(rect: Rect, length: nat, received: seq<byte>)

  datatype Painting = Painting(rect: Rect, pixels: seq<byte>)

  datatype Gud = Gud(format: byte, checked: Option<byte>, pending: Option<Pending>, painted: seq<Painting>)

  datatype Event = Check(data: seq<byte>) | Commit | Buffer(data: seq<byte>) | Chunk(data: seq<byte>) | Reset

  // ----- Requests, little endian -----

  function Le(b: seq<byte>): nat {
    if b == [] then 0 else b[0] as int + 256 * Le(b[1..])
  }

  function Field(data: seq<byte>, at: nat, size: nat): nat
    requires at + size <= |data|
  {
    Le(data[at..at + size])
  }

  function RectOf(data: seq<byte>): Rect
    requires |data| == SET_BUFFER_SIZE
  {
    Rect(Field(data, 0, 4), Field(data, 4, 4), Field(data, 8, 4), Field(data, 12, 4))
  }

  function FormatBits(format: byte): nat {
    if format == 0x01 then 1
    else if format == 0x20 then 4
    else if format == 0x08 || format == 0x30 then 8
    else if format == RGB565 then 16
    else if format == 0x50 then 24
    else if format == 0x80 || format == 0x81 then 32
    else 0
  }

  function LineLength(format: byte, width: nat): nat {
    (width * FormatBits(format) + 7) / 8
  }

  predicate Inside(r: Rect) {
    r.width > 0 && r.height > 0 && r.x + r.width <= WIDTH && r.y + r.height <= HEIGHT
  }

  /** What a buffer request must say. Without compression types to announce, it is not compressed. */
  function BufferStatus(format: byte, data: seq<byte>): Status {
    if |data| != SET_BUFFER_SIZE then ProtocolError
    else
      var r, length := RectOf(data), Field(data, 16, 4);
      if !Inside(r) || format == 0 || length != LineLength(format, r.width) * r.height then InvalidParameter
      else if data[20] != 0 || length == 0 || length > MAX_BUFFER_SIZE then InvalidParameter
      else Good
  }

  /** No property asks for another rotation. */
  predicate Upright(data: seq<byte>, n: nat)
    requires STATE_SIZE + n * PROPERTY_SIZE <= |data|
  {
    n > 0 ==>
      var at := STATE_SIZE + (n - 1) * PROPERTY_SIZE;
      && (Field(data, at, 2) == PROPERTY_ROTATION ==> Field(data, at + 2, 8) == ROTATION_0)
      && Upright(data, n - 1)
  }

  function CheckStatus(data: seq<byte>): Status {
    if |data| < STATE_SIZE || (|data| - STATE_SIZE) % PROPERTY_SIZE != 0 then ProtocolError
    else if Field(data, 4, 2) != WIDTH || Field(data, 12, 2) != HEIGHT || data[24] != RGB565 || data[25] != 0
    then InvalidParameter
    else if !Upright(data, (|data| - STATE_SIZE) / PROPERTY_SIZE) then InvalidParameter
    else Good
  }

  // ----- Steps -----

  function SetBuffer(s: Gud, data: seq<byte>): Gud {
    if BufferStatus(s.format, data) == Good then s.(pending := Some(Pending(RectOf(data), Field(data, 16, 4), []))) else s
  }

  function SetStateCheck(s: Gud, data: seq<byte>): Gud {
    if CheckStatus(data) == Good then s.(checked := Some(data[24])) else s
  }

  function SetStateCommit(s: Gud): Gud {
    if s.checked.Some? then s.(format := s.checked.value, checked := None) else s
  }

  /** Pixel data completes the pending rectangle, brings it closer, or does not match it. */
  function EndpointData(s: Gud, data: seq<byte>): Gud {
    if s.pending.None? || |s.pending.value.received| + |data| > s.pending.value.length then s.(pending := None)
    else
      var p := s.pending.value;
      var all := p.received + data;
      if |all| < p.length then s.(pending := Some(p.(received := all)))
      else s.(pending := None, painted := s.painted + [Painting(p.rect, all)])
  }

  const AFTER_RESET := Gud(0, None, None, [])

  function Apply(s: Gud, e: Event): Gud {
    match e
    case Check(data) => SetStateCheck(s, data)
    case Commit => SetStateCommit(s)
    case Buffer(data) => SetBuffer(s, data)
    case Chunk(data) => EndpointData(s, data)
    case Reset => AFTER_RESET
  }

  function Play(s: Gud, es: seq<Event>): Gud
    decreases |es|
  {
    if es == [] then s else Play(Apply(s, es[0]), es[1..])
  }

  // ----- What every run keeps -----

  /** A rectangle and as many bytes as RGB565 needs for it. */
  predicate Sound(r: Rect, length: nat) {
    Inside(r) && length == r.height * (r.width * 2)
  }

  predicate AllSound(ps: seq<Painting>) {
    forall i :: 0 <= i < |ps| ==> Sound(ps[i].rect, |ps[i].pixels|)
  }

  /** A pending rectangle was checked against the format that is current when its last byte arrives. */
  predicate Inv(s: Gud) {
    && (s.format == 0 || s.format == RGB565)
    && (s.checked.Some? ==> s.checked.value == RGB565)
    && (s.format == 0 ==> s.pending.None? && s.painted == [])
    && (s.pending.Some? ==> Sound(s.pending.value.rect, s.pending.value.length)
                            && |s.pending.value.received| < s.pending.value.length <= MAX_BUFFER_SIZE)
    && AllSound(s.painted)
  }

  lemma LineBytes(width: nat, height: nat)
    ensures LineLength(RGB565, width) * height == height * (width * 2)
  {
    assert LineLength(RGB565, width) == width * 2;
  }

  lemma StepKeepsInv(s: Gud, e: Event)
    requires Inv(s)
    ensures Inv(Apply(s, e))
  {
    if e.Buffer? && BufferStatus(s.format, e.data) == Good {
      LineBytes(RectOf(e.data).width, RectOf(e.data).height);
    }
  }

  lemma {:induction false} RunKeepsInv(s: Gud, es: seq<Event>)
    requires Inv(s)
    ensures Inv(Play(s, es))
    decreases |es|
  {
    if es != [] {
      StepKeepsInv(s, es[0]);
      RunKeepsInv(Apply(s, es[0]), es[1..]);
    }
  }

  // ----- Chunks -----

  /** The pixel data in a run, whatever else happens in between. */
  function Payload(es: seq<Event>): seq<byte> {
    if es == [] then [] else (if es[0].Chunk? then es[0].data else []) + Payload(es[1..])
  }

  /** Nothing but pixel data, which is never empty, and requests to check or commit a state. */
  predicate Transfers(es: seq<Event>) {
    forall i :: 0 <= i < |es| ==> (es[i].Chunk? && es[i].data != []) || es[i].Check? || es[i].Commit?
  }

  lemma {:induction false} WithoutPending(s: Gud, es: seq<Event>)
    requires Transfers(es) && s.pending.None?
    ensures Play(s, es).painted == s.painted && Play(s, es).pending.None?
    decreases |es|
  {
    if es != [] {
      WithoutPending(Apply(s, es[0]), es[1..]);
    }
  }

  /** Some chunk ends exactly where the rectangle does. */
  ghost predicate EndsWith(p: Pending, es: seq<Event>) {
    exists j :: 0 <= j <= |es| && |p.received| + |Payload(es[..j])| == p.length
  }

  /** What a payload makes of a pending rectangle: with less than all of it the rectangle goes on
      waiting, otherwise it is painted from its own bytes, if and only if a chunk ends with it. */
  ghost predicate Outcome(s: Gud, p: Pending, es: seq<Event>, t: Gud) {
    var all := p.received + Payload(es);
    if |all| < p.length then t.painted == s.painted && t.pending == Some(p.(received := all))
    else t.pending.None?
         && t.painted == if EndsWith(p, es) then s.painted + [Painting(p.rect, all[..p.length])] else s.painted
  }

  lemma OneMore(received: seq<byte>, es: seq<Event>)
    requires es != [] && es[0].Chunk?
    ensures received + Payload(es) == (received + es[0].data) + Payload(es[1..])
  {
  }

  /** The first `j` events, after the first one. */
  lemma PayloadOfFirst(es: seq<Event>, j: nat)
    requires 0 < j <= |es|
    ensures es[1..][..j - 1] == es[..j][1..]
    ensures |Payload(es[..j])| == (if es[0].Chunk? then |es[0].data| else 0) + |Payload(es[1..][..j - 1])|
  {
  }

  /** Whether a chunk ends with the rectangle, seen from the next event. */
  lemma EndsWithLater(p: Pending, es: seq<Event>)
    requires es != [] && |p.received| < p.length
    ensures var p' := if es[0].Chunk? then p.(received := p.received + es[0].data) else p;
            EndsWith(p, es) <==> EndsWith(p', es[1..])
  {
    var p' := if es[0].Chunk? then p.(received := p.received + es[0].data) else p;
    if EndsWith(p, es) {
      var j :| 0 <= j <= |es| && |p.received| + |Payload(es[..j])| == p.length;
      assert es[..0] == [];
      PayloadOfFirst(es, j);
      assert |p'.received| + |Payload(es[1..][..j - 1])| == p'.length;
    }
    if EndsWith(p', es[1..]) {
      var j :| 0 <= j <= |es[1..]| && |p'.received| + |Payload(es[1..][..j])| == p'.length;
      PayloadOfFirst(es, j + 1);
      assert |p.received| + |Payload(es[..j + 1])| == p.length;
    }
  }

  lemma EndsWithNow(p: Pending, es: seq<Event>)
    requires |p.received| >= p.length
    ensures EndsWith(p, es) <==> |p.received| == p.length
  {
    if |p.received| == p.length {
      assert es[..0] == [] && |p.received| + |Payload(es[..0])| == p.length;
    }
  }

  /** However the payload is cut into transfers, and whatever states are checked and committed in
      between: the rectangle is painted when its payload is complete, and never from other bytes. */
  lemma {:induction false} ChunksDoNotMatter(s: Gud, es: seq<Event>)
    requires s.pending.Some? && |s.pending.value.received| < s.pending.value.length && Transfers(es)
    ensures Outcome(s, s.pending.value, es, Play(s, es))
    decreases |es|
  {
    hide EndsWith;
    var p := s.pending.value;
    if es == [] {
      assert p.received + Payload(es) == p.received;
    } else if es[0].Chunk? {
      OneMore(p.received, es);
      EndsWithLater(p, es);
      var t, all := EndpointData(s, es[0].data), p.received + es[0].data;
      if t.pending.Some? {
        ChunksDoNotMatter(t, es[1..]);
      } else {
        WithoutPending(t, es[1..]);
        EndsWithNow(p.(received := all), es[1..]);
        var full := all + Payload(es[1..]);
        assert full[..|all|] == all;
      }
    } else {
      EndsWithLater(p, es);
      ChunksDoNotMatter(Apply(s, es[0]), es[1..]);
      assert Payload(es) == Payload(es[1..]);
    }
  }

  /** The whole payload, in any pieces. */
  lemma WholePayload(s: Gud, es: seq<Event>)
    requires s.pending.Some? && |s.pending.value.received| < s.pending.value.length && Transfers(es)
    requires |s.pending.value.received| + |Payload(es)| == s.pending.value.length
    ensures var p := s.pending.value;
            Play(s, es).painted == s.painted + [Painting(p.rect, p.received + Payload(es))]
  {
    ChunksDoNotMatter(s, es);
    var p := s.pending.value;
    assert es[..|es|] == es;
    assert EndsWith(p, es);
    var all := p.received + Payload(es);
    assert all[..p.length] == all;
  }

  lemma {:induction false} PlayMore(s: Gud, es: seq<Event>, more: seq<Event>)
    ensures Play(s, es + more) == Play(Play(s, es), more)
    decreases |es|
  {
    if es == [] {
      assert es + more == more;
    } else {
      PlayMore(Apply(s, es[0]), es[1..], more);
      assert (es + more)[1..] == es[1..] + more;
    }
  }

  /** After any run: an accepted buffer request and its payload, in any pieces, paint one rectangle. */
  lemma AcceptedPaints(es: seq<Event>, data: seq<byte>, ts: seq<Event>)
    requires BufferStatus(Play(AFTER_RESET, es).format, data) == Good
    requires Transfers(ts) && |Payload(ts)| == Field(data, 16, 4)
    ensures Play(AFTER_RESET, es + [Buffer(data)] + ts).painted
            == Play(AFTER_RESET, es).painted + [Painting(RectOf(data), Payload(ts))]
  {
    var s := Play(AFTER_RESET, es);
    var t := SetBuffer(s, data);
    PlayMore(AFTER_RESET, es + [Buffer(data)], ts);
    PlayMore(AFTER_RESET, es, [Buffer(data)]);
    assert Play(s, [Buffer(data)]) == t;
    WholePayload(t, ts);
    assert [] + Payload(ts) == Payload(ts);
  }

  // ----- The picture -----

  /** Whether a rectangle covers a place of the picture, `col` counting bytes and `bpp` of them making
      a pixel. */
  predicate CoversAt(r: Rect, bpp: nat, row: nat, col: nat) {
    r.y <= row < r.y + r.height && r.x * bpp <= col < r.x * bpp + r.width * bpp
  }

  lemma RowInside(a: nat, b: nat, height: nat, pitch: nat)
    requires a < height && b < pitch
    ensures 0 <= a * pitch && a * pitch + b < height * pitch
  {
    assert (a + 1) * pitch <= height * pitch;
  }

  /** The byte that a rectangle's pixels have for that place. */
  function ByteAt(r: Rect, pixels: seq<byte>, bpp: nat, row: nat, col: nat): byte
    requires |pixels| == r.height * (r.width * bpp) && CoversAt(r, bpp, row, col)
  {
    RowInside(row - r.y, col - r.x * bpp, r.height, r.width * bpp);
    pixels[(row - r.y) * (r.width * bpp) + (col - r.x * bpp)]
  }

  predicate Covers(r: Rect, row: nat, col: nat) {
    CoversAt(r, 2, row, col)
  }

  function ByteOf(p: Painting, row: nat, col: nat): byte
    requires Sound(p.rect, |p.pixels|) && Covers(p.rect, row, col)
  {
    ByteAt(p.rect, p.pixels, 2, row, col)
  }

  /** The picture after painting one rectangle after the other on black. */
  function Picture(ps: seq<Painting>, row: nat, col: nat): byte
    requires AllSound(ps)
  {
    if ps == [] then 0
    else
      var last := ps[|ps| - 1];
      if Covers(last.rect, row, col) then ByteOf(last, row, col) else Picture(ps[..|ps| - 1], row, col)
  }

  /** The most recent rectangle that covers a place decides it. */
  lemma {:induction false} LastWins(ps: seq<Painting>, j: nat, row: nat, col: nat)
    requires AllSound(ps) && j < |ps| && Covers(ps[j].rect, row, col)
    requires forall i :: j < i < |ps| ==> !Covers(ps[i].rect, row, col)
    ensures Picture(ps, row, col) == ByteOf(ps[j], row, col)
  {
    if j < |ps| - 1 {
      LastWins(ps[..|ps| - 1], j, row, col);
    }
  }

  lemma {:induction false} NeverCovered(ps: seq<Painting>, row: nat, col: nat)
    requires AllSound(ps) && forall i :: 0 <= i < |ps| ==> !Covers(ps[i].rect, row, col)
    ensures Picture(ps, row, col) == 0
  {
    if ps != [] {
      NeverCovered(ps[..|ps| - 1], row, col);
    }
  }

  // ----- Colours -----

  /** Widens a colour channel with the maximum `top` to eight bits. */
  function Widen(value: nat, top: nat): (r: nat)
    requires 0 < top && value <= top
    ensures r <= 255
  {
    WidenFits(value, top);
    value * 255 / top
  }

  lemma WidenFits(value: nat, top: nat)
    requires 0 < top && value <= top
    ensures value * 255 / top <= 255
  {
    assert value * 255 <= top * 255;
  }

  /** The smallest channel value that widens to this. */
  function Narrow(wide: nat, top: nat): nat {
    (wide * top + 254) / 255
  }

  lemma NarrowOfWiden(value: nat, top: nat)
    requires 0 < top <= 255 && value <= top
    ensures Narrow(Widen(value, top), top) == value
  {
    var w := Widen(value, top);
    assert value * 255 - top < w * top <= value * 255;
  }

  /** An RGB565 pixel, little endian, as XRGB8888. */
  function Xrgb565(lo: byte, hi: byte): (r: nat)
    ensures r < 0x100_0000
  {
    var pixel := lo as int + 256 * hi as int;
    0x1_0000 * Widen(pixel / 0x800, 31) + 0x100 * Widen(pixel / 0x20 % 0x40, 63) + Widen(pixel % 0x20, 31)
  }

  /** The RGB565 pixel that has this colour. */
  function Pixel565(xrgb: nat): nat {
    0x800 * Narrow(xrgb / 0x1_0000, 31) + 0x20 * Narrow(xrgb / 0x100 % 0x100, 63) + Narrow(xrgb % 0x100, 31)
  }

  lemma Channels(r: nat, g: nat, b: nat)
    requires r < 0x100 && g < 0x100 && b < 0x100
    ensures var x := 0x1_0000 * r + 0x100 * g + b; x / 0x1_0000 == r && x / 0x100 % 0x100 == g && x % 0x100 == b
  {
    var x := 0x1_0000 * r + 0x100 * g + b;
    assert x / 0x100 == 0x100 * r + g;
  }

  lemma Fields565(pixel: nat)
    requires pixel < 0x1_0000
    ensures pixel / 0x800 <= 31 && pixel / 0x20 % 0x40 <= 63 && pixel % 0x20 <= 31
    ensures pixel == 0x800 * (pixel / 0x800) + 0x20 * (pixel / 0x20 % 0x40) + pixel % 0x20
  {
    assert pixel / 0x20 / 0x40 == pixel / 0x800;
  }

  lemma Pixel565Kept(lo: byte, hi: byte)
    ensures Pixel565(Xrgb565(lo, hi)) == lo as int + 256 * hi as int
  {
    var pixel := lo as int + 256 * hi as int;
    Fields565(pixel);
    ChannelsAreKept(pixel / 0x800, pixel / 0x20 % 0x40, pixel % 0x20);
  }

  lemma PixelOfChannels(r: nat, g: nat, b: nat)
    requires r < 0x100 && g < 0x100 && b < 0x100
    ensures Pixel565(0x1_0000 * r + 0x100 * g + b) == 0x800 * Narrow(r, 31) + 0x20 * Narrow(g, 63) + Narrow(b, 31)
  {
    hide Narrow;
    Channels(r, g, b);
  }

  lemma ChannelsAreKept(r: nat, g: nat, b: nat)
    requires r <= 31 && g <= 63 && b <= 31
    ensures Pixel565(0x1_0000 * Widen(r, 31) + 0x100 * Widen(g, 63) + Widen(b, 31)) == 0x800 * r + 0x20 * g + b
  {
    hide Widen, Narrow, Pixel565;
    NarrowOfWiden(r, 31);
    NarrowOfWiden(g, 63);
    NarrowOfWiden(b, 31);
    PixelOfChannels(Widen(r, 31), Widen(g, 63), Widen(b, 31));
  }

  /** An RGB332 pixel as XRGB8888. */
  function Xrgb332(v: byte): (r: nat)
    ensures r < 0x100_0000
  {
    0x1_0000 * Widen(v as int / 0x20, 7) + 0x100 * Widen(v as int / 4 % 8, 7) + Widen(v as int % 4, 3)
  }

  function Pixel332(xrgb: nat): nat {
    0x20 * Narrow(xrgb / 0x1_0000, 7) + 4 * Narrow(xrgb / 0x100 % 0x100, 7) + Narrow(xrgb % 0x100, 3)
  }

  lemma Pixel332OfChannels(r: nat, g: nat, b: nat)
    requires r < 0x100 && g < 0x100 && b < 0x100
    ensures Pixel332(0x1_0000 * r + 0x100 * g + b) == 0x20 * Narrow(r, 7) + 4 * Narrow(g, 7) + Narrow(b, 3)
  {
    hide Narrow;
    Channels(r, g, b);
  }

  lemma Channels332AreKept(r: nat, g: nat, b: nat)
    requires r <= 7 && g <= 7 && b <= 3
    ensures Pixel332(0x1_0000 * Widen(r, 7) + 0x100 * Widen(g, 7) + Widen(b, 3)) == 0x20 * r + 4 * g + b
  {
    hide Widen, Narrow, Pixel332;
    NarrowOfWiden(r, 7);
    NarrowOfWiden(g, 7);
    NarrowOfWiden(b, 3);
    Pixel332OfChannels(Widen(r, 7), Widen(g, 7), Widen(b, 3));
  }

  lemma Pixel332Kept(v: byte)
    ensures Pixel332(Xrgb332(v)) == v as int
  {
    Fields332(v as int);
    Channels332AreKept(v as int / 0x20, v as int / 4 % 8, v as int % 4);
  }

  lemma Fields332(v: nat)
    requires v < 0x100
    ensures v / 0x20 <= 7 && v / 4 % 8 <= 7 && v % 4 <= 3
    ensures v == 0x20 * (v / 0x20) + 4 * (v / 4 % 8) + v % 4
  {
    assert v / 4 / 8 == v / 0x20;
  }

  const PIXELS := 320 * 240
  const FRAMEBUFFER_SIZE := 320 * 240 * 4

  /** The window's colour of a pixel, in any format. Formats below 8 bits per pixel are black. */
  function Xrgb(format: byte, fb: seq<byte>, k: nat): nat
    requires |fb| == FRAMEBUFFER_SIZE && k < PIXELS
  {
    if format == 0x08 then 0x1_0101 * fb[k] as int
    else if format == 0x30 then Xrgb332(fb[k])
    else if format == RGB565 then Xrgb565(fb[2 * k], fb[2 * k + 1])
    else if format == 0x50 then 0x1_0000 * fb[3 * k + 2] as int + 0x100 * fb[3 * k + 1] as int + fb[3 * k] as int
    else if format == 0x80 || format == 0x81 then
      0x1_0000 * fb[4 * k + 2] as int + 0x100 * fb[4 * k + 1] as int + fb[4 * k] as int
    else 0
  }

  /** The colour bits of a pixel as the framebuffer has them, little endian. */
  function Raw(format: byte, fb: seq<byte>, k: nat): nat
    requires |fb| == FRAMEBUFFER_SIZE && k < PIXELS
  {
    if FormatBits(format) == 8 then Le(fb[k..k + 1])
    else if FormatBits(format) == 16 then Le(fb[2 * k..2 * k + 2])
    else if FormatBits(format) == 24 then Le(fb[3 * k..3 * k + 3])
    else if FormatBits(format) == 32 then Le(fb[4 * k..4 * k + 3])
    else 0
  }

  /** The colour bits read back from the window. */
  function Back(format: byte, xrgb: nat): nat {
    if format == 0x08 then xrgb % 0x100
    else if format == 0x30 then Pixel332(xrgb)
    else if format == RGB565 then Pixel565(xrgb)
    else xrgb
  }

  lemma LeOne(a: byte)
    ensures Le([a]) == a as int
  {
    assert [a][1..] == [];
  }

  lemma LeTwo(a: byte, b: byte)
    ensures Le([a, b]) == a as int + 0x100 * b as int
  {
    assert [a, b][1..] == [b];
    LeOne(b);
  }

  lemma LeThree(a: byte, b: byte, c: byte)
    ensures Le([a, b, c]) == a as int + 0x100 * b as int + 0x1_0000 * c as int
  {
    assert [a, b, c][1..] == [b, c];
    LeTwo(b, c);
  }

  lemma WideColoursAreKept(format: byte, fb: seq<byte>, k: nat)
    requires |fb| == FRAMEBUFFER_SIZE && k < PIXELS && FormatBits(format) >= 24
    ensures Xrgb(format, fb, k) == Raw(format, fb, k)
  {
    var at := if format == 0x50 then 3 * k else 4 * k;
    assert fb[at..at + 3] == [fb[at], fb[at + 1], fb[at + 2]];
    LeThree(fb[at], fb[at + 1], fb[at + 2]);
    hide Le;
  }

  /** In every format the framebuffer keeps, the window's colour tells the pixel: no two pixels of
      different colour look the same. */
  lemma ColoursAreKept(format: byte, fb: seq<byte>, k: nat)
    requires |fb| == FRAMEBUFFER_SIZE && k < PIXELS && FormatBits(format) >= 8
    ensures Back(format, Xrgb(format, fb, k)) == Raw(format, fb, k)
  {
    hide Pixel332, Pixel565, Xrgb332, Xrgb565;
    if format == 0x08 || format == 0x30 {
      assert fb[k..k + 1] == [fb[k]];
      LeOne(fb[k]);
      Pixel332Kept(fb[k]);
    } else if format == RGB565 {
      assert fb[2 * k..2 * k + 2] == [fb[2 * k], fb[2 * k + 1]];
      LeTwo(fb[2 * k], fb[2 * k + 1]);
      Pixel565Kept(fb[2 * k], fb[2 * k + 1]);
    } else {
      WideColoursAreKept(format, fb, k);
    }
  }
}
