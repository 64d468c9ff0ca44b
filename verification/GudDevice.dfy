/** The GUD display's static data, changed in place by the device's callbacks, and the conversion of
    its framebuffer for the window. */
module GudDevice {
  import opened Urbs
  import opened GudDisplay
  import opened Memory

  const PITCH := 640
  const MAX_PITCH := 1280

  /** Where a byte of the picture is, by row and by byte in the row. */
  function Index(pitch: nat, row: nat, col: nat): (i: nat)
    requires row < HEIGHT && col < pitch <= MAX_PITCH
    ensures i < FRAMEBUFFER_SIZE
  {
    RowInside(row, col, HEIGHT, pitch);
    row * pitch + col
  }

  function Cell(fb: seq<byte>, pitch: nat, row: nat, col: nat): byte
    requires row < HEIGHT && col < pitch <= MAX_PITCH && |fb| == FRAMEBUFFER_SIZE
  {
    fb[Index(pitch, row, col)]
  }

  /** The framebuffer holds the picture of these paintings. */
  ghost predicate Holds(fb: seq<byte>, ps: seq<Painting>)
    requires |fb| == FRAMEBUFFER_SIZE && AllSound(ps)
  {
    forall row: nat, col: nat :: row < HEIGHT && col < PITCH ==> Cell(fb, PITCH, row, col) == Picture(ps, row, col)
  }

  class Display {
    var stateChecked: bool
    var checkedFormat: byte
    var currentFormat: byte
    var active: bool
    var rect: Rect
    var transferLength: nat
    var received: nat
    const transferBuffer: array<byte>
    const framebuffer: array<byte>
    ghost var painted: seq<Painting>

    ghost predicate Shaped()
      reads this
    {
      && transferBuffer.Length == MAX_BUFFER_SIZE && framebuffer.Length == FRAMEBUFFER_SIZE
      && received <= MAX_BUFFER_SIZE && transferBuffer != framebuffer
    }

    ghost function Abs(): Gud
      requires Shaped()
      reads this, transferBuffer
    {
      Gud(currentFormat, if stateChecked then Some(checkedFormat) else None,
          if active then Some(Pending(rect, transferLength, transferBuffer[..received])) else None, painted)
    }

    ghost predicate Valid()
      reads this, transferBuffer, framebuffer
    {
      Shaped() && Inv(Abs()) && Holds(framebuffer[..], painted)
    }

    constructor ()
      ensures Valid() && fresh(transferBuffer) && fresh(framebuffer) && Abs() == AFTER_RESET
    {
      transferBuffer := new byte[MAX_BUFFER_SIZE](_ => 0);
      framebuffer := new byte[FRAMEBUFFER_SIZE](_ => 0);
      stateChecked, checkedFormat, currentFormat, active := false, 0, 0, false;
      rect, transferLength, received := Rect(0, 0, 0, 0), 0, 0;
      painted := [];
    }

    method SetBufferRequest(data: seq<byte>) returns (status: Status)
      requires Valid()
      modifies this
      ensures Valid() && Abs() == SetBuffer(old(Abs()), data)
      ensures status == BufferStatus(old(currentFormat), data)
    {
      StepKeepsInv(Abs(), Buffer(data));
      if |data| != SET_BUFFER_SIZE {
        return ProtocolError;
      }
      var r, length, compression := RectOf(data), Field(data, 16, 4), data[20];
      var inside := r.width > 0 && r.height > 0 && r.x < WIDTH && r.y < HEIGHT
                    && r.width <= WIDTH - r.x && r.height <= HEIGHT - r.y;
      if !inside || currentFormat == 0 || length != LineLength(currentFormat, r.width) * r.height {
        return InvalidParameter;
      }
      if compression != 0 || length == 0 || length > MAX_BUFFER_SIZE {
        return InvalidParameter;
      }
      active, rect, transferLength, received := true, r, length, 0;
      return Good;
    }

    method SetStateCheckRequest(data: seq<byte>) returns (status: Status)
      requires Valid()
      modifies this
      ensures Valid() && Abs() == SetStateCheck(old(Abs()), data)
      ensures status == CheckStatus(data)
    {
      StepKeepsInv(Abs(), Check(data));
      if |data| < STATE_SIZE || (|data| - STATE_SIZE) % PROPERTY_SIZE != 0 {
        return ProtocolError;
      }
      if Field(data, 4, 2) != WIDTH || Field(data, 12, 2) != HEIGHT || data[24] != RGB565 || data[25] != 0 {
        return InvalidParameter;
      }
      var upright := RotationIsZero(data);
      if !upright {
        return InvalidParameter;
      }
      checkedFormat, stateChecked := data[24], true;
      return Good;
    }

    method SetStateCommitRequest() returns (status: Status)
      requires Valid()
      modifies this
      ensures Valid() && Abs() == SetStateCommit(old(Abs()))
      ensures status == if old(stateChecked) then Good else ProtocolError
    {
      StepKeepsInv(Abs(), Commit);
      if !stateChecked {
        return ProtocolError;
      }
      currentFormat, stateChecked := checkedFormat, false;
      return Good;
    }

    method ReceivePixels(data: seq<byte>)
      requires Valid()
      modifies this, transferBuffer, framebuffer
      ensures Valid() && Abs() == EndpointData(old(Abs()), data)
    {
      StepKeepsInv(Abs(), Chunk(data));
      if !active || |data| > transferLength - received {
        active := false;
        return;
      }
      CopyTo(transferBuffer, received, data);
      received := received + |data|;
      if received < transferLength {
        return;
      }
      active := false;
      ghost var p := Painting(rect, transferBuffer[..received]);
      StoreRectangle(framebuffer, currentFormat, rect, transferBuffer[..received]);
      PaintingHolds(old(framebuffer[..]), framebuffer[..], painted, p);
      painted := painted + [p];
    }

    method ResetDisplay()
      requires Valid()
      modifies this, framebuffer
      ensures Valid() && Abs() == AFTER_RESET
    {
      stateChecked, currentFormat, active := false, 0, false;
      for i := 0 to framebuffer.Length
        invariant forall k :: 0 <= k < i ==> framebuffer[k] == 0
        modifies framebuffer
      {
        framebuffer[i] := 0;
      }
      painted := [];
    }
  }

  method RotationIsZero(data: seq<byte>) returns (ok: bool)
    requires |data| >= STATE_SIZE && (|data| - STATE_SIZE) % PROPERTY_SIZE == 0
    ensures ok <==> Upright(data, (|data| - STATE_SIZE) / PROPERTY_SIZE)
  {
    var at := STATE_SIZE;
    ghost var n: nat := 0;
    while at < |data|
      invariant at == STATE_SIZE + n * PROPERTY_SIZE <= |data| && Upright(data, n)
    {
      n := n + 1;
      if Field(data, at, 2) == PROPERTY_ROTATION && Field(data, at + 2, 8) != ROTATION_0 {
        StaysTurned(data, n, (|data| - STATE_SIZE) / PROPERTY_SIZE);
        return false;
      }
      at := at + PROPERTY_SIZE;
    }
    return true;
  }

  lemma {:induction false} StaysTurned(data: seq<byte>, n: nat, m: nat)
    requires n <= m && STATE_SIZE + m * PROPERTY_SIZE <= |data| && !Upright(data, n)
    ensures !Upright(data, m)
  {
    if n < m { StaysTurned(data, n, m - 1); }
  }

  /** Different places have different indices. */
  lemma SameCell(pitch: nat, row: nat, col: nat, r: nat, c: nat)
    requires row < HEIGHT && r < HEIGHT && col < pitch && c < pitch <= MAX_PITCH
    ensures Index(pitch, row, col) == Index(pitch, r, c) ==> row == r && col == c
  {
    if row < r {
      assert (row + 1) * pitch <= r * pitch;
    } else if r < row {
      assert (r + 1) * pitch <= row * pitch;
    }
  }

  lemma OneCell(fb: seq<byte>, pitch: nat, row: nat, col: nat, v: byte, r: nat, c: nat)
    requires |fb| == FRAMEBUFFER_SIZE && row < HEIGHT && r < HEIGHT && col < pitch && c < pitch <= MAX_PITCH
    ensures Cell(fb[Index(pitch, row, col) := v], pitch, r, c) == if r == row && c == col then v else Cell(fb, pitch, r, c)
  {
    hide Index;
    SameCell(pitch, row, col, r, c);
  }

  /** `memcpy` of one line into the framebuffer. */
  method CopyLine(fb: array<byte>, pitch: nat, row: nat, col: nat, line: seq<byte>)
    requires fb.Length == FRAMEBUFFER_SIZE && row < HEIGHT && col + |line| <= pitch <= MAX_PITCH
    modifies fb
    ensures forall r: nat, c: nat :: r < HEIGHT && c < pitch ==>
      Cell(fb[..], pitch, r, c)
      == if r == row && col <= c < col + |line| then line[c - col] else Cell(old(fb[..]), pitch, r, c)
  {
    hide Index, Cell;
    for k := 0 to |line|
      invariant forall r: nat, c: nat :: r < HEIGHT && c < pitch ==>
        Cell(fb[..], pitch, r, c)
        == if r == row && col <= c < col + k then line[c - col] else Cell(old(fb[..]), pitch, r, c)
    {
      ghost var before := fb[..];
      fb[Index(pitch, row, col + k)] := line[k];
      assert fb[..] == before[Index(pitch, row, col + k) := line[k]];
      forall r: nat, c: nat | r < HEIGHT && c < pitch
        ensures Cell(fb[..], pitch, r, c) == if r == row && c == col + k then line[k] else Cell(before, pitch, r, c)
      {
        OneCell(before, pitch, row, col + k, line[k], r, c);
      }
    }
  }

  /** One line of a rectangle's pixels. */
  function LineOf(pixels: seq<byte>, height: nat, pitch: nat, line: nat): (r: seq<byte>)
    requires |pixels| == height * pitch && line < height
    ensures |r| == pitch
  {
    LineInside(height, pitch, line);
    pixels[line * pitch..line * pitch + pitch]
  }

  lemma LineInside(height: nat, pitch: nat, line: nat)
    requires line < height
    ensures 0 <= line * pitch && line * pitch + pitch <= height * pitch
  {
    assert (line + 1) * pitch <= height * pitch;
  }

  /** The byte of a place is in the line of its row. */
  lemma ByteInLine(rect: Rect, pixels: seq<byte>, bpp: nat, row: nat, col: nat)
    requires |pixels| == rect.height * (rect.width * bpp) && CoversAt(rect, bpp, row, col)
    ensures ByteAt(rect, pixels, bpp, row, col)
            == LineOf(pixels, rect.height, rect.width * bpp, row - rect.y)[col - rect.x * bpp]
  {
    LineInside(rect.height, rect.width * bpp, row - rect.y);
  }

  /** The framebuffer after painting one rectangle: its own bytes where it covers, nothing else. */
  ghost predicate Painted(fb: seq<byte>, was: seq<byte>, bpp: nat, rect: Rect, pixels: seq<byte>)
    requires |fb| == |was| == FRAMEBUFFER_SIZE && bpp <= 4 && |pixels| == rect.height * (rect.width * bpp)
  {
    forall r: nat, c: nat :: r < HEIGHT && c < WIDTH * bpp ==>
      Cell(fb, WIDTH * bpp, r, c)
      == if CoversAt(rect, bpp, r, c) then ByteAt(rect, pixels, bpp, r, c) else Cell(was, WIDTH * bpp, r, c)
  }

  /** Halfway: the first lines are painted. */
  ghost predicate PaintedLines(fb: seq<byte>, was: seq<byte>, bpp: nat, rect: Rect, pixels: seq<byte>, lines: nat)
    requires |fb| == |was| == FRAMEBUFFER_SIZE && bpp <= 4 && |pixels| == rect.height * (rect.width * bpp)
  {
    forall r: nat, c: nat :: r < HEIGHT && c < WIDTH * bpp ==>
      Cell(fb, WIDTH * bpp, r, c)
      == if CoversAt(rect, bpp, r, c) && r < rect.y + lines
         then ByteAt(rect, pixels, bpp, r, c) else Cell(was, WIDTH * bpp, r, c)
  }

  lemma Scaled(x: nat, width: nat, bpp: nat)
    requires x + width <= WIDTH
    ensures x * bpp + width * bpp <= WIDTH * bpp
  {
    assert (x + width) * bpp <= WIDTH * bpp;
  }

  /** Paints a rectangle, line by line, in whatever format has whole bytes per pixel. In the others
      nothing is kept. */
  method StoreRectangle(fb: array<byte>, format: byte, rect: Rect, pixels: seq<byte>)
    requires fb.Length == FRAMEBUFFER_SIZE && Inside(rect)
    requires FormatBits(format) % 8 == 0 ==> |pixels| == rect.height * (rect.width * (FormatBits(format) / 8))
    modifies fb
    ensures if FormatBits(format) % 8 == 0 then Painted(fb[..], old(fb[..]), FormatBits(format) / 8, rect, pixels)
            else fb[..] == old(fb[..])
  {
    var bits := FormatBits(format);
    if bits % 8 != 0 {
      return;
    }
    var bpp := bits / 8;
    NoLines(fb[..], bpp, rect, pixels);
    hide PaintedLines, Painted;
    for line := 0 to rect.height
      invariant PaintedLines(fb[..], old(fb[..]), bpp, rect, pixels, line)
    {
      StoreLine(fb, old(fb[..]), bpp, rect, pixels, line);
    }
    AllLines(fb[..], old(fb[..]), bpp, rect, pixels);
  }

  method StoreLine(fb: array<byte>, ghost was: seq<byte>, bpp: nat, rect: Rect, pixels: seq<byte>, line: nat)
    requires fb.Length == |was| == FRAMEBUFFER_SIZE && Inside(rect) && bpp <= 4 && line < rect.height
    requires |pixels| == rect.height * (rect.width * bpp) && PaintedLines(fb[..], was, bpp, rect, pixels, line)
    modifies fb
    ensures PaintedLines(fb[..], was, bpp, rect, pixels, line + 1)
  {
    hide PaintedLines, Cell, LineOf;
    Scaled(rect.x, rect.width, bpp);
    ghost var mid := fb[..];
    CopyLine(fb, WIDTH * bpp, rect.y + line, rect.x * bpp, LineOf(pixels, rect.height, rect.width * bpp, line));
    OneMoreLine(fb[..], mid, was, bpp, rect, pixels, line);
  }

  lemma NoLines(fb: seq<byte>, bpp: nat, rect: Rect, pixels: seq<byte>)
    requires |fb| == FRAMEBUFFER_SIZE && bpp <= 4 && |pixels| == rect.height * (rect.width * bpp)
    ensures PaintedLines(fb, fb, bpp, rect, pixels, 0)
  {
    hide Cell;
  }

  lemma AllLines(fb: seq<byte>, was: seq<byte>, bpp: nat, rect: Rect, pixels: seq<byte>)
    requires |fb| == |was| == FRAMEBUFFER_SIZE && bpp <= 4 && |pixels| == rect.height * (rect.width * bpp)
    requires PaintedLines(fb, was, bpp, rect, pixels, rect.height)
    ensures Painted(fb, was, bpp, rect, pixels)
  {
    hide Cell;
  }

  lemma OneMoreLine(fb: seq<byte>, mid: seq<byte>, was: seq<byte>, bpp: nat, rect: Rect, pixels: seq<byte>, line: nat)
    requires |fb| == |mid| == |was| == FRAMEBUFFER_SIZE && bpp <= 4 && |pixels| == rect.height * (rect.width * bpp)
    requires line < rect.height && PaintedLines(mid, was, bpp, rect, pixels, line)
    requires var at, text := rect.x * bpp, LineOf(pixels, rect.height, rect.width * bpp, line);
             forall r: nat, c: nat :: r < HEIGHT && c < WIDTH * bpp ==>
               Cell(fb, WIDTH * bpp, r, c)
               == if r == rect.y + line && at <= c < at + |text| then text[c - at] else Cell(mid, WIDTH * bpp, r, c)
    ensures PaintedLines(fb, was, bpp, rect, pixels, line + 1)
  {
    hide Cell, LineOf, ByteAt;
    forall r: nat, c: nat | r < HEIGHT && c < WIDTH * bpp
      ensures Cell(fb, WIDTH * bpp, r, c)
              == if CoversAt(rect, bpp, r, c) && r < rect.y + (line + 1)
                 then ByteAt(rect, pixels, bpp, r, c) else Cell(was, WIDTH * bpp, r, c)
    {
      if CoversAt(rect, bpp, r, c) && r == rect.y + line {
        ByteInLine(rect, pixels, bpp, r, c);
      }
    }
  }

  /** A painting in the display's own format makes the picture with one more rectangle. */
  lemma PaintingHolds(was: seq<byte>, fb: seq<byte>, ps: seq<Painting>, p: Painting)
    requires |fb| == |was| == FRAMEBUFFER_SIZE && AllSound(ps) && Holds(was, ps) && Sound(p.rect, |p.pixels|)
    requires Painted(fb, was, 2, p.rect, p.pixels)
    ensures AllSound(ps + [p]) && Holds(fb, ps + [p])
  {
    hide Cell, ByteAt;
    assert (ps + [p])[..|ps|] == ps;
  }

  /** `framebuffer_to_xrgb8888`, in any format. */
  method FramebufferToXrgb8888(fb: seq<byte>, format: byte) returns (out: array<nat>)
    requires |fb| == FRAMEBUFFER_SIZE
    ensures fresh(out) && out.Length == PIXELS
    ensures forall k :: 0 <= k < PIXELS ==> out[k] == Xrgb(format, fb, k)
  {
    out := new nat[PIXELS];
    for k := 0 to PIXELS
      invariant forall j :: 0 <= j < k ==> out[j] == Xrgb(format, fb, j)
    {
      var r, g, b := 0, 0, 0;
      if format == 0x08 {
        r, g, b := fb[k], fb[k], fb[k];
      } else if format == 0x30 {
        r := Widen(fb[k] as int / 0x20, 7);
        g := Widen(fb[k] as int / 4 % 8, 7);
        b := Widen(fb[k] as int % 4, 3);
      } else if format == RGB565 {
        var pixel := fb[2 * k] as int + 256 * fb[2 * k + 1] as int;
        r := Widen(pixel / 0x800, 31);
        g := Widen(pixel / 0x20 % 0x40, 63);
        b := Widen(pixel % 0x20, 31);
      } else if format == 0x50 {
        r, g, b := fb[3 * k + 2], fb[3 * k + 1], fb[3 * k];
      } else if format == 0x80 || format == 0x81 {
        r, g, b := fb[4 * k + 2], fb[4 * k + 1], fb[4 * k];
      }
      out[k] := 0x1_0000 * r + 0x100 * g + b;
    }
  }

  lemma NoPaintingIsBlack(fb: seq<byte>, k: nat)
    requires |fb| == FRAMEBUFFER_SIZE && Holds(fb, []) && k < HEIGHT * PITCH
    ensures fb[k] == 0
  {
    assert fb[k] == Cell(fb, PITCH, k / PITCH, k % PITCH);
  }

  /** The colour of a pixel of the picture. */
  function Colour(ps: seq<Painting>, y: nat, x: nat): nat
    requires AllSound(ps)
  {
    Xrgb565(Picture(ps, y, 2 * x), Picture(ps, y, 2 * x + 1))
  }

  /** In every state of the display the window shows the picture, whole pixels of it. */
  lemma WindowShowsPicture(s: Gud, fb: seq<byte>, y: nat, x: nat)
    requires |fb| == FRAMEBUFFER_SIZE && Inv(s) && Holds(fb, s.painted) && y < HEIGHT && x < WIDTH
    ensures Xrgb(s.format, fb, y * WIDTH + x) == Colour(s.painted, y, x)
  {
    var k := y * WIDTH + x;
    assert fb[2 * k] == Cell(fb, PITCH, y, 2 * x) && fb[2 * k + 1] == Cell(fb, PITCH, y, 2 * x + 1);
    if s.format == 0 {
      NoPaintingIsBlack(fb, 2 * k);
      NoPaintingIsBlack(fb, 2 * k + 1);
    }
  }
}
