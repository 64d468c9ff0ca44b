/** What a host writes into its requests to the display, and what the display makes of them. The fields
    are little endian and lie one behind the other, as in `gud_set_buffer_req_t` and `gud_state_req_t`. */
module GudRequests {
  import opened Urbs
  import opened GudDisplay

  // ----- Little endian fields -----

  function Bytes(x: nat, n: nat): (b: seq<byte>)
    ensures |b| == n
  {
    if n == 0 then [] else [x % 256] + Bytes(x / 256, n - 1)
  }

  /** One more than the largest number that n bytes hold. */
  function Top(n: nat): nat {
    if n == 0 then 1 else 256 * Top(n - 1)
  }

  lemma {:induction false} ReadsBack(x: nat, n: nat)
    requires x < Top(n)
    ensures Le(Bytes(x, n)) == x
  {
    if n > 0 {
      ReadsBack(x / 256, n - 1);
      assert Bytes(x, n)[1..] == Bytes(x / 256, n - 1);
    }
  }

  lemma Tops()
    ensures Top(2) == 0x1_0000 && Top(4) == 0x1_0000_0000 && Top(8) == 0x1_0000_0000_0000_0000
  {
    assert Top(1) == 256 && Top(3) == 256 * Top(2) && Top(5) == 256 * Top(4) && Top(6) == 256 * Top(5) && Top(7) == 256 * Top(6);
  }

  /** A field between others. */
  lemma FieldAt(before: seq<byte>, x: nat, size: nat, rest: seq<byte>, data: seq<byte>)
    requires x < Top(size) && data == before + (Bytes(x, size) + rest)
    ensures Field(data, |before|, size) == x
  {
    ReadsBack(x, size);
    assert data[|before|..|before| + size] == Bytes(x, size);
  }

  // ----- The buffer request -----

  datatype BufferRequest = BufferRequest(rect: Rect, length: nat, compression: byte, compressedLength: nat)

  /** Every field fits its 32 bits. */
  predicate Fits(q: BufferRequest) {
    var m := 0x1_0000_0000;
    q.rect.x < m && q.rect.y < m && q.rect.width < m && q.rect.height < m && q.length < m && q.compressedLength < m
  }

  function BufferBytes(q: BufferRequest): (b: seq<byte>)
    ensures |b| == SET_BUFFER_SIZE
  {
    Bytes(q.rect.x, 4) + (Bytes(q.rect.y, 4) + (Bytes(q.rect.width, 4) + (Bytes(q.rect.height, 4)
    + (Bytes(q.length, 4) + ([q.compression] + Bytes(q.compressedLength, 4))))))
  }

  /** The display reads the rectangle, the length and the compression that the host wrote. */
  lemma RequestIsRead(q: BufferRequest)
    requires Fits(q)
    ensures var data := BufferBytes(q);
            RectOf(data) == q.rect && Field(data, 16, 4) == q.length && data[20] == q.compression
  {
    Tops();
    var data, r := BufferBytes(q), q.rect;
    var x, y, w, h, l := Bytes(r.x, 4), Bytes(r.y, 4), Bytes(r.width, 4), Bytes(r.height, 4), Bytes(q.length, 4);
    var end := [q.compression] + Bytes(q.compressedLength, 4);
    hide Bytes, Field, Top;
    assert data == [] + (x + (y + (w + (h + (l + end)))));
    FieldAt([], r.x, 4, y + (w + (h + (l + end))), data);
    FieldAt(x, r.y, 4, w + (h + (l + end)), data);
    assert data == (x + y) + (w + (h + (l + end)));
    FieldAt(x + y, r.width, 4, h + (l + end), data);
    assert data == (x + y + w) + (h + (l + end));
    FieldAt(x + y + w, r.height, 4, l + end, data);
    assert data == (x + y + w + h) + (l + end);
    FieldAt(x + y + w + h, q.length, 4, end, data);
  }

  /** A place on a display of 320 by 240 pixels. */
  predicate OnDisplay(r: Rect) {
    0 < r.width && 0 < r.height && r.x + r.width <= 320 && r.y + r.height <= 240
  }

  /** Once a state is committed, a request is accepted if and only if its rectangle is on the display and
      not empty, it is not compressed, and its length is two bytes for each pixel and at most 64 KiB. */
  lemma RequestIsAccepted(s: Gud, q: BufferRequest)
    requires Inv(s) && Fits(q)
    ensures BufferStatus(s.format, BufferBytes(q)) == Good <==>
              && s.format == 0x40 && OnDisplay(q.rect) && q.compression == 0
              && q.length == q.rect.height * (q.rect.width * 2) && 0 < q.length <= 65536
  {
    RequestIsRead(q);
    LineBytes(q.rect.width, q.rect.height);
    hide Bytes, Field, BufferBytes;
  }

  /** After any run that has committed a state: a rectangle asked for on the display and its payload, in
      any pieces, paint exactly that rectangle with exactly those bytes. */
  lemma TransferPaints(es: seq<Event>, q: BufferRequest, ts: seq<Event>)
    requires Fits(q) && OnDisplay(q.rect) && q.compression == 0 && q.length == q.rect.height * (q.rect.width * 2) <= 65536
    requires Play(AFTER_RESET, es).format == 0x40 && Transfers(ts) && |Payload(ts)| == q.length > 0
    ensures Play(AFTER_RESET, es + [Buffer(BufferBytes(q))] + ts).painted
            == Play(AFTER_RESET, es).painted + [Painting(q.rect, Payload(ts))]
  {
    hide BufferBytes, BufferStatus, Play, Payload, Transfers;
    RunKeepsInv(AFTER_RESET, es);
    RequestIsAccepted(Play(AFTER_RESET, es), q);
    RequestIsRead(q);
    AcceptedPaints(es, BufferBytes(q), ts);
  }

  /** So the pixel asked for is the pixel painted: each byte of the payload is at its own row and column
      of the rectangle. */
  lemma PixelIsPainted(es: seq<Event>, q: BufferRequest, ts: seq<Event>, row: nat, col: nat)
    requires Fits(q) && OnDisplay(q.rect) && q.compression == 0 && q.length == q.rect.height * (q.rect.width * 2) <= 65536
    requires Play(AFTER_RESET, es).format == 0x40 && Transfers(ts) && |Payload(ts)| == q.length > 0
    requires row < q.rect.height && col < q.rect.width * 2
    ensures var ps := Play(AFTER_RESET, es + [Buffer(BufferBytes(q))] + ts).painted;
            var at := row * (q.rect.width * 2) + col;
            && AllSound(ps) && 0 <= at < |Payload(ts)|
            && Picture(ps, q.rect.y + row, q.rect.x * 2 + col) == Payload(ts)[at]
  {
    hide Play, Payload, Transfers, BufferBytes;
    TransferPaints(es, q, ts);
    RunKeepsInv(AFTER_RESET, es);
    RowInside(row, col, q.rect.height, q.rect.width * 2);
    var before, p := Play(AFTER_RESET, es).painted, Painting(q.rect, Payload(ts));
    var ps := before + [p];
    assert Sound(p.rect, |p.pixels|) && AllSound(ps);
    LastWins(ps, |before|, q.rect.y + row, q.rect.x * 2 + col);
  }

  // ----- The state request -----

  datatype Property = Property(prop: nat, val: nat)

  /** `timing` and `more` are the fields of the mode that the display does not look at. */
  datatype StateRequest = StateRequest(clock: nat, width: nat, timing: seq<byte>, height: nat, more: seq<byte>,
                                       format: byte, connector: byte, properties: seq<Property>)

  predicate StateFits(q: StateRequest) {
    && q.clock < 0x1_0000_0000 && q.width < 0x1_0000 && |q.timing| == 6 && q.height < 0x1_0000 && |q.more| == 10
    && forall i :: 0 <= i < |q.properties| ==>
         q.properties[i].prop < 0x1_0000 && q.properties[i].val < 0x1_0000_0000_0000_0000
  }

  function PropertyBytes(ps: seq<Property>): (b: seq<byte>)
    ensures |b| == |ps| * PROPERTY_SIZE
  {
    if ps == [] then []
    else PropertyBytes(ps[..|ps| - 1]) + (Bytes(ps[|ps| - 1].prop, 2) + Bytes(ps[|ps| - 1].val, 8))
  }

  function StateBytes(q: StateRequest): (b: seq<byte>)
    requires StateFits(q)
    ensures |b| == STATE_SIZE + |q.properties| * PROPERTY_SIZE
  {
    Bytes(q.clock, 4) + (Bytes(q.width, 2) + (q.timing + (Bytes(q.height, 2) + (q.more
    + ([q.format, q.connector] + PropertyBytes(q.properties))))))
  }

  lemma StateIsRead(q: StateRequest)
    requires StateFits(q)
    ensures var data := StateBytes(q);
            Field(data, 4, 2) == q.width && Field(data, 12, 2) == q.height && data[24] == q.format && data[25] == q.connector
  {
    Tops();
    var data := StateBytes(q);
    var c, w, h := Bytes(q.clock, 4), Bytes(q.width, 2), Bytes(q.height, 2);
    var end := [q.format, q.connector] + PropertyBytes(q.properties);
    hide Bytes, Field, Top, PropertyBytes;
    FieldAt(c, q.width, 2, q.timing + (h + (q.more + end)), data);
    assert data == (c + w + q.timing) + (h + (q.more + end));
    FieldAt(c + w + q.timing, q.height, 2, q.more + end, data);
    assert data == (c + w + q.timing + h + q.more) + end;
  }

  /** Two parts in front of the rest, regrouped. */
  lemma Regroup<X>(head: seq<X>, a: seq<X>, b: seq<X>, c: seq<X>, rest: seq<X>)
    ensures (head + (a + (b + c))) + rest == (head + a) + (b + (c + rest))
    ensures (head + (a + (b + c))) + rest == ((head + a) + b) + (c + rest)
    ensures (head + (a + (b + c))) + rest == (head + a) + ((b + c) + rest)
  {
  }

  lemma {:induction false} PropertyIsRead(head: seq<byte>, ps: seq<Property>, rest: seq<byte>, data: seq<byte>)
    requires |head| == STATE_SIZE && ps != [] && data == (head + PropertyBytes(ps)) + rest
    requires ps[|ps| - 1].prop < 0x1_0000 && ps[|ps| - 1].val < 0x1_0000_0000_0000_0000
    ensures var at, p := STATE_SIZE + (|ps| - 1) * PROPERTY_SIZE, ps[|ps| - 1];
            && data == (head + PropertyBytes(ps[..|ps| - 1])) + ((Bytes(p.prop, 2) + Bytes(p.val, 8)) + rest)
            && Field(data, at, 2) == p.prop && Field(data, at + 2, 8) == p.val
  {
    Tops();
    var p, some := ps[|ps| - 1], PropertyBytes(ps[..|ps| - 1]);
    hide Bytes, Field, Top;
    Regroup(head, some, Bytes(p.prop, 2), Bytes(p.val, 8), rest);
    FieldAt(head + some, p.prop, 2, Bytes(p.val, 8) + rest, data);
    FieldAt((head + some) + Bytes(p.prop, 2), p.val, 8, rest, data);
  }

  /** No property asks for a rotation other than none. */
  predicate Unrotated(ps: seq<Property>) {
    forall i :: 0 <= i < |ps| && ps[i].prop == 50 ==> ps[i].val == 1
  }

  lemma {:induction false} RotationIsRead(head: seq<byte>, ps: seq<Property>, rest: seq<byte>, data: seq<byte>)
    requires |head| == STATE_SIZE && data == (head + PropertyBytes(ps)) + rest
    requires forall i :: 0 <= i < |ps| ==> ps[i].prop < 0x1_0000 && ps[i].val < 0x1_0000_0000_0000_0000
    ensures Upright(data, |ps|) <==> Unrotated(ps)
    decreases |ps|
  {
    hide Field, Bytes, PropertyBytes, Unrotated;
    if ps == [] {
      NoProperties(ps);
    } else {
      var n := |ps| - 1;
      PropertyIsRead(head, ps, rest, data);
      RotationIsRead(head, ps[..n], (Bytes(ps[n].prop, 2) + Bytes(ps[n].val, 8)) + rest, data);
      UnrotatedMore(ps);
    }
  }

  lemma NoProperties(ps: seq<Property>)
    requires ps == []
    ensures Unrotated(ps)
  {
  }

  lemma UnrotatedMore(ps: seq<Property>)
    requires ps != []
    ensures Unrotated(ps) <==> Unrotated(ps[..|ps| - 1]) && (ps[|ps| - 1].prop == 50 ==> ps[|ps| - 1].val == 1)
  {
    assert Unrotated(ps) ==> forall i :: 0 <= i < |ps| - 1 ==> ps[..|ps| - 1][i] == ps[i];
    assert forall i :: 0 <= i < |ps| - 1 ==> ps[i] == ps[..|ps| - 1][i];
  }

  /** A state is accepted if and only if it is 320 by 240 pixels in RGB565 on connector 0, and every
      rotation property among its properties asks for none. */
  lemma StateIsAccepted(q: StateRequest)
    requires StateFits(q)
    ensures CheckStatus(StateBytes(q)) == Good <==>
              q.width == 320 && q.height == 240 && q.format == 0x40 && q.connector == 0 && Unrotated(q.properties)
  {
    var data := StateBytes(q);
    var head := Bytes(q.clock, 4) + (Bytes(q.width, 2) + (q.timing + (Bytes(q.height, 2) + (q.more + [q.format, q.connector]))));
    StateIsRead(q);
    assert data == (head + PropertyBytes(q.properties)) + [];
    RotationIsRead(head, q.properties, [], data);
    PropertyCount(|q.properties|);
    hide Bytes, Field, PropertyBytes, Upright, StateBytes;
  }

  /** An accepted state takes effect when it is committed, once, and a refused one never does. */
  lemma StateIsCommitted(s: Gud, q: StateRequest)
    requires Inv(s) && StateFits(q)
    ensures var good := CheckStatus(StateBytes(q)) == Good;
            var t := Play(s, [Check(StateBytes(q)), Commit]);
            && t.checked.None? && t.pending == s.pending && t.painted == s.painted
            && t.format == if good || s.checked.Some? then 0x40 else s.format
  {
    StateIsAccepted(q);
    StateIsRead(q);
    hide StateBytes, CheckStatus;
    var es := [Check(StateBytes(q)), Commit];
    assert es[1..] == [Commit] && es[1..][1..] == [];
    var mid := SetStateCheck(s, StateBytes(q));
    assert Play(s, es) == Play(mid, [Commit]) && Play(mid, [Commit]) == SetStateCommit(mid);
  }

  lemma PropertyCount(n: nat)
    ensures n * PROPERTY_SIZE % PROPERTY_SIZE == 0 && n * PROPERTY_SIZE / PROPERTY_SIZE == n
  {
  }

  // ----- Colours -----

  /** Widening is scaling from 0 to `top` to 0 to 255, rounded down. */
  lemma WidenScales(value: nat, top: nat)
    requires 0 < top && value <= top
    ensures var w := Widen(value, top); w * top <= value * 255 < (w + 1) * top
  {
    Divided(value * 255, top);
  }

  lemma Divided(x: nat, d: nat)
    requires d > 0
    ensures x / d * d <= x < (x / d + 1) * d
  {
  }

  /** In the grey format every channel of the window is the pixel. */
  lemma GreyIsGrey(fb: seq<byte>, k: nat)
    requires |fb| == FRAMEBUFFER_SIZE && k < PIXELS
    ensures var x := Xrgb(0x08, fb, k); x / 0x1_0000 == fb[k] as int && x / 0x100 % 0x100 == fb[k] as int && x % 0x100 == fb[k] as int
  {
    Channels(fb[k] as int, fb[k] as int, fb[k] as int);
  }
}
