/** Where the fields of a message lie. `Wire` proves that messages read back as they were written, here
    every byte has its place: fields are big endian, commands are told by their first word. */
module Layout {
  import opened Urbs
  import opened Wire
  import V = Service
  import L = Listing

  /** The value of these bytes, the first one the most significant. */
  function BigEndian(b: seq<byte>): nat {
    if b == [] then 0 else 256 * BigEndian(b[..|b| - 1]) + b[|b| - 1] as int
  }

  function At(s: seq<byte>, i: nat): nat
    requires i + 4 <= |s|
  {
    BigEndian(s[i..i + 4])
  }

  lemma {:induction false} FourBytes(b: seq<byte>)
    requires |b| == 4
    ensures BigEndian(b) == 0x100_0000 * b[0] as int + 0x1_0000 * b[1] as int + 0x100 * b[2] as int + b[3] as int
  {
    assert b[..3][..2] == b[..2] && b[..2][..1] == b[..1] && b[..1][..0] == [];
    assert BigEndian(b[..1]) == b[0] as int;
    assert BigEndian(b[..2]) == 256 * BigEndian(b[..1]) + b[1] as int;
    assert BigEndian(b[..3]) == 256 * BigEndian(b[..2]) + b[2] as int;
  }

  /** A word on the wire is its big endian bytes. */
  lemma WordIsBigEndian(x: u32)
    ensures BigEndian(Word(x)) == x
  {
    FourBytes(Word(x));
    WordRoundTrip(x, Word(x));
  }

  lemma {:induction false} WordsAt(ws: seq<u32>, rest: seq<byte>, k: nat)
    requires k < |ws|
    ensures At(Words(ws) + rest, 4 * k) == ws[k]
  {
    var b := Words(ws) + rest;
    if k == 0 {
      assert b[0..4] == Word(ws[0]);
      WordIsBigEndian(ws[0]);
    } else {
      var tail := Words(ws[1..]) + rest;
      WordsAt(ws[1..], rest, k - 1);
      assert b == Word(ws[0]) + tail;
      assert b[4 * k..4 * k + 4] == tail[4 * (k - 1)..4 * (k - 1) + 4];
    }
  }

  /** Words that follow other bytes. */
  lemma {:induction false} AtAfter(before: seq<byte>, b: seq<byte>, i: nat)
    requires i + 4 <= |b|
    ensures At(before + b, |before| + i) == At(b, i)
  {
    hide BigEndian;
    assert (before + b)[|before| + i..|before| + i + 4] == b[i..i + 4];
  }

  lemma {:induction false} WordsAfter(before: seq<byte>, ws: seq<u32>, rest: seq<byte>, k: nat, s: seq<byte>)
    requires k < |ws| && s == before + (Words(ws) + rest)
    ensures At(s, |before| + 4 * k) == ws[k]
  {
    hide At, Words;
    WordsAt(ws, rest, k);
    AtAfter(before, Words(ws) + rest, 4 * k);
  }

  /** The packet descriptors lie one behind the other, four words each. */
  predicate Descriptors?(s: seq<byte>, at: nat, ds: seq<IsoDescriptor>) {
    && at + 16 * |ds| <= |s|
    && forall k :: 0 <= k < |ds| ==> Descriptor?(s, at + 16 * k, ds[k])
  }

  predicate Descriptor?(s: seq<byte>, at: nat, d: IsoDescriptor) {
    && at + 16 <= |s|
    && At(s, at) == d.offset && At(s, at + 4) == d.length && At(s, at + 8) == d.actual && At(s, at + 12) == d.status
  }

  lemma {:induction false} DescriptorAt(ds: seq<IsoDescriptor>, before: seq<byte>, rest: seq<byte>, k: nat, s: seq<byte>)
    requires k < |ds| && s == before + (Descriptors(ds) + rest)
    ensures Descriptor?(s, |before| + 16 * k, ds[k])
    decreases k
  {
    hide At, Words;
    var d := Descriptor(ds[0]);
    var tail := Descriptors(ds[1..]) + rest;
    assert Descriptors(ds) + rest == Words(d) + tail;
    if k == 0 {
      WordsAfter(before, d, tail, 0, s);
      WordsAfter(before, d, tail, 1, s);
      WordsAfter(before, d, tail, 2, s);
      WordsAfter(before, d, tail, 3, s);
    } else {
      assert s == (before + Words(d)) + tail;
      DescriptorAt(ds[1..], before + Words(d), rest, k - 1, s);
    }
  }

  lemma {:induction false} DescriptorsAt(ds: seq<IsoDescriptor>, before: seq<byte>, rest: seq<byte>, s: seq<byte>)
    requires s == before + (Descriptors(ds) + rest)
    ensures Descriptors?(s, |before|, ds)
  {
    forall k | 0 <= k < |ds| ensures Descriptor?(s, |before| + 16 * k, ds[k]) { DescriptorAt(ds, before, rest, k, s); }
  }

  // ----- Commands -----

  /** The five words that every message after an import starts with. */
  predicate Header(s: seq<byte>, code: u32, seqnum: u32, devid: u32, direction: u32, ep: u32) {
    && |s| >= 48
    && At(s, 0) == code && At(s, 4) == seqnum && At(s, 8) == devid && At(s, 12) == direction && At(s, 16) == ep
  }

  /** The five words after it. */
  predicate Body(s: seq<byte>, a: u32, b: u32, c: u32, d: u32, e: u32) {
    && |s| >= 48
    && At(s, 20) == a && At(s, 24) == b && At(s, 28) == c && At(s, 32) == d && At(s, 36) == e
  }

  lemma {:induction false} HeaderAt(h: seq<u32>, rest: seq<byte>, s: seq<byte>)
    requires |h| == 5 && s == Words(h) + rest && |s| >= 48
    ensures Header(s, h[0], h[1], h[2], h[3], h[4])
  {
    WordsAt(h, rest, 0);
    WordsAt(h, rest, 1);
    WordsAt(h, rest, 2);
    WordsAt(h, rest, 3);
    WordsAt(h, rest, 4);
  }

  lemma {:induction false} BodyAt(before: seq<byte>, f: seq<u32>, rest: seq<byte>, s: seq<byte>)
    requires |before| == 20 && |f| == 5 && s == before + (Words(f) + rest) && |s| >= 48
    ensures Body(s, f[0], f[1], f[2], f[3], f[4])
  {
    WordsAfter(before, f, rest, 0, s);
    WordsAfter(before, f, rest, 1, s);
    WordsAfter(before, f, rest, 2, s);
    WordsAfter(before, f, rest, 3, s);
    WordsAfter(before, f, rest, 4, s);
  }

  /** Where `rest` starts after these parts, and where each of them lies. */
  lemma {:induction false} Parts<X>(a: seq<X>, b: seq<X>, c: seq<X>, d: seq<X>, s: seq<X>)
    requires s == a + (b + (c + d))
    ensures |s| == |a| + |b| + |c| + |d|
    ensures s[|a|..|a| + |b|] == b && s[|a| + |b|..|a| + |b| + |c|] == c && s[|a| + |b| + |c|..] == d
    ensures s == (a + b) + (c + d) && s == ((a + b) + c) + d
  {
  }

  predicate IsSubmit(s: seq<byte>, c: Command, rest: seq<byte>)
    requires c.Submit?
  {
    var n := 48 + |c.payload|;
    && Header(s, 1, c.seqnum, c.devid, c.direction, c.ep)
    && Body(s, c.flags, c.length, c.startFrame, c.packetCount, c.interval)
    && n + 16 * |c.packets| <= |s|
    && s[40..48] == c.setup && s[48..n] == c.payload && Descriptors?(s, n, c.packets) && s[n + 16 * |c.packets|..] == rest
  }

  lemma {:induction false} SubmitLies(c: Command, rest: seq<byte>, s: seq<byte>)
    requires c.Submit? && |c.setup| == 8 && s == Encode(c) + rest
    ensures IsSubmit(s, c, rest)
  {
    var h, f := [1, c.seqnum, c.devid, c.direction, c.ep], [c.flags, c.length, c.startFrame, c.packetCount, c.interval];
    var ds := Descriptors(c.packets);
    Joined(Words(h), Words(f), c.setup, c.payload, ds, rest);
    var tail := c.setup + (c.payload + (ds + rest));
    HeaderAt(h, Words(f) + tail, s);
    BodyAt(Words(h), f, tail, s);
    var start := Words(h) + Words(f);
    assert s == start + tail;
    Parts(start, c.setup, c.payload, ds + rest, s);
    DescriptorsAt(c.packets, (start + c.setup) + c.payload, rest, s);
    assert s[48 + |c.payload|..][|ds|..] == rest;
  }

  lemma {:induction false} UnlinkLies(c: Command, rest: seq<byte>, s: seq<byte>)
    requires c.Unlink? && |c.padding| == 24 && s == Encode(c) + rest
    ensures Header(s, 2, c.seqnum, c.devid, c.direction, c.ep) && At(s, 20) == c.target && s[48..] == rest
  {
    hide Words, At;
    var h, target := [2, c.seqnum, c.devid, c.direction, c.ep], Words([c.target]);
    var tail := c.padding + rest;
    assert s == Words(h) + (target + tail);
    HeaderAt(h, target + tail, s);
    WordsAfter(Words(h), [c.target], tail, 0, s);
    Parts(Words(h), target, c.padding, rest, s);
  }

  /** Whatever bytes the server takes for a command: the command word is 1 or 2, each field is the big
      endian word at its place, data and packet descriptors follow, and the rest is what comes after. */
  lemma {:induction false} CommandLies(s: seq<byte>, table: seq<Endpoint>)
    requires |table| == 32 && Parse(s, table).Some?
    ensures var c, rest := Parse(s, table).value.message, Parse(s, table).value.rest;
            if c.Submit? then IsSubmit(s, c, rest)
            else Header(s, 2, c.seqnum, c.devid, c.direction, c.ep) && At(s, 20) == c.target && s[48..] == rest
  {
    hide Parse, IsSubmit, Encode;
    EncodeOfParse(s, table);
    var c, rest := Parse(s, table).value.message, Parse(s, table).value.rest;
    if c.Submit? { SubmitLies(c, rest, s); } else { UnlinkLies(c, rest, s); }
  }

  // ----- Replies -----

  predicate IsRetSubmit(s: seq<byte>, r: Reply)
    requires r.Submitted?
  {
    var n := 48 + |r.payload|;
    && |s| == n + 16 * |r.packets|
    && Header(s, 3, r.seqnum, 0, 0, 0) && Body(s, r.status, r.actual, r.startFrame, r.packetCount, 0)
    && s[40..48] == [0, 0, 0, 0, 0, 0, 0, 0] && s[48..n] == r.payload && Descriptors?(s, n, r.packets)
  }

  lemma {:induction false} RetSubmitLies(r: Reply)
    requires r.Submitted?
    ensures IsRetSubmit(EncodeReply(r), r)
  {
    var s := EncodeReply(r);
    var h, f := [3, r.seqnum, 0, 0, 0], [r.status, r.actual, r.startFrame, r.packetCount, 0];
    var ds := Descriptors(r.packets);
    var tail := Zeros(8) + (r.payload + ds);
    HeaderAt(h, Words(f) + tail, s);
    BodyAt(Words(h), f, tail, s);
    var start := Words(h) + Words(f);
    assert s == start + tail;
    Parts(start, Zeros(8), r.payload, ds, s);
    assert ds + [] == ds;
    DescriptorsAt(r.packets, (start + Zeros(8)) + r.payload, [], s);
  }

  /** The bytes of a reply: 3 for RET_SUBMIT with data and packet descriptors behind 48 bytes, 4 for
      RET_UNLINK. */
  lemma {:induction false} ReplyLies(r: Reply)
    ensures r.Submitted? ==> IsRetSubmit(EncodeReply(r), r)
    ensures r.Unlinked? ==>
              var s := EncodeReply(r); |s| == 48 && Header(s, 4, r.seqnum, 0, 0, 0) && At(s, 20) == r.status
  {
    if r.Submitted? {
      hide IsRetSubmit;
      RetSubmitLies(r);
    } else {
      var s, h := EncodeReply(r), [4, r.seqnum, 0, 0, 0];
      HeaderAt(h, Words([r.status]) + Zeros(24), s);
      WordsAfter(Words(h), [r.status], Zeros(24), 0, s);
    }
  }

  /** An unlink is answered with -ECONNRESET if its target waits, and with success if it does not. */
  lemma UnlinkIsAnswered(q: Queue, c: Command, now: nat, dev: V.Callbacks)
    requires Sized(q) && WellFormed(c, q.table) && c.Unlink?
    ensures var waits := exists j :: 0 <= j < |q.pending| && q.pending[j].seqnum == c.target;
            V.Serve(q, c, now, dev).replies == [Unlinked(c.seqnum, if waits then 0x1_0000_0000 - 104 else 0)]
  {
  }

  // ----- Before an import -----

  /** Which bytes ask for the device list and which for an import: version 1.11, then 8005 or 8003. */
  lemma OperationLies(s: seq<byte>)
    ensures V.ParseOperation(s) ==
            if |s| >= 8 && s[..4] == [0x01, 0x11, 0x80, 0x05] then Some(Parsed(V.ListDevices, s[8..]))
            else if |s| >= 40 && s[..4] == [0x01, 0x11, 0x80, 0x03] then Some(Parsed(V.ImportDevice, s[40..]))
            else None
  {
    if |s| >= 8 {
      assert s[..4] == [s[0], s[1], s[2], s[3]];
    }
  }

  /** Text in a field of this size, zeros behind it. */
  predicate Text(s: seq<byte>, at: nat, size: nat, text: string) {
    && at + size <= |s| && |text| <= size
    && (forall i :: 0 <= i < |text| ==> s[at + i] as int == text[i] as int)
    && (forall j :: at + |text| <= j < at + size ==> s[j] == 0)
  }

  /** The device's place on its bus, as a client finds it from `at` on: path, bus id, bus 2, device 3,
      high speed. */
  predicate Place(s: seq<byte>, at: nat) {
    && at + 300 <= |s|
    && Text(s, at, 256, "sys/usb/virtual_device") && Text(s, at + 256, 32, "1-1")
    && At(s, at + 288) == 2 && At(s, at + 292) == 3 && At(s, at + 296) == 3
  }

  lemma {:induction false} TextAt(before: seq<byte>, field: seq<byte>, rest: seq<byte>, s: seq<byte>, size: nat, text: string)
    requires s == before + (field + rest) && |field| == size && Text(field, 0, size, text)
    ensures Text(s, |before|, size, text)
  {
    var n := |before|;
    assert forall j :: n <= j < n + size ==> s[j] == field[j - n];
    forall i | 0 <= i < |text| ensures s[n + i] as int == text[i] as int { assert s[n + i] == field[0 + i]; }
  }

  lemma PathAndBus()
    ensures Text(L.PATH + Zeros(256 - |L.PATH|), 0, 256, "sys/usb/virtual_device")
    ensures Text(L.BUS_ID + Zeros(32 - |L.BUS_ID|), 0, 32, "1-1")
  {
  }

  lemma {:induction false} PlaceOfDevice(before: seq<byte>, rest: seq<byte>, s: seq<byte>)
    requires s == before + (L.DeviceId() + rest)
    ensures Place(s, |before|)
  {
    var path, bus, numbers := L.PATH + Zeros(256 - |L.PATH|), L.BUS_ID + Zeros(32 - |L.BUS_ID|), Word(2) + Word(3) + Word(3);
    assert L.DeviceId() == path + bus + numbers;
    PathAndBus();
    PlaceOfParts(before, path, bus, numbers, rest, s);
  }

  lemma {:induction false} PlaceOfParts(before: seq<byte>, path: seq<byte>, bus: seq<byte>, numbers: seq<byte>, rest: seq<byte>, s: seq<byte>)
    requires s == before + ((path + bus + numbers) + rest) && |path| == 256 && |bus| == 32
    requires Text(path, 0, 256, "sys/usb/virtual_device") && Text(bus, 0, 32, "1-1") && numbers == Word(2) + Word(3) + Word(3)
    ensures Place(s, |before|)
  {
    hide Text, Word;
    var n := |before|;
    assert s == before + (path + (bus + numbers + rest));
    TextAt(before, path, bus + numbers + rest, s, 256, "sys/usb/virtual_device");
    assert s == (before + path) + (bus + (numbers + rest));
    TextAt(before + path, bus, numbers + rest, s, 32, "1-1");
    assert s == (before + path + bus) + (numbers + rest);
    assert s[n + 288..n + 292] == Word(2) && s[n + 292..n + 296] == Word(3) && s[n + 296..n + 300] == Word(3);
    WordIsBigEndian(2);
    WordIsBigEndian(3);
  }

  /** The reply to an import: version 1.11, code 3, success, the device's place and its fields. */
  lemma {:induction false} ImportLies(id: L.Identity)
    requires L.Complete(id)
    ensures var s := L.ImportReply(id);
            |s| == 320 && s[..8] == [0x01, 0x11, 0x00, 0x03, 0, 0, 0, 0] && Place(s, 8)
  {
    var s := L.ImportReply(id);
    hide L.DeviceId, Place;
    assert s == L.Head(L.OP_REP_IMPORT) + (L.DeviceId() + L.Device(id));
    PlaceOfDevice(L.Head(L.OP_REP_IMPORT), L.Device(id), s);
    assert s[..8] == L.Head(L.OP_REP_IMPORT);
  }

  /** The device list: version 1.11, code 5, success, one device. */
  lemma {:induction false} ListLies(id: L.Identity, list: seq<L.I.Interface>)
    requires L.Complete(id)
    ensures var s := L.ListReply(id, list);
            |s| == 324 + 4 * |list| && s[..12] == [0x01, 0x11, 0x00, 0x05, 0, 0, 0, 0, 0, 0, 0, 1] && Place(s, 12)
  {
    var s := L.ListReply(id, list);
    hide L.DeviceId, Place, L.Records;
    var head := L.Head(L.OP_REP_DEVLIST) + Word(1);
    assert s == head + (L.DeviceId() + (L.Device(id) + L.Records(list)));
    PlaceOfDevice(head, L.Device(id) + L.Records(list), s);
    assert s[..12] == head;
  }
}
