/** Messages of the USB/IP protocol after a device is imported, as they appear on the wire.

    All fields are big endian 32 bit words, except the setup packet and padding, which are bytes.
    `Parse` reads a command the way the server does, and `ParseReply` a reply the way a client does
    that knows the direction and type of each of its transfers. */
module Wire {
  import opened Urbs

  const CMD_SUBMIT: u32 := 1
  const CMD_UNLINK: u32 := 2
  const RET_SUBMIT: u32 := 3
  const RET_UNLINK: u32 := 4

  datatype IsoDescriptor = IsoDescriptor(offset: u32, length: u32, actual: u32, status: u32)

  datatype Command =
    | Submit(seqnum: u32, devid: u32, direction: u32, ep: u32, flags: u32, length: u32, startFrame: u32,
             packetCount: u32, interval: u32, setup: seq<byte>, payload: seq<byte>, packets: seq<IsoDescriptor>)
    | Unlink(seqnum: u32, devid: u32, direction: u32, ep: u32, target: u32, padding: seq<byte>)

  datatype Reply =
    | Submitted(seqnum: u32, status: u32, actual: u32, startFrame: u32, packetCount: u32,
                payload: seq<byte>, packets: seq<IsoDescriptor>)
    | Unlinked(seqnum: u32, status: u32)

  // ----- Words -----

  function Word(x: u32): (b: seq<byte>)
    ensures |b| == 4
  {
    var y := x / 0x100;
    var z := y / 0x100;
    [z / 0x100, z % 0x100, y % 0x100, x % 0x100]
  }

  function Unword(b: seq<byte>): u32
    requires |b| == 4
  {
    var z: int := b[0] as int * 0x100 + b[1];
    var y: int := z * 0x100 + b[2];
    y * 0x100 + b[3]
  }

  lemma WordRoundTrip(x: u32, b: seq<byte>)
    requires |b| == 4
    ensures Unword(Word(x)) == x && Word(Unword(b)) == b
  {
  }

  function Words(ws: seq<u32>): (b: seq<byte>)
    ensures |b| == 4 * |ws|
  {
    if ws == [] then [] else Word(ws[0]) + Words(ws[1..])
  }

  function Unwords(b: seq<byte>, n: nat): (ws: seq<u32>)
    requires 4 * n <= |b|
    ensures |ws| == n
  {
    if n == 0 then [] else [Unword(b[..4])] + Unwords(b[4..], n - 1)
  }

  lemma {:induction false} UnwordsOfWords(ws: seq<u32>, rest: seq<byte>)
    ensures Unwords(Words(ws) + rest, |ws|) == ws
  {
    if ws != [] {
      var b := Words(ws) + rest;
      WordRoundTrip(ws[0], Word(ws[0]));
      assert b[..4] == Word(ws[0]) && b[4..] == Words(ws[1..]) + rest;
      UnwordsOfWords(ws[1..], rest);
    }
  }

  lemma {:induction false} WordsOfUnwords(b: seq<byte>, n: nat)
    requires 4 * n <= |b|
    ensures Words(Unwords(b, n)) == b[..4 * n]
  {
    if n > 0 {
      WordRoundTrip(0, b[..4]);
      WordsOfUnwords(b[4..], n - 1);
      assert Unwords(b, n)[1..] == Unwords(b[4..], n - 1);
      assert b[..4] + b[4..][..4 * (n - 1)] == b[..4 * n];
    }
  }

  // ----- Isochronous packet descriptors -----

  function Descriptor(d: IsoDescriptor): seq<u32> {
    [d.offset, d.length, d.actual, d.status]
  }

  function Descriptors(ds: seq<IsoDescriptor>): (b: seq<byte>)
    ensures |b| == 16 * |ds|
  {
    if ds == [] then [] else Words(Descriptor(ds[0])) + Descriptors(ds[1..])
  }

  function Undescriptors(b: seq<byte>, n: nat): (ds: seq<IsoDescriptor>)
    requires 16 * n <= |b|
    ensures |ds| == n
  {
    if n == 0 then []
    else
      var w := Unwords(b, 4);
      [IsoDescriptor(w[0], w[1], w[2], w[3])] + Undescriptors(b[16..], n - 1)
  }

  lemma {:induction false} UndescriptorOf(d: IsoDescriptor, tail: seq<byte>, n: nat)
    requires 16 * n <= |tail|
    ensures Undescriptors(Words(Descriptor(d)) + tail, n + 1) == [d] + Undescriptors(tail, n)
  {
    hide Words, Unwords;
    var b := Words(Descriptor(d)) + tail;
    UnwordsOfWords(Descriptor(d), tail);
    assert b[16..] == tail;
  }

  lemma {:induction false} UndescriptorsOf(ds: seq<IsoDescriptor>, rest: seq<byte>)
    ensures Undescriptors(Descriptors(ds) + rest, |ds|) == ds
  {
    hide Words, Descriptor;
    if ds != [] {
      var w, tail := Words(Descriptor(ds[0])), Descriptors(ds[1..]);
      assert Descriptors(ds) + rest == w + (tail + rest);
      UndescriptorOf(ds[0], tail + rest, |ds| - 1);
      UndescriptorsOf(ds[1..], rest);
      assert [ds[0]] + ds[1..] == ds;
    }
  }

  lemma {:induction false} DescriptorsOf(b: seq<byte>, n: nat)
    requires 16 * n <= |b|
    ensures Descriptors(Undescriptors(b, n)) == b[..16 * n]
  {
    if n > 0 {
      var ds := Undescriptors(b, n);
      WordsOfUnwords(b, 4);
      assert Descriptor(ds[0]) == Unwords(b, 4);
      assert ds[1..] == Undescriptors(b[16..], n - 1);
      DescriptorsOf(b[16..], n - 1);
      assert b[..16] + b[16..][..16 * (n - 1)] == b[..16 * n];
    }
  }

  // ----- Commands -----

  datatype Parsed<M> = Parsed(message: M, rest: seq<byte>)

  predicate IsIso(table: seq<Endpoint>, direction: u32, ep: u32)
    requires |table| == 32
  {
    ep != 0 && table[Slot(direction, ep)].kind == XFER_ISOC
  }

  /** Every packet lies inside the transfer buffer. */
  predicate Inside(ds: seq<IsoDescriptor>, length: u32) {
    forall i :: 0 <= i < |ds| ==> ds[i].offset + ds[i].length <= length
  }

  predicate WellFormed(c: Command, table: seq<Endpoint>)
    requires |table| == 32
  {
    match c
    case Submit(_, _, direction, ep, _, length, _, packetCount, _, setup, payload, packets) =>
      && |setup| == 8 && length <= MAX_TRANSFER
      && |payload| == (if direction == 0 then length else 0)
      && (if IsIso(table, direction, ep)
          then packetCount <= MAX_ISO_PACKETS && |packets| == packetCount && Inside(packets, length)
          else packets == [])
    case Unlink(_, _, _, _, _, padding) => |padding| == 24
  }

  function Encode(c: Command): seq<byte> {
    match c
    case Submit(q, devid, direction, ep, flags, length, startFrame, packetCount, interval, setup, payload, packets) =>
      Words([CMD_SUBMIT, q, devid, direction, ep])
      + (Words([flags, length, startFrame, packetCount, interval]) + (setup + (payload + Descriptors(packets))))
    case Unlink(q, devid, direction, ep, target, padding) =>
      Words([CMD_UNLINK, q, devid, direction, ep]) + (Words([target]) + padding)
  }

  /** The server reads the basic header, then what the command in it calls for. */
  function Parse(s: seq<byte>, table: seq<Endpoint>): Option<Parsed<Command>>
    requires |table| == 32
  {
    if |s| < 20 then None
    else
      var h := Unwords(s, 5);
      if h[0] == CMD_SUBMIT then ParseSubmit(h, s[20..], table)
      else if h[0] == CMD_UNLINK then ParseUnlink(h, s[20..])
      else None
  }

  function ParseUnlink(h: seq<u32>, s: seq<byte>): Option<Parsed<Command>>
    requires |h| == 5
  {
    if |s| < 28 then None
    else Some(Parsed(Unlink(h[1], h[2], h[3], h[4], Unwords(s, 1)[0], s[4..28]), s[28..]))
  }

  /** The transfer buffer follows for OUT transfers, packet descriptors for isochronous ones. */
  function ParseSubmit(h: seq<u32>, s: seq<byte>, table: seq<Endpoint>): Option<Parsed<Command>>
    requires |h| == 5 && |table| == 32
  {
    if |s| < 28 then None
    else
      var f := Unwords(s, 5);
      if f[1] > MAX_TRANSFER then None
      else ParsePayload(h, f, s[20..28], s[28..], table)
  }

  function ParsePayload(h: seq<u32>, f: seq<u32>, setup: seq<byte>, s: seq<byte>, table: seq<Endpoint>): Option<Parsed<Command>>
    requires |h| == 5 && |f| == 5 && |table| == 32
  {
    var size := if h[3] == 0 then f[1] else 0;
    if |s| < size then None
    else if !IsIso(table, h[3], h[4]) then Some(Parsed(Assemble(h, f, setup, s[..size], []), s[size..]))
    else ParsePackets(h, f, setup, s[..size], s[size..])
  }

  function ParsePackets(h: seq<u32>, f: seq<u32>, setup: seq<byte>, payload: seq<byte>, s: seq<byte>): Option<Parsed<Command>>
    requires |h| == 5 && |f| == 5
  {
    if f[3] > MAX_ISO_PACKETS || |s| < 16 * f[3] then None
    else
      var ds := Undescriptors(s, f[3]);
      if !Inside(ds, f[1]) then None else Some(Parsed(Assemble(h, f, setup, payload, ds), s[16 * f[3]..]))
  }

  function Assemble(h: seq<u32>, f: seq<u32>, setup: seq<byte>, payload: seq<byte>, ds: seq<IsoDescriptor>): Command
    requires |h| == 5 && |f| == 5
  {
    Submit(h[1], h[2], h[3], h[4], f[0], f[1], f[2], f[3], f[4], setup, payload, ds)
  }

  lemma Joined<X>(a: seq<X>, b: seq<X>, c: seq<X>, d: seq<X>, e: seq<X>, rest: seq<X>)
    ensures a + (b + (c + (d + (e + rest)))) == (a + (b + (c + (d + e)))) + rest
  {
    assert d + (e + rest) == (d + e) + rest;
    assert c + ((d + e) + rest) == (c + (d + e)) + rest;
    assert b + ((c + (d + e)) + rest) == (b + (c + (d + e))) + rest;
  }

  lemma SplitAt<X>(s: seq<X>, i: nat, j: nat)
    requires i <= j <= |s|
    ensures s[i..] == s[i..j] + s[j..]
  {
  }

  lemma Pieces<X>(s: seq<X>, i: nat, a: seq<X>, b: seq<X>)
    requires i <= |s| && s[i..] == a + b
    ensures s[i..i + |a|] == a && s[i + |a|..] == b
  {
    assert s[i..i + |a|] == s[i..][..|a|] && s[i + |a|..] == s[i..][|a|..];
  }

  lemma SplitWords(ws: seq<u32>, rest: seq<byte>, s: seq<byte>)
    requires s == Words(ws) + rest
    ensures |s| >= 4 * |ws| && Unwords(s, |ws|) == ws && s[4 * |ws|..] == rest
  {
    UnwordsOfWords(ws, rest);
  }

  lemma ParsePayloadOf(h: seq<u32>, f: seq<u32>, c: Command, table: seq<Endpoint>, rest: seq<byte>)
    requires |h| == 5 && |f| == 5 && |table| == 32 && c.Submit? && WellFormed(c, table)
    requires c == Assemble(h, f, c.setup, c.payload, c.packets)
    ensures ParsePayload(h, f, c.setup, c.payload + (Descriptors(c.packets) + rest), table) == Some(Parsed(c, rest))
  {
    var tail := Descriptors(c.packets) + rest;
    var s := c.payload + tail;
    assert s[..|c.payload|] == c.payload && s[|c.payload|..] == tail;
    if IsIso(table, c.direction, c.ep) {
      UndescriptorsOf(c.packets, rest);
      assert tail[16 * |c.packets|..] == rest;
    } else {
      assert tail == rest;
    }
  }

  lemma ParseSubmitOf(c: Command, table: seq<Endpoint>, rest: seq<byte>)
    requires |table| == 32 && c.Submit? && WellFormed(c, table)
    ensures Parse(Encode(c) + rest, table) == Some(Parsed(c, rest))
  {
    var h := [CMD_SUBMIT, c.seqnum, c.devid, c.direction, c.ep];
    var f := [c.flags, c.length, c.startFrame, c.packetCount, c.interval];
    var body := c.payload + (Descriptors(c.packets) + rest);
    var s1 := Words(f) + (c.setup + body);
    Joined(Words(h), Words(f), c.setup, c.payload, Descriptors(c.packets), rest);
    SplitWords(h, s1, Encode(c) + rest);
    SplitWords(f, c.setup + body, s1);
    assert s1[20..28] == c.setup && s1[28..] == body by { Pieces(s1, 20, c.setup, body); }
    ParsePayloadOf(h, f, c, table, rest);
  }

  lemma ParseUnlinkOf(c: Command, table: seq<Endpoint>, rest: seq<byte>)
    requires |table| == 32 && c.Unlink? && WellFormed(c, table)
    ensures Parse(Encode(c) + rest, table) == Some(Parsed(c, rest))
  {
    var h := [CMD_UNLINK, c.seqnum, c.devid, c.direction, c.ep];
    var s1 := Words([c.target]) + (c.padding + rest);
    assert Encode(c) + rest == Words(h) + s1;
    SplitWords(h, s1, Encode(c) + rest);
    SplitWords([c.target], c.padding + rest, s1);
    assert s1[4..28] == c.padding && s1[28..] == rest;
  }

  /** The server consumes exactly the bytes of a command. */
  lemma ParseOfEncode(c: Command, table: seq<Endpoint>, rest: seq<byte>)
    requires |table| == 32 && WellFormed(c, table)
    ensures Parse(Encode(c) + rest, table) == Some(Parsed(c, rest))
  {
    if c.Submit? { ParseSubmitOf(c, table, rest); } else { ParseUnlinkOf(c, table, rest); }
  }

  lemma {:induction false} UnwordsPrefix(s: seq<byte>, m: nat, n: nat)
    requires 4 * n <= m <= |s|
    ensures Unwords(s[..m], n) == Unwords(s, n)
  {
    if n > 0 {
      assert s[..m][..4] == s[..4] && s[..m][4..] == s[4..][..m - 4];
      UnwordsPrefix(s[4..], m - 4, n - 1);
    }
  }

  lemma {:induction false} UndescriptorsPrefix(s: seq<byte>, n: nat)
    requires 16 * n <= |s|
    ensures Undescriptors(s[..16 * n], n) == Undescriptors(s, n)
  {
    if n > 0 {
      UnwordsPrefix(s, 16 * n, 4);
      assert s[..16 * n][16..] == s[16..][..16 * (n - 1)];
      UndescriptorsPrefix(s[16..], n - 1);
    }
  }

  lemma JoinWords(s: seq<byte>, n: nat)
    requires 4 * n <= |s|
    ensures s == Words(Unwords(s, n)) + s[4 * n..]
  {
    WordsOfUnwords(s, n);
  }

  lemma EncodePayload(h: seq<u32>, f: seq<u32>, setup: seq<byte>, s: seq<byte>, table: seq<Endpoint>)
    requires |h| == 5 && |f| == 5 && |table| == 32 && |setup| == 8 && f[1] <= MAX_TRANSFER
    requires ParsePayload(h, f, setup, s, table).Some?
    ensures var p := ParsePayload(h, f, setup, s, table).value;
            && p.message.Submit? && WellFormed(p.message, table)
            && p.message == Assemble(h, f, setup, p.message.payload, p.message.packets)
            && s == p.message.payload + (Descriptors(p.message.packets) + p.rest)
  {
    hide Undescriptors;
    var size := if h[3] == 0 then f[1] else 0;
    var tail := s[size..];
    assert s == s[..size] + tail;
    if IsIso(table, h[3], h[4]) {
      hide Descriptors;
      DescriptorsOf(tail, f[3]);
      assert tail == tail[..16 * f[3]] + tail[16 * f[3]..];
    } else {
      assert Descriptors([]) + tail == tail;
    }
  }

  lemma EncodeSubmit(h: seq<u32>, s: seq<byte>, table: seq<Endpoint>)
    requires |h| == 5 && h[0] == CMD_SUBMIT && |table| == 32 && ParseSubmit(h, s, table).Some?
    ensures var p := ParseSubmit(h, s, table).value;
            Words(h) + s == Encode(p.message) + p.rest && WellFormed(p.message, table)
  {
    hide Words, Unwords, Descriptors, ParsePayload, WellFormed;
    var f := Unwords(s, 5);
    var p := ParseSubmit(h, s, table).value;
    var m := p.message;
    JoinWords(s, 5);
    EncodePayload(h, f, s[20..28], s[28..], table);
    SplitAt(s, 20, 28);
    assert h == [CMD_SUBMIT, m.seqnum, m.devid, m.direction, m.ep];
    assert f == [m.flags, m.length, m.startFrame, m.packetCount, m.interval];
    Joined(Words(h), Words(f), m.setup, m.payload, Descriptors(m.packets), p.rest);
  }

  lemma EncodeUnlink(h: seq<u32>, s: seq<byte>, table: seq<Endpoint>)
    requires |h| == 5 && h[0] == CMD_UNLINK && |table| == 32 && ParseUnlink(h, s).Some?
    ensures var p := ParseUnlink(h, s).value;
            Words(h) + s == Encode(p.message) + p.rest && WellFormed(p.message, table)
  {
    var m := ParseUnlink(h, s).value.message;
    JoinWords(s, 1);
    SplitAt(s, 4, 28);
    assert h == [CMD_UNLINK, m.seqnum, m.devid, m.direction, m.ep] && Unwords(s, 1) == [m.target];
  }

  /** Conversely, what the server accepts is the encoding of a well formed command. */
  lemma EncodeOfParse(s: seq<byte>, table: seq<Endpoint>)
    requires |table| == 32 && Parse(s, table).Some?
    ensures var p := Parse(s, table).value; s == Encode(p.message) + p.rest && WellFormed(p.message, table)
  {
    var h := Unwords(s, 5);
    JoinWords(s, 5);
    if h[0] == CMD_SUBMIT { EncodeSubmit(h, s[20..], table); } else { EncodeUnlink(h, s[20..], table); }
  }

  function EncodeAll(cs: seq<Command>): seq<byte> {
    if cs == [] then [] else Encode(cs[0]) + EncodeAll(cs[1..])
  }

  /** Reads `n` commands one after the other. */
  function ParseAll(s: seq<byte>, table: seq<Endpoint>, n: nat): Option<Parsed<seq<Command>>>
    requires |table| == 32
  {
    if n == 0 then Some(Parsed([], s))
    else
      match Parse(s, table)
      case None => None
      case Some(p) =>
        match ParseAll(p.rest, table, n - 1)
        case None => None
        case Some(q) => Some(Parsed([p.message] + q.message, q.rest))
  }

  /** Framing stays in sync over any number of commands, and what follows them is untouched. */
  lemma {:induction false} ParseAllMore(c: Command, table: seq<Endpoint>, tail: seq<byte>, cs: seq<Command>, rest: seq<byte>)
    requires |table| == 32 && WellFormed(c, table) && ParseAll(tail, table, |cs|) == Some(Parsed(cs, rest))
    ensures ParseAll(Encode(c) + tail, table, |cs| + 1) == Some(Parsed([c] + cs, rest))
  {
    hide Parse, Encode, WellFormed;
    ParseOfEncode(c, table, tail);
  }

  lemma {:induction false} CommandsStayInSync(cs: seq<Command>, table: seq<Endpoint>, rest: seq<byte>)
    requires |table| == 32 && forall i :: 0 <= i < |cs| ==> WellFormed(cs[i], table)
    ensures ParseAll(EncodeAll(cs) + rest, table, |cs|) == Some(Parsed(cs, rest))
  {
    hide Parse, Encode, WellFormed;
    if cs == [] {
      assert [] + rest == rest;
    } else {
      hide ParseAll;
      var tail := EncodeAll(cs[1..]) + rest;
      assert EncodeAll(cs) + rest == Encode(cs[0]) + tail;
      CommandsStayInSync(cs[1..], table, rest);
      ParseAllMore(cs[0], table, tail, cs[1..], rest);
      assert [cs[0]] + cs[1..] == cs;
    }
  }

  // ----- Replies -----

  /** What a client knows about a transfer of its own. */
  datatype Kind = Kind(toHost: bool, isochronous: bool)

  /** Data follows for IN transfers only, packet descriptors for isochronous ones only. */
  predicate Fits(r: Reply, k: Kind) {
    r.Submitted? ==>
      && |r.payload| == (if k.toHost then r.actual else 0)
      && |r.packets| == (if k.isochronous then r.packetCount else 0)
  }

  function Zeros(n: nat): (z: seq<byte>)
    ensures |z| == n
  {
    seq(n, _ => 0)
  }

  function EncodeReply(r: Reply): seq<byte> {
    match r
    case Submitted(q, status, actual, startFrame, packetCount, payload, packets) =>
      Words([RET_SUBMIT, q, 0, 0, 0])
      + (Words([status, actual, startFrame, packetCount, 0]) + (Zeros(8) + (payload + Descriptors(packets))))
    case Unlinked(q, status) => Words([RET_UNLINK, q, 0, 0, 0]) + (Words([status]) + Zeros(24))
  }

  function ParseReply(s: seq<byte>, kinds: u32 -> Kind): Option<Parsed<Reply>> {
    if |s| < 48 then None
    else
      var h := Unwords(s, 5);
      var f := Unwords(s[20..], 5);
      if h[0] == RET_SUBMIT then ParseData(h[1], f, kinds(h[1]), s[48..])
      else if h[0] == RET_UNLINK then Some(Parsed(Unlinked(h[1], f[0]), s[48..]))
      else None
  }

  function ParseData(q: u32, f: seq<u32>, k: Kind, s: seq<byte>): Option<Parsed<Reply>>
    requires |f| == 5
  {
    var size: nat := if k.toHost then f[1] else 0;
    var n: nat := if k.isochronous then f[3] else 0;
    if |s| < size + 16 * n then None
    else Some(Parsed(Submitted(q, f[0], f[1], f[2], f[3], s[..size], Undescriptors(s[size..], n)), s[size + 16 * n..]))
  }

  lemma ParseDataOf(r: Reply, k: Kind, f: seq<u32>, rest: seq<byte>)
    requires r.Submitted? && Fits(r, k) && f == [r.status, r.actual, r.startFrame, r.packetCount, 0]
    ensures ParseData(r.seqnum, f, k, r.payload + (Descriptors(r.packets) + rest)) == Some(Parsed(r, rest))
  {
    var tail := Descriptors(r.packets) + rest;
    var s := r.payload + tail;
    assert s[..|r.payload|] == r.payload && s[|r.payload|..] == tail;
    UndescriptorsOf(r.packets, rest);
    assert tail[16 * |r.packets|..] == rest;
    assert s[|r.payload| + 16 * |r.packets|..] == rest;
  }

  lemma ParseOfSubmitted(r: Reply, kinds: u32 -> Kind, rest: seq<byte>)
    requires r.Submitted? && Fits(r, kinds(r.seqnum))
    ensures ParseReply(EncodeReply(r) + rest, kinds) == Some(Parsed(r, rest))
  {
    var h, f := [RET_SUBMIT, r.seqnum, 0, 0, 0], [r.status, r.actual, r.startFrame, r.packetCount, 0];
    var body := r.payload + (Descriptors(r.packets) + rest);
    var s, s1 := EncodeReply(r) + rest, Words(f) + (Zeros(8) + body);
    Joined(Words(h), Words(f), Zeros(8), r.payload, Descriptors(r.packets), rest);
    SplitWords(h, s1, s);
    SplitWords(f, Zeros(8) + body, s1);
    assert s[48..] == body by { DropDrop(s, 20, 28); DropDrop(s1, 20, 8); }
    ParseDataOf(r, kinds(r.seqnum), f, rest);
  }

  lemma DropDrop<X>(s: seq<X>, i: nat, j: nat)
    requires i + j <= |s|
    ensures s[i..][j..] == s[i + j..]
  {
  }

  lemma FirstWord(s: seq<byte>, n: nat)
    requires n > 0 && 4 * n <= |s|
    ensures Unwords(s, n)[0] == Unwords(s, 1)[0]
  {
  }

  lemma ParseOfUnlinked(r: Reply, kinds: u32 -> Kind, rest: seq<byte>)
    requires r.Unlinked?
    ensures ParseReply(EncodeReply(r) + rest, kinds) == Some(Parsed(r, rest))
  {
    var h := [RET_UNLINK, r.seqnum, 0, 0, 0];
    var s, s1 := EncodeReply(r) + rest, Words([r.status]) + (Zeros(24) + rest);
    assert s == Words(h) + s1;
    SplitWords(h, s1, s);
    SplitWords([r.status], Zeros(24) + rest, s1);
    FirstWord(s1, 5);
    assert s[48..] == rest by { DropDrop(s, 20, 28); }
  }

  lemma ParseOfReply(r: Reply, kinds: u32 -> Kind, rest: seq<byte>)
    requires Fits(r, kinds(r.seqnum))
    ensures ParseReply(EncodeReply(r) + rest, kinds) == Some(Parsed(r, rest))
  {
    if r.Submitted? { ParseOfSubmitted(r, kinds, rest); } else { ParseOfUnlinked(r, kinds, rest); }
  }

  function EncodeReplies(rs: seq<Reply>): seq<byte> {
    if rs == [] then [] else EncodeReply(rs[0]) + EncodeReplies(rs[1..])
  }

  /** Reads replies until the stream ends. */
  function ParseReplies(s: seq<byte>, kinds: u32 -> Kind): Option<seq<Reply>>
    decreases |s|
  {
    if s == [] then Some([])
    else
      match ParseReply(s, kinds)
      case None => None
      case Some(p) =>
        if |p.rest| >= |s| then None
        else
          match ParseReplies(p.rest, kinds)
          case None => None
          case Some(rs) => Some([p.message] + rs)
  }

  lemma ReplyHasBytes(r: Reply)
    ensures |EncodeReply(r)| > 0
  {
  }

  /** The reply stream parses back to the replies, so no two reply sequences look alike. */
  lemma {:induction false} RepliesParseBack(rs: seq<Reply>, kinds: u32 -> Kind)
    requires forall i :: 0 <= i < |rs| ==> Fits(rs[i], kinds(rs[i].seqnum))
    ensures ParseReplies(EncodeReplies(rs), kinds) == Some(rs)
  {
    hide EncodeReply, ParseReply, Fits;
    if rs != [] {
      ParseOfReply(rs[0], kinds, EncodeReplies(rs[1..]));
      ReplyHasBytes(rs[0]);
      RepliesParseBack(rs[1..], kinds);
      assert [rs[0]] + rs[1..] == rs;
    }
  }
}
