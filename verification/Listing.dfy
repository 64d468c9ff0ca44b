/** What a client learns about the device before and when it imports it. */
module Listing {
  import opened Urbs
  import opened Wire
  import I = Interfaces
  import D = Descriptors

  const OP_REP_DEVLIST := 5
  const OP_REP_IMPORT := 3
  const SPEED_HIGH := 3

  /** The path and the bus id of the one device there is. */
  const PATH: seq<byte> := [115, 121, 115, 47, 117, 115, 98, 47, 118, 105, 114, 116, 117, 97, 108, 95, 100, 101, 118, 105, 99, 101]
  const BUS_ID: seq<byte> := [49, 45, 49]

  /** A device is described by its device descriptor and its configuration. */
  datatype Identity = Identity(device: seq<byte>, config: seq<byte>)

  predicate Complete(id: Identity) {
    |id.device| == 18 && D.Config(id.config)
  }

  function Head(code: byte): (r: seq<byte>)
    ensures |r| == 8
  {
    [1, 0x11, 0, code] + Word(0)
  }

  function DeviceId(): (r: seq<byte>)
    ensures |r| == 300
  {
    (PATH + Zeros(256 - |PATH|)) + (BUS_ID + Zeros(32 - |BUS_ID|)) + (Word(2) + Word(3) + Word(SPEED_HIGH))
  }

  /** The fields of the descriptors, big endian on the wire. */
  function Device(id: Identity): (r: seq<byte>)
    requires Complete(id)
    ensures |r| == 12
  {
    var d, c := id.device, id.config;
    [d[9], d[8], d[11], d[10], d[13], d[12], d[4], d[5], d[6], c[5], d[17], c[4]]
  }

  function Records(list: seq<I.Interface>): (r: seq<byte>)
    ensures |r| == 4 * |list|
  {
    if list == [] then [] else [list[0].class_, list[0].subClass, list[0].protocol, 0] + Records(list[1..])
  }

  function ImportReply(id: Identity): seq<byte>
    requires Complete(id)
  {
    Head(OP_REP_IMPORT) + DeviceId() + Device(id)
  }

  function ListReply(id: Identity, list: seq<I.Interface>): seq<byte>
    requires Complete(id)
  {
    Head(OP_REP_DEVLIST) + Word(1) + DeviceId() + Device(id) + Records(list)
  }

  // ----- What the client reads -----

  datatype Info = Info(vendor: nat, product: nat, release: nat, class_: byte, subClass: byte, protocol: byte,
                       configuration: byte, configurations: byte, interfaces: byte)

  /** What the descriptors say, little endian. */
  function InfoOf(id: Identity): Info
    requires Complete(id)
  {
    var d, c := id.device, id.config;
    Info(d[8] as int + 256 * d[9] as int, d[10] as int + 256 * d[11] as int, d[12] as int + 256 * d[13] as int,
         d[4], d[5], d[6], c[5], d[17], c[4])
  }

  function ReadInfo(s: seq<byte>): Info
    requires |s| == 12
  {
    Info(256 * s[0] as int + s[1] as int, 256 * s[2] as int + s[3] as int, 256 * s[4] as int + s[5] as int,
         s[6], s[7], s[8], s[9], s[10], s[11])
  }

  function ReadRecords(s: seq<byte>, n: nat): seq<I.Interface>
    requires |s| == 4 * n
  {
    if n == 0 then [] else [I.Interface(s[0], s[1], s[2])] + ReadRecords(s[4..], n - 1)
  }

  /** A device list with one device: what it is, and its interfaces. */
  function ReadList(s: seq<byte>): Option<(Info, seq<I.Interface>)> {
    if |s| < 324 || s[..8] != Head(OP_REP_DEVLIST) || s[8..12] != Word(1) then None
    else
      var info := ReadInfo(s[312..324]);
      if |s| != 324 + 4 * info.interfaces as int then None
      else Some((info, ReadRecords(s[324..], info.interfaces as int)))
  }

  lemma {:induction false} RecordsRead(list: seq<I.Interface>)
    ensures ReadRecords(Records(list), |list|) == list
  {
    if list != [] {
      RecordsRead(list[1..]);
      assert Records(list)[4..] == Records(list[1..]);
    }
  }

  /** The client reads the device's own fields and its interfaces out of the list. */
  lemma ListIsRead(id: Identity, list: seq<I.Interface>)
    requires Complete(id) && |list| == id.config[4] as int
    ensures ReadList(ListReply(id, list)) == Some((InfoOf(id), list))
  {
    var s := ListReply(id, list);
    hide DeviceId, Head, Word;
    assert s[..8] == Head(OP_REP_DEVLIST) && s[8..12] == Word(1);
    assert s[312..324] == Device(id);
    assert s[324..] == Records(list);
    RecordsRead(list);
  }

  /** And the device's own fields out of the reply to an import. */
  lemma ImportIsRead(id: Identity)
    requires Complete(id)
    ensures |ImportReply(id)| == 320 && ReadInfo(ImportReply(id)[308..]) == InfoOf(id)
  {
    hide DeviceId, Head;
    assert ImportReply(id)[308..] == Device(id);
  }
}
