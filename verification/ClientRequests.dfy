// The client's calls, the packets they build, and what the server makes of
// them.
module ClientRequests {
  import opened Bytes
  import opened Framing
  import opened Headers
  import opened Link
  import opened SyncClock
  import opened Broker
  import opened BrokerInvariant
  import opened BrokerTable

  datatype Kind = Events | Clients | Channels

  datatype ClientCall =
    | CallHello(id: Id)
    | CallSubscribe(id: Id, flags: U32, counter: Word)
    | CallUnsubscribe(id: Id, flags: U32)
    | CallDefine(id: Id, flags: U32)
    | CallUndefine(id: Id)
    | CallWrite(id: Id, flags: U32, data: Option<seq<byte>>, size: nat)
    | CallRead(id: Id, flags: U32)
    | CallAnnounce(id: Id, ip: U32, port: U16, ticketFlags: U32)
    | CallList(kind: Kind, sequence: byte)

  const PACKET_BUFFER: nat := 0xfff

  // The bytes that a write takes from its caller: as many as it says, or as
  // its type has when it says none.
  function WriteSize(flags: U32, size: nat): nat {
    if size == 0 then SizeByType(Nibble(flags, 8)) else size
  }

  // The buffers that callers must provide, within the client's own packet.
  predicate Backed(call: ClientCall) {
    call.CallWrite? && call.data.Some? ==>
      WriteSize(call.flags, call.size) <= |call.data.value| && WriteSize(call.flags, call.size) <= PACKET_BUFFER
  }

  // A message nibble with the caller's flag and type bits, and a message
  // nibble with its type bits only.
  function TypeField(msg: nat, flags: U32): U32
    requires msg < 16
  {
    msg + flags / 16 % 256 * 16
  }

  function TypeFieldNoFlags(msg: nat, flags: U32): U32
    requires msg < 16
  {
    msg + flags / 256 % 16 * 256
  }

  // The packet of a call; `h` is what the stack variable held before.
  function Built(h: Header, call: ClientCall): Packet
    requires Backed(call)
  {
    match call
    case CallHello(id) => Packet(FillRequest(h, id, MSG_CLIENT_ID).(sync0 := MAJOR, sync1 := 1), [])
    case CallSubscribe(id, flags, counter) =>
      Packet(FillRequest(h, id, TypeField(MSG_SUBSCRIBE, flags)).(counter := counter), [])
    case CallUnsubscribe(id, flags) => Packet(FillRequest(h, id, TypeField(MSG_UNSUBSCRIBE, flags)), [])
    case CallDefine(id, flags) => Packet(FillRequest(h, id, TypeField(MSG_DEFINE, flags)), [])
    case CallUndefine(id) => Packet(FillRequest(h, id, MSG_DEFINE), [])
    case CallWrite(id, flags, data, size) =>
      WritePacket(h, id, TypeField(MSG_WRITE, flags), if data.Some? then data.value[..WriteSize(flags, size)] else [])
    case CallRead(id, flags) => Packet(FillRequest(h, id, TypeFieldNoFlags(MSG_READ, flags)), [])
    case CallAnnounce(id, ip, port, ticketFlags) =>
      Packet(FillHeader(h, id, MSG_CHANNEL + 0x1000).(size := 10), ToLE(ip, 4) + ToLE(port, 2) + ToLE(ticketFlags, 4))
    case CallList(kind, sequence) =>
      var typ := if kind.Events? then MSG_EVENT_LIST else if kind.Clients? then MSG_CLIENT_LIST else MSG_CHANNEL_LIST;
      Packet(FillRequest(h, h.id.(w0 := h.id.w0 / 256 * 256 + sequence), typ), [])
  }

  // Calls that the packets can carry: no undefinition, and no write of more
  // than 511 bytes.
  predicate Carried(call: ClientCall) {
    && !call.CallUndefine?
    && (call.CallWrite? && call.data.Some? ==> WriteSize(call.flags, call.size) <= MAX_PAYLOAD)
  }

  // What the bits of a caller's word mean: 0x10 synchronised, 0x20 echo, 0x80
  // force, and the type in the third hexadecimal digit.
  function CallerFlags(word: U32): Flags {
    Flags(word / 0x10 % 2 == 1, word / 0x20 % 2 == 1, word / 0x80 % 2 == 1, word / 0x100 % 0x10)
  }

  function FlagWord(f: Flags): U32 {
    (if f.sync then 0x10 else 0) + (if f.echo then 0x20 else 0) + (if f.force then 0x80 else 0) + 0x100 * f.vartype
  }

  // What the caller means.
  function Meant(call: ClientCall): Request
    requires Backed(call)
  {
    match call
    case CallHello(id) => Hello(id, MAJOR, 1)
    case CallSubscribe(id, flags, counter) => Subscribe(id, CallerFlags(flags), counter)
    case CallUnsubscribe(id, _) => Unsubscribe(id)
    case CallDefine(id, flags) => Define(id, CallerFlags(flags), 0)
    case CallUndefine(id) => Undefine(id)
    case CallWrite(id, flags, data, size) =>
      Write(id, CallerFlags(flags), if data.Some? then data.value[..WriteSize(flags, size)] else [])
    case CallRead(id, _) => Read(id)
    case CallAnnounce(id, _, port, ticketFlags) => Announce(id, port, ticketFlags)
    case CallList(kind, sequence) =>
      match kind
      case Events => EventList(sequence)
      case Clients => ClientList(sequence)
      case Channels => ChannelList(sequence)
  }

  lemma Powers()
    ensures Power2(0) == 1 && Power2(4) == 16 && Power2(5) == 32 && Power2(7) == 128 && Power2(8) == 256
        && Power2(12) == 4096
  {
    assert Power2(1) == 2 && Power2(2) == 4 && Power2(3) == 8;
    assert Power2(6) == 64 && Power2(7) == 128;
    assert Power2(9) == 512 && Power2(10) == 1024 && Power2(11) == 2048;
  }

  lemma LowNibble(msg: nat, f: nat)
    requires msg < 16
    ensures (msg + f * 16) % 16 == msg && (msg + f * 16) / 16 == f
  {
  }

  lemma HalfAgain(n: nat)
    ensures n / 32 == n / 16 / 2 && n / 128 == n / 16 / 8 && n / 256 == n / 16 / 16
  {
  }

  lemma LowByte(g: nat)
    ensures g % 256 % 2 == g % 2 && g % 256 / 2 % 2 == g / 2 % 2 && g % 256 / 8 % 2 == g / 8 % 2
    ensures g % 256 / 16 % 16 == g / 16 % 16
  {
    var q, r := g / 256, g % 256;
    assert g == 256 * q + r;
    Halves(q, r);
    Eighths(q, r);
    Sixteenths(q, r);
  }

  lemma Halves(q: nat, r: nat)
    ensures (256 * q + r) % 2 == r % 2 && (256 * q + r) / 2 % 2 == r / 2 % 2
  {
    assert (256 * q + r) / 2 == 128 * q + r / 2;
  }

  lemma Eighths(q: nat, r: nat)
    ensures (256 * q + r) / 8 % 2 == r / 8 % 2
  {
    assert (256 * q + r) / 8 == 32 * q + r / 8;
  }

  lemma Sixteenths(q: nat, r: nat)
    ensures (256 * q + r) / 16 % 16 == r / 16 % 16
  {
    assert (256 * q + r) / 16 == 16 * q + r / 16;
  }

  // The server reads the bits of a word as the caller means them, and every
  // choice of flags has its word.
  lemma FlagsRead(word: U32)
    ensures FlagsOf(word) == CallerFlags(word)
  {
    Powers();
    hide Power2;
  }

  lemma FlagWordRead(f: Flags)
    ensures FlagsOf(FlagWord(f)) == f == CallerFlags(FlagWord(f))
  {
    FlagsRead(FlagWord(f));
    hide FlagsOf;
    var low := (if f.sync then 1 else 0) + (if f.echo then 2 else 0) + if f.force then 8 else 0;
    assert FlagWord(f) / 0x10 == low + 0x10 * f.vartype;
    assert FlagWord(f) / 0x20 == low / 2 + 8 * f.vartype;
    assert FlagWord(f) / 0x80 == low / 8 + 2 * f.vartype;
    assert FlagWord(f) / 0x100 == f.vartype;
  }

  // The type field keeps the message and the flags apart.
  lemma TypeFieldParts(msg: nat, flags: U32)
    requires msg < 16
    ensures Nibble(TypeField(msg, flags), 0) == msg && FlagsOf(TypeField(msg, flags)) == FlagsOf(flags)
    ensures Nibble(TypeFieldNoFlags(msg, flags), 0) == msg
  {
    Powers();
    hide Power2;
    var g := flags / 16;
    var typ := TypeField(msg, flags);
    LowNibble(msg, g % 256);
    LowNibble(msg, flags / 256 % 16 * 16);
    HalfAgain(flags);
    HalfAgain(typ);
    LowByte(g);
  }

  lemma PlainTypes()
    ensures forall msg: nat | msg < 16 ::
        Nibble(msg, 0) == msg && FlagsOf(msg) == Flags(false, false, false, VAR_UNDEFINED)
    ensures Nibble(MSG_CHANNEL + 0x1000, 0) == MSG_CHANNEL && Nibble(MSG_CHANNEL + 0x1000, 12) == 1
  {
    Powers();
    hide Power2;
  }

  // Every packet that a call builds goes through the framer as it is.
  lemma BuiltIsSendable(h: Header, call: ClientCall)
    requires Backed(call)
    ensures Sendable(Built(h, call))
  {
    hide TypeField, TypeFieldNoFlags;
  }

  // The server does what the caller means, except in two cases: a write of
  // more than 511 bytes arrives cut, and an undefinition arrives as a
  // definition without type.
  lemma ServerUnderstands(h: Header, call: ClientCall, behind: Tail)
    requires Backed(call)
    ensures RequestOf(Built(h, call), behind) == Meant(call) <==> Carried(call)
    ensures call.CallUndefine? ==>
      RequestOf(Built(h, call), behind) == Define(call.id, Flags(false, false, false, VAR_UNDEFINED), 0)
  {
    PlainTypes();
    hide Nibble, Power2, FlagsOf, CallerFlags, Field, ToLE, SizeByType, TypeField, TypeFieldNoFlags;
    if call.CallSubscribe? || call.CallDefine? || call.CallWrite? {
      FlagsRead(call.flags);
    }
    match call {
      case CallHello(id) =>
      case CallSubscribe(id, flags, counter) => TypeFieldParts(MSG_SUBSCRIBE, flags);
      case CallUnsubscribe(id, flags) => TypeFieldParts(MSG_UNSUBSCRIBE, flags);
      case CallDefine(id, flags) => TypeFieldParts(MSG_DEFINE, flags);
      case CallUndefine(id) =>
      case CallWrite(id, flags, data, size) => TypeFieldParts(MSG_WRITE, flags);
      case CallRead(id, flags) => TypeFieldParts(MSG_READ, flags);
      case CallAnnounce(id, ip, port, ticketFlags) => TicketRead(ip, port, ticketFlags, behind);
      case CallList(kind, sequence) =>
    }
  }

  lemma TicketRead(ip: U32, port: U16, ticketFlags: U32, behind: Tail)
    ensures var bs := ToLE(ip, 4) + ToLE(port, 2) + ToLE(ticketFlags, 4) + behind;
      Field(bs, 4, 2) == port && Field(bs, 6, 4) == ticketFlags
  {
    var bs := ToLE(ip, 4) + ToLE(port, 2) + ToLE(ticketFlags, 4) + behind;
    assert bs[4..6] == ToLE(port, 2) && bs[6..10] == ToLE(ticketFlags, 4);
    PowerOfEight();
    DecodeEncode(port, 2);
    DecodeEncode(ticketFlags, 4);
  }

  // What is left of an undefinition at the server: an event that exists stays
  // as it is, and one that does not is created while there is room. It is
  // gone afterwards only if it was not there before and the table was full.
  lemma UndefineDefines(h: Header, id: Id, behind: Tail, s: State, c: ClientIx, now: Time)
    requires Inv(s) && Named(id)
    ensures var req := RequestOf(Built(h, CallUndefine(id)), behind);
            var t := Processed(s, c, req, now).s;
      && (id in Abs(s) ==> t == s)
      && (id !in Abs(t) <==> id !in Abs(s) && |Abs(s)| == EVENTS)
  {
    hide Abs, Built, Obtain, RequestOf;
    ServerUnderstands(h, CallUndefine(id), behind);
    Lookup(s, id);
    var flags := Flags(false, false, false, VAR_UNDEFINED);
    DefineRefines(s, id, flags, None, 0);
    CapacityAndCount(s);
  }

  // ---------------------------------------------------------- end to end

  function BuiltAll(hs: seq<Header>, calls: seq<ClientCall>): (ps: seq<Packet>)
    requires |hs| == |calls| && forall i | 0 <= i < |calls| :: Backed(calls[i])
    ensures |ps| == |calls| && forall i | 0 <= i < |ps| :: ps[i] == Built(hs[i], calls[i])
  {
    seq(|calls|, i requires 0 <= i < |calls| => Built(hs[i], calls[i]))
  }

  // From the client's calls to the server's requests: whatever the stack held
  // when the packets were built, whatever 'S'-free garbage came before them
  // and however the network cut the stream into reads of at least a header,
  // the server is asked for what was called for, in order.
  lemma CallsArrive(hs: seq<Header>, calls: seq<ClientCall>, garbage: seq<byte>, chunks: seq<seq<byte>>, behind: Tail)
    requires |hs| == |calls|
    requires forall i | 0 <= i < |calls| :: Backed(calls[i]) && Carried(calls[i])
    requires MAGIC !in garbage
    requires Concat(chunks) == garbage + Wire(BuiltAll(hs, calls))
    requires forall i | 0 <= i < |chunks| :: |chunks[i]| >= HEADER
    ensures var arrived := Session([], chunks).packets;
      && |arrived| == |calls|
      && forall i | 0 <= i < |calls| ::
          |arrived[i]| >= HEADER && RequestOf(PacketOf(arrived[i]), behind) == Meant(calls[i])
  {
    var packets := BuiltAll(hs, calls);
    hide Built, RequestOf, Meant, Session, Wire, Concat, Sendable, PacketOf, PacketBytes;
    forall i | 0 <= i < |packets| ensures Sendable(packets[i]) && RequestOf(packets[i], behind) == Meant(calls[i]) {
      BuiltIsSendable(hs[i], calls[i]);
      ServerUnderstands(hs[i], calls[i], behind);
    }
    EndToEnd(packets, garbage, chunks);
  }
}
