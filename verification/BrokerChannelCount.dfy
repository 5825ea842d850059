// The server's count of channels, which a disconnection does not lower
// either.
module BrokerChannelCount {
  import opened Bytes
  import opened Headers
  import opened SyncClock
  import opened ListPaging
  import opened Broker
  import opened BrokerInvariant
  import opened BrokerRuns
  import opened BrokerCounting
  import opened BrokerClientCount

  function OpenIn(chs: seq<Channel>): set<nat> {
    set i: nat | i < |chs| && Open(chs[i])
  }

  function OpenChannels(s: State): set<nat>
    requires Shape(s)
  {
    OpenIn(s.channels)
  }

  function OwnedIn(chs: seq<Channel>, c: ClientIx): set<nat> {
    set i: nat | i < |chs| && Open(chs[i]) && chs[i].producer == Some(c)
  }

  function Owned(s: State, c: ClientIx): set<nat>
    requires Shape(s)
  {
    OwnedIn(s.channels, c)
  }

  // How many channels an input frees: those of the client that it closes.
  function Frees(s: State, x: Input): nat
    requires Shape(s)
  {
    match x
    case Gone(c) => |Owned(s, c)|
    case Packet(c, req, _) => if Rejects(req) then |Owned(s, c)| else 0
    case Datagram(_, req, _) =>
      if Rejects(req) && Sender(s, x).Some? then |Owned(s, Sender(s, x).value)| else 0
    case _ => 0
  }

  function Freed(s: State, xs: seq<Input>): nat
    requires Shape(s)
  {
    if xs == [] then 0
    else Freed(s, xs[..|xs| - 1]) + Frees(Run(s, xs[..|xs| - 1]), xs[|xs| - 1])
  }

  // A step opens at most one channel, and counts it; those it frees stay
  // counted.
  ghost predicate Tallied(s: State, t: State, frees: nat)
    requires Shape(s) && Shape(t)
  {
    var arrived := |OpenChannels(t)| + frees - |OpenChannels(s)|;
    0 <= arrived <= 1 && t.channelCount == (s.channelCount + arrived) % WRAP32
  }

  predicate SameChannels(s: State, t: State) {
    t.channels == s.channels && t.channelCount == s.channelCount
  }

  lemma SameChannelsTallied(s: State, t: State)
    requires Shape(s) && Shape(t) && SameChannels(s, t)
    ensures Tallied(s, t, 0)
  {
  }

  lemma {:induction false} LeavingKeepsChannels(s: State, c: ClientIx, n: nat)
    requires Shape(s) && n <= EVENTS
    ensures SameChannels(s, RemoveFromEvents(s, c, n))
  {
    if n == 0 {
    } else {
      LeavingKeepsChannels(s, c, n - 1);
    }
  }

  lemma CloseTallied(s: State, c: ClientIx)
    requires Shape(s)
    ensures Tallied(s, CloseClient(s, c), |Owned(s, c)|)
  {
    hide CloseClient, DroppedAll, OpenIn, OwnedIn, EventShape;
    ClosedSlots(s, c);
    DroppedOpen(s.channels, c);
    Without(OpenIn(s.channels), OwnedIn(s.channels, c));
  }

  lemma ClosedSlots(s: State, c: ClientIx)
    requires Shape(s)
    ensures var t := CloseClient(s, c); t.channels == DroppedAll(s.channels, c) && t.channelCount == s.channelCount
  {
    LeavingKeepsChannels(s, c, EVENTS);
    hide RemoveFromEvents, DroppedAll;
  }

  lemma Without(a: set<nat>, b: set<nat>)
    requires b <= a
    ensures |a - b| + |b| == |a|
  {
    assert a == a - b + b;
  }

  lemma DroppedOpen(chs: seq<Channel>, c: ClientIx)
    ensures OpenIn(DroppedAll(chs, c)) == OpenIn(chs) - OwnedIn(chs, c) && OwnedIn(chs, c) <= OpenIn(chs)
  {
  }

  // What an announcement does to the tables.
  lemma AnnounceFills(s: State, c: ClientIx, id: Id, port: U16, flags: U32)
    requires Shape(s) && Named(id)
    ensures var t := Announced(s, c, id, port, flags).s;
            var i := FindChannel(s.channels, id);
            var k := if i < CHANNELS then i else FreeChannel(s.channels);
      if k == CHANNELS then t == s
      else
        && t.channels == s.channels[k := t.channels[k]] && t.channels[k].id == id
        && (Open(s.channels[k]) <==> i < CHANNELS)
        && t.channelCount == if i < CHANNELS then s.channelCount else Bump(s.channelCount)
  {
  }

  lemma FilledTallied(s: State, t: State, k: nat)
    requires Shape(s) && Shape(t) && k < CHANNELS && t.channels == s.channels[k := t.channels[k]] && Open(t.channels[k])
    requires t.channelCount == if Open(s.channels[k]) then s.channelCount else Bump(s.channelCount)
    ensures Tallied(s, t, 0)
  {
    hide EventShape, Open;
    assert OpenChannels(t) == OpenChannels(s) + {k};
    if k in OpenChannels(s) {
      assert OpenChannels(s) + {k} == OpenChannels(s);
    }
  }

  lemma AnnounceTallied(s: State, c: ClientIx, id: Id, port: U16, flags: U32)
    requires Shape(s) && Named(id)
    ensures Tallied(s, Announced(s, c, id, port, flags).s, 0)
  {
    hide Announced, OpenChannels, FindChannel, FreeChannel, EventShape;
    AnnounceFills(s, c, id, port, flags);
    var t := Announced(s, c, id, port, flags).s;
    var i := FindChannel(s.channels, id);
    var k := if i < CHANNELS then i else FreeChannel(s.channels);
    if k < CHANNELS {
      FilledTallied(s, t, k);
    }
  }

  lemma GreetTallied(s: State, c: ClientIx, id: Id, major: U32, minor: U32)
    requires Shape(s)
    ensures Tallied(s, Greeted(s, c, id, major, minor).s, if major != MAJOR then |Owned(s, c)| else 0)
  {
    CloseTallied(s, c);
    hide CloseClient, Emit;
    assert OpenChannels(Greeted(s, c, id, major, minor).s)
        == OpenChannels(if major == MAJOR then s else CloseClient(s, c));
  }

  lemma OthersKeepChannels(s: State, c: ClientIx, req: Request, now: Time)
    requires Shape(s) && Bounded(req) && !req.Hello? && !req.Announce? && !req.Write?
    ensures SameChannels(s, Processed(s, c, req, now).s)
  {
    hide Emit, EmitAll;
  }

  lemma WritesKeepChannels(s: State, c: ClientIx, id: Id, flags: Flags, data: seq<byte>, now: Time)
    requires Shape(s) && |data| <= DATA_SIZE
    ensures SameChannels(s, Written(s, c, id, flags, data, now).s)
  {
    hide SendEvent, Stored;
  }

  lemma RequestTallied(s: State, c: ClientIx, req: Request, now: Time)
    requires Shape(s) && Bounded(req) && NamesOk(req)
    ensures Tallied(s, Processed(s, c, req, now).s, if Rejects(req) then |Owned(s, c)| else 0)
  {
    hide SameChannels, Tallied, Greeted, Announced, Written, Subscribed, Defined, EmitAll;
    var t := Processed(s, c, req, now).s;
    match req
    case Hello(id, major, minor) => GreetTallied(s, c, id, major, minor);
    case Announce(id, port, flags) => AnnounceTallied(s, c, id, port, flags);
    case Write(id, flags, data) =>
      WritesKeepChannels(s, c, id, flags, data, now);
      SameChannelsTallied(s, t);
    case _ =>
      OthersKeepChannels(s, c, req, now);
      SameChannelsTallied(s, t);
  }

  lemma DatagramTallied(s: State, addr: Addr, req: Request, now: Time)
    requires Inv(s) && Bounded(req) && NamesOk(req)
    ensures var x: Call := Datagram(addr, req, now);
      Tallied(s, DatagramProcessed(s, addr, req, now).s, Frees(s, x))
  {
    hide EventsOk, OnlyLive, Counted, UniqueChannels, UniqueAddrs, SocketsOk, Processed, Rejects;
    DatagramClientKeepsInv(s, addr, req);
    DatagramKeepsChannels(s, addr, req);
    var (t, c) := ClientOfDatagram(s, addr, req);
    hide ClientOfDatagram;
    if c < CLIENTS {
      RequestTallied(t, c, req, now);
      assert Owned(t, c) == Owned(s, c) && OpenChannels(t) == OpenChannels(s);
    }
  }

  lemma DatagramKeepsChannels(s: State, addr: Addr, req: Request)
    requires Shape(s)
    ensures SameChannels(s, ClientOfDatagram(s, addr, req).0)
  {
  }

  lemma ProgramKeepsChannels(s: State, x: Input)
    requires Shape(s) && !x.Packet? && !x.Datagram? && !x.Connection? && !x.Gone?
    ensures SameChannels(s, Step(s, x).s)
  {
    hide SendEvent;
  }

  lemma StepTallied(s: State, x: Input)
    requires Inv(s)
    ensures Tallied(s, Step(s, x).s, Frees(s, x))
  {
    hide EventsOk, OnlyLive, Counted, UniqueChannels, UniqueAddrs, SocketsOk, Tallied, SameChannels, Processed;
    hide DatagramProcessed, CloseClient, Rejects, Owned;
    match x
    case Packet(c, req, now) => RequestTallied(s, c, req, now);
    case Datagram(addr, req, now) => DatagramTallied(s, addr, req, now);
    case Connection(fd, addr) =>
      AcceptKeepsChannels(s, fd, addr);
      SameChannelsTallied(s, Step(s, x).s);
    case Gone(c) => CloseTallied(s, c);
    case _ =>
      ProgramKeepsChannels(s, x);
      SameChannelsTallied(s, Step(s, x).s);
  }

  lemma AcceptKeepsChannels(s: State, fd: nat, addr: Addr)
    requires Shape(s)
    ensures SameChannels(s, Accepted(s, fd, addr).s)
  {
  }

  // After any run, the channel count is the number of open channels plus the
  // number of channels that went with their owners, in 32 bits.
  lemma {:induction false} ChannelCountOverRuns(s: State, xs: seq<Input>)
    requires Initial(s) && LegalRun(s, xs)
    ensures Run(s, xs).channelCount == (|OpenChannels(Run(s, xs))| + Freed(s, xs)) % WRAP32
  {
    hide EventsOk, OnlyLive, Counted, UniqueChannels, UniqueAddrs, SocketsOk, Step, Frees, OpenChannels, Freed;
    hide Run, LegalRun;
    InitialInv(s);
    ClosuresUnfold(s, xs);
    FreedUnfold(s, xs);
    if xs == [] {
      NothingOpenYet(s);
    } else {
      hide Initial;
      var front, x := xs[..|xs| - 1], xs[|xs| - 1];
      var t := Run(s, front);
      ChannelCountOverRuns(s, front);
      RunKeepsInv(s, front);
      StepTallied(t, x);
      hide Inv;
      CarryOn(t.channelCount, |OpenChannels(t)| + Freed(s, front),
              |OpenChannels(Step(t, x).s)| + Frees(t, x) - |OpenChannels(t)|);
    }
  }

  lemma NothingOpenYet(s: State)
    requires Initial(s)
    ensures |OpenChannels(s)| == 0 && s.channelCount == 0
  {
    assert OpenChannels(s) == {};
  }

  lemma FreedUnfold(s: State, xs: seq<Input>)
    requires Shape(s)
    ensures xs == [] ==> Freed(s, xs) == 0
    ensures xs != [] ==> Freed(s, xs) == Freed(s, xs[..|xs| - 1]) + Frees(Run(s, xs[..|xs| - 1]), xs[|xs| - 1])
  {
    hide Frees, Run, Shape;
  }

  lemma ListedAreOpen(t: State)
    requires Shape(t)
    ensures |Used(ChannelRecords(t))| == |OpenChannels(t)| <= CHANNELS
  {
    hide Used;
    UsedCount(ChannelRecords(t));
    assert Somes(ChannelRecords(t)) == OpenChannels(t);
    SubrangeSize(OpenChannels(t), CHANNELS);
  }

  // The count is the number of channels that are listed exactly while none,
  // or a multiple of 2^32, went with its owner; and the pages of a list
  // announce their number exactly while those do not fill another page.
  lemma ChannelListExactIff(s: State, xs: seq<Input>, sequence: byte)
    requires Initial(s) && LegalRun(s, xs)
    ensures var t := Run(s, xs);
            var listed, freed := |OpenChannels(t)|, Freed(s, xs);
            var pages := Response(ChannelRecords(t), CHANNELS_PER_PAGE, t.channelCount, sequence);
      && Contents(pages) == Used(ChannelRecords(t)) && |Contents(pages)| == listed
      && |pages| == listed / CHANNELS_PER_PAGE + 1
      && (t.channelCount == listed <==> freed % WRAP32 == 0)
      && ((forall k | 0 <= k < |pages| :: pages[k].announced == |pages|)
          <==> (listed + freed) % WRAP32 / CHANNELS_PER_PAGE % 256 == listed / CHANNELS_PER_PAGE)
  {
    hide Run, LegalRun, Freed, OpenChannels, ChannelRecords, Used, Contents, Response;
    ChannelCountOverRuns(s, xs);
    var t := Run(s, xs);
    ListedAreOpen(t);
    ResponseShape(ChannelRecords(t), CHANNELS_PER_PAGE, t.channelCount, sequence);
    SmallSum(|OpenChannels(t)|, Freed(s, xs));
    var pages := Response(ChannelRecords(t), CHANNELS_PER_PAGE, t.channelCount, sequence);
    NextPage(t.channelCount / CHANNELS_PER_PAGE, |OpenChannels(t)| / CHANNELS_PER_PAGE);
    assert pages[0].announced == (t.channelCount / CHANNELS_PER_PAGE + 1) % 256;
  }
}
