// The channels as their users see them: a table from identifier to offer,
// with a capacity, and what a ticket owes to the history of a run.
module BrokerChannels {
  import opened Bytes
  import opened Headers
  import opened ListPaging
  import opened SyncClock
  import opened Broker
  import opened BrokerInvariant
  import opened BrokerTable
  import opened BrokerRuns
  import opened BrokerCounting
  import opened BrokerChannelCount

  // A channel without its slot: where it is offered and by whom, how often it
  // was announced, and how often the owner changed.
  datatype Offer = Offer(ip: U32, port: U16, flags: U32, owner: Option<ClientIx>,
                         announced: nat, requested: nat, owners: nat)

  type Offers = map<Id, Offer>

  function OfferOf(ch: Channel): Offer {
    Offer(ch.ip, ch.port, ch.flags, ch.producer, ch.announced, ch.requested, ch.producersCount)
  }

  function ChannelIds(chs: seq<Channel>): set<Id> {
    set i | 0 <= i < |chs| && Open(chs[i]) :: chs[i].id
  }

  // The table that the channel slots stand for.
  function OffersIn(s: State): Offers
    requires Shape(s)
  {
    map id | id in ChannelIds(s.channels) :: OfferOf(s.channels[FindChannel(s.channels, id)])
  }

  lemma LookupChannel(s: State, id: Id)
    requires Shape(s) && Named(id)
    ensures id in OffersIn(s) <==> FindChannel(s.channels, id) < CHANNELS
    ensures id in OffersIn(s) ==> OffersIn(s)[id] == OfferOf(s.channels[FindChannel(s.channels, id)])
  {
    if FindChannel(s.channels, id) < CHANNELS {
      assert s.channels[FindChannel(s.channels, id)].id in ChannelIds(s.channels);
    }
  }

  ghost predicate Stands(m: Offers, chs: seq<Channel>) {
    && (forall i | 0 <= i < |chs| && Open(chs[i]) :: chs[i].id in m && m[chs[i].id] == OfferOf(chs[i]))
    && (forall id | id in m :: id in ChannelIds(chs))
  }

  lemma OffersStand(s: State)
    requires Shape(s) && UniqueChannels(s.channels)
    ensures Stands(OffersIn(s), s.channels)
  {
    forall i | 0 <= i < CHANNELS && Open(s.channels[i])
      ensures s.channels[i].id in OffersIn(s) && OffersIn(s)[s.channels[i].id] == OfferOf(s.channels[i])
    {
      assert FindChannel(s.channels, s.channels[i].id) <= i;
      assert s.channels[i].id in ChannelIds(s.channels);
    }
  }

  lemma StandsOnce(m: Offers, n: Offers, chs: seq<Channel>)
    requires Stands(m, chs) && Stands(n, chs)
    ensures m == n
  {
    hide OfferOf, Open;
    forall id | id in m || id in n ensures id in m && id in n && m[id] == n[id] {
      var i :| 0 <= i < |chs| && Open(chs[i]) && chs[i].id == id;
    }
  }

  lemma StandsIsOffers(s: State, m: Offers)
    requires Shape(s) && UniqueChannels(s.channels) && Stands(m, s.channels)
    ensures m == OffersIn(s)
  {
    hide UniqueChannels, Stands, OffersIn, EventShape;
    OffersStand(s);
    StandsOnce(m, OffersIn(s), s.channels);
  }

  // -------------------------------------------------------------- cardinality

  lemma {:induction false} ChannelIdsSize(chs: seq<Channel>)
    requires UniqueChannels(chs)
    ensures |ChannelIds(chs)| == |OpenIn(chs)|
  {
    if chs == [] {
    } else {
      ChannelIdsStep(chs);
      hide ChannelIds, OpenIn;
      ChannelIdsSize(chs[..|chs| - 1]);
    }
  }

  lemma ChannelIdsStep(chs: seq<Channel>)
    requires chs != [] && UniqueChannels(chs)
    ensures var n := |chs| - 1;
      && UniqueChannels(chs[..n])
      && n !in OpenIn(chs[..n])
      && OpenIn(chs) == OpenIn(chs[..n]) + (if Open(chs[n]) then {n} else {})
      && (Open(chs[n]) ==> chs[n].id !in ChannelIds(chs[..n]))
      && ChannelIds(chs) == ChannelIds(chs[..n]) + (if Open(chs[n]) then {chs[n].id} else {})
  {
    var n := |chs| - 1;
    var front := chs[..n];
    assert forall i | 0 <= i < n :: front[i] == chs[i];
    forall id | id in ChannelIds(chs) ensures id in ChannelIds(front) || (Open(chs[n]) && id == chs[n].id) {
      var i :| 0 <= i < |chs| && Open(chs[i]) && chs[i].id == id;
      assert i < n ==> front[i].id == id;
    }
    forall id | id in ChannelIds(front) ensures id in ChannelIds(chs) {
      var i :| 0 <= i < n && Open(front[i]) && front[i].id == id;
      assert chs[i].id == id;
    }
  }

  lemma ChannelsFullIff(chs: seq<Channel>)
    requires |chs| == CHANNELS
    ensures |OpenIn(chs)| <= CHANNELS && (|OpenIn(chs)| == CHANNELS <==> FreeChannel(chs) == CHANNELS)
  {
    SubrangeSize(OpenIn(chs), CHANNELS);
    var k := FreeChannel(chs);
    if k == CHANNELS {
      WholeRangeSize(OpenIn(chs), CHANNELS);
    } else {
      SubrangeSize(OpenIn(chs) + {k}, CHANNELS);
    }
  }

  // There is a free slot exactly while the table has fewer than 32 channels.
  lemma ChannelCapacity(s: State)
    requires Inv(s)
    ensures |OffersIn(s)| <= 32 && (|OffersIn(s)| == 32 <==> FreeChannel(s.channels) == CHANNELS)
  {
    hide EventsOk, OnlyLive, Counted, UniqueAddrs, SocketsOk, UniqueChannels, ChannelIds, OpenIn, OfferOf;
    ChannelIdsSize(s.channels);
    ChannelsFullIff(s.channels);
    assert OffersIn(s).Keys == ChannelIds(s.channels);
  }

  // ------------------------------------------------------------- refinement

  // An announcement: a new offer while there is room, or another one in the
  // place of the old.
  function TAnnounce(m: Offers, c: ClientIx, ip: U32, id: Id, port: U16, flags: U32): Offers {
    if id in m then
      var o := m[id];
      m[id := Offer(ip, port, flags, Some(c), (o.announced + 1) % 0x1_0000_0000, o.requested,
                    if o.owner == Some(c) then o.owners else (o.owners + 1) % 0x1_0000_0000)]
    else if |m| < 32 then m[id := Offer(ip, port, flags, Some(c), 1, 0, 1)]
    else m
  }

  // A client that goes away takes its channels with it.
  function TDepart(m: Offers, c: ClientIx): Offers {
    map id | id in m && m[id].owner != Some(c) :: m[id]
  }

  lemma StandsFilled(m: Offers, chs: seq<Channel>, k: nat, ch: Channel)
    requires Stands(m, chs) && k < |chs| && UniqueChannels(chs[k := ch]) && Open(ch)
    requires Open(chs[k]) ==> chs[k].id == ch.id
    ensures Stands(m[ch.id := OfferOf(ch)], chs[k := ch])
  {
    hide OfferOf, Open;
    var n, all := m[ch.id := OfferOf(ch)], chs[k := ch];
    forall id | id in n ensures id in ChannelIds(all) {
      if id != ch.id {
        var i :| 0 <= i < |chs| && Open(chs[i]) && chs[i].id == id;
        assert all[i] == chs[i];
      } else {
        assert all[k] == ch;
      }
    }
    forall i | 0 <= i < |all| && Open(all[i]) ensures all[i].id in n && n[all[i].id] == OfferOf(all[i]) {
      if i != k {
        assert all[i] == chs[i] && all[k] == ch && all[i].id != ch.id;
      }
    }
  }

  lemma SlotFilled(s: State, t: State, k: nat, ch: Channel)
    requires Shape(s) && Shape(t) && UniqueChannels(s.channels) && UniqueChannels(t.channels)
    requires k < CHANNELS && t.channels == s.channels[k := ch] && Open(ch)
    requires Open(s.channels[k]) ==> s.channels[k].id == ch.id
    ensures OffersIn(t) == OffersIn(s)[ch.id := OfferOf(ch)]
  {
    hide UniqueChannels, Stands, OffersIn, EventShape, Open, OfferOf;
    OffersStand(s);
    StandsFilled(OffersIn(s), s.channels, k, ch);
    StandsIsOffers(t, OffersIn(s)[ch.id := OfferOf(ch)]);
  }

  lemma AnnounceRefines(s: State, c: ClientIx, id: Id, port: U16, flags: U32)
    requires Inv(s) && Live(s, c) && Named(id)
    ensures var r := Announced(s, c, id, port, flags);
      && Inv(r.s) && r.out == []
      && OffersIn(r.s) == TAnnounce(OffersIn(s), c, s.clients[c].addr.ip, id, port, flags)
  {
    hide EventsOk, OnlyLive, Counted, UniqueAddrs, SocketsOk, OffersIn;
    AnnounceKeepsInv(s, c, id, port, flags);
    LookupChannel(s, id);
    ChannelCapacity(s);
    var t := Announced(s, c, id, port, flags).s;
    var i := FindChannel(s.channels, id);
    var k := if i < CHANNELS then i else FreeChannel(s.channels);
    if k < CHANNELS {
      SlotFilled(s, t, k, t.channels[k]);
    }
  }

  lemma TicketRefines(s: State, c: ClientIx, id: Id)
    requires Inv(s) && Live(s, c) && Named(id)
    ensures var r := TicketFor(s, c, id);
      && r.s == s
      && r.out == (if id !in OffersIn(s) then []
                   else var o := OffersIn(s)[id]; [Sent(c, Ticket(id, o.ip, o.port, o.flags))])
  {
    hide EventsOk, OnlyLive, Counted, UniqueAddrs, SocketsOk, OffersIn, UniqueChannels;
    LookupChannel(s, id);
    LiveGets(s, c);
    hide Emit;
  }

  lemma DepartRefines(s: State, c: ClientIx)
    requires Inv(s) && Live(s, c)
    ensures var t := CloseClient(s, c); Inv(t) && OffersIn(t) == TDepart(OffersIn(s), c)
  {
    hide EventsOk, OnlyLive, Counted, UniqueAddrs, SocketsOk, OffersIn;
    CloseKeepsInv(s, c);
    var t := CloseClient(s, c);
    DepartSlots(s, c);
    OffersStand(s);
    hide CloseClient;
    var m := TDepart(OffersIn(s), c);
    forall id | id in m ensures id in ChannelIds(t.channels) {
      var k :| 0 <= k < CHANNELS && Open(s.channels[k]) && s.channels[k].id == id;
      assert t.channels[k] == s.channels[k];
    }
    forall k | 0 <= k < CHANNELS && Open(t.channels[k])
      ensures t.channels[k].id in m && m[t.channels[k].id] == OfferOf(t.channels[k])
    {
      assert t.channels[k] == s.channels[k];
    }
    StandsIsOffers(t, m);
  }

  lemma DepartSlots(s: State, c: ClientIx)
    requires Shape(s)
    ensures forall k | 0 <= k < CHANNELS ::
              if Open(s.channels[k]) && s.channels[k].producer == Some(c) then !Open(CloseClient(s, c).channels[k])
              else CloseClient(s, c).channels[k] == s.channels[k]
  {
    LeavingKeepsChannels(s, c, EVENTS);
    hide RemoveFromEvents;
  }

  lemma SameSlotsSameOffers(s: State, t: State)
    requires Shape(s) && Shape(t) && t.channels == s.channels
    ensures OffersIn(t) == OffersIn(s)
  {
  }

  // What one step does to the channels; `ip` is the address that the server
  // has for the sender.
  function TChannelRequest(m: Offers, c: ClientIx, ip: U32, req: Request): Offers {
    match req
    case Announce(id, port, flags) => TAnnounce(m, c, ip, id, port, flags)
    case Hello(_, major, _) => if major == 2 then m else TDepart(m, c)
    case _ => m
  }

  lemma ChannelRequestRefines(s: State, c: ClientIx, req: Request, now: Time)
    requires Inv(s) && Live(s, c) && Bounded(req) && NamesOk(req)
    ensures OffersIn(Processed(s, c, req, now).s) == TChannelRequest(OffersIn(s), c, s.clients[c].addr.ip, req)
  {
    hide EventsOk, OnlyLive, Counted, UniqueAddrs, SocketsOk, OffersIn, CloseClient, Announced, Written, SameChannels;
    hide TAnnounce, TDepart;
    match req
    case Announce(id, port, flags) => AnnounceRefines(s, c, id, port, flags);
    case Hello(id, major, minor) =>
      DepartRefines(s, c);
      SameSlotsSameOffers(if major == MAJOR then s else CloseClient(s, c), Greeted(s, c, id, major, minor).s);
    case Write(id, flags, data) =>
      WritesKeepChannels(s, c, id, flags, data, now);
      SameChannelsSameOffers(s, Written(s, c, id, flags, data, now).s);
    case _ =>
      OthersKeepChannels(s, c, req, now);
      SameChannelsSameOffers(s, Processed(s, c, req, now).s);
  }

  lemma SameChannelsSameOffers(s: State, t: State)
    requires Shape(s) && Shape(t) && SameChannels(s, t)
    ensures OffersIn(t) == OffersIn(s)
  {
    SameSlotsSameOffers(s, t);
  }

  // The address that the server has for the sender of an input.
  function SenderIp(s: State, x: Input): U32
    requires Shape(s)
  {
    match x
    case Packet(c, _, _) => s.clients[c].addr.ip
    case Datagram(addr, _, _) => addr.ip
    case _ => 0
  }

  function TChannelStep(m: Offers, sender: Option<ClientIx>, ip: U32, x: Input): Offers {
    match x
    case Packet(_, req, _) => if sender.Some? then TChannelRequest(m, sender.value, ip, req) else m
    case Datagram(_, req, _) => if sender.Some? then TChannelRequest(m, sender.value, ip, req) else m
    case Gone(c) => TDepart(m, c)
    case _ => m
  }

  lemma DatagramSender(s: State, addr: Addr, req: Request)
    requires Shape(s)
    ensures var (t, c) := ClientOfDatagram(s, addr, req);
      && t.channels == s.channels && t.events == s.events
      && (c < CLIENTS ==> t.clients[c].addr == addr && t.clients[c].socket == -2)
  {
  }

  // Over every step the channel slots do what the table does.
  lemma ChannelStepRefines(s: State, x: Input)
    requires Inv(s) && Legal(s, x)
    ensures OffersIn(Step(s, x).s) == TChannelStep(OffersIn(s), Sender(s, x), SenderIp(s, x), x)
  {
    hide EventsOk, OnlyLive, Counted, UniqueAddrs, SocketsOk, UniqueChannels, OffersIn, Processed, CloseClient;
    hide TChannelRequest, TDepart, SameChannels, WrittenByServer, Defined, Accepted, ClientOfDatagram;
    match x
    case Packet(c, req, now) => ChannelRequestRefines(s, c, req, now);
    case Datagram(addr, req, now) =>
      DatagramClientKeepsInv(s, addr, req);
      DatagramSender(s, addr, req);
      var (t, c) := ClientOfDatagram(s, addr, req);
      SameSlotsSameOffers(s, t);
      if c < CLIENTS {
        ChannelRequestRefines(t, c, req, now);
      }
    case Connection(fd, addr) =>
      AcceptKeepsChannels(s, fd, addr);
      SameChannelsSameOffers(s, Step(s, x).s);
    case Gone(c) => DepartRefines(s, c);
    case _ =>
      ProgramKeepsChannels(s, x);
      SameChannelsSameOffers(s, Step(s, x).s);
  }

  // -------------------------------------------------------- the last offer

  // The channel is announced again.
  predicate Reoffers(sender: Option<ClientIx>, x: Input, id: Id) {
    sender.Some? && (x.Packet? || x.Datagram?) && x.req.Announce? && x.req.id == id
  }

  predicate Departs(sender: Option<ClientIx>, x: Input, c: ClientIx) {
    (x.Gone? && x.c == c) || (sender == Some(c) && (x.Packet? || x.Datagram?) && Rejects(x.req))
  }

  predicate Undisputed(s: State, xs: seq<Input>, c: ClientIx, id: Id)
    requires Shape(s)
  {
    xs == [] ||
    var t := Run(s, xs[..|xs| - 1]);
    var x := xs[|xs| - 1];
    Undisputed(s, xs[..|xs| - 1], c, id) && !Reoffers(Sender(t, x), x, id) && !Departs(Sender(t, x), x, c)
  }

  lemma StepKeepsOffer(m: Offers, sender: Option<ClientIx>, ip: U32, x: Input, c: ClientIx, id: Id)
    requires id in m && m[id].owner == Some(c) && !Reoffers(sender, x, id) && !Departs(sender, x, c)
    ensures var n := TChannelStep(m, sender, ip, x); id in n && n[id] == m[id]
  {
  }

  lemma {:induction false} OfferStays(s: State, xs: seq<Input>, c: ClientIx, id: Id)
    requires Inv(s) && LegalRun(s, xs) && Undisputed(s, xs, c, id)
    requires id in OffersIn(s) && OffersIn(s)[id].owner == Some(c)
    ensures var t := Run(s, xs); Inv(t) && id in OffersIn(t) && OffersIn(t)[id] == OffersIn(s)[id]
  {
    hide EventsOk, OnlyLive, Counted, UniqueAddrs, SocketsOk, UniqueChannels, OffersIn, Step, Sender, TChannelStep;
    hide Reoffers, Departs, SenderIp;
    if xs == [] {
    } else {
      var front, x := xs[..|xs| - 1], xs[|xs| - 1];
      var t := Run(s, front);
      OfferStays(s, front, c, id);
      ChannelStepRefines(t, x);
      StepKeepsInv(t, x);
      StepKeepsOffer(OffersIn(t), Sender(t, x), SenderIp(t, x), x, c, id);
    }
  }

  lemma {:induction false} UsedHas<T>(slots: seq<Option<T>>, k: nat)
    requires k < |slots| && slots[k].Some?
    ensures slots[k].value in Used(slots)
    decreases k
  {
    if k > 0 {
      UsedHas(slots[1..], k - 1);
    }
  }

  lemma OfferIsListed(s: State, id: Id)
    requires Inv(s) && Named(id) && id in OffersIn(s)
    ensures var o := OffersIn(s)[id];
      o.announced < 0x1_0000_0000 && o.requested < 0x1_0000_0000
      && ChannelInfo(id, o.announced, o.requested, o.ip, o.port) in Used(ChannelRecords(s))
  {
    hide EventsOk, OnlyLive, Counted, UniqueAddrs, SocketsOk, UniqueChannels, OffersIn, Used;
    LookupChannel(s, id);
    var k := FindChannel(s.channels, id);
    UsedHas(ChannelRecords(s), k);
  }

  // A ticket is the last announcement: whatever else happens in between, as
  // long as the channel is not announced again and its owner does not leave,
  // whoever asks gets the owner's address with the announced port and flags,
  // and the channel list agrees.
  lemma TicketIsLastAnnouncement(s: State, c: ClientIx, id: Id, port: U16, flags: U32, at: Time, w: State,
                                 xs: seq<Input>, t: State, d: ClientIx, now: Time)
    requires Inv(s) && Live(s, c) && Named(id) && (id in OffersIn(s) || |OffersIn(s)| < 32)
    requires w == Processed(s, c, Announce(id, port, flags), at).s
    requires t == Run(w, xs) && LegalRun(w, xs) && Undisputed(w, xs, c, id) && Live(t, d)
    ensures var ip := s.clients[c].addr.ip;
      && Processed(t, d, TicketRequest(id), now).out == [Sent(d, Ticket(id, ip, port, flags))]
      && exists info :: info in Used(ChannelRecords(t)) && info.id == id && info.ip == ip && info.port == port
  {
    hide EventsOk, OnlyLive, Counted, UniqueAddrs, SocketsOk, UniqueChannels, OffersIn, Announced, TicketFor;
    hide LegalRun, Undisputed, Run, Used, ChannelRecords;
    AnnounceRefines(s, c, id, port, flags);
    OfferStays(w, xs, c, id);
    TicketRefines(t, d, id);
    OfferIsListed(t, id);
  }

  // And it ends with its owner: once it has gone, nobody gets a ticket until
  // the channel is announced again.
  lemma NoTicketWithoutOwner(s: State, c: ClientIx, id: Id, d: ClientIx, now: Time)
    requires Inv(s) && Live(s, c) && Named(id) && id in OffersIn(s) && OffersIn(s)[id].owner == Some(c)
    requires Live(CloseClient(s, c), d)
    ensures Processed(CloseClient(s, c), d, TicketRequest(id), now).out == []
  {
    hide EventsOk, OnlyLive, Counted, UniqueAddrs, SocketsOk, UniqueChannels, OffersIn, TicketFor, CloseClient;
    DepartRefines(s, c);
    TicketRefines(CloseClient(s, c), d, id);
  }
}
