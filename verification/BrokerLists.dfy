// The lists that the broker really sends, in the hands of the client: when
// reassembly is safe, for each of the three lists.
module BrokerLists {
  import opened Bytes
  import opened ListPaging
  import opened ListReassembly
  import opened Broker
  import opened BrokerInvariant
  import opened BrokerCounting

  // The states in which the broker answers the requests of one connection: it
  // has its invariant, and the client is live. The counts that the pages
  // announce are the broker's own, exact or not.
  ghost predicate Answering(states: seq<State>, c: ClientIx) {
    states != [] && forall q | 0 <= q < |states| :: Inv(states[q]) && Live(states[q], c)
  }

  // ------------------------------------------------------------ event lists

  function EventSnapshots(states: seq<State>): (snapshots: seq<Snapshot<EventInfo>>)
    requires forall q | 0 <= q < |states| :: Shape(states[q])
    ensures |snapshots| == |states|
  {
    seq(|states|, q requires 0 <= q < |states| => Snapshot(EventRecords(states[q]), states[q].eventCount))
  }

  // A page that the broker sends to the client for one of these requests.
  ghost predicate EventPageSent(states: seq<State>, c: ClientIx, numbers: set<nat>, p: Page<EventInfo>)
    requires forall q | 0 <= q < |states| :: Shape(states[q])
  {
    exists q :: q in numbers && q < |states| && Sent(c, EventPage(p)) in EventsListed(states[q], c, q % 256).out
  }

  lemma EventPagesSent(states: seq<State>, c: ClientIx, numbers: set<nat>, p: Page<EventInfo>)
    requires Answering(states, c)
    ensures EventPageSent(states, c, numbers, p)
       <==> FromAnswers(EventSnapshots(states), EVENTS_PER_PAGE, numbers, p)
  {
    hide EventsOk, OnlyLive, Counted, UniqueChannels, UniqueAddrs, SocketsOk, Live;
    hide EmitAll, Response, EventRecords;
    forall q | 0 <= q < |states|
      ensures Sent(c, EventPage(p)) in EventsListed(states[q], c, q % 256).out
         <==> p in Answer(EventSnapshots(states), EVENTS_PER_PAGE, q)
    {
      var pages := Answer(EventSnapshots(states), EVENTS_PER_PAGE, q);
      EmitAllLive(states[q], c, EventPages(pages));
      var out := EventsListed(states[q], c, q % 256).out;
      assert forall k | 0 <= k < |pages| :: out[k] == Sent(c, EventPage(pages[k]));
    }
  }

  // Whatever arrives of what the broker sends for the last request and for
  // these earlier ones, in any order and any number of times.
  ghost predicate EventListSafe(states: seq<State>, c: ClientIx, numbers: set<nat>, table: seq<EventInfo>)
    requires Answering(states, c)
  {
    var last := |states| - 1;
    var list, inFlight := Used(EventRecords(states[last])), numbers + {last};
    forall r: Reader<EventInfo>, ps: seq<Page<EventInfo>> |
      r.table == table && JustRequested(r, last % 256)
      && (forall p | p in ps :: EventPageSent(states, c, inFlight, p))
      :: Safe(r, list, ps)
  }

  // Safe if and only if each of these earlier requests has another number, or
  // was answered with the same events.
  lemma EventListSafeIff(states: seq<State>, c: ClientIx, numbers: set<nat>, table: seq<EventInfo>)
    requires Answering(states, c) && |table| >= EVENTS
    requires forall q | q in numbers :: q < |states|
    ensures EventListSafe(states, c, numbers, table)
       <==> forall q | q in numbers ::
              NoWrap(q, |states| - 1) || Used(EventRecords(states[q])) == Used(EventRecords(states[|states| - 1]))
  {
    hide EventsOk, OnlyLive, Counted, UniqueChannels, UniqueAddrs, SocketsOk, Live;
    hide EventRecords, Safe, JustRequested, Used, EventPageSent, FromAnswers;
    var snapshots := EventSnapshots(states);
    var inFlight := numbers + {|states| - 1};
    forall p
      ensures EventPageSent(states, c, inFlight, p) <==> FromAnswers(snapshots, EVENTS_PER_PAGE, inFlight, p)
    {
      EventPagesSent(states, c, inFlight, p);
    }
    EventRecordsSize(states);
    SafeForIff(snapshots, EVENTS_PER_PAGE, numbers, table);
  }

  lemma EventRecordsSize(states: seq<State>)
    requires forall q | 0 <= q < |states| :: Shape(states[q])
    ensures forall q | 0 <= q < |states| :: |EventSnapshots(states)[q].slots| == EVENTS
  {
  }

  // ------------------------------------------------------------ client lists

  function ClientSnapshots(states: seq<State>): (snapshots: seq<Snapshot<ClientInfo>>)
    requires forall q | 0 <= q < |states| :: Shape(states[q])
    ensures |snapshots| == |states|
  {
    seq(|states|, q requires 0 <= q < |states| => Snapshot(ClientRecords(states[q]), states[q].clientCount))
  }

  // A page that the broker sends to the client for one of these requests.
  ghost predicate ClientPageSent(states: seq<State>, c: ClientIx, numbers: set<nat>, p: Page<ClientInfo>)
    requires forall q | 0 <= q < |states| :: Shape(states[q])
  {
    exists q :: q in numbers && q < |states| && Sent(c, ClientPage(p)) in ClientsListed(states[q], c, q % 256).out
  }

  lemma ClientPagesSent(states: seq<State>, c: ClientIx, numbers: set<nat>, p: Page<ClientInfo>)
    requires Answering(states, c)
    ensures ClientPageSent(states, c, numbers, p)
       <==> FromAnswers(ClientSnapshots(states), CLIENTS_PER_PAGE, numbers, p)
  {
    hide EventsOk, OnlyLive, Counted, UniqueChannels, UniqueAddrs, SocketsOk, Live;
    hide EmitAll, Response, ClientRecords;
    forall q | 0 <= q < |states|
      ensures Sent(c, ClientPage(p)) in ClientsListed(states[q], c, q % 256).out
         <==> p in Answer(ClientSnapshots(states), CLIENTS_PER_PAGE, q)
    {
      var pages := Answer(ClientSnapshots(states), CLIENTS_PER_PAGE, q);
      EmitAllLive(states[q], c, ClientPages(pages));
      var out := ClientsListed(states[q], c, q % 256).out;
      assert forall k | 0 <= k < |pages| :: out[k] == Sent(c, ClientPage(pages[k]));
    }
  }

  // Whatever arrives of what the broker sends for the last request and for
  // these earlier ones, in any order and any number of times.
  ghost predicate ClientListSafe(states: seq<State>, c: ClientIx, numbers: set<nat>, table: seq<ClientInfo>)
    requires Answering(states, c)
  {
    var last := |states| - 1;
    var list, inFlight := Used(ClientRecords(states[last])), numbers + {last};
    forall r: Reader<ClientInfo>, ps: seq<Page<ClientInfo>> |
      r.table == table && JustRequested(r, last % 256)
      && (forall p | p in ps :: ClientPageSent(states, c, inFlight, p))
      :: Safe(r, list, ps)
  }

  // Safe if and only if each of these earlier requests has another number, or
  // was answered with the same clients.
  lemma ClientListSafeIff(states: seq<State>, c: ClientIx, numbers: set<nat>, table: seq<ClientInfo>)
    requires Answering(states, c) && |table| >= CLIENTS
    requires forall q | q in numbers :: q < |states|
    ensures ClientListSafe(states, c, numbers, table)
       <==> forall q | q in numbers ::
              NoWrap(q, |states| - 1) || Used(ClientRecords(states[q])) == Used(ClientRecords(states[|states| - 1]))
  {
    hide EventsOk, OnlyLive, Counted, UniqueChannels, UniqueAddrs, SocketsOk, Live;
    hide ClientRecords, Safe, JustRequested, Used, ClientPageSent, FromAnswers;
    var snapshots := ClientSnapshots(states);
    var inFlight := numbers + {|states| - 1};
    forall p
      ensures ClientPageSent(states, c, inFlight, p) <==> FromAnswers(snapshots, CLIENTS_PER_PAGE, inFlight, p)
    {
      ClientPagesSent(states, c, inFlight, p);
    }
    ClientRecordsSize(states);
    SafeForIff(snapshots, CLIENTS_PER_PAGE, numbers, table);
  }

  lemma ClientRecordsSize(states: seq<State>)
    requires forall q | 0 <= q < |states| :: Shape(states[q])
    ensures forall q | 0 <= q < |states| :: |ClientSnapshots(states)[q].slots| == CLIENTS
  {
  }

  // ------------------------------------------------------------ channel lists

  function ChannelSnapshots(states: seq<State>): (snapshots: seq<Snapshot<ChannelInfo>>)
    requires forall q | 0 <= q < |states| :: Shape(states[q])
    ensures |snapshots| == |states|
  {
    seq(|states|, q requires 0 <= q < |states| => Snapshot(ChannelRecords(states[q]), states[q].channelCount))
  }

  // A page that the broker sends to the client for one of these requests.
  ghost predicate ChannelPageSent(states: seq<State>, c: ClientIx, numbers: set<nat>, p: Page<ChannelInfo>)
    requires forall q | 0 <= q < |states| :: Shape(states[q])
  {
    exists q :: q in numbers && q < |states| && Sent(c, ChannelPage(p)) in ChannelsListed(states[q], c, q % 256).out
  }

  lemma ChannelPagesSent(states: seq<State>, c: ClientIx, numbers: set<nat>, p: Page<ChannelInfo>)
    requires Answering(states, c)
    ensures ChannelPageSent(states, c, numbers, p)
       <==> FromAnswers(ChannelSnapshots(states), CHANNELS_PER_PAGE, numbers, p)
  {
    hide EventsOk, OnlyLive, Counted, UniqueChannels, UniqueAddrs, SocketsOk, Live;
    hide EmitAll, Response, ChannelRecords;
    forall q | 0 <= q < |states|
      ensures Sent(c, ChannelPage(p)) in ChannelsListed(states[q], c, q % 256).out
         <==> p in Answer(ChannelSnapshots(states), CHANNELS_PER_PAGE, q)
    {
      var pages := Answer(ChannelSnapshots(states), CHANNELS_PER_PAGE, q);
      EmitAllLive(states[q], c, ChannelPages(pages));
      var out := ChannelsListed(states[q], c, q % 256).out;
      assert forall k | 0 <= k < |pages| :: out[k] == Sent(c, ChannelPage(pages[k]));
    }
  }

  // Whatever arrives of what the broker sends for the last request and for
  // these earlier ones, in any order and any number of times.
  ghost predicate ChannelListSafe(states: seq<State>, c: ClientIx, numbers: set<nat>, table: seq<ChannelInfo>)
    requires Answering(states, c)
  {
    var last := |states| - 1;
    var list, inFlight := Used(ChannelRecords(states[last])), numbers + {last};
    forall r: Reader<ChannelInfo>, ps: seq<Page<ChannelInfo>> |
      r.table == table && JustRequested(r, last % 256)
      && (forall p | p in ps :: ChannelPageSent(states, c, inFlight, p))
      :: Safe(r, list, ps)
  }

  // Safe if and only if each of these earlier requests has another number, or
  // was answered with the same channels.
  lemma ChannelListSafeIff(states: seq<State>, c: ClientIx, numbers: set<nat>, table: seq<ChannelInfo>)
    requires Answering(states, c) && |table| >= CHANNELS
    requires forall q | q in numbers :: q < |states|
    ensures ChannelListSafe(states, c, numbers, table)
       <==> forall q | q in numbers ::
              NoWrap(q, |states| - 1) || Used(ChannelRecords(states[q])) == Used(ChannelRecords(states[|states| - 1]))
  {
    hide EventsOk, OnlyLive, Counted, UniqueChannels, UniqueAddrs, SocketsOk, Live;
    hide ChannelRecords, Safe, JustRequested, Used, ChannelPageSent, FromAnswers;
    var snapshots := ChannelSnapshots(states);
    var inFlight := numbers + {|states| - 1};
    forall p
      ensures ChannelPageSent(states, c, inFlight, p) <==> FromAnswers(snapshots, CHANNELS_PER_PAGE, inFlight, p)
    {
      ChannelPagesSent(states, c, inFlight, p);
    }
    ChannelRecordsSize(states);
    SafeForIff(snapshots, CHANNELS_PER_PAGE, numbers, table);
  }

  lemma ChannelRecordsSize(states: seq<State>)
    requires forall q | 0 <= q < |states| :: Shape(states[q])
    ensures forall q | 0 <= q < |states| :: |ChannelSnapshots(states)[q].slots| == CHANNELS
  {
  }
}
