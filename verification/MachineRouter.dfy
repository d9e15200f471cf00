/** The machine router (vb6/VLMMachineRouter/cMachineRouter.cls): it gives each transport a router id, keeps the
  * service directory, and passes messages on between transports. Its transports are numbered by
  * `VLMMMFileTransports`.
  */
module MachineRouter {
  import opened Wrappers
  import opened OrderedDictionary
  import opened IdString
  import opened Picking
  import MMFileTransport

  const MAX_LONG: int := 0x7FFF_FFFF
  type Integer = x: int | -0x8000 <= x < 0x8000

  /** Machine ids are Long, router and agent ids Integer. The router's own machine id is never assigned, so it is 0. */
  datatype Address = Address(machineId: int, routerId: Integer, agentId: Integer)

  const MY_MACHINE_ID: int := 0

  datatype Entry = Entry(service: string, address: Address, details: string)

  datatype Contents =
    | Empty
    | Number(n: int)
    | Registration(entry: Entry)
    | ServiceType(name: string)
    | Entries(entries: seq<Entry>)

  datatype Message = Message(from: Address, to: Address, messageId: int, requestId: int, subject: string,
      contents: Contents)

  const GET_ROUTER_ID := "GET_ROUTER_ID"
  const GET_ROUTER_ID_REPLY := "GET_ROUTER_ID_REPLY"
  const REGISTER_SERVICE := "REGISTER_SERVICE"
  const REGISTER_SERVICE_REPLY := "REGISTER_SERVICE_REPLY"
  const UNREGISTER_SERVICE := "UNREGISTER_SERVICE"
  const UNREGISTER_SERVICE_REPLY := "UNREGISTER_SERVICE_REPLY"
  const GET_SERVICES := "GET_SERVICES"
  const GET_SERVICES_REPLY := "GET_SERVICES_REPLY"

  function Reply(m: Message, subject: string, contents: Contents): Message {
    Message(m.to, m.from, 0, m.messageId, subject, contents)
  }

  /** What becomes of a message: sent on a transport, dropped, or an error is raised. */
  datatype Outcome = SentOn(transport: int, message: Message) | Dropped | Raised

  // ---------- the specification ----------

  /** `seed` is the last number given out. */
  datatype Transports = Transports(seed: int, live: set<int>)

  datatype Ids = Ids(seed: int, routerOf: map<int, int>, transportOf: map<int, int>)

  datatype Router = Router(transports: Transports, ids: Ids, entries: Dict<string, Entry>)

  datatype Event = NewTransport | TransportRemoved(id: int) | Arrived(id: int, message: Message)

  const NEW_ROUTER := Router(Transports(0, {}), Ids(1, map[], map[]), [])

  function EntryKey(e: Entry): Key {
    Key(e.service, e.address.machineId, e.address.routerId, e.address.agentId)
  }

  function Allocate(ids: Ids, transport: int): Option<Ids> {
    if transport in ids.routerOf then Some(ids)
    else if ids.seed >= MAX_LONG then None
    else
      var id := ids.seed + 1;
      Some(Ids(id, ids.routerOf[transport := id], ids.transportOf[id := transport]))
  }

  /** Contents that VB can assign to a string; a number is printed. */
  predicate IsFilter(filter: Contents) {
    filter.Empty? || filter.ServiceType? || filter.Number?
  }

  /** The service asked for, if any. */
  function ServiceAsked(filter: Contents): Option<string>
    requires IsFilter(filter)
  {
    match filter
    case Empty => None
    case ServiceType(name) => Some(name)
    case Number(n) => Some(IntString(n))
  }

  predicate Wanted(e: Entry, service: Option<string>) {
    service.Some? ==> e.service == service.value
  }

  /** The entries asked for, in the order of registration. */
  function Matching(es: seq<Entry>, service: Option<string>): seq<Entry> {
    if es == [] then [] else (if Wanted(es[0], service) then [es[0]] else []) + Matching(es[1..], service)
  }

  /** The service directory alone: what each request makes of it. */
  function Register(entries: Dict<string, Entry>, e: Entry): Dict<string, Entry> {
    Put(entries, DirectoryEntryIDString(EntryKey(e)), e)
  }

  function Unregister(entries: Dict<string, Entry>, e: Entry): Dict<string, Entry> {
    Remove(entries, DirectoryEntryIDString(EntryKey(e)))
  }

  function SendTo(r: Router, transport: int, m: Message): Outcome {
    if transport in r.transports.live then SentOn(transport, m) else Raised
  }

  function HandleMessage(r: Router, transport: int, m: Message): (Router, Outcome) {
    if m.subject == GET_ROUTER_ID then
      match Allocate(r.ids, transport)
      case None => (r, Raised)
      case Some(ids) =>
        var told := if transport in ids.routerOf then Number(ids.routerOf[transport]) else Empty;
        (r.(ids := ids), SendTo(r, transport, Reply(m, GET_ROUTER_ID_REPLY, told)))
    else if m.subject == REGISTER_SERVICE then
      if !m.contents.Registration? then (r, Raised)
      else (r.(entries := Register(r.entries, m.contents.entry)),
          SendTo(r, transport, Reply(m, REGISTER_SERVICE_REPLY, Empty)))
    else if m.subject == UNREGISTER_SERVICE then
      if !m.contents.Registration? then (r, Raised)
      else (r.(entries := Unregister(r.entries, m.contents.entry)),
          SendTo(r, transport, Reply(m, UNREGISTER_SERVICE_REPLY, Empty)))
    else if m.subject == GET_SERVICES then
      if !IsFilter(m.contents) then (r, Raised)
      else
        var es := Matching(Values(r.entries), ServiceAsked(m.contents));
        (r, SendTo(r, transport, Reply(m, GET_SERVICES_REPLY, if es == [] then Empty else Entries(es))))
    else (r, Dropped)
  }

  function Route(r: Router, m: Message): Outcome {
    if m.to.machineId != 0 && m.to.machineId != MY_MACHINE_ID then Dropped
    else if m.to.routerId in r.ids.transportOf then SendTo(r, r.ids.transportOf[m.to.routerId], m)
    else Dropped
  }

  predicate ForRouter(a: Address) {
    (a.machineId == MY_MACHINE_ID || a.machineId == 0) && a.routerId == 1 && a.agentId == 1
  }

  function Step(r: Router, event: Event): (Router, Outcome) {
    match event
    case NewTransport =>
      if r.transports.seed >= MAX_LONG then (r, Raised)
      else
        var id := r.transports.seed + 1;
        (r.(transports := Transports(id, r.transports.live + {id})), Dropped)
    case TransportRemoved(id) => (r.(transports := r.transports.(live := r.transports.live - {id})), Dropped)
    case Arrived(id, m) =>
      if id !in r.transports.live then (r, Dropped)      // its callback is gone
      else if ForRouter(m.to) then HandleMessage(r, id, m)
      else (r, Route(r, m))
  }

  function Run(r: Router, events: seq<Event>): Router
    decreases |events|
  {
    if events == [] then r else Run(Step(r, events[0]).0, events[1..])
  }

  // ---------- router ids ----------

  ghost predicate IdsOk(r: Router) {
    && r.transports.seed >= 0
    && (forall t | t in r.transports.live :: 1 <= t <= r.transports.seed)
    && r.ids.seed >= 1
    && (forall t | t in r.ids.routerOf ::
          && 1 <= t <= r.transports.seed
          && 2 <= r.ids.routerOf[t] <= r.ids.seed
          && r.ids.routerOf[t] in r.ids.transportOf && r.ids.transportOf[r.ids.routerOf[t]] == t)
    && (forall id | id in r.ids.transportOf ::
          && 2 <= id <= r.ids.seed
          && r.ids.transportOf[id] in r.ids.routerOf && r.ids.routerOf[r.ids.transportOf[id]] == id)
  }

  /** Numbers once given stay given. */
  ghost predicate Extends(r: Router, r': Router) {
    && r.transports.seed <= r'.transports.seed
    && (forall t | t in r.ids.routerOf :: t in r'.ids.routerOf && r'.ids.routerOf[t] == r.ids.routerOf[t])
    && (forall t | t in r'.transports.live :: t in r.transports.live || t > r.transports.seed)
  }

  lemma StepIds(r: Router, event: Event)
    requires IdsOk(r)
    ensures var r' := Step(r, event).0; IdsOk(r') && Extends(r, r')
  {
  }

  /** In every run the two dictionaries stay mutual inverses with ids from 2 to the seed, and a transport keeps its
    * number and its router id for ever: numbers are not reused even when a transport is removed. */
  lemma {:induction false} IdsThroughRun(r: Router, events: seq<Event>)
    requires IdsOk(r)
    ensures IdsOk(Run(r, events)) && Extends(r, Run(r, events))
    decreases |events|
  {
    if events != [] {
      StepIds(r, events[0]);
      IdsThroughRun(Step(r, events[0]).0, events[1..]);
    }
  }

  /** A message to agent 1 of router 1 of this machine: the machine router itself. */
  predicate Asks(m: Message, subject: string) {
    m.to == Address(0, 1, 1) && m.subject == subject
  }

  /** In every run a transport that is there has its message answered by the machine router itself if and only if it
    * is for agent 1 of router 1. Any other message changes nothing; it goes out, as it is, on the transport that
    * was told its router id, and on no other. */
  lemma OwnAddressExactly(events: seq<Event>, t: int, m: Message)
    requires t in Run(NEW_ROUTER, events).transports.live
    ensures var r := Run(NEW_ROUTER, events);
            var (r', outcome) := Step(r, Arrived(t, m));
            && (m.subject == GET_SERVICES && m.contents.Empty? ==>
                  (outcome.SentOn? && outcome.message.subject == GET_SERVICES_REPLY <==> m.to == Address(0, 1, 1)))
            && (m.to != Address(0, 1, 1) ==>
                  && r' == r
                  && (outcome.SentOn? <==>
                        m.to.machineId == 0 && exists u | u in r.transports.live && u in r.ids.routerOf ::
                          r.ids.routerOf[u] == m.to.routerId)
                  && (outcome.SentOn? ==>
                        outcome.message == m && outcome.transport in r.ids.routerOf &&
                        r.ids.routerOf[outcome.transport] == m.to.routerId))
  {
    IdsThroughRun(NEW_ROUTER, events);
  }

  /** The id that a transport is told is its own for good: in every continuation a second request gets the same id,
    * another transport a different one, and a message to that router id goes out on that transport as long as it
    * is there. */
  lemma AllocatedIdIsForGood(before: seq<Event>, t: int, ask: Message, later: seq<Event>, u: int, m: Message)
    requires var r := Run(NEW_ROUTER, before);
             && ask.to == Address(0, 1, 1) && ask.subject == GET_ROUTER_ID
             && t in r.transports.live && Step(r, Arrived(t, ask)).1 != Raised
    ensures var r := Run(NEW_ROUTER, before);
            var (r1, told) := Step(r, Arrived(t, ask));
            var r2 := Run(r1, later);
            && told.SentOn? && told.transport == t && told.message.to == ask.from && told.message.contents.Number?
            && told.message.requestId == ask.messageId && told.message.subject == GET_ROUTER_ID_REPLY
            && var id := told.message.contents.n;
            && (t in r2.transports.live ==> Step(r2, Arrived(t, ask)).1 == told)
            && (u in r2.transports.live && u != t ==>
                  var other := Step(r2, Arrived(u, ask)).1;
                  other == Raised || (other.SentOn? && other.transport == u && other.message.contents.Number? &&
                      other.message.contents.n != id))
            && (m.to.machineId == 0 && m.to.routerId == id && u in r2.transports.live ==>
                  Step(r2, Arrived(u, m)).1 == if t in r2.transports.live then SentOn(t, m) else Raised)
  {
    IdsThroughRun(NEW_ROUTER, before);
    var r := Run(NEW_ROUTER, before);
    StepIds(r, Arrived(t, ask));
    var r1 := Step(r, Arrived(t, ask)).0;
    IdsThroughRun(r1, later);
    var r2 := Run(r1, later);
    if u in r2.transports.live {
      StepIds(r2, Arrived(u, ask));
    }
  }

  /** What the machine router answers to a request with this subject: a reply under its own address, to the sender, with
    * the number of the request. */
  function AnswerTo(ask: Message, subject: string, contents: Contents): Message {
    Message(Address(0, 1, 1), ask.from, 0, ask.messageId, subject, contents)
  }

  /** Every request to the machine router from a transport that is there is answered on that transport, except that
    * no id is left after the largest Long, that contents are not what the request needs, or that the request is
    * none of the four. Nothing but the request's own business changes. */
  lemma RequestsAreAnswered(events: seq<Event>, t: int, ask: Message)
    requires ask.to == Address(0, 1, 1) && t in Run(NEW_ROUTER, events).transports.live
    ensures var r := Run(NEW_ROUTER, events);
            var (r', outcome) := Step(r, Arrived(t, ask));
            && r'.transports == r.transports
            && (ask.subject == "GET_ROUTER_ID" ==>
                  && r'.entries == r.entries
                  && if t !in r.ids.routerOf && r.ids.seed >= 2_147_483_647 then outcome == Raised && r' == r
                     else
                       && t in r'.ids.routerOf
                       && outcome == SentOn(t, AnswerTo(ask, "GET_ROUTER_ID_REPLY", Number(r'.ids.routerOf[t])))
                       && r'.ids.routerOf[t] == if t in r.ids.routerOf then r.ids.routerOf[t] else r.ids.seed + 1)
            && (ask.subject == "REGISTER_SERVICE" || ask.subject == "UNREGISTER_SERVICE" ==>
                  && r'.ids == r.ids
                  && if ask.contents.Registration? then
                       outcome == SentOn(t, AnswerTo(ask, ask.subject + "_REPLY", Empty))
                     else outcome == Raised && r' == r)
            && (ask.subject == "GET_SERVICES" ==>
                  && r' == r
                  && if ask.contents.Registration? || ask.contents.Entries? then outcome == Raised
                     else
                       && outcome.SentOn?
                       && (outcome.message.contents.Entries? ==> outcome.message.contents.entries != [])
                       && outcome == SentOn(t, AnswerTo(ask, "GET_SERVICES_REPLY", outcome.message.contents)))
            && (ask.subject !in {"GET_ROUTER_ID", "REGISTER_SERVICE", "UNREGISTER_SERVICE", "GET_SERVICES"} ==>
                  outcome == Dropped && r' == r)
  {
    assert "REGISTER_SERVICE" + "_REPLY" == REGISTER_SERVICE_REPLY;
    assert "UNREGISTER_SERVICE" + "_REPLY" == UNREGISTER_SERVICE_REPLY;
    SubjectsDiffer();
  }

  lemma SubjectsDiffer()
    ensures GET_ROUTER_ID != REGISTER_SERVICE && GET_ROUTER_ID != UNREGISTER_SERVICE && GET_ROUTER_ID != GET_SERVICES
    ensures REGISTER_SERVICE != UNREGISTER_SERVICE && REGISTER_SERVICE != GET_SERVICES
    ensures UNREGISTER_SERVICE != GET_SERVICES
  {
    assert GET_ROUTER_ID[0] == 'G' && REGISTER_SERVICE[0] == 'R' && UNREGISTER_SERVICE[0] == 'U';
    assert GET_SERVICES[0] == 'G' && GET_SERVICES[4] == 'S' && GET_ROUTER_ID[4] == 'R';
  }

  /** A transport gets the next number and is live, unless the number would not be a Long. */
  lemma TransportsAreNumbered(r: Router)
    ensures var (r', outcome) := Step(r, NewTransport);
            && r'.ids == r.ids && r'.entries == r.entries
            && if r.transports.seed >= 2_147_483_647 then outcome == Raised && r' == r
               else
                 outcome == Dropped && r'.transports.seed == r.transports.seed + 1 &&
                 r'.transports.live == r.transports.live + {r'.transports.seed}
  {
  }

  // ---------- the service directory ----------

  predicate Registers(r: Router, event: Event) {
    && event.Arrived? && event.id in r.transports.live
    && event.message.to == Address(0, 1, 1) && event.message.contents.Registration?
    && (event.message.subject == REGISTER_SERVICE || event.message.subject == UNREGISTER_SERVICE)
  }

  /** The directory as its users see it: what is registered under a service and an address. */
  ghost function PlainStep(m: map<Key, Entry>, r: Router, event: Event): map<Key, Entry> {
    if !Registers(r, event) then m
    else
      var e := event.message.contents.entry;
      if event.message.subject == REGISTER_SERVICE then m[EntryKey(e) := e] else m - {EntryKey(e)}
  }

  ghost function PlainRun(m: map<Key, Entry>, r: Router, events: seq<Event>): map<Key, Entry>
    decreases |events|
  {
    if events == [] then m else PlainRun(PlainStep(m, r, events[0]), Step(r, events[0]).0, events[1..])
  }

  /** The string-keyed entries are `d` with its keys printed, and `d` holds the map `m`. */
  ghost predicate Represents(entries: Dict<string, Entry>, d: Dict<Key, Entry>, m: map<Key, Entry>) {
    && entries == Rename(d, DirectoryEntryIDString)
    && Distinct(d) && AsMap(d) == m
    && forall k | k in m :: EntryKey(m[k]) == k
  }

  lemma PrintedKeysInjective()
    ensures Injective(DirectoryEntryIDString)
  {
    forall k, l ensures DirectoryEntryIDString(k) == DirectoryEntryIDString(l) ==> k == l {
      KeyInjective(k, l);
    }
  }

  lemma StepRepresents(r: Router, d: Dict<Key, Entry>, m: map<Key, Entry>, event: Event)
    requires Represents(r.entries, d, m)
    ensures exists d' :: Represents(Step(r, event).0.entries, d', PlainStep(m, r, event))
  {
    PrintedKeysInjective();
    var entries := Step(r, event).0.entries;
    if Registers(r, event) {
      var e := event.message.contents.entry;
      PutRenamed(d, DirectoryEntryIDString, EntryKey(e), e);
      PutIsUpdate(d, EntryKey(e), e);
      RemoveRenamed(d, DirectoryEntryIDString, EntryKey(e));
      RemoveIsRemoval(d, EntryKey(e));
      if event.message.subject == REGISTER_SERVICE {
        assert Represents(entries, Put(d, EntryKey(e), e), PlainStep(m, r, event));
      } else {
        assert Represents(entries, Remove(d, EntryKey(e)), PlainStep(m, r, event));
      }
    } else {
      assert Represents(entries, d, PlainStep(m, r, event));
    }
  }

  lemma {:induction false} RunRepresents(r: Router, d: Dict<Key, Entry>, m: map<Key, Entry>, events: seq<Event>)
    requires Represents(r.entries, d, m)
    ensures exists d' :: Represents(Run(r, events).entries, d', PlainRun(m, r, events))
    decreases |events|
  {
    if events != [] {
      StepRepresents(r, d, m, events[0]);
      var d1 :| Represents(Step(r, events[0]).0.entries, d1, PlainStep(m, r, events[0]));
      RunRepresents(Step(r, events[0]).0, d1, PlainStep(m, r, events[0]), events[1..]);
      var d2 :| Represents(Run(r, events).entries, d2, PlainRun(m, r, events));
    } else {
      assert Represents(Run(r, events).entries, d, PlainRun(m, r, events));
    }
  }

  lemma {:induction false} MatchingIs(es: seq<Entry>, service: Option<string>)
    ensures forall e :: e in Matching(es, service) <==> e in es && Wanted(e, service)
  {
    if es != [] {
      MatchingIs(es[1..], service);
      assert es == [es[0]] + es[1..];
    }
  }

  lemma {:induction false} ValuesOfMap(d: Dict<Key, Entry>, e: Entry)
    requires forall k | k in AsMap(d) :: EntryKey(AsMap(d)[k]) == k
    requires Distinct(d)
    ensures e in Values(d) <==> EntryKey(e) in AsMap(d) && AsMap(d)[EntryKey(e)] == e
  {
    if d != [] {
      DistinctCons(d);
      assert Values(d) == [d[0].1] + Values(d[1..]);
      assert d[0].0 in AsMap(d);
      forall k | k in AsMap(d[1..]) ensures EntryKey(AsMap(d[1..])[k]) == k {
        assert k in AsMap(d) && AsMap(d)[k] == AsMap(d[1..])[k];
      }
      ValuesOfMap(d[1..], e);
    }
  }

  /** What GET_SERVICES answers after any run is exactly what a map keyed by service and address would hold: the
    * printed keys never mix two entries up, and unregistering takes away only its own entry. */
  lemma ServicesAreTheRegistered(events: seq<Event>, t: int, ask: Message, e: Entry)
    requires var r := Run(NEW_ROUTER, events);
             && ask.to == Address(0, 1, 1) && ask.subject == GET_SERVICES
             && t in r.transports.live && IsFilter(ask.contents)
    ensures var r := Run(NEW_ROUTER, events);
            var m := PlainRun(map[], NEW_ROUTER, events);
            var answer := Step(r, Arrived(t, ask)).1;
            && answer.SentOn? && answer.transport == t && answer.message.to == ask.from
            && answer.message.requestId == ask.messageId && answer.message.subject == GET_SERVICES_REPLY
            && (answer.message.contents.Empty? || answer.message.contents.Entries?)
            && ((answer.message.contents.Entries? && e in answer.message.contents.entries) <==>
                  && EntryKey(e) in m && m[EntryKey(e)] == e
                  && (ask.contents.Empty? || (ask.contents.ServiceType? && e.service == ask.contents.name) ||
                      (ask.contents.Number? && e.service == IntString(ask.contents.n))))
  {
    var r := Run(NEW_ROUTER, events);
    var m := PlainRun(map[], NEW_ROUTER, events);
    assert Represents(NEW_ROUTER.entries, [], map[]);
    RunRepresents(NEW_ROUTER, [], map[], events);
    var d :| Represents(r.entries, d, m);
    assert Values(r.entries) == Values(d);
    ValuesOfMap(d, e);
    MatchingIs(Values(r.entries), ServiceAsked(ask.contents));
  }

  lemma {:induction false} MatchingPicks(es: seq<Entry>, service: Option<string>)
    ensures Picked(Matching(es, service), es, (e: Entry) => service.Some? ==> e.service == service.value)
  {
    if es == [] {
      assert PickedAt([], [], (e: Entry) => service.Some? ==> e.service == service.value, []);
    } else {
      assert es == [es[0]] + es[1..] && [] + Matching(es[1..], service) == Matching(es[1..], service);
      MatchingPicks(es[1..], service);
      PickedCons(Matching(es[1..], service), es[1..],
                 (e: Entry) => service.Some? ==> e.service == service.value, es[0]);
    }
  }

  /** The services are answered in the order in which the directory holds them. */
  lemma ServicesInOrder(r: Router, t: int, ask: Message, service: Option<string>)
    requires ask.to == Address(0, 1, 1) && ask.subject == GET_SERVICES && t in r.transports.live
    requires ask.contents == if service.None? then Empty else ServiceType(service.value)
    ensures var answer := Step(r, Arrived(t, ask)).1;
            && answer.SentOn?
            && Picked(if answer.message.contents.Entries? then answer.message.contents.entries else [],
                      Values(r.entries), (e: Entry) => service.Some? ==> e.service == service.value)
  {
    MatchingPicks(Values(r.entries), service);
  }

  /** Entry i of the directory is for this service at this address. */
  predicate HeldAt(es: seq<Entry>, i: int, e: Entry) {
    0 <= i < |es| && es[i].service == e.service && es[i].address == e.address
  }

  lemma {:induction false} KeysAreTheEntries(d: Dict<Key, Entry>)
    requires forall k | k in AsMap(d) :: EntryKey(AsMap(d)[k]) == k
    requires Distinct(d)
    ensures forall i | 0 <= i < |d| :: EntryKey(d[i].1) == d[i].0
  {
    if d != [] {
      DistinctCons(d);
      assert d[0].0 in AsMap(d);
      forall k | k in AsMap(d[1..]) ensures EntryKey(AsMap(d[1..])[k]) == k {
        assert k in AsMap(d) && AsMap(d)[k] == AsMap(d[1..])[k];
      }
      KeysAreTheEntries(d[1..]);
      assert forall i | 0 < i < |d| :: d[i] == d[1..][i - 1];
    }
  }

  /** Registering replaces the details of a service at its place, or adds it at the end; unregistering closes the
    * gap. */
  lemma RegisteringKeepsPlaces(events: seq<Event>, t: int, m: Message, i: int)
    requires var r := Run(NEW_ROUTER, events);
             m.to == Address(0, 1, 1) && m.contents.Registration? && t in r.transports.live
    ensures var r := Run(NEW_ROUTER, events);
            var (es, es', e) := (Values(r.entries), Values(Step(r, Arrived(t, m)).0.entries), m.contents.entry);
            && (m.subject == REGISTER_SERVICE ==>
                  (HeldAt(es, i, e) ==> es' == es[i := e]) &&
                  ((forall j :: !HeldAt(es, j, e)) ==> es' == es + [e]))
            && (m.subject == UNREGISTER_SERVICE ==>
                  (HeldAt(es, i, e) ==> es' == es[..i] + es[i + 1..]) &&
                  ((forall j :: !HeldAt(es, j, e)) ==> es' == es))
  {
    var r := Run(NEW_ROUTER, events);
    var e := m.contents.entry;
    assert Represents(NEW_ROUTER.entries, [], map[]);
    RunRepresents(NEW_ROUTER, [], map[], events);
    var d :| Represents(r.entries, d, PlainRun(map[], NEW_ROUTER, events));
    KeysAreTheEntries(d);
    PlacesKept(d, e, i);
    PrintedKeysInjective();
    PutRenamed(d, DirectoryEntryIDString, EntryKey(e), e);
    RemoveRenamed(d, DirectoryEntryIDString, EntryKey(e));
    ValuesRenamed(d);
    ValuesRenamed(Put(d, EntryKey(e), e));
    ValuesRenamed(Remove(d, EntryKey(e)));
  }

  lemma ValuesRenamed(d: Dict<Key, Entry>)
    ensures Values(Rename(d, DirectoryEntryIDString)) == Values(d)
  {
  }

  lemma PlacesKept(d: Dict<Key, Entry>, e: Entry, i: int)
    requires Distinct(d) && forall j | 0 <= j < |d| :: EntryKey(d[j].1) == d[j].0
    ensures var (es, put, removed) := (Values(d), Values(Put(d, EntryKey(e), e)), Values(Remove(d, EntryKey(e))));
            && (HeldAt(es, i, e) ==> put == es[i := e] && removed == es[..i] + es[i + 1..])
            && ((forall j :: !HeldAt(es, j, e)) ==> put == es + [e] && removed == es)
  {
    if HeldAt(Values(d), i, e) {
      PlaceHeld(d, e, i);
    }
    if forall j :: !HeldAt(Values(d), j, e) {
      PlaceFree(d, e);
    }
  }

  lemma PlaceHeld(d: Dict<Key, Entry>, e: Entry, i: int)
    requires Distinct(d) && 0 <= i < |d| && d[i].0 == EntryKey(e)
    ensures Values(Put(d, EntryKey(e), e)) == Values(d)[i := e]
    ensures Values(Remove(d, EntryKey(e))) == Values(d)[..i] + Values(d)[i + 1..]
  {
    PutInPlace(d, EntryKey(e), e);
    RemoveInPlace(d, EntryKey(e));
  }

  lemma PlaceFree(d: Dict<Key, Entry>, e: Entry)
    requires Distinct(d) && forall j | 0 <= j < |d| :: EntryKey(d[j].1) == d[j].0
    requires forall j :: !HeldAt(Values(d), j, e)
    ensures Values(Put(d, EntryKey(e), e)) == Values(d) + [e] && Values(Remove(d, EntryKey(e))) == Values(d)
  {
    PutInPlace(d, EntryKey(e), e);
    RemoveInPlace(d, EntryKey(e));
    AsMapHas(d, EntryKey(e));
    forall j | 0 <= j < |d| ensures d[j].0 != EntryKey(e) {
      assert !HeldAt(Values(d), j, e);
    }
  }

  // ---------- the classes ----------

  /** vb6/VLMessaging/VLMMMFileTransports.cls */
  class FileTransports {
    var idSeed: int
    var transports: map<int, MMFileTransport.FileTransport>

    function View(): Transports
      reads this
    {
      Transports(idSeed, transports.Keys)
    }

    constructor ()
      ensures View() == NEW_ROUTER.transports
    {
      idSeed, transports := 0, map[];
    }

    method AddTransport(t: MMFileTransport.FileTransport) returns (id: Option<int>)
      modifies this
      ensures old(idSeed) >= MAX_LONG ==> id == None && View() == old(View())
      ensures old(idSeed) < MAX_LONG ==>
                id == Some(old(idSeed) + 1) && idSeed == old(idSeed) + 1 &&
                    transports == old(transports)[old(idSeed) + 1 := t]
    {
      if idSeed >= MAX_LONG {
        return None;
      }
      idSeed := idSeed + 1;
      transports := transports[idSeed := t];
      id := Some(idSeed);
    }

    method RemoveTransport(id: int)
      modifies this
      ensures idSeed == old(idSeed) && transports == old(transports) - {id}
    {
      if id in transports {
        transports := transports - {id};
      }
    }
  }

  class RouterMachine {
    const transports: FileTransports
    var routerSeed: int
    var routerIdsByTransport: map<int, int>
    var transportIdsByRouter: map<int, int>
    var entriesByIdString: Dict<string, Entry>

    function View(): Router
      reads this, transports
    {
      Router(transports.View(), Ids(routerSeed, routerIdsByTransport, transportIdsByRouter), entriesByIdString)
    }

    constructor ()
      ensures View() == NEW_ROUTER && fresh(transports)
    {
      transports := new FileTransports();
      routerSeed, routerIdsByTransport, transportIdsByRouter, entriesByIdString := 1, map[], map[], [];
    }

    /** Sending on a transport that is gone raises "Object variable not set". */
    method SendOn(transport: int, m: Message) returns (outcome: Outcome)
      ensures outcome == SendTo(View(), transport, m)
    {
      outcome := if transport in transports.transports then SentOn(transport, m) else Raised;
    }

    method GetRouterId(transport: int, m: Message) returns (outcome: Outcome)
      requires m.subject == GET_ROUTER_ID
      modifies this
      ensures (View(), outcome) == HandleMessage(old(View()), transport, m)
    {
      var routerId;
      if transport in routerIdsByTransport {
        routerId := routerIdsByTransport[transport];
      } else {
        if routerSeed >= MAX_LONG {
          return Raised;
        }
        routerSeed := routerSeed + 1;
        routerId := routerSeed;
        routerIdsByTransport := routerIdsByTransport[transport := routerId];
        transportIdsByRouter := transportIdsByRouter[routerId := transport];
      }
      outcome := SendOn(transport, Reply(m, GET_ROUTER_ID_REPLY, Number(routerId)));
    }

    method GetServices(service: Option<string>) returns (found: seq<Entry>)
      ensures found == Matching(Values(entriesByIdString), service)
    {
      var vs := Values(entriesByIdString);
      found := [];
      var i := 0;
      while i < |vs|
        invariant 0 <= i <= |vs|
        invariant found + Matching(vs[i..], service) == Matching(vs, service)
      {
        if Wanted(vs[i], service) {
          found := found + [vs[i]];
        }
        assert vs[i..][1..] == vs[i + 1..];
        i := i + 1;
      }
      assert vs[i..] == [];
    }

    method HandleMessageToRouter(transport: int, m: Message) returns (outcome: Outcome)
      modifies this
      ensures (View(), outcome) == HandleMessage(old(View()), transport, m)
    {
      if m.subject == GET_ROUTER_ID {
        outcome := GetRouterId(transport, m);
      } else if m.subject == REGISTER_SERVICE {
        if !m.contents.Registration? {
          return Raised;
        }
        entriesByIdString := Put(entriesByIdString, DirectoryEntryIDString(EntryKey(m.contents.entry)),
            m.contents.entry);
        outcome := SendOn(transport, Reply(m, REGISTER_SERVICE_REPLY, Empty));
      } else if m.subject == UNREGISTER_SERVICE {
        if !m.contents.Registration? {
          return Raised;
        }
        entriesByIdString := Remove(entriesByIdString, DirectoryEntryIDString(EntryKey(m.contents.entry)));
        outcome := SendOn(transport, Reply(m, UNREGISTER_SERVICE_REPLY, Empty));
      } else if m.subject == GET_SERVICES {
        if !IsFilter(m.contents) {
          return Raised;
        }
        var found := GetServices(ServiceAsked(m.contents));
        outcome := SendOn(transport, Reply(m, GET_SERVICES_REPLY, if found == [] then Empty else Entries(found)));
      } else {
        outcome := Dropped;
      }
    }

    method RouteMessage(m: Message) returns (outcome: Outcome)
      ensures outcome == Route(View(), m)
    {
      outcome := Dropped;
      if m.to.machineId != 0 && m.to.machineId != MY_MACHINE_ID {
        // routing to a remote machine is not written yet
      } else if m.to.routerId in transportIdsByRouter {
        outcome := SendOn(transportIdsByRouter[m.to.routerId], m);
      }
    }

    method BytesArrived(id: int, m: Message) returns (outcome: Outcome)
      requires id in transports.transports
      modifies this
      ensures (View(), outcome) == Step(old(View()), Arrived(id, m))
    {
      if ForRouter(m.to) {
        outcome := HandleMessageToRouter(id, m);
      } else {
        outcome := RouteMessage(m);
      }
    }
  }
}
