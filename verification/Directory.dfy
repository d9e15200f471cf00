/** The directory of a router (py/vlmessaging/_core.py: Directory.msgArrived, _heartbeatEntries, and the sharing in
  * _ensureNetworkImpl). */
module Directory {
  import opened Wrappers
  import opened Messaging
  import opened Picking

  const LOCAL_VNET := "local"

  datatype Entry = Entry(addr: Addr, service: string, params: string, vnets: Option<seq<string>>,
                         perms: Option<seq<string>>)

  /** What an entry is known by. */
  datatype Key = Key(addr: Addr, service: string, params: string)

  function KeyOf(e: Entry): Key {
    Key(e.addr, e.service, e.params)
  }

  /** An entry as it comes over the wire: Entry.fromSeq raises, or takes no permissions at all for an empty list. */
  datatype Wire = Malformed | Item(e: Entry)

  function FromSeq(w: Wire): Option<Entry> {
    if w.Malformed? then None else Some(w.e.(perms := if w.e.perms == Some([]) then None else w.e.perms))
  }

  datatype Body =
    | Register(entry: Entry)
    | UnregisterEntry(entry: Entry)
    | UnregisterAddr(addr: Addr)
    | GetEntries(service: string)
    | ShareEntries(wire: seq<Wire>)
    | GetVnets(vnets: seq<string>)
    | ToldBadEntries
    | Other

  /** What the directory reads of a message; an empty service asks for everything, and only the answer to GET_VNETS has
    * vnets. `toNEp` is the network endpoint that it was sent to. */
  datatype Incoming = Incoming(replyAddr: Option<Addr>, isReply: bool, body: Body, toNEp: Option<string> := None)

  datatype Answer =
    | Done
    | Found(entries: seq<Entry>)
    | Shared(entries: seq<Entry>)
    | BadEntries
    | Silence
    | Vnets(vnets: seq<string>)
    | Raised
    | Instructions

  /** `vnets` are the directory's own and `vnetsByHub` those that network hubs have told it. */
  datatype State = State(entries: seq<Entry>, potentiallyStale: set<Addr>, vnets: seq<string>,
                         vnetsByHub: map<Option<string>, seq<string>>)

  function NewDirectory(vnets: seq<string>): State {
    State([], {}, vnets, map[])
  }

  // ---------- the operations ----------

  predicate Has(entries: seq<Entry>, key: Key) {
    exists e | e in entries :: KeyOf(e) == key
  }

  function Added(entries: seq<Entry>, e: Entry): seq<Entry> {
    if Has(entries, KeyOf(e)) then entries else entries + [e]
  }

  function Merged(entries: seq<Entry>, more: seq<Entry>): seq<Entry>
    decreases |more|
  {
    if more == [] then entries else Merged(Added(entries, more[0]), more[1..])
  }

  /** The conditions by which the source picks entries. */
  datatype Condition =
    | IsNot(entry: Entry)
    | NotAt(addr: Addr)
    | NotAmong(addrs: set<Addr>)
    | Offers(service: string)
    | HasVnets

  predicate Meets(e: Entry, c: Condition) {
    match c
    case IsNot(entry) => e != entry
    case NotAt(addr) => e.addr != addr
    case NotAmong(addrs) => e.addr !in addrs
    case Offers(service) => e.service == service
    case HasVnets => e.vnets.Some?
  }

  function Where(entries: seq<Entry>, c: Condition): seq<Entry> {
    if entries == [] then [] else (if Meets(entries[0], c) then [entries[0]] else []) + Where(entries[1..], c)
  }

  function Parsed(wire: seq<Wire>): Option<seq<Entry>> {
    if wire == [] then Some([])
    else
      var (first, rest) := (FromSeq(wire[0]), Parsed(wire[1..]));
      if first.None? || rest.None? then None else Some([first.value] + rest.value)
  }

  /** _anyIn */
  predicate AnyIn(xs: seq<string>, ys: seq<string>) {
    exists x | x in xs :: x in ys
  }

  /** An own entry in one of the vnets. */
  predicate GoesToHub(e: Entry, vnets: seq<string>) {
    e.vnets.Some? && AnyIn(e.vnets.value, vnets) && e.addr.nEp.None?
  }

  /** An entry under the address by which a network hub knows this router. */
  function Readdressed(e: Entry, toNEp: Option<string>): Entry {
    e.(addr := e.addr.(nEp := toNEp))
  }

  /** What is shared with a network hub: own entries in own vnets, under the address by which the hub knows this router.
    * An entry without vnets raises an error. */
  function NetworkShare(entries: seq<Entry>, vnets: seq<string>, toNEp: Option<string>): Option<seq<Entry>> {
    if entries == [] then Some([])
    else if entries[0].vnets.None? then None
    else
      var (e, rest) := (entries[0], NetworkShare(entries[1..], vnets, toNEp));
      if rest.None? then None
      else if GoesToHub(e, vnets) then Some([Readdressed(e, toNEp)] + rest.value)
      else rest
  }

  /** The answer to a share that was merged. */
  function ShareAnswer(d: State, m: Incoming): Answer {
    if m.isReply then Silence
    else if m.replyAddr.None? then Answer.Raised
    else if m.replyAddr.value.nEp.Some? then
      var shared := NetworkShare(d.entries, d.vnets, m.toNEp);
      if shared.None? then Answer.Raised else Shared(shared.value)
    else Shared(Where(d.entries, HasVnets))
  }

  function MsgArrived(d: State, m: Incoming): (State, Answer) {
    var d1 := d.(potentiallyStale := if m.replyAddr.Some? then d.potentiallyStale - {m.replyAddr.value}
          else d.potentiallyStale);
    match m.body
    case Register(e) => (d1.(entries := Added(d.entries, e)), Done)
    case UnregisterEntry(e) => (d1.(entries := Where(d.entries, IsNot(e))), Done)
    case UnregisterAddr(a) => (d1.(entries := Where(d.entries, NotAt(a))), Done)
    case GetEntries(service) =>
      (d1, Found(if service == "" then d.entries else Where(d.entries, Offers(service))))
    case ShareEntries(wire) =>
      var parsed := Parsed(wire);
      if parsed.None? then (d1, BadEntries)
      else
        var d2 := d1.(entries := Merged(d.entries, parsed.value));
        (d2, ShareAnswer(d2, m))
    case GetVnets(vnets) =>
      if !m.isReply then (d1, Vnets(d.vnets))
      else if m.replyAddr.None? then (d1, Answer.Raised)
      else (d1.(vnetsByHub := d.vnetsByHub[m.replyAddr.value.nEp := vnets]), Silence)
    case ToldBadEntries => (d1, Silence)
    case Other => (d1, Instructions)
  }

  /** What a router shares with its machine hub: the list is made in one go, and entries without vnets break it. */
  function EntriesToShare(entries: seq<Entry>): Option<seq<Entry>> {
    if entries == [] then Some([])
    else if entries[0].vnets.None? then None
    else
      var rest := EntriesToShare(entries[1..]);
      if rest.None? then None
      else Some((if LOCAL_VNET in entries[0].vnets.value then [entries[0]] else []) + rest.value)
  }

  function Addrs(entries: seq<Entry>): set<Addr> {
    set e | e in entries :: e.addr
  }

  /** The addresses that are asked to answer are those in the new `potentiallyStale`. */
  function Heartbeat(d: State): State {
    var entries := Where(d.entries, NotAmong(d.potentiallyStale));
    d.(entries := entries, potentiallyStale := Addrs(entries))
  }

  datatype Event = Message(m: Incoming) | Beat

  function Step(d: State, e: Event): State {
    match e
    case Message(m) => MsgArrived(d, m).0
    case Beat => Heartbeat(d)
  }

  /** The state after the events, from a new directory. */
  function After(vnets: seq<string>, events: seq<Event>): State {
    if events == [] then NewDirectory(vnets) else Step(After(vnets, events[..|events| - 1]), events[|events| - 1])
  }

  // ---------- keys ----------

  function Keys(entries: seq<Entry>): set<Key> {
    set e | e in entries :: KeyOf(e)
  }

  predicate Unique(entries: seq<Entry>) {
    forall i, j | 0 <= i < j < |entries| :: KeyOf(entries[i]) != KeyOf(entries[j])
  }

  lemma {:induction false} WhereIs(entries: seq<Entry>, c: Condition)
    ensures forall e :: e in Where(entries, c) <==> e in entries && Meets(e, c)
    ensures Unique(entries) ==> Unique(Where(entries, c))
  {
    if entries != [] {
      var (first, rest) := (entries[0], entries[1..]);
      assert entries == [first] + rest;
      WhereIs(rest, c);
      if Unique(entries) {
        assert forall i | 0 <= i < |rest| :: rest[i] == entries[i + 1];
        forall e | e in Where(rest, c) ensures KeyOf(e) != KeyOf(first) {
          assert e in rest;
        }
      }
    }
  }

  /** Filtering with a condition that everything meets. */
  lemma {:induction false} WhereAll(entries: seq<Entry>, c: Condition)
    requires forall e | e in entries :: Meets(e, c)
    ensures Where(entries, c) == entries
  {
    if entries != [] {
      assert entries == [entries[0]] + entries[1..];
      WhereAll(entries[1..], c);
    }
  }

  lemma AddedIs(entries: seq<Entry>, e: Entry)
    ensures entries <= Added(entries, e) && Keys(Added(entries, e)) == Keys(entries) + {KeyOf(e)}
    ensures Unique(entries) ==> Unique(Added(entries, e))
  {
    var after := Added(entries, e);
    if after != entries {
      assert forall x :: x in after <==> x in entries || x == e;
      assert e in after;
    }
  }

  /** Merging adds what is new at the end, by key, and leaves what is there as it is. */
  lemma {:induction false} MergedIs(entries: seq<Entry>, more: seq<Entry>)
    ensures entries <= Merged(entries, more) && Keys(Merged(entries, more)) == Keys(entries) + Keys(more)
    ensures Unique(entries) ==> Unique(Merged(entries, more))
    ensures forall e | e in Merged(entries, more) :: e in entries || e in more
    decreases |more|
  {
    if more != [] {
      assert more == [more[0]] + more[1..];
      AddedIs(entries, more[0]);
      MergedIs(Added(entries, more[0]), more[1..]);
      assert Keys(more) == {KeyOf(more[0])} + Keys(more[1..]);
    }
  }

  lemma StepKeepsUnique(d: State, e: Event)
    requires Unique(d.entries)
    ensures Unique(Step(d, e).entries)
  {
    match e {
      case Beat => WhereIs(d.entries, NotAmong(d.potentiallyStale));
      case Message(m) =>
        match m.body {
          case Register(x) => AddedIs(d.entries, x);
          case UnregisterEntry(y) => WhereIs(d.entries, IsNot(y));
          case UnregisterAddr(a) => WhereIs(d.entries, NotAt(a));
          case ShareEntries(wire) => if Parsed(wire).Some? { MergedIs(d.entries, Parsed(wire).value); }
          case _ =>
        }
    }
  }

  /** In every run of a directory no two entries have the same address, service and parameters. */
  lemma {:induction false} KeysStayUnique(vnets: seq<string>, events: seq<Event>)
    ensures Unique(After(vnets, events).entries)
  {
    if events != [] {
      var n := |events| - 1;
      KeysStayUnique(vnets, events[..n]);
      StepKeepsUnique(After(vnets, events[..n]), events[n]);
    }
  }

  /** Registering and sharing only append: what was there stays in place and unchanged. A share with one malformed entry
    * changes nothing, and otherwise everything that was shared is known afterwards. */
  lemma RegisterAndShareOnlyAppend(d: State, m: Incoming)
    requires m.body.Register? || m.body.ShareEntries?
    ensures var d' := MsgArrived(d, m).0;
            && d.entries <= d'.entries
            && Keys(d'.entries) == Keys(d.entries) +
                 if m.body.Register? then {KeyOf(m.body.entry)}
                 else if Malformed in m.body.wire then {} else set w | w in m.body.wire :: KeyOf(w.e)
  {
    match m.body {
      case Register(e) => AddedIs(d.entries, e);
      case ShareEntries(wire) =>
        ParsedIs(wire);
        if Malformed in wire {
          assert Keys(d.entries) + {} == Keys(d.entries);
        } else {
          MergedIs(d.entries, Parsed(wire).value);
        }
    }
  }

  lemma {:induction false} ParsedIs(wire: seq<Wire>)
    ensures Parsed(wire).None? <==> Malformed in wire
    ensures Parsed(wire).Some? ==> Keys(Parsed(wire).value) == set w | w in wire :: KeyOf(w.e)
  {
    if wire != [] {
      ParsedIs(wire[1..]);
      assert wire == [wire[0]] + wire[1..];
      if Parsed(wire).Some? {
        var (first, rest) := (FromSeq(wire[0]).value, Parsed(wire[1..]).value);
        assert Keys([first] + rest) == {KeyOf(first)} + Keys(rest);
      }
    }
  }

  /** A share is answered with a share at most if it is no answer itself, so sharing stops after one exchange. A machine
    * router gets every entry with vnets; a network hub gets the router's own entries in its vnets, re-addressed. */
  lemma ShareRepliesEndTheExchange(d: State, m: Incoming)
    ensures var (d', answer) := MsgArrived(d, m);
            answer.Shared? ==>
              && m.body.ShareEntries? && !m.isReply && m.replyAddr.Some?
              && forall e :: e in answer.entries <==>
                   if m.replyAddr.value.nEp.None? then e in d'.entries && e.vnets.Some?
                   else exists own | own in d'.entries :: GoesToHub(own, d.vnets) && e == Readdressed(own, m.toNEp)
    ensures m.body.ShareEntries? && m.isReply ==> MsgArrived(d, m).1 in {Silence, BadEntries}
  {
    var d' := MsgArrived(d, m).0;
    WhereIs(d'.entries, HasVnets);
    forall e { NetworkShareIs(d'.entries, d.vnets, m.toNEp, e); }
  }

  lemma {:induction false} NetworkShareIs(entries: seq<Entry>, vnets: seq<string>, toNEp: Option<string>, e: Entry)
    ensures var shared := NetworkShare(entries, vnets, toNEp);
            && (shared.None? <==> exists x | x in entries :: x.vnets.None?)
            && (shared.Some? ==>
                  (e in shared.value <==> exists x | x in entries :: GoesToHub(x, vnets) && e == Readdressed(x, toNEp)))
  {
    if entries != [] {
      var (first, rest) := (entries[0], entries[1..]);
      NetworkShareIs(rest, vnets, toNEp, e);
      assert entries == [first] + rest;
      assert first in entries && forall x | x in rest :: x in entries;
      assert forall x | x in entries :: x == first || x in rest;
    }
  }

  // ---------- what is answered, and what stays ----------

  lemma {:induction false} WherePicks(entries: seq<Entry>, c: Condition, qualifies: Entry -> bool)
    requires forall e | e in entries :: Meets(e, c) <==> qualifies(e)
    ensures Picked(Where(entries, c), entries, qualifies)
  {
    if entries == [] {
      assert PickedAt([], [], qualifies, []);
    } else {
      assert entries == [entries[0]] + entries[1..];
      WherePicks(entries[1..], c, qualifies);
      PickedCons(Where(entries[1..], c), entries[1..], qualifies, entries[0]);
      assert entries[0] in entries && [] + Where(entries[1..], c) == Where(entries[1..], c);
    }
  }

  /** Asking for a service finds exactly the entries of that service, and asking for none finds all, in the order in
    * which they were registered; asking changes nothing. */
  lemma AnswersAreTheService(d: State, m: Incoming, service: string)
    requires m.body == GetEntries(service)
    ensures var (d', answer) := MsgArrived(d, m);
            && answer.Found? && d'.entries == d.entries
            && Picked(answer.entries, d.entries, (e: Entry) => service == "" || e.service == service)
            && forall e :: e in answer.entries <==> e in d.entries && (service == "" || e.service == service)
  {
    if service == "" {
      WhereAll(d.entries, NotAmong({}));
      WherePicks(d.entries, NotAmong({}), (e: Entry) => service == "" || e.service == service);
    } else {
      WherePicks(d.entries, Offers(service), (e: Entry) => service == "" || e.service == service);
      WhereIs(d.entries, Offers(service));
    }
  }

  /** Unregistering an address drops exactly the entries with that address, and the others keep their order. */
  lemma UnregisterAddrIs(d: State, m: Incoming, addr: Addr)
    requires m.body == UnregisterAddr(addr)
    ensures var (d', answer) := MsgArrived(d, m);
            && answer == Done && Picked(d'.entries, d.entries, (e: Entry) => e.addr != addr)
            && forall e :: e in d'.entries <==> e in d.entries && e.addr != addr
  {
    WherePicks(d.entries, NotAt(addr), (e: Entry) => e.addr != addr);
    WhereIs(d.entries, NotAt(addr));
  }

  /** Unregistering an entry drops exactly that entry: another one under the same key stays. */
  lemma UnregisterEntryIs(d: State, m: Incoming, entry: Entry)
    requires m.body == UnregisterEntry(entry)
    ensures var (d', answer) := MsgArrived(d, m);
            && answer == Done && Picked(d'.entries, d.entries, (e: Entry) => e != entry)
            && forall e :: e in d'.entries <==> e in d.entries && e != entry
  {
    WherePicks(d.entries, IsNot(entry), (e: Entry) => e != entry);
    WhereIs(d.entries, IsNot(entry));
  }

  /** Registering puts the entry last, unless its address, service and parameters are registered already. */
  lemma RegisterIs(d: State, m: Incoming, entry: Entry)
    requires m.body == Register(entry)
    ensures var (d', answer) := MsgArrived(d, m);
            && answer == Done
            && (d'.entries == d.entries + [entry] || d'.entries == d.entries)
            && (d'.entries == d.entries <==>
                  exists e | e in d.entries ::
                    e.addr == entry.addr && e.service == entry.service && e.params == entry.params)
  {
    var same := d.entries + [entry];
    assert |same| != |d.entries|;
    if e :| e in d.entries && e.addr == entry.addr && e.service == entry.service && e.params == entry.params {
      assert KeyOf(e) == KeyOf(entry);
    }
  }

  /** A heartbeat drops exactly the entries at addresses that have not been heard of, keeps the order of the others, and
    * asks all of their addresses. */
  lemma HeartbeatIs(d: State)
    ensures var d' := Step(d, Beat);
            && Picked(d'.entries, d.entries, (e: Entry) => e.addr !in d.potentiallyStale)
            && forall a :: a in d'.potentiallyStale <==> exists e | e in d'.entries :: e.addr == a
  {
    WherePicks(d.entries, NotAmong(d.potentiallyStale), (e: Entry) => e.addr !in d.potentiallyStale);
  }

  lemma MachineShareAnswer(d: State, m: Incoming)
    requires m.body.ShareEntries? && !m.isReply && Malformed !in m.body.wire
    requires m.replyAddr.Some? && m.replyAddr.value.nEp.None?
    ensures var (d', answer) := MsgArrived(d, m); answer == Shared(Where(d'.entries, HasVnets))
  {
    ParsedIs(m.body.wire);
  }

  /** A share from a router of this machine is answered with the entries that have vnets, in order. */
  lemma SharedInOrder(d: State, m: Incoming)
    requires m.body.ShareEntries? && !m.isReply && Malformed !in m.body.wire
    requires m.replyAddr.Some? && m.replyAddr.value.nEp.None?
    ensures var (d', answer) := MsgArrived(d, m);
            answer.Shared? && Picked(answer.entries, d'.entries, (e: Entry) => e.vnets.Some?)
  {
    MachineShareAnswer(d, m);
    var entries := MsgArrived(d, m).0.entries;
    WherePicks(entries, HasVnets, (e: Entry) => e.vnets.Some?);
  }

  /** An entry as it is taken from the wire: an empty list of permissions is none. */
  predicate TakenFrom(e: Entry, w: Wire) {
    w.Item? && e == Entry(w.e.addr, w.e.service, w.e.params, w.e.vnets,
                          if w.e.perms.Some? && w.e.perms.value == [] then None else w.e.perms)
  }

  lemma {:induction false} ParsedTakes(wire: seq<Wire>)
    requires Parsed(wire).Some?
    ensures |Parsed(wire).value| == |wire| && forall i | 0 <= i < |wire| :: TakenFrom(Parsed(wire).value[i], wire[i])
  {
    if wire != [] {
      ParsedTakes(wire[1..]);
    }
  }

  /** What a share adds has come with it, unchanged. */
  lemma SharedEntriesAreTaken(d: State, m: Incoming, e: Entry)
    requires m.body.ShareEntries? && e in MsgArrived(d, m).0.entries
    ensures e in d.entries || exists w | w in m.body.wire :: TakenFrom(e, w)
  {
    var parsed := Parsed(m.body.wire);
    if parsed.Some? && e !in d.entries {
      MergedIs(d.entries, parsed.value);
      ParsedTakes(m.body.wire);
      var i :| 0 <= i < |parsed.value| && parsed.value[i] == e;
      assert TakenFrom(e, m.body.wire[i]);
    }
  }

  /** Registering and unregistering the same entry is the identity, unless the entry itself was there before; under
    * another entry's key it is not even noticed. */
  lemma UnregisterUndoesRegister(d: State, e: Entry, replyAddr: Option<Addr>)
    ensures var d1 := MsgArrived(d, Incoming(replyAddr, false, Register(e))).0;
            var d2 := MsgArrived(d1, Incoming(replyAddr, false, UnregisterEntry(e))).0;
            d2.entries == d.entries <==> e !in d.entries
  {
    var added := Added(d.entries, e);
    WhereIs(added, IsNot(e));
    if e !in d.entries {
      WhereAll(d.entries, IsNot(e));
      WhereAppend(d.entries, [e], IsNot(e));
      assert d.entries + [] == d.entries;
    }
  }

  lemma {:induction false} WhereAppend(a: seq<Entry>, b: seq<Entry>, c: Condition)
    ensures Where(a + b, c) == Where(a, c) + Where(b, c)
  {
    if a == [] {
      assert a + b == b;
    } else {
      assert (a + b)[1..] == a[1..] + b && (a + b)[0] == a[0];
      WhereAppend(a[1..], b, c);
      var first := if Meets(a[0], c) then [a[0]] else [];
      assert Where(a + b, c) == first + (Where(a[1..], c) + Where(b, c));
      assert first + (Where(a[1..], c) + Where(b, c)) == (first + Where(a[1..], c)) + Where(b, c);
    }
  }

  /** A router shares exactly its entries for the local vnet, and it stops sharing at all exactly when one of its
    * entries was registered without vnets. */
  lemma {:induction false} SharingStopsExactly(entries: seq<Entry>)
    ensures EntriesToShare(entries).None? <==> exists e | e in entries :: e.vnets.None?
    ensures EntriesToShare(entries).Some? ==>
              forall e :: e in EntriesToShare(entries).value <==>
                  e in entries && e.vnets.Some? && "local" in e.vnets.value
  {
    if entries != [] {
      SharingStopsExactly(entries[1..]);
      assert entries == [entries[0]] + entries[1..];
    }
  }

  /** What is shared keeps the order of the entries. */
  lemma {:induction false} EntriesToShareInOrder(entries: seq<Entry>)
    requires EntriesToShare(entries).Some?
    ensures Picked(EntriesToShare(entries).value, entries, (e: Entry) => e.vnets.Some? && "local" in e.vnets.value)
  {
    if entries == [] {
      assert PickedAt([], [], (e: Entry) => e.vnets.Some? && "local" in e.vnets.value, []);
    } else {
      var rest := EntriesToShare(entries[1..]).value;
      assert entries == [entries[0]] + entries[1..] && [] + rest == rest;
      EntriesToShareInOrder(entries[1..]);
      PickedCons(rest, entries[1..], (e: Entry) => e.vnets.Some? && "local" in e.vnets.value, entries[0]);
    }
  }

  /** An own entry in a vnet of ours. */
  ghost predicate OwnInVnet(e: Entry, vnets: seq<string>) {
    e.addr.nEp.None? && e.vnets.Some? && exists v :: v in e.vnets.value && v in vnets
  }

  /** The same entries, with nothing but the network endpoint of their addresses changed. */
  predicate Moved(shared: seq<Entry>, own: seq<Entry>, toNEp: Option<string>) {
    && |shared| == |own|
    && forall i | 0 <= i < |own| ::
         shared[i] == Entry(Addr(toNEp, own[i].addr.mEp, own[i].addr.rEp), own[i].service, own[i].params, own[i].vnets,
                            own[i].perms)
  }

  lemma GoesToHubIs(e: Entry, vnets: seq<string>)
    ensures GoesToHub(e, vnets) <==> OwnInVnet(e, vnets)
  {
  }

  lemma MovedCons(shared: seq<Entry>, own: seq<Entry>, toNEp: Option<string>, e: Entry)
    requires Moved(shared, own, toNEp)
    ensures Moved([Readdressed(e, toNEp)] + shared, [e] + own, toNEp)
  {
  }

  /** A network hub is given the own entries that are in our vnets, in order, under the address it knows us by. */
  lemma {:induction false} NetworkShareInOrder(entries: seq<Entry>, vnets: seq<string>, toNEp: Option<string>)
    returns (own: seq<Entry>)
    requires NetworkShare(entries, vnets, toNEp).Some?
    ensures var shared := NetworkShare(entries, vnets, toNEp).value;
            Picked(own, entries, e => OwnInVnet(e, vnets)) && Moved(shared, own, toNEp)
  {
    if entries == [] {
      own := [];
      assert PickedAt([], [], e => OwnInVnet(e, vnets), []);
    } else {
      assert entries == [entries[0]] + entries[1..];
      var rest := NetworkShareInOrder(entries[1..], vnets, toNEp);
      PickedCons(rest, entries[1..], e => OwnInVnet(e, vnets), entries[0]);
      GoesToHubIs(entries[0], vnets);
      MovedCons(NetworkShare(entries[1..], vnets, toNEp).value, rest, toNEp, entries[0]);
      own := if OwnInVnet(entries[0], vnets) then [entries[0]] + rest else rest;
    }
  }

  /** Which answer a message gets: a share with a malformed entry is refused as a whole; what cannot be computed raises;
    * other directories' answers get none; and what is no business of a directory's is left to its list. */
  lemma AnswersExactly(d: State, m: Incoming)
    ensures var (d', answer) := MsgArrived(d, m);
            var spoilt := m.body.ShareEntries? && Malformed in m.body.wire;
            && (answer == BadEntries <==> spoilt)
            && (spoilt ==> d'.entries == d.entries && d'.vnetsByHub == d.vnetsByHub)
            && (answer == Answer.Raised <==>
                  || (m.body.GetVnets? && m.isReply && m.replyAddr.None?)
                  || (m.body.ShareEntries? && !spoilt && !m.isReply &&
                        (m.replyAddr.None? ||
                           (m.replyAddr.value.nEp.Some? && exists e | e in d'.entries :: e.vnets.None?))))
            && (answer == Silence <==>
                  || m.body.ToldBadEntries? || (m.body.ShareEntries? && !spoilt && m.isReply)
                  || (m.body.GetVnets? && m.isReply && m.replyAddr.Some?))
            && (answer == Instructions <==> m.body.Other?)
            && (answer.Vnets? <==> m.body.GetVnets? && !m.isReply) && (answer.Vnets? ==> answer.vnets == d.vnets)
            && (m.body.Other? || m.body.ToldBadEntries? || m.body.GetVnets? ==> d'.entries == d.entries)
  {
    var d' := MsgArrived(d, m).0;
    if m.body.ShareEntries? {
      ParsedIs(m.body.wire);
    }
    SharedUnlessNoVnets(d'.entries, d.vnets, m.toNEp);
  }

  lemma SharedUnlessNoVnets(entries: seq<Entry>, vnets: seq<string>, toNEp: Option<string>)
    ensures NetworkShare(entries, vnets, toNEp).None? <==> exists e | e in entries :: e.vnets.None?
  {
    NetworkShareIs(entries, vnets, toNEp, Entry(Addr(None, None, 0), "", "", None, None));
  }

  /** What the hub with this network endpoint has last told of its vnets. */
  function LastTold(events: seq<Event>, hub: Option<string>): Option<seq<string>> {
    if events == [] then None
    else
      var (before, e) := (events[..|events| - 1], events[|events| - 1]);
      if e.Message? && e.m.body.GetVnets? && e.m.isReply && e.m.replyAddr.Some? && e.m.replyAddr.value.nEp == hub
      then Some(e.m.body.vnets) else LastTold(before, hub)
  }

  /** In every run a directory knows of each hub the vnets that it was last told, and keeps its own. */
  lemma {:induction false} VnetsAreTheLastTold(vnets: seq<string>, events: seq<Event>, hub: Option<string>)
    ensures var d := After(vnets, events);
            && d.vnets == vnets && (hub in d.vnetsByHub <==> LastTold(events, hub).Some?)
            && (hub in d.vnetsByHub ==> LastTold(events, hub) == Some(d.vnetsByHub[hub]))
  {
    if events != [] {
      VnetsAreTheLastTold(vnets, events[..|events| - 1], hub);
    }
  }

  // ---------- heartbeats ----------

  /** `k` is the last heartbeat. */
  predicate IsLastBeat(events: seq<Event>, k: int) {
    0 <= k < |events| && events[k].Beat? && forall i | k < i < |events| :: events[i].Message?
  }

  /** A message came after event `k` with this reply address. */
  predicate HeardSince(events: seq<Event>, k: int, a: Addr) {
    exists i | 0 <= i < |events| :: k < i && events[i].Message? && events[i].m.replyAddr == Some(a)
  }

  /** Some entry with the address was left right after event `k`. */
  predicate SurvivedAt(vnets: seq<string>, events: seq<Event>, k: int, a: Addr)
    requires 0 <= k < |events|
  {
    a in Addrs(After(vnets, events[..k + 1]).entries)
  }

  predicate Stale(vnets: seq<string>, events: seq<Event>, a: Addr) {
    exists k | 0 <= k < |events| :: IsLastBeat(events, k) && SurvivedAt(vnets, events, k, a) &&
        !HeardSince(events, k, a)
  }

  lemma {:induction false} PotentiallyStaleIs(vnets: seq<string>, events: seq<Event>, a: Addr)
    ensures a in After(vnets, events).potentiallyStale <==> Stale(vnets, events, a)
  {
    if events != [] {
      var (n, before) := (|events| - 1, events[..|events| - 1]);
      if events[n].Beat? {
        StaleAfterBeat(vnets, events, a);
      } else {
        PotentiallyStaleIs(vnets, before, a);
        StaleAfterMessage(vnets, events, a);
      }
    }
  }

  lemma StaleAfterBeat(vnets: seq<string>, events: seq<Event>, a: Addr)
    requires events != [] && events[|events| - 1].Beat?
    ensures Stale(vnets, events, a) <==> a in Addrs(After(vnets, events).entries)
  {
    var n := |events| - 1;
    assert events[..n + 1] == events;
    assert IsLastBeat(events, n);
  }

  lemma StaleAfterMessage(vnets: seq<string>, events: seq<Event>, a: Addr)
    requires events != [] && events[|events| - 1].Message?
    ensures Stale(vnets, events, a) <==>
              Stale(vnets, events[..|events| - 1], a) && events[|events| - 1].m.replyAddr != Some(a)
  {
    var (n, before) := (|events| - 1, events[..|events| - 1]);
    forall k | 0 <= k < n
      ensures IsLastBeat(events, k) <==> IsLastBeat(before, k)
      ensures SurvivedAt(vnets, events, k, a) <==> SurvivedAt(vnets, before, k, a)
      ensures HeardSince(events, k, a) <==> HeardSince(before, k, a) || events[n].m.replyAddr == Some(a)
    {
      assert events[..k + 1] == before[..k + 1];
      assert forall i | 0 <= i < n :: events[i] == before[i];
      if i :| 0 <= i < n && k < i && before[i].Message? && before[i].m.replyAddr == Some(a) {
        assert events[i] == before[i];
      }
    }
  }

  /** In every run, whatever was registered, unregistered and shared in between: an entry is dropped at a heartbeat if
    * and only if an entry with its address was left by the heartbeat before and no message came from that address
    * since. */
  lemma EvictionIsExact(vnets: seq<string>, events: seq<Event>, e: Entry)
    requires e in After(vnets, events).entries
    ensures e !in After(vnets, events + [Beat]).entries <==> Stale(vnets, events, e.addr)
  {
    var d := After(vnets, events);
    assert (events + [Beat])[..|events|] == events;
    WhereIs(d.entries, NotAmong(d.potentiallyStale));
    PotentiallyStaleIs(vnets, events, e.addr);
  }

  /** The answer to the directory's ping comes from the address that is registered, so it keeps the entry. */
  lemma AnsweringAPingRefreshes(own: Addr, directory: Addr, d: State, body: Body)
    requires own.nEp.None? && directory.nEp.None? && (own.mEp.None? <==> directory.mEp.None?)
    ensures var from := ReplyAddrFor(own, ReplyAddrFor(directory, own));
            from == own && own !in MsgArrived(d, Incoming(Some(from), true, body)).0.potentiallyStale
  {
  }

  /** So in every run an agent that has answered since the last heartbeat keeps its entries at the next. */
  lemma AnsweringKeepsEntries(vnets: seq<string>, events: seq<Event>, k: int, i: int, e: Entry, directory: Addr)
    requires e in After(vnets, events).entries && IsLastBeat(events, k) && k < i < |events|
    requires e.addr.nEp.None? && directory.nEp.None? && (e.addr.mEp.None? <==> directory.mEp.None?)
    requires events[i].m.replyAddr == Some(ReplyAddrFor(e.addr, ReplyAddrFor(directory, e.addr)))
    ensures e in After(vnets, events + [Beat]).entries
  {
    AnsweringAPingRefreshes(e.addr, directory, After(vnets, events), Other);
    EvictionIsExact(vnets, events, e);
    assert HeardSince(events, k, e.addr);
  }

  /** The sender as the directory is told, when it is written to by the short address that `directoryAddr` gives. */
  function ShortFrom(own: Addr): Addr {
    ReplyAddrFor(own, Addr(None, None, DIRECTORY_REP))
  }

  /** In every run: an entry that was left by the last heartbeat, and whose agent has since written to the directory by
    * its short address only, is kept at the next heartbeat if and only if the router has no machine endpoint. */
  lemma ShortAddressRefreshesExactly(vnets: seq<string>, events: seq<Event>, k: int, i: int, e: Entry)
    requires e in After(vnets, events).entries && e.addr.nEp.None?
    requires IsLastBeat(events, k) && SurvivedAt(vnets, events, k, e.addr)
    requires k < i < |events| && events[i].m.replyAddr == Some(ShortFrom(e.addr))
    requires forall j | k < j < |events| && events[j].m.replyAddr == Some(e.addr) ::
               events[j].m.replyAddr == Some(ShortFrom(e.addr))
    ensures e in After(vnets, events + [Beat]).entries <==> e.addr.mEp.None?
  {
    EvictionIsExact(vnets, events, e);
    if e.addr.mEp.None? {
      assert HeardSince(events, k, e.addr);
    } else {
      assert !HeardSince(events, k, e.addr);
    }
  }

  lemma WhereOne(e: Entry, c: Condition)
    ensures Where([e], c) == if Meets(e, c) then [e] else []
  {
    assert [e][1..] == [];
  }

  /** It happens: an agent of a machine router registers, and after a heartbeat asks for entries, by the short
    * address. */
  lemma ShortAddressLosesEntry(vnets: seq<string>, e: Entry)
    requires e.addr == Addr(None, Some("r"), 3)
    ensures var (register, ask) := (Incoming(Some(ShortFrom(e.addr)), false, Register(e)),
                                    Incoming(Some(ShortFrom(e.addr)), false, GetEntries("")));
            && After(vnets, [Message(register), Beat, Message(ask)]).entries == [e]
            && After(vnets, [Message(register), Beat, Message(ask), Beat]).entries == []
  {
    var register := Incoming(Some(ShortFrom(e.addr)), false, Register(e));
    var ask := Incoming(Some(ShortFrom(e.addr)), false, GetEntries(""));
    var events := [Message(register), Beat, Message(ask), Beat];
    var d1 := MsgArrived(NewDirectory(vnets), register).0;
    assert events[..1] == [Message(register)] && events[..1][..0] == [];
    assert After(vnets, events[..1]) == d1 && d1.entries == [e];
    assert events[..2][..1] == events[..1] && events[..3][..2] == events[..2];
    assert events[..3] == [Message(register), Beat, Message(ask)];
    var d2 := Heartbeat(d1);
    WhereOne(e, NotAmong(d1.potentiallyStale));
    assert After(vnets, events[..2]) == d2 && d2.entries == [e] && d2.potentiallyStale == {e.addr};
    var d3 := MsgArrived(d2, ask).0;
    assert After(vnets, events[..3]) == d3 && d3.entries == [e] && e.addr in d3.potentiallyStale;
    WhereOne(e, NotAmong(d3.potentiallyStale));
    assert After(vnets, events) == Heartbeat(d3);
  }

  // ---------- the class ----------

  class RouterDirectory {
    const vnets: seq<string>
    var entries: seq<Entry>
    var potentiallyStale: set<Addr>
    var vnetsByHub: map<Option<string>, seq<string>>

    ghost function View(): State
      reads this
    {
      State(entries, potentiallyStale, vnets, vnetsByHub)
    }

    constructor (vnets: seq<string>)
      ensures View() == NewDirectory(vnets)
    {
      this.vnets, entries, potentiallyStale, vnetsByHub := vnets, [], {}, map[];
    }

    method HasKey(key: Key) returns (found: bool)
      ensures found == Has(entries, key)
    {
      found := false;
      for i := 0 to |entries|
        invariant found == Has(entries[..i], key)
      {
        assert entries[..i + 1] == entries[..i] + [entries[i]];
        if KeyOf(entries[i]) == key {
          assert entries[i] in entries[..i + 1];
          found := true;
        }
      }
      assert entries[..|entries|] == entries;
    }

    method Keep(c: Condition) returns (kept: seq<Entry>)
      ensures kept == Where(entries, c)
    {
      kept := [];
      for i := 0 to |entries|
        invariant kept == Where(entries[..i], c)
      {
        assert entries[..i + 1] == entries[..i] + [entries[i]];
        WhereAppend(entries[..i], [entries[i]], c);
        if Meets(entries[i], c) {
          kept := kept + [entries[i]];
        }
      }
      assert entries[..|entries|] == entries;
    }

    method Append(e: Entry)
      modifies `entries
      ensures entries == Added(old(entries), e)
    {
      var found := HasKey(KeyOf(e));
      if !found {
        entries := entries + [e];
      }
    }

    method ReadWire(wire: seq<Wire>) returns (parsed: Option<seq<Entry>>)
      ensures parsed == Parsed(wire)
    {
      var read := [];
      assert wire[0..] == wire && (Parsed(wire).Some? ==> [] + Parsed(wire).value == Parsed(wire).value);
      for i := 0 to |wire|
        invariant Parsed(wire) == var rest := Parsed(wire[i..]); if rest.None? then None else Some(read + rest.value)
      {
        var e := FromSeq(wire[i]);
        if e.None? {
          return None;
        }
        assert wire[i..][1..] == wire[i + 1..];
        var rest := Parsed(wire[i + 1..]);
        assert rest.Some? ==> (read + [e.value]) + rest.value == read + ([e.value] + rest.value);
        read := read + [e.value];
      }
      assert read + [] == read;
      parsed := Some(read);
    }

    method Receive(m: Incoming) returns (answer: Answer)
      modifies this
      ensures (View(), answer) == MsgArrived(old(View()), m)
    {
      if m.replyAddr.Some? {
        potentiallyStale := potentiallyStale - {m.replyAddr.value};
      }
      match m.body {
        case Register(e) =>
          Append(e);
          answer := Done;
        case UnregisterEntry(e) =>
          entries := Keep(IsNot(e));
          answer := Done;
        case UnregisterAddr(a) =>
          entries := Keep(NotAt(a));
          answer := Done;
        case GetEntries(service) =>
          var found := entries;
          if service != "" {
            found := Keep(Offers(service));
          }
          answer := Found(found);
        case ShareEntries(wire) =>
          answer := Share(m, wire);
        case GetVnets(theirs) =>
          if !m.isReply {
            answer := Vnets(vnets);
          } else if m.replyAddr.None? {
            answer := Answer.Raised;
          } else {
            vnetsByHub := vnetsByHub[m.replyAddr.value.nEp := theirs];
            answer := Silence;
          }
        case ToldBadEntries =>
          answer := Silence;
        case Other =>
          answer := Instructions;
      }
    }

    method Share(m: Incoming, wire: seq<Wire>) returns (answer: Answer)
      modifies `entries
      ensures entries == if Parsed(wire).None? then old(entries) else Merged(old(entries), Parsed(wire).value)
      ensures answer == if Parsed(wire).None? then BadEntries else ShareAnswer(View(), m)
    {
      var parsed := ReadWire(wire);
      if parsed.None? {
        return BadEntries;
      }
      var more := parsed.value;
      ghost var merged := Merged(entries, more);
      while more != []
        modifies `entries
        invariant Merged(entries, more) == merged
        decreases |more|
      {
        Append(more[0]);
        more := more[1..];
      }
      if m.isReply {
        answer := Silence;
      } else if m.replyAddr.None? {
        answer := Answer.Raised;
      } else if m.replyAddr.value.nEp.Some? {
        var shared := ShareWithNetworkHub(m.toNEp);
        answer := if shared.None? then Answer.Raised else Shared(shared.value);
      } else {
        var known := Keep(HasVnets);
        answer := Shared(known);
      }
    }

    /** None stands for the exception that an entry without vnets raises. */
    method ShareWithNetworkHub(toNEp: Option<string>) returns (shared: Option<seq<Entry>>)
      ensures shared == NetworkShare(entries, vnets, toNEp)
    {
      var chosen := [];
      ghost var all := NetworkShare(entries, vnets, toNEp);
      assert entries[0..] == entries && (all.Some? ==> [] + all.value == all.value);
      for i := 0 to |entries|
        invariant all == var rest := NetworkShare(entries[i..], vnets, toNEp); if rest.None? then None
              else Some(chosen + rest.value)
      {
        var e := entries[i];
        if e.vnets.None? {
          return None;
        }
        assert entries[i..][1..] == entries[i + 1..];
        ghost var rest := NetworkShare(entries[i + 1..], vnets, toNEp);
        if AnyIn(e.vnets.value, vnets) && e.addr.nEp.None? {
          var readdressed := Entry(Addr(toNEp, e.addr.mEp, e.addr.rEp), e.service, e.params, e.vnets, e.perms);
          assert rest.Some? ==> (chosen + [readdressed]) + rest.value == chosen + ([readdressed] + rest.value);
          chosen := chosen + [readdressed];
        }
      }
      assert chosen + [] == chosen;
      shared := Some(chosen);
    }

    method HeartbeatEntries() returns (toPing: set<Addr>)
      modifies this
      ensures View() == Heartbeat(old(View())) && toPing == potentiallyStale
    {
      entries := Keep(NotAmong(potentiallyStale));
      potentiallyStale := set e | e in entries :: e.addr;
      toPing := potentiallyStale;
    }

    /** None stands for the exception that the loop raises. */
    method ShareWithHub() returns (shared: Option<seq<Entry>>)
      ensures shared == EntriesToShare(entries)
    {
      var chosen := [];
      ghost var all := EntriesToShare(entries);
      assert entries[0..] == entries && (all.Some? ==> [] + all.value == all.value);
      for i := 0 to |entries|
        invariant EntriesToShare(entries) ==
                  var rest := EntriesToShare(entries[i..]); if rest.None? then None else Some(chosen + rest.value)
      {
        if entries[i].vnets.None? {
          return None;
        }
        assert entries[i..][1..] == entries[i + 1..];
        var e := if LOCAL_VNET in entries[i].vnets.value then [entries[i]] else [];
        var rest := EntriesToShare(entries[i + 1..]);
        assert rest.Some? ==> (chosen + e) + rest.value == chosen + (e + rest.value);
        chosen := chosen + e;
      }
      assert chosen + [] == chosen;
      shared := Some(chosen);
    }
  }
}
