/** Directories that share their entries through the directory of one machine hub (py/vlmessaging/_core.py:
  * Directory._ensureNetworkImpl and the SHARE_ENTRIES branch of msgArrived). Routers share whenever their timers say,
  * and messages between directories arrive in any order.
  */
module Replication {
  import opened Wrappers
  import opened Messaging
  import opened Directory

  /** A directory other than the hub's. `next` numbers its shares, and `finished` are those that were answered. */
  datatype Spoke = Spoke(addr: Addr, dir: State, next: nat, finished: set<nat>)

  /** A share on its way: whose, which of them, and the message. */
  datatype Packet = Packet(spoke: nat, no: nat, m: Incoming)

  datatype Net = Net(hubAddr: Addr, hub: State, spokes: seq<Spoke>, toHub: seq<Packet>, toSpokes: seq<Packet>)

  /** Register and ask stand for clients: of the hub, or of a spoke. */
  datatype Action =
    | Share(i: nat)
    | AtHub(k: nat)
    | AtSpoke(k: nat)
    | ToHubDirectory(m: Incoming)
    | ToDirectory(i: nat, m: Incoming)

  function Without<T>(s: seq<T>, k: nat): seq<T>
    requires k < |s|
  {
    s[..k] + s[k + 1..]
  }

  function OnWire(entries: seq<Entry>): seq<Wire> {
    seq(|entries|, i requires 0 <= i < |entries| => Item(entries[i]))
  }

  function SpokeShares(n: Net, i: nat): Net
    requires i < |n.spokes|
  {
    var s := n.spokes[i];
    var shared := EntriesToShare(s.dir.entries);
    if shared.None? then n
    else
      var m := Incoming(Some(s.addr), false, ShareEntries(OnWire(shared.value)));
      n.(spokes := n.spokes[i := s.(next := s.next + 1)], toHub := n.toHub + [Packet(i, s.next, m)])
  }

  function HubReceives(n: Net, k: nat): Net
    requires k < |n.toHub|
  {
    var p := n.toHub[k];
    var (hub, answer) := MsgArrived(n.hub, p.m);
    n.(hub := hub, toHub := Without(n.toHub, k),
       toSpokes := if !answer.Shared? then n.toSpokes
                   else n.toSpokes + [Packet(p.spoke, p.no,
                       Incoming(Some(n.hubAddr), true, ShareEntries(OnWire(answer.entries))))])
  }

  function SpokeReceives(n: Net, k: nat): Net
    requires k < |n.toSpokes| && n.toSpokes[k].spoke < |n.spokes|
  {
    var p := n.toSpokes[k];
    var s := n.spokes[p.spoke];
    n.(spokes := n.spokes[p.spoke := s.(dir := MsgArrived(s.dir, p.m).0, finished := s.finished + {p.no})],
       toSpokes := Without(n.toSpokes, k))
  }

  function Next(n: Net, a: Action): Net {
    match a
    case Share(i) => if i < |n.spokes| then SpokeShares(n, i) else n
    case AtHub(k) => if k < |n.toHub| then HubReceives(n, k) else n
    case AtSpoke(k) => if k < |n.toSpokes| && n.toSpokes[k].spoke < |n.spokes| then SpokeReceives(n, k) else n
    case ToHubDirectory(m) => n.(hub := MsgArrived(n.hub, m).0)
    case ToDirectory(i, m) =>
      if i < |n.spokes|
      then n.(spokes := n.spokes[i := n.spokes[i].(dir := MsgArrived(n.spokes[i].dir, m).0)])
      else n
  }

  function Run(n: Net, actions: seq<Action>): Net
    decreases |actions|
  {
    if actions == [] then n else Run(Next(n, actions[0]), actions[1..])
  }

  // ---------- what the claim is about ----------

  predicate IsLocal(e: Entry) {
    e.vnets.Some? && LOCAL_VNET in e.vnets.value
  }

  /** Clients register entries for the local vnet and ask; nothing is unregistered. */
  predicate Proper(a: Action) {
    a.ToHubDirectory? || a.ToDirectory? ==>
      (a.m.body.Register? && IsLocal(a.m.body.entry)) || a.m.body.GetEntries? || a.m.body.Other?
  }

  function RegisteredBy(a: Action): set<Key> {
    if (a.ToHubDirectory? || a.ToDirectory?) && a.m.body.Register? then {KeyOf(a.m.body.entry)} else {}
  }

  predicate ProperRun(actions: seq<Action>, registered: set<Key>) {
    forall a | a in actions :: Proper(a) && RegisteredBy(a) <= registered
  }

  predicate Start(n: Net) {
    && n.toHub == [] && n.toSpokes == []
    && n.hubAddr.nEp.None? && (forall s | s in n.spokes :: s.addr.nEp.None? && s.finished == {})
    && (forall e | e in n.hub.entries :: IsLocal(e)) &&
          (forall s | s in n.spokes :: forall e | e in s.dir.entries :: IsLocal(e))
  }

  function AllKeys(n: Net): set<Key> {
    Keys(n.hub.entries) + set s, k | s in n.spokes && k in Keys(s.dir.entries) :: k
  }

  // ---------- directories and shares ----------

  /** Entries for the local vnet with keys among `known`. */
  predicate Fine(entries: seq<Entry>, known: set<Key>) {
    Keys(entries) <= known && forall e | e in entries :: IsLocal(e)
  }

  predicate FineShare(m: Incoming, known: set<Key>) {
    && m.body.ShareEntries?
    && (forall w | w in m.body.wire :: w.Item? && IsLocal(w.e) && KeyOf(w.e) in known)
  }

  function SharedKeys(m: Incoming): set<Key>
    requires m.body.ShareEntries?
  {
    set w | w in m.body.wire && w.Item? :: KeyOf(w.e)
  }

  lemma OnWireIs(entries: seq<Entry>, known: set<Key>, replyAddr: Option<Addr>, isReply: bool)
    requires Fine(entries, known)
    ensures var m := Incoming(replyAddr, isReply, ShareEntries(OnWire(entries)));
            FineShare(m, known) && SharedKeys(m) == Keys(entries)
  {
    var wire := OnWire(entries);
    forall w | w in wire ensures w.Item? && w.e in entries {
      var i :| 0 <= i < |wire| && wire[i] == w;
      assert w.e == entries[i];
    }
    forall e | e in entries ensures Item(e) in wire {
      var i :| 0 <= i < |entries| && entries[i] == e;
      assert wire[i] == Item(e);
    }
    var m := Incoming(replyAddr, isReply, ShareEntries(wire));
    forall k | k in Keys(entries) ensures k in SharedKeys(m) {
      var e :| e in entries && KeyOf(e) == k;
      assert Item(e) in wire;
    }
  }

  /** What a share does to a directory. */
  lemma ShareArrives(d: State, m: Incoming, known: set<Key>)
    requires Fine(d.entries, known) && FineShare(m, known)
    ensures var (d', answer) := MsgArrived(d, m);
            && Fine(d'.entries, known) && Keys(d'.entries) == Keys(d.entries) + SharedKeys(m)
            && (!m.isReply && m.replyAddr.Some? && m.replyAddr.value.nEp.None? ==> answer == Shared(d'.entries))
  {
    var d' := MsgArrived(d, m).0;
    ParsedIs(m.body.wire);
    RegisterAndShareOnlyAppend(d, m);
    ParsedLocal(m.body.wire);
    MergedIs(d.entries, Parsed(m.body.wire).value);
    WhereAll(d'.entries, HasVnets);
    assert SharedKeys(m) == set w | w in m.body.wire :: KeyOf(w.e);
  }

  lemma {:induction false} ParsedLocal(wire: seq<Wire>)
    requires forall w | w in wire :: w.Item? && IsLocal(w.e)
    ensures Parsed(wire).Some? && forall e | e in Parsed(wire).value :: IsLocal(e)
  {
    if wire != [] {
      assert wire[0] in wire;
      ParsedLocal(wire[1..]);
    }
  }

  /** What a proper client does to a directory. */
  lemma ClientAsks(d: State, m: Incoming, known: set<Key>)
    requires Fine(d.entries, known) && Proper(ToHubDirectory(m)) && RegisteredBy(ToHubDirectory(m)) <= known
    ensures var d' := MsgArrived(d, m).0;
            Fine(d'.entries, known) && Keys(d.entries) <= Keys(d'.entries)
  {
    if m.body.Register? {
      AddedIs(d.entries, m.body.entry);
    }
  }

  lemma {:induction false} SharesEverything(entries: seq<Entry>)
    requires forall e | e in entries :: IsLocal(e)
    ensures EntriesToShare(entries) == Some(entries)
  {
    if entries != [] {
      assert entries[0] in entries && entries == [entries[0]] + entries[1..];
      SharesEverything(entries[1..]);
    }
  }

  // ---------- the invariant ----------

  predicate Sound(n: Net, known: set<Key>) {
    && n.hubAddr.nEp.None? && Fine(n.hub.entries, known)
    && (forall i | 0 <= i < |n.spokes| :: n.spokes[i].addr.nEp.None? && Fine(n.spokes[i].dir.entries, known))
    && (forall p | p in n.toHub + n.toSpokes :: p.spoke < |n.spokes| && p.no < n.spokes[p.spoke].next &&
          FineShare(p.m, known))
    && (forall p | p in n.toHub :: !p.m.isReply && p.m.replyAddr.Some? && p.m.replyAddr.value.nEp.None?)
    && (forall i | 0 <= i < |n.spokes| :: forall no | no in n.spokes[i].finished :: no < n.spokes[i].next)
  }

  /** What the spokes knew at first is with the hub as soon as the hub has answered them. */
  predicate Arriving(n: Net, own: seq<set<Key>>)
    requires |own| == |n.spokes|
  {
    && (forall i | 0 <= i < |own| :: own[i] <= Keys(n.spokes[i].dir.entries))
    && (forall i | 0 <= i < |own| && n.spokes[i].finished != {} :: own[i] <= Keys(n.hub.entries))
    && (forall p | p in n.toHub && p.spoke < |own| && p.m.body.ShareEntries? :: own[p.spoke] <= SharedKeys(p.m))
    && (forall p | p in n.toSpokes && p.spoke < |own| :: own[p.spoke] <= Keys(n.hub.entries))
  }

  /** Whoever has finished an exchange numbered from `since` on knows everything in `full`. */
  predicate Spreading(n: Net, full: set<Key>, since: seq<nat>)
    requires |since| == |n.spokes|
  {
    && full <= Keys(n.hub.entries)
    && (forall p | p in n.toSpokes && p.spoke < |since| && p.no >= since[p.spoke] && p.m.body.ShareEntries? ::
          full <= SharedKeys(p.m))
    && (forall i | 0 <= i < |since| :: forall no | no in n.spokes[i].finished && no >= since[i] ::
          full <= Keys(n.spokes[i].dir.entries))
  }

  /** Both: the second for any number of exchanges begun so far. */
  predicate Inv(n: Net, known: set<Key>, own: seq<set<Key>>, full: set<Key>, since: seq<nat>) {
    Sound(n, known) && |own| == |n.spokes| && Arriving(n, own) && |since| == |n.spokes| && Spreading(n, full, since)
  }

  lemma ShareOk(n: Net, i: nat, known: set<Key>, own: seq<set<Key>>, full: set<Key>, since: seq<nat>)
    requires Inv(n, known, own, full, since) && i < |n.spokes|
    ensures Inv(SpokeShares(n, i), known, own, full, since)
  {
    var s := n.spokes[i];
    SharesEverything(s.dir.entries);
    OnWireIs(s.dir.entries, known, Some(s.addr), false);
  }

  lemma AtHubOk(n: Net, k: nat, known: set<Key>, own: seq<set<Key>>, full: set<Key>, since: seq<nat>)
    requires Inv(n, known, own, full, since) && k < |n.toHub|
    ensures Inv(HubReceives(n, k), known, own, full, since)
  {
    var p := n.toHub[k];
    assert p in n.toHub;
    assert forall q | q in Without(n.toHub, k) :: q in n.toHub;
    ShareArrives(n.hub, p.m, known);
    OnWireIs(MsgArrived(n.hub, p.m).0.entries, known, Some(n.hubAddr), true);
  }

  /** A message fewer on its way to the spokes. */
  lemma OneArrived(n: Net, k: nat, known: set<Key>, own: seq<set<Key>>, full: set<Key>, since: seq<nat>)
    requires Inv(n, known, own, full, since) && k < |n.toSpokes|
    ensures Inv(n.(toSpokes := Without(n.toSpokes, k)), known, own, full, since)
  {
    assert forall q | q in Without(n.toSpokes, k) :: q in n.toSpokes;
  }

  /** A spoke that knows more and has finished one more exchange. */
  lemma SpokeLearns(n: Net, i: nat, no: nat, dir: Directory.State, known: set<Key>, own: seq<set<Key>>,
      full: set<Key>, since: seq<nat>)
    requires Inv(n, known, own, full, since) && i < |n.spokes| && no < n.spokes[i].next
    requires Fine(dir.entries, known) && Keys(n.spokes[i].dir.entries) <= Keys(dir.entries)
    requires own[i] <= Keys(n.hub.entries) && (no >= since[i] ==> full <= Keys(dir.entries))
    ensures var s := n.spokes[i];
            Inv(n.(spokes := n.spokes[i := s.(dir := dir, finished := s.finished + {no})]), known, own, full, since)
  {
  }

  lemma AtSpokeOk(n: Net, k: nat, known: set<Key>, own: seq<set<Key>>, full: set<Key>, since: seq<nat>)
    requires Inv(n, known, own, full, since) && k < |n.toSpokes| && n.toSpokes[k].spoke < |n.spokes|
    ensures Inv(SpokeReceives(n, k), known, own, full, since)
  {
    var p := n.toSpokes[k];
    assert p in n.toSpokes && p in n.toHub + n.toSpokes;
    ShareArrives(n.spokes[p.spoke].dir, p.m, known);
    OneArrived(n, k, known, own, full, since);
    SpokeLearns(n.(toSpokes := Without(n.toSpokes, k)), p.spoke, p.no, MsgArrived(n.spokes[p.spoke].dir, p.m).0,
                known, own, full, since);
  }

  lemma NextOk(n: Net, a: Action, known: set<Key>, own: seq<set<Key>>, full: set<Key>, since: seq<nat>)
    requires Inv(n, known, own, full, since) && Proper(a) && RegisteredBy(a) <= known
    ensures Inv(Next(n, a), known, own, full, since)
  {
    match a {
      case Share(i) => if i < |n.spokes| { ShareOk(n, i, known, own, full, since); }
      case AtHub(k) => if k < |n.toHub| { AtHubOk(n, k, known, own, full, since); }
      case AtSpoke(k) =>
        if k < |n.toSpokes| && n.toSpokes[k].spoke < |n.spokes| {
          AtSpokeOk(n, k, known, own, full, since);
        }
      case ToHubDirectory(m) => ClientAsks(n.hub, m, known);
      case ToDirectory(i, m) => if i < |n.spokes| { ClientAsks(n.spokes[i].dir, m, known); }
    }
  }

  lemma {:induction false} RunOk(n: Net, actions: seq<Action>, known: set<Key>, own: seq<set<Key>>, full: set<Key>,
      since: seq<nat>)
    requires Inv(n, known, own, full, since) && ProperRun(actions, known)
    ensures Inv(Run(n, actions), known, own, full, since)
    decreases |actions|
  {
    if actions != [] {
      assert actions[0] in actions;
      NextOk(n, actions[0], known, own, full, since);
      assert forall a | a in actions[1..] :: a in actions;
      RunOk(Next(n, actions[0]), actions[1..], known, own, full, since);
    }
  }

  // ---------- the theorems ----------

  function OwnKeys(n: Net): seq<set<Key>> {
    seq(|n.spokes|, i requires 0 <= i < |n.spokes| => Keys(n.spokes[i].dir.entries))
  }

  function Counters(n: Net): seq<nat> {
    seq(|n.spokes|, i requires 0 <= i < |n.spokes| => n.spokes[i].next)
  }

  predicate EveryoneFinished(n: Net) {
    forall s | s in n.spokes :: s.finished != {}
  }

  /** Every spoke has finished an exchange that it began after `before`. */
  predicate EveryoneFinishedSince(n: Net, before: Net) {
    && |n.spokes| == |before.spokes|
    && (forall i | 0 <= i < |n.spokes| :: exists no | no in n.spokes[i].finished :: no >= before.spokes[i].next)
  }

  lemma StartOk(n: Net, known: set<Key>)
    requires Start(n) && AllKeys(n) <= known
    ensures Inv(n, known, OwnKeys(n), Keys(n.hub.entries), Counters(n))
  {
    forall i | 0 <= i < |n.spokes|
      ensures n.spokes[i].addr.nEp.None? && n.spokes[i].finished == {} && Fine(n.spokes[i].dir.entries, known)
    {
      assert n.spokes[i] in n.spokes;
    }
  }

  /** When everyone has finished one exchange, the hub knows everything that anyone knew at first. */
  lemma HubKnowsAll(n: Net, n1: Net, known: set<Key>)
    requires Inv(n1, known, OwnKeys(n), Keys(n.hub.entries), Counters(n)) && EveryoneFinished(n1)
    ensures AllKeys(n) <= Keys(n1.hub.entries)
  {
    forall k | k in AllKeys(n) ensures k in Keys(n1.hub.entries) {
      if k !in Keys(n.hub.entries) {
        var s :| s in n.spokes && k in Keys(s.dir.entries);
        var i :| 0 <= i < |n.spokes| && n.spokes[i] == s;
        assert OwnKeys(n)[i] == Keys(s.dir.entries);
        assert n1.spokes[i] in n1.spokes;
      }
    }
  }

  /** No exchange that was begun so far has a number from now on. */
  lemma SinceNow(n: Net, known: set<Key>, own: seq<set<Key>>, full: set<Key>)
    requires Sound(n, known) && |own| == |n.spokes| && Arriving(n, own) && full <= Keys(n.hub.entries)
    ensures Inv(n, known, own, full, Counters(n))
  {
    assert forall p | p in n.toSpokes :: p in n.toHub + n.toSpokes;
  }

  /** Two exchanges of every spoke, with anything else going on in between, and every directory knows everything that
    * any of them knew at first, and nothing that was not known at first or registered since. */
  lemma TwoExchangesSuffice(n: Net, first: seq<Action>, second: seq<Action>, registered: set<Key>)
    requires Start(n) && ProperRun(first + second, registered)
    requires EveryoneFinished(Run(n, first)) && EveryoneFinishedSince(Run(Run(n, first), second), Run(n, first))
    ensures var n2 := Run(Run(n, first), second);
            && AllKeys(n) <= Keys(n2.hub.entries) <= AllKeys(n) + registered
            && (forall s | s in n2.spokes :: AllKeys(n) <= Keys(s.dir.entries) <= AllKeys(n) + registered)
  {
    var (known, own, full) := (AllKeys(n) + registered, OwnKeys(n), AllKeys(n));
    var (n1, n2) := (Run(n, first), Run(Run(n, first), second));
    SplitProper(first, second, registered, known);
    StartOk(n, known);
    RunOk(n, first, known, own, Keys(n.hub.entries), Counters(n));
    HubKnowsAll(n, n1, known);
    SinceNow(n1, known, own, full);
    RunOk(n1, second, known, own, full, Counters(n1));
    EveryoneKnowsAll(n1, n2, known, own, full);
  }

  /** Whoever has finished an exchange since the hub knew everything knows everything. */
  lemma EveryoneKnowsAll(n1: Net, n2: Net, known: set<Key>, own: seq<set<Key>>, full: set<Key>)
    requires Inv(n2, known, own, full, Counters(n1)) && EveryoneFinishedSince(n2, n1)
    ensures forall s | s in n2.spokes :: full <= Keys(s.dir.entries) <= known
  {
    forall s | s in n2.spokes ensures full <= Keys(s.dir.entries) <= known {
      var i :| 0 <= i < |n2.spokes| && n2.spokes[i] == s;
      var no :| no in n2.spokes[i].finished && no >= n1.spokes[i].next;
      assert Counters(n1)[i] == n1.spokes[i].next;
    }
  }

  lemma SplitProper(first: seq<Action>, second: seq<Action>, registered: set<Key>, known: set<Key>)
    requires ProperRun(first + second, registered) && registered <= known
    ensures ProperRun(first, known) && ProperRun(second, known)
  {
    assert forall a | a in first :: a in first + second;
    assert forall a | a in second :: a in first + second;
  }

  /** If nothing is registered meanwhile, all directories have exactly the same keys: the union of the first ones. */
  lemma DirectoriesConverge(n: Net, first: seq<Action>, second: seq<Action>)
    requires Start(n) && ProperRun(first + second, {})
    requires EveryoneFinished(Run(n, first)) && EveryoneFinishedSince(Run(Run(n, first), second), Run(n, first))
    ensures var n2 := Run(Run(n, first), second);
            Keys(n2.hub.entries) == AllKeys(n) && forall s | s in n2.spokes :: Keys(s.dir.entries) == AllKeys(n)
  {
    TwoExchangesSuffice(n, first, second, {});
  }

  /** A whole exchange of a spoke when nothing else is on its way. */
  function Exchange(n: Net, i: nat): Net {
    Next(Next(Next(n, Share(i)), AtHub(0)), AtSpoke(0))
  }

  predicate Quiet(n: Net) {
    && n.toHub == [] && n.toSpokes == [] && n.hubAddr.nEp.None?
    && (forall s | s in n.spokes :: s.addr.nEp.None? && forall e | e in s.dir.entries :: IsLocal(e))
    && (forall e | e in n.hub.entries :: IsLocal(e))
  }

  /** It gives both what both knew, and leaves the others as they are. */
  lemma ExchangeGives(n: Net, i: nat)
    requires Quiet(n) && i < |n.spokes|
    ensures var n' := Exchange(n, i);
            && Quiet(n') && |n'.spokes| == |n.spokes| &&
                  n'.spokes[i].finished == n.spokes[i].finished + {n.spokes[i].next}
            && Keys(n'.hub.entries) == Keys(n'.spokes[i].dir.entries) ==
                  Keys(n.hub.entries) + Keys(n.spokes[i].dir.entries)
            && (forall j | 0 <= j < |n.spokes| && j != i :: n'.spokes[j] == n.spokes[j])
  {
    var s := n.spokes[i];
    assert s in n.spokes;
    var known := Keys(n.hub.entries) + Keys(s.dir.entries);
    SharesEverything(s.dir.entries);
    OnWireIs(s.dir.entries, known, Some(s.addr), false);
    var n1 := SpokeShares(n, i);
    assert n1.toHub == [n1.toHub[0]] && Next(n, Share(i)) == n1;
    ShareArrives(n1.hub, n1.toHub[0].m, known);
    var n2 := HubReceives(n1, 0);
    OnWireIs(n2.hub.entries, known, Some(n.hubAddr), true);
    assert n2.toHub == [] && n2.toSpokes == [n2.toSpokes[0]] && Next(n1, AtHub(0)) == n2;
    ShareArrives(s.dir, n2.toSpokes[0].m, known);
    var n3 := SpokeReceives(n2, 0);
    assert n3.toSpokes == [] && Next(n2, AtSpoke(0)) == n3;
  }

  /** One exchange each is not enough: whoever goes first misses what only another spoke knows. */
  lemma OneExchangeIsNotEnough(n: Net, i: nat, j: nat, k: Key)
    requires Quiet(n) && i < |n.spokes| && j < |n.spokes| && i != j
    requires k in Keys(n.spokes[j].dir.entries) && k !in Keys(n.hub.entries) && k !in Keys(n.spokes[i].dir.entries)
    ensures var n' := Exchange(Exchange(n, i), j);
            && i < |n'.spokes| && n'.spokes[i].finished != {} && k in Keys(n'.hub.entries)
            && k !in Keys(n'.spokes[i].dir.entries)
  {
    ExchangeGives(n, i);
    ExchangeGives(Exchange(n, i), j);
  }
}
