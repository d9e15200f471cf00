/** Any number of routers on one machine, with any number of connections whose agents make messages only by
  * `Msg(...)` and `msg.reply`, and may pass messages on to each other: a request is only ever answered by a reply to
  * that very request, and replies find their way back.
  */
module Correlation {
  import opened Wrappers
  import opened Messaging

  /** A router serves its inboxes and its socket while its main loop is `running`: an error raised there ends the loop.
    * `seen` records every message that an agent of this router has had in its hands. */
  datatype RouterState = RouterState(core: Core, conns: map<int, Conn>, running: bool, seen: seq<Msg>)

  /** `wire` are the messages on their way to a machine endpoint, in no particular order. */
  datatype Net = Net(routers: seq<RouterState>, wire: seq<(string, Msg)>)

  /** A new connection has the next number, or the fixed one of a directory: any that is not in use. Carry hands a
    * message of the wire to router i; `piped` says whether that router has a pipe to the endpoint to which it may have
    * to send a notice. */
  datatype Action =
    | NewRouter(local: bool, ep: string)
    | Listen(i: nat, ep: string)
    | NewConnection(i: nat, rEp: int)
    | DropConnection(i: nat, rEp: int)
    | AgentSend(i: nat, rEp: int, to: Addr, subject: string, contents: string, accepts: Option<seq<string>>)
    | AgentReply(i: nat, rEp: int, m: Msg, subject: string, contents: string, accepts: Option<seq<string>>)
    | Deliver(i: nat, rEp: int)
    | FinishSend(i: nat, rEp: int, id: int, shutdown: bool)
    | Carry(k: nat, i: nat, piped: bool)

  predicate Owned(net: Net, ep: string) {
    exists i :: 0 <= i < |net.routers| && ep in net.routers[i].core.mEps
  }

  /** The routed message goes on the wire if it is for another router. */
  function Wired(wire: seq<(string, Msg)>, routed: Routed): seq<(string, Msg)> {
    if routed.ToPeer? then wire + [(routed.mEp, routed.m)] else wire
  }

  function Subjects(subject: string, accepts: Option<seq<string>>): Option<seq<string>> {
    if accepts.None? then None else Some([subject] + accepts.value)
  }

  /** A connection of router i sends m. */
  function DoSend(net: Net, i: nat, rEp: int, m: Msg, accepts: Option<seq<string>>): Net
    requires i < |net.routers| && rEp in net.routers[i].conns
  {
    var r := net.routers[i];
    var s := Send(r.conns[rEp], r.core, i, m, Subjects(m.subject, accepts));
    Net(net.routers[i := r.(core := s.core, conns := r.conns[rEp := s.conn])], Wired(net.wire, s.routed))
  }

  function NextGone(r: RouterState, rEp: int): RouterState
    requires rEp in r.core.inboxes && r.core.inboxes[rEp] != []
  {
    r.(core := r.core.(inboxes := r.core.inboxes[rEp := r.core.inboxes[rEp][1..]]))
  }

  function Next(net: Net, a: Action): Net {
    match a
    case NewRouter(local, ep) =>
      if Owned(net, ep) then net
      else
        var core := Core(local, if local then [] else [ep], map[]);
        net.(routers := net.routers + [RouterState(core, map[], true, [])])
    case Listen(i, ep) =>
      if i >= |net.routers| || net.routers[i].core.local || Owned(net, ep) then net
      else
        var r := net.routers[i];
        net.(routers := net.routers[i := r.(core := r.core.(mEps := r.core.mEps + [ep]))])
    case NewConnection(i, rEp) =>
      if i >= |net.routers| || rEp in net.routers[i].conns then net
      else
        var r := net.routers[i];
        net.(routers := net.routers[i := r.(core := r.core.(inboxes := r.core.inboxes[rEp := []]),
                                            conns := r.conns[rEp := NewConn(AddrFor(r.core, rEp))])])
    case DropConnection(i, rEp) =>
      if i >= |net.routers| then net
      else
        var r := net.routers[i];
        net.(routers := net.routers[i := r.(core := r.core.(inboxes := r.core.inboxes - {rEp}))])
    case AgentSend(i, rEp, to, subject, contents, accepts) =>
      if i >= |net.routers| || rEp !in net.routers[i].conns then net
      else DoSend(net, i, rEp, NewMsg(to, subject, contents), accepts)
    case AgentReply(i, rEp, m, subject, contents, accepts) =>
      if i >= |net.routers| || rEp !in net.routers[i].conns then net
      else DoSend(net, i, rEp, Reply(m, subject, contents), accepts)
    case Deliver(i, rEp) =>
      if i >= |net.routers| || rEp !in net.routers[i].core.inboxes || net.routers[i].core.inboxes[rEp] == []
         || rEp !in net.routers[i].conns || !net.routers[i].running then net
      else
        var r := net.routers[i];
        var m := r.core.inboxes[rEp][0];
        net.(routers := net.routers[i := NextGone(r, rEp).(conns := r.conns[rEp := TakeReply(r.conns[rEp], m).0],
                                                           seen := r.seen + [m])])
    case FinishSend(i, rEp, id, shutdown) =>
      if i >= |net.routers| || rEp !in net.routers[i].conns || id !in net.routers[i].conns[rEp].waiting then net
      else
        var r := net.routers[i];
        net.(routers := net.routers[i := r.(conns := r.conns[rEp := Finish(r.conns[rEp], id, shutdown)])])
    case Carry(k, i, piped) =>
      if !Carries(net, k, i) then net
      else
        var r := net.routers[i];
        var routed := Route(r.core, net.wire[k].1);
        Net(net.routers[i := r.(core := Pushed(r.core, routed), running := !Raises(routed, piped))],
            Wired(net.wire[..k] + net.wire[k + 1..], routed))
  }

  /** Message k of the wire is for router i, which is there to receive it. */
  predicate Carries(net: Net, k: nat, i: nat) {
    k < |net.wire| && i < |net.routers| && net.wire[k].0 in net.routers[i].core.mEps && net.routers[i].running
  }

  /** A message that no pipe can carry raises an error at once if there is a pipe. */
  predicate Raises(routed: Routed, piped: bool) {
    routed.Raised? || (routed.Unsendable? && piped)
  }

  function Run(net: Net, actions: seq<Action>): Net
    decreases |actions|
  {
    if actions == [] then net else Run(Next(net, actions[0]), actions[1..])
  }

  /** A reply address that means the same at every router: it names a machine endpoint, or there is none at all. */
  predicate Portable(m: Msg) {
    m.replyAddr.Some? ==> m.replyAddr.value.mEp.Some?
  }

  /** A message that was delivered at router j may be answered on a connection of router i. */
  predicate MayAnswer(net: Net, j: nat, i: nat, m: Msg) {
    j < |net.routers| && m in net.routers[j].seen && (j == i || Portable(m))
  }

  predicate Proper(net: Net, a: Action) {
    a.AgentReply? ==> exists j | 0 <= j < |net.routers| :: MayAnswer(net, j, a.i, a.m)
  }

  predicate ProperRun(net: Net, actions: seq<Action>)
    decreases |actions|
  {
    actions == [] || (Proper(net, actions[0]) && ProperRun(Next(net, actions[0]), actions[1..]))
  }

  const EMPTY := Net([], [])

  // ---------- the invariant ----------

  predicate Known(net: Net, r: Ref) {
    && r.router < |net.routers|
    && r.rEp in net.routers[r.router].conns
    && 1 <= r.msgId < net.routers[r.router].conns[r.rEp].nextId
  }

  /** Seen from router i, the address leads to connection `to` of router j. */
  predicate Leads(net: Net, i: nat, a: Addr, j: nat, to: int) {
    && a.nEp.None? && a.rEp == to && j < |net.routers|
    && (if a.mEp.None? then i == j else a.mEp.value in net.routers[j].core.mEps)
  }

  /** The reply address of a message at router i leads back to the connection that sent it. */
  predicate OriginOk(net: Net, i: nat, m: Msg) {
    if m.origin.None? then m.replyAddr == None && m.msgId == Some(-1) && m.subject == MSG_NOT_DELIVERED
    else
      var o := m.origin.value;
      Known(net, o) && m.msgId == Some(o.msgId) && m.replyAddr.Some? &&
          Leads(net, i, m.replyAddr.value, o.router, o.rEp)
  }

  /** A reply at router i is under way to the connection whose request it answers. */
  predicate CauseOk(net: Net, i: nat, m: Msg) {
    if m.cause.None? then m.replyId.None?
    else
      var c := m.cause.value;
      Known(net, c) && m.replyId == Some(c.msgId) && m.toAddr.Some? && Leads(net, i, m.toAddr.value, c.router, c.rEp)
  }

  predicate At(net: Net, i: nat, m: Msg) {
    OriginOk(net, i, m) && CauseOk(net, i, m)
  }

  /** A message in the hands of router i. A LOCAL_MODE router only holds messages of its own connections. */
  predicate Here(net: Net, i: nat, m: Msg) {
    && i < |net.routers| && At(net, i, m)
    && (net.routers[i].core.local && m.replyAddr.Some? ==> m.replyAddr.value.mEp.None?)
  }

  predicate Answers(w: Wait, r: Ref) {
    w.fut.Some? ==> w.fut.value.cause == Some(r) && w.fut.value.subject in w.subjects
  }

  /** Connection rEp of router i: its keys are ids it has issued, and what a send got answers that send. */
  ghost predicate ConnOk(c: Conn, i: nat, rEp: int) {
    && c.addr.rEp == rEp && c.addr.nEp.None? && c.nextId >= 1
    && (forall id | id in c.pending :: 1 <= id < c.nextId)
    && (forall id | id in c.waiting ::
          && 1 <= id < c.nextId && id !in c.results && Answers(c.waiting[id], Ref(i, rEp, id))
          && (id in c.pending ==> c.waiting[id].fut.None? && c.pending[id] == c.waiting[id].subjects))
    && (forall id | id in c.results :: 1 <= id < c.nextId && id !in c.pending &&
          Answers(c.results[id], Ref(i, rEp, id)))
  }

  predicate AddressOk(r: RouterState, c: Conn) {
    if r.core.local then c.addr.mEp.None? else c.addr.mEp.Some? && c.addr.mEp.value in r.core.mEps
  }

  /** What a router has by itself. */
  ghost predicate OwnOk(r: RouterState, i: nat) {
    && (r.core.local <==> r.core.mEps == [])
    && (forall c | c in r.conns :: ConnOk(r.conns[c], i, c) && AddressOk(r, r.conns[c]))
    && (forall c | c in r.core.inboxes :: c in r.conns)
  }

  /** A message in the inbox of connection c. */
  predicate Lying(net: Net, i: nat, c: int, m: Msg) {
    Here(net, i, m) && m.toAddr.Some? && Leads(net, i, m.toAddr.value, i, c)
  }

  /** The messages that the router holds or has held. */
  ghost predicate HeldOk(net: Net, i: nat)
    requires i < |net.routers|
  {
    && (forall c, m | c in net.routers[i].core.inboxes && m in net.routers[i].core.inboxes[c] :: Lying(net, i, c, m))
    && (forall m | m in net.routers[i].seen :: Here(net, i, m))
  }

  ghost predicate RouterOk(net: Net, i: nat)
    requires i < |net.routers|
  {
    OwnOk(net.routers[i], i) && HeldOk(net, i)
  }

  /** On the wire both addresses carry a machine endpoint, so they lead to the same place from everywhere. */
  ghost predicate WireOk(net: Net, w: (string, Msg)) {
    && Transmittable(w.1) && w.1.toAddr.Some? && w.1.toAddr.value.nEp.None? && w.1.toAddr.value.mEp == Some(w.0)
    && forall i: nat :: At(net, i, w.1)
  }

  ghost predicate Disjoint(net: Net) {
    forall i, j, ep | 0 <= i < |net.routers| && 0 <= j < |net.routers| && ep in net.routers[i].core.mEps &&
        ep in net.routers[j].core.mEps ::
      i == j
  }

  ghost predicate Inv(net: Net) {
    && Disjoint(net)
    && (forall i | 0 <= i < |net.routers| :: RouterOk(net, i))
    && (forall w | w in net.wire :: WireOk(net, w))
  }

  // ---------- what a step leaves true elsewhere ----------

  ghost predicate Grows(net: Net, net': Net) {
    && |net.routers| <= |net'.routers|
    && forall i | 0 <= i < |net.routers| ::
         var r, r' := net.routers[i], net'.routers[i];
         && r.core.local == r'.core.local
         && (forall ep | ep in r.core.mEps :: ep in r'.core.mEps)
         && (forall c | c in r.conns :: c in r'.conns && r.conns[c].nextId <= r'.conns[c].nextId)
  }

  lemma AtGrows(net: Net, net': Net, i: nat, m: Msg)
    requires Grows(net, net')
    ensures At(net, i, m) ==> At(net', i, m)
    ensures Here(net, i, m) ==> Here(net', i, m)
  {
  }

  /** Held messages stay all right when the net grows, as long as none are added. */
  lemma HeldGrows(net: Net, net': Net, i: nat)
    requires Grows(net, net') && i < |net.routers| && HeldOk(net, i)
    requires forall c, m | c in net'.routers[i].core.inboxes && m in net'.routers[i].core.inboxes[c] ::
               c in net.routers[i].core.inboxes && m in net.routers[i].core.inboxes[c]
    requires forall m | m in net'.routers[i].seen :: m in net.routers[i].seen
    ensures HeldOk(net', i)
  {
    forall c, m | c in net'.routers[i].core.inboxes && m in net'.routers[i].core.inboxes[c]
      ensures Lying(net', i, c, m) {
      assert Lying(net, i, c, m);
      AtGrows(net, net', i, m);
    }
    forall m | m in net'.routers[i].seen ensures Here(net', i, m) {
      AtGrows(net, net', i, m);
    }
  }

  /** Replacing one router: the others and the wire stay all right. */
  lemma OthersOk(net: Net, net': Net, i: nat)
    requires Inv(net) && Grows(net, net') && Disjoint(net')
    requires |net'.routers| == |net.routers| || (i == |net.routers| && |net'.routers| == i + 1)
    requires forall j | 0 <= j < |net.routers| && j != i :: net'.routers[j] == net.routers[j]
    requires i < |net'.routers| ==> RouterOk(net', i)
    requires forall w | w in net'.wire :: w in net.wire || WireOk(net', w)
    ensures Inv(net')
  {
    forall j | 0 <= j < |net'.routers| && j != i ensures RouterOk(net', j) {
      assert RouterOk(net, j);
      HeldGrows(net, net', j);
    }
    forall w | w in net'.wire ensures WireOk(net', w) {
      if w in net.wire {
        forall k: nat ensures At(net', k, w.1) {
          AtGrows(net, net', k, w.1);
        }
      }
    }
  }

  // ---------- sending ----------

  /** Where a routed message may end up. */
  ghost predicate RoutedOk(net: Net, i: nat, routed: Routed)
    requires i < |net.routers|
  {
    match routed
    case ToInbox(rEp, m) =>
      rEp in net.routers[i].core.inboxes && Lying(net, i, rEp, m)
    case ToPeer(mEp, m) => WireOk(net, (mEp, m))
    case _ => true
  }

  /** Routing keeps a message's addresses good, and a notice about it leads back to its sender. */
  lemma RouteOk(net: Net, i: nat, m: Msg)
    requires Here(net, i, m) && Disjoint(net)
    ensures RoutedOk(net, i, Route(net.routers[i].core, m))
    decreases m.subject != MSG_NOT_DELIVERED
  {
    var core := net.routers[i].core;
    if m.toAddr.Some? && m.toAddr.value.nEp.None? {
      var to := m.toAddr.value;
      if IsMine(core, to.mEp) {
        if to.rEp !in core.inboxes && m.subject != MSG_NOT_DELIVERED {
          NoticeOk(net, i, m);
          RouteOk(net, i, NotDelivered(m));
        }
      } else if !core.local && Transmittable(m) {
        assert forall k: nat :: At(net, k, m);
      }
    }
  }

  lemma NoticeOk(net: Net, i: nat, m: Msg)
    requires Here(net, i, m) && m.subject != MSG_NOT_DELIVERED
    ensures Here(net, i, NotDelivered(m))
  {
  }

  /** Replacing the connections or inboxes of one router by what a step made of them. */
  lemma PushedOk(net: Net, i: nat, routed: Routed)
    requires i < |net.routers| && RouterOk(net, i) && RoutedOk(net, i, routed)
    ensures var net' := net.(routers := net.routers[i := net.routers[i].(core := Pushed(net.routers[i].core, routed))]);
            RouterOk(net', i) && Grows(net, net') && Grows(net', net)
  {
    var net' := net.(routers := net.routers[i := net.routers[i].(core := Pushed(net.routers[i].core, routed))]);
    var r, r' := net.routers[i], net'.routers[i];
    assert OwnOk(r', i);
    forall c, m | c in r'.core.inboxes && m in r'.core.inboxes[c] ensures Lying(net', i, c, m) {
      assert m in r.core.inboxes[c] || (routed.ToInbox? && routed.rEp == c && m == routed.m);
      AtGrows(net, net', i, m);
    }
    forall m | m in r'.seen ensures Here(net', i, m) {
      AtGrows(net, net', i, m);
    }
  }

  /** The connection after the first part of a send: one more id, perhaps one more pending send. */
  lemma SentConnOk(r: RouterState, i: nat, rEp: int, m: Msg, subjects: Option<seq<string>>)
    requires rEp in r.conns && ConnOk(r.conns[rEp], i, rEp)
    ensures var s := Send(r.conns[rEp], r.core, i, m, subjects);
            && ConnOk(s.conn, i, rEp) && s.conn.addr == r.conns[rEp].addr && s.conn.nextId == r.conns[rEp].nextId + 1
  {
  }

  /** What a connection sends is a good message at its router, given what it was made of. */
  lemma NumberedOk(net: Net, net1: Net, i: nat, rEp: int, m: Msg)
    requires Inv(net) && i < |net.routers| && rEp in net.routers[i].conns
    requires m.toAddr.Some? && m.toAddr.value.nEp.None?
    requires CauseOk(net, i, m)
    requires Grows(net, net1) && rEp in net1.routers[i].conns &&
          net1.routers[i].conns[rEp].nextId > net.routers[i].conns[rEp].nextId
    ensures var c := net.routers[i].conns[rEp];
            Here(net1, i, m.(msgId := Some(c.nextId), replyAddr := Some(ReplyAddrFor(c.addr, m.toAddr.value)),
                           origin := Some(Ref(i, rEp, c.nextId))))
  {
    assert RouterOk(net, i);
  }

  /** Replacing one connection by a good one that has issued at least as many ids. */
  lemma ReplacedConnOk(net: Net, i: nat, rEp: int, conn: Conn)
    requires Inv(net) && i < |net.routers| && rEp in net.routers[i].conns
    requires ConnOk(conn, i, rEp) && conn.addr == net.routers[i].conns[rEp].addr
    requires conn.nextId >= net.routers[i].conns[rEp].nextId
    ensures var net1 := net.(routers := net.routers[i := net.routers[i].(conns := net.routers[i].conns[rEp := conn])]);
            Inv(net1) && Grows(net, net1)
  {
    var net1 := net.(routers := net.routers[i := net.routers[i].(conns := net.routers[i].conns[rEp := conn])]);
    assert RouterOk(net, i);
    assert Grows(net, net1);
    HeldGrows(net, net1, i);
    assert OwnOk(net1.routers[i], i);
    OthersOk(net, net1, i);
  }

  /** Putting a routed message where it goes. */
  lemma DeliveredOk(net: Net, i: nat, routed: Routed, wire: seq<(string, Msg)>)
    requires Inv(net) && i < |net.routers| && RoutedOk(net, i, routed)
    requires forall w | w in wire :: w in net.wire
    ensures Inv(Net(net.routers[i := net.routers[i].(core := Pushed(net.routers[i].core, routed))],
          Wired(wire, routed)))
  {
    var net' := Net(net.routers[i := net.routers[i].(core := Pushed(net.routers[i].core, routed))],
          Wired(wire, routed));
    PushedOk(net, i, routed);
    var net1 := net.(routers := net'.routers);
    if routed.ToPeer? {
      forall k: nat ensures At(net', k, routed.m) {
        AtGrows(net, net', k, routed.m);
      }
    }
    HeldGrows(net1, net', i);
    OthersOk(net, net', i);
  }

  lemma DoSendOk(net: Net, i: nat, rEp: int, m: Msg, accepts: Option<seq<string>>)
    requires Inv(net) && i < |net.routers| && rEp in net.routers[i].conns
    requires m.toAddr.Some? ==> CauseOk(net, i, m)
    ensures Inv(DoSend(net, i, rEp, m, accepts))
  {
    var r := net.routers[i];
    var c := r.conns[rEp];
    var s := Send(c, r.core, i, m, Subjects(m.subject, accepts));
    assert RouterOk(net, i);
    SentConnOk(r, i, rEp, m, Subjects(m.subject, accepts));
    ReplacedConnOk(net, i, rEp, s.conn);
    var net1 := net.(routers := net.routers[i := r.(conns := r.conns[rEp := s.conn])]);
    if m.toAddr.Some? && m.toAddr.value.nEp.None? {
      NumberedOk(net, net1, i, rEp, m);
      RouteOk(net1, i, m.(msgId := Some(c.nextId), replyAddr := Some(ReplyAddrFor(c.addr, m.toAddr.value)),
                          origin := Some(Ref(i, rEp, c.nextId))));
    }
    DeliveredOk(net1, i, s.routed, net.wire);
    assert DoSend(net, i, rEp, m, accepts)
        == Net(net1.routers[i := net1.routers[i].(core := Pushed(net1.routers[i].core, s.routed))],
            Wired(net.wire, s.routed));
  }

  /** A message in hand at one router has a reply that is good at another exactly if its reply address means the same
    * there; at the same router the reply is always good. */
  lemma ReplyCauseOk(net: Net, j: nat, i: nat, m: Msg, subject: string, contents: string)
    requires Here(net, j, m) && i < |net.routers| && m.replyAddr.Some?
    ensures CauseOk(net, i, Reply(m, subject, contents)) <==> i == j || Portable(m)
  {
  }

  // ---------- the other steps ----------

  lemma NewRouterOk(net: Net, local: bool, ep: string)
    requires Inv(net)
    ensures Inv(Next(net, NewRouter(local, ep)))
  {
    var net' := Next(net, NewRouter(local, ep));
    if net' != net {
      assert Disjoint(net') by {
        forall i, j, e | 0 <= i < |net'.routers| && 0 <= j < |net'.routers|
                         && e in net'.routers[i].core.mEps && e in net'.routers[j].core.mEps
          ensures i == j
        {
          assert i < |net.routers| ==> net'.routers[i] == net.routers[i];
          assert j < |net.routers| ==> net'.routers[j] == net.routers[j];
        }
      }
      OthersOk(net, net', |net.routers|);
    }
  }

  lemma ListenOk(net: Net, i: nat, ep: string)
    requires Inv(net)
    ensures Inv(Next(net, Listen(i, ep)))
  {
    var net' := Next(net, Listen(i, ep));
    if net' != net {
      assert RouterOk(net, i);
      assert Grows(net, net');
      HeldGrows(net, net', i);
      assert forall j | 0 <= j < |net.routers| :: ep !in net.routers[j].core.mEps;
      OthersOk(net, net', i);
    }
  }

  lemma NewConnectionOk(net: Net, i: nat, rEp: int)
    requires Inv(net)
    ensures Inv(Next(net, NewConnection(i, rEp)))
  {
    var net' := Next(net, NewConnection(i, rEp));
    if net' != net {
      assert RouterOk(net, i);
      assert Grows(net, net');
      HeldGrows(net, net', i);
      assert RouterOk(net', i);
      OthersOk(net, net', i);
    }
  }

  lemma DropConnectionOk(net: Net, i: nat, rEp: int)
    requires Inv(net)
    ensures Inv(Next(net, DropConnection(i, rEp)))
  {
    var net' := Next(net, DropConnection(i, rEp));
    if net' != net {
      assert RouterOk(net, i);
      assert Grows(net, net');
      HeldGrows(net, net', i);
      OthersOk(net, net', i);
    }
  }

  /** The heart of correlation: a reply that reaches a connection with its id pending answers that very request. */
  lemma TakeReplyOk(net: Net, i: nat, rEp: int, m: Msg)
    requires Inv(net) && i < |net.routers| && rEp in net.routers[i].conns
    requires Here(net, i, m) && m.toAddr.Some? && Leads(net, i, m.toAddr.value, i, rEp)
    ensures var c := net.routers[i].conns[rEp];
            var c' := TakeReply(c, m).0;
            ConnOk(c', i, rEp) && c'.addr == c.addr && c'.nextId == c.nextId
    ensures m.cause.Some? ==> m.cause == Some(Ref(i, rEp, m.replyId.value))
  {
    assert RouterOk(net, i);
    if m.cause.Some? {
      var cause := m.cause.value;
      assert cause.rEp == rEp && cause.router == i;
    }
  }

  function WithRouter(net: Net, i: nat, r: RouterState): Net
    requires i < |net.routers|
  {
    net.(routers := net.routers[i := r])
  }

  /** An agent gets one more good message. */
  lemma SeenMoreOk(net: Net, i: nat, m: Msg)
    requires Inv(net) && i < |net.routers| && Here(net, i, m)
    ensures Inv(WithRouter(net, i, net.routers[i].(seen := net.routers[i].seen + [m])))
  {
    var net' := WithRouter(net, i, net.routers[i].(seen := net.routers[i].seen + [m]));
    assert RouterOk(net, i);
    forall c, k | c in net'.routers[i].core.inboxes && k in net'.routers[i].core.inboxes[c]
      ensures Lying(net', i, c, k) {
      assert Lying(net, i, c, k);
      AtGrows(net, net', i, k);
    }
    forall k | k in net'.routers[i].seen ensures Here(net', i, k) {
      AtGrows(net, net', i, k);
    }
    OthersOk(net, net', i);
  }

  /** An inbox loses its next message. */
  lemma NextGoneOk(net: Net, i: nat, rEp: int)
    requires Inv(net) && i < |net.routers|
    requires rEp in net.routers[i].core.inboxes && net.routers[i].core.inboxes[rEp] != []
    ensures Inv(WithRouter(net, i, NextGone(net.routers[i], rEp)))
  {
    var net' := WithRouter(net, i, NextGone(net.routers[i], rEp));
    assert RouterOk(net, i);
    HeldGrows(net, net', i);
    assert OwnOk(net'.routers[i], i);
    OthersOk(net, net', i);
  }

  lemma DeliverOk(net: Net, i: nat, rEp: int)
    requires Inv(net)
    ensures Inv(Next(net, Deliver(i, rEp)))
  {
    var net' := Next(net, Deliver(i, rEp));
    if net' != net {
      assert RouterOk(net, i);
      var r := net.routers[i];
      var m := r.core.inboxes[rEp][0];
      assert Lying(net, i, rEp, m);
      TakeReplyOk(net, i, rEp, m);
      SeenMoreOk(net, i, m);
      var n1 := WithRouter(net, i, r.(seen := r.seen + [m]));
      NextGoneOk(n1, i, rEp);
      var n2 := WithRouter(n1, i, NextGone(n1.routers[i], rEp));
      ReplacedConnOk(n2, i, rEp, TakeReply(r.conns[rEp], m).0);
      var conns := n2.routers[i].conns[rEp := TakeReply(r.conns[rEp], m).0];
      assert net' == WithRouter(n2, i, n2.routers[i].(conns := conns));
    }
  }

  lemma FinishSendOk(net: Net, i: nat, rEp: int, id: int, shutdown: bool)
    requires Inv(net)
    ensures Inv(Next(net, FinishSend(i, rEp, id, shutdown)))
  {
    if i < |net.routers| && rEp in net.routers[i].conns && id in net.routers[i].conns[rEp].waiting {
      assert RouterOk(net, i);
      ReplacedConnOk(net, i, rEp, Finish(net.routers[i].conns[rEp], id, shutdown));
    }
  }

  /** Whether a router is running has nothing to do with what it holds. */
  lemma RunningOk(net: Net, i: nat, running: bool)
    requires Inv(net) && i < |net.routers|
    ensures Inv(WithRouter(net, i, net.routers[i].(running := running)))
  {
    var net' := WithRouter(net, i, net.routers[i].(running := running));
    assert RouterOk(net, i);
    HeldGrows(net, net', i);
    assert OwnOk(net'.routers[i], i);
    OthersOk(net, net', i);
  }

  lemma CarryOk(net: Net, k: nat, i: nat, piped: bool)
    requires Inv(net)
    ensures Inv(Next(net, Carry(k, i, piped)))
  {
    if Carries(net, k, i) {
      assert net.wire[k] in net.wire;
      assert RouterOk(net, i);
      RouteOk(net, i, net.wire[k].1);
      var routed := Route(net.routers[i].core, net.wire[k].1);
      var wire := net.wire[..k] + net.wire[k + 1..];
      DeliveredOk(net, i, routed, wire);
      var core := Pushed(net.routers[i].core, routed);
      var net1 := Net(net.routers[i := net.routers[i].(core := core)], Wired(wire, routed));
      RunningOk(net1, i, !Raises(routed, piped));
      assert Next(net, Carry(k, i, piped)) == WithRouter(net1, i, net1.routers[i].(running := !Raises(routed, piped)));
    }
  }

  lemma NextOk(net: Net, a: Action)
    requires Inv(net) && Proper(net, a)
    ensures Inv(Next(net, a))
  {
    match a {
      case NewRouter(local, ep) => NewRouterOk(net, local, ep);
      case Listen(i, ep) => ListenOk(net, i, ep);
      case NewConnection(i, rEp) => NewConnectionOk(net, i, rEp);
      case DropConnection(i, rEp) => DropConnectionOk(net, i, rEp);
      case AgentSend(i, rEp, to, subject, contents, accepts) =>
        if i < |net.routers| && rEp in net.routers[i].conns {
          DoSendOk(net, i, rEp, NewMsg(to, subject, contents), accepts);
        }
      case AgentReply(i, rEp, m, subject, contents, accepts) =>
        if i < |net.routers| && rEp in net.routers[i].conns {
          var j :| 0 <= j < |net.routers| && MayAnswer(net, j, i, m);
          assert RouterOk(net, j);
          if m.replyAddr.Some? {
            ReplyCauseOk(net, j, i, m, subject, contents);
          }
          DoSendOk(net, i, rEp, Reply(m, subject, contents), accepts);
        }
      case Deliver(i, rEp) => DeliverOk(net, i, rEp);
      case FinishSend(i, rEp, id, shutdown) => FinishSendOk(net, i, rEp, id, shutdown);
      case Carry(k, i, piped) => CarryOk(net, k, i, piped);
    }
  }

  lemma {:induction false} RunOk(net: Net, actions: seq<Action>)
    requires Inv(net) && ProperRun(net, actions)
    ensures Inv(Run(net, actions))
    decreases |actions|
  {
    if actions != [] {
      NextOk(net, actions[0]);
      RunOk(Next(net, actions[0]), actions[1..]);
    }
  }

  // ---------- the theorems ----------

  /** Request and reply. In every run in which agents reply where the message was delivered, or anywhere if its reply
    * address means the same everywhere: a send that returned a message returned one made by replying to that very
    * request, with an accepted subject; a send returns once; and the ids still waited for are distinct ids that the
    * connection has issued. */
  lemma RepliesAnswerTheirRequest(actions: seq<Action>, i: nat, rEp: int, id: int)
    requires ProperRun(EMPTY, actions)
    ensures var net := Run(EMPTY, actions);
            i < |net.routers| && rEp in net.routers[i].conns ==>
              var c := net.routers[i].conns[rEp];
              && (id in c.results && c.results[id].fut.Some? ==>
                    c.results[id].fut.value.cause == Some(Ref(i, rEp, id)) &&
                        c.results[id].fut.value.subject in c.results[id].subjects)
              && (id in c.results ==> id !in c.waiting && id !in c.pending)
              && (id in c.pending || id in c.waiting ==> 1 <= id < c.nextId)
  {
    RunOk(EMPTY, actions);
    var net := Run(EMPTY, actions);
    if i < |net.routers| {
      assert RouterOk(net, i);
    }
  }

  predicate HasResult(net: Net, i: nat, rEp: int, id: int, w: Wait) {
    && i < |net.routers| && rEp in net.routers[i].conns && id in net.routers[i].conns[rEp].results
    && net.routers[i].conns[rEp].results[id] == w
  }

  lemma SendKeepsResult(net: Net, k: nat, from: int, m: Msg, accepts: Option<seq<string>>, i: nat, rEp: int, id: int,
      w: Wait)
    requires k < |net.routers| && from in net.routers[k].conns && HasResult(net, i, rEp, id, w)
    ensures HasResult(DoSend(net, k, from, m, accepts), i, rEp, id, w)
  {
  }

  lemma ResultStays(net: Net, a: Action, i: nat, rEp: int, id: int, w: Wait)
    requires Inv(net) && HasResult(net, i, rEp, id, w)
    ensures HasResult(Next(net, a), i, rEp, id, w)
  {
    assert RouterOk(net, i);
    match a {
      case AgentSend(k, from, to, subject, contents, accepts) =>
        if k < |net.routers| && from in net.routers[k].conns {
          SendKeepsResult(net, k, from, NewMsg(to, subject, contents), accepts, i, rEp, id, w);
        }
      case AgentReply(k, from, m, subject, contents, accepts) =>
        if k < |net.routers| && from in net.routers[k].conns {
          SendKeepsResult(net, k, from, Reply(m, subject, contents), accepts, i, rEp, id, w);
        }
      case _ =>
    }
  }

  /** A result, once there, stays: no later message changes what a send returned. */
  lemma {:induction false} ResultsStay(net: Net, actions: seq<Action>, i: nat, rEp: int, id: int, w: Wait)
    requires Inv(net) && ProperRun(net, actions) && HasResult(net, i, rEp, id, w)
    ensures HasResult(Run(net, actions), i, rEp, id, w)
    decreases |actions|
  {
    if actions != [] {
      ResultStays(net, actions[0], i, rEp, id, w);
      NextOk(net, actions[0]);
      ResultsStay(Next(net, actions[0]), actions[1..], i, rEp, id, w);
    }
  }

  /** The condition on replies is exact: in every run, a reply to a message that router j was given carries, made at
    * router i, the address of the very request it answers if and only if `MayAnswer` holds. */
  lemma ReplyIsGoodExactly(actions: seq<Action>, j: nat, i: nat, m: Msg, subject: string, contents: string)
    requires ProperRun(EMPTY, actions)
    requires var net := Run(EMPTY, actions);
             j < |net.routers| && i < |net.routers| && m in net.routers[j].seen && m.replyAddr.Some?
    ensures var net := Run(EMPTY, actions);
            CauseOk(net, i, Reply(m, subject, contents)) <==> MayAnswer(net, j, i, m)
  {
    RunOk(EMPTY, actions);
    var net := Run(EMPTY, actions);
    assert RouterOk(net, j);
    ReplyCauseOk(net, j, i, m, subject, contents);
  }

  /** The reply to m as connection rEp of router i sends it. */
  function AnswerTo(net: Net, i: nat, rEp: int, m: Msg, subject: string, contents: string): Msg
    requires i < |net.routers| && rEp in net.routers[i].conns && m.replyAddr.Some?
  {
    var c := net.routers[i].conns[rEp];
    Reply(m, subject, contents).(msgId := Some(c.nextId), replyAddr := Some(ReplyAddrFor(c.addr, m.replyAddr.value)),
                                 origin := Some(Ref(i, rEp, c.nextId)))
  }

  /** m answers request o, and the answer's reply address leads from there back to connection rEp of router i. */
  predicate Answer(net: Net, i: nat, rEp: int, o: Ref, m: Msg) {
    m.cause == Some(o) && m.replyId == Some(o.msgId) && m.replyAddr.Some?
    && Leads(net, o.router, m.replyAddr.value, i, rEp)
  }

  /** The message is put into the inbox of the connection that made request o. */
  predicate Arrives(net: Net, net': Net, o: Ref, m: Msg) {
    && o.router < |net.routers| && o.router < |net'.routers|
    && o.rEp in net.routers[o.router].core.inboxes && o.rEp in net'.routers[o.router].core.inboxes
    && net'.routers[o.router].core.inboxes[o.rEp] == net.routers[o.router].core.inboxes[o.rEp] + [m]
    && net'.routers[o.router].running == net.routers[o.router].running
  }

  /** Where routing puts the reply to a message in hand. */
  lemma AnswerRouted(net: Net, j: nat, i: nat, rEp: int, m: Msg, subject: string, contents: string)
    requires Inv(net) && i < |net.routers| && rEp in net.routers[i].conns && MayAnswer(net, j, i, m) && m.origin.Some?
    requires var o := m.origin.value; o.router < |net.routers| && o.rEp in net.routers[o.router].core.inboxes
    ensures m.replyAddr.Some? && m.replyAddr.value.nEp.None?
    ensures IsMine(net.routers[i].core, m.replyAddr.value.mEp) || !net.routers[i].core.local ==>
              Answer(net, i, rEp, m.origin.value, AnswerTo(net, i, rEp, m, subject, contents))
    ensures var (core, o, answer) := (net.routers[i].core, m.origin.value, AnswerTo(net, i, rEp, m, subject, contents));
            var mEp := m.replyAddr.value.mEp;
            if IsMine(core, mEp) then o.router == i && Route(core, answer) == ToInbox(o.rEp, answer)
            else if core.local then i != j && Route(core, answer) == Routed.Raised
            else
              && Route(core, answer) == ToPeer(mEp.value, answer) && mEp.value in net.routers[o.router].core.mEps
              && Route(net.routers[o.router].core, answer) == ToInbox(o.rEp, answer)
  {
    var o := m.origin.value;
    assert RouterOk(net, j) && RouterOk(net, i) && RouterOk(net, o.router);
    assert Here(net, j, m);
    ReplyCauseOk(net, j, i, m, subject, contents);
  }

  /** Replies find their way back. Whatever connection may answer m, in any run: the answer arrives in the inbox of the
    * connection that sent m, at once or, over the wire, when it is carried to the router that owns that connection's
    * endpoint, exactly if that router is still running; and its own reply address leads back here. Only a LOCAL_MODE
    * router that was handed m by an agent elsewhere cannot send it. */
  lemma RepliesFindTheirWay(actions: seq<Action>, j: nat, i: nat, rEp: int, m: Msg, subject: string, contents: string)
    requires ProperRun(EMPTY, actions)
    requires var net := Run(EMPTY, actions);
             && i < |net.routers| && rEp in net.routers[i].conns && MayAnswer(net, j, i, m) && m.origin.Some?
             && m.origin.value.router < |net.routers|
             && m.origin.value.rEp in net.routers[m.origin.value.router].core.inboxes
    ensures m.replyAddr.Some?
    ensures var (net, o) := (Run(EMPTY, actions), m.origin.value);
            var answer := AnswerTo(net, i, rEp, m, subject, contents);
            var net1 := Next(net, AgentReply(i, rEp, m, subject, contents, None));
            && (i == j || !net.routers[i].core.local ==> Answer(net, i, rEp, o, answer))
            && if IsMine(net.routers[i].core, m.replyAddr.value.mEp) then Arrives(net, net1, o, answer)
               else if net.routers[i].core.local then i != j && net1.wire == net.wire
               else
                 && |net1.wire| == |net.wire| + 1 && net1.wire[|net.wire|].1 == answer
                 && forall piped ::
                      var net2 := Next(net1, Carry(|net.wire|, o.router, piped));
                      if net.routers[o.router].running then Arrives(net1, net2, o, answer) else net2 == net1
  {
    RunOk(EMPTY, actions);
    var net := Run(EMPTY, actions);
    AnswerRouted(net, j, i, rEp, m, subject, contents);
    AnswerSent(net, j, i, rEp, m, subject, contents);
  }

  lemma AnswerSent(net: Net, j: nat, i: nat, rEp: int, m: Msg, subject: string, contents: string)
    requires Inv(net) && i < |net.routers| && rEp in net.routers[i].conns && MayAnswer(net, j, i, m) && m.origin.Some?
    requires var o := m.origin.value; o.router < |net.routers| && o.rEp in net.routers[o.router].core.inboxes
    ensures m.replyAddr.Some?
    ensures var o := m.origin.value;
            var answer := AnswerTo(net, i, rEp, m, subject, contents);
            var net1 := Next(net, AgentReply(i, rEp, m, subject, contents, None));
            if IsMine(net.routers[i].core, m.replyAddr.value.mEp) then Arrives(net, net1, o, answer)
            else if net.routers[i].core.local then i != j && net1.wire == net.wire
            else
              && |net1.wire| == |net.wire| + 1 && net1.wire[|net.wire|].1 == answer
              && forall piped ::
                   var net2 := Next(net1, Carry(|net.wire|, o.router, piped));
                   if net.routers[o.router].running then Arrives(net1, net2, o, answer) else net2 == net1
  {
    AnswerRouted(net, j, i, rEp, m, subject, contents);
    var c := net.routers[i].conns[rEp];
    assert RouterOk(net, i);
    assert Send(c, net.routers[i].core, i, Reply(m, subject, contents), None).routed
        == Route(net.routers[i].core, AnswerTo(net, i, rEp, m, subject, contents));
  }

  /** Routing a message whose reply address is the router's own, as `send` makes it. */
  lemma RouteRaisesExactly(core: Core, m: Msg)
    requires m.toAddr.Some? && m.replyAddr.Some? && m.replyAddr.value.nEp.None? && IsMine(core, m.replyAddr.value.mEp)
    requires core.local <==> core.mEps == []
    requires !core.local && m.toAddr.value.mEp.Some? ==> Transmittable(m)
    ensures !Route(core, m).Unsendable?
    ensures Route(core, m).Raised? <==> m.toAddr.value.nEp.Some? || (core.local && m.toAddr.value.mEp.Some?)
  {
    var notice := Route(core, NotDelivered(m));
    assert notice == Dropped || notice.ToInbox?;
  }

  /** Sending raises exactly for an address that this machine cannot know: a network endpoint, or a machine endpoint
    * in LOCAL_MODE. In particular `_mRoute` never finds a connection's message without the machine endpoint that
    * its reply would need. */
  lemma SendRaisesExactly(actions: seq<Action>, i: nat, rEp: int, to: Addr, subject: string, contents: string)
    requires ProperRun(EMPTY, actions)
    requires i < |Run(EMPTY, actions).routers| && rEp in Run(EMPTY, actions).routers[i].conns
    ensures var r := Run(EMPTY, actions).routers[i];
            var routed := Send(r.conns[rEp], r.core, i, NewMsg(to, subject, contents), None).routed;
            !routed.Unsendable? && (routed.Raised? <==> to.nEp.Some? || (r.core.local && to.mEp.Some?))
  {
    RunOk(EMPTY, actions);
    assert RouterOk(Run(EMPTY, actions), i);
    var r := Run(EMPTY, actions).routers[i];
    var c := r.conns[rEp];
    if to.nEp.None? {
      var m := NewMsg(to, subject, contents).(msgId := Some(c.nextId), replyAddr := Some(ReplyAddrFor(c.addr, to)),
                                              origin := Some(Ref(i, c.addr.rEp, c.nextId)));
      RouteRaisesExactly(r.core, m);
    }
  }

  // ---------- where a message goes ----------

  /** Inbox c of router i has got m behind what was there; no other inbox, no other router and nothing on the wire has
    * changed. */
  predicate Put(net: Net, net': Net, i: nat, c: int, m: Msg) {
    && i < |net.routers| == |net'.routers| && net'.wire == net.wire
    && (forall j | 0 <= j < |net.routers| && j != i :: net'.routers[j] == net.routers[j])
    && var (r, r') := (net.routers[i], net'.routers[i]);
       && c in r.core.inboxes && r'.core == r.core.(inboxes := r.core.inboxes[c := r.core.inboxes[c] + [m]])
       && r'.running == r.running && r'.seen == r.seen
  }

  /** m has gone on the wire to endpoint ep, behind what was there, and the routers hold what they held. */
  predicate Away(net: Net, net': Net, i: nat, ep: string, m: Msg) {
    && i < |net.routers| == |net'.routers| && net'.wire == net.wire + [(ep, m)] && Undisturbed(net, net', i)
  }

  predicate Undisturbed(net: Net, net': Net, i: nat) {
    && i < |net.routers| == |net'.routers|
    && (forall j | 0 <= j < |net.routers| && j != i :: net'.routers[j] == net.routers[j])
    && net'.routers[i].(conns := net.routers[i].conns) == net.routers[i]
  }

  /** What an agent has had sent: a message to `to`, numbered as request o. */
  predicate SentAs(m: Msg, o: Ref, to: Addr, subject: string, contents: string, replyId: Option<int>,
                   cause: Option<Ref>) {
    && m.toAddr == Some(to) && m.subject == subject && m.contents == contents && m.replyId == replyId
    && m.cause == cause && m.origin == Some(o) && m.msgId == Some(o.msgId)
    && m.replyAddr.Some? && m.replyAddr.value.nEp.None? && m.replyAddr.value.rEp == o.rEp
  }

  /** The router's own notice that request o could not be delivered. */
  predicate NoticeOf(m: Msg, o: Ref) {
    && m.subject == "MSG_NOT_DELIVERED" && m.replyId == Some(o.msgId) && m.cause == Some(o)
    && m.replyAddr.None? && m.origin.None?
    && m.toAddr.Some? && m.toAddr.value.nEp.None? && m.toAddr.value.rEp == o.rEp
  }

  /** Request o of router o.router has gone to `to`: into that connection's inbox if it is one of this router, else
    * a notice about it has gone into the inbox of the connection that sent it. For another router it is on the
    * wire, unless this one is in LOCAL_MODE. */
  ghost predicate Went(net: Net, net': Net, o: Ref, to: Addr, subject: string, contents: string, replyId: Option<int>,
                       cause: Option<Ref>)
    requires o.router < |net.routers|
  {
    var core := net.routers[o.router].core;
    if to.mEp.None? || to.mEp.value in core.mEps then
      if to.rEp in core.inboxes then
        exists m :: Put(net, net', o.router, to.rEp, m) && SentAs(m, o, to, subject, contents, replyId, cause)
      else if subject != "MSG_NOT_DELIVERED" && o.rEp in core.inboxes then
        exists m :: Put(net, net', o.router, o.rEp, m) && NoticeOf(m, o)
      else
        Undisturbed(net, net', o.router) && net'.wire == net.wire
    else if core.local then
      Undisturbed(net, net', o.router) && net'.wire == net.wire
    else
      exists m :: Away(net, net', o.router, to.mEp.value, m) && SentAs(m, o, to, subject, contents, replyId, cause)
  }

  /** A message of this router that finds no inbox turns into a notice for its sender. */
  lemma NoticeRouted(core: Core, m: Msg)
    requires m.toAddr.Some? && m.toAddr.value.nEp.None? && IsMine(core, m.toAddr.value.mEp)
    requires m.toAddr.value.rEp !in core.inboxes
    requires m.replyAddr.Some? && m.replyAddr.value.nEp.None? && IsMine(core, m.replyAddr.value.mEp)
    ensures Route(core, m) ==
            if m.subject != "MSG_NOT_DELIVERED" && m.replyAddr.value.rEp in core.inboxes
            then ToInbox(m.replyAddr.value.rEp, NotDelivered(m)) else Dropped
  {
    if m.subject != MSG_NOT_DELIVERED {
      assert Route(core, m) == Route(core, NotDelivered(m));
    }
  }

  lemma DoSendWent(net: Net, i: nat, rEp: int, m: Msg, accepts: Option<seq<string>>)
    requires Inv(net) && i < |net.routers| && rEp in net.routers[i].conns
    requires m.toAddr.Some? && m.toAddr.value.nEp.None?
    ensures Went(net, DoSend(net, i, rEp, m, accepts), Ref(i, rEp, net.routers[i].conns[rEp].nextId), m.toAddr.value,
                 m.subject, m.contents, m.replyId, m.cause)
  {
    assert RouterOk(net, i);
    var (r, to, net') := (net.routers[i], m.toAddr.value, DoSend(net, i, rEp, m, accepts));
    var c := r.conns[rEp];
    var m1 := m.(msgId := Some(c.nextId), replyAddr := Some(ReplyAddrFor(c.addr, to)),
                 origin := Some(Ref(i, rEp, c.nextId)));
    assert SentAs(m1, Ref(i, rEp, c.nextId), to, m.subject, m.contents, m.replyId, m.cause);
    if to.mEp.None? || to.mEp.value in r.core.mEps {
      if to.rEp in r.core.inboxes {
        assert Put(net, net', i, to.rEp, m1);
      } else {
        NoticeRouted(r.core, m1);
        if m.subject != MSG_NOT_DELIVERED && rEp in r.core.inboxes {
          assert Put(net, net', i, rEp, NotDelivered(m1)) && NoticeOf(NotDelivered(m1), Ref(i, rEp, c.nextId));
        }
      }
    } else if !r.core.local {
      assert Away(net, net', i, to.mEp.value, m1);
    }
  }

  /** Whatever an agent sends, in any proper run and to any address of this machine, goes exactly where that says,
    * and if there is nobody the connection that sent it is told. */
  lemma SendsGoWhereTheySay(actions: seq<Action>, i: nat, rEp: int, to: Addr, subject: string, contents: string,
                            accepts: Option<seq<string>>)
    requires ProperRun(EMPTY, actions) && to.nEp.None?
    requires i < |Run(EMPTY, actions).routers| && rEp in Run(EMPTY, actions).routers[i].conns
    ensures var net := Run(EMPTY, actions);
            Went(net, Next(net, AgentSend(i, rEp, to, subject, contents, accepts)),
                 Ref(i, rEp, net.routers[i].conns[rEp].nextId), to, subject, contents, None, None)
  {
    RunOk(EMPTY, actions);
    DoSendWent(Run(EMPTY, actions), i, rEp, NewMsg(to, subject, contents), accepts);
  }

  /** The same for a reply, which goes to the reply address of the message it answers. */
  lemma RepliesGoWhereTheySay(actions: seq<Action>, i: nat, rEp: int, m: Msg, subject: string, contents: string,
                              accepts: Option<seq<string>>)
    requires ProperRun(EMPTY, actions) && m.replyAddr.Some? && m.replyAddr.value.nEp.None?
    requires i < |Run(EMPTY, actions).routers| && rEp in Run(EMPTY, actions).routers[i].conns
    ensures var net := Run(EMPTY, actions);
            Went(net, Next(net, AgentReply(i, rEp, m, subject, contents, accepts)),
                 Ref(i, rEp, net.routers[i].conns[rEp].nextId), m.replyAddr.value, subject, contents, m.msgId, m.origin)
  {
    RunOk(EMPTY, actions);
    DoSendWent(Run(EMPTY, actions), i, rEp, Reply(m, subject, contents), accepts);
  }

  /** What a send leaves at its connection: one id is used up, and a send with a timeout, unless it raised, waits for a
    * reply to that id with its own subject or one of the additional ones. */
  lemma SendsAreNumbered(actions: seq<Action>, i: nat, rEp: int, to: Addr, subject: string, contents: string,
                         accepts: Option<seq<string>>)
    requires ProperRun(EMPTY, actions) && to.nEp.None?
    requires i < |Run(EMPTY, actions).routers| && rEp in Run(EMPTY, actions).routers[i].conns
    ensures var net := Run(EMPTY, actions);
            var net' := Next(net, AgentSend(i, rEp, to, subject, contents, accepts));
            && i < |net'.routers| && net'.routers[i].conns.Keys == net.routers[i].conns.Keys
            && (forall c | c in net.routers[i].conns && c != rEp :: net'.routers[i].conns[c] == net.routers[i].conns[c])
            && var (r, c, c') := (net.routers[i], net.routers[i].conns[rEp], net'.routers[i].conns[rEp]);
               var waits := accepts.Some? && !(r.core.local && to.mEp.Some?);
               && c'.addr == c.addr && c'.nextId == c.nextId + 1 && c'.results == c.results
               && c'.waiting == (if waits then c.waiting[c.nextId := Wait([subject] + accepts.value, None)]
                                 else c.waiting)
               && (waits ==> c'.pending == c.pending[c.nextId := [subject] + accepts.value])
               && (accepts.None? ==> c'.pending == c.pending)
  {
    SendRaisesExactly(actions, i, rEp, to, subject, contents);
  }

  // ---------- connections' own addresses ----------

  /** A connection's own address names the first endpoint of its router, if it has any. */
  predicate AddressedByFirst(net: Net) {
    forall i, c | 0 <= i < |net.routers| && c in net.routers[i].conns ::
      var mEps := net.routers[i].core.mEps;
      net.routers[i].conns[c].addr == Addr(None, if mEps == [] then None else Some(mEps[0]), c)
  }

  lemma AddressedSend(net: Net, i: nat, rEp: int, m: Msg, accepts: Option<seq<string>>)
    requires AddressedByFirst(net) && i < |net.routers| && rEp in net.routers[i].conns
    ensures AddressedByFirst(DoSend(net, i, rEp, m, accepts))
  {
    var (r, net') := (net.routers[i], DoSend(net, i, rEp, m, accepts));
    assert net'.routers[i].conns[rEp].addr == r.conns[rEp].addr && net'.routers[i].core.mEps == r.core.mEps;
  }

  /** A router whose endpoints stay, or that gets its connections' first one anew. */
  lemma AddressedRouter(net: Net, i: nat, r: RouterState)
    requires AddressedByFirst(net) && i < |net.routers|
    requires r.core.mEps != [] ==> net.routers[i].core.mEps != [] && net.routers[i].core.mEps[0] == r.core.mEps[0]
    requires r.core.mEps == [] ==> net.routers[i].core.mEps == []
    requires forall c | c in r.conns ::
               || (c in net.routers[i].conns && r.conns[c].addr == net.routers[i].conns[c].addr)
               || r.conns[c].addr == Addr(None, if r.core.mEps == [] then None else Some(r.core.mEps[0]), c)
    ensures AddressedByFirst(net.(routers := net.routers[i := r]))
  {
  }

  lemma AddressedStep(net: Net, a: Action)
    requires Inv(net) && AddressedByFirst(net)
    ensures AddressedByFirst(Next(net, a))
  {
    var net' := Next(net, a);
    if a.AgentSend? {
      if net' != net {
        AddressedSend(net, a.i, a.rEp, NewMsg(a.to, a.subject, a.contents), a.accepts);
      }
    } else if a.AgentReply? {
      if net' != net {
        AddressedSend(net, a.i, a.rEp, Reply(a.m, a.subject, a.contents), a.accepts);
      }
    } else if !a.NewRouter? && net' != net {
      assert RouterOk(net, a.i);
      AddressedRouter(net, a.i, net'.routers[a.i]);
    }
  }

  /** In every proper run every connection is addressed by the first endpoint of its router. */
  lemma {:induction false} AddressedRun(net: Net, actions: seq<Action>)
    requires Inv(net) && AddressedByFirst(net) && ProperRun(net, actions)
    ensures AddressedByFirst(Run(net, actions))
    decreases |actions|
  {
    if actions != [] {
      NextOk(net, actions[0]);
      AddressedStep(net, actions[0]);
      AddressedRun(Next(net, actions[0]), actions[1..]);
    }
  }

  /** A message on the wire whose router i has no such inbox, and that is no notice itself. */
  predicate Stranded(net: Net, k: nat, i: nat) {
    && k < |net.wire| && i < |net.routers| && net.wire[k].0 in net.routers[i].core.mEps
    && net.wire[k].1.subject != MSG_NOT_DELIVERED
    && net.wire[k].1.toAddr.Some? && net.wire[k].1.toAddr.value.rEp !in net.routers[i].core.inboxes
  }

  /** ... and whose sender is on another router. */
  predicate Strayed(net: Net, k: nat, i: nat) {
    Stranded(net, k, i) && net.wire[k].1.origin.Some? && net.wire[k].1.origin.value.router != i
  }

  /** What routing makes of a message that is carried to router i. */
  lemma CarriedGives(net: Net, k: nat, i: nat)
    requires Inv(net) && k < |net.wire| && i < |net.routers| && net.wire[k].0 in net.routers[i].core.mEps
    ensures net.wire[k].1.origin.Some?
    ensures var routed := Route(net.routers[i].core, net.wire[k].1);
            !routed.Raised? && (routed.Unsendable? <==> Strayed(net, k, i))
    ensures Stranded(net, k, i) ==>
              var (routed, o) := (Route(net.routers[i].core, net.wire[k].1), net.wire[k].1.origin.value);
              routed.ToInbox? <==> o.router == i && o.rEp in net.routers[i].core.inboxes
  {
    assert net.wire[k] in net.wire;
    assert RouterOk(net, i);
    assert At(net, i, net.wire[k].1);
  }

  /** The notice that a message could not be delivered reaches its sender exactly when the sender's connection is on
    * the very router that gave up: a notice has no reply address, so it cannot cross to another router. */
  lemma NoticesDoNotCross(actions: seq<Action>, k: nat, i: nat)
    requires ProperRun(EMPTY, actions) && Stranded(Run(EMPTY, actions), k, i)
    ensures var net := Run(EMPTY, actions);
            var m := net.wire[k].1;
            && m.origin.Some?
            && var (o, routed) := (m.origin.value, Route(net.routers[i].core, m));
               && (routed.ToInbox? <==> o.router == i && o.rEp in net.routers[i].core.inboxes)
               && (routed.Unsendable? <==> o.router != i)
  {
    RunOk(EMPTY, actions);
    CarriedGives(Run(EMPTY, actions), k, i);
  }

  /** Such a notice ends the router's main loop if there is a pipe to its endpoint, and nothing else ever does: in every
    * run, an action stops a running router if and only if it hands it a stray message while that pipe is known. */
  lemma RouterStopsExactly(actions: seq<Action>, a: Action, i: nat)
    requires ProperRun(EMPTY, actions)
    requires i < |Run(EMPTY, actions).routers| && Run(EMPTY, actions).routers[i].running
    ensures var net := Run(EMPTY, actions);
            var net' := Next(net, a);
            && i < |net'.routers|
            && (!net'.routers[i].running <==> a.Carry? && a.i == i && a.piped && Strayed(net, a.k, i))
  {
    RunOk(EMPTY, actions);
    var net := Run(EMPTY, actions);
    if a.Carry? && Carries(net, a.k, a.i) {
      CarriedGives(net, a.k, a.i);
    }
  }

  /** A router that was stopped hands nothing to its agents any more, whatever happens. */
  lemma {:induction false} StoppedServesNothing(net: Net, actions: seq<Action>, i: nat)
    requires i < |net.routers| && !net.routers[i].running
    ensures var net' := Run(net, actions);
            i < |net'.routers| && !net'.routers[i].running && net'.routers[i].seen == net.routers[i].seen
    decreases |actions|
  {
    if actions != [] {
      StoppedServesNothing(Next(net, actions[0]), actions[1..], i);
    }
  }

  /** A message that the wire carries to router i: it goes into its inbox, or turns into a notice for its sender if that
    * is a connection of the same router. */
  lemma CarriedGoesWhereItSays(actions: seq<Action>, k: nat, i: nat, piped: bool)
    requires ProperRun(EMPTY, actions) && Carries(Run(EMPTY, actions), k, i)
    ensures var net := Run(EMPTY, actions);
            var (m, off) := (net.wire[k].1, net.(wire := net.wire[..k] + net.wire[k + 1..]));
            var net' := Next(net, Carry(k, i, piped));
            && m.toAddr.Some? && m.origin.Some?
            && var (to, o, inboxes) := (m.toAddr.value.rEp, m.origin.value, net.routers[i].core.inboxes);
               if to in inboxes then Put(off, net', i, to, m)
               else if m.subject != "MSG_NOT_DELIVERED" && o.router == i && o.rEp in inboxes then
                 exists n :: Put(off, net', i, o.rEp, n) && NoticeOf(n, o)
               else
                 && |net'.routers| == |net.routers| && net'.wire == off.wire
                 && (forall j | 0 <= j < |net.routers| && j != i :: net'.routers[j] == net.routers[j])
                 && net'.routers[i].(running := true) == net.routers[i]
  {
    RunOk(EMPTY, actions);
    var net := Run(EMPTY, actions);
    var (m, r) := (net.wire[k].1, net.routers[i]);
    assert net.wire[k] in net.wire && RouterOk(net, i) && At(net, i, m);
    CarriedGives(net, k, i);
    if m.toAddr.value.rEp !in r.core.inboxes {
      var o := m.origin.value;
      if m.subject != MSG_NOT_DELIVERED && o.router == i {
        NoticeRouted(r.core, m);
        if o.rEp in r.core.inboxes {
          var (off, net') := (net.(wire := net.wire[..k] + net.wire[k + 1..]), Next(net, Carry(k, i, piped)));
          assert Put(off, net', i, o.rEp, NotDelivered(m)) && NoticeOf(NotDelivered(m), o);
        }
      }
    }
  }

  /** What a delivery leaves at its connection, in every proper run: the next message is out of the inbox and in the
    * agent's hands. It is the result of a send that waits exactly if it replies to that send, which has had no
    * reply yet, with a subject that it accepts; a first reply with another subject ends the waiting for one. */
  lemma DeliveriesResolveExactly(actions: seq<Action>, i: nat, rEp: int)
    requires ProperRun(EMPTY, actions)
    requires var net := Run(EMPTY, actions);
             && i < |net.routers| && net.routers[i].running && rEp in net.routers[i].conns
             && rEp in net.routers[i].core.inboxes && net.routers[i].core.inboxes[rEp] != []
    ensures var net := Run(EMPTY, actions);
            var net' := Next(net, Deliver(i, rEp));
            && i < |net'.routers| && rEp in net'.routers[i].conns && rEp in net'.routers[i].core.inboxes
            && var (r, r') := (net.routers[i], net'.routers[i]);
               var (m, c, c') := (r.core.inboxes[rEp][0], r.conns[rEp], r'.conns[rEp]);
               && r'.core.inboxes[rEp] == r.core.inboxes[rEp][1..] && r'.seen == r.seen + [m]
               && c'.pending == c.pending - (if m.replyId.Some? then {m.replyId.value} else {})
               && c'.results == c.results && c'.waiting.Keys == c.waiting.Keys
               && forall id | id in c.waiting ::
                    c'.waiting[id] == c.waiting[id].(
                      fut := if m.replyId == Some(id) && id in c.pending && m.subject in c.waiting[id].subjects
                             then Some(m) else c.waiting[id].fut)
  {
    RunOk(EMPTY, actions);
    var r := Run(EMPTY, actions).routers[i];
    assert RouterOk(Run(EMPTY, actions), i) && ConnOk(r.conns[rEp], i, rEp);
  }

  /** A send that is finished returns the reply that it has got, or Missing if it has none or the router shuts down, and
    * waits no longer; no other send of the connection is touched. */
  lemma FinishesWithItsReply(net: Net, i: nat, rEp: int, id: int, shutdown: bool)
    requires i < |net.routers| && rEp in net.routers[i].conns && id in net.routers[i].conns[rEp].waiting
    ensures var net' := Next(net, FinishSend(i, rEp, id, shutdown));
            && i < |net'.routers| && rEp in net'.routers[i].conns && net'.wire == net.wire
            && net'.routers[i].core == net.routers[i].core
            && var (c, c') := (net.routers[i].conns[rEp], net'.routers[i].conns[rEp]);
               && id in c'.results && c'.results[id].subjects == c.waiting[id].subjects
               && c'.results[id].fut == (if shutdown then None else c.waiting[id].fut)
               && id !in c'.waiting && id !in c'.pending && c'.nextId == c.nextId
               && forall k | k != id ::
                    && (k in c'.waiting <==> k in c.waiting) && (k in c.waiting ==> c'.waiting[k] == c.waiting[k])
                    && (k in c'.pending <==> k in c.pending) && (k in c.pending ==> c'.pending[k] == c.pending[k])
                    && (k in c'.results <==> k in c.results) && (k in c.results ==> c'.results[k] == c.results[k])
  {
  }

  function NewRouterState(ep: string): RouterState {
    RouterState(Core(false, [ep], map[]), map[], true, [])
  }

  lemma TwoRouters()
    ensures Next(Next(EMPTY, NewRouter(false, "a")), NewRouter(false, "b"))
         == Net([NewRouterState("a"), NewRouterState("b")], [])
  {
    var n1 := Next(EMPTY, NewRouter(false, "a"));
    assert !Owned(EMPTY, "a");
    assert n1.routers[0].core.mEps == ["a"] && !Owned(n1, "b");
  }

  /** A connection writes to one that the other router never had, and the message is carried there. */
  const STRAYING := [NewRouter(false, "a"), NewRouter(false, "b"), NewConnection(0, 3),
                     AgentSend(0, 3, Addr(None, Some("b"), 9), "S", "", None), Carry(0, 1, true)]

  lemma Straying() returns (n3: Net, n4: Net)
    ensures n3 == Next(Next(Next(EMPTY, STRAYING[0]), STRAYING[1]), STRAYING[2]) && n4 == Next(n3, STRAYING[3])
    ensures Strayed(n4, 0, 1) && n4.routers[1].running && |n4.wire| == 1
  {
    TwoRouters();
    n3 := Next(Net([NewRouterState("a"), NewRouterState("b")], []), STRAYING[2]);
    n4 := Next(n3, STRAYING[3]);
    assert "a"[0] != "b"[0];
    assert n4.wire[0].0 == "b" && n4.routers[1] == NewRouterState("b");
  }

  lemma StrayingRun(n3: Net, n4: Net)
    requires n3 == Next(Next(Next(EMPTY, STRAYING[0]), STRAYING[1]), STRAYING[2]) && n4 == Next(n3, STRAYING[3])
    ensures Run(EMPTY, STRAYING[..4]) == n4 && Run(EMPTY, STRAYING) == Next(n4, STRAYING[4])
  {
    var n1 := Next(EMPTY, STRAYING[0]);
    var n2 := Next(n1, STRAYING[1]);
    var p := STRAYING[..4];
    RunStep(n3, p, 3);
    RunStep(n2, p, 2);
    RunStep(n1, p, 1);
    RunStep(EMPTY, p, 0);
    assert p[0..] == p && STRAYING[4..] == [STRAYING[4]] && STRAYING == p + STRAYING[4..];
    RunConcat(EMPTY, p, STRAYING[4..]);
    RunStep(n4, STRAYING, 4);
  }

  /** It happens: the notice is lost, and if the pipe is known, the router that wanted to send it stops. */
  lemma NoticeStopsRouter()
    ensures var net := Run(EMPTY, STRAYING[..4]);
            ProperRun(EMPTY, STRAYING) && Strayed(net, 0, 1) && net.routers[1].running
    ensures var net := Run(EMPTY, STRAYING);
            |net.routers| == 2 && !net.routers[1].running
  {
    var n3, n4 := Straying();
    StrayingRun(n3, n4);
    ProperWithoutReplies(EMPTY, STRAYING);
    ProperWithoutReplies(EMPTY, STRAYING[..4]);
    RouterStopsExactly(STRAYING[..4], STRAYING[4], 1);
    assert |n4.routers| == 2;
  }

  lemma {:induction false} ProperWithoutReplies(net: Net, actions: seq<Action>)
    requires forall a | a in actions :: !a.AgentReply?
    ensures ProperRun(net, actions)
    decreases |actions|
  {
    if actions != [] {
      assert actions[0] in actions;
      assert forall a | a in actions[1..] :: a in actions;
      ProperWithoutReplies(Next(net, actions[0]), actions[1..]);
    }
  }

  // ---------- why replies must be made where the message was delivered ----------

  /** A request that a connection of the first router sends to its neighbour, and so with a reply address that only
    * means something at that router. */
  const REQUEST := Msg(Some(Addr(None, None, 3)), Some(Addr(None, None, 4)), "S", Some(1), None, "",
      Some(Ref(0, 3, 1)), None)

  const MISDIRECTED := [
    NewRouter(false, "a"), NewRouter(false, "b"), NewConnection(0, 3), NewConnection(0, 4), NewConnection(1, 3),
    AgentSend(1, 3, Addr(None, Some("c"), 3), "S", "", Some([])),
    AgentSend(0, 3, Addr(None, None, 4), "S", "", None),
    Deliver(0, 4),
    AgentReply(1, 3, REQUEST, "S", "", None),
    Deliver(1, 3),
    FinishSend(1, 3, 1, false)]

  lemma RunStep(net: Net, actions: seq<Action>, k: nat)
    requires k < |actions|
    ensures Run(net, actions[k..]) == Run(Next(net, actions[k]), actions[k + 1..])
    ensures k + 1 == |actions| ==> Run(net, actions[k..]) == Next(net, actions[k])
  {
    assert actions[k..][0] == actions[k] && actions[k..][1..] == actions[k + 1..];
  }

  /** Two routers, and three connections of them. */
  lemma ThreeConnections() returns (n2: Net, n3: Net, n4: Net)
    ensures n2 == Next(Next(EMPTY, MISDIRECTED[0]), MISDIRECTED[1])
    ensures n3 == Next(n2, MISDIRECTED[2]) && n4 == Next(n3, MISDIRECTED[3])
    ensures Next(n4, MISDIRECTED[4]).wire == []
    ensures Next(n4, MISDIRECTED[4]).routers == [
              RouterState(Core(false, ["a"], map[3 := [], 4 := []]),
                          map[3 := NewConn(Addr(None, Some("a"), 3)), 4 := NewConn(Addr(None, Some("a"), 4))],
                          true, []),
              RouterState(Core(false, ["b"], map[3 := []]), map[3 := NewConn(Addr(None, Some("b"), 3))], true, [])]
  {
    TwoRouters();
    n2 := Net([NewRouterState("a"), NewRouterState("b")], []);
    n3 := Next(n2, MISDIRECTED[2]);
    n4 := Next(n3, MISDIRECTED[3]);
  }

  /** The state once the two routers have their connections. */
  lemma MisdirectedSetUp()
    ensures Run(EMPTY, MISDIRECTED[..5]).wire == []
    ensures Run(EMPTY, MISDIRECTED[..5]).routers == [
              RouterState(Core(false, ["a"], map[3 := [], 4 := []]),
                          map[3 := NewConn(Addr(None, Some("a"), 3)), 4 := NewConn(Addr(None, Some("a"), 4))],
                          true, []),
              RouterState(Core(false, ["b"], map[3 := []]), map[3 := NewConn(Addr(None, Some("b"), 3))], true, [])]
  {
    var n2, n3, n4 := ThreeConnections();
    var a := MISDIRECTED[..5];
    RunStep(n4, a, 4);
    RunStep(n3, a, 3);
    RunStep(n2, a, 2);
    RunStep(Next(EMPTY, MISDIRECTED[0]), a, 1);
    RunStep(EMPTY, a, 0);
    assert a[0..] == a;
  }

  lemma {:induction false} RunConcat(net: Net, p: seq<Action>, q: seq<Action>)
    ensures Run(net, p + q) == Run(Run(net, p), q)
    decreases |p|
  {
    if p == [] {
      assert p + q == q;
    } else {
      assert (p + q)[1..] == p[1..] + q;
      RunConcat(Next(net, p[0]), p[1..], q);
    }
  }

  const WAITING_CONN := Conn(Addr(None, Some("b"), 3), 2, map[1 := ["S"]], map[1 := Wait(["S"], None)], map[])

  /** A connection of the second router asks something of a router that nobody answers for. */
  lemma AsksElsewhere(n5: Net) returns (n6: Net)
    requires |n5.routers| == 2
    requires n5.routers[1] == RouterState(Core(false, ["b"], map[3 := []]),
          map[3 := NewConn(Addr(None, Some("b"), 3))], true, [])
    ensures n6 == Next(n5, MISDIRECTED[5]) && |n6.routers| == 2 && n6.routers[0] == n5.routers[0]
    ensures n6.routers[1] == RouterState(Core(false, ["b"], map[3 := []]), map[3 := WAITING_CONN], true, [])
  {
    n6 := Next(n5, MISDIRECTED[5]);
    assert "c"[0] != "b"[0] && ["S"] + [] == ["S"];
    assert n6.routers[1].conns[3] == WAITING_CONN && n6.routers[1].core == n5.routers[1].core;
  }

  /** Both connections ask something of someone, and the neighbour is given its request. */
  lemma MisdirectedAsks(n5: Net)
    requires n5 == Run(EMPTY, MISDIRECTED[..5])
    ensures var n8 := Run(n5, MISDIRECTED[5..8]);
            |n8.routers| == 2 && n8.routers[1] == RouterState(Core(false, ["b"], map[3 := []]),
                map[3 := WAITING_CONN], true, [])
  {
    MisdirectedSetUp();
    var a := MISDIRECTED[5..8];
    var n6 := AsksElsewhere(n5);
    var n7 := Next(n6, a[1]);
    assert n7.routers[1] == n6.routers[1] && |n7.routers| == 2;
    var n8 := Next(n7, a[2]);
    assert n8.routers[1] == n7.routers[1] && |n8.routers| == 2;
    RunStep(n7, a, 2);
    RunStep(n6, a, 1);
    RunStep(n5, a, 0);
    assert a[0..] == a;
  }

  /** The neighbour's agent answers on a connection it has at the second router, and the answer lands there. */
  lemma AnswersAstray(n8: Net) returns (n9: Net, m: Msg)
    requires |n8.routers| == 2
    requires n8.routers[1] == RouterState(Core(false, ["b"], map[3 := []]), map[3 := WAITING_CONN], true, [])
    ensures n9 == Next(n8, MISDIRECTED[8]) && |n9.routers| == 2 && n9.routers[1].running
    ensures n9.routers[1].core.inboxes == map[3 := [m]] && 3 in n9.routers[1].conns
    ensures n9.routers[1].conns[3].pending == WAITING_CONN.pending
    ensures n9.routers[1].conns[3].waiting == WAITING_CONN.waiting
    ensures m.cause == Some(Ref(0, 3, 1)) && m.replyId == Some(1) && m.subject == "S"
  {
    n9 := Next(n8, MISDIRECTED[8]);
    m := n9.routers[1].core.inboxes[3][0];
    assert n9.routers[1].core.inboxes[3] == [m];
  }

  /** The rest of the run. */
  lemma MisdirectedAnswers(n8: Net)
    requires |n8.routers| == 2
    requires n8.routers[1] == RouterState(Core(false, ["b"], map[3 := []]), map[3 := WAITING_CONN], true, [])
    ensures var n11 := Run(n8, MISDIRECTED[8..]);
            && |n11.routers| == 2 && 3 in n11.routers[1].conns && 1 in n11.routers[1].conns[3].results
            && n11.routers[1].conns[3].results[1].fut.Some?
            && n11.routers[1].conns[3].results[1].fut.value.cause == Some(Ref(0, 3, 1))
  {
    var a := MISDIRECTED[8..];
    var n9, m := AnswersAstray(n8);
    var n10 := Next(n9, a[1]);
    assert 1 in n10.routers[1].conns[3].waiting && n10.routers[1].conns[3].waiting[1].fut == Some(m);
    var n11 := Next(n10, a[2]);
    RunStep(n10, a, 2);
    RunStep(n9, a, 1);
    RunStep(n8, a, 0);
    assert a[0..] == a;
  }

  /** The condition is needed: a reply made on another router's connection, to an address that means nothing there, can
    * end up as the answer to a request it does not answer. */
  lemma MisdirectedReplyMisleads()
    ensures var net := Run(EMPTY, MISDIRECTED);
            && |net.routers| == 2 && 3 in net.routers[1].conns && 1 in net.routers[1].conns[3].results
            && net.routers[1].conns[3].results[1].fut.Some?
            && net.routers[1].conns[3].results[1].fut.value.cause == Some(Ref(0, 3, 1))
  {
    var n5 := Run(EMPTY, MISDIRECTED[..5]);
    MisdirectedAsks(n5);
    MisdirectedAnswers(Run(n5, MISDIRECTED[5..8]));
    RunConcat(EMPTY, MISDIRECTED[..5], MISDIRECTED[5..]);
    RunConcat(n5, MISDIRECTED[5..8], MISDIRECTED[8..]);
    assert MISDIRECTED == MISDIRECTED[..5] + MISDIRECTED[5..];
    assert MISDIRECTED[5..] == MISDIRECTED[5..8] + MISDIRECTED[8..];
  }
}
