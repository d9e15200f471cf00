/** Messages, connections and routers of one machine (py/vlmessaging/_core.py).
  *
  * A router's inboxes and a connection's pending replies are values here; the classes at the end update them in
  * place. Everything up to an `await` is one step.
  */
module Messaging {
  import opened Wrappers

  /** py/vlmessaging/_core.py: Addr. */
  datatype Addr = Addr(nEp: Option<string>, mEp: Option<string>, rEp: int)

  /** Which request of which connection of which router. Requests are numbered by their connection. */
  datatype Ref = Ref(router: nat, rEp: int, msgId: int)

  /** `origin` records the request this message is, and `cause` the one it was made to answer; the source does not
    * keep them. A message made by a router itself has no origin. */
  datatype Msg = Msg(
    replyAddr: Option<Addr>,
    toAddr: Option<Addr>,
    subject: string,
    msgId: Option<int>,
    replyId: Option<int>,
    contents: string,
    origin: Option<Ref>,
    cause: Option<Ref>)

  const DIRECTORY_REP := 1
  const FIRST_CONNECTION_ID := 3

  const MSG_NOT_DELIVERED := "MSG_NOT_DELIVERED"

  function NewMsg(toAddr: Addr, subject: string, contents: string): Msg {
    Msg(None, Some(toAddr), subject, None, None, contents, None, None)
  }

  /** Msg.reply */
  function Reply(m: Msg, subject: string, contents: string): Msg {
    Msg(None, m.replyAddr, subject, None, m.msgId, contents, None, m.origin)
  }

  predicate IsReply(m: Msg) {
    m.replyId.Some?
  }

  // ---------- routing ----------

  /** The part of a router that routing reads and writes. `local` is LOCAL_MODE, otherwise MACHINE_MODE. */
  datatype Core = Core(local: bool, mEps: seq<string>, inboxes: map<int, seq<Msg>>)

  /** Unsendable: a message for another router that no pipe can carry. If there is a pipe, `_mRoute` raises; while the
    * router is being dialled the message is accumulated first and fails when it is encoded (see SocketBundle). */
  datatype Routed =
    | ToInbox(rEp: int, m: Msg)
    | ToPeer(mEp: string, m: Msg)
    | Unsendable(mEp: string, m: Msg)
    | Dropped
    | Raised

  predicate IsMine(core: Core, mEp: Option<string>) {
    mEp.None? || mEp.value in core.mEps
  }

  /** The router's own notice: it is never numbered by a connection and has no reply address. */
  function NotDelivered(m: Msg): Msg {
    Reply(m, MSG_NOT_DELIVERED, "").(msgId := Some(-1))
  }

  /** What a pipe can carry: the wire format holds a reply address, and `_mRoute` wants its machine endpoint. */
  predicate Transmittable(m: Msg) {
    m.replyAddr.Some? && m.replyAddr.value.mEp.Some?
  }

  /** Router._route */
  function Route(core: Core, m: Msg): Routed
    decreases m.subject != MSG_NOT_DELIVERED
  {
    if m.toAddr.None? || m.toAddr.value.nEp.Some? then Raised
    else if IsMine(core, m.toAddr.value.mEp) then
      if m.toAddr.value.rEp in core.inboxes then ToInbox(m.toAddr.value.rEp, m)
      else if m.subject == MSG_NOT_DELIVERED then Dropped
      else Route(core, NotDelivered(m))
    else if core.local then Raised
    else if !Transmittable(m) then Unsendable(m.toAddr.value.mEp.value, m)
    else ToPeer(m.toAddr.value.mEp.value, m)
  }

  /** Only the message itself or the notice about it can reach an inbox. */
  lemma {:induction false} RouteGives(core: Core, m: Msg)
    ensures var routed := Route(core, m);
            routed.ToInbox? ==> routed.rEp in core.inboxes && (routed.m == m || routed.m == NotDelivered(m))
    decreases m.subject != MSG_NOT_DELIVERED
  {
    if m.subject != MSG_NOT_DELIVERED {
      RouteGives(core, NotDelivered(m));
      assert Route(core, NotDelivered(m)).ToInbox? ==> Route(core, NotDelivered(m)).m == NotDelivered(m);
    }
  }

  function Pushed(core: Core, routed: Routed): Core {
    if routed.ToInbox? && routed.rEp in core.inboxes
    then core.(inboxes := core.inboxes[routed.rEp := core.inboxes[routed.rEp] + [routed.m]])
    else core
  }

  // ---------- connections ----------

  /** A coroutine suspended in `send`: the subjects it accepts and its future. */
  datatype Wait = Wait(subjects: seq<string>, fut: Option<Msg>)

  /** `pending` is `_futureAndSubjectsByReplyId`. `waiting` are the suspended sends and `results` the finished ones
    * with what they returned, None standing for Missing. */
  datatype Conn = Conn(addr: Addr, nextId: int, pending: map<int, seq<string>>, waiting: map<int, Wait>,
                       results: map<int, Wait>)

  /** The address of a new connection of a router. */
  function AddrFor(core: Core, rEp: int): Addr {
    Addr(None, if core.mEps == [] then None else Some(core.mEps[0]), rEp)
  }

  function NewConn(addr: Addr): Conn {
    Conn(addr, 1, map[], map[], map[])
  }

  /** The reply address that `send` fills in. */
  function ReplyAddrFor(own: Addr, to: Addr): Addr {
    if to.nEp.None? then
      if to.mEp.None? then Addr(None, None, own.rEp) else Addr(None, own.mEp, own.rEp)
    else own
  }

  datatype SendStep = SendStep(conn: Conn, core: Core, routed: Routed)

  /** Connection.send up to its `await`; `subjects` are the accepted ones when there is a timeout. */
  function Send(conn: Conn, core: Core, router: nat, m: Msg, subjects: Option<seq<string>>): SendStep {
    var id := conn.nextId;
    var conn1 := conn.(nextId := id + 1);
    if m.toAddr.None? then SendStep(conn1, core, Raised)
    else
      var m1 := m.(msgId := Some(id), replyAddr := Some(ReplyAddrFor(conn.addr, m.toAddr.value)),
                   origin := Some(Ref(router, conn.addr.rEp, id)));
      var routed := Route(core, m1);
      var conn2 := if subjects.None? then conn1 else conn1.(pending := conn.pending[id := subjects.value]);
      SendStep(if subjects.None? || routed.Raised? || routed.Unsendable? then conn2
               else conn2.(waiting := conn.waiting[id := Wait(subjects.value, None)]),
               Pushed(core, routed), routed)
  }

  /** The first half of Connection._deliver: true if a future took the message. */
  function TakeReply(conn: Conn, m: Msg): (Conn, bool) {
    if m.replyId.None? || m.replyId.value !in conn.pending then (conn, false)
    else
      var id := m.replyId.value;
      var conn1 := conn.(pending := conn.pending - {id});
      if m.subject !in conn.pending[id] then (conn1, false)
      else if id in conn.waiting && conn.waiting[id].fut.None? then
        (conn1.(waiting := conn.waiting[id := conn.waiting[id].(fut := Some(m))]), true)
      else (conn1, true)
  }

  /** The end of a suspended `send`: shutdown and timeout return Missing, a resolved future its message. */
  function Finish(conn: Conn, id: int, shutdown: bool): Conn
    requires id in conn.waiting
  {
    conn.(waiting := conn.waiting - {id}, pending := conn.pending - {id},
          results := conn.results[id := if shutdown then conn.waiting[id].(fut := None) else conn.waiting[id]])
  }

  // ---------- the classes ----------

  class Router {
    const local: bool
    var mEps: seq<string>
    var inboxByREp: map<int, seq<Msg>>
    var rEpSeed: int
    var connectionByREp: map<int, Connection>

    function View(): Core
      reads this
    {
      Core(local, mEps, inboxByREp)
    }

    constructor (local: bool, mEps: seq<string>)
      ensures Valid() && View() == Core(local, mEps, map[])
      ensures rEpSeed == FIRST_CONNECTION_ID && connectionByREp == map[]
    {
      this.local, this.mEps, inboxByREp, rEpSeed, connectionByREp := local, mEps, map[], FIRST_CONNECTION_ID, map[];
    }

    method MEpListen(ep: string)
      modifies `mEps
      ensures View() == old(View()).(mEps := if ep in old(mEps) then old(mEps) else old(mEps) + [ep])
    {
      if ep !in mEps {
        mEps := mEps + [ep];
      }
    }

    /** The numbers in use were given out, or are a directory's. */
    ghost predicate Valid()
      reads this
    {
      DIRECTORY_REP < rEpSeed && forall c | c in connectionByREp :: c < rEpSeed
    }

    /** _newConnection: the router's address with a number that is not in use, an empty inbox, and the entry in the
      * connections. */
    method Connect(rEp: int, id: nat) returns (c: Connection)
      requires rEp !in connectionByREp
      modifies `connectionByREp, `inboxByREp
      ensures fresh(c) && c.router == this && c.routerId == id && c.View() == NewConn(AddrFor(old(View()), rEp))
      ensures View() == old(View()).(inboxes := old(inboxByREp)[rEp := []])
      ensures connectionByREp == old(connectionByREp)[rEp := c]
    {
      c := new Connection(this, id, Addr(None, if mEps == [] then None else Some(mEps[0]), rEp));
      connectionByREp := connectionByREp[rEp := c];
      inboxByREp := inboxByREp[rEp := []];
    }

    /** newConnection: the next number, which is never in use. */
    method NewConnection(id: nat) returns (c: Connection)
      requires Valid()
      modifies this
      ensures Valid() && rEpSeed == old(rEpSeed) + 1
      ensures fresh(c) && c.router == this && c.routerId == id
      ensures c.View() == NewConn(AddrFor(old(View()), old(rEpSeed)))
      ensures View() == old(View()).(inboxes := old(inboxByREp)[old(rEpSeed) := []])
      ensures connectionByREp == old(connectionByREp)[old(rEpSeed) := c]
    {
      var rEp := rEpSeed;
      rEpSeed := rEpSeed + 1;
      c := Connect(rEp, id);
    }

    /** The connection of a new directory; a router has at most one. */
    method NewDirectoryConnection(id: nat) returns (c: Connection?)
      requires Valid()
      modifies `connectionByREp, `inboxByREp
      ensures Valid() && (c == null <==> DIRECTORY_REP in old(connectionByREp))
      ensures c == null ==> View() == old(View()) && connectionByREp == old(connectionByREp)
      ensures c != null ==>
                && fresh(c) && c.View() == NewConn(AddrFor(old(View()), DIRECTORY_REP))
                && View() == old(View()).(inboxes := old(inboxByREp)[DIRECTORY_REP := []])
                && connectionByREp == old(connectionByREp)[DIRECTORY_REP := c]
    {
      if DIRECTORY_REP in connectionByREp {
        return null;
      }
      c := Connect(DIRECTORY_REP, id);
    }

    method DropInboxFor(rEp: int)
      modifies `inboxByREp
      ensures View() == old(View()).(inboxes := old(inboxByREp) - {rEp})
    {
      inboxByREp := inboxByREp - {rEp};
    }

    /** Router._route, which calls itself for a notice that something could not be delivered. */
    method RouteMsg(m: Msg) returns (routed: Routed)
      modifies `inboxByREp
      ensures routed == Route(old(View()), m)
      ensures View() == Pushed(old(View()), routed)
      decreases m.subject != MSG_NOT_DELIVERED
    {
      if m.toAddr.None? || m.toAddr.value.nEp.Some? {
        return Raised;
      }
      var to := m.toAddr.value;
      if to.mEp.None? || to.mEp.value in mEps {
        if to.rEp in inboxByREp {
          inboxByREp := inboxByREp[to.rEp := inboxByREp[to.rEp] + [m]];
          routed := ToInbox(to.rEp, m);
        } else if m.subject == MSG_NOT_DELIVERED {
          routed := Dropped;      // no loop of undeliverable messages
        } else {
          routed := RouteMsg(NotDelivered(m));
        }
      } else if local {
        routed := Raised;
      } else if m.replyAddr.None? || m.replyAddr.value.mEp.None? {
        routed := Unsendable(to.mEp.value, m);
      } else {
        routed := ToPeer(to.mEp.value, m);
      }
    }
  }

  class Connection {
    const router: Router
    const routerId: nat
    const addr: Addr
    var msgIdSeed: int
    var futureAndSubjectsByReplyId: map<int, seq<string>>
    var waiting: map<int, Wait>
    var results: map<int, Wait>

    function View(): Conn
      reads this
    {
      Conn(addr, msgIdSeed, futureAndSubjectsByReplyId, waiting, results)
    }

    constructor (router: Router, routerId: nat, addr: Addr)
      ensures View() == NewConn(addr) && this.router == router && this.routerId == routerId
    {
      this.router, this.routerId, this.addr := router, routerId, addr;
      msgIdSeed, futureAndSubjectsByReplyId, waiting, results := 1, map[], map[], map[];
    }

    method SendMsg(m: Msg, subjects: Option<seq<string>>) returns (routed: Routed)
      modifies this, router`inboxByREp
      ensures SendStep(View(), router.View(), routed) == Send(old(View()), old(router.View()), routerId, m, subjects)
    {
      var id := msgIdSeed;
      msgIdSeed := msgIdSeed + 1;
      if m.toAddr.None? {
        return Raised;
      }
      var replyAddr;
      if m.toAddr.value.nEp.None? {
        if m.toAddr.value.mEp.None? {
          replyAddr := Addr(None, None, addr.rEp);
        } else {
          replyAddr := Addr(None, addr.mEp, addr.rEp);
        }
      } else {
        replyAddr := addr;
      }
      if subjects.Some? {
        futureAndSubjectsByReplyId := futureAndSubjectsByReplyId[id := subjects.value];
      }
      var m1 := m.(msgId := Some(id), replyAddr := Some(replyAddr), origin := Some(Ref(routerId, addr.rEp, id)));
      routed := router.RouteMsg(m1);
      if subjects.Some? && !routed.Raised? && !routed.Unsendable? {
        waiting := waiting[id := Wait(subjects.value, None)];
      }
    }

    method DeliverReply(m: Msg) returns (taken: bool)
      modifies this
      ensures (View(), taken) == TakeReply(old(View()), m)
    {
      taken := false;
      if m.replyId.Some? && m.replyId.value in futureAndSubjectsByReplyId {
        var id := m.replyId.value;
        var subjects := futureAndSubjectsByReplyId[id];
        futureAndSubjectsByReplyId := futureAndSubjectsByReplyId - {id};
        if m.subject in subjects {
          if id in waiting && waiting[id].fut.None? {
            waiting := waiting[id := waiting[id].(fut := Some(m))];
          }
          taken := true;
        }
      }
    }

    method FinishSend(id: int, shutdown: bool) returns (reply: Option<Msg>)
      requires id in waiting
      modifies this
      ensures View() == Finish(old(View()), id, shutdown) && reply == results[id].fut
    {
      reply := if shutdown then None else waiting[id].fut;
      results := results[id := waiting[id].(fut := reply)];
      waiting := waiting - {id};
      futureAndSubjectsByReplyId := futureAndSubjectsByReplyId - {id};
    }
  }
}
