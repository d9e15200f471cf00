/** On one router, answers that nobody wrote die out or do not: whatever is in the inboxes, and in whatever order they
  * are emptied, only finitely many deliveries follow, unless a list that answers replies meets an inbox without a
  * handler.
  */
module DieOut {
  import opened Wrappers
  import opened Messaging
  import opened AutoReply

  /** One router with its connections; `handlers` are those that have a handler, `ids` lists all inboxes. */
  datatype Site = Site(core: Core, conns: map<int, Conn>, handlers: set<int>, ids: seq<int>)

  /** Delivering the next message of an inbox, and the list its handler returns for it. */
  datatype Delivery = Delivery(rEp: int, list: seq<Instruction>)

  predicate Enabled(s: Site, d: Delivery) {
    d.rEp in s.core.inboxes && s.core.inboxes[d.rEp] != [] && d.rEp in s.conns
  }

  /** What a connection answers to a message that no future takes. */
  function AnswersTo(s: Site, d: Delivery, m: Msg): seq<Msg> {
    if d.rEp in s.handlers then Treat(m, d.list).replies
    else if m.subject == MSG_NOT_DELIVERED then []
    else [Reply(m, MSG_NOT_DELIVERED, "")]
  }

  /** A connection sends one reply without waiting for an answer. */
  function SendReply(s: Site, rEp: int, m: Msg): Site
    requires rEp in s.conns
  {
    var step := Send(s.conns[rEp], s.core, 0, m, None);
    s.(core := step.core, conns := s.conns[rEp := step.conn])
  }

  function SendReplies(s: Site, rEp: int, replies: seq<Msg>): Site
    requires rEp in s.conns
    decreases |replies|
  {
    if replies == [] then s else SendReplies(SendReply(s, rEp, replies[0]), rEp, replies[1..])
  }

  /** The message taken out of its inbox and offered to the pending futures. */
  function Taken(s: Site, d: Delivery): (Site, bool)
    requires Enabled(s, d)
  {
    var inbox := s.core.inboxes[d.rEp];
    var (conn, taken) := TakeReply(s.conns[d.rEp], inbox[0]);
    (s.(core := s.core.(inboxes := s.core.inboxes[d.rEp := inbox[1..]]), conns := s.conns[d.rEp := conn]), taken)
  }

  function Deliver(s: Site, d: Delivery): Site {
    if !Enabled(s, d) then s
    else
      var (s1, taken) := Taken(s, d);
      if taken then s1 else SendReplies(s1, d.rEp, AnswersTo(s, d, s.core.inboxes[d.rEp][0]))
  }

  lemma {:induction false} RepliesAreNumbered(s: Site, rEp: int, replies: seq<Msg>)
    requires rEp in s.conns
    ensures var s' := SendReplies(s, rEp, replies);
            && rEp in s'.conns && s'.conns[rEp] == s.conns[rEp].(nextId := s.conns[rEp].nextId + |replies|)
            && s'.core.inboxes.Keys == s.core.inboxes.Keys
    decreases |replies|
  {
    if replies != [] {
      RepliesAreNumbered(SendReply(s, rEp, replies[0]), rEp, replies[1..]);
    }
  }

  /** A reply that a send still waits for, with a subject that it accepts. */
  predicate Awaited(c: Conn, m: Msg) {
    m.replyId.Some? && m.replyId.value in c.pending && m.subject in c.pending[m.replyId.value]
  }

  /** A message goes either to the send that waits for it or to the handler. An awaited reply with an accepted
    * subject is that send's result, and nothing is answered; any other message, a reply that comes too late or with
    * another subject among them, is answered by the handler's list, or by a notice if there is no handler and it is
    * no notice itself. */
  lemma AwaitedOrAnswered(s: Site, d: Delivery)
    requires Enabled(s, d)
    ensures var (m, c, s') := (s.core.inboxes[d.rEp][0], s.conns[d.rEp], Deliver(s, d));
            && d.rEp in s'.conns && d.rEp in s'.core.inboxes
            && var c' := s'.conns[d.rEp];
               if Awaited(c, m) then
                 && s'.core == s.core.(inboxes := s.core.inboxes[d.rEp := s.core.inboxes[d.rEp][1..]])
                 && c'.nextId == c.nextId && m.replyId.value !in c'.pending
                 && (m.replyId.value in c.waiting && c.waiting[m.replyId.value].fut.None? ==>
                       m.replyId.value in c'.waiting && c'.waiting[m.replyId.value].fut == Some(m))
               else
                 && c'.waiting == c.waiting
                 && c'.nextId == c.nextId + if d.rEp in s.handlers then |Treat(m, d.list).replies|
                                            else if m.subject == "MSG_NOT_DELIVERED" then 0 else 1
  {
    var (s1, taken) := Taken(s, d);
    RepliesAreNumbered(s1, d.rEp, AnswersTo(s, d, s.core.inboxes[d.rEp][0]));
  }

  // ---------- the rank ----------

  /** A site is calm when its lists keep quiet about replies, or else when every inbox has a handler. */
  datatype Calm = QuietLists | AllHandled

  /** A reply that is not answered any more: where lists keep quiet, a notice that something was not delivered; where
    * every inbox has a handler, a reply that says something was not understood or that has no reply address. */
  predicate Last(m: Msg, calm: Calm) {
    match calm
    case QuietLists => m.subject == MSG_NOT_DELIVERED
    case AllHandled => m.subject == DOES_NOT_UNDERSTAND || m.replyAddr.None?
  }

  /** 2 for a message that is not a reply, 1 for a reply, 0 for a last one. */
  function Class(m: Msg, calm: Calm): nat {
    if !IsReply(m) then 2 else if Last(m, calm) then 0 else 1
  }

  function CountIn(inbox: seq<Msg>, calm: Calm, k: nat): nat {
    if inbox == [] then 0 else (if Class(inbox[0], calm) == k then 1 else 0) + CountIn(inbox[1..], calm, k)
  }

  function Sum(ids: seq<int>, inboxes: map<int, seq<Msg>>, calm: Calm, k: nat): nat {
    if ids == [] then 0
    else (if ids[0] in inboxes then CountIn(inboxes[ids[0]], calm, k) else 0) + Sum(ids[1..], inboxes, calm, k)
  }

  /** How many messages of class k are in the inboxes. */
  function Rank(s: Site, calm: Calm, k: nat): nat {
    Sum(s.ids, s.core.inboxes, calm, k)
  }

  ghost predicate Sensible(s: Site) {
    && (forall i, j | 0 <= i < j < |s.ids| :: s.ids[i] != s.ids[j])
    && (forall c | c in s.core.inboxes :: c in s.ids && forall m | m in s.core.inboxes[c] :: m.msgId.Some?)
  }

  predicate SameShape(s: Site, s': Site) {
    s'.core.inboxes.Keys == s.core.inboxes.Keys && s'.handlers == s.handlers && s'.ids == s.ids
  }

  /** What makes a delivery calm. */
  predicate IsCalm(s: Site, d: Delivery, calm: Calm) {
    match calm
    case QuietLists => d.rEp in s.core.inboxes && d.rEp in s.handlers ==> IgnoresFirst(d.list)
    case AllHandled => d.rEp in s.core.inboxes ==> d.rEp in s.handlers
  }

  lemma {:induction false} CountInAppend(p: seq<Msg>, m: Msg, calm: Calm, k: nat)
    ensures CountIn(p + [m], calm, k) == CountIn(p, calm, k) + (if Class(m, calm) == k then 1 else 0)
  {
    if p == [] {
      assert p + [m] == [m];
    } else {
      assert (p + [m])[1..] == p[1..] + [m];
      CountInAppend(p[1..], m, calm, k);
    }
  }

  lemma {:induction false} SumUpdate(ids: seq<int>, inboxes: map<int, seq<Msg>>, c: int, inbox: seq<Msg>, calm: Calm,
      k: nat)
    requires forall i, j | 0 <= i < j < |ids| :: ids[i] != ids[j]
    requires c in inboxes
    ensures c in ids ==>
              Sum(ids, inboxes[c := inbox], calm, k) + CountIn(inboxes[c], calm, k)
              == Sum(ids, inboxes, calm, k) + CountIn(inbox, calm, k)
    ensures c !in ids ==> Sum(ids, inboxes[c := inbox], calm, k) == Sum(ids, inboxes, calm, k)
  {
    if ids != [] {
      assert ids[0] !in ids[1..];
      SumUpdate(ids[1..], inboxes, c, inbox, calm, k);
    }
  }

  /** No more messages of class k than before. */
  predicate NoMore(s: Site, s': Site, calm: Calm, k: nat) {
    Rank(s', calm, k) <= Rank(s, calm, k)
  }

  lemma PushedRank(s: Site, routed: Routed, calm: Calm, k: nat)
    requires Sensible(s) && routed.ToInbox? && routed.rEp in s.core.inboxes && routed.m.msgId.Some?
    ensures var s' := s.(core := Pushed(s.core, routed));
            Sensible(s') && Rank(s', calm, k) == Rank(s, calm, k) + (if Class(routed.m, calm) == k then 1 else 0)
  {
    SumUpdate(s.ids, s.core.inboxes, routed.rEp, s.core.inboxes[routed.rEp] + [routed.m], calm, k);
    CountInAppend(s.core.inboxes[routed.rEp], routed.m, calm, k);
  }

  /** The last replies there are: those that `Last` describes once they are sent, and those that cannot be sent. */
  predicate LastSent(m: Msg, calm: Calm) {
    match calm
    case QuietLists => m.subject == MSG_NOT_DELIVERED
    case AllHandled => m.subject == DOES_NOT_UNDERSTAND || m.toAddr.None?
  }

  /** Sending a reply puts at most one message into an inbox, and it is a reply again. */
  lemma SendReplyRank(s: Site, rEp: int, m: Msg, calm: Calm)
    requires Sensible(s) && rEp in s.conns && m.replyId.Some?
    ensures var s' := SendReply(s, rEp, m);
            && Sensible(s') && SameShape(s, s') && NoMore(s, s', calm, 2)
            && (LastSent(m, calm) ==> NoMore(s, s', calm, 1))
  {
    var step := Send(s.conns[rEp], s.core, 0, m, None);
    if step.routed.ToInbox? {
      var c := s.conns[rEp];
      RouteGives(s.core, m.(msgId := Some(c.nextId), replyAddr := Some(ReplyAddrFor(c.addr, m.toAddr.value)),
                            origin := Some(Ref(0, c.addr.rEp, c.nextId))));
      assert Class(step.routed.m, calm) <= 1 && (LastSent(m, calm) ==> Class(step.routed.m, calm) == 0);
      PushedRank(s, step.routed, calm, 2);
      PushedRank(s, step.routed, calm, 1);
    }
  }

  lemma {:induction false} SendRepliesRank(s: Site, rEp: int, replies: seq<Msg>, calm: Calm)
    requires Sensible(s) && rEp in s.conns
    requires forall m | m in replies :: m.replyId.Some?
    ensures var s' := SendReplies(s, rEp, replies);
            && Sensible(s') && SameShape(s, s') && NoMore(s, s', calm, 2)
            && ((forall m | m in replies :: LastSent(m, calm)) ==> NoMore(s, s', calm, 1))
    decreases |replies|
  {
    if replies != [] {
      SendReplyRank(s, rEp, replies[0], calm);
      assert forall m | m in replies[1..] :: m in replies;
      assert replies[0] in replies;
      SendRepliesRank(SendReply(s, rEp, replies[0]), rEp, replies[1..], calm);
    }
  }

  /** Lexicographically below. */
  predicate Below(s': Site, s: Site, calm: Calm) {
    || Rank(s', calm, 2) < Rank(s, calm, 2)
    || (Rank(s', calm, 2) == Rank(s, calm, 2) && Rank(s', calm, 1) < Rank(s, calm, 1))
    || (Rank(s', calm, 2) == Rank(s, calm, 2) && Rank(s', calm, 1) == Rank(s, calm, 1) &&
        Rank(s', calm, 0) < Rank(s, calm, 0))
  }

  lemma TakenRank(s: Site, d: Delivery, calm: Calm, k: nat)
    requires Sensible(s) && Enabled(s, d)
    ensures var s1 := Taken(s, d).0;
            Sensible(s1) && d.rEp in s1.conns && SameShape(s, s1)
            && Rank(s1, calm, k) == Rank(s, calm, k) - (if Class(s.core.inboxes[d.rEp][0], calm) == k then 1 else 0)
  {
    var inbox := s.core.inboxes[d.rEp];
    SumUpdate(s.ids, s.core.inboxes, d.rEp, inbox[1..], calm, k);
    assert forall m | m in inbox[1..] :: m in inbox;
  }

  /** A calm connection answers a message with replies, a reply with last replies, and a last reply not at all. */
  lemma CalmAnswers(s: Site, d: Delivery, m: Msg, calm: Calm)
    requires IsCalm(s, d, calm) && d.rEp in s.core.inboxes && m.msgId.Some?
    ensures forall r | r in AnswersTo(s, d, m) :: r.replyId.Some? && (IsReply(m) ==> LastSent(r, calm))
    ensures Class(m, calm) == 0 ==> AnswersTo(s, d, m) == [] || forall r | r in AnswersTo(s, d, m) :: r.toAddr.None?
  {
    var none := Treatment([], false, false, false);
    FollowGrows(m, d.list, none);
    if IsReply(m) {
      QuietOnReply(m, d.list, none);
      RepliesToReply(m, d.list, none);
    }
  }

  /** Messages without an address to send them to change nothing in the inboxes. */
  lemma {:induction false} NowhereToSend(s: Site, rEp: int, replies: seq<Msg>)
    requires rEp in s.conns && forall r | r in replies :: r.toAddr.None?
    ensures SendReplies(s, rEp, replies).core == s.core
    decreases |replies|
  {
    if replies != [] {
      assert replies[0] in replies;
      NowhereToSend(SendReply(s, rEp, replies[0]), rEp, replies[1..]);
    }
  }

  /** Each calm delivery lowers the rank: it may turn a request into any number of replies, a reply into last replies,
    * and a last reply into nothing. */
  lemma DeliverLowersRank(s: Site, d: Delivery, calm: Calm)
    requires Sensible(s) && Enabled(s, d) && IsCalm(s, d, calm)
    ensures Sensible(Deliver(s, d)) && SameShape(s, Deliver(s, d)) && Below(Deliver(s, d), s, calm)
  {
    var m := s.core.inboxes[d.rEp][0];
    var (s1, taken) := Taken(s, d);
    TakenRank(s, d, calm, 0);
    TakenRank(s, d, calm, 1);
    TakenRank(s, d, calm, 2);
    if !taken {
      assert m in s.core.inboxes[d.rEp];
      var replies := AnswersTo(s, d, m);
      CalmAnswers(s, d, m, calm);
      SendRepliesRank(s1, d.rEp, replies, calm);
      if Class(m, calm) == 0 {
        NowhereToSend(s1, d.rEp, replies);
      }
    }
  }

  /** The state after n deliveries of a schedule; a delivery from an empty inbox does nothing. */
  ghost function After(s: Site, schedule: nat -> Delivery, n: nat): Site {
    if n == 0 then s else Deliver(After(s, schedule, n - 1), schedule(n - 1))
  }

  /** Every delivery of the schedule is calm, in a site with these handlers and inboxes. */
  ghost predicate CalmSchedule(s: Site, schedule: nat -> Delivery, calm: Calm) {
    forall n :: IsCalm(s, schedule(n), calm)
  }

  /** Whatever the inboxes hold at first, no schedule can deliver for ever, if every list that a handler returns keeps
    * quiet about replies, or if every inbox has a handler, whatever the lists. */
  lemma AutomaticRepliesDieOut(s: Site, schedule: nat -> Delivery, calm: Calm)
    requires Sensible(s) && CalmSchedule(s, schedule, calm)
    ensures exists n :: !Enabled(After(s, schedule, n), schedule(n))
  {
    DieOutFrom(s, schedule, calm, 0);
  }

  lemma {:induction false} DieOutFrom(s: Site, schedule: nat -> Delivery, calm: Calm, n: nat)
    requires CalmSchedule(s, schedule, calm)
    requires var t := After(s, schedule, n); Sensible(t) && SameShape(s, t)
    ensures exists k :: !Enabled(After(s, schedule, k), schedule(k))
    decreases Rank(After(s, schedule, n), calm, 2), Rank(After(s, schedule, n), calm, 1),
        Rank(After(s, schedule, n), calm, 0)
  {
    var t := After(s, schedule, n);
    if Enabled(t, schedule(n)) {
      assert IsCalm(s, schedule(n), calm) && IsCalm(t, schedule(n), calm);
      DeliverLowersRank(t, schedule(n), calm);
      assert After(s, schedule, n + 1) == Deliver(t, schedule(n));
      DieOutFrom(s, schedule, calm, n + 1);
    }
  }

  // ---------- a list that answers replies, and an inbox without a handler ----------

  /** A connection of this router that waits for nothing. */
  predicate Idle(s: Site, c: int) {
    c in s.conns && s.conns[c].addr.rEp == c && s.conns[c].pending == map[] && c in s.core.inboxes
  }

  predicate AllFrom(inbox: seq<Msg>, from: int) {
    forall m | m in inbox :: m.msgId.Some? && IsReply(m) && m.replyAddr == Some(Addr(None, None, from))
  }

  /** Connection p has a handler and holds only replies of q that p's list answers; q has none, and holds only replies
    * of p that are not notices. */
  predicate Holding(s: Site, p: int, q: int) {
    && p in s.handlers && q !in s.handlers && Idle(s, p) && Idle(s, q)
    && AllFrom(s.core.inboxes[p], q) && AllFrom(s.core.inboxes[q], p)
    && (forall m | m in s.core.inboxes[p] :: m.subject == MSG_NOT_DELIVERED)
    && (forall m | m in s.core.inboxes[q] :: m.subject == DOES_NOT_UNDERSTAND)
  }

  /** ... and p holds at least one. */
  predicate ToAndFro(s: Site, p: int, q: int) {
    Holding(s, p, q) && s.core.inboxes[p] != []
  }

  /** A connection sends a reply to another of this router: it goes straight into its inbox. */
  lemma OneAnswer(s: Site, from: int, m: Msg, to: int)
    requires Idle(s, from) && Idle(s, to) && m.toAddr == Some(Addr(None, None, to)) && IsReply(m)
    ensures var s' := SendReply(s, from, m);
            && SameShape(s, s') && Idle(s', from) && Idle(s', to)
            && s'.core.inboxes[to][..|s.core.inboxes[to]|] == s.core.inboxes[to]
            && |s'.core.inboxes[to]| == |s.core.inboxes[to]| + 1
            && (forall c | c in s.core.inboxes && c != to :: s'.core.inboxes[c] == s.core.inboxes[c])
            && var n := s'.core.inboxes[to][|s.core.inboxes[to]|];
               AllFrom([n], from) && n.subject == m.subject
  {
    var step := Send(s.conns[from], s.core, 0, m, None);
    assert step.routed.ToInbox? && step.routed.rEp == to;
  }

  /** The handled connection sends what its list answers. */
  lemma {:induction false} HandledAnswers(s: Site, p: int, q: int, replies: seq<Msg>)
    requires Holding(s, p, q)
    requires forall r | r in replies ::
               IsReply(r) && r.subject == DOES_NOT_UNDERSTAND && r.toAddr == Some(Addr(None, None, q))
    ensures var s' := SendReplies(s, p, replies);
            Holding(s', p, q) && SameShape(s, s') && |s'.core.inboxes[q]| == |s.core.inboxes[q]| + |replies|
    decreases |replies|
  {
    if replies != [] {
      assert replies[0] in replies;
      OneAnswer(s, p, replies[0], q);
      var s1 := SendReply(s, p, replies[0]);
      assert s1.core.inboxes[q] == s.core.inboxes[q] + [s1.core.inboxes[q][|s.core.inboxes[q]|]];
      HandledAnswers(s1, p, q, replies[1..]);
    }
  }

  lemma RestFrom(inbox: seq<Msg>)
    requires inbox != []
    ensures forall m | m in inbox[1..] :: m in inbox
  {
  }

  /** A delivery to the handled connection, whose list answers replies: the other one gets something. */
  lemma Forth(s: Site, p: int, q: int, list: seq<Instruction>)
    requires ToAndFro(s, p, q) && !IgnoresFirst(list)
    ensures var s' := Deliver(s, Delivery(p, list));
            Enabled(s, Delivery(p, list)) && Holding(s', p, q) && SameShape(s, s') && s'.core.inboxes[q] != []
  {
    var m := s.core.inboxes[p][0];
    var none := Treatment([], false, false, false);
    assert m in s.core.inboxes[p];
    RestFrom(s.core.inboxes[p]);
    QuietOnReply(m, list, none);
    RepliesToReply(m, list, none);
    FollowGrows(m, list, none);
    HandledAnswers(Taken(s, Delivery(p, list)).0, p, q, Treat(m, list).replies);
  }

  /** A delivery to the one without a handler: the handled one gets a notice. */
  lemma Back(s: Site, p: int, q: int)
    requires Holding(s, p, q) && s.core.inboxes[q] != []
    ensures var s' := Deliver(s, Delivery(q, []));
            Enabled(s, Delivery(q, [])) && ToAndFro(s', p, q) && SameShape(s, s')
  {
    var m := s.core.inboxes[q][0];
    assert m in s.core.inboxes[q];
    RestFrom(s.core.inboxes[q]);
    var s1 := Taken(s, Delivery(q, [])).0;
    var r := Reply(m, MSG_NOT_DELIVERED, "");
    assert [r][1..] == [] && SendReplies(s1, q, [r]) == SendReply(s1, q, r);
    OneAnswer(s1, q, r, p);
    var s2 := SendReply(s1, q, r);
    assert s2.core.inboxes[p] == s1.core.inboxes[p] + [s2.core.inboxes[p][|s1.core.inboxes[p]|]];
  }

  ghost function BackAndForth(p: int, q: int, list: seq<Instruction>): nat -> Delivery {
    n => if n % 2 == 0 then Delivery(p, list) else Delivery(q, [])
  }

  lemma TwoMore(s: Site, p: int, q: int, list: seq<Instruction>, n: nat)
    requires n % 2 == 0 && ToAndFro(After(s, BackAndForth(p, q, list), n), p, q) && !IgnoresFirst(list)
    ensures var schedule := BackAndForth(p, q, list);
            && Enabled(After(s, schedule, n), schedule(n)) && Enabled(After(s, schedule, n + 1), schedule(n + 1))
            && ToAndFro(After(s, schedule, n + 2), p, q)
  {
    var schedule := BackAndForth(p, q, list);
    var t := After(s, schedule, n);
    assert schedule(n) == Delivery(p, list) && schedule(n + 1) == Delivery(q, []);
    var t1, t2 := Deliver(t, Delivery(p, list)), After(s, schedule, n + 2);
    assert After(s, schedule, n + 1) == t1;
    assert t2 == Deliver(t1, Delivery(q, []));
    Forth(t, p, q, list);
    Back(t1, p, q);
  }

  lemma {:induction false} StillToAndFro(s: Site, p: int, q: int, list: seq<Instruction>, n: nat)
    requires ToAndFro(s, p, q) && !IgnoresFirst(list) && n % 2 == 0
    ensures ToAndFro(After(s, BackAndForth(p, q, list), n), p, q)
  {
    if n > 0 {
      var k := n - 2;
      StillToAndFro(s, p, q, list, k);
      TwoMore(s, p, q, list, k);
    }
  }

  /** Whatever list answers replies, a connection with it and one without a handler answer each other for ever. */
  lemma ToAndFroNeverStops(s: Site, p: int, q: int, list: seq<Instruction>, n: nat)
    requires ToAndFro(s, p, q) && !IgnoresFirst(list)
    ensures Enabled(After(s, BackAndForth(p, q, list), n), BackAndForth(p, q, list)(n))
  {
    var k := if n % 2 == 0 then n else n - 1;
    StillToAndFro(s, p, q, list, k);
    TwoMore(s, p, q, list, k);
  }

  // ---------- exactly when ----------

  /** Every list that a handler returns is one of these. */
  ghost predicate Uses(s: Site, schedule: nat -> Delivery, lists: iset<seq<Instruction>>) {
    forall n :: schedule(n).rEp in s.handlers ==> schedule(n).list in lists
  }

  ghost predicate Endless(s: Site, schedule: nat -> Delivery) {
    forall n :: Enabled(After(s, schedule, n), schedule(n))
  }

  /** From some inboxes of a router with these inboxes and handlers, deliveries can go on for ever. */
  ghost predicate CanBeEndless(ids: seq<int>, handlers: set<int>, lists: iset<seq<Instruction>>) {
    exists s, schedule | Sensible(s) && Uses(s, schedule, lists) ::
      s.ids == ids && s.core.inboxes.Keys == Members(ids) && s.handlers == handlers && Endless(s, schedule)
  }

  function Members(ids: seq<int>): set<int> {
    set c | c in ids
  }

  /** Some list answers replies, some inbox has a handler, and some has none. */
  ghost predicate Restless(ids: seq<int>, handlers: set<int>, lists: iset<seq<Instruction>>) {
    && (exists list | list in lists :: !IgnoresFirst(list))
    && (exists p | p in ids :: p in handlers)
    && (exists q | q in ids :: q !in handlers)
  }

  /** A reply that says something was not delivered. */
  function Notice(from: int, to: int): Msg {
    Msg(Some(Addr(None, None, from)), Some(Addr(None, None, to)), MSG_NOT_DELIVERED, Some(1), Some(1), "", None, None)
  }

  /** A router whose connection p was just told by q that something was not delivered. */
  function Bounced(ids: seq<int>, handlers: set<int>, p: int, q: int): Site {
    Site(Core(true, [], map c | c in ids :: if c == p then [Notice(q, p)] else []),
         map c | c in ids :: NewConn(Addr(None, None, c)), handlers, ids)
  }

  lemma BouncedIsToAndFro(ids: seq<int>, handlers: set<int>, p: int, q: int)
    requires forall i, j | 0 <= i < j < |ids| :: ids[i] != ids[j]
    requires p in ids && q in ids && p in handlers && q !in handlers
    ensures var s := Bounced(ids, handlers, p, q);
            Sensible(s) && ToAndFro(s, p, q) && s.core.inboxes.Keys == Members(ids)
  {
  }

  /** On a router with given inboxes, handlers and lists, deliveries can go on for ever if and only if some list answers
    * replies, some inbox has a handler and some has none. */
  lemma EndlessExactly(ids: seq<int>, handlers: set<int>, lists: iset<seq<Instruction>>)
    requires forall i, j | 0 <= i < j < |ids| :: ids[i] != ids[j]
    ensures CanBeEndless(ids, handlers, lists) <==> Restless(ids, handlers, lists)
  {
    if Restless(ids, handlers, lists) {
      var list :| list in lists && !IgnoresFirst(list);
      var p :| p in ids && p in handlers;
      var q :| q in ids && q !in handlers;
      var (s, schedule) := (Bounced(ids, handlers, p, q), BackAndForth(p, q, list));
      BouncedIsToAndFro(ids, handlers, p, q);
      forall n: nat ensures Enabled(After(s, schedule, n), schedule(n)) {
        ToAndFroNeverStops(s, p, q, list, n);
      }
      assert Uses(s, schedule, lists) && Endless(s, schedule);
    }
    if CanBeEndless(ids, handlers, lists) && !Restless(ids, handlers, lists) {
      var s, schedule :| Sensible(s) && Uses(s, schedule, lists) && s.ids == ids
                         && s.core.inboxes.Keys == Members(ids) && s.handlers == handlers && Endless(s, schedule);
      NotRestlessIsCalm(s, schedule, lists);
    }
  }

  lemma NotRestlessIsCalm(s: Site, schedule: nat -> Delivery, lists: iset<seq<Instruction>>)
    requires Sensible(s) && Uses(s, schedule, lists) && s.core.inboxes.Keys == Members(s.ids)
    requires !Restless(s.ids, s.handlers, lists)
    ensures !Endless(s, schedule)
  {
    var calm := if exists q | q in s.ids :: q !in s.handlers then QuietLists else AllHandled;
    forall n ensures IsCalm(s, schedule(n), calm) {
      assert schedule(n).rEp in s.handlers ==> schedule(n).list in lists;
    }
    AutomaticRepliesDieOut(s, schedule, calm);
  }

  // ---------- the directory ----------

  /** The list of a directory's own connection, which does not ignore replies. */
  const DIRECTORY_LIST := [HandlePing, HandleDoesNotUnderstand]

  /** So a directory and a connection without a handler can answer each other for ever. */
  lemma DirectoryNeverStops(n: nat)
    ensures var s := Bounced([DIRECTORY_REP, 3], {DIRECTORY_REP}, DIRECTORY_REP, 3);
            var schedule := BackAndForth(DIRECTORY_REP, 3, DIRECTORY_LIST);
            Sensible(s) && Enabled(After(s, schedule, n), schedule(n))
  {
    BouncedIsToAndFro([DIRECTORY_REP, 3], {DIRECTORY_REP}, DIRECTORY_REP, 3);
    assert DIRECTORY_LIST[1..] == [HandleDoesNotUnderstand] && !IgnoresFirst(DIRECTORY_LIST);
    ToAndFroNeverStops(Bounced([DIRECTORY_REP, 3], {DIRECTORY_REP}, DIRECTORY_REP, 3), DIRECTORY_REP, 3,
        DIRECTORY_LIST, n);
  }
}
