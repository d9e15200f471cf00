/** Two agents that go on answering each other, on one router or on two: every answer is delivered to the one who is
  * waiting for it, however long the conversation.
  */
module Conversation {
  import opened Wrappers
  import opened Messaging
  import opened Correlation

  /** The agent of connection rEp of router i has m in hand and is to answer it. */
  datatype Turn = Turn(net: Net, i: nat, rEp: int, m: Msg)

  datatype Words = Words(subject: string, contents: string)

  /** Delivering everything in an inbox, in order. */
  function Served(net: Net, j: nat, c: int): Net
    requires There(net, j, c)
    decreases |net.routers[j].core.inboxes[c]|
  {
    if net.routers[j].core.inboxes[c] == [] then net else Served(Next(net, Deliver(j, c)), j, c)
  }

  /** A connection of a running router that is still there. */
  predicate There(net: Net, j: nat, c: int) {
    && j < |net.routers| && net.routers[j].running
    && c in net.routers[j].conns && c in net.routers[j].core.inboxes
  }

  /** The agent was given m, and the sender of m is there for the answer. */
  ghost predicate Talking(t: Turn) {
    && Inv(t.net) && There(t.net, t.i, t.rEp) && t.m in t.net.routers[t.i].seen
    && t.m.origin.Some? && There(t.net, t.m.origin.value.router, t.m.origin.value.rEp)
  }

  /** The net once the answer has been sent and, if it went on the wire, carried. */
  function AnsweredNet(t: Turn, w: Words, piped: bool): Net {
    var net1 := Next(t.net, AgentReply(t.i, t.rEp, t.m, w.subject, w.contents, None));
    if |net1.wire| > |t.net.wire| && t.m.origin.Some?
    then Next(net1, Carry(|t.net.wire|, t.m.origin.value.router, piped))
    else net1
  }

  /** The agent answers, the answer is delivered, and the other agent is to answer it. */
  function Answered(t: Turn, w: Words, piped: bool): Turn {
    var net := AnsweredNet(t, w, piped);
    if !There(t.net, t.i, t.rEp) || t.m.replyAddr.None? || t.m.origin.None?
       || !There(net, t.m.origin.value.router, t.m.origin.value.rEp) then t
    else
      var o := t.m.origin.value;
      Turn(Served(net, o.router, o.rEp), o.router, o.rEp, AnswerTo(t.net, t.i, t.rEp, t.m, w.subject, w.contents))
  }

  /** What serving an inbox keeps. */
  ghost predicate Keeps(net: Net, net': Net) {
    && |net'.routers| == |net.routers|
    && (forall j, c | There(net, j, c) :: There(net', j, c))
  }

  lemma DeliverKeeps(net: Net, j: nat, c: int)
    requires Inv(net) && There(net, j, c) && net.routers[j].core.inboxes[c] != []
    ensures var (net', inbox) := (Next(net, Deliver(j, c)), net.routers[j].core.inboxes[c]);
            && Inv(net') && Keeps(net, net')
            && net'.routers[j].core.inboxes[c] == inbox[1..] && net'.routers[j].seen == net.routers[j].seen + [inbox[0]]
  {
    DeliverOk(net, j, c);
  }

  lemma {:induction false} ServedDelivers(net: Net, j: nat, c: int)
    requires Inv(net) && There(net, j, c)
    ensures var net' := Served(net, j, c);
            && Inv(net') && Keeps(net, net')
            && (forall m | m in net.routers[j].seen || m in net.routers[j].core.inboxes[c] :: m in net'.routers[j].seen)
    decreases |net.routers[j].core.inboxes[c]|
  {
    var inbox := net.routers[j].core.inboxes[c];
    if inbox != [] {
      var net1 := Next(net, Deliver(j, c));
      DeliverKeeps(net, j, c);
      assert inbox == [inbox[0]] + inbox[1..];
      ServedDelivers(net1, j, c);
    }
  }

  lemma SendingKeeps(t: Turn, w: Words)
    requires Talking(t)
    ensures var net1 := Next(t.net, AgentReply(t.i, t.rEp, t.m, w.subject, w.contents, None));
            Inv(net1) && Keeps(t.net, net1)
  {
    assert MayAnswer(t.net, t.i, t.i, t.m);
    NextOk(t.net, AgentReply(t.i, t.rEp, t.m, w.subject, w.contents, None));
  }

  lemma CarryingKeeps(net: Net, k: nat, i: nat, piped: bool)
    requires Inv(net) && k < |net.wire| && i < |net.routers| && !Strayed(net, k, i)
    ensures var net' := Next(net, Carry(k, i, piped)); Inv(net') && Keeps(net, net')
  {
    CarryOk(net, k, i, piped);
    if Carries(net, k, i) {
      CarriedGives(net, k, i);
    }
  }

  /** The answer arrives, at once or when it is carried. */
  lemma AnswerArrives(t: Turn, w: Words, piped: bool)
    requires Talking(t)
    ensures t.m.replyAddr.Some?
    ensures var (net', o) := (AnsweredNet(t, w, piped), t.m.origin.value);
            && Inv(net') && Keeps(t.net, net') && There(net', o.router, o.rEp)
            && AnswerTo(t.net, t.i, t.rEp, t.m, w.subject, w.contents) in net'.routers[o.router].core.inboxes[o.rEp]
  {
    var o := t.m.origin.value;
    assert MayAnswer(t.net, t.i, t.i, t.m);
    AnswerRouted(t.net, t.i, t.i, t.rEp, t.m, w.subject, w.contents);
    AnswerSent(t.net, t.i, t.i, t.rEp, t.m, w.subject, w.contents);
    SendingKeeps(t, w);
    var net1 := Next(t.net, AgentReply(t.i, t.rEp, t.m, w.subject, w.contents, None));
    if !IsMine(t.net.routers[t.i].core, t.m.replyAddr.value.mEp) {
      CarryingKeeps(net1, |t.net.wire|, o.router, piped);
    }
  }

  /** u is the turn of the one who made the message of t, with a message of the one whose turn t was. */
  predicate Swapped(t: Turn, u: Turn) {
    && t.m.origin.Some? && u.m.origin.Some?
    && u.i == t.m.origin.value.router && u.rEp == t.m.origin.value.rEp
    && t.i == u.m.origin.value.router && t.rEp == u.m.origin.value.rEp
  }

  /** The same agent's turn, with a message of the same other. */
  predicate SameEnds(t: Turn, u: Turn) {
    && t.m.origin.Some? && u.m.origin.Some? && u.i == t.i && u.rEp == t.rEp
    && u.m.origin.value.router == t.m.origin.value.router && u.m.origin.value.rEp == t.m.origin.value.rEp
  }

  /** What answering t with these words has to come to. */
  predicate Answers(t: Turn, w: Words, u: Turn) {
    && u.i < |u.net.routers| && u.m in u.net.routers[u.i].seen
    && u.m.cause == t.m.origin && u.m.subject == w.subject && u.m.contents == w.contents && Swapped(t, u)
  }

  /** One answer: it is delivered to the agent who waits for it, it answers that agent's message, and the turn to answer
    * goes over with it. */
  lemma TurnGoesOver(t: Turn, w: Words, piped: bool)
    requires Talking(t)
    ensures Talking(Answered(t, w, piped)) && Answers(t, w, Answered(t, w, piped))
    ensures Reaches(t.net, Answered(t, w, piped).net)
  {
    var (net, o) := (AnsweredNet(t, w, piped), t.m.origin.value);
    AnswerArrives(t, w, piped);
    ServedDelivers(net, o.router, o.rEp);
    assert RouterOk(t.net, t.i);
    AnsweredReached(t, w, piped);
    ServedReached(net, o.router, o.rEp);
    ReachesOn(t.net, net, Served(net, o.router, o.rEp));
  }

  // ---------- the run behind it ----------

  ghost predicate Reaches(net: Net, net': Net) {
    exists actions :: ProperRun(net, actions) && Run(net, actions) == net'
  }

  lemma ReachesStep(net: Net, a: Action)
    requires Proper(net, a)
    ensures Reaches(net, Next(net, a))
  {
    assert [a][1..] == [];
    assert ProperRun(net, [a]) && Run(net, [a]) == Next(net, a);
  }

  lemma ReachesItself(net: Net)
    ensures Reaches(net, net)
  {
    assert ProperRun(net, []) && Run(net, []) == net;
  }

  lemma {:induction false} ProperConcat(net: Net, p: seq<Action>, q: seq<Action>)
    requires ProperRun(net, p) && ProperRun(Run(net, p), q)
    ensures ProperRun(net, p + q)
    decreases |p|
  {
    if p == [] {
      assert p + q == q;
    } else {
      assert (p + q)[1..] == p[1..] + q;
      ProperConcat(Next(net, p[0]), p[1..], q);
    }
  }

  lemma ReachesOn(net: Net, net': Net, net'': Net)
    requires Reaches(net, net') && Reaches(net', net'')
    ensures Reaches(net, net'')
  {
    var p :| ProperRun(net, p) && Run(net, p) == net';
    var q :| ProperRun(net', q) && Run(net', q) == net'';
    ProperConcat(net, p, q);
    RunConcat(net, p, q);
    assert ProperRun(net, p + q);
  }

  lemma {:induction false} ServedReached(net: Net, j: nat, c: int)
    requires There(net, j, c)
    ensures Reaches(net, Served(net, j, c))
    decreases |net.routers[j].core.inboxes[c]|
  {
    if net.routers[j].core.inboxes[c] == [] {
      ReachesItself(net);
    } else {
      var net1 := Next(net, Deliver(j, c));
      ReachesStep(net, Deliver(j, c));
      ServedReached(net1, j, c);
      ReachesOn(net, net1, Served(net1, j, c));
    }
  }

  lemma AnsweredReached(t: Turn, w: Words, piped: bool)
    requires Talking(t)
    ensures Reaches(t.net, AnsweredNet(t, w, piped))
  {
    var a := AgentReply(t.i, t.rEp, t.m, w.subject, w.contents, None);
    var net1 := Next(t.net, a);
    assert MayAnswer(t.net, t.i, t.i, t.m);
    ReachesStep(t.net, a);
    var carry := Carry(|t.net.wire|, t.m.origin.value.router, piped);
    ReachesStep(net1, carry);
    ReachesOn(t.net, net1, Next(net1, carry));
  }

  // ---------- whole conversations ----------

  /** A way of going on when an agent has said its words. */
  type Answering = (Turn, Words) -> Turn

  /** Each answer comes to what it has to, by a proper run. */
  ghost predicate Sound(answering: Answering) {
    forall t, w | Talking(t) ::
      var u := answering(t, w); Talking(u) && Answers(t, w, u) && Reaches(t.net, u.net)
  }

  /** The turn after these answers. */
  function After(answering: Answering, t: Turn, words: seq<Words>): Turn
    decreases |words|
  {
    if words == [] then t else answering(After(answering, t, words[..|words| - 1]), words[|words| - 1])
  }

  /** After an even number of answers it is the first agent's turn again, after an odd number the other's. */
  lemma {:induction false} TurnsAlternate(answering: Answering, t: Turn, words: seq<Words>)
    requires Sound(answering) && Talking(t)
    ensures var u := After(answering, t, words);
            Talking(u) && Reaches(t.net, u.net) && if |words| % 2 == 0 then SameEnds(t, u) else Swapped(t, u)
    decreases |words|
  {
    if words == [] {
      ReachesItself(t.net);
    } else {
      var u := After(answering, t, words[..|words| - 1]);
      TurnsAlternate(answering, t, words[..|words| - 1]);
      var v := answering(u, words[|words| - 1]);
      assert Talking(v) && Answers(u, words[|words| - 1], v);
      ReachesOn(t.net, u.net, v.net);
    }
  }

  /** The answering of this net: the answer is sent, carried if it has to be, and delivered. */
  function AnsweringBy(piped: bool): Answering {
    (t, w) => Answered(t, w, piped)
  }

  lemma AnsweringIsSound(piped: bool)
    ensures Sound(AnsweringBy(piped))
  {
    forall t, w | Talking(t)
      ensures var u := AnsweringBy(piped)(t, w); Talking(u) && Answers(t, w, u) && Reaches(t.net, u.net)
    {
      TurnGoesOver(t, w, piped);
    }
  }

  /** A conversation can start in any run with any message in hand, if both routers are running. */
  lemma AnyoneMayTalk(actions: seq<Action>, t: Turn)
    requires ProperRun(EMPTY, actions) && t.net == Run(EMPTY, actions)
    requires There(t.net, t.i, t.rEp) && t.m in t.net.routers[t.i].seen
    requires t.m.origin.Some? && There(t.net, t.m.origin.value.router, t.m.origin.value.rEp)
    ensures Talking(t)
  {
    RunOk(EMPTY, actions);
  }

  lemma OneMoreAnswer(answering: Answering, t: Turn, words: seq<Words>, k: nat)
    requires Sound(answering) && Talking(t) && k < |words|
    ensures var (u, v) := (After(answering, t, words[..k]), After(answering, t, words[..k + 1]));
            Answers(u, words[k], v) && Reaches(t.net, v.net) && if k % 2 == 0 then Swapped(t, v) else SameEnds(t, v)
  {
    var p := words[..k + 1];
    assert p[..|p| - 1] == words[..k] && p[|p| - 1] == words[k];
    TurnsAlternate(answering, t, words[..k]);
    TurnsAlternate(answering, t, p);
  }

  /** However often two agents answer each other, each answer is delivered to the other's hands, as the answer to the
    * very message that one sent before, and it is that one's turn. */
  lemma EveryAnswerIsDelivered(t: Turn, words: seq<Words>, k: nat, piped: bool)
    requires Talking(t) && k < |words|
    ensures var answering := AnsweringBy(piped);
            var (u, v) := (After(answering, t, words[..k]), After(answering, t, words[..k + 1]));
            Answers(u, words[k], v) && Reaches(t.net, v.net) && if k % 2 == 0 then Swapped(t, v) else SameEnds(t, v)
  {
    AnsweringIsSound(piped);
    OneMoreAnswer(AnsweringBy(piped), t, words, k);
  }
}
