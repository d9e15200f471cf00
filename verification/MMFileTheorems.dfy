/** The promises of the shared-memory transport, for every run of `MMFileProtocol`. */
module MMFileTheorems {
  import opened MMFileTransport
  import opened MMFileProtocol

  /** The state after any run. */
  function Reached(hwnd: nat, size: nat, actions: seq<Action>): System {
    Run(Start(hwnd, size), actions)
  }

  lemma ReachedOk(hwnd: nat, size: nat, actions: seq<Action>)
    requires hwnd != 0
    ensures Inv(Reached(hwnd, size, actions))
  {
    StartOk(hwnd, size);
    RunOk(Start(hwnd, size), actions);
  }

  // ---------- exactly once, in order ----------

  predicate AllFit(bs: seq<Buffer>, size: nat) {
    forall b | b in bs :: Fits(b, size)
  }

  /** One direction of a reachable state. Until y stops, nothing is lost, doubled or reordered on the way from x;
    * once y has stopped, what its client accepted is still a prefix. Only a buffer too big for x's file is ever
    * taken off the queue of an open pair without being posted. */
  predicate ExactlyOnce(x: Endpoint, y: Endpoint, inY: seq<WindowMessage>) {
    && y.inc.accepted <= x.out.sent
    && (Open(y) ==> y.inc.accepted + y.inc.queue + InSlot(x, inY) + x.out.lost + x.out.queue == x.out.sent)
    && (Open(x) && Open(y) && AllFit(x.out.sent, x.link.fileSize) ==>
          y.inc.accepted + y.inc.queue + InSlot(x, inY) + x.out.queue == x.out.sent)
    && (Open(x) && Open(y) && x.out.lost != [] ==> exists b :: b in x.out.sent && !Fits(b, x.link.fileSize))
  }

  lemma DirectionDelivers(x: Endpoint, y: Endpoint, inX: seq<WindowMessage>, inY: seq<WindowMessage>)
    requires Direction(x, y, inX, inY)
    ensures ExactlyOnce(x, y, inY)
  {
    if Open(y) {
      var whole := y.inc.accepted + y.inc.queue + InSlot(x, inY) + x.out.lost + x.out.queue;
      assert Taken(y) + Outbound(x, inY) == whole;
      assert y.inc.accepted == whole[..|y.inc.accepted|];
      if x.out.lost != [] {
        assert x.out.lost[0] in whole;
      } else {
        assert whole == y.inc.accepted + y.inc.queue + InSlot(x, inY) + x.out.queue;
      }
    } else {
      assert y.inc.accepted <= Taken(y);
    }
  }

  lemma ExactlyOnceInOrder(hwnd: nat, size: nat, actions: seq<Action>)
    requires hwnd != 0
    ensures var s := Reached(hwnd, size, actions);
            ExactlyOnce(s.a, s.b, s.inB) && ExactlyOnce(s.b, s.a, s.inA)
  {
    ReachedOk(hwnd, size, actions);
    var s := Reached(hwnd, size, actions);
    DirectionDelivers(s.a, s.b, s.inA, s.inB);
    DirectionDelivers(s.b, s.a, s.inB, s.inA);
  }

  /** Per direction of an open pair: sending means that exactly one of a posted message, an acknowledgement and a
    * raised send is out; not sending means that none is. */
  lemma TokenConservation(hwnd: nat, size: nat, actions: seq<Action>)
    requires hwnd != 0
    ensures var s := Reached(hwnd, size, actions);
            Open(s.a) && Open(s.b) ==>
              && Count(s.inB, MessageInTransit) + Count(s.inA, MessageReceived) + |s.a.out.lost| ==
                    (if s.a.out.isSending then 1 else 0)
              && Count(s.inA, MessageInTransit) + Count(s.inB, MessageReceived) + |s.b.out.lost| ==
                    (if s.b.out.isSending then 1 else 0)
  {
    ReachedOk(hwnd, size, actions);
  }

  // ---------- the slot ----------

  /** An endpoint that is sending and gets no acknowledgement keeps its slot and its queue's head. */
  predicate Holds(o: Outgoing, o': Outgoing) {
    o'.slot == o.slot && o'.lost == o.lost && o'.isSending && o.queue <= o'.queue
  }

  lemma {:induction false} SendAllHolds(e: Endpoint, bs: seq<Buffer>, peer: Peer)
    requires e.out.isSending
    ensures var s := SendAll(e, bs, peer); Holds(e.out, s.e.out) && s.result != Faulted && s.posts == []
    decreases |bs|
  {
    if bs != [] {
      SendAllHolds(Send(e, bs[0], peer).e, bs[1..], peer);
    }
  }

  lemma {:induction false} DeliverHolds(e: Endpoint, peer: Peer, answers: seq<Answer>)
    requires e.out.isSending
    ensures Holds(e.out, Deliver(e, peer, answers).e.out)
    decreases |e.inc.queue|
  {
    if e.inc.queue != [] {
      var s := SendAll(e, First(answers).sends, peer);
      SendAllHolds(e, First(answers).sends, peer);
      SendAllFrame(e, First(answers).sends, peer);
      if First(answers).received {
        DeliverHolds(s.e.(inc := Accept(e.inc)), peer, Rest(answers));
      }
    }
  }

  lemma SendingHolds(h: Half, act: Act)
    requires h.x.out.isSending && Acks(h.inX) == 0
    requires Plain(h.inX)
    ensures Holds(h.x.out, ActOn(h, act).x.out)
  {
    var peer := PeerOf(h.x.link.remoteHwnd, h.y);
    match act {
      case HandleNext(answers) =>
        if Alive(h.x) && h.inX != [] && !h.x.status.isDisconnecting {
          assert h.inX[0] in h.inX;
          if h.inX[0] == MessageInTransit {
            DeliverHolds(h.x.(inc := h.x.inc.(queue := h.x.inc.queue + [h.y.out.slot])), peer, answers);
          }
        }
      case TimerFires(id, answers) =>
        SendAllHolds(h.x, First(answers).sends, peer);
        DeliverHolds(h.x, peer, answers);
      case ClientSend(b) =>
      case ClientDisconnect(received) =>
    }
  }

  lemma SendingIsPlain(s: System)
    requires Inv(s)
    ensures s.a.out.isSending ==> Plain(s.inA)
    ensures s.b.out.isSending ==> Plain(s.inB)
  {
  }

  /** Between the sender's copy in and the receiver's copy out no action of either side touches the slot. */
  lemma SlotNeverOverwritten(hwnd: nat, size: nat, actions: seq<Action>, action: Action)
    requires hwnd != 0
    ensures var s := Reached(hwnd, size, actions);
            var s' := Next(s, action);
            && (Posts(s.inB) > 0 ==> s'.a.out.slot == s.a.out.slot)
            && (Posts(s.inA) > 0 ==> s'.b.out.slot == s.b.out.slot)
  {
    ReachedOk(hwnd, size, actions);
    var s := Reached(hwnd, size, actions);
    SendingIsPlain(s);
    if action.OnA? && Posts(s.inB) > 0 {
      SendingHolds(HalfA(s), action.act);
    }
    if action.OnB? && Posts(s.inA) > 0 {
      SendingHolds(HalfB(s), action.act);
    }
  }

  /** A send that raised stalls its endpoint for good: in every continuation nothing more is posted. */
  lemma {:induction false} RaisedSendStalls(s: System, actions: seq<Action>)
    requires Inv(s)
    ensures var t := Run(s, actions);
            && (s.a.out.lost != [] ==>
                  t.a.out.lost == s.a.out.lost && t.a.out.isSending && s.a.out.queue <= t.a.out.queue &&
                      Posts(t.inB) == 0)
            && (s.b.out.lost != [] ==>
                  t.b.out.lost == s.b.out.lost && t.b.out.isSending && s.b.out.queue <= t.b.out.queue &&
                      Posts(t.inA) == 0)
    decreases |actions|
  {
    if actions != [] {
      SendingIsPlain(s);
      if actions[0].OnA? && s.a.out.lost != [] {
        SendingHolds(HalfA(s), actions[0].act);
      }
      if actions[0].OnB? && s.b.out.lost != [] {
        SendingHolds(HalfB(s), actions[0].act);
      }
      NextOk(s, actions[0]);
      RaisedSendStalls(Next(s, actions[0]), actions[1..]);
    }
  }

  // ---------- the handshake ----------

  /** The connector, connected itself, leaves although the other side has not become connected yet. */
  predicate LeavesEarly(s: System, action: Action) {
    action.OnA? && action.act.ClientDisconnect? && s.a.status.isConnected && s.b.status.isConnecting
  }

  predicate NobodyLeavesEarly(s: System, actions: seq<Action>)
    decreases |actions|
  {
    actions == [] || (!LeavesEarly(s, actions[0]) && NobodyLeavesEarly(Next(s, actions[0]), actions[1..]))
  }

  /** The connector has left and the acknowledgement is, or was, worth nothing. */
  predicate Left(s: System) {
    (Acknowledging(s) && !Open(s.a)) || Broken(s)
  }

  lemma StaysOpenHandling(h: Half, answers: seq<Answer>)
    requires Ready(h) && Open(h.x) && h.inX != [] && h.inX[0] != ConnectionDisconnect
    ensures Open(ActOn(h, HandleNext(answers)).x)
  {
    assert h.inX[0] in h.inX;
    DeliverFrame(h.x.(inc := h.x.inc.(queue := h.x.inc.queue + [h.y.out.slot])), PeerOf(h.x.link.remoteHwnd, h.y),
        answers);
  }

  lemma StaysOpenTimer(h: Half, id: TimerId, answers: seq<Answer>)
    requires Ready(h) && Open(h.x)
    ensures Open(ActOn(h, TimerFires(id, answers)).x)
  {
    SendAllFrame(h.x, First(answers).sends, PeerOf(h.x.link.remoteHwnd, h.y));
    DeliverFrame(h.x, PeerOf(h.x.link.remoteHwnd, h.y), answers);
  }

  /** Only its own client or the peer's notice can close an open endpoint. */
  lemma StaysOpen(h: Half, act: Act)
    requires Ready(h) && Open(h.x) && !act.ClientDisconnect?
    requires act.HandleNext? && h.inX != [] ==> h.inX[0] != ConnectionDisconnect
    ensures Open(ActOn(h, act).x)
  {
    match act {
      case HandleNext(answers) =>
        if h.inX != [] {
          StaysOpenHandling(h, answers);
        }
      case TimerFires(id, answers) => StaysOpenTimer(h, id, answers);
      case ClientSend(b) =>
    }
  }

  lemma StaysUnbroken(s: System, action: Action)
    requires Inv(s) && !LeavesEarly(s, action) && !Left(s)
    ensures !Left(Next(s, action))
  {
    NextOk(s, action);
    if Acknowledging(s) {
      if action.OnA? {
        if !action.act.ClientDisconnect? {
          StaysOpen(HalfA(s), action.act);
        }
      } else if action.OnB? && action.act.HandleNext? {
        GreetedListener(s, action.act.answers);
      }
    } else if Agreed(s) && action.OnA? && action.act.HandleNext? {
      GreetedConnector(s, action.act.answers);
      var m := s.inA[0];
      ConnectedFrame(BothMapped(s.a, m.hwnd, m.size), PeerOf(m.hwnd, s.b), First(action.act.answers));
    } else if Joined(s) && action.OnB? && !s.b.faulted {
      JoinedB(s, action.act);
    }
  }

  lemma LeavesEarlyLeaves(s: System, action: Action)
    requires Inv(s) && LeavesEarly(s, action)
    ensures Left(Next(s, action))
  {
    if Acknowledging(s) && Open(s.a) {
      AcknowledgingA(s, action.act);
      NextOk(s, action);
    } else {
      LeftStaysLeft(s, action);
    }
  }

  lemma LeftStaysLeftA(s: System, act: Act)
    requires Inv(s) && Left(s) && !s.a.faulted
    ensures Left(Next(s, OnA(act)))
  {
    var s' := Next(s, OnA(act));
    NextOk(s, OnA(act));
    EstablishedAct(HalfA(s), act);
    assert !Open(s'.a) && s'.b == s.b && s.inB <= s'.inB;
  }

  lemma LeftStaysLeftB(s: System, act: Act)
    requires Inv(s) && Left(s)
    ensures Left(Next(s, OnB(act)))
  {
    if Acknowledging(s) {
      if act.HandleNext? {
        GreetedListener(s, act.answers);
      } else {
        WaitingAct(HalfB(s), act);
      }
    } else {
      StuckAct(HalfB(s), act);
    }
  }

  lemma LeftStaysLeft(s: System, action: Action)
    requires Inv(s) && Left(s)
    ensures Left(Next(s, action))
  {
    match action {
      case ListenerAccepts(hwnd, size) =>
      case OnA(act) => if !s.a.faulted { LeftStaysLeftA(s, act); }
      case OnB(act) => LeftStaysLeftB(s, act);
    }
  }

  /** A run leaves the acknowledgement worthless if and only if the connector leaves early in it. */
  lemma {:induction false} LeftExactly(s: System, actions: seq<Action>)
    requires Inv(s)
    ensures Inv(Run(s, actions)) && (Left(Run(s, actions)) <==> Left(s) || !NobodyLeavesEarly(s, actions))
    decreases |actions|
  {
    if actions != [] {
      NextOk(s, actions[0]);
      LeftExactly(Next(s, actions[0]), actions[1..]);
      if Left(s) {
        LeftStaysLeft(s, actions[0]);
      } else if LeavesEarly(s, actions[0]) {
        LeavesEarlyLeaves(s, actions[0]);
      } else {
        StaysUnbroken(s, actions[0]);
      }
    }
  }

  /** At some point of the run the listener's endpoint is connected. */
  predicate Connects(s: System, actions: seq<Action>)
    decreases |actions|
  {
    s.b.status.isConnected || (actions != [] && Connects(Next(s, actions[0]), actions[1..]))
  }

  /** The listener's endpoint has been made and has handled its acknowledgement. */
  predicate HandshakeOver(s: System) {
    Joined(s) || Broken(s)
  }

  /** The step that ends the handshake well finds the listener's endpoint connected. */
  lemma JoiningConnects(s: System, action: Action)
    requires Inv(s) && !Joined(s) && Joined(Next(s, action))
    ensures Next(s, action).b.status.isConnected
  {
    var s' := Next(s, action);
    NextOk(s, action);
    if Acknowledging(s) && action.OnB? && action.act.HandleNext? {
      GreetedListener(s, action.act.answers);
      ConnectedFrame(Mapped(s.b, s.inB[0].size), PeerOf(s.b.link.remoteHwnd, s.a), First(action.act.answers));
    } else if (Agreed(s) || Acknowledging(s)) && action.OnB? {
      WaitingAct(HalfB(s), action.act);
    } else if Broken(s) && action.OnB? {
      StuckAct(HalfB(s), action.act);
    }
  }

  lemma {:induction false} JoinedHasConnected(s: System, actions: seq<Action>)
    requires Inv(s) && !Joined(s) && Joined(Run(s, actions))
    ensures Connects(s, actions)
    decreases |actions|
  {
    if actions != [] {
      var s' := Next(s, actions[0]);
      NextOk(s, actions[0]);
      if Joined(s') {
        JoiningConnects(s, actions[0]);
      } else {
        JoinedHasConnected(s', actions[1..]);
      }
    }
  }

  /** Once the handshake is over: the listener's endpoint has been connected if and only if the connector did not leave
    * early. */
  lemma ListenerConnectsExactly(hwnd: nat, size: nat, actions: seq<Action>)
    requires hwnd != 0 && HandshakeOver(Reached(hwnd, size, actions))
    ensures Connects(Start(hwnd, size), actions) <==> NobodyLeavesEarly(Start(hwnd, size), actions)
  {
    var s := Start(hwnd, size);
    StartOk(hwnd, size);
    LeftExactly(s, actions);
    if NobodyLeavesEarly(s, actions) {
      JoinedHasConnected(s, actions);
    } else {
      EarlyLeaveNeverConnects(s, actions);
    }
  }

  /** Handshake safety. In every run, whatever the clients send while connecting, no complaint is ever posted; an
    * endpoint that is about to read the slot has mapped its peer's file, knows its true size, and finds a buffer
    * that fits, unless it never became connected; and that happens to the listener's endpoint alone, and exactly if
    * the connector left early. */
  lemma HandshakeSafety(hwnd: nat, size: nat, actions: seq<Action>)
    requires hwnd != 0
    ensures var s := Reached(hwnd, size, actions);
            && MessageGarbled !in s.inA && MessageGarbled !in s.inB
            && ReadsSafely(HalfA(s)) && ReadsSafely(HalfB(s))
            && (AboutToRead(s.a, s.inA) ==> s.a.status.isConnected)
            && (AboutToRead(s.b, s.inB) ==>
                  (s.b.status.isConnected <==> NobodyLeavesEarly(Start(hwnd, size), actions)))
  {
    StartOk(hwnd, size);
    LeftExactly(Start(hwnd, size), actions);
    var s := Reached(hwnd, size, actions);
    if Acknowledging(s) {
      assert s.inB == [s.inB[0]] + s.inB[1..];
    }
    assert AboutToRead(s.a, s.inA) ==> Posts(s.inA) > 0;
    assert AboutToRead(s.b, s.inB) ==> Posts(s.inB) > 0;
  }

  predicate AboutToRead(x: Endpoint, inX: seq<WindowMessage>) {
    Alive(x) && !x.status.isDisconnecting && inX != [] && inX[0] == MessageInTransit
  }

  /** Reading goes well exactly when the reader is connected; otherwise the copy is from an address never mapped. */
  ghost predicate ReadsSafely(h: Half) {
    AboutToRead(h.x, h.inX) ==>
      if h.x.status.isConnected then
        h.x.link.remoteMapped && h.x.link.remoteSize == h.y.link.fileSize && Fits(h.y.out.slot, h.x.link.remoteSize)
      else
        forall answers :: ActOn(h, HandleNext(answers)).x.faulted
  }

  /** An early leave: the other side is not connected at any point of the run, however it goes on. */
  lemma {:induction false} EarlyLeaveNeverConnects(s: System, actions: seq<Action>)
    requires Inv(s) && !s.b.status.isConnected && (Left(s) || !NobodyLeavesEarly(s, actions))
    ensures !Connects(s, actions)
    decreases |actions|
  {
    if actions != [] {
      var s' := Next(s, actions[0]);
      NextOk(s, actions[0]);
      if Left(s) {
        LeftStaysLeft(s, actions[0]);
      } else if LeavesEarly(s, actions[0]) {
        LeavesEarlyLeaves(s, actions[0]);
      } else if s'.b.status.isConnected {
        NobodyLeavesLate(s', actions[1..]);
      }
      EarlyLeaveNeverConnects(s', actions[1..]);
    }
  }

  /** Once the listener's endpoint is connected no leave is early. */
  lemma {:induction false} NobodyLeavesLate(s: System, actions: seq<Action>)
    requires Inv(s) && Joined(s)
    ensures NobodyLeavesEarly(s, actions)
    decreases |actions|
  {
    if actions != [] {
      NextOk(s, actions[0]);
      if actions[0].OnB? && !s.b.faulted {
        JoinedB(s, actions[0].act);
      }
      NobodyLeavesLate(Next(s, actions[0]), actions[1..]);
    }
  }

  lemma RunStep(s: System, actions: seq<Action>, k: nat)
    requires k < |actions|
    ensures Run(s, actions[k..]) == Run(Next(s, actions[k]), actions[k + 1..])
    ensures k + 1 == |actions| ==> Run(s, actions[k..]) == Next(s, actions[k])
  {
    assert actions[k..][0] == actions[k] && actions[k..][1..] == actions[k + 1..];
  }

  const LEAVING := [ListenerAccepts(2, 100), OnA(HandleNext([])), OnA(ClientSend([])), OnA(ClientDisconnect(true)),
                    OnB(HandleNext([])), OnB(HandleNext([]))]

  /** The connector answers, sends and leaves before the listener's endpoint has handled anything. */
  lemma Answering() returns (s2: System)
    ensures Run(Start(1, 100), LEAVING) == Run(s2, LEAVING[2..])
    ensures s2.b == Next(Start(1, 100), ListenerAccepts(2, 100)).b && s2.inB == [AgreementAcknowledged(1, 100)]
    ensures s2.a == NEW_ENDPOINT.(link := Link(1, 2, 100, true, true, 100),
                                  status := Status(false, false, true, false, false),
                                  timers := {ConnectedTimer})
  {
    var s0 := Start(1, 100);
    var s1 := Next(s0, ListenerAccepts(2, 100));
    s2 := Next(s1, OnA(HandleNext([])));
    assert s2.a.status.isConnected && s2.inB == [AgreementAcknowledged(1, 100)];
    RunStep(s1, LEAVING, 1);
    RunStep(s0, LEAVING, 0);
    assert LEAVING[0..] == LEAVING;
  }

  lemma SendingFirst() returns (s3: System)
    ensures Run(Start(1, 100), LEAVING) == Run(s3, LEAVING[3..])
    ensures s3.b == Next(Start(1, 100), ListenerAccepts(2, 100)).b &&
          s3.inB == [AgreementAcknowledged(1, 100), MessageInTransit]
    ensures s3.a.link == Link(1, 2, 100, true, true, 100) && s3.a.status.isConnected && !s3.a.faulted
  {
    var s2 := Answering();
    s3 := Next(s2, OnA(ClientSend([])));
    assert s3.inB == [AgreementAcknowledged(1, 100), MessageInTransit] && s3.a.link.remoteHwnd == 2;
    RunStep(s2, LEAVING, 2);
  }

  lemma LeavingEarly() returns (s4: System)
    ensures Run(Start(1, 100), LEAVING) == Run(s4, LEAVING[4..])
    ensures !s4.a.link.fileMapped && s4.b == Next(Start(1, 100), ListenerAccepts(2, 100)).b
    ensures |s4.inB| >= 2 && s4.inB[..2] == [AgreementAcknowledged(1, 100), MessageInTransit]
  {
    var s3 := SendingFirst();
    s4 := Next(s3, OnA(ClientDisconnect(true)));
    RunStep(s3, LEAVING, 3);
  }

  /** The listener's endpoint cannot map the file any more and goes down reading it. */
  lemma ReadingNothing(s4: System)
    requires !s4.a.link.fileMapped && s4.b == Next(Start(1, 100), ListenerAccepts(2, 100)).b
    requires |s4.inB| >= 2 && s4.inB[..2] == [AgreementAcknowledged(1, 100), MessageInTransit]
    ensures Next(Next(s4, OnB(HandleNext([]))), OnB(HandleNext([]))).b.faulted
  {
    var s5 := Next(s4, OnB(HandleNext([])));
    assert !s5.b.link.remoteMapped && Alive(s5.b) && s5.inB[0] == MessageInTransit;
  }

  /** Such a run exists. */
  lemma EarlyLeaveFaults()
    ensures Reached(1, 100, LEAVING).b.faulted
  {
    var s4 := LeavingEarly();
    ReadingNothing(s4);
    RunStep(s4, LEAVING, 4);
    RunStep(Next(s4, LEAVING[4]), LEAVING, 5);
  }

  const SENDING_LATE := [ListenerAccepts(2, 100), OnA(HandleNext([])), OnA(ClientDisconnect(false)),
      OnA(ClientSend([]))]

  /** The connector is still connected, disconnecting and idle when its client sends. */
  lemma SendFaults()
    ensures var s := Reached(1, 100, SENDING_LATE[..3]);
            s.a.status.isConnected && s.a.status.isDisconnecting && !s.a.out.isSending && !s.a.faulted
    ensures Reached(1, 100, SENDING_LATE).a.faulted
  {
    var s0 := Start(1, 100);
    var s1 := Next(s0, SENDING_LATE[0]);
    var s2 := Next(s1, SENDING_LATE[1]);
    assert s2.a.status.isConnected && s2.a.link.remoteHwnd == 2 && !s2.a.out.isSending && s2.a.link.fileSize == 100;
    var s3 := Next(s2, SENDING_LATE[2]);
    assert s3.a.status.isDisconnecting && !s3.a.link.fileMapped && !s3.a.out.isSending;
    RunFour(s0, SENDING_LATE);
  }

  lemma RunFour(s: System, actions: seq<Action>)
    requires |actions| == 4
    ensures var s3 := Next(Next(Next(s, actions[0]), actions[1]), actions[2]);
            Run(s, actions[..3]) == s3 && Run(s, actions) == Next(s3, actions[3])
  {
    var s1 := Next(s, actions[0]);
    var s2 := Next(s1, actions[1]);
    var p := actions[..3];
    RunStep(s2, p, 2);
    RunStep(s1, p, 1);
    RunStep(s, p, 0);
    RunStep(Next(s2, actions[2]), actions, 3);
    RunStep(s2, actions, 2);
    RunStep(s1, actions, 1);
    RunStep(s, actions, 0);
    assert p[0..] == p && actions[0..] == actions;
  }

  const SENDING_TOO_MUCH := [ListenerAccepts(2, 100), OnA(HandleNext([])), OnB(HandleNext([])), OnA(ClientSend([7]))]

  /** Shaking hands with a file of four bytes. */
  lemma ShakingHands() returns (s3: System)
    ensures s3 == Next(Next(Next(Start(1, 4), SENDING_TOO_MUCH[0]), SENDING_TOO_MUCH[1]), SENDING_TOO_MUCH[2])
    ensures s3.a.status == s3.b.status == Status(false, false, true, false, false) && !s3.a.faulted && !s3.b.faulted
    ensures s3.a.out == Outgoing(false, [], [], [], []) && s3.a.link == Link(1, 2, 4, true, true, 100)
    ensures s3.b.link.hwnd == 2
  {
    var s1 := Next(Start(1, 4), SENDING_TOO_MUCH[0]);
    var s2 := Next(s1, SENDING_TOO_MUCH[1]);
    assert s2.a.status == Status(false, false, true, false, false) && s2.inB == [AgreementAcknowledged(1, 4)] &&
          s2.b == s1.b;
    assert s2.a.out == Outgoing(false, [], [], [], []) && s2.a.link == Link(1, 2, 4, true, true, 100);
    s3 := Next(s2, SENDING_TOO_MUCH[2]);
    assert s3.b.status == Status(false, false, true, false, false) && s3.a == s2.a;
  }

  /** It has no room for any buffer: the endpoints are in touch and the first send is lost. */
  lemma SendRaises()
    ensures var s := Reached(1, 4, SENDING_TOO_MUCH);
            Joined(s) && Open(s.a) && Open(s.b) && s.a.out.lost == [[7]] && s.a.out.isSending
  {
    var s3 := ShakingHands();
    RunFour(Start(1, 4), SENDING_TOO_MUCH);
    ReachedOk(1, 4, SENDING_TOO_MUCH);
    var s4 := Next(s3, OnA(ClientSend([7])));
    assert s4.b == s3.b && s4.a.status == s3.a.status && s4.a.out.lost == [[7]] && s4.a.out.isSending && !s4.a.faulted;
  }

  /** A client's own send brings its process down exactly when it is sent to an idle endpoint that still counts as
    * connected after `disconnect` has unmapped its file. */
  lemma SendFaultsExactly(hwnd: nat, size: nat, actions: seq<Action>, b: Buffer)
    requires hwnd != 0
    ensures var s := Reached(hwnd, size, actions);
            FaultsExactly(HalfA(s), b) && FaultsExactly(HalfB(s), b)
  {
    ReachedOk(hwnd, size, actions);
  }

  predicate FaultsExactly(h: Half, b: Buffer) {
    !h.x.faulted ==>
      (ActOn(h, ClientSend(b)).x.faulted <==>
         h.x.status.isConnected && h.x.status.isDisconnecting && !h.x.out.isSending && Fits(b, h.x.link.fileSize))
  }

  lemma {:induction false} DeliverKeeps(e: Endpoint, peer: Peer, answers: seq<Answer>)
    ensures var s := Deliver(e, peer, answers);
            && s.e.link == e.link && s.e.status == e.status && s.e.timers == e.timers
            && (e.faulted || s.result == Faulted ==> s.e.faulted)
    decreases |e.inc.queue|
  {
    if e.inc.queue != [] {
      SendAllFrame(e, First(answers).sends, peer);
      var s := SendAll(e, First(answers).sends, peer);
      if s.result != Faulted && First(answers).received {
        DeliverKeeps(s.e.(inc := Accept(e.inc)), peer, Rest(answers));
      }
    }
  }

  // ---------- leaving ----------

  /** Taking the notice out of the mailbox closes the endpoint, whatever its client answers. A client that receives the
    * event is finished with it; for one that refuses it the timer is set, unless the endpoint has mapped nothing. */
  lemma NoticeCloses(h: Half, answers: seq<Answer>)
    requires Alive(h.x) && h.inX != [] && h.inX[0] == ConnectionDisconnect
    ensures var x' := ActOn(h, HandleNext(answers)).x;
            && !Open(x') && x'.out == h.x.out && x'.inc == h.x.inc
            && (Open(h.x) && h.x.link.remoteMapped ==>
                  if answers != [] && answers[0].received then x'.link.hwnd == 0 && x'.status.closed
                  else DisconnectingTimer in x'.timers && x'.link.hwnd == h.x.link.hwnd)
  {
  }

  /** An endpoint that has left of its own accord, or on its peer's notice, and whose peer still counts as open, has its
    * notice in the peer's mailbox. */
  predicate Told(x: Endpoint, y: Endpoint, inY: seq<WindowMessage>) {
    !Open(x) && !x.faulted && Open(y) && y.link.hwnd != 0 ==> ConnectionDisconnect in inY
  }

  predicate BothTold(s: System) {
    Told(s.a, s.b, s.inB) && Told(s.b, s.a, s.inA)
  }

  /** Nothing is opened, brought back up or given a window. */
  predicate Decays(e: Endpoint, e': Endpoint) {
    && (Open(e') ==> Open(e)) && (e.faulted ==> e'.faulted)
    && (e'.link.hwnd == e.link.hwnd || e'.link.hwnd == 0)
  }

  lemma ConnectedDecays(e: Endpoint, link: Link, peer: Peer, answer: Answer)
    requires link.hwnd == e.link.hwnd
    ensures Decays(e, Connected(e.(link := link, status := NowConnected(e.status)), peer, answer).e)
  {
    SendAllFrame(e.(link := link, status := NowConnected(e.status)), answer.sends, peer);
  }

  lemma TimerDecays(e: Endpoint, id: TimerId, peer: Peer, answers: seq<Answer>)
    ensures Decays(e, OnTimer(e, id, peer, answers).e)
  {
    SendAllFrame(e, First(answers).sends, peer);
    DeliverKeeps(e, peer, answers);
  }

  lemma MessageDecays(e: Endpoint, m: WindowMessage, peer: Peer, answers: seq<Answer>)
    ensures Decays(e, ProcessMessage(e, m, peer, answers).e)
  {
    match m {
      case ConnectionAgreed(hwnd, size) =>
        ConnectedDecays(e, e.link.(remoteHwnd := hwnd, remoteSize := size, remoteMapped := true, fileMapped := true),
                        peer, First(answers));
      case AgreementAcknowledged(_, size) =>
        ConnectedDecays(e, e.link.(remoteSize := size, remoteMapped := true), peer, First(answers));
      case MessageInTransit =>
        DeliverKeeps(e.(inc := e.inc.(queue := e.inc.queue + [peer.slot])), peer, answers);
      case _ =>
    }
  }

  /** An action drops at most the next message from the endpoint's own mailbox, and leaves its peer alone. */
  lemma ActDecays(h: Half, act: Act)
    ensures var h' := ActOn(h, act);
            && Decays(h.x, h'.x) && h'.y == h.y && h.inY <= h'.inY
            && (Alive(h'.x) ==> h'.inX == h.inX || (act.HandleNext? && h.inX != [] && h'.inX == h.inX[1..]))
  {
    match act {
      case HandleNext(answers) =>
        if Alive(h.x) && h.inX != [] {
          MessageDecays(h.x, h.inX[0], PeerOf(Target(h.x, h.inX[0]), h.y), answers);
        }
      case TimerFires(id, answers) => TimerDecays(h.x, id, PeerOf(h.x.link.remoteHwnd, h.y), answers);
      case ClientSend(b) =>
      case ClientDisconnect(received) =>
    }
  }

  /** The peer's notice to x stays in x's mailbox until x handles it, and then x is not open any more. */
  lemma ToldBack(h: Half, act: Act)
    requires Told(h.y, h.x, h.inX)
    ensures var h' := ActOn(h, act); Told(h'.y, h'.x, h'.inX)
  {
    var h' := ActOn(h, act);
    ActDecays(h, act);
    if !Open(h.y) && !h.y.faulted && Open(h'.x) && h'.x.link.hwnd != 0 {
      if act.HandleNext? && h.inX[0] == ConnectionDisconnect {
        NoticeCloses(h, act.answers);
      }
    }
  }

  /** Whoever closes an established endpoint posts the notice. */
  lemma ToldForward(h: Half, act: Act)
    requires Ready(h) && Told(h.x, h.y, h.inY)
    ensures var h' := ActOn(h, act); Told(h'.x, h'.y, h'.inY)
  {
    var h' := ActOn(h, act);
    ActDecays(h, act);
    if Open(h.x) && !Open(h'.x) && !h'.x.faulted && Open(h.y) && h.y.link.hwnd != 0 {
      if !act.ClientDisconnect? && !(act.HandleNext? && h.inX != [] && h.inX[0] == ConnectionDisconnect) {
        StaysOpen(h, act);
      }
      assert h'.inY == h.inY + [ConnectionDisconnect];
    }
  }

  /** Nobody has left before the connector has been greeted. */
  lemma ToldBefore(s: System, act: Act)
    requires Inv(s) && (Requested(s) || Agreed(s))
    ensures BothTold(Next(s, OnA(act))) && BothTold(Next(s, OnB(act)))
  {
    if Agreed(s) && act.HandleNext? {
      GreetedConnector(s, act.answers);
      var m := s.inA[0];
      ConnectedFrame(BothMapped(s.a, m.hwnd, m.size), PeerOf(m.hwnd, s.b), First(act.answers));
    } else {
      WaitingAct(HalfA(s), act);
    }
    if Agreed(s) {
      WaitingAct(HalfB(s), act);
    }
  }

  lemma ToldAfterA(s: System, act: Act)
    requires Inv(s) && BothTold(s) && !Requested(s) && !Agreed(s)
    ensures BothTold(Next(s, OnA(act)))
  {
    ToldBack(HalfA(s), act);
    if !s.a.faulted {
      ToldForward(HalfA(s), act);
    }
  }

  lemma ToldAfterB(s: System, act: Act)
    requires Inv(s) && BothTold(s) && !Requested(s) && !Agreed(s)
    ensures BothTold(Next(s, OnB(act)))
  {
    ToldBack(HalfB(s), act);
    ActDecays(HalfB(s), act);
    if Joined(s) && !s.b.faulted {
      ToldForward(HalfB(s), act);
    } else if Acknowledging(s) && Open(s.a) {
      if act.HandleNext? {
        ConnectedFrame(Mapped(s.b, s.inB[0].size), PeerOf(s.b.link.remoteHwnd, s.a), First(act.answers));
      } else {
        WaitingAct(HalfB(s), act);
      }
    }
  }

  lemma {:induction false} ToldRun(s: System, actions: seq<Action>)
    requires Inv(s) && BothTold(s)
    ensures Inv(Run(s, actions)) && BothTold(Run(s, actions))
    decreases |actions|
  {
    if actions != [] {
      NextOk(s, actions[0]);
      match actions[0] {
        case ListenerAccepts(hwnd, size) =>
        case OnA(act) => if Requested(s) || Agreed(s) { ToldBefore(s, act); } else { ToldAfterA(s, act); }
        case OnB(act) => if Requested(s) || Agreed(s) { ToldBefore(s, act); } else { ToldAfterB(s, act); }
      }
      ToldRun(Next(s, actions[0]), actions[1..]);
    }
  }

  /** In every run: whoever has left, and has not come down, has told the other side, which is then either not open any
    * more, or has the notice still to handle. */
  lemma PeerIsTold(hwnd: nat, size: nat, actions: seq<Action>)
    requires hwnd != 0
    ensures var s := Reached(hwnd, size, actions);
            && (!Open(s.a) && !s.a.faulted && Open(s.b) && s.b.link.hwnd != 0 ==> ConnectionDisconnect in s.inB)
            && (!Open(s.b) && !s.b.faulted && Open(s.a) && s.a.link.hwnd != 0 ==> ConnectionDisconnect in s.inA)
  {
    StartOk(hwnd, size);
    ToldRun(Start(hwnd, size), actions);
  }

  predicate HandledByB(actions: seq<Action>) {
    forall action | action in actions :: action.OnB? && action.act.HandleNext?
  }

  predicate HandledByA(actions: seq<Action>) {
    forall action | action in actions :: action.OnA? && action.act.HandleNext?
  }

  lemma {:induction false} ListenerCloses(s: System, actions: seq<Action>)
    requires Inv(s) && BothTold(s) && !Open(s.a) && !s.a.faulted && HandledByB(actions) && |actions| >= |s.inB|
    ensures !Open(Run(s, actions).b)
    decreases |actions|
  {
    if actions != [] {
      assert actions[0] in actions && HandledByB(actions[1..]);
      NextOk(s, actions[0]);
      ToldAfterB(s, actions[0].act);
      ActDecays(HalfB(s), actions[0].act);
      ListenerCloses(Next(s, actions[0]), actions[1..]);
    }
  }

  lemma {:induction false} ConnectorCloses(s: System, actions: seq<Action>)
    requires Inv(s) && BothTold(s) && !Open(s.b) && !s.b.faulted && HandledByA(actions) && |actions| >= |s.inA|
    ensures !Open(Run(s, actions).a)
    decreases |actions|
  {
    if actions != [] {
      assert actions[0] in actions && HandledByA(actions[1..]);
      NextOk(s, actions[0]);
      ToldAfterA(s, actions[0].act);
      ActDecays(HalfA(s), actions[0].act);
      ConnectorCloses(Next(s, actions[0]), actions[1..]);
    }
  }

  /** Leaving ends the connection on both sides. Whatever has happened before: once the side that stayed has handled
    * what was in its mailbox, with whatever answers, it is not open either. */
  lemma LeavingEndsBoth(hwnd: nat, size: nat, before: seq<Action>, actions: seq<Action>)
    requires hwnd != 0
    ensures var s := Reached(hwnd, size, before);
            && (!Open(s.a) && !s.a.faulted && HandledByB(actions) && |actions| >= |s.inB| ==> !Open(Run(s, actions).b))
            && (!Open(s.b) && !s.b.faulted && HandledByA(actions) && |actions| >= |s.inA| ==> !Open(Run(s, actions).a))
  {
    var s := Reached(hwnd, size, before);
    StartOk(hwnd, size);
    ToldRun(Start(hwnd, size), before);
    if !Open(s.a) && !s.a.faulted && HandledByB(actions) && |actions| >= |s.inB| {
      ListenerCloses(s, actions);
    }
    if !Open(s.b) && !s.b.faulted && HandledByA(actions) && |actions| >= |s.inA| {
      ConnectorCloses(s, actions);
    }
  }

  // ---------- events are raised until they are received ----------

  predicate Received(answers: seq<Answer>) {
    answers != [] && answers[0].received
  }

  /** A timer that fires is killed exactly if its event is received, or, for buffers, if none is left; a `disconnecting`
    * event that is received finishes the endpoint, and refused changes nothing. */
  lemma TimersAreKilledExactly(h: Half, id: TimerId, answers: seq<Answer>)
    requires Alive(h.x) && id in h.x.timers
    ensures var h' := ActOn(h, TimerFires(id, answers));
            match id
            case DisconnectingTimer =>
              if Received(answers) then
                h'.x.link.hwnd == 0 && h'.x.status == Status(false, false, false, false, true) && h'.x.timers == {}
              else h' == h
            case ConnectedTimer =>
              !h'.x.faulted ==> h'.x.timers == if Received(answers) then h.x.timers - {id} else h.x.timers
            case MessageArrivedTimer =>
              !h'.x.faulted ==> h'.x.timers == if h'.x.inc.queue == [] then h.x.timers - {id} else h.x.timers
  {
    var peer := PeerOf(h.x.link.remoteHwnd, h.y);
    match id {
      case ConnectedTimer => SendAllFrame(h.x, First(answers).sends, peer);
      case MessageArrivedTimer => DeliverKeeps(h.x, peer, answers);
      case DisconnectingTimer => assert h.inY + [] == h.inY;
    }
  }

  /** What makes an endpoint give up its window: a `disconnecting` event that is received, raised by its client's
    * `disconnect`, by its timer or by its peer's notice, and not cut short by an unmapping that fails. */
  predicate GivesUp(h: Half, act: Act) {
    var unmaps := h.x.link.remoteHwnd == 0 || h.x.link.remoteMapped;
    match act
    case HandleNext(answers) =>
      && h.inX != [] && h.inX[0] == ConnectionDisconnect && !h.x.status.isDisconnecting
      && unmaps && Received(answers)
    case TimerFires(id, answers) => id == DisconnectingTimer && id in h.x.timers && Received(answers)
    case ClientSend(_) => false
    case ClientDisconnect(received) => h.x.status.isConnected && unmaps && received
  }

  lemma WindowGoesExactly(h: Half, act: Act)
    requires Alive(h.x)
    ensures ActOn(h, act).x.link.hwnd == 0 <==> GivesUp(h, act)
  {
    var peer := PeerOf(h.x.link.remoteHwnd, h.y);
    match act {
      case HandleNext(answers) => if h.inX != [] { HandlingKeepsWindow(h, answers); }
      case TimerFires(id, answers) =>
        SendAllFrame(h.x, First(answers).sends, peer);
        DeliverKeeps(h.x, peer, answers);
      case ClientSend(b) =>
      case ClientDisconnect(received) =>
    }
  }

  lemma HandlingKeepsWindow(h: Half, answers: seq<Answer>)
    requires Alive(h.x) && h.inX != []
    ensures ActOn(h, HandleNext(answers)).x.link.hwnd == 0 <==> GivesUp(h, HandleNext(answers))
  {
    var (m, peer) := (h.inX[0], PeerOf(Target(h.x, h.inX[0]), h.y));
    if m.ConnectionAgreed? || m.AgreementAcknowledged? {
      GreetingKeepsWindow(h.x, m, peer, answers);
    } else if m == MessageInTransit {
      DeliverKeeps(h.x.(inc := h.x.inc.(queue := h.x.inc.queue + [peer.slot])), peer, answers);
    }
  }

  lemma GreetingKeepsWindow(e: Endpoint, m: WindowMessage, peer: Peer, answers: seq<Answer>)
    requires m.ConnectionAgreed? || m.AgreementAcknowledged?
    ensures ProcessMessage(e, m, peer, answers).e.link.hwnd == e.link.hwnd
  {
    var link := e.link.(remoteSize := m.size, remoteMapped := true);
    var linkToo := link.(remoteHwnd := m.hwnd, fileMapped := true);
    SendAllFrame(e.(link := link, status := NowConnected(e.status)), First(answers).sends, peer);
    SendAllFrame(e.(link := linkToo, status := NowConnected(e.status)), First(answers).sends, peer);
  }

  /** Of the buffers in `queue` the client has received the first ones, up to the first that it refused. */
  predicate TookUntilRefused(before: Incoming, queue: seq<Buffer>, answers: seq<Answer>, after: Incoming) {
    var n := |after.accepted| - |before.accepted|;
    && 0 <= n <= |queue| && after.accepted == before.accepted + queue[..n] && after.queue == queue[n..]
    && n <= |answers| && (forall i | 0 <= i < n :: answers[i].received)
    && (n < |queue| ==> n == |answers| || !answers[n].received)
  }

  lemma TookNone(inc: Incoming, answers: seq<Answer>)
    requires inc.queue == [] || !First(answers).received
    ensures TookUntilRefused(inc, inc.queue, answers, inc)
  {
    assert inc.queue[..0] == [] && inc.accepted + [] == inc.accepted;
  }

  lemma TookOneMore(before: Incoming, answers: seq<Answer>, after: Incoming)
    requires before.queue != [] && First(answers).received
    requires TookUntilRefused(Accept(before), Accept(before).queue, Rest(answers), after)
    ensures TookUntilRefused(before, before.queue, answers, after)
  {
    var (queue, rest, later) := (before.queue, before.queue[1..], answers[1..]);
    var n := |after.accepted| - |before.accepted|;
    assert |after.accepted| - |Accept(before).accepted| == n - 1;
    assert queue[..n] == [queue[0]] + rest[..n - 1];
    assert Accept(before).accepted + rest[..n - 1] == before.accepted + queue[..n];
    forall i | 0 < i < n ensures answers[i].received {
      assert later[i - 1].received;
    }
  }

  lemma {:induction false} DeliverTakes(e: Endpoint, peer: Peer, answers: seq<Answer>)
    requires e.link.fileMapped
    ensures TookUntilRefused(e.inc, e.inc.queue, answers, Deliver(e, peer, answers).e.inc)
    decreases |e.inc.queue|
  {
    var s := SendAll(e, First(answers).sends, peer);
    SendAllFrame(e, First(answers).sends, peer);
    if e.inc.queue == [] || !First(answers).received {
      TookNone(e.inc, answers);
    } else {
      DeliverTakes(s.e.(inc := Accept(e.inc)), peer, Rest(answers));
      TookOneMore(e.inc, answers, Deliver(e, peer, answers).e.inc);
    }
  }

  /** Buffers are offered in order, again and again: an endpoint that reads the slot, or whose timer for buffers fires,
    * hands over what it has from the first one on until its client refuses one, which then is the first to be offered
    * next time. */
  lemma OfferedUntilRefused(h: Half, answers: seq<Answer>)
    requires Alive(h.x) && h.x.link.fileMapped && h.x.link.remoteMapped && !h.x.status.isDisconnecting
    ensures h.inX != [] && h.inX[0] == MessageInTransit && Fits(h.y.out.slot, h.x.link.remoteSize) ==>
              TookUntilRefused(h.x.inc, h.x.inc.queue + [h.y.out.slot], answers, ActOn(h, HandleNext(answers)).x.inc)
    ensures MessageArrivedTimer in h.x.timers ==>
              TookUntilRefused(h.x.inc, h.x.inc.queue, answers,
                               ActOn(h, TimerFires(MessageArrivedTimer, answers)).x.inc)
  {
    var peer := PeerOf(h.x.link.remoteHwnd, h.y);
    DeliverTakes(h.x, peer, answers);
    DeliverTakes(h.x.(inc := h.x.inc.(queue := h.x.inc.queue + [h.y.out.slot])), peer, answers);
  }

  /** Greeted, an endpoint is connected at once, and its client is told again later exactly if it did not receive the
    * event now. */
  lemma ConnectedIsRaised(s: System, answers: seq<Answer>)
    requires Inv(s)
    ensures var x' := Next(s, OnA(HandleNext(answers))).a;
            Agreed(s) ==> x'.status.isConnected && !x'.status.isConnecting &&
                          (ConnectedTimer in x'.timers <==> !Received(answers))
    ensures var x' := Next(s, OnB(HandleNext(answers))).b;
            Acknowledging(s) && Open(s.a) ==> x'.status.isConnected && !x'.status.isConnecting &&
                                              (ConnectedTimer in x'.timers <==> !Received(answers))
  {
    if Agreed(s) {
      GreetedConnector(s, answers);
      var m := s.inA[0];
      ConnectedFrame(BothMapped(s.a, m.hwnd, m.size), PeerOf(m.hwnd, s.b), First(answers));
      SendAllFrame(BothMapped(s.a, m.hwnd, m.size), First(answers).sends, PeerOf(m.hwnd, s.b));
    } else if Acknowledging(s) && Open(s.a) {
      ConnectedFrame(Mapped(s.b, s.inB[0].size), PeerOf(s.b.link.remoteHwnd, s.a), First(answers));
      SendAllFrame(Mapped(s.b, s.inB[0].size), First(answers).sends, PeerOf(s.b.link.remoteHwnd, s.a));
    }
  }

  // ---------- what a send does ----------

  /** A send is refused exactly before connecting and after disconnecting; while the endpoint is sending or
    * connecting the buffer queues, and otherwise it is in the slot and posted, or is lost. */
  predicate SendsExactly(h: Half, b: Buffer) {
    var (x, h') := (h.x, ActOn(h, ClientSend(b)));
    if !x.status.isConnected && !x.status.isConnecting then h'.x == x && h'.inY == h.inY
    else
      && h'.x.out.sent == x.out.sent + [b]
      && (h'.x.status == x.status && h'.x.inc == x.inc && h'.x.timers == x.timers && h'.x.link == x.link)
      && if x.out.isSending || x.status.isConnecting then
           h'.x.out.queue == x.out.queue + [b] && h'.x.out.isSending == x.out.isSending && h'.inY == h.inY
         else if |b| + 4 <= x.link.fileSize && Open(x) && Alive(h.y) then
           h'.x.out == Outgoing(true, [], b, x.out.sent + [b], []) && h'.inY == h.inY + [MessageInTransit]
         else
           h'.x.out.queue == [] && h'.x.out.isSending && h'.x.out.lost == x.out.lost + [b] && h'.inY == h.inY
  }

  lemma SendsExactlyInRuns(hwnd: nat, size: nat, actions: seq<Action>, b: Buffer)
    requires hwnd != 0
    ensures var s := Reached(hwnd, size, actions);
            (!s.a.faulted ==> SendsExactly(HalfA(s), b)) && (!s.b.faulted ==> SendsExactly(HalfB(s), b))
  {
    ReachedOk(hwnd, size, actions);
    var s := Reached(hwnd, size, actions);
    if !s.a.faulted {
      SendsExactlyHere(HalfA(s), b);
    }
    if !s.b.faulted {
      SendsExactlyHere(HalfB(s), b);
    }
  }

  lemma SendsExactlyHere(h: Half, b: Buffer)
    requires Both(h) && !h.x.faulted && NoStall(h.x)
    requires h.x.status.isConnected && !h.x.status.isConnecting ==> Linked(h.x, h.y)
    ensures SendsExactly(h, b)
  {
    assert h.inY + [] == h.inY && [] + [b] == [b];
  }

  /** The buffers that the client's procedure sends while the first n answers are given. */
  function SentInEvents(answers: seq<Answer>, n: nat): seq<Buffer> {
    if answers == [] || n == 0 then [] else answers[0].sends + SentInEvents(answers[1..], n - 1)
  }

  lemma SendSends(e: Endpoint, b: Buffer, peer: Peer)
    requires (e.status.isConnected || e.status.isConnecting) && e.link.fileMapped
    ensures var s := Send(e, b, peer);
            && s.e.out.sent == e.out.sent + [b] && s.e.status == e.status && s.e.link == e.link && s.result != Faulted
  {
  }

  lemma {:induction false} SendAllSends(e: Endpoint, bs: seq<Buffer>, peer: Peer)
    requires (e.status.isConnected || e.status.isConnecting) && e.link.fileMapped
    ensures var s := SendAll(e, bs, peer); s.e.out.sent == e.out.sent + bs && s.result == Ok
    decreases |bs|
  {
    if bs == [] {
      assert e.out.sent + bs == e.out.sent;
    } else {
      SendSends(e, bs[0], peer);
      SendAllSends(Send(e, bs[0], peer).e, bs[1..], peer);
      assert (e.out.sent + [bs[0]]) + bs[1..] == e.out.sent + bs;
    }
  }

  /** How many buffers were offered to leave so many of them. */
  function Offered(before: nat, after: nat): int {
    before - after + if after == 0 then 0 else 1
  }

  lemma OfferedOneMore(sent: seq<Buffer>, answers: seq<Answer>, n: nat)
    requires n > 0
    ensures (sent + First(answers).sends) + SentInEvents(Rest(answers), n - 1) == sent + SentInEvents(answers, n)
  {
    if answers == [] {
      assert (sent + []) + [] == sent + [];
    }
  }

  lemma {:induction false} DeliverSends(e: Endpoint, peer: Peer, answers: seq<Answer>)
    requires (e.status.isConnected || e.status.isConnecting) && e.link.fileMapped
    ensures var s := Deliver(e, peer, answers);
            && |s.e.inc.queue| <= |e.inc.queue|
            && s.e.out.sent == e.out.sent + SentInEvents(answers, Offered(|e.inc.queue|, |s.e.inc.queue|))
    decreases |e.inc.queue|
  {
    if e.inc.queue == [] {
      assert e.out.sent + [] == e.out.sent;
    } else {
      var s := SendAll(e, First(answers).sends, peer);
      SendAllSends(e, First(answers).sends, peer);
      SendAllFrame(e, First(answers).sends, peer);
      if First(answers).received {
        DeliverSends(s.e.(inc := Accept(e.inc)), peer, Rest(answers));
        OfferedOneMore(e.out.sent, answers, Offered(|e.inc.queue|, |Deliver(e, peer, answers).e.inc.queue|));
      } else {
        OfferedOneMore(e.out.sent, answers, 1);
        assert s.e.out.sent + [] == s.e.out.sent;
      }
    }
  }

  /** Everything that the client sends while it is told of something is sent, in order: while `connected` is raised
    * again, and while buffers are offered up to the one it refuses. */
  lemma SendsInEventsAreSent(h: Half, id: TimerId, answers: seq<Answer>)
    requires Alive(h.x) && h.x.status.isConnected && h.x.link.fileMapped && id in h.x.timers
    ensures var x' := ActOn(h, TimerFires(id, answers)).x;
            match id
            case ConnectedTimer => x'.out.sent == h.x.out.sent + SentInEvents(answers, 1)
            case MessageArrivedTimer =>
              && |x'.inc.queue| <= |h.x.inc.queue|
              && x'.out.sent == h.x.out.sent + SentInEvents(answers, Offered(|h.x.inc.queue|, |x'.inc.queue|))
            case DisconnectingTimer => x'.out == h.x.out
  {
    var peer := PeerOf(h.x.link.remoteHwnd, h.y);
    match id {
      case ConnectedTimer =>
        SendAllSends(h.x, First(answers).sends, peer);
        assert SentInEvents(answers, 1) == First(answers).sends;
      case MessageArrivedTimer => DeliverSends(h.x, peer, answers);
      case DisconnectingTimer =>
    }
  }

  lemma SendsWhileReadingAreSent(h: Half, answers: seq<Answer>)
    requires Alive(h.x) && h.x.status.isConnected && h.x.link.fileMapped && h.x.link.remoteMapped
    requires !h.x.status.isDisconnecting && h.inX != [] && h.inX[0] == MessageInTransit
    requires Fits(h.y.out.slot, h.x.link.remoteSize)
    ensures var x' := ActOn(h, HandleNext(answers)).x;
            && |x'.inc.queue| <= |h.x.inc.queue| + 1
            && x'.out.sent == h.x.out.sent + SentInEvents(answers, Offered(|h.x.inc.queue| + 1, |x'.inc.queue|))
  {
    var peer := PeerOf(h.x.link.remoteHwnd, h.y);
    DeliverSends(h.x.(inc := h.x.inc.(queue := h.x.inc.queue + [h.y.out.slot])), peer, answers);
  }

  lemma ConnectedSends(e: Endpoint, peer: Peer, answer: Answer)
    requires e.status.isConnected && e.link.fileMapped
    ensures Connected(e, peer, answer).e.out.sent == e.out.sent + answer.sends
  {
    SendAllSends(e, answer.sends, peer);
  }

  /** ... and while it is told that it is connected, behind what was queued before. */
  lemma SendsWhileGreetedAreSent(s: System, answers: seq<Answer>)
    requires Inv(s)
    ensures Agreed(s) ==>
              Next(s, OnA(HandleNext(answers))).a.out.sent == s.a.out.sent + First(answers).sends
    ensures Acknowledging(s) && Open(s.a) ==>
              Next(s, OnB(HandleNext(answers))).b.out.sent == s.b.out.sent + First(answers).sends
  {
    if Agreed(s) {
      var m := s.inA[0];
      ConnectedSends(BothMapped(s.a, m.hwnd, m.size), PeerOf(m.hwnd, s.b), First(answers));
    } else if Acknowledging(s) {
      ConnectedSends(Mapped(s.b, s.inB[0].size), PeerOf(s.b.link.remoteHwnd, s.a), First(answers));
    }
  }

  /** A listener's endpoint greets the window that asked, or, if that is gone, is not connecting any more and says
    * so. */
  lemma GreetsOrGivesUp(hwnd: nat, remoteHwnd: nat, size: nat, peer: Peer)
    ensures var s := Greet(hwnd, remoteHwnd, size, peer);
            && s.e.link.hwnd == hwnd && s.e.link.remoteHwnd == remoteHwnd && s.e.link.fileMapped
            && (peer.window <==> s.result == Ok) && (peer.window <==> s.e.status.isConnecting)
            && s.posts == if peer.window then [ConnectionAgreed(hwnd, size)] else []
  {
  }

  /** A slot that cannot be right is not read but complained of, and to the one who gets it a complaint is as good as an
    * acknowledgement: it goes on with the next buffer. */
  lemma ComplaintsGoOn(h: Half, rest: seq<WindowMessage>, answers: seq<Answer>)
    requires Alive(h.x) && !h.x.status.isDisconnecting && h.x.link.remoteMapped
    ensures h.inX != [] && h.inX[0] == MessageInTransit && |h.y.out.slot| + 4 > h.x.link.remoteSize ==>
              ActOn(h, HandleNext(answers)) ==
              Half(h.x, h.y, h.inX[1..], h.inY + if Alive(h.y) && h.y.link.hwnd == h.x.link.remoteHwnd
                                                 then [MessageGarbled] else [])
    ensures ActOn(h.(inX := [MessageGarbled] + rest), HandleNext(answers)) ==
            ActOn(h.(inX := [MessageReceived] + rest), HandleNext(answers))
  {
    assert ([MessageGarbled] + rest)[1..] == rest == ([MessageReceived] + rest)[1..];
  }

  /** The errors of a send: before connecting, when the queue has grown beyond 1000, though the buffer is on it, and
    * for a buffer that does not fit the file with its four bytes of header. */
  lemma SendRaisesExactly(e: Endpoint, b: Buffer, peer: Peer)
    requires e.out.queue == [] || e.out.isSending || e.status.isConnecting
    ensures var s := Send(e, b, peer);
            var (refuses, waits) := (!e.status.isConnected && !e.status.isConnecting,
                                     e.out.isSending || e.status.isConnecting);
            && (s.result == NotConnected <==> refuses)
            && (s.result == QueueLong <==> !refuses && waits && |e.out.queue| >= 1000)
            && (s.result == TooBig <==> !refuses && !waits && |b| + 4 > e.link.fileSize)
            && (s.result == QueueLong ==> s.e.out.queue == e.out.queue + [b] && s.e.out.sent == e.out.sent + [b])
  {
  }

  // ---------- progress ----------

  /** No stall: a connected endpoint with something to send is sending, and an undelivered buffer has its timer set. */
  lemma NeverStalls(hwnd: nat, size: nat, actions: seq<Action>)
    requires hwnd != 0
    ensures var s := Reached(hwnd, size, actions);
            && (s.a.status.isConnected && s.a.out.queue != [] ==> s.a.out.isSending)
            && (s.b.status.isConnected && s.b.out.queue != [] ==> s.b.out.isSending)
            && (Alive(s.a) && s.a.inc.queue != [] ==> MessageArrivedTimer in s.a.timers)
            && (Alive(s.b) && s.b.inc.queue != [] ==> MessageArrivedTimer in s.b.timers)
  {
    ReachedOk(hwnd, size, actions);
  }

  /** Neither end has disconnected, or is about to; the handshake may still be on its way. */
  predicate InTouch(s: System) {
    Open(s.a) && Open(s.b)
  }

  predicate AllReceived(answers: seq<Answer>) {
    forall r | r in answers :: r == Answer([], true)
  }

  /** The endpoint has something to do, and its client receives everything and sends nothing. */
  predicate Works(h: Half, act: Act) {
    match act
    case HandleNext(answers) => h.inX != [] && |answers| > |h.x.inc.queue| && AllReceived(answers)
    case TimerFires(id, answers) => id in h.x.timers && |answers| > |h.x.inc.queue| && AllReceived(answers)
    case _ => false
  }

  predicate WorksOn(s: System, action: Action) {
    match action
    case OnA(act) => Works(HalfA(s), act)
    case OnB(act) => Works(HalfB(s), act)
    case ListenerAccepts(hwnd, size) => hwnd != 0 && s.inListener != []
  }

  function Load(x: Endpoint, inX: seq<WindowMessage>, inY: seq<WindowMessage>): nat {
    2 * |x.out.queue| + 2 * Posts(inY) + Acks(inX) + |x.timers|
  }

  /** The greetings that are still to be handled. */
  function Greetings(s: System): nat {
    if Requested(s) then 3 else if Agreed(s) then 2 else if Acknowledging(s) then 1 else 0
  }

  /** What is left to do. */
  function Work(s: System): nat {
    Load(s.a, s.inA, s.inB) + Load(s.b, s.inB, s.inA) + Greetings(s)
  }

  lemma DeliverFirst(e: Endpoint, peer: Peer, answers: seq<Answer>)
    requires e.inc.queue != [] && First(answers) == Answer([], true)
    ensures Deliver(e, peer, answers) == Deliver(e.(inc := Accept(e.inc)), peer, Rest(answers))
  {
    var s := Deliver(e.(inc := Accept(e.inc)), peer, Rest(answers));
    assert SendAll(e, [], peer) == Step(e, [], Ok);
    assert [] + s.posts == s.posts;
  }

  lemma AcceptMoves(inc: Incoming)
    requires inc.queue != []
    ensures Accept(inc).accepted + Accept(inc).queue == inc.accepted + inc.queue &&
          |Accept(inc).queue| == |inc.queue| - 1
  {
    assert inc.queue == [inc.queue[0]] + inc.queue[1..];
  }

  lemma RestReceived(answers: seq<Answer>)
    requires answers != [] && AllReceived(answers)
    ensures AllReceived(Rest(answers)) && First(answers) == Answer([], true) && |Rest(answers)| == |answers| - 1
  {
    assert answers[0] in answers;
    assert forall r | r in Rest(answers) :: r in answers;
  }

  lemma {:induction false} DeliverAll(e: Endpoint, peer: Peer, answers: seq<Answer>)
    requires |answers| >= |e.inc.queue| && AllReceived(answers)
    ensures Deliver(e, peer, answers) == Step(e.(inc := Incoming([], e.inc.accepted + e.inc.queue)), [], Ok)
    decreases |e.inc.queue|
  {
    if e.inc.queue == [] {
      assert e.inc == Incoming([], e.inc.accepted + e.inc.queue);
    } else {
      RestReceived(answers);
      AcceptMoves(e.inc);
      DeliverFirst(e, peer, answers);
      DeliverAll(e.(inc := Accept(e.inc)), peer, Rest(answers));
    }
  }

  lemma CountAppendOne(p: seq<WindowMessage>, m: WindowMessage)
    ensures Posts(p + [m]) == Posts(p) + (if m == MessageInTransit then 1 else 0)
    ensures Acks(p + [m]) == Acks(p) + (if m == MessageReceived then 1 else 0)
  {
    CountAppend(p, [m], MessageInTransit);
    CountAppend(p, [m], MessageReceived);
    assert [m][1..] == [];
  }

  predicate Lowers(h: Half, h': Half) {
    && Load(h'.x, h'.inX, h'.inY) + Load(h'.y, h'.inY, h'.inX) < Load(h.x, h.inX, h.inY) + Load(h.y, h.inY, h.inX)
    && h'.x.out.sent == h.x.out.sent
  }

  lemma HandlingLowersWork(h: Half, answers: seq<Answer>)
    requires Ready(h) && Open(h.x) && Open(h.y) && Alive(h.y) && Works(h, HandleNext(answers))
    ensures Lowers(h, ActOn(h, HandleNext(answers)))
  {
    var peer := PeerOf(h.x.link.remoteHwnd, h.y);
    var h' := ActOn(h, HandleNext(answers));
    assert h.inX[0] in h.inX;
    if h.inX[0] == MessageInTransit {
      DeliverAll(h.x.(inc := h.x.inc.(queue := h.x.inc.queue + [h.y.out.slot])), peer, answers);
      assert h'.inY == h.inY + [MessageReceived];
      CountAppendOne(h.inY, MessageReceived);
    } else {
      var posts := OnReceived(h.x, peer).posts;
      assert h'.inY == h.inY || h'.inY == h.inY + [MessageInTransit];
      CountAppendOne(h.inY, MessageInTransit);
    }
  }

  /** A timer whose event is received is killed, and nothing else changes but what was delivered. */
  lemma FiredTimerIsKilled(e: Endpoint, id: TimerId, peer: Peer, answers: seq<Answer>)
    requires |answers| > |e.inc.queue| && AllReceived(answers) && id != DisconnectingTimer
    ensures var s := OnTimer(e, id, peer, answers);
            s.posts == [] && s.result == Ok && s.e == e.(inc := s.e.inc, timers := e.timers - {id})
  {
    assert answers[0] in answers;
    DeliverAll(e, peer, answers);
  }

  /** Every step of an endpoint at work lowers the work left in both directions together. */
  lemma ActLowersWork(h: Half, act: Act)
    requires Ready(h) && Open(h.x) && Open(h.y) && Alive(h.y) && Works(h, act)
    ensures Lowers(h, ActOn(h, act))
  {
    match act {
      case HandleNext(answers) => HandlingLowersWork(h, answers);
      case TimerFires(id, answers) =>
        FiredTimerIsKilled(h.x, id, PeerOf(h.x.link.remoteHwnd, h.y), answers);
        assert ActOn(h, act).inY == h.inY;
    }
  }

  /** What a working step keeps. */
  predicate Progress(s: System, t: System) {
    && Inv(t) && InTouch(t) && Work(t) < Work(s)
    && t.a.out.sent == s.a.out.sent && t.b.out.sent == s.b.out.sent && t.a.link.fileSize == s.a.link.fileSize
  }

  lemma JoinedStays(s: System, action: Action)
    requires Inv(s) && Joined(s)
    ensures Joined(Next(s, action))
  {
    NextOk(s, action);
    if action.OnB? && !s.b.faulted {
      JoinedB(s, action.act);
    }
  }

  lemma EstablishedWorks(s: System, action: Action)
    requires Inv(s) && InTouch(s) && WorksOn(s, action)
    requires Joined(s) || (Acknowledging(s) && action.OnA?)
    ensures Progress(s, Next(s, action)) && (Acknowledging(s) ==> Acknowledging(Next(s, action)))
  {
    NextOk(s, action);
    if action.OnA? {
      ActLowersWork(HalfA(s), action.act);
      StaysOpen(HalfA(s), action.act);
      EstablishedAct(HalfA(s), action.act);
    } else {
      ActLowersWork(HalfB(s), action.act);
      StaysOpen(HalfB(s), action.act);
      EstablishedAct(HalfB(s), action.act);
    }
    if Joined(s) {
      JoinedStays(s, action);
    }
  }

  /** A greeting that the client receives without sending anything: at most one queued buffer is posted. */
  lemma GreetingKeepsLoad(e: Endpoint, peer: Peer, inX: seq<WindowMessage>, inY: seq<WindowMessage>)
    ensures var c := Connected(e, peer, Answer([], true));
            && Load(c.e, inX, inY + c.posts) <= Load(e, inX, inY)
            && c.e == e.(out := c.e.out, faulted := c.e.faulted) && c.e.out.sent == e.out.sent
            && Acks(c.posts) == 0 && (e.link.fileMapped ==> c.e.faulted == e.faulted)
  {
    var c := Connected(e, peer, Answer([], true));
    var posts := SendIfIdle(e, peer).posts;
    assert SendAll(e, [], peer) == Step(e, [], Ok);
    assert c.posts == posts && (posts == [] || posts == [MessageInTransit]);
    if posts == [] {
      assert inY + posts == inY;
    } else {
      CountAppendOne(inY, MessageInTransit);
      assert posts[1..] == [];
    }
  }

  lemma ConnectorWorks(s: System, answers: seq<Answer>)
    requires Inv(s) && Agreed(s) && Works(HalfA(s), HandleNext(answers))
    ensures Progress(s, Next(s, OnA(HandleNext(answers))))
  {
    var (t, m) := (Next(s, OnA(HandleNext(answers))), s.inA[0]);
    var ack := AgreementAcknowledged(s.a.link.hwnd, s.a.link.fileSize);
    assert answers[0] in answers;
    GreetedConnector(s, answers);
    StaysUnbroken(s, OnA(HandleNext(answers)));
    var e1 := BothMapped(s.a, m.hwnd, m.size);
    var c := Connected(e1, PeerOf(m.hwnd, s.b), Answer([], true));
    GreetingKeepsLoad(e1, PeerOf(m.hwnd, s.b), [], [ack]);
    assert ProcessMessage(s.a, m, PeerOf(m.hwnd, s.b), answers) == Then([ack], c);
    assert t.inB == [ack] + c.posts && [ack][1..] == [];
    CountAppend([ack], c.posts, MessageReceived);
  }

  lemma ListenerWorks(s: System, answers: seq<Answer>)
    requires Inv(s) && Acknowledging(s) && Open(s.a) && Works(HalfB(s), HandleNext(answers))
    ensures Progress(s, Next(s, OnB(HandleNext(answers))))
  {
    var (t, m) := (Next(s, OnB(HandleNext(answers))), s.inB[0]);
    assert answers[0] in answers;
    GreetedListener(s, answers);
    var peer := PeerOf(s.b.link.remoteHwnd, s.a);
    var e1 := Mapped(s.b, m.size);
    var c := Connected(e1, peer, Answer([], true));
    GreetingKeepsLoad(e1, peer, s.inB[1..], []);
    assert t.b == c.e && t.inB == s.inB[1..];
    assert t.inA == [] + c.posts;
    CountAppend([], c.posts, MessageReceived);
  }

  lemma AcceptingWorks(s: System, hwnd: nat, size: nat)
    requires Inv(s) && Requested(s) && hwnd != 0
    ensures Progress(s, Next(s, ListenerAccepts(hwnd, size)))
  {
    var t := Next(s, ListenerAccepts(hwnd, size));
    AcceptedByListener(s, hwnd, size);
    assert t.inA == [ConnectionAgreed(hwnd, size)] && [ConnectionAgreed(hwnd, size)][1..] == [];
  }

  /** Every working step of a pair in touch, in its handshake or after it, lowers the work that is left. */
  lemma StepLowersWork(s: System, action: Action)
    requires Inv(s) && InTouch(s) && WorksOn(s, action)
    ensures Progress(s, Next(s, action))
  {
    if Joined(s) || (Acknowledging(s) && action.OnA?) {
      EstablishedWorks(s, action);
    } else {
      match action {
        case ListenerAccepts(hwnd, size) => AcceptingWorks(s, hwnd, size);
        case OnA(act) => ConnectorWorks(s, act.answers);
        case OnB(act) => ListenerWorks(s, act.answers);
      }
    }
  }

  predicate WorkingRun(s: System, actions: seq<Action>)
    decreases |actions|
  {
    actions == [] || (WorksOn(s, actions[0]) && WorkingRun(Next(s, actions[0]), actions[1..]))
  }

  /** Nothing is left to handle and no timer is set. */
  predicate Quiet(s: System) {
    s.inA == [] && s.inB == [] && s.a.timers == {} && s.b.timers == {}
  }

  /** A run in which clients receive everything and nobody sends cannot be longer than the work there was. */
  lemma {:induction false} WorkingRunsEnd(s: System, actions: seq<Action>)
    requires Inv(s) && InTouch(s) && WorkingRun(s, actions)
    ensures var t := Run(s, actions);
            && |actions| + Work(t) <= Work(s) && Inv(t) && InTouch(t)
            && t.a.out.sent == s.a.out.sent && t.b.out.sent == s.b.out.sent
    decreases |actions|
  {
    if actions != [] {
      StepLowersWork(s, actions[0]);
      WorkingRunsEnd(Next(s, actions[0]), actions[1..]);
    }
  }

  function Yes(n: nat): (answers: seq<Answer>)
    ensures |answers| == n && AllReceived(answers)
  {
    seq(n, i => Answer([], true))
  }

  /** A pair in touch that is not joined and quiet can take another step. */
  lemma NotQuietWorks(s: System)
    requires Inv(s) && InTouch(s) && !(Joined(s) && Quiet(s))
    ensures exists action :: WorksOn(s, action)
  {
    var ya, yb := Yes(|s.a.inc.queue| + 1), Yes(|s.b.inc.queue| + 1);
    if Requested(s) {
      assert WorksOn(s, ListenerAccepts(1, 0));
    } else if s.inA != [] {
      assert WorksOn(s, OnA(HandleNext(ya)));
    } else if s.inB != [] {
      assert WorksOn(s, OnB(HandleNext(yb)));
    } else if s.a.timers != {} {
      var id :| id in s.a.timers;
      assert WorksOn(s, OnA(TimerFires(id, ya)));
    } else {
      var id :| id in s.b.timers;
      assert WorksOn(s, OnB(TimerFires(id, yb)));
    }
  }

  // ---------- what was read fits ----------

  lemma {:induction false} DeliverTaken(e: Endpoint, peer: Peer, answers: seq<Answer>)
    ensures Taken(Deliver(e, peer, answers).e) == Taken(e)
    decreases |e.inc.queue|
  {
    if e.inc.queue != [] {
      var s := SendAll(e, First(answers).sends, peer);
      SendAllFrame(e, First(answers).sends, peer);
      if s.result != Faulted && First(answers).received {
        AcceptMoves(e.inc);
        DeliverTaken(s.e.(inc := Accept(e.inc)), peer, Rest(answers));
      }
    }
  }

  /** An action reads at most the peer's slot, and only if it was posted. */
  lemma ActTaken(h: Half, act: Act)
    ensures var x' := ActOn(h, act).x;
            && x'.link.fileSize == h.x.link.fileSize
            && (Taken(x') == Taken(h.x) || (Taken(x') == Taken(h.x) + [h.y.out.slot] && Posts(h.inX) > 0))
  {
    match act {
      case HandleNext(answers) => if Alive(h.x) && h.inX != [] { HandleTaken(h, answers); }
      case TimerFires(id, answers) =>
        DeliverTaken(h.x, PeerOf(h.x.link.remoteHwnd, h.y), answers);
        SendAllFrame(h.x, First(answers).sends, PeerOf(h.x.link.remoteHwnd, h.y));
        DeliverKeeps(h.x, PeerOf(h.x.link.remoteHwnd, h.y), answers);
      case ClientSend(b) =>
      case ClientDisconnect(received) =>
    }
  }

  lemma GreetedTaken(e: Endpoint, link: Link, peer: Peer, answer: Answer)
    requires link.fileSize == e.link.fileSize
    ensures var x' := Connected(e.(link := link, status := NowConnected(e.status)), peer, answer).e;
            x'.link.fileSize == e.link.fileSize && Taken(x') == Taken(e)
  {
    SendAllFrame(e.(link := link, status := NowConnected(e.status)), answer.sends, peer);
  }

  lemma ReadTaken(e: Endpoint, peer: Peer, answers: seq<Answer>)
    ensures var x' := OnInTransit(e, peer, answers).e;
            x'.link.fileSize == e.link.fileSize && (Taken(x') == Taken(e) || Taken(x') == Taken(e) + [peer.slot])
  {
    var e1 := e.(inc := e.inc.(queue := e.inc.queue + [peer.slot]));
    assert Taken(e1) == Taken(e) + [peer.slot];
    DeliverTaken(e1, peer, answers);
    DeliverKeeps(e1, peer, answers);
  }

  lemma HandleTaken(h: Half, answers: seq<Answer>)
    requires Alive(h.x) && h.inX != []
    ensures var x' := ActOn(h, HandleNext(answers)).x;
            && x'.link.fileSize == h.x.link.fileSize
            && (Taken(x') == Taken(h.x) || (Taken(x') == Taken(h.x) + [h.y.out.slot] && Posts(h.inX) > 0))
  {
    var (m, peer) := (h.inX[0], PeerOf(Target(h.x, h.inX[0]), h.y));
    match m {
      case ConnectionAgreed(hwnd, size) =>
        GreetedTaken(h.x, h.x.link.(remoteHwnd := hwnd, remoteSize := size, remoteMapped := true, fileMapped := true),
                     peer, First(answers));
      case AgreementAcknowledged(_, size) =>
        GreetedTaken(h.x, h.x.link.(remoteSize := size, remoteMapped := true), peer, First(answers));
      case MessageInTransit => ReadTaken(h.x, peer, answers);
      case _ =>
    }
  }

  /** Whatever an endpoint has read fits the file it was read from. */
  predicate TakenFits(s: System) {
    AllFit(Taken(s.b), s.a.link.fileSize) && AllFit(Taken(s.a), s.b.link.fileSize)
  }

  lemma TakenFitsStep(s: System, action: Action)
    requires Inv(s) && TakenFits(s)
    ensures TakenFits(Next(s, action))
  {
    match action {
      case ListenerAccepts(hwnd, size) =>
      case OnA(act) => ActTaken(HalfA(s), act);
      case OnB(act) => ActTaken(HalfB(s), act);
    }
  }

  lemma {:induction false} TakenFitsRun(s: System, actions: seq<Action>)
    requires Inv(s) && TakenFits(s)
    ensures TakenFits(Run(s, actions))
    decreases |actions|
  {
    if actions != [] {
      NextOk(s, actions[0]);
      TakenFitsStep(s, actions[0]);
      TakenFitsRun(Next(s, actions[0]), actions[1..]);
    }
  }

  /** At rest, everything sent was accepted exactly if everything sent fits. */
  lemma QuietMeansAccepted(x: Endpoint, y: Endpoint)
    requires Direction(x, y, [], []) && NoStall(x) && RetryArmed(y) && Alive(y) && x.status.isConnected
    requires Open(x) && Open(y) && y.timers == {} && AllFit(Taken(y), x.link.fileSize)
    ensures y.inc.accepted == x.out.sent <==> AllFit(x.out.sent, x.link.fileSize)
  {
    DirectionDelivers(x, y, [], []);
    assert Taken(y) == y.inc.accepted;
    if AllFit(x.out.sent, x.link.fileSize) {
      assert x.out.lost == [];
    }
  }

  lemma AcceptedAtRest(t: System)
    requires Inv(t) && InTouch(t) && TakenFits(t) && Joined(t) && Quiet(t)
    ensures t.b.inc.accepted == t.a.out.sent <==> AllFit(t.a.out.sent, t.a.link.fileSize)
    ensures t.a.inc.accepted == t.b.out.sent <==> AllFit(t.b.out.sent, t.b.link.fileSize)
  {
    QuietMeansAccepted(t.a, t.b);
    QuietMeansAccepted(t.b, t.a);
  }

  lemma ReachedFits(hwnd: nat, size: nat, actions: seq<Action>)
    requires hwnd != 0
    ensures Inv(Reached(hwnd, size, actions)) && TakenFits(Reached(hwnd, size, actions))
  {
    ReachedOk(hwnd, size, actions);
    StartOk(hwnd, size);
    TakenFitsRun(Start(hwnd, size), actions);
  }

  /** The run is over: nothing is left for anyone to do. */
  ghost predicate NothingLeft(s: System) {
    forall action :: !WorksOn(s, action)
  }

  /** Everything sent is eventually accepted. From any reachable state in which nobody has left, the handshake included,
    * a run in which the clients receive everything, nobody sends, and which goes on while anything is left to do, stops
    * within the bound `Work`; then, in each direction, the client has accepted exactly what the other side had sent if
    * and only if all of that fits the sender's file. */
  lemma EverythingIsAccepted(hwnd: nat, size: nat, before: seq<Action>, actions: seq<Action>)
    requires hwnd != 0
    requires var s := Reached(hwnd, size, before);
             InTouch(s) && WorkingRun(s, actions) && NothingLeft(Run(s, actions))
    ensures var s := Reached(hwnd, size, before);
            var t := Run(s, actions);
            && |actions| <= Work(s) && t.a.out.sent == s.a.out.sent && t.b.out.sent == s.b.out.sent
            && (t.b.inc.accepted == s.a.out.sent <==> AllFit(s.a.out.sent, t.a.link.fileSize))
            && (t.a.inc.accepted == s.b.out.sent <==> AllFit(s.b.out.sent, t.b.link.fileSize))
  {
    ReachedFits(hwnd, size, before);
    var s := Reached(hwnd, size, before);
    var t := Run(s, actions);
    WorkingRunsEnd(s, actions);
    TakenFitsRun(s, actions);
    if !(Joined(t) && Quiet(t)) {
      NotQuietWorks(t);
    }
    AcceptedAtRest(t);
  }
}
