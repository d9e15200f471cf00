/** Two transports joined by their windows and mapped files, and what holds in every run of them.
  *
  * Endpoint `a` called `connectViaNamedWindow`; endpoint `b` is made by the listener that `a` found. Each
  * window is a FIFO mailbox that vanishes with the window. A run is any sequence of actions: the listener
  * takes the request, a window handles its next message or a timer, a client sends or disconnects.
  */
module MMFileProtocol {
  import opened MMFileTransport

  datatype System = System(a: Endpoint, b: Endpoint, inA: seq<WindowMessage>, inB: seq<WindowMessage>,
                           inListener: seq<WindowMessage>)

  datatype Act =
    | HandleNext(answers: seq<Answer>)
    | TimerFires(id: TimerId, answers: seq<Answer>)
    | ClientSend(buffer: Buffer)
    | ClientDisconnect(received: bool)

  datatype Action = ListenerAccepts(hwnd: nat, size: nat) | OnA(act: Act) | OnB(act: Act)

  /** The system as one endpoint sees it: `x` acts, `y` is its peer. */
  datatype Half = Half(x: Endpoint, y: Endpoint, inX: seq<WindowMessage>, inY: seq<WindowMessage>)

  predicate Alive(e: Endpoint) {
    e.link.hwnd != 0 && !e.faulted
  }

  function PeerOf(target: nat, y: Endpoint): Peer {
    Peer(Alive(y) && y.link.hwnd == target, y.link.fileMapped && !y.faulted, y.out.slot)
  }

  function After(h: Half, s: Step): Half {
    Half(s.e, h.y, if Alive(s.e) then h.inX else [], h.inY + s.posts)
  }

  function Target(x: Endpoint, m: WindowMessage): nat {
    if m.ConnectionAgreed? && !x.status.isDisconnecting then m.hwnd else x.link.remoteHwnd
  }

  function ActOn(h: Half, act: Act): Half {
    match act
    case HandleNext(answers) =>
      if !Alive(h.x) || h.inX == [] then h
      else After(h.(inX := h.inX[1..]),
                 ProcessMessage(h.x, h.inX[0], PeerOf(Target(h.x, h.inX[0]), h.y), answers))
    case TimerFires(id, answers) =>
      if !Alive(h.x) || id !in h.x.timers then h
      else After(h, OnTimer(h.x, id, PeerOf(h.x.link.remoteHwnd, h.y), answers))
    case ClientSend(b) =>
      if h.x.faulted then h else After(h, Send(h.x, b, PeerOf(h.x.link.remoteHwnd, h.y)))
    case ClientDisconnect(received) =>
      if h.x.faulted || !h.x.status.isConnected then h
      else After(h, Disconnect(h.x, PeerOf(h.x.link.remoteHwnd, h.y), received))
  }

  function HalfA(s: System): Half { Half(s.a, s.b, s.inA, s.inB) }
  function HalfB(s: System): Half { Half(s.b, s.a, s.inB, s.inA) }

  function Next(s: System, action: Action): System {
    match action
    case ListenerAccepts(hwnd, size) =>
      if s.inListener == [] || !s.inListener[0].ConnectionRequest? || hwnd == 0 then s
      else
        var remote := s.inListener[0].hwnd;
        var greeted := Greet(hwnd, remote, size, PeerOf(remote, s.a));
        s.(b := greeted.e, inA := s.inA + greeted.posts, inListener := s.inListener[1..])
    case OnA(act) =>
      var h := ActOn(HalfA(s), act);
      s.(a := h.x, inA := h.inX, inB := h.inY)
    case OnB(act) =>
      var h := ActOn(HalfB(s), act);
      s.(b := h.x, inB := h.inX, inA := h.inY)
  }

  function Start(hwnd: nat, size: nat): System {
    System(ConnectViaNamedWindow(hwnd, size), NEW_ENDPOINT, [], [], [ConnectionRequest(hwnd)])
  }

  function Run(s: System, actions: seq<Action>): System
    decreases |actions|
  {
    if actions == [] then s else Run(Next(s, actions[0]), actions[1..])
  }

  // ---------- counting messages in a mailbox ----------

  function Count(ms: seq<WindowMessage>, m: WindowMessage): nat {
    if ms == [] then 0 else (if ms[0] == m then 1 else 0) + Count(ms[1..], m)
  }

  lemma {:induction false} CountAppend(p: seq<WindowMessage>, q: seq<WindowMessage>, m: WindowMessage)
    ensures Count(p + q, m) == Count(p, m) + Count(q, m)
    decreases |p|
  {
    if p == [] {
      assert p + q == q;
    } else {
      assert (p + q)[1..] == p[1..] + q;
      CountAppend(p[1..], q, m);
    }
  }

  predicate IsGreeting(m: WindowMessage) {
    m.ConnectionRequest? || m.ConnectionAgreed? || m.AgreementAcknowledged?
  }

  /** Only the messages of an established connection, and none of them a complaint. */
  predicate Plain(ms: seq<WindowMessage>) {
    forall m | m in ms :: !IsGreeting(m) && m != MessageGarbled
  }

  // ---------- the invariant ----------

  /** Neither disconnecting, nor disconnected, nor down. */
  predicate Open(e: Endpoint) {
    !e.status.isDisconnecting && !e.status.closed && !e.faulted
  }

  function Posts(ms: seq<WindowMessage>): nat { Count(ms, MessageInTransit) }
  function Acks(ms: seq<WindowMessage>): nat { Count(ms, MessageReceived) }

  /** The tokens of the direction from x: a posted message, its acknowledgement, or a send that raised. */
  function Tokens(x: Endpoint, inX: seq<WindowMessage>, inY: seq<WindowMessage>): nat {
    Posts(inY) + Acks(inX) + |x.out.lost|
  }

  predicate TokensOk(x: Endpoint, y: Endpoint, inX: seq<WindowMessage>, inY: seq<WindowMessage>) {
    && Tokens(x, inX, inY) <= (if x.out.isSending then 1 else 0)
    && (Open(x) && Open(y) ==> Tokens(x, inX, inY) == (if x.out.isSending then 1 else 0))
  }

  /** The buffer in the slot, if it is posted and not yet read. */
  function InSlot(x: Endpoint, inY: seq<WindowMessage>): seq<Buffer> {
    if Posts(inY) > 0 then [x.out.slot] else []
  }

  /** What x still holds: posted, lost, queued. */
  function Outbound(x: Endpoint, inY: seq<WindowMessage>): seq<Buffer> {
    InSlot(x, inY) + x.out.lost + x.out.queue
  }

  /** What y has read, accepted by its client or not. */
  function Taken(y: Endpoint): seq<Buffer> {
    y.inc.accepted + y.inc.queue
  }

  predicate Conserved(x: Endpoint, y: Endpoint, inY: seq<WindowMessage>) {
    && (Open(y) ==> Taken(y) + Outbound(x, inY) == x.out.sent)
    && (!Open(y) ==> Taken(y) <= x.out.sent)
  }

  predicate SlotOk(x: Endpoint, y: Endpoint, inY: seq<WindowMessage>) {
    && (Posts(inY) > 0 ==> Fits(x.out.slot, x.link.fileSize))
    && (x.out.lost != [] ==> !Fits(x.out.lost[0], x.link.fileSize) || !Open(x) || !Open(y))
    && (Open(x) ==> ConnectionDisconnect !in inY)
  }

  predicate Direction(x: Endpoint, y: Endpoint, inX: seq<WindowMessage>, inY: seq<WindowMessage>) {
    TokensOk(x, y, inX, inY) && Conserved(x, y, inY) && SlotOk(x, y, inY)
  }

  predicate Both(h: Half) {
    Direction(h.x, h.y, h.inX, h.inY) && Direction(h.y, h.x, h.inY, h.inX)
  }

  /** Connected with something to send means sending. */
  predicate NoStall(e: Endpoint) {
    e.status.isConnected && e.out.queue != [] ==> e.out.isSending
  }

  /** Something undelivered means its timer is set. */
  predicate RetryArmed(e: Endpoint) {
    Alive(e) && e.inc.queue != [] ==> MessageArrivedTimer in e.timers
  }

  /** An endpoint whose own handshake is over. */
  predicate Established(x: Endpoint, y: Endpoint, inX: seq<WindowMessage>) {
    && !x.status.isConnecting
    && x.status.isConnected == !x.status.closed
    && (x.status.closed ==> !x.status.isDisconnecting)
    && (DisconnectingTimer in x.timers ==> x.status.isDisconnecting)
    && (x.link.hwnd == 0 <==> x.status.closed)
    && (Open(x) ==>
          x.link.fileMapped && x.link.remoteMapped && x.link.remoteHwnd != 0 && x.link.remoteSize == y.link.fileSize)
    && (x.status.closed || x.status.isDisconnecting ==> !x.link.fileMapped && x.link.remoteHwnd == 0)
    && (x.link.remoteHwnd != 0 && y.link.hwnd != 0 ==> x.link.remoteHwnd == y.link.hwnd)
    && (!Alive(x) ==> inX == [])
    && Plain(inX)
    && NoStall(x) && RetryArmed(x)
  }

  /** An endpoint that waits for its greeting: it queues what it is given and posts nothing. */
  predicate Waiting(x: Endpoint) {
    && Alive(x) && Open(x)
    && x.status.isConnecting && !x.status.isConnected
    && !x.link.remoteMapped
    && !x.out.isSending && x.out.lost == []
    && x.inc == Incoming([], [])
    && x.timers == {}
  }

  /** A greeted endpoint that found no file to map: its peer had disconnected already. */
  predicate Stuck(x: Endpoint, inX: seq<WindowMessage>) {
    && x.link.hwnd != 0 && x.link.remoteHwnd != 0 && !x.status.closed
    && x.status.isConnecting && !x.status.isConnected
    && !x.link.remoteMapped
    && !x.out.isSending && x.out.lost == []
    && x.inc == Incoming([], [])
    && x.timers == {}
    && Plain(inX) && (x.faulted ==> inX == [])
  }

  predicate Requested(s: System) {
    && Waiting(s.a) && s.b == NEW_ENDPOINT
    && s.inA == [] && s.inB == [] && s.inListener == [ConnectionRequest(s.a.link.hwnd)]
  }

  predicate Agreed(s: System) {
    && Waiting(s.a) && Waiting(s.b) && s.b.link.fileMapped
    && s.b.link.remoteHwnd == s.a.link.hwnd
    && s.inA == [ConnectionAgreed(s.b.link.hwnd, s.b.link.fileSize)] && s.inB == [] && s.inListener == []
  }

  predicate Acknowledging(s: System) {
    && Established(s.a, s.b, s.inA) && Waiting(s.b) && s.b.link.fileMapped
    && s.b.link.remoteHwnd != 0
    && (s.a.link.hwnd != 0 ==> s.b.link.remoteHwnd == s.a.link.hwnd)
    && s.inA == [] && s.inListener == []
    && s.inB != [] && s.inB[0].AgreementAcknowledged? && s.inB[0].size == s.a.link.fileSize && Plain(s.inB[1..])
  }

  predicate Joined(s: System) {
    Established(s.a, s.b, s.inA) && Established(s.b, s.a, s.inB) && s.inListener == []
  }

  predicate Broken(s: System) {
    && Established(s.a, s.b, s.inA) && !Open(s.a)
    && Stuck(s.b, s.inB)
    && s.inA == [] && s.inListener == []
  }

  predicate Inv(s: System) {
    && Both(HalfA(s))
    && (Requested(s) || Agreed(s) || Acknowledging(s) || Joined(s) || Broken(s))
  }

  // ---------- sends keep the invariant ----------

  /** What a send relies on: an open sender knows its peer's window, and a peer without one is not open. */
  predicate Linked(x: Endpoint, y: Endpoint) {
    && (Open(x) ==> x.link.fileMapped && x.link.remoteHwnd != 0)
    && (x.link.remoteHwnd != 0 && y.link.hwnd != 0 ==> x.link.remoteHwnd == y.link.hwnd)
    && (x.status.closed || x.status.isDisconnecting ==> !x.link.fileMapped)
    && (y.link.hwnd == 0 ==> !Open(y))
  }

  /** Whatever x sends, the direction towards x only sees that x may have gone down. */
  lemma SendReverse(x: Endpoint, x': Endpoint, y: Endpoint, inX: seq<WindowMessage>, inY: seq<WindowMessage>,
                    posts: seq<WindowMessage>)
    requires Direction(y, x, inY, inX)
    requires x'.inc == x.inc && x'.status == x.status && (x.faulted ==> x'.faulted)
    requires Acks(posts) == 0
    ensures Direction(y, x', inY + posts, inX)
  {
    CountAppend(inY, posts, MessageReceived);
  }

  /** The head of the queue becomes the content of the slot, or is lost: nothing else moves. */
  lemma PrivateSendOutbound(x: Endpoint, peer: Peer, inY: seq<WindowMessage>)
    requires x.out.queue != [] && Posts(inY) == 0 && x.out.lost == []
    ensures var s := PrivateSend(x, peer);
            && Outbound(s.e, inY + s.posts) == Outbound(x, inY)
            && Posts(inY + s.posts) + |s.e.out.lost| == 1
            && (s.posts == [] || (s.posts == [MessageInTransit] && Fits(s.e.out.slot, x.link.fileSize)))
  {
    var s := PrivateSend(x, peer);
    var (b, rest) := (x.out.queue[0], x.out.queue[1..]);
    CountAppend(inY, s.posts, MessageInTransit);
    assert Outbound(x, inY) == [b] + rest;
    if s.posts == [] {
      assert s.e.out.lost == [b] && InSlot(s.e, inY + s.posts) == [];
    } else {
      assert Posts([MessageInTransit]) == 1 && s.e.out.lost == [] && InSlot(s.e, inY + s.posts) == [b];
    }
  }

  /** Handing over the head of the queue when no token is out. */
  lemma PrivateSendOk(h: Half)
    requires h.x.out.queue != [] && !h.x.faulted && Linked(h.x, h.y)
    requires Posts(h.inY) == 0 && Acks(h.inX) == 0 && h.x.out.lost == []
    requires Conserved(h.x, h.y, h.inY) && Direction(h.y, h.x, h.inY, h.inX)
    requires Open(h.x) ==> ConnectionDisconnect !in h.inY
    ensures var s := PrivateSend(h.x, PeerOf(h.x.link.remoteHwnd, h.y));
            Both(Half(s.e, h.y, h.inX, h.inY + s.posts)) && Plain(s.posts) && (!Alive(h.y) ==> s.posts == [])
  {
    var s := PrivateSend(h.x, PeerOf(h.x.link.remoteHwnd, h.y));
    PrivateSendOutbound(h.x, PeerOf(h.x.link.remoteHwnd, h.y), h.inY);
    assert Acks(s.posts) == 0;
    SendReverse(h.x, s.e, h.y, h.inX, h.inY, s.posts);
  }

  /** What the steps of one handler have done so far: `s` followed the state `h`. */
  predicate StepOk(h: Half, s: Step) {
    && Both(Half(s.e, h.y, h.inX, h.inY + s.posts))
    && Plain(s.posts) && (!Alive(h.y) ==> s.posts == [])
    && (s.result == Faulted ==> s.e.faulted)
  }

  function Followed(h: Half, s: Step): Half {
    Half(s.e, h.y, h.inX, h.inY + s.posts)
  }

  lemma ThenOk(h: Half, s: Step, t: Step)
    requires Plain(s.posts) && (!Alive(h.y) ==> s.posts == []) && StepOk(Followed(h, s), t)
    ensures StepOk(h, Then(s.posts, t))
  {
    assert h.inY + (s.posts + t.posts) == (h.inY + s.posts) + t.posts;
  }

  lemma NothingPosted(h: Half, s: Step)
    requires s.posts == [] && Both(h.(x := s.e)) && (s.result == Faulted ==> s.e.faulted)
    ensures StepOk(h, s)
  {
    assert h.inY + s.posts == h.inY;
  }

  lemma QueuedOutbound(x: Endpoint, b: Buffer, inY: seq<WindowMessage>)
    ensures Outbound(x.(out := Queued(x.out, b)), inY) == Outbound(x, inY) + [b]
  {
  }

  lemma ConservedQueued(x: Endpoint, y: Endpoint, b: Buffer, inY: seq<WindowMessage>)
    requires Conserved(x, y, inY)
    ensures Conserved(x.(out := Queued(x.out, b)), y, inY)
  {
    QueuedOutbound(x, b, inY);
    if Open(y) {
      assert Taken(y) + (Outbound(x, inY) + [b]) == (Taken(y) + Outbound(x, inY)) + [b];
    }
  }

  lemma SendOk(h: Half, b: Buffer)
    requires Both(h) && !h.x.faulted
    requires h.x.status.isConnecting || Linked(h.x, h.y)
    ensures StepOk(h, Send(h.x, b, PeerOf(h.x.link.remoteHwnd, h.y)))
  {
    var peer := PeerOf(h.x.link.remoteHwnd, h.y);
    var s := Send(h.x, b, peer);
    if h.x.status.isConnected || h.x.status.isConnecting {
      var x1 := h.x.(out := Queued(h.x.out, b));
      ConservedQueued(h.x, h.y, b, h.inY);
      assert Direction(h.y, x1, h.inY, h.inX);
      if h.x.out.isSending || h.x.status.isConnecting {
        assert Direction(x1, h.y, h.inX, h.inY);
        NothingPosted(h, s);
      } else {
        PrivateSendOk(h.(x := x1));
      }
    } else {
      NothingPosted(h, s);
    }
  }

  lemma {:induction false} SendAllOk(h: Half, bs: seq<Buffer>)
    requires Both(h) && !h.x.faulted && Linked(h.x, h.y)
    ensures StepOk(h, SendAll(h.x, bs, PeerOf(h.x.link.remoteHwnd, h.y)))
    decreases |bs|
  {
    var peer := PeerOf(h.x.link.remoteHwnd, h.y);
    if bs == [] {
      NothingPosted(h, SendAll(h.x, bs, peer));
    } else {
      var s := Send(h.x, bs[0], peer);
      SendOk(h, bs[0]);
      if s.result != Faulted {
        SendAllOk(Followed(h, s), bs[1..]);
        ThenOk(h, s, SendAll(s.e, bs[1..], peer));
      }
    }
  }

  lemma AcceptOk(h: Half)
    requires Both(h) && h.x.inc.queue != []
    ensures Both(h.(x := h.x.(inc := Accept(h.x.inc))))
  {
    var x1 := h.x.(inc := Accept(h.x.inc));
    assert h.x.inc.queue == [h.x.inc.queue[0]] + h.x.inc.queue[1..];
    assert Taken(x1) == Taken(h.x);
  }

  lemma {:induction false} DeliverOk(h: Half, answers: seq<Answer>)
    requires Both(h) && !h.x.faulted && Linked(h.x, h.y)
    ensures StepOk(h, Deliver(h.x, PeerOf(h.x.link.remoteHwnd, h.y), answers))
    decreases |h.x.inc.queue|
  {
    var peer := PeerOf(h.x.link.remoteHwnd, h.y);
    if h.x.inc.queue == [] {
      NothingPosted(h, Deliver(h.x, peer, answers));
    } else {
      var s := SendAll(h.x, First(answers).sends, peer);
      SendAllOk(h, First(answers).sends);
      SendAllFrame(h.x, First(answers).sends, peer);
      if s.result != Faulted && First(answers).received {
        AcceptOk(Followed(h, s));
        var s1 := s.(e := s.e.(inc := Accept(h.x.inc)));
        DeliverOk(Followed(h, s1), Rest(answers));
        ThenOk(h, s1, Deliver(s1.e, peer, Rest(answers)));
      }
    }
  }

  lemma {:induction false} SendAllNoStall(e: Endpoint, bs: seq<Buffer>, peer: Peer)
    requires !e.status.isConnecting
    ensures var s := SendAll(e, bs, peer);
            (NoStall(e) || s.result == Faulted ==> NoStall(s.e)) && (e.out.isSending ==> s.e.out.isSending)
    decreases |bs|
  {
    if bs != [] {
      var s := Send(e, bs[0], peer);
      if s.result != Faulted {
        SendAllNoStall(s.e, bs[1..], peer);
      }
    }
  }

  /** Flags, timers and mappings may change as long as the endpoint does not open up. */
  lemma ClosingOk(h: Half, x': Endpoint)
    requires Both(h) && x'.out == h.x.out && x'.inc == h.x.inc
    requires x'.link.fileSize == h.x.link.fileSize || h.x == NEW_ENDPOINT
    requires Open(x') ==> Open(h.x)
    ensures Both(h.(x := x'))
  {
  }

  lemma SendIfIdleOk(h: Half)
    requires Both(h) && !h.x.faulted && Linked(h.x, h.y)
    ensures var s := SendIfIdle(h.x, PeerOf(h.x.link.remoteHwnd, h.y));
            StepOk(h, s) && NoStall(s.e)
  {
    if !h.x.out.isSending && h.x.out.queue != [] {
      PrivateSendOk(h);
    } else {
      NothingPosted(h, SendIfIdle(h.x, PeerOf(h.x.link.remoteHwnd, h.y)));
    }
  }

  lemma ConnectedOk(h: Half, answer: Answer)
    requires Both(h) && !h.x.faulted && Linked(h.x, h.y) && !h.x.status.isConnecting
    ensures var s := Connected(h.x, PeerOf(h.x.link.remoteHwnd, h.y), answer);
            StepOk(h, s) && NoStall(s.e)
  {
    var peer := PeerOf(h.x.link.remoteHwnd, h.y);
    var s := SendAll(h.x, answer.sends, peer);
    SendAllOk(h, answer.sends);
    SendAllNoStall(h.x, answer.sends, peer);
    SendAllFrame(h.x, answer.sends, peer);
    if s.result != Faulted {
      var e1 := if answer.received then s.e else s.e.(timers := h.x.timers + {ConnectedTimer});
      ClosingOk(Followed(h, s), e1);
      SendIfIdleOk(Followed(h, s).(x := e1));
      ThenOk(h, s.(e := e1), SendIfIdle(e1, peer));
    }
  }

  // ---------- one action of an established endpoint ----------

  /** What an established endpoint's action leaves alone or only lets decay. */
  predicate Kept(x: Endpoint, x': Endpoint) {
    && x'.link.fileSize == x.link.fileSize
    && (x'.link.hwnd == x.link.hwnd || x'.link.hwnd == 0)
    && (Open(x') ==> Open(x))
    && (x'.link.fileMapped ==> x.link.fileMapped)
  }

  predicate EstablishedOk(h: Half, h': Half) {
    && Both(h') && Established(h'.x, h'.y, h'.inX)
    && h'.y == h.y && Kept(h.x, h'.x)
    && h.inY <= h'.inY && Plain(h'.inY[|h.inY|..]) && (!Alive(h.y) ==> h'.inY == h.inY)
  }

  lemma PlainConcat(p: seq<WindowMessage>, q: seq<WindowMessage>)
    requires Plain(p) && Plain(q)
    ensures Plain(p + q)
  {
  }

  /** A mailbox that vanishes takes no token from an open endpoint. */
  lemma VanishOk(h: Half)
    requires Both(h) && !Open(h.x)
    ensures Both(h.(inX := []))
  {
  }

  /** A message that carries no token disturbs neither direction. */
  lemma QuietPostsOk(h: Half, peer: Peer, m: WindowMessage)
    requires Both(h) && m != MessageInTransit && m != MessageReceived && (m == ConnectionDisconnect ==> !Open(h.x))
    ensures Both(h.(inY := h.inY + Posted(peer, m)))
  {
    var posts := Posted(peer, m);
    assert posts == [] || (posts[0] == m && posts[1..] == []);
    CountAppend(h.inY, posts, MessageInTransit);
    CountAppend(h.inY, posts, MessageReceived);
  }

  lemma {:induction false} DeliverFrame(e: Endpoint, peer: Peer, answers: seq<Answer>)
    requires !e.status.isConnecting && NoStall(e)
    ensures var s := Deliver(e, peer, answers);
            && s.e.link == e.link && s.e.status == e.status && s.e.timers == e.timers
            && s.e.faulted == (e.faulted || s.result == Faulted) &&
                  (s.result == Ok || (s.result == Faulted && !e.link.fileMapped))
            && NoStall(s.e)
    decreases |e.inc.queue|
  {
    if e.inc.queue != [] {
      var s := SendAll(e, First(answers).sends, peer);
      SendAllFrame(e, First(answers).sends, peer);
      SendAllNoStall(e, First(answers).sends, peer);
      if s.result != Faulted && First(answers).received {
        DeliverFrame(s.e.(inc := Accept(e.inc)), peer, Rest(answers));
      }
    }
  }

  /** The state an established endpoint acts in. */
  predicate Ready(h: Half) {
    && Both(h) && Established(h.x, h.y, h.inX)
    && (h.y.link.hwnd == 0 ==> !Open(h.y))
    && !h.x.faulted
  }

  /** Wraps up a handler: `h1` is the state it started from once its message was taken out. */
  lemma HandlerOk(h: Half, h1: Half, s: Step)
    requires Ready(h) && h1.y == h.y && h1.inY == h.inY && StepOk(h1, s)
    requires Plain(h1.inX)
    requires Kept(h.x, s.e)
    requires Established(s.e, h.y, if Alive(s.e) then h1.inX else [])
    ensures EstablishedOk(h, After(h1, s))
  {
    if !Alive(s.e) {
      VanishOk(Followed(h1, s));
    }
    assert (h.inY + s.posts)[|h.inY|..] == s.posts;
  }

  lemma EstablishedSend(h: Half, b: Buffer)
    requires Ready(h)
    ensures EstablishedOk(h, ActOn(h, ClientSend(b)))
  {
    var peer := PeerOf(h.x.link.remoteHwnd, h.y);
    SendOk(h, b);
    HandlerOk(h, h, Send(h.x, b, peer));
  }

  lemma EstablishedDisconnect(h: Half, h1: Half, received: bool)
    requires Ready(h) && Ready(h1) && h1 == h.(inX := h1.inX) && h.x.status.isConnected
    ensures EstablishedOk(h, After(h1, Disconnect(h.x, PeerOf(h.x.link.remoteHwnd, h.y), received)))
  {
    var s := Disconnect(h.x, PeerOf(h.x.link.remoteHwnd, h.y), received);
    ClosingOk(h1, s.e);
    if h.x.link.remoteHwnd != 0 && s.result == Ok {
      QuietPostsOk(h1.(x := s.e), PeerOf(h.x.link.remoteHwnd, h.y), ConnectionDisconnect);
    } else {
      NothingPosted(h1, s);
    }
    HandlerOk(h, h1, s);
  }

  lemma RetryTimerOk(h: Half, answers: seq<Answer>)
    requires Ready(h) && Alive(h.x)
    ensures var s := OnTimer(h.x, MessageArrivedTimer, PeerOf(h.x.link.remoteHwnd, h.y), answers);
            StepOk(h, s) && NoStall(s.e) && RetryArmed(s.e) && s.e.link == h.x.link && s.e.status == h.x.status
            && s.e.timers <= h.x.timers && (s.e.faulted ==> !h.x.link.fileMapped)
  {
    var peer := PeerOf(h.x.link.remoteHwnd, h.y);
    var d := Deliver(h.x, peer, answers);
    DeliverOk(h, answers);
    DeliverFrame(h.x, peer, answers);
    if d.result != Faulted {
      ClosingOk(Followed(h, d), OnTimer(h.x, MessageArrivedTimer, peer, answers).e);
    }
  }

  lemma ConnectedTimerOk(h: Half, answers: seq<Answer>)
    requires Ready(h) && Alive(h.x)
    ensures var s := OnTimer(h.x, ConnectedTimer, PeerOf(h.x.link.remoteHwnd, h.y), answers);
            StepOk(h, s) && NoStall(s.e) && RetryArmed(s.e) && s.e.link == h.x.link && s.e.status == h.x.status
            && s.e.timers <= h.x.timers && (s.e.faulted ==> !h.x.link.fileMapped)
  {
    var peer := PeerOf(h.x.link.remoteHwnd, h.y);
    var d := SendAll(h.x, First(answers).sends, peer);
    SendAllOk(h, First(answers).sends);
    SendAllFrame(h.x, First(answers).sends, peer);
    SendAllNoStall(h.x, First(answers).sends, peer);
    if d.result != Faulted {
      ClosingOk(Followed(h, d), OnTimer(h.x, ConnectedTimer, peer, answers).e);
    }
  }

  lemma EstablishedTimer(h: Half, id: TimerId, answers: seq<Answer>)
    requires Ready(h) && id in h.x.timers && Alive(h.x)
    ensures EstablishedOk(h, ActOn(h, TimerFires(id, answers)))
  {
    var s := OnTimer(h.x, id, PeerOf(h.x.link.remoteHwnd, h.y), answers);
    match id {
      case MessageArrivedTimer => RetryTimerOk(h, answers);
      case ConnectedTimer => ConnectedTimerOk(h, answers);
      case DisconnectingTimer =>
        ClosingOk(h, s.e);
        NothingPosted(h, s);
    }
    HandlerOk(h, h, s);
  }

  /** Taking the next message out of x's mailbox without acting on it. */
  lemma IgnoreOk(h: Half)
    requires Both(h) && h.inX != [] && (!Open(h.x) || (h.inX[0] != MessageInTransit && h.inX[0] != MessageReceived))
    ensures Both(h.(inX := h.inX[1..]))
  {
  }

  /** What reading the slot does to the mailboxes. */
  lemma ReadCounts(h: Half, posts: seq<WindowMessage>)
    requires h.inX != [] && h.inX[0] == MessageInTransit && (posts == [] || posts == [MessageReceived])
    ensures Posts(h.inX[1..]) == Posts(h.inX) - 1 && Acks(h.inX[1..]) == Acks(h.inX)
    ensures Posts(h.inY + posts) == Posts(h.inY) && Acks(h.inY + posts) == Acks(h.inY) + |posts|
  {
    CountAppend(h.inY, posts, MessageInTransit);
    CountAppend(h.inY, posts, MessageReceived);
    assert posts != [] ==> posts[1..] == [];
  }

  /** The buffer moves from the slot to the end of what was taken. */
  lemma ReadConserves(h: Half)
    requires Posts(h.inX) == 1 && Posts(h.inX[1..]) == 0 && h.inX != []
    ensures var x1 := h.x.(inc := h.x.inc.(queue := h.x.inc.queue + [h.y.out.slot]));
            Taken(x1) + Outbound(h.y, h.inX[1..]) == Taken(h.x) + Outbound(h.y, h.inX)
  {
    var x1 := h.x.(inc := h.x.inc.(queue := h.x.inc.queue + [h.y.out.slot]));
    assert Taken(x1) == Taken(h.x) + [h.y.out.slot];
    assert Outbound(h.y, h.inX) == [h.y.out.slot] + Outbound(h.y, h.inX[1..]);
  }

  /** Reading the slot: the buffer moves into x's queue and the token turns into an acknowledgement. */
  lemma ReadOk(h: Half)
    requires Both(h) && Open(h.x) && Linked(h.x, h.y)
    requires h.inX != [] && h.inX[0] == MessageInTransit
    ensures var x1 := h.x.(inc := h.x.inc.(queue := h.x.inc.queue + [h.y.out.slot]));
            var posts := Posted(PeerOf(h.x.link.remoteHwnd, h.y), MessageReceived);
            Both(Half(x1, h.y, h.inX[1..], h.inY + posts)) && Plain(posts)
  {
    ReadCounts(h, Posted(PeerOf(h.x.link.remoteHwnd, h.y), MessageReceived));
    ReadConserves(h);
  }

  lemma DeliverAndArmOk(h: Half, answers: seq<Answer>)
    requires Both(h) && !h.x.faulted && Linked(h.x, h.y) && !h.x.status.isConnecting && NoStall(h.x)
    ensures var s := DeliverAndArm(h.x, PeerOf(h.x.link.remoteHwnd, h.y), answers);
            && StepOk(h, s) && NoStall(s.e) && RetryArmed(s.e)
            && s.e.link == h.x.link && s.e.status == h.x.status && s.e.timers <= h.x.timers + {MessageArrivedTimer}
  {
    var peer := PeerOf(h.x.link.remoteHwnd, h.y);
    var d := Deliver(h.x, peer, answers);
    DeliverOk(h, answers);
    DeliverFrame(h.x, peer, answers);
    if d.result != Faulted {
      ClosingOk(Followed(h, d), DeliverAndArm(h.x, peer, answers).e);
    }
  }

  lemma EstablishedRead(h: Half, answers: seq<Answer>)
    requires Ready(h) && Open(h.x) && h.inX != [] && h.inX[0] == MessageInTransit
    ensures EstablishedOk(h, ActOn(h, HandleNext(answers)))
  {
    var peer := PeerOf(h.x.link.remoteHwnd, h.y);
    ReadOk(h);
    var read := Step(h.x.(inc := h.x.inc.(queue := h.x.inc.queue + [h.y.out.slot])), Posted(peer, MessageReceived), Ok);
    var h1 := h.(inX := h.inX[1..]);
    DeliverAndArmOk(Followed(h1, read), answers);
    ThenOk(h1, read, DeliverAndArm(read.e, peer, answers));
    HandlerOk(h, h1, OnInTransit(h.x, peer, answers));
  }

  lemma EstablishedAck(h: Half, answers: seq<Answer>)
    requires Ready(h) && Open(h.x) && h.inX != [] && h.inX[0] == MessageReceived
    ensures EstablishedOk(h, ActOn(h, HandleNext(answers)))
  {
    var peer := PeerOf(h.x.link.remoteHwnd, h.y);
    var s := OnReceived(h.x, peer);
    var idle := h.x.(out := h.x.out.(isSending := false));
    var h1 := h.(inX := h.inX[1..]);
    assert Outbound(idle, h.inY) == Outbound(h.x, h.inY);
    if h.x.out.queue == [] {
      NothingPosted(h1, s);
    } else {
      PrivateSendOk(h1.(x := idle));
    }
    HandlerOk(h, h1, s);
  }

  lemma EstablishedHandle(h: Half, answers: seq<Answer>)
    requires Ready(h)
    ensures EstablishedOk(h, ActOn(h, HandleNext(answers)))
  {
    if Alive(h.x) && h.inX != [] {
      var m := h.inX[0];
      var h1 := h.(inX := h.inX[1..]);
      assert m in h.inX && Plain(h1.inX);
      if h.x.status.isDisconnecting {
        IgnoreOk(h);
        NothingPosted(h1, Step(h.x, [], Ok));
        HandlerOk(h, h1, Step(h.x, [], Ok));
      } else if m == MessageInTransit {
        EstablishedRead(h, answers);
      } else if m == MessageReceived {
        EstablishedAck(h, answers);
      } else {
        IgnoreOk(h);
        EstablishedDisconnect(h, h1, First(answers).received);
      }
    }
  }

  lemma EstablishedAct(h: Half, act: Act)
    requires Ready(h)
    ensures EstablishedOk(h, ActOn(h, act))
  {
    match act {
      case HandleNext(answers) => EstablishedHandle(h, answers);
      case TimerFires(id, answers) =>
        if Alive(h.x) && id in h.x.timers {
          EstablishedTimer(h, id, answers);
        }
      case ClientSend(b) => EstablishedSend(h, b);
      case ClientDisconnect(received) =>
        if h.x.status.isConnected {
          EstablishedDisconnect(h, h, received);
        }
    }
  }

  // ---------- the handshake ----------

  /** Before its greeting an endpoint only queues. */
  lemma WaitingSend(h: Half, b: Buffer)
    requires Both(h) && Waiting(h.x)
    ensures var h' := ActOn(h, ClientSend(b));
            && Both(h') && Waiting(h'.x) && h' == h.(x := h'.x) && h'.x.link == h.x.link
  {
    SendOk(h, b);
    assert h.inY + [] == h.inY;
  }

  lemma StuckSend(h: Half, b: Buffer)
    requires Both(h) && Stuck(h.x, h.inX) && !h.x.faulted
    ensures var h' := ActOn(h, ClientSend(b));
            && Both(h') && Stuck(h'.x, h'.inX) && h' == h.(x := h'.x) && h'.x.link == h.x.link
  {
    SendOk(h, b);
    assert h.inY + [] == h.inY;
  }

  lemma AcceptedByListener(s: System, hwnd: nat, size: nat)
    requires Inv(s)
    ensures Inv(Next(s, ListenerAccepts(hwnd, size)))
  {
    var s' := Next(s, ListenerAccepts(hwnd, size));
    if s' != s {
      assert Requested(s);
      var posts := Posted(PeerOf(s.a.link.hwnd, s.a), ConnectionAgreed(hwnd, size));
      ClosingOk(HalfB(s), s'.b);
      QuietPostsOk(HalfB(s).(x := s'.b), PeerOf(s.a.link.hwnd, s.a), ConnectionAgreed(hwnd, size));
      assert s'.inA == [ConnectionAgreed(hwnd, size)];
    }
  }

  /** The connector once it has mapped the listener's file and made its own. */
  function BothMapped(x: Endpoint, hwnd: nat, size: nat): Endpoint {
    x.(link := x.link.(remoteHwnd := hwnd, remoteSize := size, remoteMapped := true, fileMapped := true),
       status := NowConnected(x.status))
  }

  /** Raising `connected` behind the acknowledgement, in a state in which nothing has been posted yet. */
  lemma BothMappedOk(h: Half, answer: Answer)
    requires Both(h) && Waiting(h.x) && Waiting(h.y) && h.inX == [] && h.inY == []
    ensures var e1 := BothMapped(h.x, h.y.link.hwnd, h.y.link.fileSize);
            var ack := AgreementAcknowledged(h.x.link.hwnd, h.x.link.fileSize);
            var s := Connected(e1, PeerOf(h.y.link.hwnd, h.y), answer);
            && StepOk(h.(inY := [ack]), s) && NoStall(s.e) && s.e.inc == h.x.inc && !s.e.faulted
            && s.e.link == e1.link && s.e.status == e1.status && s.e.timers <= {ConnectedTimer}
  {
    var e1 := BothMapped(h.x, h.y.link.hwnd, h.y.link.fileSize);
    var ack := AgreementAcknowledged(h.x.link.hwnd, h.x.link.fileSize);
    var peer := PeerOf(h.y.link.hwnd, h.y);
    ClosingOk(h, e1);
    QuietPostsOk(h.(x := e1), peer, ack);
    assert h.inY + Posted(peer, ack) == [ack];
    ConnectedOk(h.(x := e1, inY := [ack]), answer);
    ConnectedFrame(e1, peer, answer);
  }

  lemma AgreedIs(s: System, answers: seq<Answer>)
    requires Agreed(s)
    requires Alive(Connected(BothMapped(s.a, s.b.link.hwnd, s.b.link.fileSize), PeerOf(s.b.link.hwnd, s.b),
          First(answers)).e)
    ensures var c := Connected(BothMapped(s.a, s.b.link.hwnd, s.b.link.fileSize), PeerOf(s.b.link.hwnd, s.b),
          First(answers));
            Next(s, OnA(HandleNext(answers)))
            == s.(a := c.e, inA := [], inB := [AgreementAcknowledged(s.a.link.hwnd, s.a.link.fileSize)] + c.posts)
  {
    var c := Connected(BothMapped(s.a, s.b.link.hwnd, s.b.link.fileSize), PeerOf(s.b.link.hwnd, s.b), First(answers));
    var ack := AgreementAcknowledged(s.a.link.hwnd, s.a.link.fileSize);
    assert [] + ([ack] + c.posts) == [ack] + c.posts;
  }

  /** The connector's greeting: the file is there, because the listener's endpoint made it before it agreed. */
  lemma GreetedConnector(s: System, answers: seq<Answer>)
    requires Inv(s) && Agreed(s)
    ensures Inv(Next(s, OnA(HandleNext(answers)))) && Acknowledging(Next(s, OnA(HandleNext(answers))))
  {
    var h := HalfA(s);
    var ack := AgreementAcknowledged(s.a.link.hwnd, s.a.link.fileSize);
    IgnoreOk(h);
    BothMappedOk(h.(inX := []), First(answers));
    AgreedIs(s, answers);
    var c := Connected(BothMapped(s.a, s.b.link.hwnd, s.b.link.fileSize), PeerOf(s.b.link.hwnd, s.b), First(answers));
    assert ([ack] + c.posts)[1..] == c.posts;
  }

  /** `connected` changes no flag and no mapping. */
  lemma ConnectedFrame(e: Endpoint, peer: Peer, answer: Answer)
    requires !e.faulted
    ensures var s := Connected(e, peer, answer);
            && s.e.link == e.link && s.e.status == e.status && s.e.inc == e.inc
            && s.e.timers <= e.timers + {ConnectedTimer} && (s.e.faulted ==> !e.link.fileMapped)
  {
    SendAllFrame(e, answer.sends, peer);
  }

  /** A waiting endpoint that has mapped the file of its open peer. */
  function Mapped(x: Endpoint, size: nat): Endpoint {
    x.(link := x.link.(remoteSize := size, remoteMapped := true), status := NowConnected(x.status))
  }

  lemma MappedOk(h: Half, size: nat, answer: Answer)
    requires Both(h) && Waiting(h.x) && h.x.link.fileMapped && Open(h.y)
    requires h.x.link.remoteHwnd != 0 && h.x.link.remoteHwnd == h.y.link.hwnd
    ensures var s := Connected(Mapped(h.x, size), PeerOf(h.x.link.remoteHwnd, h.y), answer);
            && StepOk(h, s) && NoStall(s.e) && s.e.inc == h.x.inc && !s.e.faulted
            && s.e.link == Mapped(h.x, size).link && s.e.status == NowConnected(h.x.status) &&
                  s.e.timers <= {ConnectedTimer}
  {
    var e1 := Mapped(h.x, size);
    ClosingOk(h, e1);
    ConnectedOk(h.(x := e1), answer);
    ConnectedFrame(e1, PeerOf(h.x.link.remoteHwnd, h.y), answer);
  }

  /** What handling the acknowledgement makes of the state. */
  function Greeted(s: System, answers: seq<Answer>): Step
    requires s.inB != [] && s.inB[0].AgreementAcknowledged?
  {
    Connected(Mapped(s.b, s.inB[0].size), PeerOf(s.b.link.remoteHwnd, s.a), First(answers))
  }

  lemma GreetedIs(s: System, answers: seq<Answer>)
    requires Acknowledging(s) && Open(s.a) && Alive(Greeted(s, answers).e)
    ensures var c := Greeted(s, answers);
            Next(s, OnB(HandleNext(answers))) == s.(b := c.e, inB := s.inB[1..], inA := c.posts)
  {
    assert [] + Greeted(s, answers).posts == Greeted(s, answers).posts;
  }

  lemma GreetedJoins(s: System, c: Step)
    requires Acknowledging(s) && Open(s.a) && StepOk(HalfB(s).(inX := s.inB[1..]), c)
    requires NoStall(c.e) && c.e.inc == s.b.inc && !c.e.faulted && c.e.link == Mapped(s.b, s.inB[0].size).link
    requires c.e.status == NowConnected(s.b.status) && c.e.timers <= {ConnectedTimer}
    ensures var s' := s.(b := c.e, inB := s.inB[1..], inA := c.posts); Inv(s') && Joined(s')
  {
    assert [] + c.posts == c.posts;
  }

  /** The acknowledgement finds the connector's file. */
  lemma GreetedInTime(s: System, answers: seq<Answer>)
    requires Inv(s) && Acknowledging(s) && Open(s.a)
    ensures var s' := Next(s, OnB(HandleNext(answers))); Inv(s') && Joined(s')
  {
    IgnoreOk(HalfB(s));
    MappedOk(HalfB(s).(inX := s.inB[1..]), s.inB[0].size, First(answers));
    GreetedIs(s, answers);
    GreetedJoins(s, Greeted(s, answers));
  }

  /** The acknowledgement finds nothing to map. */
  lemma GreetedTooLate(s: System, answers: seq<Answer>)
    requires Inv(s) && Acknowledging(s) && !Open(s.a)
    ensures var s' := Next(s, OnB(HandleNext(answers))); Inv(s') && Broken(s')
  {
    var h0 := HalfB(s).(inX := s.inB[1..]);
    var t := Step(s.b.(link := s.b.link.(remoteSize := s.inB[0].size)), [], MapFailed);
    IgnoreOk(HalfB(s));
    ClosingOk(h0, t.e);
    NothingPosted(h0, t);
  }

  /** The listener's side: its peer's file is there unless the peer has stopped already. */
  lemma GreetedListener(s: System, answers: seq<Answer>)
    requires Inv(s) && Acknowledging(s)
    ensures var s' := Next(s, OnB(HandleNext(answers)));
            Inv(s') && (if Open(s.a) then Joined(s') else Broken(s'))
  {
    if Open(s.a) {
      GreetedInTime(s, answers);
    } else {
      GreetedTooLate(s, answers);
    }
  }

  lemma WaitingAct(h: Half, act: Act)
    requires Both(h) && Waiting(h.x) && !(act.HandleNext? && h.inX != [])
    ensures var h' := ActOn(h, act);
            && Both(h') && Waiting(h'.x) && h' == h.(x := h'.x) && h'.x.link == h.x.link
  {
    if act.ClientSend? {
      WaitingSend(h, act.buffer);
    }
  }

  lemma StuckAct(h: Half, act: Act)
    requires Both(h) && Stuck(h.x, h.inX) && !Open(h.y)
    ensures var h' := ActOn(h, act);
            && Both(h') && Stuck(h'.x, h'.inX) && h'.y == h.y && h'.inY == h.inY
  {
    var h' := ActOn(h, act);
    if h' != h {
      if act.ClientSend? {
        StuckSend(h, act.buffer);
      } else {
        assert h.inX[0] in h.inX;
        assert h'.inY == h.inY;
        ClosingOk(h, h'.x);
        if Alive(h'.x) {
          IgnoreOk(h.(x := h'.x));
        } else {
          VanishOk(h.(x := h'.x));
        }
      }
    }
  }

  lemma StartOk(hwnd: nat, size: nat)
    requires hwnd != 0
    ensures Inv(Start(hwnd, size)) && Requested(Start(hwnd, size))
  {
  }

  lemma TailGrows(inB: seq<WindowMessage>, inB': seq<WindowMessage>)
    requires inB != [] && Plain(inB[1..]) && inB <= inB' && Plain(inB'[|inB|..])
    ensures inB' != [] && inB'[0] == inB[0] && Plain(inB'[1..])
  {
    assert inB'[1..] == inB[1..] + inB'[|inB|..];
    PlainConcat(inB[1..], inB'[|inB|..]);
  }

  lemma AcknowledgingA(s: System, act: Act)
    requires Inv(s) && Acknowledging(s) && !s.a.faulted
    ensures Inv(Next(s, OnA(act)))
  {
    EstablishedAct(HalfA(s), act);
    TailGrows(s.inB, Next(s, OnA(act)).inB);
  }

  /** What an established endpoint sees of its peer's action. */
  lemma StillEstablished(y: Endpoint, x: Endpoint, x': Endpoint, inY: seq<WindowMessage>, inY': seq<WindowMessage>)
    requires Established(y, x, inY) && Kept(x, x') && inY <= inY' && Plain(inY'[|inY|..]) && (!Alive(y) ==> inY' == inY)
    ensures Established(y, x', inY')
  {
    assert inY' == inY + inY'[|inY|..];
    PlainConcat(inY, inY'[|inY|..]);
  }

  lemma JoinedB(s: System, act: Act)
    requires Inv(s) && Joined(s) && !s.b.faulted
    ensures var s' := Next(s, OnB(act)); Inv(s') && Joined(s')
  {
    var h' := ActOn(HalfB(s), act);
    EstablishedAct(HalfB(s), act);
    StillEstablished(s.a, s.b, h'.x, s.inA, h'.inY);
  }

  lemma NextOkA(s: System, act: Act)
    requires Inv(s)
    ensures Inv(Next(s, OnA(act)))
  {
    var h := HalfA(s);
    var s' := Next(s, OnA(act));
    if Requested(s) || Agreed(s) {
      if act.HandleNext? && s.inA != [] {
        GreetedConnector(s, act.answers);
      } else {
        WaitingAct(h, act);
      }
    } else if !s.a.faulted {
      if Acknowledging(s) {
        AcknowledgingA(s, act);
      } else {
        EstablishedAct(h, act);
        if Joined(s) {
          StillEstablished(s.b, s.a, s'.a, s.inB, s'.inB);
        } else {
          assert s'.inB == s.inB + s'.inB[|s.inB|..];
          PlainConcat(s.inB, s'.inB[|s.inB|..]);
        }
      }
    }
  }

  lemma NextOkB(s: System, act: Act)
    requires Inv(s)
    ensures Inv(Next(s, OnB(act)))
  {
    var h := HalfB(s);
    var s' := Next(s, OnB(act));
    if Acknowledging(s) && act.HandleNext? {
      GreetedListener(s, act.answers);
    } else if Agreed(s) || Acknowledging(s) {
      WaitingAct(h, act);
    } else if Joined(s) && !s.b.faulted {
      JoinedB(s, act);
    } else if Broken(s) {
      StuckAct(h, act);
    }
  }

  lemma NextOk(s: System, action: Action)
    requires Inv(s)
    ensures Inv(Next(s, action))
  {
    match action {
      case ListenerAccepts(hwnd, size) => AcceptedByListener(s, hwnd, size);
      case OnA(act) => NextOkA(s, act);
      case OnB(act) => NextOkB(s, act);
    }
  }

  lemma {:induction false} RunOk(s: System, actions: seq<Action>)
    requires Inv(s)
    ensures Inv(Run(s, actions))
    decreases |actions|
  {
    if actions != [] {
      NextOk(s, actions[0]);
      RunOk(Next(s, actions[0]), actions[1..]);
    }
  }
}
