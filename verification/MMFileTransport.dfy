/** One endpoint of the shared-memory transport (vb6/VLMessaging/VLMMMFileTransport.cls).
  *
  * The first half of the module gives every operation as a function on `Endpoint`, a value that holds
  * all the fields of the class; the protocol theorems in `MMFileProtocol` are about these functions.
  * The second half is the class itself, whose methods update the fields in place and are proved to
  * compute exactly those functions.
  *
  * A handler runs to completion. What it finds outside the endpoint while it runs (whether the window it
  * posts to exists, and what the peer's mapped file holds) is passed in as a `Peer`; what the client's
  * event procedures answer is passed in as `Answer`s.
  */
module MMFileTransport {

  newtype byte = x: int | 0 <= x < 256
  type Buffer = seq<byte>

  const MMFILE_HEADER_SIZE: nat := 4
  const QUEUE_LIMIT: nat := 1000

  /** The registered window messages; only the parameters that a handler looks at are kept. */
  datatype WindowMessage =
    | ConnectionRequest(hwnd: nat)
    | ConnectionAgreed(hwnd: nat, size: nat)
    | AgreementAcknowledged(hwnd: nat, size: nat)
    | ConnectionDisconnect
    | MessageInTransit
    | MessageReceived
    | MessageGarbled

  datatype TimerId = MessageArrivedTimer | ConnectedTimer | DisconnectingTimer

  /** How an operation ends: the errors it raises, and the one way it can bring its process down. */
  datatype Outcome =
    | Ok
    | NotConnected       // send: "Not connected"
    | QueueLong          // send: "1000 messages in queue", raised after the buffer was queued
    | TooBig             // privateSendMessage: "MMFile not big enough for message"
    | PostFailed         // the window posted to no longer exists
    | MapFailed          // the peer's file is not there to be opened
    | UnmapFailed        // the peer's file was never mapped
    | Faulted            // a copy to or from base address 0

  /** The client's answer to one event: the buffers its procedure sends, then whether it received the event. */
  datatype Answer = Answer(sends: seq<Buffer>, received: bool)

  const REFUSAL := Answer([], false)

  /** The world outside the endpoint while one handler runs. */
  datatype Peer = Peer(window: bool, file: bool, slot: Buffer)

  /** The fields of the class, in four groups, and the timers that are set on its window. `faulted` records that
    * the process came down. */
  datatype Endpoint = Endpoint(link: Link, status: Status, out: Outgoing, inc: Incoming, timers: set<TimerId>,
      faulted: bool)

  /** The two windows and the two mapped files. */
  datatype Link = Link(hwnd: nat, remoteHwnd: nat, fileSize: nat, fileMapped: bool, remoteMapped: bool, remoteSize: nat)

  /** The connection flags; `closed` records that `finishDisconnecting` has run. */
  datatype Status = Status(isDisconnecting: bool, isConnecting: bool, isConnected: bool, isWaiting: bool, closed: bool)

  /** The sending half. `slot` is the content of the endpoint's own file, `sent` records every buffer that `send`
    * queued, `lost` every buffer taken off the queue by a `privateSendMessage` that then raised. */
  datatype Outgoing = Outgoing(isSending: bool, queue: seq<Buffer>, slot: Buffer, sent: seq<Buffer>, lost: seq<Buffer>)

  /** The receiving half; `accepted` records every buffer that the client received. */
  datatype Incoming = Incoming(queue: seq<Buffer>, accepted: seq<Buffer>)

  const NEW_ENDPOINT := Endpoint(Link(0, 0, 0, false, false, 0), Status(false, false, false, false, false),
                                 Outgoing(false, [], [], [], []), Incoming([], []), {}, false)

  /** What an operation leaves behind: the new fields, the messages that reached the peer's window, its outcome. */
  datatype Step = Step(e: Endpoint, posts: seq<WindowMessage>, result: Outcome)

  function Then(posts: seq<WindowMessage>, s: Step): Step {
    Step(s.e, posts + s.posts, s.result)
  }

  lemma ThenThen(p: seq<WindowMessage>, q: seq<WindowMessage>, s: Step)
    ensures Then(p, Then(q, s)) == Then(p + q, s)
  {
    assert p + (q + s.posts) == (p + q) + s.posts;
  }

  function Posted(peer: Peer, m: WindowMessage): seq<WindowMessage> {
    if peer.window then [m] else []
  }

  // ---------- sending ----------

  predicate Fits(b: Buffer, size: nat) {
    |b| + MMFILE_HEADER_SIZE <= size
  }

  function PrivateSend(e: Endpoint, peer: Peer): Step
    requires e.out.queue != []
  {
    var b := e.out.queue[0];
    var out := e.out.(isSending := true, queue := e.out.queue[1..]);
    var outLost := out.(lost := e.out.lost + [b]);
    if !Fits(b, e.link.fileSize) then
      Step(e.(out := outLost), [], TooBig)
    else if !e.link.fileMapped then
      Step(e.(out := outLost, faulted := true), [], Faulted)
    else if !peer.window then
      Step(e.(out := outLost.(slot := b)), [], PostFailed)
    else
      Step(e.(out := out.(slot := b)), [MessageInTransit], Ok)
  }

  function Queued(out: Outgoing, b: Buffer): Outgoing {
    out.(queue := out.queue + [b], sent := out.sent + [b])
  }

  function Send(e: Endpoint, b: Buffer, peer: Peer): Step {
    if !e.status.isConnected && !e.status.isConnecting then
      Step(e, [], NotConnected)
    else
      var e1 := e.(out := Queued(e.out, b));
      if e.out.isSending || e.status.isConnecting then
        Step(e1, [], if |e1.out.queue| > QUEUE_LIMIT then QueueLong else Ok)
      else
        PrivateSend(e1, peer)
  }

  /** The sends of one event procedure; the procedure handles the errors they raise. */
  function SendAll(e: Endpoint, bs: seq<Buffer>, peer: Peer): Step
    decreases |bs|
  {
    if bs == [] then Step(e, [], Ok)
    else
      var s := Send(e, bs[0], peer);
      if s.result == Faulted then s else Then(s.posts, SendAll(s.e, bs[1..], peer))
  }

  // ---------- events ----------

  function First(answers: seq<Answer>): Answer {
    if answers == [] then REFUSAL else answers[0]
  }

  function Rest(answers: seq<Answer>): seq<Answer> {
    if answers == [] then [] else answers[1..]
  }

  function Accept(inc: Incoming): Incoming
    requires inc.queue != []
  {
    inc.(queue := inc.queue[1..], accepted := inc.accepted + [inc.queue[0]])
  }

  /** Offers the queued buffers in order until the queue is empty or one is refused. */
  function Deliver(e: Endpoint, peer: Peer, answers: seq<Answer>): Step
    decreases |e.inc.queue|
  {
    if e.inc.queue == [] then Step(e, [], Ok)
    else
      var s := SendAll(e, First(answers).sends, peer);
      if s.result == Faulted || !First(answers).received then s
      else Then(s.posts, Deliver(s.e.(inc := Accept(e.inc)), peer, Rest(answers)))
  }

  function SendIfIdle(e: Endpoint, peer: Peer): Step {
    if !e.out.isSending && e.out.queue != [] then PrivateSend(e, peer) else Step(e, [], Ok)
  }

  /** Raising `connected`, then sending what was queued while connecting. */
  function Connected(e: Endpoint, peer: Peer, answer: Answer): Step {
    var s := SendAll(e, answer.sends, peer);
    if s.result == Faulted then s
    else
      Then(s.posts, SendIfIdle(if answer.received then s.e else s.e.(timers := e.timers + {ConnectedTimer}), peer))
  }

  // ---------- connecting and disconnecting ----------

  const CONNECTING := Status(false, true, false, true, false)

  function ConnectViaNamedWindow(hwnd: nat, size: nat): Endpoint {
    NEW_ENDPOINT.(link := Link(hwnd, 0, size, false, false, 0), status := CONNECTING)
  }

  function InitializeUsingRemoteHwnd(hwnd: nat, remoteHwnd: nat, size: nat): Endpoint {
    NEW_ENDPOINT.(link := Link(hwnd, remoteHwnd, size, true, false, 0), status := CONNECTING)
  }

  /** ... and its greeting. If the requester's window is gone the error handler takes `isConnecting` back and raises. */
  function Greet(hwnd: nat, remoteHwnd: nat, size: nat, peer: Peer): Step {
    var e := InitializeUsingRemoteHwnd(hwnd, remoteHwnd, size);
    if peer.window then Step(e, [ConnectionAgreed(hwnd, size)], Ok)
    else Step(e.(status := e.status.(isConnecting := false)), [], PostFailed)
  }

  /** The window's timers go with it. */
  function FinishDisconnecting(e: Endpoint): Endpoint {
    e.(link := e.link.(hwnd := 0), status := Status(false, false, false, false, true), timers := {})
  }

  function Disconnect(e: Endpoint, peer: Peer, received: bool): Step {
    var e1 := e.(status := e.status.(isDisconnecting := true));
    if e.link.remoteHwnd != 0 && e.link.hwnd != 0 && !e.link.remoteMapped then
      Step(e1, [], UnmapFailed)
    else
      var link := if e.link.remoteHwnd != 0 && e.link.hwnd != 0 then e.link.(remoteMapped := false, fileMapped := false)
                  else e.link;
      var e2 := e1.(link := link.(remoteHwnd := 0));
      Step(if received then FinishDisconnecting(e2) else e2.(timers := e2.timers + {DisconnectingTimer}),
           if e.link.remoteHwnd != 0 then Posted(peer, ConnectionDisconnect) else [],
           Ok)
  }

  // ---------- the window procedure ----------

  function OnTimer(e: Endpoint, id: TimerId, peer: Peer, answers: seq<Answer>): Step {
    match id
    case MessageArrivedTimer =>
      var s := Deliver(e, peer, answers);
      if s.result == Faulted then s
      else Step(if s.e.inc.queue == [] then s.e.(timers := s.e.timers - {MessageArrivedTimer}) else s.e, s.posts, Ok)
    case ConnectedTimer =>
      var s := SendAll(e, First(answers).sends, peer);
      if s.result == Faulted then s
      else Step(if First(answers).received then s.e.(timers := s.e.timers - {ConnectedTimer}) else s.e, s.posts, Ok)
    case DisconnectingTimer =>
      if First(answers).received then Step(FinishDisconnecting(e), [], Ok)
      else Step(e, [], Ok)
  }

  /** The flags once the peer's file is mapped. */
  function NowConnected(status: Status): Status {
    status.(isWaiting := false, isConnected := true, isConnecting := false)
  }

  function OnAgreed(e: Endpoint, hwnd: nat, size: nat, peer: Peer, answer: Answer): Step {
    var link := e.link.(remoteHwnd := hwnd, remoteSize := size);
    if !peer.file then Step(e.(link := link), [], MapFailed)
    else
      var e1 := e.(link := link.(remoteMapped := true, fileMapped := true), status := NowConnected(e.status));
      Then(Posted(peer, AgreementAcknowledged(e.link.hwnd, e.link.fileSize)), Connected(e1, peer, answer))
  }

  function OnAcknowledged(e: Endpoint, size: nat, peer: Peer, answer: Answer): Step {
    var link := e.link.(remoteSize := size);
    if !peer.file then Step(e.(link := link), [], MapFailed)
    else Connected(e.(link := link.(remoteMapped := true), status := NowConnected(e.status)), peer, answer)
  }

  /** Offering what was read, then arming the timer for what was refused. */
  function DeliverAndArm(e: Endpoint, peer: Peer, answers: seq<Answer>): Step {
    var d := Deliver(e, peer, answers);
    if d.result == Faulted then d
    else Step(if d.e.inc.queue != [] then d.e.(timers := d.e.timers + {MessageArrivedTimer}) else d.e, d.posts, Ok)
  }

  function OnInTransit(e: Endpoint, peer: Peer, answers: seq<Answer>): Step {
    if !e.link.remoteMapped then Step(e.(faulted := true), [], Faulted)
    else if !Fits(peer.slot, e.link.remoteSize) then Step(e, Posted(peer, MessageGarbled), Ok)
    else
      Then(Posted(peer, MessageReceived),
           DeliverAndArm(e.(inc := e.inc.(queue := e.inc.queue + [peer.slot])), peer, answers))
  }

  /** An acknowledgement, or the peer's report that it could not read the slot: send the next buffer. */
  function OnReceived(e: Endpoint, peer: Peer): Step {
    var e1 := e.(out := e.out.(isSending := false));
    if e1.out.queue != [] then PrivateSend(e1, peer) else Step(e1, [], Ok)
  }

  function ProcessMessage(e: Endpoint, m: WindowMessage, peer: Peer, answers: seq<Answer>): Step {
    if e.status.isDisconnecting then Step(e, [], Ok)
    else
      match m
      case ConnectionRequest(_) => Step(e, [], Ok)      // only dispatched to listeners
      case ConnectionAgreed(hwnd, size) => OnAgreed(e, hwnd, size, peer, First(answers))
      case AgreementAcknowledged(_, size) => OnAcknowledged(e, size, peer, First(answers))
      case ConnectionDisconnect => Disconnect(e, peer, First(answers).received)
      case MessageInTransit => OnInTransit(e, peer, answers)
      case MessageReceived => OnReceived(e, peer)
      case MessageGarbled => OnReceived(e, peer)
  }

  /** A send touches only the sending half, and faults only through an unmapped file. */
  lemma {:induction false} SendAllFrame(e: Endpoint, bs: seq<Buffer>, peer: Peer)
    ensures var s := SendAll(e, bs, peer);
            && s.e.link == e.link && s.e.status == e.status && s.e.inc == e.inc && s.e.timers == e.timers
            && s.e.faulted == (e.faulted || s.result == Faulted)
            && (s.result == Ok || (s.result == Faulted && !e.link.fileMapped))
    decreases |bs|
  {
    if bs != [] {
      var s := Send(e, bs[0], peer);
      if s.result != Faulted {
        SendAllFrame(s.e, bs[1..], peer);
      }
    }
  }

  // ---------- the class ----------

  class FileTransport {
    var hwnd: nat
    var remoteHwnd: nat
    var fileSize: nat
    var fileMapped: bool
    var slot: Buffer
    var remoteMapped: bool
    var remoteSize: nat
    var isSending: bool
    var sendQueue: seq<Buffer>
    var isDisconnecting: bool
    var isConnecting: bool
    var isConnected: bool
    var isWaiting: bool
    var inTransit: seq<Buffer>
    var timers: set<TimerId>
    ghost var sent: seq<Buffer>
    ghost var accepted: seq<Buffer>
    ghost var lost: seq<Buffer>
    ghost var closed: bool
    ghost var faulted: bool

    ghost function View(): Endpoint
      reads this
    {
      Endpoint(Link(hwnd, remoteHwnd, fileSize, fileMapped, remoteMapped, remoteSize),
               Status(isDisconnecting, isConnecting, isConnected, isWaiting, closed),
               Outgoing(isSending, sendQueue, slot, sent, lost),
               Incoming(inTransit, accepted),
               timers,
               faulted)
    }

    constructor ()
      ensures View() == NEW_ENDPOINT
    {
      hwnd, remoteHwnd, fileSize, fileMapped, slot, remoteMapped, remoteSize := 0, 0, 0, false, [], false, 0;
      isSending, sendQueue, isDisconnecting, isConnecting, isConnected, isWaiting := false, [], false, false, false,
          false;
      inTransit, timers := [], {};
      sent, accepted, lost, closed, faulted := [], [], [], false, false;
    }

    method InitUsingRemoteHwnd(newHwnd: nat, peerHwnd: nat, size: nat, peer: Peer)
      returns (posts: seq<WindowMessage>, result: Outcome)
      requires View() == NEW_ENDPOINT
      modifies this
      ensures Step(View(), posts, result) == Greet(newHwnd, peerHwnd, size, peer)
    {
      PrepareGreeting(newHwnd, peerHwnd, size);
      if !peer.window {
        isConnecting := false;
        return [], PostFailed;
      }
      posts, result := [ConnectionAgreed(newHwnd, size)], Ok;
    }

    /** Making the window and the file. */
    method PrepareGreeting(newHwnd: nat, peerHwnd: nat, size: nat)
      requires View() == NEW_ENDPOINT
      modifies `isConnecting, `remoteHwnd, `fileSize, `hwnd, `fileMapped, `isWaiting
      ensures View() == InitializeUsingRemoteHwnd(newHwnd, peerHwnd, size)
    {
      isConnecting := true;
      remoteHwnd := peerHwnd;
      fileSize := size;
      hwnd := newHwnd;
      fileMapped := true;
      isWaiting := true;
    }

    method ConnectTo(newHwnd: nat, size: nat)
      requires View() == NEW_ENDPOINT
      modifies this
      ensures View() == ConnectViaNamedWindow(newHwnd, size)
    {
      isConnecting := true;
      fileSize := size;
      hwnd := newHwnd;
      isWaiting := true;
    }

    /** The next buffer leaves the queue before anything can go wrong. */
    method TakeNext() returns (b: Buffer)
      requires sendQueue != []
      modifies `isSending, `sendQueue
      ensures b == old(sendQueue)[0] && sendQueue == old(sendQueue)[1..] && isSending
    {
      isSending := true;
      b := sendQueue[0];
      sendQueue := sendQueue[1..];
    }

    method PrivateSendMessage(peer: Peer) returns (posts: seq<WindowMessage>, result: Outcome)
      requires sendQueue != []
      modifies this
      ensures Step(View(), posts, result) == PrivateSend(old(View()), peer)
    {
      var b := TakeNext();
      posts := [];
      if |b| + MMFILE_HEADER_SIZE > fileSize {
        result := TooBig;
      } else if !fileMapped {
        faulted := true;
        result := Faulted;
      } else {
        slot := b;
        if peer.window {
          return [MessageInTransit], Ok;
        }
        result := PostFailed;
      }
      lost := lost + [b];
    }

    method SendBuffer(b: Buffer, peer: Peer) returns (posts: seq<WindowMessage>, result: Outcome)
      modifies this
      ensures Step(View(), posts, result) == Send(old(View()), b, peer)
    {
      posts, result := [], Ok;
      if !isConnected && !isConnecting {
        return [], NotConnected;
      }
      sendQueue := sendQueue + [b];
      sent := sent + [b];
      if isSending || isConnecting {
        if |sendQueue| > QUEUE_LIMIT {
          result := QueueLong;
        }
        return;
      }
      posts, result := PrivateSendMessage(peer);
    }

    /** Runs the client's procedure for one event. */
    method RaiseEvent(answer: Answer, peer: Peer) returns (posts: seq<WindowMessage>, result: Outcome)
      modifies this
      ensures Step(View(), posts, result) == SendAll(old(View()), answer.sends, peer)
    {
      posts, result := [], Ok;
      var todo := answer.sends;
      ghost var whole := SendAll(View(), todo, peer);
      while todo != []
        invariant whole == Then(posts, SendAll(View(), todo, peer))
        invariant result == Ok
        decreases |todo|
      {
        ghost var step := Send(View(), todo[0], peer);
        ghost var next := SendAll(step.e, todo[1..], peer);
        ThenThen(posts, step.posts, next);
        var p, r := SendBuffer(todo[0], peer);
        posts := posts + p;
        if r == Faulted {
          return posts, Faulted;
        }
        todo := todo[1..];
      }
    }

    /** The do-while loop that offers `myMessageInTransitQueue(1)` to the client. */
    method DeliverQueued(peer: Peer, answers: seq<Answer>)
      returns (posts: seq<WindowMessage>, received: bool, result: Outcome)
      modifies this
      ensures Step(View(), posts, result) == Deliver(old(View()), peer, answers)
      ensures result != Faulted ==> received == (inTransit == [])
    {
      posts, received, result := [], true, Ok;
      var rest := answers;
      ghost var whole := Deliver(View(), peer, answers);
      while inTransit != [] && received
        invariant received ==> whole == Then(posts, Deliver(View(), peer, rest))
        invariant !received ==> whole == Step(View(), posts, Ok) && inTransit != []
        invariant result == Ok
        decreases |inTransit|, received
      {
        ghost var before := View();
        ghost var sends := SendAll(before, First(rest).sends, peer);
        SendAllFrame(before, First(rest).sends, peer);
        ThenThen(posts, sends.posts, Deliver(sends.e.(inc := Accept(before.inc)), peer, Rest(rest)));
        var p;
        p, received, result := DeliverFirst(First(rest), peer);
        posts := posts + p;
        if result == Faulted {
          return posts, false, Faulted;
        }
        rest := Rest(rest);
      }
    }

    /** Offering the next buffer. */
    method DeliverFirst(answer: Answer, peer: Peer) returns (posts: seq<WindowMessage>, received: bool, result: Outcome)
      requires inTransit != []
      modifies this
      ensures var s := SendAll(old(View()), answer.sends, peer);
              && posts == s.posts && result == (if s.result == Faulted then Faulted else Ok)
              && received == (result != Faulted && answer.received)
              && View() == if received then s.e.(inc := Accept(old(View()).inc)) else s.e
    {
      SendAllFrame(View(), answer.sends, peer);
      posts, result := RaiseEvent(answer, peer);
      received := result != Faulted && answer.received;
      if received {
        accepted := accepted + [inTransit[0]];
        inTransit := inTransit[1..];
      }
    }

    /** A destroyed window takes its timers with it. */
    method DestroyWindow()
      modifies this
      ensures View() == old(View()).(link := old(View()).link.(hwnd := 0), timers := {})
    {
      hwnd := 0;
      timers := {};
    }

    method Finish()
      modifies this
      ensures View() == FinishDisconnecting(old(View()))
    {
      DestroyWindow();
      isConnected := false;
      isConnecting := false;
      isWaiting := false;
      isDisconnecting := false;
      closed := true;
    }

    method UnmapFiles()
      modifies this
      ensures View() == old(View()).(link := old(View()).link.(remoteMapped := false, fileMapped := false))
    {
      remoteMapped := false;
      fileMapped := false;
    }

    method DisconnectNow(peer: Peer, received: bool) returns (posts: seq<WindowMessage>, result: Outcome)
      modifies this
      ensures Step(View(), posts, result) == Disconnect(old(View()), peer, received)
    {
      posts, result := [], Ok;
      isDisconnecting := true;
      if remoteHwnd != 0 && hwnd != 0 {
        if !remoteMapped {
          return [], UnmapFailed;
        }
        UnmapFiles();
      }
      if remoteHwnd != 0 {
        posts := Posted(peer, ConnectionDisconnect);
        remoteHwnd := 0;
      }
      if !received {
        timers := timers + {DisconnectingTimer};
      } else {
        Finish();
      }
    }

    method SendWhenIdle(peer: Peer) returns (posts: seq<WindowMessage>, result: Outcome)
      modifies this
      ensures Step(View(), posts, result) == SendIfIdle(old(View()), peer)
    {
      posts, result := [], Ok;
      if !isSending && sendQueue != [] {
        posts, result := PrivateSendMessage(peer);
      }
    }

    /** The end of both connection handlers. */
    method NowConnectedEvent(peer: Peer, answer: Answer) returns (posts: seq<WindowMessage>, result: Outcome)
      modifies this
      ensures Step(View(), posts, result) == Connected(old(View()), peer, answer)
    {
      SendAllFrame(View(), answer.sends, peer);
      posts, result := RaiseEvent(answer, peer);
      if result == Faulted {
        return;
      }
      if !answer.received {
        timers := timers + {ConnectedTimer};
      }
      var p, r := SendWhenIdle(peer);
      posts, result := posts + p, r;
    }

    method SetConnected()
      modifies this
      ensures View() == old(View()).(status := NowConnected(old(View()).status))
    {
      isWaiting := false;
      isConnected := true;
      isConnecting := false;
    }

    method Agreed(newRemote: nat, size: nat, peer: Peer, answer: Answer)
      returns (posts: seq<WindowMessage>, result: Outcome)
      modifies this
      ensures Step(View(), posts, result) == OnAgreed(old(View()), newRemote, size, peer, answer)
    {
      remoteHwnd := newRemote;
      remoteSize := size;
      if !peer.file {
        return [], MapFailed;
      }
      remoteMapped := true;
      fileMapped := true;
      SetConnected();
      posts := Posted(peer, AgreementAcknowledged(hwnd, fileSize));
      var p, r := NowConnectedEvent(peer, answer);
      posts, result := posts + p, r;
    }

    method Acknowledged(size: nat, peer: Peer, answer: Answer) returns (posts: seq<WindowMessage>, result: Outcome)
      modifies this
      ensures Step(View(), posts, result) == OnAcknowledged(old(View()), size, peer, answer)
    {
      remoteSize := size;
      if !peer.file {
        return [], MapFailed;
      }
      remoteMapped := true;
      SetConnected();
      posts, result := NowConnectedEvent(peer, answer);
    }

    method ProcessTimer(id: TimerId, peer: Peer, answers: seq<Answer>)
      returns (posts: seq<WindowMessage>, result: Outcome)
      modifies this
      ensures Step(View(), posts, result) == OnTimer(old(View()), id, peer, answers)
    {
      posts, result := [], Ok;
      match id {
        case MessageArrivedTimer =>
          if inTransit != [] {
            var received;
            posts, received, result := DeliverQueued(peer, answers);
            if result == Faulted {
              return;
            }
            if received {
              timers := timers - {MessageArrivedTimer};
            }
          } else {
            timers := timers - {MessageArrivedTimer};
          }
        case ConnectedTimer =>
          SendAllFrame(View(), First(answers).sends, peer);
          posts, result := RaiseEvent(First(answers), peer);
          if result == Faulted {
            return;
          }
          if First(answers).received {
            timers := timers - {ConnectedTimer};
          }
        case DisconnectingTimer =>
          if First(answers).received {
            Finish();
          }
      }
      result := Ok;
    }

    method ReadSlot(peer: Peer, answers: seq<Answer>) returns (posts: seq<WindowMessage>, result: Outcome)
      modifies this
      ensures Step(View(), posts, result) == OnInTransit(old(View()), peer, answers)
    {
      posts, result := [], Ok;
      if !remoteMapped {
        faulted := true;
        return [], Faulted;
      }
      if |peer.slot| + MMFILE_HEADER_SIZE > remoteSize {
        posts := Posted(peer, MessageGarbled);
      } else {
        posts := Posted(peer, MessageReceived);
        inTransit := inTransit + [peer.slot];
        var p, received, r := DeliverQueued(peer, answers);
        posts := posts + p;
        if r == Faulted {
          return posts, Faulted;
        }
        if inTransit != [] {
          timers := timers + {MessageArrivedTimer};
        }
      }
    }

    method ProcessWinProc(m: WindowMessage, peer: Peer, answers: seq<Answer>)
      returns (posts: seq<WindowMessage>, result: Outcome)
      modifies this
      ensures Step(View(), posts, result) == ProcessMessage(old(View()), m, peer, answers)
    {
      posts, result := [], Ok;
      if isDisconnecting {
        return;
      }
      match m {
        case ConnectionRequest(_) =>
        case ConnectionAgreed(h, size) =>
          posts, result := Agreed(h, size, peer, First(answers));
        case AgreementAcknowledged(_, size) =>
          posts, result := Acknowledged(size, peer, First(answers));
        case ConnectionDisconnect =>
          posts, result := DisconnectNow(peer, First(answers).received);
        case MessageInTransit =>
          posts, result := ReadSlot(peer, answers);
        case MessageReceived =>
          isSending := false;
          if sendQueue != [] {
            posts, result := PrivateSendMessage(peer);
          }
        case MessageGarbled =>
          isSending := false;
          if sendQueue != [] {
            posts, result := PrivateSendMessage(peer);
          }
      }
    }
  }
}
