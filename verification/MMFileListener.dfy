/** The listener (vb6/VLMessaging/VLMMMFileListener.cls): it makes one transport per connection request and offers
  * the transports to its client in order, again and again by timer, until the client receives them.
  *
  * `Listener<T>` holds the fields as a value, for transports of any kind; the class at the end updates them in place.
  */
module MMFileListener {
  import opened MMFileTransport

  /** `received` records what the client received. */
  datatype Listener<T> = Listener(queue: seq<T>, timer: bool, received: seq<T>)

  datatype Event<T> = Requested(transport: T, answers: seq<bool>) | TimerFired(answers: seq<bool>)

  function Says(answers: seq<bool>): bool {
    answers != [] && answers[0]
  }

  function Later(answers: seq<bool>): seq<bool> {
    if answers == [] then [] else answers[1..]
  }

  /** The do-while loop over `myNewTransportQueue(1)`. */
  function Offer<T>(l: Listener<T>, answers: seq<bool>): Listener<T>
    decreases |l.queue|
  {
    if l.queue == [] || !Says(answers) then l
    else Offer(l.(queue := l.queue[1..], received := l.received + [l.queue[0]]), Later(answers))
  }

  function OnRequest<T>(l: Listener<T>, transport: T, answers: seq<bool>): Listener<T> {
    var l1 := Offer(l.(queue := l.queue + [transport]), answers);
    if l1.queue != [] then l1.(timer := true) else l1
  }

  function OnRetry<T>(l: Listener<T>, answers: seq<bool>): Listener<T> {
    var l1 := Offer(l, answers);
    if l1.queue == [] then l1.(timer := false) else l1
  }

  function Handle<T>(l: Listener<T>, event: Event<T>): Listener<T> {
    match event
    case Requested(transport, answers) => OnRequest(l, transport, answers)
    case TimerFired(answers) => OnRetry(l, answers)
  }

  function Run<T>(l: Listener<T>, events: seq<Event<T>>): Listener<T>
    decreases |events|
  {
    if events == [] then l else Run(Handle(l, events[0]), events[1..])
  }

  /** The transports made by a run, in order. */
  function Made<T>(events: seq<Event<T>>): seq<T> {
    if events == [] then []
    else (if events[0].Requested? then [events[0].transport] else []) + Made(events[1..])
  }

  lemma {:induction false} OfferKeeps<T>(l: Listener<T>, answers: seq<bool>)
    ensures var l' := Offer(l, answers);
            l'.received + l'.queue == l.received + l.queue && l'.timer == l.timer && |l'.queue| <= |l.queue|
    decreases |l.queue|
  {
    if l.queue != [] && Says(answers) {
      var l1 := l.(queue := l.queue[1..], received := l.received + [l.queue[0]]);
      assert l1.received + l1.queue == l.received + l.queue;
      OfferKeeps(l1, Later(answers));
    }
  }

  /** In every run each transport made is received at most once, in the order of the requests, the rest waits in
    * that order, and while any waits the retry timer is set. */
  lemma {:induction false} OfferedInOrder<T>(l: Listener<T>, events: seq<Event<T>>)
    requires l.queue != [] ==> l.timer
    ensures var t := Run(l, events);
            t.received + t.queue == l.received + l.queue + Made(events) && (t.queue != [] ==> t.timer)
    decreases |events|
  {
    if events == [] {
      assert l.received + l.queue + [] == l.received + l.queue;
    } else {
      var l1 := Handle(l, events[0]);
      match events[0] {
        case Requested(transport, answers) =>
          OfferKeeps(l.(queue := l.queue + [transport]), answers);
          assert l1.received + l1.queue == l.received + l.queue + [transport];
        case TimerFired(answers) =>
          OfferKeeps(l, answers);
      }
      OfferedInOrder(l1, events[1..]);
      assert l1.received + l1.queue + Made(events[1..]) == l.received + l.queue + Made(events);
    }
  }

  /** One firing of the timer to which the client says yes often enough empties the queue and kills the timer. */
  lemma {:induction false} OfferDrains<T>(l: Listener<T>, answers: seq<bool>)
    requires |answers| >= |l.queue| && forall i :: 0 <= i < |l.queue| ==> answers[i]
    ensures Offer(l, answers) == Listener([], l.timer, l.received + l.queue)
    ensures OnRetry(l, answers) == Listener([], false, l.received + l.queue)
    decreases |l.queue|
  {
    if l.queue == [] {
      assert l.received + l.queue == l.received;
    } else {
      var l1 := l.(queue := l.queue[1..], received := l.received + [l.queue[0]]);
      assert l1.received + l1.queue == l.received + l.queue;
      OfferDrains(l1, answers[1..]);
    }
  }

  /** Of the transports in `queue` the client has received the first ones, up to the first that it refused. */
  predicate TookUntilRefused<T(==)>(received: seq<T>, queue: seq<T>, answers: seq<bool>, after: Listener<T>) {
    var n := |after.received| - |received|;
    && 0 <= n <= |queue| && after.received == received + queue[..n] && after.queue == queue[n..]
    && n <= |answers| && (forall i | 0 <= i < n :: answers[i])
    && (n < |queue| ==> n == |answers| || !answers[n])
  }

  lemma TookNone<T>(received: seq<T>, queue: seq<T>, answers: seq<bool>, after: Listener<T>)
    requires after.received == received && after.queue == queue && (queue == [] || !Says(answers))
    ensures TookUntilRefused(received, queue, answers, after)
  {
    assert queue[..0] == [] && received + [] == received;
  }

  lemma TookOneMore<T>(received: seq<T>, queue: seq<T>, answers: seq<bool>, after: Listener<T>)
    requires queue != [] && Says(answers)
    requires TookUntilRefused(received + [queue[0]], queue[1..], Later(answers), after)
    ensures TookUntilRefused(received, queue, answers, after)
  {
    var (rest, later) := (queue[1..], answers[1..]);
    var n := |after.received| - |received|;
    assert |after.received| - |received + [queue[0]]| == n - 1;
    assert queue[..n] == [queue[0]] + rest[..n - 1];
    assert (received + [queue[0]]) + rest[..n - 1] == received + queue[..n];
    forall i | 0 < i < n ensures answers[i] {
      assert later[i - 1];
    }
  }

  lemma {:induction false} OfferTakes<T>(l: Listener<T>, answers: seq<bool>)
    ensures TookUntilRefused(l.received, l.queue, answers, Offer(l, answers)) && Offer(l, answers).timer == l.timer
    decreases |l.queue|
  {
    if l.queue == [] || !Says(answers) {
      TookNone(l.received, l.queue, answers, l);
    } else {
      OfferTakes(l.(queue := l.queue[1..], received := l.received + [l.queue[0]]), Later(answers));
      TookOneMore(l.received, l.queue, answers, Offer(l, answers));
    }
  }

  /** A new transport is offered at once, behind those that wait, up to the first that is refused; the timer is set
    * if any is left. */
  lemma NewTransportIsOffered<T>(l: Listener<T>, transport: T, answers: seq<bool>)
    ensures var l' := Handle(l, Requested(transport, answers));
            && TookUntilRefused(l.received, l.queue + [transport], answers, l')
            && (l'.timer <==> l.timer || l'.queue != [])
  {
    OfferTakes(l.(queue := l.queue + [transport]), answers);
  }

  /** The timer offers those that wait, up to the first that is refused, and is killed if none is left. */
  lemma TimerOffers<T>(l: Listener<T>, answers: seq<bool>)
    ensures var l' := Handle(l, TimerFired(answers));
            && TookUntilRefused(l.received, l.queue, answers, l')
            && (l'.timer <==> l.timer && l'.queue != [])
  {
    OfferTakes(l, answers);
  }

  class FileListener {
    var fileSize: nat
    var newTransportQueue: seq<FileTransport>
    var timer: bool
    ghost var received: seq<FileTransport>

    ghost function View(): Listener<FileTransport>
      reads this
    {
      Listener(newTransportQueue, timer, received)
    }

    constructor (size: nat)
      ensures View() == Listener([], false, []) && fileSize == size
    {
      fileSize, newTransportQueue, timer, received := size, [], false, [];
    }

    method OfferQueued(answers: seq<bool>) returns (said: bool)
      modifies `newTransportQueue, `received
      ensures View() == Offer(old(View()), answers)
      ensures old(newTransportQueue) != [] ==> said == (newTransportQueue == [])
    {
      said := true;
      var rest := answers;
      while newTransportQueue != [] && said
        invariant said ==> Offer(View(), rest) == Offer(old(View()), answers)
        invariant !said ==> View() == Offer(old(View()), answers) && newTransportQueue != []
        invariant timer == old(timer)
        decreases |newTransportQueue|, said
      {
        said := Says(rest);
        if said {
          received := received + [newTransportQueue[0]];
          newTransportQueue := newTransportQueue[1..];
        }
        rest := Later(rest);
      }
    }

    /** `g_connectionRequestMessageID`: a request without a window is dropped, and so is one whose window is gone by the
      * time it is greeted. */
    method ConnectionRequested(remoteHwnd: nat, newHwnd: nat, peer: Peer, answers: seq<bool>)
      returns (transport: FileTransport?, posts: seq<WindowMessage>)
      modifies this
      ensures remoteHwnd == 0 || !peer.window ==> transport == null && posts == [] && View() == old(View())
      ensures remoteHwnd != 0 && peer.window ==>
                && transport != null && fresh(transport)
                && Step(transport.View(), posts, Outcome.Ok) == Greet(newHwnd, remoteHwnd, fileSize, peer)
                && View() == OnRequest(old(View()), transport, answers)
      ensures fileSize == old(fileSize)
    {
      if remoteHwnd == 0 {
        return null, [];
      }
      var result;
      transport := new FileTransport();
      posts, result := transport.InitUsingRemoteHwnd(newHwnd, remoteHwnd, fileSize, peer);
      if result != Outcome.Ok {
        return null, [];
      }
      newTransportQueue := newTransportQueue + [transport];
      var said := OfferQueued(answers);
      if newTransportQueue != [] {
        timer := true;
      }
    }

    /** `WM_TIMER`. */
    method TimerFires(answers: seq<bool>)
      modifies this
      ensures View() == OnRetry(old(View()), answers) && fileSize == old(fileSize)
    {
      if newTransportQueue != [] {
        var said := OfferQueued(answers);
        if said {
          timer := false;
        }
      } else {
        timer := false;
      }
    }
  }
}
