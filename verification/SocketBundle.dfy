/** Sending to other routers of the machine (py/vlmessaging/_core.py: _NngSocketBundle): messages are accumulated
  * while an endpoint is being dialled and go out when the dial completes, or an incoming pipe is used as soon as
  * its other end has said who it is.
  *
  * A message is handed to a pipe in one step, and a pipe is a reliable channel.
  */
module SocketBundle {
  import opened Wrappers
  import opened Messaging

  /** TurnedAway: there is a pipe, but the message has no reply endpoint to answer to. */
  datatype Outcome = Ok | AlreadyDialing | TurnedAway

  /** `pipes` are the pipe ids of an endpoint, the first one being used; `accumulated` the messages of the endpoints
    * being dialled; `greeted` the pipes whose other end is known. `routed` and `sent` record, for an endpoint, the
    * messages that routing took on and those handed to a pipe, and `lost` those dropped when a message before them
    * could not be encoded; `log` records everything that went out, on which pipe and in which order. */
  datatype Bundle = Bundle(
    pipes: map<string, seq<nat>>,
    accumulated: map<string, seq<Msg>>,
    greeted: set<nat>,
    excess: set<string>,
    routed: map<string, seq<Msg>>,
    sent: map<string, seq<Msg>>,
    lost: map<string, seq<Msg>>,
    log: seq<Sending>)

  /** What goes out on a pipe: who we are, or a message for the endpoint. */
  datatype Sending = Hello(pipe: nat) | Carried(pipe: nat, ep: string, m: Msg)

  const NEW_BUNDLE := Bundle(map[], map[], {}, {}, map[], map[], map[], [])

  datatype Event = Routes(m: Msg, ep: string) | DialCompletes(ep: string, pipe: nat) | RouteBack(pipe: nat, ep: string)

  function Get<T>(m: map<string, seq<T>>, ep: string): seq<T> {
    if ep in m then m[ep] else []
  }

  function Extend<T>(m: map<string, seq<T>>, ep: string, xs: seq<T>): map<string, seq<T>> {
    if xs == [] then m else m[ep := Get(m, ep) + xs]
  }

  lemma ExtendExtend<T>(m: map<string, seq<T>>, ep: string, xs: seq<T>, ys: seq<T>)
    ensures Extend(Extend(m, ep, xs), ep, ys) == Extend(m, ep, xs + ys)
  {
    assert Get(m, ep) + (xs + ys) == (Get(m, ep) + xs) + ys;
    if ys == [] {
      assert xs + ys == xs;
    } else if xs == [] {
      assert xs + ys == ys;
    }
  }

  lemma GetExtend<T>(m: map<string, seq<T>>, ep: string, xs: seq<T>, to: string)
    ensures Get(Extend(m, ep, xs), to) == if to == ep then Get(m, ep) + xs else Get(m, to)
  {
    assert Get(m, ep) + [] == Get(m, ep);
  }

  /** The pipe that is used. */
  function FirstPipe(pipes: seq<nat>): nat {
    if pipes == [] then 0 else pipes[0]
  }

  function AllCarried(pipe: nat, ep: string, msgs: seq<Msg>): (log: seq<Sending>)
    ensures |log| == |msgs| && forall i | 0 <= i < |msgs| :: log[i] == Carried(pipe, ep, msgs[i])
  {
    seq(|msgs|, i requires 0 <= i < |msgs| => Carried(pipe, ep, msgs[i]))
  }

  /** _dial */
  function Dial(b: Bundle, ep: string): (Bundle, Outcome) {
    if ep in b.accumulated then (b, AlreadyDialing) else (b.(accumulated := b.accumulated[ep := []]), Ok)
  }

  /** _mRoute */
  function MRoute(b: Bundle, m: Msg, ep: string): (Bundle, Outcome) {
    if ep !in b.pipes then
      var (b1, outcome) := if ep in b.accumulated then (b, Ok) else Dial(b, ep);
      if outcome != Ok then (b1, outcome)
      else (b1.(accumulated := Extend(b1.accumulated, ep, [m]), routed := Extend(b.routed, ep, [m])), Ok)
    else if !Transmittable(m) then (b, TurnedAway)
    else (b.(sent := Extend(b.sent, ep, [m]), routed := Extend(b.routed, ep, [m]),
             log := b.log + [Carried(FirstPipe(b.pipes[ep]), ep, m)]), Ok)
  }

  /** What can be encoded: `_msgAsBytes` reads the parts of the reply address. */
  predicate Encodable(m: Msg) {
    m.replyAddr.Some?
  }

  /** The messages before the first that cannot be encoded: there the callback ends with an error. */
  function Sendable(msgs: seq<Msg>): seq<Msg> {
    if msgs == [] || !Encodable(msgs[0]) then [] else [msgs[0]] + Sendable(msgs[1..])
  }

  lemma {:induction false} SendableIs(msgs: seq<Msg>)
    ensures Sendable(msgs) <= msgs
    ensures Sendable(msgs) == msgs <==> forall m | m in msgs :: Encodable(m)
  {
    if msgs != [] {
      assert msgs == [msgs[0]] + msgs[1..];
      SendableIs(msgs[1..]);
    }
  }

  lemma MoveOne(done: seq<Msg>, rest: seq<Msg>)
    requires rest != [] && Encodable(rest[0])
    ensures (done + [rest[0]]) + Sendable(rest[1..]) == done + Sendable(rest)
    ensures (done + [rest[0]]) + rest[1..] == done + rest
  {
    var (one, more) := ([rest[0]], Sendable(rest[1..]));
    assert Sendable(rest) == one + more;
    assert (done + one) + more == done + (one + more);
    assert rest == one + rest[1..];
    assert (done + one) + rest[1..] == done + (one + rest[1..]);
  }

  lemma SendableEnds(done: seq<Msg>, rest: seq<Msg>, msgs: seq<Msg>)
    requires done + Sendable(rest) == Sendable(msgs) && done + rest == msgs
    requires rest == [] || !Encodable(rest[0])
    ensures done == Sendable(msgs) && rest == Unsent(msgs)
  {
    assert done + [] == done;
    assert msgs[|done|..] == rest;
  }

  /** What is not sent is dropped with the accumulator. */
  function Unsent(msgs: seq<Msg>): (rest: seq<Msg>)
    ensures msgs == Sendable(msgs) + rest
  {
    SendableIs(msgs);
    msgs[|Sendable(msgs)|..]
  }

  /** _onOutGoingIpcConnect */
  function OnOutgoingConnect(b: Bundle, ep: string, pipe: nat): Bundle {
    var known := Get(b.pipes, ep);
    var b1 := b.(pipes := b.pipes[ep := if pipe in known then known else known + [pipe]],
                 log := b.log + [Hello(pipe)]);
    if ep in b.accumulated
    then b1.(accumulated := b.accumulated - {ep}, sent := Extend(b.sent, ep, Sendable(b.accumulated[ep])),
             lost := Extend(b.lost, ep, Unsent(b.accumulated[ep])),
             log := b1.log + AllCarried(pipe, ep, Sendable(b.accumulated[ep])))
    else b1
  }

  function Without(pipes: seq<nat>, pipe: nat): seq<nat> {
    if pipes == [] then [] else (if pipes[0] == pipe then [] else [pipes[0]]) + Without(pipes[1..], pipe)
  }

  /** The SOCK_RECV branch for SET_ROUTE_BACK_TO_ME. */
  function OnRouteBack(b: Bundle, pipe: nat, ep: string): Bundle {
    if pipe in b.greeted then b
    else
      b.(greeted := b.greeted + {pipe},
         excess := if ep in b.pipes then b.excess + {ep} else b.excess,
         pipes := b.pipes[ep := [pipe] + Without(Get(b.pipes, ep), pipe)])
  }

  function Step(b: Bundle, e: Event): (Bundle, Outcome) {
    match e
    case Routes(m, ep) => MRoute(b, m, ep)
    case DialCompletes(ep, pipe) => (OnOutgoingConnect(b, ep, pipe), Ok)
    case RouteBack(pipe, ep) => (OnRouteBack(b, pipe, ep), Ok)
  }

  function Run(b: Bundle, events: seq<Event>): Bundle
    decreases |events|
  {
    if events == [] then b else Run(Step(b, events[0]).0, events[1..])
  }

  // ---------- conservation ----------

  datatype Records = Records(routed: seq<Msg>, sent: seq<Msg>, accumulated: seq<Msg>, lost: seq<Msg>)

  function At(b: Bundle, ep: string): Records {
    Records(Get(b.routed, ep), Get(b.sent, ep), Get(b.accumulated, ep), Get(b.lost, ep))
  }

  /** What an event does to the records of its own endpoint. */
  function Booked(r: Records, b: Bundle, e: Event): Records {
    match e
    case Routes(m, ep) =>
      if ep !in b.pipes then r.(routed := r.routed + [m], accumulated := r.accumulated + [m])
      else if Transmittable(m) then r.(routed := r.routed + [m], sent := r.sent + [m])
      else r
    case DialCompletes(ep, pipe) =>
      Records(r.routed, r.sent + Sendable(r.accumulated), [], r.lost + Unsent(r.accumulated))
    case RouteBack(pipe, ep) => r
  }

  lemma RoutesAt(b: Bundle, m: Msg, to: string, ep: string)
    ensures At(MRoute(b, m, to).0, ep) == if ep == to then Booked(At(b, ep), b, Routes(m, to)) else At(b, ep)
  {
    GetExtend(b.routed, to, [m], ep);
    GetExtend(b.sent, to, [m], ep);
    GetExtend(if to in b.accumulated then b.accumulated else b.accumulated[to := []], to, [m], ep);
  }

  lemma DialAt(b: Bundle, to: string, pipe: nat, ep: string)
    ensures At(OnOutgoingConnect(b, to, pipe), ep) == if ep == to then Booked(At(b, ep), b, DialCompletes(to, pipe))
          else At(b, ep)
  {
    var acc := Get(b.accumulated, to);
    GetExtend(b.sent, to, Sendable(acc), ep);
    GetExtend(b.lost, to, Unsent(acc), ep);
    assert Get(b.sent, ep) + [] == Get(b.sent, ep) && Get(b.lost, ep) + [] == Get(b.lost, ep);
  }

  lemma StepAt(b: Bundle, e: Event, ep: string)
    ensures At(Step(b, e).0, ep) == if ep == e.ep then Booked(At(b, ep), b, e) else At(b, ep)
  {
    match e {
      case Routes(m, to) => RoutesAt(b, m, to, ep);
      case DialCompletes(to, pipe) => DialAt(b, to, pipe, ep);
      case RouteBack(pipe, to) =>
    }
  }

  predicate Balanced(r: Records) {
    multiset(r.routed) == multiset(r.sent) + multiset(r.accumulated) + multiset(r.lost)
  }

  lemma BookedBalances(r: Records, b: Bundle, e: Event)
    requires Balanced(r)
    ensures Balanced(Booked(r, b, e))
  {
    assert multiset(r.accumulated) == multiset(Sendable(r.accumulated)) + multiset(Unsent(r.accumulated)) by {
      assert r.accumulated == Sendable(r.accumulated) + Unsent(r.accumulated);
    }
  }

  ghost predicate Conserved(b: Bundle) {
    && (forall ep :: Balanced(At(b, ep)))
    && (forall ep | ep in b.pipes :: b.pipes[ep] != [])
  }

  lemma BalanceStep(b: Bundle, e: Event, ep: string)
    requires Balanced(At(b, ep))
    ensures Balanced(At(Step(b, e).0, ep))
  {
    StepAt(b, e, ep);
    BookedBalances(At(b, ep), b, e);
  }

  lemma PipesStep(b: Bundle, e: Event)
    requires forall ep | ep in b.pipes :: b.pipes[ep] != []
    ensures forall ep | ep in Step(b, e).0.pipes :: Step(b, e).0.pipes[ep] != []
  {
  }

  lemma StepConserves(b: Bundle, e: Event)
    requires Conserved(b)
    ensures Conserved(Step(b, e).0)
  {
    PipesStep(b, e);
    forall ep ensures Balanced(At(Step(b, e).0, ep)) {
      BalanceStep(b, e, ep);
    }
  }

  /** In every run, whatever the order of routing, dialling and greeting: for each endpoint the messages that routing
    * took on are those sent, those accumulated and those lost, each as often, and every endpoint with pipes has a
    * first one. */
  lemma {:induction false} NothingLost(b: Bundle, events: seq<Event>)
    requires Conserved(b)
    ensures Conserved(Run(b, events))
    decreases |events|
  {
    if events != [] {
      StepConserves(b, events[0]);
      NothingLost(Step(b, events[0]).0, events[1..]);
    }
  }

  /** A dial is never started twice, and only a message without the reply endpoint that its answer would need is
    * turned away, and only once there is a pipe. */
  lemma NeverDialsTwice(b: Bundle, e: Event)
    ensures Step(b, e).1 != AlreadyDialing
    ensures Step(b, e).1 == TurnedAway <==> e.Routes? && e.ep in b.pipes && !Transmittable(e.m)
  {
  }

  /** Completing the dial sends what was accumulated, in the order in which it was queued, after everything sent before,
    * and nothing to any other endpoint. It loses messages exactly if one of them has no reply address: that one and
    * all that were queued after it. */
  lemma DialSendsInOrder(b: Bundle, ep: string, pipe: nat, other: string)
    ensures var (r, r') := (At(b, ep), At(OnOutgoingConnect(b, ep, pipe), ep));
            && r.accumulated == Sendable(r.accumulated) + Unsent(r.accumulated)
            && r'.sent == r.sent + Sendable(r.accumulated) && r'.accumulated == [] &&
                  r'.lost == r.lost + Unsent(r.accumulated)
            && (r'.lost == r.lost <==> forall m | m in r.accumulated :: Encodable(m))
            && (other != ep ==> At(OnOutgoingConnect(b, ep, pipe), other) == At(b, other))
  {
    StepAt(b, DialCompletes(ep, pipe), ep);
    StepAt(b, DialCompletes(ep, pipe), other);
    var acc := Get(b.accumulated, ep);
    SendableIs(acc);
    assert Get(b.lost, ep) + [] == Get(b.lost, ep);
    assert |Get(b.lost, ep) + Unsent(acc)| == |Get(b.lost, ep)| + |acc| - |Sendable(acc)|;
  }

  // ---------- order ----------

  /** Everything routed to the endpoint went out, or is still to go out, in the order of routing. */
  predicate Ordered(b: Bundle, ep: string) {
    Get(b.routed, ep) == Get(b.sent, ep) + Get(b.accumulated, ep)
  }

  /** A message for an endpoint that is still being dialled, while a pipe from it is known already. */
  predicate Overtakes(b: Bundle, e: Event) {
    e.Routes? && e.ep in b.pipes && Transmittable(e.m) && Get(b.accumulated, e.ep) != []
  }

  /** A dial that completes while a message is accumulated that cannot be encoded. */
  predicate Loses(b: Bundle, e: Event) {
    e.DialCompletes? && exists m | m in Get(b.accumulated, e.ep) :: !Encodable(m)
  }

  predicate Undisturbed(b: Bundle, events: seq<Event>, ep: string)
    decreases |events|
  {
    events == []
    || (!((Overtakes(b, events[0]) || Loses(b, events[0])) && events[0].ep == ep)
        && Undisturbed(Step(b, events[0]).0, events[1..], ep))
  }

  lemma BookedKeepsOrder(r: Records, b: Bundle, e: Event)
    requires r.routed == r.sent + r.accumulated
    requires e.Routes? && e.ep in b.pipes && Transmittable(e.m) ==> r.accumulated == []
    requires e.DialCompletes? ==> forall m | m in r.accumulated :: Encodable(m)
    ensures var r' := Booked(r, b, e); r'.routed == r'.sent + r'.accumulated
  {
    SendableIs(r.accumulated);
    assert (r.sent + r.accumulated) + [] == r.sent + r.accumulated;
    if e.Routes? {
      assert (r.sent + r.accumulated) + [e.m] == r.sent + (r.accumulated + [e.m]);
    }
  }

  lemma StepKeepsOrder(b: Bundle, e: Event, ep: string)
    requires Ordered(b, ep)
    requires !((Overtakes(b, e) || Loses(b, e)) && e.ep == ep)
    ensures Ordered(Step(b, e).0, ep)
  {
    StepAt(b, e, ep);
    if e.ep == ep {
      BookedKeepsOrder(At(b, ep), b, e);
    }
  }

  /** The whole order of routing is kept in every run in which nothing overtakes and nothing is lost. */
  lemma {:induction false} OrderKept(b: Bundle, events: seq<Event>, ep: string)
    requires Ordered(b, ep) && Undisturbed(b, events, ep)
    ensures Ordered(Run(b, events), ep)
    decreases |events|
  {
    if events != [] {
      StepKeepsOrder(b, events[0], ep);
      OrderKept(Step(b, events[0]).0, events[1..], ep);
    }
  }

  /** Nothing is accumulated for an endpoint that has a pipe, nor anything that cannot be encoded. */
  predicate Calm(b: Bundle, ep: string) {
    (ep in b.pipes ==> ep !in b.accumulated) && forall m | m in Get(b.accumulated, ep) :: Encodable(m)
  }

  lemma CalmStep(b: Bundle, e: Event, ep: string)
    requires Calm(b, ep) && (e.ep == ep ==> !e.RouteBack? && (e.Routes? ==> Encodable(e.m)))
    ensures Calm(Step(b, e).0, ep) && !((Overtakes(b, e) || Loses(b, e)) && e.ep == ep)
  {
    StepAt(b, e, ep);
  }

  /** Without a greeting from the other side, messages that have a reply address are not disturbed. */
  lemma {:induction false} NoRouteBackNoOvertaking(b: Bundle, events: seq<Event>, ep: string)
    requires ep in b.pipes ==> ep !in b.accumulated
    requires forall m | m in Get(b.accumulated, ep) :: Encodable(m)
    requires forall e | e in events :: e.ep == ep ==> !e.RouteBack? && (e.Routes? ==> Encodable(e.m))
    ensures Undisturbed(b, events, ep)
    decreases |events|
  {
    if events != [] {
      assert events[0] in events;
      assert forall e | e in events[1..] :: e in events;
      CalmStep(b, events[0], ep);
      NoRouteBackNoOvertaking(Step(b, events[0]).0, events[1..], ep);
    }
  }

  /** The conditions are exact: an event keeps the order of an endpoint if and only if it neither overtakes there nor
    * loses something; an overtaking message is told apart from those before it by being new. */
  lemma OrderKeptExactly(b: Bundle, e: Event)
    requires Ordered(b, e.ep) && (e.Routes? ==> e.m !in Get(b.accumulated, e.ep))
    ensures Ordered(Step(b, e).0, e.ep) <==> !Overtakes(b, e) && !Loses(b, e)
  {
    var (ep, b') := (e.ep, Step(b, e).0);
    var acc := Get(b.accumulated, ep);
    StepAt(b, e, ep);
    if Overtakes(b, e) {
      var n := |Get(b.sent, ep)|;
      assert Get(b'.sent, ep)[n] == e.m;
      assert Get(b'.routed, ep)[n] == acc[0];
      assert acc[0] in acc;
    } else if Loses(b, e) {
      SendableIs(acc);
      assert |Sendable(acc)| < |acc|;
      assert |Get(b'.sent, ep)| < |Get(b'.routed, ep)|;
    } else {
      StepKeepsOrder(b, e, ep);
    }
  }

  lemma RunStep(b: Bundle, events: seq<Event>, k: nat)
    requires k < |events|
    ensures Run(b, events[k..]) == Run(Step(b, events[k]).0, events[k + 1..])
    ensures k + 1 == |events| ==> Run(b, events[k..]) == Step(b, events[k]).0
  {
    assert events[k..][0] == events[k] && events[k..][1..] == events[k + 1..];
  }

  /** One message is accumulated, the other side greets us first, and the next message is routed. */
  lemma Overtaking(m: Msg, n: Msg) returns (b3: Bundle)
    requires Transmittable(m) && Transmittable(n)
    ensures b3 == Step(Step(Step(NEW_BUNDLE, Routes(m, "a")).0, RouteBack(1, "a")).0, Routes(n, "a")).0
    ensures At(b3, "a") == Records([m, n], [n], [m], [])
  {
    var b1 := Step(NEW_BUNDLE, Routes(m, "a")).0;
    var b2 := Step(b1, RouteBack(1, "a")).0;
    b3 := Step(b2, Routes(n, "a")).0;
    StepAt(NEW_BUNDLE, Routes(m, "a"), "a");
    StepAt(b1, RouteBack(1, "a"), "a");
    StepAt(b2, Routes(n, "a"), "a");
  }

  lemma RunFour(b: Bundle, e: seq<Event>)
    requires |e| == 4
    ensures Run(b, e) == Step(Step(Step(Step(b, e[0]).0, e[1]).0, e[2]).0, e[3]).0
  {
    var b1 := Step(b, e[0]).0;
    var b2 := Step(b1, e[1]).0;
    RunStep(Step(b2, e[2]).0, e, 3);
    RunStep(b2, e, 2);
    RunStep(b1, e, 1);
    RunStep(b, e, 0);
    assert e[0..] == e;
  }

  /** It does happen: when the dial completes, the second message has gone ahead. */
  lemma OvertakingHappens(m: Msg, n: Msg)
    requires Transmittable(m) && Transmittable(n) && m != n
    ensures var b := Run(NEW_BUNDLE, [Routes(m, "a"), RouteBack(1, "a"), Routes(n, "a"), DialCompletes("a", 2)]);
            Get(b.routed, "a") == [m, n] && Get(b.sent, "a") == [n, m]
  {
    RunFour(NEW_BUNDLE, [Routes(m, "a"), RouteBack(1, "a"), Routes(n, "a"), DialCompletes("a", 2)]);
    var b3 := Overtaking(m, n);
    StepAt(b3, DialCompletes("a", 2), "a");
    assert Sendable([m]) == [m];
  }

  /** Losing happens: a router's notice, which has no reply address, is accumulated before another message. */
  lemma LosingHappens(notice: Msg, m: Msg)
    requires !Encodable(notice) && Transmittable(m)
    ensures var b := Run(NEW_BUNDLE, [Routes(notice, "a"), Routes(m, "a"), DialCompletes("a", 1)]);
            Get(b.routed, "a") == [notice, m] && Get(b.sent, "a") == [] && Get(b.lost, "a") == [notice, m]
  {
    var e := [Routes(notice, "a"), Routes(m, "a"), DialCompletes("a", 1)];
    var b1 := Step(NEW_BUNDLE, e[0]).0;
    var b2 := Step(b1, e[1]).0;
    RunStep(b2, e, 2);
    RunStep(b1, e, 1);
    RunStep(NEW_BUNDLE, e, 0);
    assert e[0..] == e;
    StepAt(NEW_BUNDLE, e[0], "a");
    StepAt(b1, e[1], "a");
    StepAt(b2, e[2], "a");
    assert Get(b2.accumulated, "a") == [notice, m];
    assert Sendable([notice, m]) == [];
  }

  // ---------- which pipe ----------

  lemma FirstPipeStep(b: Bundle, e: Event, ep: string)
    requires ep in b.pipes && b.pipes[ep] != [] && !(e.RouteBack? && e.ep == ep)
    ensures var b' := Step(b, e).0; ep in b'.pipes && b'.pipes[ep] != [] && b'.pipes[ep][0] == b.pipes[ep][0]
  {
  }

  /** The first pipe of an endpoint stays the first one until a pipe from there says who it is. */
  lemma {:induction false} FirstPipeStays(b: Bundle, events: seq<Event>, ep: string)
    requires ep in b.pipes && b.pipes[ep] != []
    requires forall e | e in events :: !(e.RouteBack? && e.ep == ep)
    ensures var b' := Run(b, events); ep in b'.pipes && b'.pipes[ep] != [] && b'.pipes[ep][0] == b.pipes[ep][0]
    decreases |events|
  {
    if events != [] {
      assert events[0] in events;
      assert forall e | e in events[1..] :: e in events;
      FirstPipeStep(b, events[0], ep);
      FirstPipeStays(Step(b, events[0]).0, events[1..], ep);
    }
  }

  /** A message for the endpoint goes out at once, on this pipe and after everything else, or is turned away because
    * it has no reply endpoint. */
  predicate GoesOutOn(b: Bundle, m: Msg, ep: string, pipe: nat) {
    var (b', outcome) := Step(b, Routes(m, ep));
    if m.replyAddr.Some? && m.replyAddr.value.mEp.Some? then
      outcome == Ok && b'.log == b.log + [Carried(pipe, ep, m)]
    else
      outcome == TurnedAway && b' == b
  }

  /** A pipe whose other end says who it is, is the one that everything to that endpoint goes out on, whatever pipes
    * there were and are dialled afterwards, until another one from there says so. */
  lemma GreetedPipeIsUsed(b: Bundle, pipe: nat, ep: string, events: seq<Event>, m: Msg)
    requires pipe !in b.greeted && forall e | e in events :: !(e.RouteBack? && e.ep == ep)
    ensures GoesOutOn(Run(Step(b, RouteBack(pipe, ep)).0, events), m, ep, pipe)
  {
    FirstPipeStays(Step(b, RouteBack(pipe, ep)).0, events, ep);
  }

  /** Without that it is the pipe that was dialled first. */
  lemma DialledPipeIsUsed(b: Bundle, pipe: nat, ep: string, events: seq<Event>, m: Msg)
    requires ep !in b.pipes && forall e | e in events :: !(e.RouteBack? && e.ep == ep)
    ensures GoesOutOn(Run(Step(b, DialCompletes(ep, pipe)).0, events), m, ep, pipe)
  {
    FirstPipeStays(Step(b, DialCompletes(ep, pipe)).0, events, ep);
  }

  /** The first thing on a pipe that we dialled is who we are, and what was accumulated follows on the same pipe. */
  lemma DialGreetsFirst(b: Bundle, pipe: nat, ep: string)
    ensures var b' := Step(b, DialCompletes(ep, pipe)).0;
            var acc := if ep in b.accumulated then b.accumulated[ep] else [];
            && b.log + [Hello(pipe)] <= b'.log
            && b'.log[|b.log| + 1..] == AllCarried(pipe, ep, Sendable(acc))
  {
  }

  /** Only the first greeting on a pipe counts, whoever it names; an endpoint that had pipes before has one too many. */
  lemma FirstGreetingCounts(b: Bundle, pipe: nat, ep: string, again: string)
    ensures var b' := Step(b, RouteBack(pipe, ep)).0;
            && Step(b', RouteBack(pipe, again)).0 == b'
            && (forall to :: to in b'.excess <==> to in b.excess || (to == ep && pipe !in b.greeted && ep in b.pipes))
            && b'.log == b.log && b'.accumulated == b.accumulated
            && (pipe !in b.greeted ==> Get(b'.pipes, ep) == [pipe] + Without(Get(b.pipes, ep), pipe))
  {
  }

  /** Every message went out behind our greeting, or on a pipe that greeted us. */
  ghost predicate LogOk(log: seq<Sending>, greeted: set<nat>) {
    forall i | 0 <= i < |log| && log[i].Carried? :: Hello(log[i].pipe) in log[..i] || log[i].pipe in greeted
  }

  lemma LogMore(log: seq<Sending>, greeted: set<nat>, more: seq<Sending>)
    requires LogOk(log, greeted)
    requires forall s | s in more :: s.Carried? ==> Hello(s.pipe) in log || s.pipe in greeted
    ensures LogOk(log + more, greeted)
  {
    var all := log + more;
    forall i | 0 <= i < |all| && all[i].Carried? ensures Hello(all[i].pipe) in all[..i] || all[i].pipe in greeted {
      if i < |log| {
        assert all[..i] == log[..i];
      } else {
        assert all[i] == more[i - |log|] && all[..i] == log + more[..i - |log|];
      }
    }
  }

  lemma {:induction false} WithoutIs(pipes: seq<nat>, pipe: nat)
    ensures forall p :: p in Without(pipes, pipe) <==> p in pipes && p != pipe
  {
    if pipes != [] {
      assert pipes == [pipes[0]] + pipes[1..];
      WithoutIs(pipes[1..], pipe);
    }
  }

  lemma DialLogOk(b: Bundle, ep: string, pipe: nat)
    requires LogOk(b.log, b.greeted)
    ensures var b' := OnOutgoingConnect(b, ep, pipe);
            LogOk(b'.log, b.greeted) && b.log + [Hello(pipe)] <= b'.log && b'.greeted == b.greeted
  {
    LogMore(b.log, b.greeted, [Hello(pipe)]);
    if ep in b.accumulated {
      var log := b.log + [Hello(pipe)];
      assert log[|b.log|] == Hello(pipe);
      LogMore(log, b.greeted, AllCarried(pipe, ep, Sendable(b.accumulated[ep])));
    }
  }

  /** Every pipe in the lists is one that was greeted, one way or the other. */
  ghost predicate PipesOk(pipes: map<string, seq<nat>>, log: seq<Sending>, greeted: set<nat>) {
    && (forall ep, p | ep in pipes && p in pipes[ep] :: Hello(p) in log || p in greeted)
    && (forall ep | ep in pipes :: pipes[ep] != [])
  }

  ghost predicate Introduced(b: Bundle) {
    LogOk(b.log, b.greeted) && PipesOk(b.pipes, b.log, b.greeted)
  }

  lemma StillIn(log: seq<Sending>, log': seq<Sending>, pipe: nat)
    requires log + [Hello(pipe)] <= log'
    ensures Hello(pipe) in log' && forall s | s in log :: s in log'
  {
    assert log'[|log|] == (log + [Hello(pipe)])[|log|];
    forall s | s in log ensures s in log' {
      var i :| 0 <= i < |log| && log[i] == s;
      assert log'[i] == (log + [Hello(pipe)])[i];
    }
  }

  lemma OnePipeMore(pipes: map<string, seq<nat>>, log: seq<Sending>, log': seq<Sending>, greeted: set<nat>, ep: string,
                    pipe: nat, now: seq<nat>)
    requires PipesOk(pipes, log, greeted) && log + [Hello(pipe)] <= log'
    requires now == Get(pipes, ep) + [pipe] || (now == Get(pipes, ep) && pipe in now)
    ensures PipesOk(pipes[ep := now], log', greeted)
  {
    StillIn(log, log', pipe);
  }

  lemma DialIntroduces(b: Bundle, ep: string, pipe: nat)
    requires Introduced(b)
    ensures Introduced(OnOutgoingConnect(b, ep, pipe))
  {
    var b' := OnOutgoingConnect(b, ep, pipe);
    DialLogOk(b, ep, pipe);
    OnePipeMore(b.pipes, b.log, b'.log, b.greeted, ep, pipe, b'.pipes[ep]);
  }

  lemma StepIntroduces(b: Bundle, e: Event)
    requires Introduced(b)
    ensures Introduced(Step(b, e).0)
  {
    match e {
      case Routes(m, ep) =>
        if ep in b.pipes {
          assert b.pipes[ep][0] in b.pipes[ep];
          LogMore(b.log, b.greeted, [Carried(b.pipes[ep][0], ep, m)]);
        }
      case DialCompletes(ep, pipe) => DialIntroduces(b, ep, pipe);
      case RouteBack(pipe, ep) => WithoutIs(Get(b.pipes, ep), pipe);
    }
  }

  /** In every run a pipe carries messages only behind our greeting, or after the other end has greeted us. */
  lemma {:induction false} NobodyIsAnonymous(b: Bundle, events: seq<Event>)
    requires Introduced(b)
    ensures Introduced(Run(b, events))
    decreases |events|
  {
    if events != [] {
      StepIntroduces(b, events[0]);
      NobodyIsAnonymous(Step(b, events[0]).0, events[1..]);
    }
  }

  /** The messages for an endpoint in the log. */
  function CarriedTo(log: seq<Sending>, ep: string): seq<Msg> {
    if log == [] then []
    else
      var last := log[|log| - 1];
      CarriedTo(log[..|log| - 1], ep) + if last.Carried? && last.ep == ep then [last.m] else []
  }

  lemma CarriedToMore(log: seq<Sending>, s: Sending, ep: string)
    ensures CarriedTo(log + [s], ep) == CarriedTo(log, ep) + if s.Carried? && s.ep == ep then [s.m] else []
  {
    assert (log + [s])[..|log|] == log;
  }

  lemma NoneCarried(log: seq<Sending>, pipe: nat, ep: string)
    ensures log + AllCarried(pipe, ep, []) == log
  {
  }

  lemma OneMoreCarried(log: seq<Sending>, pipe: nat, ep: string, msgs: seq<Msg>, m: Msg)
    ensures log + AllCarried(pipe, ep, msgs + [m]) == (log + AllCarried(pipe, ep, msgs)) + [Carried(pipe, ep, m)]
  {
    assert AllCarried(pipe, ep, msgs + [m]) == AllCarried(pipe, ep, msgs) + [Carried(pipe, ep, m)];
  }

  /** One more message on the way to `to`, as the messages to `ep` see it. */
  lemma OneMoreCarriedTo(log: seq<Sending>, pipe: nat, to: string, msgs: seq<Msg>, m: Msg, ep: string, before: seq<Msg>)
    requires CarriedTo(log + AllCarried(pipe, to, msgs), ep) == if ep == to then before + msgs else before
    ensures CarriedTo(log + AllCarried(pipe, to, msgs + [m]), ep) == if ep == to then before + (msgs + [m]) else before
  {
    OneMoreCarried(log, pipe, to, msgs, m);
    CarriedToMore(log + AllCarried(pipe, to, msgs), Carried(pipe, to, m), ep);
    assert before + [] == before && (before + msgs) + [m] == before + (msgs + [m]);
  }

  lemma {:induction false} AllCarriedTo(log: seq<Sending>, pipe: nat, to: string, msgs: seq<Msg>, ep: string)
    ensures CarriedTo(log + AllCarried(pipe, to, msgs), ep) == if ep == to then CarriedTo(log, ep) + msgs
                                                               else CarriedTo(log, ep)
    decreases |msgs|
  {
    if msgs == [] {
      NoneCarried(log, pipe, to);
      assert CarriedTo(log, ep) + msgs == CarriedTo(log, ep);
    } else {
      var (first, last) := (msgs[..|msgs| - 1], msgs[|msgs| - 1]);
      assert msgs == first + [last];
      AllCarriedTo(log, pipe, to, first, ep);
      OneMoreCarriedTo(log, pipe, to, first, last, ep, CarriedTo(log, ep));
    }
  }

  lemma LogDial(b: Bundle, to: string, pipe: nat, ep: string)
    requires CarriedTo(b.log, ep) == Get(b.sent, ep)
    ensures var b' := OnOutgoingConnect(b, to, pipe); CarriedTo(b'.log, ep) == Get(b'.sent, ep)
  {
    CarriedToMore(b.log, Hello(pipe), ep);
    assert CarriedTo(b.log, ep) + [] == CarriedTo(b.log, ep);
    if to in b.accumulated {
      AllCarriedTo(b.log + [Hello(pipe)], pipe, to, Sendable(b.accumulated[to]), ep);
      GetExtend(b.sent, to, Sendable(b.accumulated[to]), ep);
    }
  }

  lemma LogRoutes(b: Bundle, m: Msg, to: string, ep: string)
    requires CarriedTo(b.log, ep) == Get(b.sent, ep)
    ensures var b' := MRoute(b, m, to).0; CarriedTo(b'.log, ep) == Get(b'.sent, ep)
  {
    if to in b.pipes && Transmittable(m) {
      CarriedToMore(b.log, Carried(FirstPipe(b.pipes[to]), to, m), ep);
      GetExtend(b.sent, to, [m], ep);
      assert CarriedTo(b.log, ep) + [] == CarriedTo(b.log, ep);
    }
  }

  lemma LogStep(b: Bundle, e: Event, ep: string)
    requires CarriedTo(b.log, ep) == Get(b.sent, ep)
    ensures var b' := Step(b, e).0; CarriedTo(b'.log, ep) == Get(b'.sent, ep)
  {
    match e {
      case Routes(m, to) => LogRoutes(b, m, to, ep);
      case DialCompletes(to, pipe) => LogDial(b, to, pipe, ep);
      case RouteBack(pipe, to) =>
    }
  }

  /** In every run what went out to an endpoint is, in that order, what counts as sent to it. */
  lemma {:induction false} LogIsWhatWasSent(b: Bundle, events: seq<Event>, ep: string)
    requires CarriedTo(b.log, ep) == Get(b.sent, ep)
    ensures CarriedTo(Run(b, events).log, ep) == Get(Run(b, events).sent, ep)
    decreases |events|
  {
    if events != [] {
      LogStep(b, events[0], ep);
      LogIsWhatWasSent(Step(b, events[0]).0, events[1..], ep);
    }
  }

  // ---------- the class ----------

  lemma SendOneMore(sent: map<string, seq<Msg>>, log: seq<Sending>, pipe: nat, ep: string, done: seq<Msg>,
                    rest: seq<Msg>)
    requires rest != [] && Encodable(rest[0])
    ensures var (m, more) := (rest[0], done + [rest[0]]);
            && more + Sendable(rest[1..]) == done + Sendable(rest) && more + rest[1..] == done + rest
            && Extend(Extend(sent, ep, done), ep, [m]) == Extend(sent, ep, more)
            && (log + AllCarried(pipe, ep, done)) + [Carried(pipe, ep, m)] == log + AllCarried(pipe, ep, more)
  {
    ExtendExtend(sent, ep, done, [rest[0]]);
    OneMoreCarried(log, pipe, ep, done, rest[0]);
    MoveOne(done, rest);
  }

  class NngSocketBundle {
    var pipesByEp: map<string, seq<nat>>
    var msgAccumulatorByEp: map<string, seq<Msg>>
    var greetedPipes: set<nat>
    var epsWithExcessPipes: set<string>
    ghost var routed: map<string, seq<Msg>>
    ghost var sent: map<string, seq<Msg>>
    ghost var lost: map<string, seq<Msg>>
    ghost var log: seq<Sending>

    /** An endpoint that is known has a pipe to send on. */
    ghost predicate Valid()
      reads this
    {
      forall ep | ep in pipesByEp :: pipesByEp[ep] != []
    }

    ghost function View(): Bundle
      reads this
    {
      Bundle(pipesByEp, msgAccumulatorByEp, greetedPipes, epsWithExcessPipes, routed, sent, lost, log)
    }

    constructor ()
      ensures Valid() && View() == NEW_BUNDLE
    {
      pipesByEp, msgAccumulatorByEp, greetedPipes, epsWithExcessPipes := map[], map[], {}, {};
      routed, sent, lost, log := map[], map[], map[], [];
    }

    /** Handing one message to a pipe of the endpoint. */
    method SendOn(pipe: nat, ep: string, m: Msg)
      modifies `sent, `log
      ensures sent == Extend(old(sent), ep, [m]) && log == old(log) + [Carried(pipe, ep, m)]
    {
      sent := Extend(sent, ep, [m]);
      log := log + [Carried(pipe, ep, m)];
    }

    method RouteTo(m: Msg, ep: string) returns (outcome: Outcome)
      requires Valid()
      modifies this
      ensures Valid() && (View(), outcome) == MRoute(old(View()), m, ep)
    {
      if ep !in pipesByEp {
        if ep !in msgAccumulatorByEp {
          msgAccumulatorByEp := msgAccumulatorByEp[ep := []];      // dialling starts
        }
        msgAccumulatorByEp := msgAccumulatorByEp[ep := msgAccumulatorByEp[ep] + [m]];
      } else {
        if !Transmittable(m) {
          return TurnedAway;
        }
        SendOn(pipesByEp[ep][0], ep, m);
      }
      routed := Extend(routed, ep, [m]);
      outcome := Ok;
    }

    method OutgoingConnected(ep: string, pipe: nat)
      requires Valid()
      modifies this
      ensures Valid() && View() == OnOutgoingConnect(old(View()), ep, pipe)
    {
      var known := if ep in pipesByEp then pipesByEp[ep] else [];
      if pipe !in known {
        known := known + [pipe];
      }
      pipesByEp := pipesByEp[ep := known];
      log := log + [Hello(pipe)];
      if ep in msgAccumulatorByEp {
        var msgs := msgAccumulatorByEp[ep];
        msgAccumulatorByEp := msgAccumulatorByEp - {ep};
        SendAccumulated(pipe, ep, msgs);
      }
    }

    /** The loop over the accumulated messages; encoding one without a reply address raises an error, which ends the
      * callback with the accumulator already gone. */
    method SendAccumulated(pipe: nat, ep: string, msgs: seq<Msg>)
      modifies `sent, `lost, `log
      ensures sent == Extend(old(sent), ep, Sendable(msgs)) && lost == Extend(old(lost), ep, Unsent(msgs))
      ensures log == old(log) + AllCarried(pipe, ep, Sendable(msgs))
    {
      var rest := msgs;
      ghost var (done, sent0, log0) := ([], sent, log);
      NoneCarried(log0, pipe, ep);
      while rest != [] && Encodable(rest[0])
        modifies `sent, `log
        invariant done + Sendable(rest) == Sendable(msgs) && done + rest == msgs
        invariant sent == Extend(sent0, ep, done)
        invariant log == log0 + AllCarried(pipe, ep, done)
        decreases |rest|
      {
        SendOneMore(sent0, log0, pipe, ep, done, rest);
        SendOn(pipe, ep, rest[0]);
        done, rest := done + [rest[0]], rest[1..];
      }
      SendableEnds(done, rest, msgs);
      lost := Extend(lost, ep, rest);
    }

    method RouteBackReceived(pipe: nat, ep: string)
      requires Valid()
      modifies this
      ensures Valid() && View() == OnRouteBack(old(View()), pipe, ep)
    {
      if pipe !in greetedPipes {
        var others := [];
        if ep in pipesByEp {
          others := pipesByEp[ep];
          epsWithExcessPipes := epsWithExcessPipes + {ep};
        }
        greetedPipes := greetedPipes + {pipe};
        pipesByEp := pipesByEp[ep := [pipe] + Without(others, pipe)];
      }
    }
  }
}
