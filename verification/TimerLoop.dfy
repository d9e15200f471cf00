/** The timer functions of a router (py/vlmessaging/_core.py: Router.scheduleFn, unscheduleFn, _timerLoop).
  *
  * The loop alternates between deciding when to wake, waiting, and running the functions that are due; while it
  * waits, and between the functions of a batch, anything may be scheduled or unscheduled. Times are ticks of one
  * clock that does not go back.
  */
module TimerLoop {
  import opened Wrappers

  type Fn = nat

  /** Waiting(None) waits until the changed event; Waiting(Some(t)) also until t. */
  datatype Phase = Deciding | Waiting(deadline: Option<nat>) | Running

  /** The functions taken at clock time `at` because they were due at `due`. */
  datatype Batch = Batch(due: nat, at: nat, fns: seq<Fn>)

  /** `scheduled` and `removed` record, for each due time, the functions given to the loop and those unscheduled again,
    * `batches` those taken, and `clock` is the latest time read. */
  datatype Timers = Timers(
    fnsByTime: map<nat, seq<Fn>>,
    nextTime: Option<nat>,
    changed: bool,
    phase: Phase,
    clock: nat,
    scheduled: map<nat, multiset<Fn>>,
    removed: map<nat, multiset<Fn>>,
    batches: seq<Batch>)

  function NewTimers(now: nat): Timers {
    Timers(map[], None, false, Deciding, now, map[], map[], [])
  }

  /** `now` is what the clock says at the step. A wait may end early, and may end without noticing the event. */
  datatype Event =
    | Schedule(fn: Fn, after: nat, now: nat)
    | Unschedule(fn: Fn)
    | UnscheduleAt(fn: Fn, at: nat)
    | Decide
    | Wake(noticed: bool, now: nat)
    | BatchDone

  function Listed(m: map<nat, seq<Fn>>, t: nat): seq<Fn> {
    if t in m then m[t] else []
  }

  function Record(m: map<nat, multiset<Fn>>, t: nat): multiset<Fn> {
    if t in m then m[t] else multiset{}
  }

  function Add(m: map<nat, multiset<Fn>>, t: nat, fns: multiset<Fn>): map<nat, multiset<Fn>> {
    m[t := Record(m, t) + fns]
  }

  function Taken(batches: seq<Batch>, t: nat): multiset<Fn> {
    if batches == [] then multiset{}
    else
      var n := |batches| - 1;
      Taken(batches[..n], t) + if batches[n].due == t then multiset(batches[n].fns) else multiset{}
  }

  // ---------- the operations ----------

  function ScheduleFn(s: Timers, fn: Fn, after: nat, now: nat): Timers {
    var t := now + after;
    var sooner := s.nextTime.None? || t < s.nextTime.value;
    s.(clock := now,
       fnsByTime := s.fnsByTime[t := Listed(s.fnsByTime, t) + [fn]],
       scheduled := Add(s.scheduled, t, multiset{fn}),
       nextTime := if sooner then Some(t) else s.nextTime,
       changed := s.changed || sooner)
  }

  /** list.remove: the first occurrence only. */
  function RemoveFirst(fns: seq<Fn>, fn: Fn): seq<Fn> {
    if fns == [] then [] else if fns[0] == fn then fns[1..] else [fns[0]] + RemoveFirst(fns[1..], fn)
  }

  function UnscheduleFnAt(s: Timers, fn: Fn, at: nat): Timers {
    if fn !in Listed(s.fnsByTime, at) then s
    else
      var fns := RemoveFirst(s.fnsByTime[at], fn);
      s.(fnsByTime := if fns == [] then s.fnsByTime - {at} else s.fnsByTime[at := fns],
         removed := Add(s.removed, at, multiset{fn}))
  }

  /** At every due time the first occurrence goes, and a time without functions goes with its list. */
  function Without(m: map<nat, seq<Fn>>, fn: Fn): map<nat, seq<Fn>> {
    map t | t in m && RemoveFirst(m[t], fn) != [] :: RemoveFirst(m[t], fn)
  }

  function AddWhereListed(r: map<nat, multiset<Fn>>, m: map<nat, seq<Fn>>, fn: Fn): map<nat, multiset<Fn>> {
    map t | t in r.Keys + m.Keys :: if fn in Listed(m, t) then Record(r, t) + multiset{fn} else Record(r, t)
  }

  function UnscheduleFn(s: Timers, fn: Fn): Timers {
    s.(fnsByTime := Without(s.fnsByTime, fn), removed := AddWhereListed(s.removed, s.fnsByTime, fn))
  }

  ghost predicate IsLeast(times: set<nat>, t: nat) {
    t in times && forall u | u in times :: t <= u
  }

  lemma {:induction false} LeastExists(times: set<nat>, x: nat)
    requires x in times
    ensures exists t :: IsLeast(times, t)
    decreases |times|
  {
    if y :| y in times && y < x {
      LeastExists(times - {x}, y);
      var t :| IsLeast(times - {x}, t);
      assert y in times - {x};
      forall u | u in times ensures t <= u {
        if u != x {
          assert u in times - {x};
        }
      }
      assert IsLeast(times, t);
    } else {
      assert IsLeast(times, x);
    }
  }

  ghost function Least(times: set<nat>): (r: Option<nat>)
    ensures r.None? ==> forall t :: t !in times
    ensures r.Some? ==> IsLeast(times, r.value)
  {
    if t :| IsLeast(times, t) then Some(t)
    else
      assert forall t :: t !in times by {
        if t :| t in times {
          LeastExists(times, t);
        }
      }
      None
  }

  /** The top of the loop. */
  ghost function DecideNext(s: Timers): Timers {
    var next := Least(s.fnsByTime.Keys);
    s.(nextTime := next, phase := Waiting(next))
  }

  /** After the wait: clear the event if it was noticed, and take what is due. */
  function WakeUp(s: Timers, noticed: bool, now: nat): Timers {
    var s1 := s.(clock := now, changed := s.changed && !noticed);
    if s.nextTime.Some? && now >= s.nextTime.value then
      var t := s.nextTime.value;
      s1.(fnsByTime := s.fnsByTime - {t}, phase := Running,
          batches := s.batches + [Batch(t, now, Listed(s.fnsByTime, t))])
    else s1.(phase := Deciding)
  }

  ghost function Step(s: Timers, e: Event): Timers {
    match e
    case Schedule(fn, after, now) => if now < s.clock then s else ScheduleFn(s, fn, after, now)
    case Unschedule(fn) => UnscheduleFn(s, fn)
    case UnscheduleAt(fn, at) => UnscheduleFnAt(s, fn, at)
    case Decide => if s.phase.Deciding? then DecideNext(s) else s
    case Wake(noticed, now) =>
      if !s.phase.Waiting? || now < s.clock || (noticed && !s.changed) then s else WakeUp(s, noticed, now)
    case BatchDone => if s.phase.Running? then s.(phase := Deciding) else s
  }

  ghost function Run(s: Timers, events: seq<Event>): Timers
    decreases |events|
  {
    if events == [] then s else Run(Step(s, events[0]), events[1..])
  }

  // ---------- times ----------

  /** The next time is never after anything that is pending. */
  ghost predicate NextOk(s: Timers) {
    forall t | t in s.fnsByTime :: s.nextTime.Some? && s.nextTime.value <= t
  }

  /** No wakeup is lost: while the loop waits, either the event is set or nothing is due before the deadline. */
  ghost predicate WakeOk(s: Timers) {
    s.phase.Waiting? && !s.changed ==>
      && s.nextTime == s.phase.deadline
      && forall t | t in s.fnsByTime :: s.phase.deadline.Some? && s.phase.deadline.value <= t
  }

  /** No batch was taken early, none was due before the one taken before it, and what is pending or awaited is not due
    * before the last. */
  ghost predicate InOrder(s: Timers) {
    var n := |s.batches|;
    && (forall i | 0 <= i < n :: s.batches[i].due <= s.batches[i].at <= s.clock)
    && (forall i, j | 0 <= i < j < n :: s.batches[i].due <= s.batches[j].due)
    && (n > 0 ==>
          && (forall t | t in s.fnsByTime :: s.batches[n - 1].due <= t)
          && (s.phase.Waiting? && s.nextTime.Some? ==> s.batches[n - 1].due <= s.nextTime.value))
  }

  ghost predicate TimesOk(s: Timers) {
    NextOk(s) && WakeOk(s) && InOrder(s)
  }

  /** Taking functions away leaves the times all right. */
  lemma FewerTimes(s: Timers, s': Timers)
    requires TimesOk(s) && s' == s.(fnsByTime := s'.fnsByTime, removed := s'.removed)
    requires s'.fnsByTime.Keys <= s.fnsByTime.Keys
    ensures TimesOk(s')
  {
    assert forall t | t in s'.fnsByTime :: t in s.fnsByTime;
  }

  /** Taking what is due keeps the order of the batches. */
  lemma TakenInOrder(s: Timers, now: nat)
    requires NextOk(s) && InOrder(s) && s.phase.Waiting? && s.clock <= now && s.nextTime.Some? &&
          s.nextTime.value <= now
    ensures InOrder(WakeUp(s, false, now))
  {
    var (s', n) := (WakeUp(s, false, now), |s.batches|);
    assert forall i | 0 <= i < n :: s'.batches[i] == s.batches[i];
    assert n > 0 ==> s.batches[n - 1].due <= s'.batches[n].due;
  }

  lemma TimesWake(s: Timers, noticed: bool, now: nat)
    requires TimesOk(s) && s.phase.Waiting? && s.clock <= now
    ensures TimesOk(WakeUp(s, noticed, now))
  {
    if s.nextTime.Some? && s.nextTime.value <= now {
      TakenInOrder(s, now);
    }
  }

  lemma TimesSchedule(s: Timers, fn: Fn, after: nat, now: nat)
    requires TimesOk(s) && s.clock <= now
    ensures TimesOk(ScheduleFn(s, fn, after, now))
  {
  }

  lemma TimesDecide(s: Timers)
    requires TimesOk(s)
    ensures TimesOk(DecideNext(s))
  {
  }

  lemma TimesStep(s: Timers, e: Event)
    requires TimesOk(s)
    ensures TimesOk(Step(s, e))
  {
    match e {
      case Schedule(fn, after, now) => if s.clock <= now { TimesSchedule(s, fn, after, now); }
      case Decide => TimesDecide(s);
      case Unschedule(fn) => FewerTimes(s, UnscheduleFn(s, fn));
      case UnscheduleAt(fn, at) => FewerTimes(s, UnscheduleFnAt(s, fn, at));
      case Wake(noticed, now) => if s.phase.Waiting? && s.clock <= now { TimesWake(s, noticed, now); }
      case BatchDone =>
    }
  }

  // ---------- accounting ----------

  /** What became of the functions scheduled for one due time. */
  datatype Account = Account(scheduled: multiset<Fn>, pending: seq<Fn>, removed: multiset<Fn>, taken: multiset<Fn>)

  function At(s: Timers, t: nat): Account {
    Account(Record(s.scheduled, t), Listed(s.fnsByTime, t), Record(s.removed, t), Taken(s.batches, t))
  }

  /** Each function scheduled for the time is pending, removed or taken, exactly once. */
  predicate Balanced(a: Account) {
    a.scheduled == multiset(a.pending) + a.removed + a.taken
  }

  function ScheduledIn(a: Account, fn: Fn): Account {
    a.(scheduled := a.scheduled + multiset{fn}, pending := a.pending + [fn])
  }

  function TakenFrom(a: Account): Account {
    a.(pending := [], taken := a.taken + multiset(a.pending))
  }

  function RemovedFrom(a: Account, fn: Fn): Account {
    if fn !in a.pending then a
    else a.(pending := RemoveFirst(a.pending, fn), removed := a.removed + multiset{fn})
  }

  lemma {:induction false} RemoveFirstIs(fns: seq<Fn>, fn: Fn)
    ensures multiset(RemoveFirst(fns, fn)) == multiset(fns) - multiset{fn}
    ensures fn !in fns ==> RemoveFirst(fns, fn) == fns
  {
    if fns != [] {
      assert fns == [fns[0]] + fns[1..];
      RemoveFirstIs(fns[1..], fn);
    }
  }

  lemma BalanceKept(a: Account, fn: Fn)
    requires Balanced(a)
    ensures Balanced(ScheduledIn(a, fn)) && Balanced(TakenFrom(a))
  {
  }

  lemma RemovalKeepsBalance(a: Account, fn: Fn)
    requires Balanced(a)
    ensures Balanced(RemovedFrom(a, fn))
  {
    if fn in a.pending {
      RemoveFirstIs(a.pending, fn);
      var p := multiset(a.pending);
      assert p[fn] > 0;
      assert p == (p - multiset{fn}) + multiset{fn};
    }
  }

  lemma ScheduleAt(s: Timers, fn: Fn, after: nat, now: nat, t: nat)
    ensures At(ScheduleFn(s, fn, after, now), t) == if t == now + after then ScheduledIn(At(s, t), fn) else At(s, t)
  {
  }

  lemma WithoutIs(m: map<nat, seq<Fn>>, fn: Fn, t: nat)
    ensures Listed(Without(m, fn), t) == RemoveFirst(Listed(m, t), fn)
  {
  }

  lemma AddWhereListedIs(r: map<nat, multiset<Fn>>, m: map<nat, seq<Fn>>, fn: Fn, t: nat)
    ensures Record(AddWhereListed(r, m, fn), t) ==
              if fn in Listed(m, t) then Record(r, t) + multiset{fn} else Record(r, t)
  {
  }

  lemma UnscheduleFnIs(s: Timers, fn: Fn, t: nat)
    ensures At(UnscheduleFn(s, fn), t) == RemovedFrom(At(s, t), fn)
  {
    RemoveFirstIs(Listed(s.fnsByTime, t), fn);
    WithoutIs(s.fnsByTime, fn, t);
    AddWhereListedIs(s.removed, s.fnsByTime, fn, t);
  }

  lemma UnscheduleFnAtIs(s: Timers, fn: Fn, at: nat, t: nat)
    ensures At(UnscheduleFnAt(s, fn, at), t) == if t == at then RemovedFrom(At(s, t), fn) else At(s, t)
  {
  }

  lemma TakenMore(batches: seq<Batch>, b: Batch, t: nat)
    ensures Taken(batches + [b], t) == if b.due == t then Taken(batches, t) + multiset(b.fns) else Taken(batches, t)
  {
    assert (batches + [b])[..|batches|] == batches;
    assert Taken(batches, t) + multiset{} == Taken(batches, t);
  }

  lemma WakeAt(s: Timers, noticed: bool, now: nat, t: nat)
    ensures At(WakeUp(s, noticed, now), t) ==
              if s.nextTime == Some(t) && now >= t then TakenFrom(At(s, t)) else At(s, t)
  {
    if s.nextTime.Some? && now >= s.nextTime.value {
      var due := s.nextTime.value;
      TakenMore(s.batches, Batch(due, now, Listed(s.fnsByTime, due)), t);
      assert Listed(s.fnsByTime - {due}, t) == if t == due then [] else Listed(s.fnsByTime, t);
    }
  }

  lemma ScheduleBalances(s: Timers, fn: Fn, after: nat, now: nat, t: nat)
    requires Balanced(At(s, t))
    ensures Balanced(At(ScheduleFn(s, fn, after, now), t))
  {
    ScheduleAt(s, fn, after, now, t);
    BalanceKept(At(s, t), fn);
  }

  lemma UnscheduleBalances(s: Timers, fn: Fn, t: nat)
    requires Balanced(At(s, t))
    ensures Balanced(At(UnscheduleFn(s, fn), t))
  {
    UnscheduleFnIs(s, fn, t);
    RemovalKeepsBalance(At(s, t), fn);
  }

  lemma UnscheduleAtBalances(s: Timers, fn: Fn, at: nat, t: nat)
    requires Balanced(At(s, t))
    ensures Balanced(At(UnscheduleFnAt(s, fn, at), t))
  {
    UnscheduleFnAtIs(s, fn, at, t);
    RemovalKeepsBalance(At(s, t), fn);
  }

  lemma WakeBalances(s: Timers, noticed: bool, now: nat, t: nat)
    requires Balanced(At(s, t))
    ensures Balanced(At(WakeUp(s, noticed, now), t))
  {
    WakeAt(s, noticed, now, t);
    BalanceKept(At(s, t), 0);
  }

  lemma PhaseBalances(s: Timers, nextTime: Option<nat>, phase: Phase, t: nat)
    requires Balanced(At(s, t))
    ensures Balanced(At(s.(nextTime := nextTime, phase := phase), t))
  {
  }

  /** The ways in which an event can change anything. */
  lemma StepIs(s: Timers, e: Event)
    ensures var (s', next) := (Step(s, e), Least(s.fnsByTime.Keys));
            || s' == s
            || (e.Schedule? && s' == ScheduleFn(s, e.fn, e.after, e.now))
            || (e.Unschedule? && s' == UnscheduleFn(s, e.fn))
            || (e.UnscheduleAt? && s' == UnscheduleFnAt(s, e.fn, e.at))
            || (e.Wake? && s' == WakeUp(s, e.noticed, e.now))
            || (e.Decide? && s' == s.(nextTime := next, phase := Waiting(next)))
            || (e.BatchDone? && s' == s.(phase := Deciding))
  {
  }

  lemma BalanceStep(s: Timers, e: Event, t: nat)
    requires Balanced(At(s, t))
    ensures Balanced(At(Step(s, e), t))
  {
    StepIs(s, e);
    match e {
      case Schedule(fn, after, now) => ScheduleBalances(s, fn, after, now, t);
      case Unschedule(fn) => UnscheduleBalances(s, fn, t);
      case UnscheduleAt(fn, at) => UnscheduleAtBalances(s, fn, at, t);
      case Decide => PhaseBalances(s, Least(s.fnsByTime.Keys), Waiting(Least(s.fnsByTime.Keys)), t);
      case Wake(noticed, now) => WakeBalances(s, noticed, now, t);
      case BatchDone => PhaseBalances(s, s.nextTime, Deciding, t);
    }
  }

  // ---------- whole runs ----------

  ghost predicate Inv(s: Timers) {
    && TimesOk(s)
    && (forall t :: Balanced(At(s, t)))
  }

  lemma {:induction false} RunOk(s: Timers, events: seq<Event>)
    requires Inv(s)
    ensures Inv(Run(s, events))
    decreases |events|
  {
    if events != [] {
      TimesStep(s, events[0]);
      forall t ensures Balanced(At(Step(s, events[0]), t)) {
        BalanceStep(s, events[0], t);
      }
      RunOk(Step(s, events[0]), events[1..]);
    }
  }

  /** In every run of the loop: functions are never taken before they are due, batches are taken in the order of their
    * due times, each function scheduled for a time is pending, removed or in a batch of that time, exactly once, and no
    * wakeup is lost. */
  lemma LoopKeepsItsPromises(start: nat, events: seq<Event>)
    ensures var s := Run(NewTimers(start), events);
            InOrder(s) && WakeOk(s) && NextOk(s) && forall t :: Balanced(At(s, t))
  {
    assert Inv(NewTimers(start));
    RunOk(NewTimers(start), events);
  }

  /** Unscheduling a function takes it away at every time once: it stays pending exactly where it was listed twice. */
  lemma UnscheduleTakesOneEach(s: Timers, fn: Fn, t: nat)
    ensures var (was, now) := (multiset(At(s, t).pending), multiset(At(UnscheduleFn(s, fn), t).pending));
            now == was - multiset{fn} && (fn in now <==> was[fn] >= 2)
  {
    UnscheduleFnIs(s, fn, t);
    RemoveFirstIs(At(s, t).pending, fn);
  }

  // ---------- wakeups ----------

  /** The wait ends because the event is set. */
  predicate WokenBy(s: Timers, e: Event) {
    e.Wake? && e.noticed && s.phase.Waiting? && s.clock <= e.now && s.changed
  }

  ghost function Woken(s: Timers, events: seq<Event>): nat
    decreases |events|
  {
    if events == [] then 0 else (if WokenBy(s, events[0]) then 1 else 0) + Woken(Step(s, events[0]), events[1..])
  }

  function Schedulings(events: seq<Event>): nat {
    if events == [] then 0 else (if events[0].Schedule? then 1 else 0) + Schedulings(events[1..])
  }

  /** The loop does not spin: in every run the event ends a wait at most once for each function that was scheduled. */
  lemma {:induction false} WokenOncePerScheduling(s: Timers, events: seq<Event>)
    ensures Woken(s, events) + (if Run(s, events).changed then 1 else 0)
         <= Schedulings(events) + (if s.changed then 1 else 0)
    decreases |events|
  {
    if events != [] {
      WokenOncePerScheduling(Step(s, events[0]), events[1..]);
    }
  }

  /** In every run scheduling sets the event only for a function that is due before all that are pending, and while the
    * loop waits then does set it if that is before the deadline. */
  lemma SchedulingWakes(start: nat, events: seq<Event>, fn: Fn, after: nat, now: nat)
    requires var s := Run(NewTimers(start), events); s.clock <= now && !s.changed
    ensures var (s, s') := (Run(NewTimers(start), events), Run(NewTimers(start), events + [Schedule(fn, after, now)]));
            && (s'.changed ==> forall t | t in s.fnsByTime :: now + after < t)
            && (s.phase.Waiting? ==> (s'.changed <==> s.phase.deadline.None? || now + after < s.phase.deadline.value))
  {
    var s := Run(NewTimers(start), events);
    LoopKeepsItsPromises(start, events);
    RunAppend(NewTimers(start), events, Schedule(fn, after, now));
  }

  lemma {:induction false} RunAppend(s: Timers, events: seq<Event>, e: Event)
    ensures Run(s, events + [e]) == Step(Run(s, events), e)
    decreases |events|
  {
    if events == [] {
      assert events + [e] == [e] && [e][1..] == [];
    } else {
      assert (events + [e])[1..] == events[1..] + [e];
      RunAppend(Step(s, events[0]), events[1..], e);
    }
  }

  /** A time that is pending has a function to run, so the loop is not woken for nothing. */
  ghost predicate NoEmptyLists(s: Timers) {
    forall t | t in s.fnsByTime :: s.fnsByTime[t] != []
  }

  lemma NoEmptyListsStep(s: Timers, e: Event)
    requires NoEmptyLists(s)
    ensures NoEmptyLists(Step(s, e))
  {
    StepIs(s, e);
    match e {
      case Schedule(fn, after, now) => assert NoEmptyLists(ScheduleFn(s, fn, after, now));
      case Unschedule(fn) => assert NoEmptyLists(UnscheduleFn(s, fn));
      case UnscheduleAt(fn, at) => assert NoEmptyLists(UnscheduleFnAt(s, fn, at));
      case Wake(noticed, now) => assert NoEmptyLists(WakeUp(s, noticed, now));
      case _ =>
    }
  }

  lemma {:induction false} PendingTimesHaveFunctions(s: Timers, events: seq<Event>)
    requires NoEmptyLists(s)
    ensures NoEmptyLists(Run(s, events))
    decreases |events|
  {
    if events != [] {
      NoEmptyListsStep(s, events[0]);
      PendingTimesHaveFunctions(Step(s, events[0]), events[1..]);
    }
  }

  // ---------- everything due is taken ----------

  /** So many times: decide, wait until `now`, run the batch. */
  function Rounds(now: nat, n: nat): seq<Event> {
    if n == 0 then [] else [Decide, Wake(false, now), BatchDone] + Rounds(now, n - 1)
  }

  ghost function Due(m: map<nat, seq<Fn>>, now: nat): set<nat> {
    set t | t in m.Keys && t <= now
  }

  /** The batches are the lists that are due, in the order of their times, each complete and as it was scheduled. */
  ghost predicate TakesAllDue(batches: seq<Batch>, m: map<nat, seq<Fn>>, now: nat) {
    && (forall b | b in batches :: b.due in Due(m, now) && b.at == now && b.fns == m[b.due])
    && (forall i, j | 0 <= i < j < |batches| :: batches[i].due < batches[j].due)
    && (forall t | t in Due(m, now) :: Batch(t, now, m[t]) in batches)
  }

  function TakeList(s: Timers, t: nat, now: nat): Timers
    requires t in s.fnsByTime
  {
    s.(fnsByTime := s.fnsByTime - {t}, nextTime := Some(t), clock := now,
       batches := s.batches + [Batch(t, now, s.fnsByTime[t])])
  }

  lemma RoundTakesLeast(s: Timers, now: nat) returns (t: nat)
    requires s.phase.Deciding? && s.clock <= now && Due(s.fnsByTime, now) != {}
    ensures IsLeast(s.fnsByTime.Keys, t) && t <= now
    ensures Step(Step(Step(s, Decide), Wake(false, now)), BatchDone) == TakeList(s, t, now)
  {
    var u :| u in Due(s.fnsByTime, now);
    assert u in s.fnsByTime.Keys;
    t := Least(s.fnsByTime.Keys).value;
  }

  lemma RunRound(s: Timers, now: nat, n: nat)
    ensures Run(s, Rounds(now, n + 1)) == Run(Step(Step(Step(s, Decide), Wake(false, now)), BatchDone), Rounds(now, n))
  {
    var es := Rounds(now, n + 1);
    var s1 := Step(s, Decide);
    var s2 := Step(s1, Wake(false, now));
    assert es[0] == Decide && es[1..][0] == Wake(false, now) && es[1..][1..][0] == BatchDone;
    assert es[1..][1..][1..] == Rounds(now, n);
    assert Run(s2, es[1..][1..]) == Run(Step(s2, BatchDone), Rounds(now, n));
    assert Run(s1, es[1..]) == Run(s2, es[1..][1..]);
  }

  lemma TakesOneMore(batches: seq<Batch>, m: map<nat, seq<Fn>>, now: nat, t: nat)
    requires IsLeast(m.Keys, t) && t <= now && TakesAllDue(batches, m - {t}, now)
    ensures TakesAllDue([Batch(t, now, m[t])] + batches, m, now)
  {
    var all := [Batch(t, now, m[t])] + batches;
    forall i, j | 0 <= i < j < |all| ensures all[i].due < all[j].due {
      assert batches[j - 1] in batches;
      if i > 0 {
        assert all[i] == batches[i - 1];
      }
    }
    forall u | u in Due(m, now) ensures Batch(u, now, m[u]) in all {
      if u == t {
        assert all[0] == Batch(u, now, m[u]);
      } else {
        assert u in Due(m - {t}, now);
      }
    }
  }

  function Later(m: map<nat, seq<Fn>>, now: nat): map<nat, seq<Fn>> {
    map t | t in m && t > now :: m[t]
  }

  lemma LeastIsDue(m: map<nat, seq<Fn>>, now: nat, t: nat)
    requires t in m && t <= now
    ensures Due(m - {t}, now) == Due(m, now) - {t} && Later(m - {t}, now) == Later(m, now)
    ensures |Due(m, now)| == |Due(m - {t}, now)| + 1
  {
  }

  ghost predicate TookAllDue(s: Timers, s': Timers, now: nat) {
    && s'.fnsByTime == Later(s.fnsByTime, now)
    && s.batches <= s'.batches && TakesAllDue(s'.batches[|s.batches|..], s.fnsByTime, now)
  }

  lemma NothingDue(s: Timers, now: nat)
    requires Due(s.fnsByTime, now) == {}
    ensures TookAllDue(s, s, now)
  {
    assert forall t | t in s.fnsByTime.Keys :: t !in Due(s.fnsByTime, now) && t > now;
  }

  lemma TookOneMore(s: Timers, t: nat, s': Timers, now: nat)
    requires IsLeast(s.fnsByTime.Keys, t) && t <= now && TookAllDue(TakeList(s, t, now), s', now)
    ensures TookAllDue(s, s', now)
  {
    var (m, n) := (s.fnsByTime, |s.batches|);
    LeastIsDue(m, now, t);
    TakesOneMore(s'.batches[n + 1..], m, now, t);
    assert s'.batches[n..] == [Batch(t, now, m[t])] + s'.batches[n + 1..];
  }

  /** Left alone until `now`, the loop takes in as many rounds as there are times due exactly what is due, in the order
    * of the times, and leaves exactly the rest. */
  lemma {:induction false} EverythingDueIsTaken(s: Timers, now: nat)
    requires s.phase.Deciding? && s.clock <= now
    ensures TookAllDue(s, Run(s, Rounds(now, |Due(s.fnsByTime, now)|)), now)
    decreases |Due(s.fnsByTime, now)|
  {
    if Due(s.fnsByTime, now) == {} {
      NothingDue(s, now);
    } else {
      var t := RoundTakesLeast(s, now);
      LeastIsDue(s.fnsByTime, now, t);
      EverythingDueIsTaken(TakeList(s, t, now), now);
      var n := |Due(s.fnsByTime - {t}, now)|;
      RunRound(s, now, n);
      TookOneMore(s, t, Run(TakeList(s, t, now), Rounds(now, n)), now);
    }
  }

  // ---------- the class ----------

  /** What unscheduling leaves when the times in `rest` are still to be looked at. */
  function PartlyWithout(m: map<nat, seq<Fn>>, rest: set<nat>, fn: Fn): map<nat, seq<Fn>> {
    map t | t in m && (t in rest || RemoveFirst(m[t], fn) != []) :: if t in rest then m[t] else RemoveFirst(m[t], fn)
  }

  lemma PartlyWithoutOneMore(m: map<nat, seq<Fn>>, rest: set<nat>, fn: Fn, t: nat)
    requires t in rest && t in m
    ensures var (now, fns) := (PartlyWithout(m, rest, fn), RemoveFirst(m[t], fn));
            PartlyWithout(m, rest - {t}, fn) == if fns == [] then now - {t} else now[t := fns]
  {
  }

  class TimerList {
    var fnsByTime: map<nat, seq<Fn>>
    var nextTime: Option<nat>
    var changed: bool
    ghost var phase: Phase
    ghost var clock: nat
    ghost var scheduled: map<nat, multiset<Fn>>
    ghost var removed: map<nat, multiset<Fn>>
    ghost var batches: seq<Batch>

    ghost function View(): Timers
      reads this
    {
      Timers(fnsByTime, nextTime, changed, phase, clock, scheduled, removed, batches)
    }

    constructor (now: nat)
      ensures View() == NewTimers(now)
    {
      fnsByTime, nextTime, changed := map[], None, false;
      phase, clock, scheduled, removed, batches := Deciding, now, map[], map[], [];
    }

    method Schedule(fn: Fn, after: nat, now: nat)
      modifies this
      ensures View() == ScheduleFn(old(View()), fn, after, now)
    {
      var t := now + after;
      fnsByTime := fnsByTime[t := Listed(fnsByTime, t) + [fn]];
      WakeSooner(t);
      Recorded(t, fn, now);
      ghost var s := ScheduleFn(old(View()), fn, after, now);
      assert fnsByTime == s.fnsByTime && scheduled == s.scheduled;
      assert nextTime == s.nextTime && changed == s.changed;
    }

    /** The event is set if there is nothing to wait for sooner. */
    method WakeSooner(t: nat)
      modifies `nextTime, `changed
      ensures var sooner := old(nextTime).None? || t < old(nextTime).value;
              && nextTime == (if sooner then Some(t) else old(nextTime)) && changed == (old(changed) || sooner)
    {
      if nextTime.None? || t < nextTime.value {
        nextTime, changed := Some(t), true;
      }
    }

    ghost method Recorded(t: nat, fn: Fn, now: nat)
      modifies `clock, `scheduled
      ensures clock == now && scheduled == Add(old(scheduled), t, multiset{fn})
    {
      clock := now;
      scheduled := Add(scheduled, t, multiset{fn});
    }

    /** Taking the first occurrence out of one list in place, and the list out when nothing is left. */
    method RemoveAt(fn: Fn, t: nat)
      requires t in fnsByTime
      modifies `fnsByTime
      ensures fnsByTime == var fns := RemoveFirst(old(fnsByTime)[t], fn);
                           if fns == [] then old(fnsByTime) - {t} else old(fnsByTime)[t := fns]
    {
      var fns := fnsByTime[t];
      RemoveFirstIs(fns, fn);
      if fn in fns {
        fns := RemoveFirst(fns, fn);
      }
      fnsByTime := if fns == [] then fnsByTime - {t} else fnsByTime[t := fns];
    }

    method Unschedule(fn: Fn)
      modifies this
      ensures View() == UnscheduleFn(old(View()), fn)
    {
      var before := fnsByTime;
      var rest := before.Keys;
      while rest != {}
        modifies `fnsByTime
        invariant rest <= before.Keys
        invariant fnsByTime == PartlyWithout(before, rest, fn)
        decreases |rest|
      {
        var t :| t in rest;
        RemoveAt(fn, t);
        PartlyWithoutOneMore(before, rest, fn, t);
        rest := rest - {t};
      }
      assert PartlyWithout(before, {}, fn) == Without(before, fn);
      removed := AddWhereListed(removed, before, fn);
    }

    method UnscheduleAt(fn: Fn, at: nat)
      modifies this
      ensures View() == UnscheduleFnAt(old(View()), fn, at)
    {
      if at in fnsByTime && fn in fnsByTime[at] {
        var fns := RemoveFirst(fnsByTime[at], fn);
        fnsByTime := if fns == [] then fnsByTime - {at} else fnsByTime[at := fns];
        removed := Add(removed, at, multiset{fn});
      }
    }

    /** The loop over all times; the wait that follows is until what it finds. */
    method Decide()
      modifies this
      ensures View() == DecideNext(old(View()))
    {
      nextTime := None;
      var rest := fnsByTime.Keys;
      while rest != {}
        modifies `nextTime
        invariant rest <= fnsByTime.Keys
        invariant nextTime.Some? ==> nextTime.value in fnsByTime
        invariant forall u | u in fnsByTime && u !in rest :: nextTime.Some? && nextTime.value <= u
        decreases |rest|
      {
        var t :| t in rest;
        rest := rest - {t};
        if nextTime.None? || t < nextTime.value {
          nextTime := Some(t);
        }
      }
      phase := Waiting(nextTime);
      assert nextTime.Some? ==> IsLeast(fnsByTime.Keys, nextTime.value);
    }

    /** After the wait; the caller runs the functions of the batch. */
    method Wake(noticed: bool, now: nat) returns (batch: seq<Fn>)
      modifies this
      ensures View() == WakeUp(old(View()), noticed, now)
      ensures batch == if old(nextTime).Some? && now >= old(nextTime).value
            then Listed(old(fnsByTime), old(nextTime).value) else []
    {
      if noticed {
        changed := false;
      }
      clock := now;
      batch := [];
      if nextTime.Some? && now >= nextTime.value {
        var t := nextTime.value;
        batch := if t in fnsByTime then fnsByTime[t] else [];
        fnsByTime := fnsByTime - {t};
        phase, batches := Running, batches + [Batch(t, now, batch)];
      } else {
        phase := Deciding;
      }
    }
  }
}
