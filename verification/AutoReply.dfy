/** What a connection answers by itself (py/vlmessaging/_core.py, the second half of Connection._deliver): the
  * instruction lists that handlers return, the notices of connections without a handler, and why such answers die
  * out on a router, or do not.
  */
module AutoReply {
  import opened Wrappers
  import opened Messaging
  import opened Picking

  const PING := "PING"
  const SHUTDOWN := "SHUTDOWN"
  const DOES_NOT_UNDERSTAND := "DOES_NOT_UNDERSTAND"

  datatype Instruction =
    | IgnoreUnhandledReplies
    | HandlePing
    | HandleShutdown
    | HandleDoesNotUnderstand
    | Unknown(name: string)

  /** `replies` are sent in order; `raised` is the SyntaxError for an unknown instruction. */
  datatype Treatment = Treatment(replies: seq<Msg>, handled: bool, shutdown: bool, raised: bool)

  /** The loop over the instructions from `t` on. */
  function Follow(m: Msg, list: seq<Instruction>, t: Treatment): Treatment
    decreases |list|
  {
    if list == [] then t
    else
      match list[0]
      case IgnoreUnhandledReplies => if IsReply(m) then t.(handled := true) else Follow(m, list[1..], t)
      case HandlePing =>
        Follow(m, list[1..], if m.subject == PING && !IsReply(m)
                           then t.(replies := t.replies + [Reply(m, m.subject, "")], handled := true) else t)
      case HandleShutdown =>
        Follow(m, list[1..], if m.subject == SHUTDOWN && !IsReply(m) then t.(handled := true, shutdown := true) else t)
      case HandleDoesNotUnderstand =>
        Follow(m, list[1..], if m.subject == DOES_NOT_UNDERSTAND then t.(handled := true)
                           else t.(replies := t.replies + [Reply(m, DOES_NOT_UNDERSTAND, m.subject)], handled := true))
      case Unknown(_) => t.(raised := true)
  }

  function Treat(m: Msg, list: seq<Instruction>): Treatment {
    Follow(m, list, Treatment([], false, false, false))
  }

  method FollowInstructions(m: Msg, list: seq<Instruction>) returns (t: Treatment)
    ensures t == Treat(m, list)
  {
    t := Treatment([], false, false, false);
    var i := 0;
    while i < |list|
      invariant 0 <= i <= |list|
      invariant Follow(m, list[i..], t) == Treat(m, list)
    {
      assert list[i..][1..] == list[i + 1..];
      match list[i] {
        case IgnoreUnhandledReplies =>
          if m.replyId.Some? {
            t := t.(handled := true);
            return;
          }
        case HandlePing =>
          if m.subject == PING && m.replyId.None? {
            t := t.(replies := t.replies + [Reply(m, m.subject, "")], handled := true);
          }
        case HandleShutdown =>
          if m.subject == SHUTDOWN && m.replyId.None? {
            t := t.(handled := true, shutdown := true);
          }
        case HandleDoesNotUnderstand =>
          if m.subject == DOES_NOT_UNDERSTAND {
            t := t.(handled := true);
          } else {
            t := t.(replies := t.replies + [Reply(m, DOES_NOT_UNDERSTAND, m.subject)], handled := true);
          }
        case Unknown(_) =>
          t := t.(raised := true);
          return;
      }
      i := i + 1;
    }
  }

  // ---------- which lists keep quiet about replies ----------

  /** IGNORE_UNHANDLED_REPLIES (or an error) comes before any HANDLE_DOES_NOT_UNDERSTAND. */
  predicate IgnoresFirst(list: seq<Instruction>) {
    list == [] || list[0].IgnoreUnhandledReplies? || list[0].Unknown?
    || (!list[0].HandleDoesNotUnderstand? && IgnoresFirst(list[1..]))
  }

  lemma {:induction false} FollowGrows(m: Msg, list: seq<Instruction>, t: Treatment)
    ensures t.replies <= Follow(m, list, t).replies
    ensures forall r | r in Follow(m, list, t).replies :: r in t.replies || r == Reply(m, r.subject, r.contents)
    decreases |list|
  {
    if list != [] {
      var t1 := t.(replies := t.replies + [Reply(m, m.subject, "")], handled := true);
      var t2 := t.(replies := t.replies + [Reply(m, DOES_NOT_UNDERSTAND, m.subject)], handled := true);
      FollowGrows(m, list[1..], t);
      FollowGrows(m, list[1..], t1);
      FollowGrows(m, list[1..], t2);
      FollowGrows(m, list[1..], t.(handled := true));
      FollowGrows(m, list[1..], t.(handled := true, shutdown := true));
    }
  }

  lemma {:induction false} QuietOnReply(m: Msg, list: seq<Instruction>, t: Treatment)
    requires IsReply(m)
    ensures IgnoresFirst(list) ==> Follow(m, list, t).replies == t.replies
    ensures !IgnoresFirst(list) && m.subject != DOES_NOT_UNDERSTAND ==> |Follow(m, list, t).replies| > |t.replies|
    decreases |list|
  {
    if list != [] {
      if list[0].HandleDoesNotUnderstand? {
        var t1 := t.(replies := t.replies + [Reply(m, DOES_NOT_UNDERSTAND, m.subject)], handled := true);
        FollowGrows(m, list[1..], t1);
      } else {
        QuietOnReply(m, list[1..], t);
      }
    }
  }

  /** A list never answers a reply exactly when it ignores unhandled replies before it says it does not understand. */
  lemma QuietExactly(list: seq<Instruction>, m: Msg)
    requires IsReply(m) && m.subject != DOES_NOT_UNDERSTAND
    ensures Treat(m, list).replies == [] <==> IgnoresFirst(list)
  {
    QuietOnReply(m, list, Treatment([], false, false, false));
  }

  /** The instructions that answer a PING: those for PING and for what is not understood, as far as the loop gets. */
  function Answering(list: seq<Instruction>): nat {
    if list == [] || list[0].Unknown? then 0
    else (if list[0].HandlePing? || list[0].HandleDoesNotUnderstand? then 1 else 0) + Answering(list[1..])
  }

  lemma {:induction false} PingAnswers(m: Msg, list: seq<Instruction>, t: Treatment)
    requires m.subject == PING && !IsReply(m)
    ensures |Follow(m, list, t).replies| == |t.replies| + Answering(list)
    decreases |list|
  {
    if list != [] {
      match list[0] {
        case IgnoreUnhandledReplies => PingAnswers(m, list[1..], t);
        case HandlePing => PingAnswers(m, list[1..],
            t.(replies := t.replies + [Reply(m, m.subject, "")], handled := true));
        case HandleShutdown => PingAnswers(m, list[1..], t);
        case HandleDoesNotUnderstand =>
          PingAnswers(m, list[1..],
                      t.(replies := t.replies + [Reply(m, DOES_NOT_UNDERSTAND, m.subject)], handled := true));
        case Unknown(_) =>
      }
    }
  }

  /** Nothing ends the loop after HANDLE_PING: a PING is answered as often as the list has instructions for PING and for
    * what is not understood before an unknown one, and so exactly once if and only if there is one such. */
  lemma PingIsAnsweredOnceExactly(m: Msg, list: seq<Instruction>)
    requires m.subject == PING && !IsReply(m)
    ensures |Treat(m, list).replies| == Answering(list)
    ensures (exists r :: Treat(m, list).replies == [r]) <==> Answering(list) == 1
  {
    PingAnswers(m, list, Treatment([], false, false, false));
    var replies := Treat(m, list).replies;
    if |replies| == 1 {
      assert replies == [replies[0]];
    }
  }

  /** So the usual list answers a PING twice. */
  lemma PingIsAnsweredTwice(m: Msg)
    requires m.subject == PING && !IsReply(m)
    ensures |Treat(m, [IgnoreUnhandledReplies, HandlePing, HandleDoesNotUnderstand]).replies| == 2
  {
    var list := [IgnoreUnhandledReplies, HandlePing, HandleDoesNotUnderstand];
    PingIsAnsweredOnceExactly(m, list);
    assert list[1..] == [HandlePing, HandleDoesNotUnderstand] && list[1..][1..] == [HandleDoesNotUnderstand];
    assert list[1..][1..][1..] == [];
  }

  // ---------- what a list does ----------

  /** The instructions that end the loop. */
  predicate Stops(i: Instruction, m: Msg) {
    i.Unknown? || (i.IgnoreUnhandledReplies? && m.replyId.Some?)
  }

  /** Those that answer: a PING that is no reply, or anything but DOES_NOT_UNDERSTAND. */
  predicate Answers(i: Instruction, m: Msg) {
    || (i.HandlePing? && m.subject == "PING" && m.replyId.None?)
    || (i.HandleDoesNotUnderstand? && m.subject != "DOES_NOT_UNDERSTAND")
  }

  /** The reply to m that the instruction makes. */
  predicate IsAnswer(r: Msg, i: Instruction, m: Msg) {
    && r.toAddr == m.replyAddr && r.replyId == m.msgId && r.cause == m.origin
    && r.subject == (if i.HandlePing? then "PING" else "DOES_NOT_UNDERSTAND")
    && r.contents == (if i.HandlePing? then "" else m.subject)
  }

  /** The replies from number n on are the answers of these instructions, in order. */
  predicate AnswersInOrder(replies: seq<Msg>, n: nat, answering: seq<Instruction>, m: Msg) {
    |replies| == n + |answering| && forall j | 0 <= j < |answering| :: IsAnswer(replies[n + j], answering[j], m)
  }

  /** What one instruction does that does not end the loop. */
  lemma FollowFirst(m: Msg, list: seq<Instruction>, t: Treatment) returns (t1: Treatment)
    requires list != [] && !Stops(list[0], m)
    ensures Follow(m, list, t) == Follow(m, list[1..], t1)
    ensures if Answers(list[0], m) then exists r :: t1.replies == t.replies + [r] && IsAnswer(r, list[0], m)
            else t1.replies == t.replies
    ensures t1.raised == t.raised
    ensures t1.shutdown <==> t.shutdown || (list[0].HandleShutdown? && m.subject == "SHUTDOWN" && m.replyId.None?)
    ensures t1.handled <==>
              || t.handled || list[0].HandleDoesNotUnderstand?
              || (list[0].HandlePing? && m.subject == "PING" && m.replyId.None?)
              || (list[0].HandleShutdown? && m.subject == "SHUTDOWN" && m.replyId.None?)
  {
    var (ping, dnu) := (Reply(m, m.subject, ""), Reply(m, DOES_NOT_UNDERSTAND, m.subject));
    var handled := t.(handled := true);
    match list[0] {
      case IgnoreUnhandledReplies => t1 := t;
      case HandlePing =>
        t1 := if m.subject == PING && !IsReply(m) then handled.(replies := t.replies + [ping]) else t;
      case HandleShutdown => t1 := if m.subject == SHUTDOWN && !IsReply(m) then handled.(shutdown := true) else t;
      case HandleDoesNotUnderstand =>
        t1 := if m.subject == DOES_NOT_UNDERSTAND then handled else handled.(replies := t.replies + [dnu]);
    }
    if Answers(list[0], m) {
      assert IsAnswer(if list[0].HandlePing? then ping else dnu, list[0], m);
    }
  }

  lemma AnswersCons(replies: seq<Msg>, before: seq<Msg>, r: Msg, i: Instruction, rest: seq<Instruction>, m: Msg)
    requires before + [r] <= replies && IsAnswer(r, i, m) && AnswersInOrder(replies, |before| + 1, rest, m)
    ensures AnswersInOrder(replies, |before|, [i] + rest, m)
  {
    assert replies[|before|] == (before + [r])[|before|] == r;
    forall j | 0 < j < |rest| + 1 ensures IsAnswer(replies[|before| + j], ([i] + rest)[j], m) {
      assert IsAnswer(replies[(|before| + 1) + (j - 1)], rest[j - 1], m);
    }
  }

  lemma {:induction false} FollowAnswers(m: Msg, list: seq<Instruction>, t: Treatment, k: nat)
    returns (answering: seq<Instruction>)
    requires k <= |list| && (forall j | 0 <= j < k :: !Stops(list[j], m)) && (k < |list| ==> Stops(list[k], m))
    ensures Picked(answering, list[..k], i => Answers(i, m))
    ensures t.replies <= Follow(m, list, t).replies
    ensures AnswersInOrder(Follow(m, list, t).replies, |t.replies|, answering, m)
    decreases |list|
  {
    if k == 0 {
      answering := [];
      assert PickedAt(answering, list[..k], i => Answers(i, m), []);
    } else {
      var t1 := FollowFirst(m, list, t);
      var rest := FollowAnswers(m, list[1..], t1, k - 1);
      assert list[..k] == [list[0]] + list[1..][..k - 1];
      PickedCons(rest, list[1..][..k - 1], i => Answers(i, m), list[0]);
      answering := rest;
      if Answers(list[0], m) {
        var r :| t1.replies == t.replies + [r] && IsAnswer(r, list[0], m);
        AnswersCons(Follow(m, list, t).replies, t.replies, r, list[0], rest, m);
        answering := [list[0]] + rest;
      }
    }
  }

  lemma {:induction false} FollowFlags(m: Msg, list: seq<Instruction>, t: Treatment, k: nat)
    requires k <= |list| && (forall j | 0 <= j < k :: !Stops(list[j], m)) && (k < |list| ==> Stops(list[k], m))
    ensures var f := Follow(m, list, t);
            && (f.raised <==> t.raised || (k < |list| && list[k].Unknown?))
            && (f.shutdown <==>
                  t.shutdown || (HandleShutdown in list[..k] && m.subject == "SHUTDOWN" && m.replyId.None?))
            && (f.handled <==>
                  || t.handled || (k < |list| && list[k].IgnoreUnhandledReplies?)
                  || HandleDoesNotUnderstand in list[..k]
                  || (HandlePing in list[..k] && m.subject == "PING" && m.replyId.None?)
                  || (HandleShutdown in list[..k] && m.subject == "SHUTDOWN" && m.replyId.None?))
    decreases |list|
  {
    if k > 0 {
      assert list[..k] == [list[0]] + list[1..][..k - 1];
      var t1 := FollowFirst(m, list, t);
      FollowFlags(m, list[1..], t1, k - 1);
    }
  }

  /** What a list does with any message: up to the first instruction that ends the loop, each one that answers makes one
    * reply to the message, in the order of the list. A PING is answered by PING, what is not understood by
    * DOES_NOT_UNDERSTAND. A SHUTDOWN that is no reply shuts down, and an unknown instruction raises. */
  lemma ListDoes(m: Msg, list: seq<Instruction>, k: nat) returns (answering: seq<Instruction>)
    requires k <= |list| && (forall j | 0 <= j < k :: !Stops(list[j], m)) && (k < |list| ==> Stops(list[k], m))
    ensures var t := Treat(m, list);
            && Picked(answering, list[..k], i => Answers(i, m)) && AnswersInOrder(t.replies, 0, answering, m)
            && (t.raised <==> k < |list| && list[k].Unknown?)
            && (t.shutdown <==> HandleShutdown in list[..k] && m.subject == "SHUTDOWN" && m.replyId.None?)
            && (t.handled <==>
                  || (k < |list| && list[k].IgnoreUnhandledReplies?)
                  || HandleDoesNotUnderstand in list[..k]
                  || (HandlePing in list[..k] && m.subject == "PING" && m.replyId.None?)
                  || t.shutdown)
  {
    answering := FollowAnswers(m, list, Treatment([], false, false, false), k);
    FollowFlags(m, list, Treatment([], false, false, false), k);
  }

  // ---------- lists that do answer replies ----------

  /** Whatever answers a reply says that it was not understood. */
  lemma {:induction false} RepliesToReply(m: Msg, list: seq<Instruction>, t: Treatment)
    requires IsReply(m) && forall r | r in t.replies :: r.subject == DOES_NOT_UNDERSTAND && r.toAddr == m.replyAddr
    ensures forall r | r in Follow(m, list, t).replies :: r.subject == DOES_NOT_UNDERSTAND && r.toAddr == m.replyAddr
    ensures m.subject == DOES_NOT_UNDERSTAND ==> Follow(m, list, t).replies == t.replies
    decreases |list|
  {
    if list != [] {
      RepliesToReply(m, list[1..], t);
      RepliesToReply(m, list[1..], t.(handled := true));
      RepliesToReply(m, list[1..],
                     t.(replies := t.replies + [Reply(m, DOES_NOT_UNDERSTAND, m.subject)], handled := true));
    }
  }
}
