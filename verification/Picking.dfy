/** Parts of a sequence: the elements that qualify, in order. */
module Picking {

  predicate Ascending(at: seq<nat>) {
    forall i, j | 0 <= i < j < |at| :: at[i] < at[j]
  }

  /** `part` is what `whole` holds at the places `at`, in ascending order, and these are all the places that qualify. */
  ghost predicate PickedAt<T(!new)>(part: seq<T>, whole: seq<T>, qualifies: T -> bool, at: seq<nat>) {
    && |at| == |part| && Ascending(at)
    && (forall i | 0 <= i < |at| :: at[i] < |whole| && part[i] == whole[at[i]])
    && (forall k: nat | k < |whole| :: k in at <==> qualifies(whole[k]))
  }

  /** All the elements that qualify, and no others, in their order. */
  ghost predicate Picked<T(!new)>(part: seq<T>, whole: seq<T>, qualifies: T -> bool) {
    exists at :: PickedAt(part, whole, qualifies, at)
  }

  lemma PickedMembers<T(!new)>(part: seq<T>, whole: seq<T>, qualifies: T -> bool)
    requires Picked(part, whole, qualifies)
    ensures forall e :: e in part <==> e in whole && qualifies(e)
  {
    var at :| PickedAt(part, whole, qualifies, at);
    forall e | e in part ensures e in whole && qualifies(e) {
      var i :| 0 <= i < |part| && part[i] == e;
      assert at[i] in at;
    }
    forall e | e in whole && qualifies(e) ensures e in part {
      var k :| 0 <= k < |whole| && whole[k] == e;
      assert k in at;
    }
  }

  /** The same places, counted with one more element in front. */
  function Shifted(at: seq<nat>): (r: seq<nat>)
    ensures |r| == |at| && forall i | 0 <= i < |at| :: r[i] == at[i] + 1
  {
    seq(|at|, i requires 0 <= i < |at| => at[i] + 1)
  }

  lemma ShiftedHas(at: seq<nat>, k: nat)
    ensures k + 1 in Shifted(at) <==> k in at
  {
    if k in at {
      var i :| 0 <= i < |at| && at[i] == k;
      assert Shifted(at)[i] == k + 1;
    }
  }

  lemma PickedBehind<T(!new)>(part: seq<T>, whole: seq<T>, qualifies: T -> bool, at: seq<nat>, e: T)
    requires PickedAt(part, whole, qualifies, at) && !qualifies(e)
    ensures Picked(part, [e] + whole, qualifies)
  {
    AscendingToo(at);
    forall k: nat | k < |whole| + 1 ensures k in Shifted(at) <==> qualifies(([e] + whole)[k]) {
      if k > 0 {
        ShiftedHas(at, k - 1);
        assert k - 1 in at <==> qualifies(whole[k - 1]);
      }
    }
    assert PickedAt(part, [e] + whole, qualifies, Shifted(at));
  }

  lemma PlacesToo<T(!new)>(part: seq<T>, whole: seq<T>, qualifies: T -> bool, at: seq<nat>, e: T, k: nat)
    requires PickedAt(part, whole, qualifies, at) && qualifies(e) && k < |whole| + 1
    ensures k in [0] + Shifted(at) <==> qualifies(([e] + whole)[k])
  {
    if k == 0 {
      assert ([0] + Shifted(at))[0] == k;
    } else {
      ShiftedHas(at, k - 1);
      assert k - 1 in at <==> qualifies(whole[k - 1]);
      assert k in [0] + Shifted(at) <==> k in Shifted(at);
    }
  }

  lemma ValueToo<T(!new)>(part: seq<T>, whole: seq<T>, at: seq<nat>, e: T, i: nat)
    requires i < |at| + 1 == |part| + 1 && (i > 0 ==> at[i - 1] < |whole| && part[i - 1] == whole[at[i - 1]])
    ensures var at' := [0] + Shifted(at);
            at'[i] < |whole| + 1 && ([e] + part)[i] == ([e] + whole)[at'[i]]
  {
  }

  lemma AscendingToo(at: seq<nat>)
    requires Ascending(at)
    ensures Ascending(Shifted(at)) && Ascending([0] + Shifted(at))
  {
    var at' := [0] + Shifted(at);
    assert forall i | 0 < i < |at'| :: at'[i] == at[i - 1] + 1;
  }

  lemma PickedToo<T(!new)>(part: seq<T>, whole: seq<T>, qualifies: T -> bool, at: seq<nat>, e: T)
    requires PickedAt(part, whole, qualifies, at) && qualifies(e)
    ensures Picked([e] + part, [e] + whole, qualifies)
  {
    var at' := [0] + Shifted(at);
    AscendingToo(at);
    forall k: nat | k < |whole| + 1 ensures k in at' <==> qualifies(([e] + whole)[k]) {
      PlacesToo(part, whole, qualifies, at, e, k);
    }
    forall i | 0 <= i < |at'| ensures at'[i] < |whole| + 1 && ([e] + part)[i] == ([e] + whole)[at'[i]] {
      ValueToo(part, whole, at, e, i);
    }
    assert PickedAt([e] + part, [e] + whole, qualifies, at');
  }

  /** One more element in front. */
  lemma PickedCons<T(!new)>(part: seq<T>, whole: seq<T>, qualifies: T -> bool, e: T)
    requires Picked(part, whole, qualifies)
    ensures qualifies(e) ==> Picked([e] + part, [e] + whole, qualifies)
    ensures !qualifies(e) ==> Picked(part, [e] + whole, qualifies)
  {
    var at :| PickedAt(part, whole, qualifies, at);
    if qualifies(e) {
      PickedToo(part, whole, qualifies, at, e);
    } else {
      PickedBehind(part, whole, qualifies, at, e);
    }
  }
}
