/** Temporary logger levels by pattern (py/vlmessaging/_utils/logging.py: configure).
  *
  * The loggers that exist are a map from name to level, the root logger under the empty name. A logger is created with
  * level 0 when it is first asked for.
  */
module LoggingConfigure {

  type Loggers = map<string, int>

  /** One item of the dictionary given to `configure`. */
  datatype Setting = Setting(pattern: string, level: int)

  predicate IsWildcard(p: string) {
    |p| >= 2 && p[|p| - 2..] == ".*"
  }

  /** What a wildcard asks names to begin with: the pattern without its asterisk. */
  function Prefix(p: string): string
    requires IsWildcard(p)
  {
    p[..|p| - 1]
  }

  predicate Matches(p: string, name: string) {
    if p == "*" then true
    else if IsWildcard(p) then name == Prefix(p) || Prefix(p) <= name
    else name == p
  }

  // ---------- the order of the patterns ----------

  predicate Less(a: string, b: string) {
    b != "" && (a == "" || a[0] < b[0] || (a[0] == b[0] && Less(a[1..], b[1..])))
  }

  /** The sort key: '*' first, then wildcards, then names, and alphabetically among each. */
  predicate Before(p: string, q: string) {
    var p0, q0, p1, q1 := p != "*", q != "*", !IsWildcard(p), !IsWildcard(q);
    if p0 != q0 then q0 else if p1 != q1 then q1 else Less(p, q)
  }

  function Inserted(x: Setting, sorted: seq<Setting>): seq<Setting> {
    if sorted == [] || Before(x.pattern, sorted[0].pattern) then [x] + sorted
    else [sorted[0]] + Inserted(x, sorted[1..])
  }

  function Sorted(settings: seq<Setting>): seq<Setting> {
    if settings == [] then [] else Inserted(settings[0], Sorted(settings[1..]))
  }

  /** A dictionary has each key once. */
  predicate Distinct(settings: seq<Setting>) {
    forall i, j | 0 <= i < j < |settings| :: settings[i].pattern != settings[j].pattern
  }

  predicate Ascending(settings: seq<Setting>) {
    forall i, j | 0 <= i < j < |settings| :: Before(settings[i].pattern, settings[j].pattern)
  }

  lemma {:induction false} LessIsTotal(a: string, b: string)
    ensures a == b || Less(a, b) || Less(b, a)
    ensures !(Less(a, b) && Less(b, a)) && !Less(a, a)
  {
    if a != "" && b != "" {
      assert a == [a[0]] + a[1..] && b == [b[0]] + b[1..];
      LessIsTotal(a[1..], b[1..]);
    }
    if a != "" {
      LessIsTotal(a[1..], a[1..]);
    }
  }

  lemma {:induction false} LessIsTransitive(a: string, b: string, c: string)
    requires Less(a, b) && Less(b, c)
    ensures Less(a, c)
  {
    if a != "" && a[0] == b[0] && b[0] == c[0] {
      LessIsTransitive(a[1..], b[1..], c[1..]);
    }
  }

  lemma BeforeIsOrder(p: string, q: string, r: string)
    ensures p == q || Before(p, q) || Before(q, p)
    ensures !(Before(p, q) && Before(q, p))
    ensures Before(p, q) && Before(q, r) ==> Before(p, r)
  {
    LessIsTotal(p, q);
    if Less(p, q) && Less(q, r) {
      LessIsTransitive(p, q, r);
    }
  }

  lemma {:induction false} InsertedIs(x: Setting, sorted: seq<Setting>)
    requires Ascending(sorted) && forall y | y in sorted :: y.pattern != x.pattern
    ensures Ascending(Inserted(x, sorted))
    ensures forall y :: y in Inserted(x, sorted) <==> y == x || y in sorted
  {
    if sorted != [] {
      var first, rest := sorted[0], sorted[1..];
      assert first in sorted;
      BeforeIsOrder(x.pattern, first.pattern, first.pattern);
      assert sorted == [first] + rest;
      if Before(x.pattern, first.pattern) {
        forall y | y in rest ensures Before(x.pattern, y.pattern) {
          BeforeIsOrder(x.pattern, first.pattern, y.pattern);
        }
      } else {
        InsertedIs(x, rest);
        var all := Inserted(x, rest);
        assert forall y | y in all :: Before(first.pattern, y.pattern);
      }
    }
  }

  lemma {:induction false} SortedIs(settings: seq<Setting>)
    requires Distinct(settings)
    ensures Ascending(Sorted(settings))
    ensures forall y :: y in Sorted(settings) <==> y in settings
  {
    if settings != [] {
      assert settings == [settings[0]] + settings[1..];
      SortedIs(settings[1..]);
      forall y | y in Sorted(settings[1..]) ensures y.pattern != settings[0].pattern {
        assert y in settings[1..];
      }
      InsertedIs(settings[0], Sorted(settings[1..]));
    }
  }

  // ---------- entering and leaving ----------

  /** The loggers, and the levels to put back on leaving. */
  datatype State = State(loggers: Loggers, original: Loggers)

  function GetLogger(loggers: Loggers, name: string): Loggers {
    if name in loggers then loggers else loggers[name := 0]
  }

  /** Setting the loggers that match and are not in `rest`, and noting their levels unless noted before. */
  function SetMatching(s: State, x: Setting, rest: set<string>): State {
    State(map n | n in s.loggers :: if n !in rest && Matches(x.pattern, n) then x.level else s.loggers[n],
          map n | n in s.original.Keys + s.loggers.Keys && (n in s.original || (n !in rest && Matches(x.pattern, n))) ::
            if n in s.original then s.original[n] else s.loggers[n])
  }

  /** Only a plain name creates its logger. */
  function Apply(s: State, x: Setting): State {
    var loggers := if x.pattern == "*" || IsWildcard(x.pattern) then s.loggers else GetLogger(s.loggers, x.pattern);
    SetMatching(State(loggers, s.original), x, {})
  }

  function ApplyAll(s: State, settings: seq<Setting>): State
    decreases |settings|
  {
    if settings == [] then s else ApplyAll(Apply(s, settings[0]), settings[1..])
  }

  function Entered(loggers: Loggers, settings: seq<Setting>): State {
    ApplyAll(State(loggers, map[]), Sorted(settings))
  }

  function Left(loggers: Loggers, original: Loggers): Loggers {
    map n | n in loggers.Keys + original.Keys :: if n in original then original[n] else loggers[n]
  }

  // ---------- the most specific pattern wins ----------

  /** How much of the name a pattern that matches it spells out. */
  function Specificity(p: string, name: string): int {
    if p == "*" then 0 else if IsWildcard(p) then |Prefix(p)| else |name| + 1
  }

  predicate IsMostSpecific(x: Setting, settings: seq<Setting>, name: string) {
    && x in settings && Matches(x.pattern, name)
    && forall y | y in settings && y != x && Matches(y.pattern, name) ::
         Specificity(y.pattern, name) < Specificity(x.pattern, name)
  }

  /** The setting applied last among those that match. */
  ghost predicate IsLast(x: Setting, settings: seq<Setting>, name: string) {
    && x in settings && Matches(x.pattern, name)
    && forall y | y in settings && y != x && Matches(y.pattern, name) :: Before(y.pattern, x.pattern)
  }

  lemma ApplyAt(s: State, x: Setting, name: string)
    requires name in s.loggers
    ensures name in Apply(s, x).loggers
    ensures Apply(s, x).loggers[name] == if Matches(x.pattern, name) then x.level else s.loggers[name]
  {
  }

  /** One more setting before the others. */
  lemma LastOfMore(first: Setting, rest: seq<Setting>, name: string)
    requires Ascending([first] + rest)
    ensures Ascending(rest)
    ensures forall x | IsLast(x, rest, name) :: IsLast(x, [first] + rest, name)
    ensures Matches(first.pattern, name) && (forall y | y in rest :: !Matches(y.pattern, name)) ==>
          IsLast(first, [first] + rest, name)
  {
    var all := [first] + rest;
    forall i, j | 0 <= i < j < |rest| ensures Before(rest[i].pattern, rest[j].pattern) {
      assert all[i + 1] == rest[i] && all[j + 1] == rest[j];
    }
    forall x | x in rest ensures Before(first.pattern, x.pattern) {
      var i :| 0 <= i < |rest| && rest[i] == x;
      assert all[0] == first && all[i + 1] == x;
    }
  }

  lemma {:induction false} LastOneStays(s: State, settings: seq<Setting>, name: string)
    requires name in s.loggers && Ascending(settings)
    ensures var after := ApplyAll(s, settings).loggers;
            name in after && if forall y | y in settings ::
                !Matches(y.pattern, name) then after[name] == s.loggers[name]
                             else exists x :: IsLast(x, settings, name) && after[name] == x.level
    decreases |settings|
  {
    if settings != [] {
      var first, rest := settings[0], settings[1..];
      assert settings == [first] + rest;
      ApplyAt(s, first, name);
      LastOfMore(first, rest, name);
      LastOneStays(Apply(s, first), rest, name);
      var after := ApplyAll(s, settings).loggers;
      if y :| y in rest && Matches(y.pattern, name) {
        var x :| IsLast(x, rest, name) && after[name] == x.level;
        assert IsLast(x, settings, name);
      } else if Matches(first.pattern, name) {
        assert IsLast(first, settings, name);
      }
    }
  }

  /** Of two wildcards that match a name the one that spells out more comes later, exactly if the name goes on with
    * a character that is not below the asterisk. */
  lemma {:induction false} LongerComesLater(p: string, q: string, name: string)
    requires IsWildcard(p) && IsWildcard(q) && Matches(p, name) && Matches(q, name) && |p| < |q|
    ensures Before(p, q) <==> name[|p| - 1] >= '*'
  {
    LessAtFirstDifference(p, q, |p| - 1);
  }

  lemma {:induction false} LessAtFirstDifference(a: string, b: string, k: nat)
    requires k + 1 == |a| < |b| && a[..k] == b[..k]
    ensures Less(a, b) <==> a[k] <= b[k]
  {
    if k > 0 {
      assert a[0] == a[..k][0] == b[..k][0] == b[0];
      assert a[1..][..k - 1] == a[..k][1..] && b[1..][..k - 1] == b[..k][1..];
      LessAtFirstDifference(a[1..], b[1..], k - 1);
    }
  }

  /** Wildcards that match a name with the same length are the same. */
  lemma MatchingPrefixes(p: string, q: string, name: string)
    requires IsWildcard(p) && IsWildcard(q) && Matches(p, name) && Matches(q, name) && |p| == |q|
    ensures p == q
  {
    assert p == Prefix(p) + "*" && q == Prefix(q) + "*";
    assert Prefix(p) == name[..|p| - 1] == Prefix(q);
  }

  /** Nothing that matches is applied after the most specific pattern: every other wildcard that matches the name is
    * followed in it by a character that is not below the asterisk. */
  predicate AppliedLast(x: Setting, settings: seq<Setting>, name: string)
    requires Matches(x.pattern, name)
  {
    IsWildcard(x.pattern) ==>
      forall y | y in settings && IsWildcard(y.pattern) && Matches(y.pattern, name) && |y.pattern| < |x.pattern| ::
        name[|y.pattern| - 1] >= '*'
  }

  lemma MostSpecificIsLast(x: Setting, y: Setting, settings: seq<Setting>, name: string)
    requires IsMostSpecific(x, settings, name) && y in settings && y != x && Matches(y.pattern, name)
    ensures Before(y.pattern, x.pattern) <==>
              (IsWildcard(x.pattern) && IsWildcard(y.pattern) ==> name[|y.pattern| - 1] >= '*')
  {
    if IsWildcard(x.pattern) && IsWildcard(y.pattern) {
      LongerComesLater(y.pattern, x.pattern, name);
    }
  }

  /** Inside the block a logger that existed at entry has its old level if no pattern matches it, and otherwise the
    * level of the most specific pattern, exactly when that one is applied last. */
  lemma MostSpecificWinsExactly(loggers: Loggers, settings: seq<Setting>, name: string, x: Setting)
    requires Distinct(settings) && name in loggers && IsMostSpecific(x, settings, name)
    ensures var inside := Entered(loggers, settings).loggers;
            name in inside && exists y :: IsLast(y, settings, name) && inside[name] == y.level &&
                                          (y == x <==> AppliedLast(x, settings, name))
  {
    var y := LastSetsLevel(loggers, settings, name, x);
    if AppliedLast(x, settings, name) && y != x {
      MostSpecificIsLast(x, y, settings, name);
      BeforeIsOrder(x.pattern, y.pattern, y.pattern);
    }
    if y == x {
      forall z | z in settings && IsWildcard(x.pattern) && IsWildcard(z.pattern) && Matches(z.pattern, name)
                 && |z.pattern| < |x.pattern|
        ensures name[|z.pattern| - 1] >= '*'
      {
        MostSpecificIsLast(x, z, settings, name);
      }
    }
  }

  lemma LastSetsLevel(loggers: Loggers, settings: seq<Setting>, name: string, x: Setting) returns (y: Setting)
    requires Distinct(settings) && name in loggers && x in settings && Matches(x.pattern, name)
    ensures var inside := Entered(loggers, settings).loggers;
            name in inside && IsLast(y, settings, name) && inside[name] == y.level
  {
    var sorted := Sorted(settings);
    SortedIs(settings);
    LastOneStays(State(loggers, map[]), sorted, name);
    assert x in sorted;
    y :| IsLast(y, sorted, name) && Entered(loggers, settings).loggers[name] == y.level;
  }

  /** One more setting: the more specific of it and the most specific of the others. */
  lemma MoreSpecificOf(first: Setting, rest: seq<Setting>, name: string, x: Setting) returns (z: Setting)
    requires Distinct([first] + rest) && IsMostSpecific(x, rest, name)
    ensures IsMostSpecific(z, [first] + rest, name)
  {
    var all := [first] + rest;
    var k :| 0 <= k < |rest| && rest[k] == x;
    assert all[0].pattern != all[k + 1].pattern;
    z := x;
    if Matches(first.pattern, name) {
      MoreOrLessSpecific(first.pattern, x.pattern, name);
      if Specificity(first.pattern, name) > Specificity(x.pattern, name) {
        z := first;
      }
    }
  }

  /** What matches has a most specific one. */
  lemma {:induction false} MostSpecificExists(settings: seq<Setting>, name: string, y: Setting)
    requires Distinct(settings) && y in settings && Matches(y.pattern, name)
    ensures exists x :: IsMostSpecific(x, settings, name)
    decreases |settings|
  {
    var first, rest := settings[0], settings[1..];
    assert settings == [first] + rest;
    if z :| z in rest && Matches(z.pattern, name) {
      MostSpecificExists(rest, name, z);
      var x :| IsMostSpecific(x, rest, name);
      var best := MoreSpecificOf(first, rest, name, x);
    } else {
      assert IsMostSpecific(first, settings, name);
    }
  }

  lemma MoreOrLessSpecific(p: string, q: string, name: string)
    requires Matches(p, name) && Matches(q, name) && p != q
    ensures Specificity(p, name) != Specificity(q, name)
  {
    if IsWildcard(p) && IsWildcard(q) && |p| == |q| {
      MatchingPrefixes(p, q, name);
    }
  }

  /** So for names without characters below the asterisk the most specific pattern wins, whatever the patterns. */
  lemma MostSpecificWins(loggers: Loggers, settings: seq<Setting>, name: string)
    requires Distinct(settings) && name in loggers && forall c | c in name :: c >= '*'
    ensures var inside := Entered(loggers, settings).loggers;
            name in inside &&
            if forall y | y in settings :: !Matches(y.pattern, name) then inside[name] == loggers[name]
            else exists x :: IsMostSpecific(x, settings, name) && inside[name] == x.level
  {
    if y :| y in settings && Matches(y.pattern, name) {
      MostSpecificExists(settings, name, y);
      var x :| IsMostSpecific(x, settings, name);
      MostSpecificWinsExactly(loggers, settings, name, x);
      forall z | z in settings && IsWildcard(x.pattern) && IsWildcard(z.pattern) && Matches(z.pattern, name)
                 && |z.pattern| < |x.pattern|
        ensures name[|z.pattern| - 1] >= '*'
      {
        assert name[|z.pattern| - 1] in name;
      }
    } else {
      SortedIs(settings);
      LastOneStays(State(loggers, map[]), Sorted(settings), name);
    }
  }

  /** It fails below the asterisk: the shorter of two wildcards wins. */
  lemma ShorterWildcardCanWin()
    ensures var inside := Entered(map["a.!b.c" := 0], [Setting("a.*", 10), Setting("a.!b.*", 20)]).loggers;
            inside == map["a.!b.c" := 10]
  {
    var p, q := Setting("a.*", 10), Setting("a.!b.*", 20);
    LongerComesLater(p.pattern, q.pattern, "a.!b.c");
    assert Sorted([q]) == [q];
    assert Sorted([p, q]) == Inserted(p, [q]) == [q] + Inserted(p, []);
    assert [q] + Inserted(p, []) == [q, p];
    var s := State(map["a.!b.c" := 0], map[]);
    assert ApplyAll(s, [q, p]) == ApplyAll(Apply(s, q), [p]) == Apply(Apply(s, q), p);
  }

  /** Unlike its documentation says, 'A.*' leaves the logger 'A' alone. */
  lemma WildcardMissesItsParent(name: string, loggers: Loggers, level: int)
    requires name in loggers
    ensures var inside := Entered(loggers, [Setting(name + ".*", level)]).loggers;
            name in inside && inside[name] == loggers[name]
  {
    var x := Setting(name + ".*", level);
    assert IsWildcard(x.pattern) && Prefix(x.pattern) == name + ".";
    assert Sorted([x]) == [x];
    LastOneStays(State(loggers, map[]), [x], name);
  }

  // ---------- the levels inside the block ----------

  /** One of the settings is for this very name. */
  predicate Named(settings: seq<Setting>, name: string, level: int) {
    Setting(name, level) in settings && name != "*" && !(|name| >= 2 && name[|name| - 2..] == ".*")
  }

  ghost predicate IsNamed(settings: seq<Setting>, name: string) {
    exists level :: Named(settings, name, level)
  }

  /** One of the settings is for what lies under `p`, and the name does. */
  predicate Under(settings: seq<Setting>, name: string, p: string, level: int) {
    Setting(p + ".*", level) in settings && p + "." <= name
  }

  /** The name's own setting, or else that of the longest path it lies under, or else the one for all loggers, or
    * else the level it had. */
  ghost predicate LevelIs(settings: seq<Setting>, name: string, before: int, level: int) {
    if IsNamed(settings, name) then Named(settings, name, level)
    else if exists p, l :: Under(settings, name, p, l) then
      exists p :: Under(settings, name, p, level) && forall q, l | Under(settings, name, q, l) :: |q| <= |p|
    else if exists l :: Setting("*", l) in settings then Setting("*", level) in settings
    else level == before
  }

  lemma WildcardIs(p: string, name: string)
    requires IsWildcard(p)
    ensures var q := p[..|p| - 2]; p == q + ".*" && (Matches(p, name) <==> q + "." <= name)
  {
    var q := p[..|p| - 2];
    assert p == q + p[|p| - 2..];
    assert Prefix(p) == q + ".";
  }

  /** A plain pattern is applied after everything else that matches its name. */
  lemma NamedIsLast(x: Setting, rest: seq<Setting>)
    requires Ascending([x] + rest) && x.pattern != "*" && !IsWildcard(x.pattern)
    ensures forall y | y in rest :: !Matches(y.pattern, x.pattern)
  {
    forall y | y in rest ensures !Matches(y.pattern, x.pattern) {
      var i :| 0 <= i < |rest| && rest[i] == y;
      assert ([x] + rest)[0] == x && ([x] + rest)[i + 1] == y;
      BeforeIsOrder(x.pattern, y.pattern, y.pattern);
    }
  }

  lemma {:induction false} NamedSetsLevel(s: State, settings: seq<Setting>, x: Setting)
    requires Ascending(settings) && x in settings && x.pattern != "*" && !IsWildcard(x.pattern)
    ensures var after := ApplyAll(s, settings).loggers; x.pattern in after && after[x.pattern] == x.level
    decreases |settings|
  {
    var first, rest := settings[0], settings[1..];
    assert settings == [first] + rest;
    LastOfMore(first, rest, x.pattern);
    if first == x {
      NamedIsLast(x, rest);
      ApplyAt(State(GetLogger(s.loggers, x.pattern), s.original), x, x.pattern);
      LastOneStays(Apply(s, x), rest, x.pattern);
    } else {
      NamedSetsLevel(Apply(s, first), rest, x);
    }
  }

  lemma {:induction false} ApplyAllKeys(s: State, settings: seq<Setting>, name: string)
    ensures name in ApplyAll(s, settings).loggers <==> name in s.loggers || IsNamed(settings, name)
    decreases |settings|
  {
    if settings != [] {
      var first, rest := settings[0], settings[1..];
      assert settings == [first] + rest;
      ApplyAllKeys(Apply(s, first), rest, name);
      assert forall l | Named(rest, name, l) :: Named(settings, name, l);
      assert forall l | Named(settings, name, l) :: Named(rest, name, l) || first == Setting(name, l);
      if first.pattern == name && name != "*" && !IsWildcard(name) {
        assert Named(settings, name, first.level);
      }
    }
  }

  lemma SortedNames(settings: seq<Setting>, name: string)
    requires Distinct(settings)
    ensures IsNamed(settings, name) <==> IsNamed(Sorted(settings), name)
  {
    SortedIs(settings);
    forall l ensures Named(settings, name, l) <==> Named(Sorted(settings), name, l) {
      assert Setting(name, l) in Sorted(settings) <==> Setting(name, l) in settings;
    }
  }

  /** Inside the block there are the loggers that were there and those that the settings name, and each that is
    * named has its setting's level, whatever else matches it. */
  lemma NamedLevels(loggers: Loggers, settings: seq<Setting>, name: string, level: int)
    requires Distinct(settings)
    ensures var inside := Entered(loggers, settings).loggers;
            && (name in inside <==> name in loggers || IsNamed(settings, name))
            && (Named(settings, name, level) ==> name in inside && inside[name] == level)
  {
    SortedIs(settings);
    SortedNames(settings, name);
    ApplyAllKeys(State(loggers, map[]), Sorted(settings), name);
    if Named(settings, name, level) {
      NamedSetsLevel(State(loggers, map[]), Sorted(settings), Setting(name, level));
    }
  }

  lemma MostSpecificUnder(settings: seq<Setting>, name: string, x: Setting, q: string, l: int)
    requires IsMostSpecific(x, settings, name) && IsWildcard(x.pattern) && Under(settings, name, q, l)
    ensures |q| + 2 <= |x.pattern|
  {
    var y := Setting(q + ".*", l);
    assert IsWildcard(y.pattern) && y.pattern[..|y.pattern| - 2] == q;
    WildcardIs(y.pattern, name);
  }

  lemma UnderMatches(settings: seq<Setting>, name: string, p: string, l: int)
    requires Under(settings, name, p, l)
    ensures Setting(p + ".*", l) in settings && IsWildcard(p + ".*") && Matches(p + ".*", name)
  {
    assert (p + ".*")[..|p + ".*"| - 2] == p;
    WildcardIs(p + ".*", name);
  }

  lemma NamedMatches(settings: seq<Setting>, name: string, l: int)
    requires Named(settings, name, l)
    ensures Setting(name, l) in settings && Matches(name, name) && Specificity(name, name) == |name| + 1
  {
  }

  /** If the most specific one is a wildcard, nothing is named, and it is the longest path. */
  lemma WildcardLevelIs(settings: seq<Setting>, name: string, before: int, x: Setting)
    requires Distinct(settings) && IsMostSpecific(x, settings, name) && IsWildcard(x.pattern)
    ensures LevelIs(settings, name, before, x.level)
  {
    forall l ensures !Named(settings, name, l) {
      if Named(settings, name, l) {
        NamedMatches(settings, name, l);
      }
    }
    var p := x.pattern[..|x.pattern| - 2];
    WildcardIs(x.pattern, name);
    assert Setting(p + ".*", x.level) == x && Under(settings, name, p, x.level);
    forall q, k | Under(settings, name, q, k) ensures |q| <= |p| {
      MostSpecificUnder(settings, name, x, q, k);
    }
  }

  /** If it is the one for all loggers, nothing else matches. */
  lemma StarLevelIs(settings: seq<Setting>, name: string, before: int, x: Setting)
    requires Distinct(settings) && IsMostSpecific(x, settings, name) && x.pattern == "*"
    ensures LevelIs(settings, name, before, x.level)
  {
    forall l ensures !Named(settings, name, l) {
      if Named(settings, name, l) {
        NamedMatches(settings, name, l);
      }
    }
    forall q, l ensures !Under(settings, name, q, l) {
      if Under(settings, name, q, l) {
        UnderMatches(settings, name, q, l);
      }
    }
    assert Setting("*", x.level) == x;
  }

  lemma MostSpecificLevelIs(settings: seq<Setting>, name: string, before: int, x: Setting)
    requires Distinct(settings) && IsMostSpecific(x, settings, name)
    ensures LevelIs(settings, name, before, x.level)
  {
    if x.pattern == "*" {
      StarLevelIs(settings, name, before, x);
    } else if IsWildcard(x.pattern) {
      WildcardLevelIs(settings, name, before, x);
    } else {
      assert Setting(name, x.level) == x && Named(settings, name, x.level);
    }
  }

  lemma NothingMatches(settings: seq<Setting>, name: string, level: int)
    requires forall y | y in settings :: !Matches(y.pattern, name)
    ensures LevelIs(settings, name, level, level)
  {
    forall l ensures !Named(settings, name, l) && Setting("*", l) !in settings {
      assert Matches(Setting(name, l).pattern, name) || name == "*" || IsWildcard(name);
      assert Matches(Setting("*", l).pattern, name);
    }
    forall p, l ensures !Under(settings, name, p, l) {
      if Under(settings, name, p, l) {
        UnderMatches(settings, name, p, l);
      }
    }
  }

  /** The levels inside the block: for a logger whose name has no characters below the asterisk its own setting counts
    * before that of the longest path it lies under, that before the one for all loggers, the root logger included, and
    * without any of them the logger keeps its level. */
  lemma LevelsInside(loggers: Loggers, settings: seq<Setting>, name: string)
    requires Distinct(settings) && name in loggers && forall c | c in name :: c >= '*'
    ensures var inside := Entered(loggers, settings).loggers;
            name in inside && LevelIs(settings, name, loggers[name], inside[name])
  {
    MostSpecificWins(loggers, settings, name);
    var inside := Entered(loggers, settings).loggers;
    if forall y | y in settings :: !Matches(y.pattern, name) {
      NothingMatches(settings, name, loggers[name]);
    } else {
      var x :| IsMostSpecific(x, settings, name) && inside[name] == x.level;
      MostSpecificLevelIs(settings, name, loggers[name], x);
    }
  }

  // ---------- leaving restores ----------

  /** What a program may do with levels: ask for a logger, and run a block under `configure`. */
  datatype Action = Ask(name: string) | Configure(settings: seq<Setting>, block: seq<Action>)

  function Exec(loggers: Loggers, program: seq<Action>): Loggers
    decreases program
  {
    if program == [] then loggers
    else
      var after :=
        match program[0]
        case Ask(name) => GetLogger(loggers, name)
        case Configure(settings, block) =>
          var s := Entered(loggers, settings);
          Left(Exec(s.loggers, block), s.original);
      Exec(after, program[1..])
  }

  /** The same program without its levels: only the loggers that it creates. */
  function Created(loggers: Loggers, program: seq<Action>): Loggers
    decreases program
  {
    if program == [] then loggers
    else
      var after :=
        match program[0]
        case Ask(name) => GetLogger(loggers, name)
        case Configure(settings, block) => Created(AskAll(loggers, Sorted(settings)), block);
      Created(after, program[1..])
  }

  function AskAll(loggers: Loggers, settings: seq<Setting>): Loggers
    decreases |settings|
  {
    if settings == [] then loggers
    else
      var p := settings[0].pattern;
      AskAll(if p == "*" || IsWildcard(p) then loggers else GetLogger(loggers, p), settings[1..])
  }

  /** What is on record is enough to go back. */
  ghost predicate Restorable(s: State, loggers: Loggers) {
    s.original.Keys <= s.loggers.Keys && Left(s.loggers, s.original) == loggers
  }

  lemma {:induction false} ApplyAllRestorable(s: State, settings: seq<Setting>, loggers: Loggers)
    requires Restorable(s, loggers)
    ensures Restorable(ApplyAll(s, settings), AskAll(loggers, settings))
    decreases |settings|
  {
    if settings != [] {
      var p := settings[0].pattern;
      ApplyRestorable(s, settings[0], loggers);
      ApplyAllRestorable(Apply(s, settings[0]), settings[1..],
                         if p == "*" || IsWildcard(p) then loggers else GetLogger(loggers, p));
    }
  }

  lemma ApplyRestorable(s: State, x: Setting, loggers: Loggers)
    requires Restorable(s, loggers)
    ensures Restorable(Apply(s, x), if x.pattern == "*" || IsWildcard(x.pattern) then loggers
          else GetLogger(loggers, x.pattern))
  {
    GetLoggerLeft(s.loggers, x.pattern, s.original);
    SetMatchingRestorable(s, x);
    SetMatchingRestorable(State(GetLogger(s.loggers, x.pattern), s.original), x);
  }

  lemma SetMatchingRestorable(s: State, x: Setting)
    requires s.original.Keys <= s.loggers.Keys
    ensures Restorable(SetMatching(s, x, {}), Left(s.loggers, s.original))
  {
  }

  /** `more` has the loggers of `loggers` at their levels, and others at level 0. */
  ghost predicate OnlyAdds(loggers: Loggers, more: Loggers) {
    && (forall n | n in loggers :: n in more && more[n] == loggers[n])
    && (forall n | n in more && n !in loggers :: more[n] == 0)
  }

  lemma {:induction false} AskAllOnlyAdds(loggers: Loggers, settings: seq<Setting>)
    ensures OnlyAdds(loggers, AskAll(loggers, settings))
    decreases |settings|
  {
    if settings != [] {
      var p := settings[0].pattern;
      AskAllOnlyAdds(if p == "*" || IsWildcard(p) then loggers else GetLogger(loggers, p), settings[1..]);
    }
  }

  lemma {:induction false} CreatedOnlyAdds(loggers: Loggers, program: seq<Action>)
    ensures OnlyAdds(loggers, Created(loggers, program))
    decreases program
  {
    if program != [] {
      match program[0] {
        case Ask(name) => CreatedOnlyAdds(GetLogger(loggers, name), program[1..]);
        case Configure(settings, block) =>
          var asked := AskAll(loggers, Sorted(settings));
          AskAllOnlyAdds(loggers, Sorted(settings));
          CreatedOnlyAdds(asked, block);
          CreatedOnlyAdds(Created(asked, block), program[1..]);
      }
    }
  }

  /** Which loggers are created does not depend on levels. */
  lemma {:induction false} AskAllLeft(loggers: Loggers, settings: seq<Setting>, original: Loggers)
    requires original.Keys <= loggers.Keys
    ensures original.Keys <= AskAll(loggers, settings).Keys
    ensures Left(AskAll(loggers, settings), original) == AskAll(Left(loggers, original), settings)
    decreases |settings|
  {
    if settings != [] {
      var p := settings[0].pattern;
      var asked := if p == "*" || IsWildcard(p) then loggers else GetLogger(loggers, p);
      GetLoggerLeft(loggers, p, original);
      AskAllLeft(asked, settings[1..], original);
    }
  }

  lemma GetLoggerLeft(loggers: Loggers, name: string, original: Loggers)
    requires original.Keys <= loggers.Keys
    ensures Left(GetLogger(loggers, name), original) == GetLogger(Left(loggers, original), name)
  {
  }

  lemma {:induction false} CreatedLeft(loggers: Loggers, program: seq<Action>, original: Loggers)
    requires original.Keys <= loggers.Keys
    ensures original.Keys <= Created(loggers, program).Keys
    ensures Left(Created(loggers, program), original) == Created(Left(loggers, original), program)
    decreases program
  {
    if program != [] {
      match program[0] {
        case Ask(name) =>
          GetLoggerLeft(loggers, name, original);
          CreatedLeft(GetLogger(loggers, name), program[1..], original);
        case Configure(settings, block) =>
          var asked := AskAll(loggers, Sorted(settings));
          AskAllLeft(loggers, Sorted(settings), original);
          CreatedLeft(asked, block, original);
          CreatedLeft(Created(asked, block), program[1..], original);
      }
    }
  }

  /** Running blocks nested in any way, with any patterns, does nothing but create loggers. */
  lemma {:induction false} ExecOnlyCreates(loggers: Loggers, program: seq<Action>)
    ensures Exec(loggers, program) == Created(loggers, program)
    decreases program
  {
    if program != [] {
      match program[0] {
        case Ask(name) => ExecOnlyCreates(GetLogger(loggers, name), program[1..]);
        case Configure(settings, block) =>
          var s := Entered(loggers, settings);
          var asked := AskAll(loggers, Sorted(settings));
          NothingToRestore(loggers);
          ApplyAllRestorable(State(loggers, map[]), Sorted(settings), loggers);
          ExecOnlyCreates(s.loggers, block);
          CreatedLeft(s.loggers, block, s.original);
          ExecOnlyCreates(Created(asked, block), program[1..]);
      }
    }
  }

  lemma NothingToRestore(loggers: Loggers)
    ensures Restorable(State(loggers, map[]), loggers)
  {
    assert Left(loggers, map[]) == loggers;
  }

  /** After any well-nested run of `configure` blocks each logger has its level back, and each new one level 0. */
  lemma LevelsAreRestored(loggers: Loggers, program: seq<Action>)
    ensures OnlyAdds(loggers, Exec(loggers, program))
  {
    ExecOnlyCreates(loggers, program);
    CreatedOnlyAdds(loggers, program);
  }

  // ---------- the manager ----------

  lemma OneMoreSet(s: State, x: Setting, rest: set<string>, name: string)
    requires name in rest && rest <= s.loggers.Keys
    ensures var (now, next) := (SetMatching(s, x, rest), SetMatching(s, x, rest - {name}));
            && now.loggers[name] == s.loggers[name]
            && next == if !Matches(x.pattern, name) then now
                       else State(now.loggers[name := x.level],
                                  if name in now.original then now.original else now.original[name := s.loggers[name]])
  {
    var (now, next) := (SetMatching(s, x, rest), SetMatching(s, x, rest - {name}));
    if Matches(x.pattern, name) {
      assert next.loggers == now.loggers[name := x.level];
      assert next.original == if name in now.original then now.original else now.original[name := s.loggers[name]];
    } else {
      assert next.loggers == now.loggers;
      assert next.original == now.original;
    }
  }

  lemma OnlyOneMatches(s: State, x: Setting)
    requires x.pattern != "*" && !IsWildcard(x.pattern) && x.pattern in s.loggers
    ensures SetMatching(s, x, s.loggers.Keys) == s
    ensures SetMatching(s, x, s.loggers.Keys - {x.pattern}) == SetMatching(s, x, {})
  {
  }

  class LogManager {
    var loggers: Loggers

    constructor ()
      ensures loggers == map["" := 0]
    {
      loggers := map["" := 0];
    }

    /** The loop over all loggers. */
    method SetAll(x: Setting, saved: Loggers) returns (original: Loggers)
      modifies this
      ensures State(loggers, original) == SetMatching(State(old(loggers), saved), x, {})
    {
      original := saved;
      ghost var before := State(loggers, saved);
      var rest := loggers.Keys;
      while rest != {}
        invariant rest <= loggers.Keys == before.loggers.Keys
        invariant State(loggers, original) == SetMatching(before, x, rest)
        decreases |rest|
      {
        var name :| name in rest;
        OneMoreSet(before, x, rest, name);
        if Matches(x.pattern, name) {
          if name !in original {
            original := original[name := loggers[name]];
          }
          loggers := loggers[name := x.level];
        }
        rest := rest - {name};
      }
    }

    /** Asking for one logger and setting it. */
    method SetOne(x: Setting, saved: Loggers) returns (original: Loggers)
      requires x.pattern != "*" && !IsWildcard(x.pattern)
      modifies this
      ensures State(loggers, original) == Apply(State(old(loggers), saved), x)
    {
      var name := x.pattern;
      original := saved;
      if name !in loggers {
        loggers := loggers[name := 0];
      }
      OneMoreSet(State(loggers, saved), x, loggers.Keys, name);
      OnlyOneMatches(State(loggers, saved), x);
      if name !in original {
        original := original[name := loggers[name]];
      }
      loggers := loggers[name := x.level];
    }

    method Enter(settings: seq<Setting>) returns (original: Loggers)
      modifies this
      ensures State(loggers, original) == Entered(old(loggers), settings)
    {
      var sorted := Sorted(settings);
      original := map[];
      ghost var all := Entered(loggers, settings);
      while sorted != []
        invariant ApplyAll(State(loggers, original), sorted) == all
        decreases |sorted|
      {
        var x := sorted[0];
        if x.pattern == "*" || IsWildcard(x.pattern) {
          original := SetAll(x, original);
        } else {
          original := SetOne(x, original);
        }
        sorted := sorted[1..];
      }
    }

    method Leave(original: Loggers)
      modifies this
      ensures loggers == Left(old(loggers), original)
    {
      var before := loggers;
      var rest := original.Keys;
      while rest != {}
        invariant rest <= original.Keys
        invariant loggers == map n | n in before.Keys + original.Keys && (n in before || n !in rest) ::
                               if n in original && n !in rest then original[n] else before[n]
        decreases |rest|
      {
        var name :| name in rest;
        rest := rest - {name};
        loggers := loggers[name := original[name]];
      }
    }
  }
}
