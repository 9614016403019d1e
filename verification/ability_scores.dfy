/**
 * `AbilityScoreCalculator` of packages/engine/src/ability-score-calculator.ts
 * (the legacy copy in packages/engine/src/index.ts is the same code over its
 * own `Math.random` roller): ability modifiers, and six stats rolled as four
 * d6 with the lowest dropped.
 */
module AbilityScores {
  import opened Core
  import opened DiceRoller

  /** `Math.floor((score - 10) / 2)`. */
  function GetModifier(score: int): (m: int)
    ensures 2 * m <= score - 10 < 2 * m + 2
  {
    (score - 10) / 2
  }

  /** The modifiers the engine's tests expect. */
  lemma ModifierExamples()
    ensures GetModifier(10) == 0 && GetModifier(12) == 1 && GetModifier(8) == -1 && GetModifier(18) == 4
  {
  }

  /** A higher score never has a lower modifier, and two more points add exactly one. */
  lemma ModifierSteps(s: int, t: int)
    ensures s <= t ==> GetModifier(s) <= GetModifier(t)
    ensures GetModifier(s + 2) == GetModifier(s) + 1
  {
  }

  function Sum(s: seq<int>): int {
    if s == [] then 0 else Sum(s[..|s| - 1]) + s[|s| - 1]
  }

  lemma {:induction false} SumConcat(a: seq<int>, b: seq<int>)
    ensures Sum(a + b) == Sum(a) + Sum(b)
    decreases |b|
  {
    if b != [] {
      assert (a + b)[..|a + b| - 1] == a + b[..|b| - 1];
      SumConcat(a, b[..|b| - 1]);
    } else {
      assert a + b == a;
    }
  }

  /** Sums do not depend on the order of the elements. */
  lemma {:induction false} SumPerm(a: seq<int>, b: seq<int>)
    requires multiset(a) == multiset(b)
    ensures Sum(a) == Sum(b)
    decreases |a|
  {
    if a == [] {
      assert |b| == |multiset(b)| == 0;
    } else {
      var x := a[|a| - 1];
      var front := a[..|a| - 1];
      assert a == front + [x];
      assert x in multiset(b);
      var i :| 0 <= i < |b| && b[i] == x;
      var rest := b[..i] + b[i + 1..];
      assert b == b[..i] + [x] + b[i + 1..];
      assert multiset(b) == multiset(b[..i]) + multiset([x]) + multiset(b[i + 1..]);
      assert multiset(a) == multiset(front) + multiset([x]);
      assert multiset(rest) == multiset(b[..i]) + multiset(b[i + 1..]);
      assert multiset(rest) == multiset(b) - multiset([x]);
      assert multiset(front) == multiset(a) - multiset([x]);
      SumPerm(front, rest);
      SumConcat(b[..i] + [x], b[i + 1..]);
      SumConcat(b[..i], [x]);
      SumConcat(b[..i], b[i + 1..]);
    }
  }

  predicate SortedDesc(s: seq<int>) {
    forall i, j :: 0 <= i < j < |s| ==> s[i] >= s[j]
  }

  lemma SwapPerm(s: seq<int>, i: nat, j: nat)
    requires i < |s| && j < |s|
    ensures multiset(s[i := s[j]][j := s[i]]) == multiset(s)
  {
  }

  /**
   * While `a[i]` travels left to position `j`: the other elements of the
   * first `i + 1` keep their order, and everything behind the travelling
   * element is no larger than it.
   */
  predicate Inserting(s: seq<int>, i: nat, j: nat) {
    && j <= i < |s|
    && (forall k, l :: 0 <= k < l <= i && k != j && l != j ==> s[k] >= s[l])
    && (forall l :: j < l <= i ==> s[l] <= s[j])
  }

  lemma InsertingStart(s: seq<int>, i: nat)
    requires i < |s| && SortedDesc(s[..i])
    ensures Inserting(s, i, i)
  {
    forall k, l | 0 <= k < l <= i && k != i && l != i ensures s[k] >= s[l] {
      assert s[k] == s[..i][k] && s[l] == s[..i][l];
    }
  }

  lemma InsertingSwap(s: seq<int>, i: nat, j: nat)
    requires Inserting(s, i, j) && 0 < j && s[j - 1] < s[j]
    ensures Inserting(s[j - 1 := s[j]][j := s[j - 1]], i, j - 1)
  {
  }

  lemma InsertingDone(s: seq<int>, i: nat, j: nat)
    requires Inserting(s, i, j) && (j == 0 || s[j - 1] >= s[j])
    ensures SortedDesc(s[..i + 1])
  {
    forall k, l | 0 <= k < l < i + 1 ensures s[k] >= s[l] {
      if l == j {
        if k < j - 1 {
          assert s[k] >= s[j - 1];
        }
      } else if k == j {
        assert s[l] <= s[j];
      }
    }
  }

  /** Move `a[i]` left past every smaller element, so the first `i + 1` are sorted. */
  method InsertDescending(a: array<int>, i: nat)
    requires i < a.Length && SortedDesc(a[..i])
    modifies a
    ensures SortedDesc(a[..i + 1])
    ensures multiset(a[..]) == multiset(old(a[..]))
  {
    InsertingStart(a[..], i);
    var j: nat := i;
    while j > 0 && a[j - 1] < a[j]
      invariant Inserting(a[..], i, j)
      invariant multiset(a[..]) == multiset(old(a[..]))
    {
      ghost var before := a[..];
      InsertingSwap(before, i, j);
      SwapPerm(before, j - 1, j);
      a[j - 1], a[j] := a[j], a[j - 1];
      assert a[..] == before[j - 1 := before[j]][j := before[j - 1]];
      j := j - 1;
    }
    InsertingDone(a[..], i, j);
  }

  /** `rolls.sort((a, b) => b - a)`: sort the array, largest first, in place. */
  method SortDescending(a: array<int>)
    modifies a
    ensures SortedDesc(a[..])
    ensures multiset(a[..]) == multiset(old(a[..]))
  {
    var i := 0;
    while i < a.Length
      invariant 0 <= i <= a.Length
      invariant SortedDesc(a[..i])
      invariant multiset(a[..]) == multiset(old(a[..]))
    {
      InsertDescending(a, i);
      i := i + 1;
    }
    assert a[..] == a[..a.Length];
  }

  /** `slice(0, n).reduce((sum, roll) => sum + roll, 0)`. */
  method SumFirst(a: array<int>, n: nat) returns (total: int)
    requires n <= a.Length
    ensures total == Sum(a[..n])
  {
    total := 0;
    var i := 0;
    while i < n
      invariant 0 <= i <= n
      invariant total == Sum(a[..i])
    {
      assert a[..i + 1][..i] == a[..i];
      total := total + a[i];
      i := i + 1;
    }
  }

  /** The stat four dice give: their sum without the smallest. */
  function TopThree(d: seq<int>): int
    requires |d| == 4
  {
    Sum(d) - Min(Min(d[0], d[1]), Min(d[2], d[3]))
  }

  /** Sorted largest first, the first three of four dice sum to all four but the smallest. */
  lemma SortedTopThree(s: seq<int>, d: seq<int>)
    requires |d| == 4 && multiset(s) == multiset(d) && SortedDesc(s)
    ensures |s| == 4 && Sum(s[..3]) == TopThree(d)
  {
    assert |s| == |multiset(s)| == |multiset(d)| == 4;
    SumPerm(s, d);
    assert s == s[..3] + [s[3]];
    SumConcat(s[..3], [s[3]]);
    var low := Min(Min(d[0], d[1]), Min(d[2], d[3]));
    assert s[3] in multiset(d);
    assert s[3] == d[0] || s[3] == d[1] || s[3] == d[2] || s[3] == d[3];
    assert low in multiset(s) by {
      assert low == d[0] || low == d[1] || low == d[2] || low == d[3];
      assert d[0] in multiset(d) && d[1] in multiset(d) && d[2] in multiset(d) && d[3] in multiset(d);
    }
    var k :| 0 <= k < 4 && s[k] == low;
    assert s[k] >= s[3];
  }

  /** With dice in [1, 6] a stat lies in [3, 18]. */
  lemma TopThreeRange(d: seq<int>)
    requires |d| == 4 && forall i :: 0 <= i < 4 ==> 1 <= d[i] <= 6
    ensures 3 <= TopThree(d) <= 18
  {
    assert Sum(d[..1]) == d[0] by { assert d[..1][..0] == []; }
    assert Sum(d[..2]) == d[0] + d[1] by { assert d[..2][..1] == d[..1]; }
    assert Sum(d[..3]) == d[0] + d[1] + d[2] by { assert d[..3][..2] == d[..2]; }
  }

  /** The four d6 draws starting at call `start`. */
  function FourD6(rng: (nat, nat) -> int, start: nat): seq<int> {
    [rng(start, 6), rng(start + 1, 6), rng(start + 2, 6), rng(start + 3, 6)]
  }

  /** `rollStat`: draw four d6, sort them largest first, add the first three. */
  method RollStat(roller: Roller) returns (stat: int)
    modifies roller
    ensures roller.drawn == old(roller.drawn) + 4
    ensures stat == TopThree(FourD6(roller.rng, old(roller.drawn)))
  {
    var r0 := roller.Roll(6);
    var r1 := roller.Roll(6);
    var r2 := roller.Roll(6);
    var r3 := roller.Roll(6);
    var rolls := new int[4];
    rolls[0], rolls[1], rolls[2], rolls[3] := r0, r1, r2, r3;
    assert rolls[..] == FourD6(roller.rng, old(roller.drawn));
    SortDescending(rolls);
    stat := SumFirst(rolls, 3);
    SortedTopThree(rolls[..], FourD6(roller.rng, old(roller.drawn)));
    assert rolls[..3] == rolls[..][..3];
  }

  datatype Stats = Stats(
    strength: int, dexterity: int, constitution: int,
    intelligence: int, wisdom: int, charisma: int)

  /** The six stats from 24 draws starting at call `start`, four per stat in order. */
  function StatsFrom(rng: (nat, nat) -> int, start: nat): Stats {
    Stats(
      TopThree(FourD6(rng, start)), TopThree(FourD6(rng, start + 4)), TopThree(FourD6(rng, start + 8)),
      TopThree(FourD6(rng, start + 12)), TopThree(FourD6(rng, start + 16)), TopThree(FourD6(rng, start + 20)))
  }

  /** `rollAbilityScores`: strength, dexterity, constitution, intelligence, wisdom, charisma. */
  method RollAbilityScores(roller: Roller) returns (stats: Stats)
    modifies roller
    ensures roller.drawn == old(roller.drawn) + 24
    ensures stats == StatsFrom(roller.rng, old(roller.drawn))
  {
    var strength := RollStat(roller);
    var dexterity := RollStat(roller);
    var constitution := RollStat(roller);
    var intelligence := RollStat(roller);
    var wisdom := RollStat(roller);
    var charisma := RollStat(roller);
    stats := Stats(strength, dexterity, constitution, intelligence, wisdom, charisma);
  }

  /** A roller whose d6 answers lie in [1, 6] gives every stat in [3, 18]. */
  lemma StatsRange(rng: (nat, nat) -> int, start: nat)
    requires forall n: nat :: 1 <= rng(n, 6) <= 6
    ensures var s := StatsFrom(rng, start);
      && 3 <= s.strength <= 18 && 3 <= s.dexterity <= 18 && 3 <= s.constitution <= 18
      && 3 <= s.intelligence <= 18 && 3 <= s.wisdom <= 18 && 3 <= s.charisma <= 18
  {
    TopThreeRange(FourD6(rng, start));
    TopThreeRange(FourD6(rng, start + 4));
    TopThreeRange(FourD6(rng, start + 8));
    TopThreeRange(FourD6(rng, start + 12));
    TopThreeRange(FourD6(rng, start + 16));
    TopThreeRange(FourD6(rng, start + 20));
  }
}
