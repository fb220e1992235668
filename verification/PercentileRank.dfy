/** Midpoint percentile ranks: the share below, plus half the share level with the value. */
module PercentileRank {
  import opened Rounding

  function Below(value: real, population: seq<real>): nat {
    if |population| == 0 then 0
    else Below(value, population[..|population| - 1]) + (if population[|population| - 1] < value then 1 else 0)
  }

  function Equal(value: real, population: seq<real>): nat {
    if |population| == 0 then 0
    else Equal(value, population[..|population| - 1]) + (if population[|population| - 1] == value then 1 else 0)
  }

  function Above(value: real, population: seq<real>): nat {
    if |population| == 0 then 0
    else Above(value, population[..|population| - 1]) + (if population[|population| - 1] > value then 1 else 0)
  }

  // Before rounding.
  function Rank(value: real, population: seq<real>): real
    requires |population| > 0
  {
    (Below(value, population) as real + 0.5 * Equal(value, population) as real) / |population| as real * 100.0
  }

  function Percentile(value: real, population: seq<real>): int {
    if |population| == 0 then 0 else HalfEven(Rank(value, population))
  }

  // Twice the midpoint: an integer.
  function Midpoint(value: real, population: seq<real>): nat {
    2 * Below(value, population) + Equal(value, population)
  }

  lemma {:induction false} EveryoneIsSomewhere(value: real, population: seq<real>)
    ensures Below(value, population) + Equal(value, population) + Above(value, population) == |population|
  {
    if |population| > 0 {
      EveryoneIsSomewhere(value, population[..|population| - 1]);
    }
  }

  lemma CountsOneMore(value: real, population: seq<real>, x: real)
    ensures Below(value, population + [x]) == Below(value, population) + (if x < value then 1 else 0)
    ensures Equal(value, population + [x]) == Equal(value, population) + (if x == value then 1 else 0)
    ensures Above(value, population + [x]) == Above(value, population) + (if x > value then 1 else 0)
  {
    assert (population + [x])[..|population|] == population;
  }

  function Positions(population: seq<real>, which: real -> bool): set<int> {
    set i | 0 <= i < |population| && which(population[i])
  }

  lemma PositionsOneMore(population: seq<real>, which: real -> bool, x: real)
    ensures |Positions(population + [x], which)| == |Positions(population, which)| + (if which(x) then 1 else 0)
  {
    var all, n := population + [x], |population|;
    assert forall i :: 0 <= i < n ==> all[i] == population[i];
    if which(x) {
      assert Positions(all, which) == Positions(population, which) + {n};
    } else {
      assert Positions(all, which) == Positions(population, which);
    }
  }

  lemma {:induction false} CountsAreThePositions(value: real, population: seq<real>)
    ensures Below(value, population) == |Positions(population, x => x < value)|
    ensures Equal(value, population) == |Positions(population, x => x == value)|
  {
    if |population| == 0 {
      assert Positions(population, x => x < value) == {} && Positions(population, x => x == value) == {};
    } else {
      var before, last := population[..|population| - 1], population[|population| - 1];
      CountsAreThePositions(value, before);
      PositionsOneMore(before, x => x < value, last);
      PositionsOneMore(before, x => x == value, last);
      assert before + [last] == population;
    }
  }

  // The percentile is the whole number next to the share of members below the value, counting half of those
  // level with it, in percent; of nobody it is zero.
  lemma PercentileIsTheShare(value: real, population: seq<real>)
    ensures population == [] ==> Percentile(value, population) == 0
    ensures var below, level := Positions(population, x => x < value), Positions(population, x => x == value);
            var n := |population| as real;
            n > 0.0 ==> var share := (2.0 * |below| as real + |level| as real) * (50.0 / n);
                        share - 0.5 <= Percentile(value, population) as real <= share + 0.5
  {
    hide Below, Equal;
    CountsAreThePositions(value, population);
    if |population| > 0 {
      RankInHalfPlaces(value, population);
    }
  }

  /* ---- Ranks conserve ---- */

  function MidpointSum(members: seq<real>, population: seq<real>): nat {
    if |members| == 0 then 0
    else MidpointSum(members[..|members| - 1], population) + Midpoint(members[|members| - 1], population)
  }

  // A newcomer lifts the members above it by a place, and the members level with it by half.
  lemma {:induction false} NewcomerLifts(members: seq<real>, population: seq<real>, x: real)
    ensures MidpointSum(members, population + [x])
         == MidpointSum(members, population) + 2 * Above(x, members) + Equal(x, members)
  {
    hide Below;
    if |members| > 0 {
      var before, last := members[..|members| - 1], members[|members| - 1];
      NewcomerLifts(before, population, x);
      CountsOneMore(last, population, x);
      assert before + [last] == members;
      CountsOneMore(x, before, last);
    }
  }

  // Over a whole population, each pair of members is shared out exactly once.
  lemma {:induction false} MidpointsConserve(population: seq<real>)
    ensures MidpointSum(population, population) == |population| * |population|
  {
    hide Below, Above, Equal;
    if |population| > 0 {
      var before, x := population[..|population| - 1], population[|population| - 1];
      var n := |before|;
      MidpointsConserve(before);
      assert before + [x] == population;
      NewcomerLifts(before, before, x);
      CountsOneMore(x, before, x);
      EveryoneIsSomewhere(x, before);
      NextSquare(n);
    }
  }

  lemma NextSquare(n: nat)
    ensures (n + 1) * (n + 1) == n * n + 2 * n + 1
  {
  }

  function RankSum(members: seq<real>, population: seq<real>): real
    requires |population| > 0
  {
    if |members| == 0 then 0.0
    else RankSum(members[..|members| - 1], population) + Rank(members[|members| - 1], population)
  }

  // The weight of half a place.
  function HalfPlace(n: nat): real
    requires n > 0
  {
    50.0 / n as real
  }

  lemma RankInHalfPlaces(value: real, population: seq<real>)
    requires |population| > 0
    ensures Rank(value, population) == Midpoint(value, population) as real * HalfPlace(|population|)
  {
    hide Below, Equal;
    var n := |population| as real;
    var places := Below(value, population) as real + 0.5 * Equal(value, population) as real;
    assert Midpoint(value, population) as real == 2.0 * places;
    assert places / n * 100.0 == 2.0 * places * (50.0 / n);
  }

  lemma {:induction false} RankSumInHalfPlaces(members: seq<real>, population: seq<real>)
    requires |population| > 0
    ensures RankSum(members, population) == MidpointSum(members, population) as real * HalfPlace(|population|)
  {
    hide Rank, Midpoint;
    if |members| > 0 {
      RankSumInHalfPlaces(members[..|members| - 1], population);
      RankInHalfPlaces(members[|members| - 1], population);
    }
  }

  // The mean of a population's own ranks is fifty, whatever the population.
  lemma MeanRankIsFifty(population: seq<real>)
    requires |population| > 0
    ensures RankSum(population, population) / |population| as real == 50.0
  {
    hide RankSum, MidpointSum;
    var n := |population|;
    MidpointsConserve(population);
    RankSumInHalfPlaces(population, population);
    SquareOfCount(n);
    assert RankSum(population, population) == n as real * n as real * (50.0 / n as real);
    assert n as real * n as real * (50.0 / n as real) == 50.0 * n as real;
  }

  lemma SquareOfCount(n: nat)
    ensures (n * n) as real == n as real * n as real
  {
  }

  /* ---- Bounds and order ---- */

  lemma {:induction false} HigherHasMoreBelow(low: real, high: real, population: seq<real>)
    requires low < high
    ensures Below(low, population) + Equal(low, population) <= Below(high, population)
  {
    if |population| > 0 {
      HigherHasMoreBelow(low, high, population[..|population| - 1]);
    }
  }

  lemma RankIsMonotone(low: real, high: real, population: seq<real>)
    requires |population| > 0 && low <= high
    ensures Rank(low, population) <= Rank(high, population)
  {
    hide Below, Equal;
    RankInHalfPlaces(low, population);
    RankInHalfPlaces(high, population);
    if low < high {
      HigherHasMoreBelow(low, high, population);
      assert Midpoint(low, population) <= Midpoint(high, population);
      MoreHalfPlaces(Midpoint(low, population), Midpoint(high, population), |population|);
    }
  }

  lemma MoreHalfPlaces(a: nat, b: nat, n: nat)
    requires a <= b && n > 0
    ensures a as real * HalfPlace(n) <= b as real * HalfPlace(n)
  {
    assert HalfPlace(n) > 0.0;
  }

  lemma RankIsAShare(value: real, population: seq<real>)
    requires |population| > 0
    ensures 0.0 <= Rank(value, population) <= 100.0
  {
    hide Below, Equal, Above;
    var n := |population|;
    RankInHalfPlaces(value, population);
    EveryoneIsSomewhere(value, population);
    MoreHalfPlaces(0, Midpoint(value, population), n);
    MoreHalfPlaces(Midpoint(value, population), 2 * n, n);
    assert (2 * n) as real * (50.0 / n as real) == 100.0;
  }

  // The percentile is a whole number from 0 to 100, never falls as the value rises, and is 0 for nobody.
  lemma PercentileIsMonotone(low: real, high: real, population: seq<real>)
    requires low <= high
    ensures 0 <= Percentile(low, population) <= Percentile(high, population) <= 100
  {
    hide Rank;
    if |population| > 0 {
      RankIsAShare(low, population);
      RankIsAShare(high, population);
      RankIsMonotone(low, high, population);
      WholeNumbersStay(0);
      WholeNumbersStay(100);
      HalfEvenIsMonotone(0.0, Rank(low, population));
      HalfEvenIsMonotone(Rank(low, population), Rank(high, population));
      HalfEvenIsMonotone(Rank(high, population), 100.0);
    }
  }
}
