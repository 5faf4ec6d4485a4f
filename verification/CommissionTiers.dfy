/** What tiers pay, unit by unit, and what tiers that cover every amount once pay in all. */
module CommissionTiers {
  import opened Prelude
  import opened CommissionFormula

  // ----- one tier -----

  /** A single tier pays its rate for the units in its range, rounded down, and its fixed part for an amount in it. */
  lemma TierPays(t: Tier, amount: int)
    requires t.minMinor >= 0
    ensures Total([t], amount) ==
      t.basisPoints as int * |Units(t, amount)| / 10_000 +
      if t.minMinor as int <= amount && (t.maxMinor == 0 || amount < t.maxMinor as int) then t.fixedMinor as int else 0
  {
    OverlapCounts(t, amount);
    assert [t][1..] == [] && Total([], amount) == 0;
  }

  // ----- unit by unit -----

  /** The basis points of all tiers whose range has the unit. */
  function RateAt(tiers: seq<Tier>, x: int): int {
    if tiers == [] then 0
    else (if Contains(tiers[0], x) then tiers[0].basisPoints as int else 0) + RateAt(tiers[1..], x)
  }

  /** The rates of the units of [0, amount), added up. */
  function Marginal(tiers: seq<Tier>, amount: int): int
    decreases if amount < 0 then 0 else amount
  {
    if amount <= 0 then 0 else Marginal(tiers, amount - 1) + RateAt(tiers, amount - 1)
  }

  function Containing(tiers: seq<Tier>, x: int): nat {
    if tiers == [] then 0 else (if Contains(tiers[0], x) then 1 else 0) + Containing(tiers[1..], x)
  }

  function OverlapTotal(tiers: seq<Tier>, amount: int): int {
    if tiers == [] then 0 else Overlap(tiers[0], amount) + OverlapTotal(tiers[1..], amount)
  }

  predicate NoneNegative(tiers: seq<Tier>) { forall i :: 0 <= i < |tiers| ==> tiers[i].minMinor >= 0 }

  lemma OverlapNext(t: Tier, x: int)
    requires t.minMinor >= 0 && x >= 0
    ensures Overlap(t, x + 1) == Overlap(t, x) + if Contains(t, x) then 1 else 0
  {
  }

  lemma {:induction false} ExactNext(tiers: seq<Tier>, x: int)
    requires NoneNegative(tiers) && x >= 0
    ensures Exact(tiers, x + 1) == Exact(tiers, x) + RateAt(tiers, x)
    ensures OverlapTotal(tiers, x + 1) == OverlapTotal(tiers, x) + Containing(tiers, x)
  {
    if tiers != [] {
      hide Overlap, Contains;
      OverlapNext(tiers[0], x);
      ExactNext(tiers[1..], x);
      Distribute(tiers[0].basisPoints as int, Overlap(tiers[0], x), Overlap(tiers[0], x + 1));
    }
  }

  lemma Distribute(bps: int, before: int, after: int)
    ensures after == before + 1 ==> bps * after == bps * before + bps
  {
  }

  lemma {:induction false} NothingOfNothing(tiers: seq<Tier>, amount: int)
    requires NoneNegative(tiers) && amount <= 0
    ensures Exact(tiers, amount) == 0 && OverlapTotal(tiers, amount) == 0
  {
    if tiers != [] {
      NothingOfNothing(tiers[1..], amount);
    }
  }

  /** The percentage part, before rounding, is the rate of every single unit. */
  lemma {:induction false} ExactIsMarginal(tiers: seq<Tier>, amount: int)
    requires NoneNegative(tiers)
    ensures Exact(tiers, amount) == Marginal(tiers, amount)
    decreases if amount < 0 then 0 else amount
  {
    if amount <= 0 {
      NothingOfNothing(tiers, amount);
    } else {
      ExactIsMarginal(tiers, amount - 1);
      ExactNext(tiers, amount - 1);
    }
  }

  // ----- tiers that cover every amount once -----

  /** Every amount lies in the range of exactly one of the tiers. */
  ghost predicate IsCover(tiers: seq<Tier>) {
    NoneNegative(tiers) && forall x :: x >= 0 ==> IsCovered(tiers, x)
  }

  ghost predicate IsCovered(tiers: seq<Tier>, x: int) { exists i :: IsOnly(tiers, i, x) }

  predicate IsOnly(tiers: seq<Tier>, i: int, x: int) {
    0 <= i < |tiers| && Contains(tiers[i], x) && forall j :: 0 <= j < |tiers| && j != i ==> !Contains(tiers[j], x)
  }

  lemma {:induction false} NoneHas(tiers: seq<Tier>, x: int)
    requires forall j :: 0 <= j < |tiers| ==> !Contains(tiers[j], x)
    ensures Containing(tiers, x) == 0
  {
    if tiers != [] {
      NoneHas(tiers[1..], x);
    }
  }

  lemma {:induction false} OneHas(tiers: seq<Tier>, i: int, x: int)
    requires IsOnly(tiers, i, x)
    ensures Containing(tiers, x) == 1
  {
    hide Contains;
    if i == 0 {
      NoneHas(tiers[1..], x);
    } else {
      assert !Contains(tiers[0], x) && tiers[1..][i - 1] == tiers[i];
      assert forall j :: 0 <= j < |tiers[1..]| ==> tiers[1..][j] == tiers[j + 1];
      OneHas(tiers[1..], i - 1, x);
    }
  }

  /** Nothing is paid for twice and nothing is left out: the tiers' intersections with an amount add up to it. */
  lemma {:induction false} CoverAddsUp(tiers: seq<Tier>, amount: nat)
    requires IsCover(tiers)
    ensures OverlapTotal(tiers, amount) == amount
  {
    if amount == 0 {
      NothingOfNothing(tiers, 0);
    } else {
      CoverAddsUp(tiers, amount - 1);
      ExactNext(tiers, amount - 1);
      assert IsCovered(tiers, amount - 1);
      var i :| IsOnly(tiers, i, amount - 1);
      OneHas(tiers, i, amount - 1);
    }
  }

  lemma {:induction false} OnlyFixed(tiers: seq<Tier>, amount: int)
    ensures (forall j :: 0 <= j < |tiers| ==> !Contains(tiers[j], amount)) ==>
      Total(tiers, amount) == PercentageTotal(tiers, amount)
    ensures forall i :: IsOnly(tiers, i, amount) ==>
      Total(tiers, amount) == PercentageTotal(tiers, amount) + tiers[i].fixedMinor as int
  {
    if tiers != [] {
      var rest := tiers[1..];
      OnlyFixed(rest, amount);
      hide Contains, Percentage;
      assert forall j :: 0 <= j < |rest| ==> rest[j] == tiers[j + 1];
      forall i | IsOnly(tiers, i, amount)
        ensures Total(tiers, amount) == PercentageTotal(tiers, amount) + tiers[i].fixedMinor as int
      {
        if i > 0 {
          assert IsOnly(rest, i - 1, amount);
        }
      }
    }
  }

  /**
   Tiers that cover every amount pay each unit at the rate of its own tier, losing less than one per tier to rounding,
   and the fixed part of the tier in which the amount lies.
   */
  lemma CoverPays(tiers: seq<Tier>, amount: nat, i: int)
    requires IsCover(tiers) && IsOnly(tiers, i, amount)
    ensures var percentage := Total(tiers, amount) - tiers[i].fixedMinor as int;
      10_000 * percentage <= Marginal(tiers, amount) <= 10_000 * percentage + 9_999 * |tiers|
  {
    OnlyFixed(tiers, amount);
    ExactIsMarginal(tiers, amount);
    RoundingLosesLessThanOnePerTier(tiers, amount);
    hide Total, Marginal, Exact, PercentageTotal, IsCover;
  }

  /** Ranges that follow each other from zero on, the last of them open, are such a cover. */
  predicate IsChain(tiers: seq<Tier>, from: int) {
    tiers != [] && tiers[0].minMinor as int == from &&
    if |tiers| == 1 then tiers[0].maxMinor == 0
    else tiers[0].maxMinor as int > from && tiers[0].maxMinor != 0 && IsChain(tiers[1..], tiers[0].maxMinor as int)
  }

  lemma {:induction false} ChainBegins(tiers: seq<Tier>, from: int)
    requires IsChain(tiers, from)
    ensures forall j, x :: 0 <= j < |tiers| && x < from ==> !Contains(tiers[j], x)
    ensures from >= 0 ==> NoneNegative(tiers)
  {
    if |tiers| > 1 {
      ChainBegins(tiers[1..], tiers[0].maxMinor as int);
    }
  }

  lemma {:induction false} ChainHas(tiers: seq<Tier>, from: int, x: int) returns (i: int)
    requires IsChain(tiers, from) && x >= from
    ensures IsOnly(tiers, i, x)
    decreases |tiers|
  {
    if |tiers| == 1 {
      i := 0;
    } else {
      ChainBegins(tiers[1..], tiers[0].maxMinor as int);
      assert forall j :: 0 < j < |tiers| ==> tiers[j] == tiers[1..][j - 1];
      if x < tiers[0].maxMinor as int {
        i := 0;
      } else {
        var k := ChainHas(tiers[1..], tiers[0].maxMinor as int, x);
        i := k + 1;
      }
    }
  }

  lemma ChainCovers(tiers: seq<Tier>)
    requires IsChain(tiers, 0)
    ensures IsCover(tiers)
  {
    ChainBegins(tiers, 0);
    hide Contains, IsOnly;
    forall x | x >= 0
      ensures IsCovered(tiers, x)
    {
      var i := ChainHas(tiers, 0, x);
    }
  }
}
