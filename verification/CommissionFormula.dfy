/** Commission amounts: tiers, rules, and the calculation of one event, in 64-bit arithmetic. */
module CommissionFormula {
  import opened Prelude
  import opened WhiteSpace
  import opened Sorting

  newtype int64 = x: int | -0x8000_0000_0000_0000 <= x <= 0x7FFF_FFFF_FFFF_FFFF

  const MAX_INT64: int64 := 0x7FFF_FFFF_FFFF_FFFF

  const BASIS_POINTS: int64 := 10_000

  datatype Amount = Amount(currency: string, minor: int64)

  datatype Tier = Tier(minMinor: int64, maxMinor: int64, basisPoints: int64, fixedMinor: int64)

  datatype BeneficiaryKind = NoKind | TenantAccount | UserAccount | ExternalAccount

  datatype Beneficiary = Beneficiary(kind: BeneficiaryKind, id: string)

  datatype Rule = Rule(slot: string, beneficiary: Beneficiary, tiers: seq<Tier>)

  datatype TemplateStatus = DraftTemplate | ActiveTemplate | RetiredTemplate

  /** `maxCommission` is absent when its minor amount is zero. */
  datatype Template = Template(
    id: string, version: int64, status: TemplateStatus, allowedEventTypes: seq<string>, maxCommission: Amount,
    freezePeriod: int, rules: seq<Rule>)

  /** `occurredAt` is zero for Go's zero time. */
  datatype Event = Event(
    tenant: string, sourceType: string, sourceID: string, occurredAt: int, commissionable: Amount,
      attributes: map<string, string>)

  datatype Calculation = Calculation(slot: string, beneficiary: Beneficiary, amount: Amount)

  datatype Error =
    | InvalidEvent | InvalidTemplate | InvalidRule | InvalidBeneficiary | InvalidTier
    | EventTypeDisabled | CurrencyMismatch | AmountOverflow | CommissionCapExceeded

  // ----- validity -----

  predicate ValidAmount(a: Amount) {
    a.minor >= 0 && |a.currency| == 3 && forall i :: 0 <= i < |a.currency| ==> 'A' <= a.currency[i] <= 'Z'
  }

  predicate ValidEvent(e: Event) {
    e.tenant != "" && !IsBlank(e.sourceType) && !IsBlank(e.sourceID) && e.occurredAt != 0 &&
      ValidAmount(e.commissionable)
  }

  predicate ValidTier(t: Tier) {
    t.minMinor >= 0 && t.maxMinor >= 0 && (t.maxMinor != 0 ==> t.maxMinor > t.minMinor) &&
    0 <= t.basisPoints <= BASIS_POINTS && t.fixedMinor >= 0 && !(t.basisPoints == 0 && t.fixedMinor == 0)
  }

  predicate ValidTiers(tiers: seq<Tier>) { forall i :: 0 <= i < |tiers| ==> ValidTier(tiers[i]) }

  predicate ValidBeneficiary(b: Beneficiary) { !IsBlank(b.id) && !b.kind.NoKind? }

  /** What is wrong with a rule; only effective rules need a beneficiary. */
  function RuleProblem(r: Rule, requireBeneficiary: bool): Option<Error> {
    if IsBlank(r.slot) || r.tiers == [] then Some(InvalidRule)
    else if (requireBeneficiary || !r.beneficiary.kind.NoKind? || r.beneficiary.id != "") &&
            !ValidBeneficiary(r.beneficiary) then
      Some(InvalidBeneficiary)
    else if !ValidTiers(r.tiers) then Some(InvalidTier)
    else None
  }

  predicate ValidRule(r: Rule, requireBeneficiary: bool) { RuleProblem(r, requireBeneficiary).None? }

  function FirstRuleProblem(rules: seq<Rule>): Option<Error> {
    if rules == [] then None
    else if RuleProblem(rules[0], false).Some? then RuleProblem(rules[0], false)
    else FirstRuleProblem(rules[1..])
  }

  function TemplateProblem(t: Template): Option<Error> {
    if t.freezePeriod < 0 || (t.maxCommission != Amount("", 0) && !ValidAmount(t.maxCommission)) ||
       "" in t.allowedEventTypes then
      Some(InvalidTemplate)
    else FirstRuleProblem(t.rules)
  }

  predicate ValidCalculationTemplate(t: Template) { TemplateProblem(t).None? }

  // ----- the exact amounts, over the integers -----

  /** How much of [0, amount) falls into the tier's range. */
  function Overlap(t: Tier, amount: int): (overlap: int)
    ensures overlap >= 0
  {
    var upper := if t.maxMinor != 0 && amount > t.maxMinor as int then t.maxMinor as int else amount;
    if upper <= t.minMinor as int then 0 else upper - t.minMinor as int
  }

  predicate Contains(t: Tier, amount: int) {
    t.minMinor as int <= amount && (t.maxMinor == 0 || amount < t.maxMinor as int)
  }

  /** The units of [0, amount), one by one, that lie in the tier's range. */
  ghost function Units(t: Tier, amount: int): set<int> { set x: int | 0 <= x < amount && Contains(t, x) }

  lemma {:induction false} OverlapCounts(t: Tier, amount: int)
    requires t.minMinor >= 0
    ensures Overlap(t, amount) == |Units(t, amount)|
    decreases if amount < 0 then 0 else amount
  {
    if amount > 0 {
      OverlapCounts(t, amount - 1);
      var before, unit := Units(t, amount - 1), amount - 1;
      if Contains(t, unit) {
        assert Units(t, amount) == before + {unit} && unit !in before;
      } else {
        assert Units(t, amount) == before;
      }
    } else {
      assert Units(t, amount) == {};
    }
  }

  function Percentage(t: Tier, amount: int): int { t.basisPoints as int * Overlap(t, amount) / 10_000 }

  function Share(t: Tier, amount: int): int {
    Percentage(t, amount) + if Contains(t, amount) then t.fixedMinor as int else 0
  }

  /** What a rule pays, before any limit of the machine's integers. */
  function Total(tiers: seq<Tier>, amount: int): int {
    if tiers == [] then 0 else Share(tiers[0], amount) + Total(tiers[1..], amount)
  }

  function RulesTotal(rules: seq<Rule>, amount: int): int {
    if rules == [] then 0 else Total(rules[0].tiers, amount) + RulesTotal(rules[1..], amount)
  }

  lemma ShareNonNegative(t: Tier, amount: int)
    requires ValidTier(t)
    ensures 0 <= Percentage(t, amount) <= Overlap(t, amount) && 0 <= Share(t, amount)
  {
    PercentageBounds(t.basisPoints as int, Overlap(t, amount));
  }

  lemma PercentageBounds(bps: int, minor: int)
    requires 0 <= bps <= 10_000 && 0 <= minor
    ensures 0 <= bps * minor / 10_000 <= minor
  {
    assert 0 <= bps * minor <= 10_000 * minor;
  }

  lemma {:induction false} TotalNonNegative(tiers: seq<Tier>, amount: int)
    requires ValidTiers(tiers)
    ensures 0 <= Total(tiers, amount)
  {
    if tiers != [] {
      ShareNonNegative(tiers[0], amount);
      TotalNonNegative(tiers[1..], amount);
    }
  }

  lemma {:induction false} TotalAppend(a: seq<Tier>, b: seq<Tier>, amount: int)
    ensures Total(a + b, amount) == Total(a, amount) + Total(b, amount)
  {
    if a == [] {
      assert a + b == b;
    } else {
      assert (a + b)[1..] == a[1..] + b;
      TotalAppend(a[1..], b, amount);
    }
  }

  /** The amount does not depend on the order of the tiers. */
  lemma {:induction false} TotalOfPermutation(a: seq<Tier>, b: seq<Tier>, amount: int)
    requires multiset(a) == multiset(b)
    ensures Total(a, amount) == Total(b, amount)
    decreases |a|
  {
    hide Share;
    if a == [] {
      assert |multiset(b)| == 0;
    } else {
      var i := PermutationWithout(a, b);
      TotalOfPermutation(a[1..], b[..i] + b[i + 1..], amount);
      TotalAppend(b[..i], b[i + 1..], amount);
      TotalAppend(b[..i], [b[i]] + b[i + 1..], amount);
      assert b == b[..i] + ([b[i]] + b[i + 1..]) && ([b[i]] + b[i + 1..])[1..] == b[i + 1..];
    }
  }

  /** Sum of basis points times overlap: ten thousand times the exact percentage part. */
  function Exact(tiers: seq<Tier>, amount: int): int {
    if tiers == [] then 0 else tiers[0].basisPoints as int * Overlap(tiers[0], amount) + Exact(tiers[1..], amount)
  }

  function PercentageTotal(tiers: seq<Tier>, amount: int): int {
    if tiers == [] then 0 else Percentage(tiers[0], amount) + PercentageTotal(tiers[1..], amount)
  }

  /** Rounding down loses less than one unit per tier. */
  lemma {:induction false} RoundingLosesLessThanOnePerTier(tiers: seq<Tier>, amount: int)
    ensures 10_000 * PercentageTotal(tiers, amount) <= Exact(tiers, amount)
    ensures Exact(tiers, amount) <= 10_000 * PercentageTotal(tiers, amount) + 9_999 * |tiers|
  {
    if tiers != [] {
      RoundingLosesLessThanOnePerTier(tiers[1..], amount);
    }
  }

  // ----- the machine computation -----

  lemma SplitDivision(whole: int, remainder: int, bps: int)
    ensures (whole * 10_000 + remainder) * bps / 10_000 == whole * bps + remainder * bps / 10_000
  {
    var q, r := whole * bps, remainder * bps;
    assert (whole * 10_000 + remainder) * bps == 10_000 * q + r;
  }

  method PercentageMinor(minor: int64, basisPoints: int64) returns (result: Result<int64, Error>)
    ensures result.Ok? <==> minor >= 0 && 0 <= basisPoints <= BASIS_POINTS
    ensures result.Err? ==> result.error == InvalidTier
    ensures result.Ok? ==>
      result.value as int == basisPoints as int * minor as int / 10_000 && 0 <= result.value <= minor
  {
    if minor < 0 || basisPoints < 0 || basisPoints > BASIS_POINTS {
      return Err(InvalidTier);
    }
    var whole := minor / BASIS_POINTS;
    var remainder := minor % BASIS_POINTS;
    SplitDivision(whole as int, remainder as int, basisPoints as int);
    PercentageBounds(basisPoints as int, minor as int);
    ProductsFit(whole as int, remainder as int, basisPoints as int, minor as int);
    return Ok(whole * basisPoints + remainder * basisPoints / BASIS_POINTS);
  }

  lemma ProductsFit(whole: int, remainder: int, bps: int, minor: int)
    requires 0 <= whole && 0 <= remainder < 10_000 && 0 <= bps <= 10_000 && minor == whole * 10_000 + remainder
    ensures 0 <= whole * bps <= minor && 0 <= remainder * bps <= 100_000_000
  {
    MultiplyMonotone(whole, bps, 10_000);
    MultiplyMonotone(remainder, bps, 10_000);
  }

  lemma MultiplyMonotone(a: int, b: int, c: int)
    requires 0 <= a && 0 <= b <= c
    ensures 0 <= a * b <= a * c
  {
  }

  method TierIntersection(t: Tier, amount: int64) returns (overlap: int64)
    requires t.minMinor >= 0
    ensures overlap as int == Overlap(t, amount as int) == |Units(t, amount as int)|
  {
    OverlapCounts(t, amount as int);
    if amount <= t.minMinor {
      return 0;
    }
    var upper := amount;
    if t.maxMinor != 0 && upper > t.maxMinor {
      upper := t.maxMinor;
    }
    if upper <= t.minMinor {
      return 0;
    }
    return upper - t.minMinor;
  }

  predicate ByMin(a: Tier, b: Tier) { a.minMinor <= b.minMinor }

  /** A rule pays its exact total, and reports overflow exactly when that does not fit. */
  method CalculateRule(rule: Rule, commissionable: int64) returns (result: Result<int64, Error>)
    requires ValidTiers(rule.tiers)
    ensures result.Ok? <==> Total(rule.tiers, commissionable as int) <= MAX_INT64 as int
    ensures result.Ok? ==> result.value as int == Total(rule.tiers, commissionable as int)
    ensures result.Err? ==> result.error == AmountOverflow
  {
    var tiers := Sort(rule.tiers, ByMin);
    SortSorts(rule.tiers, ByMin);
    TotalOfPermutation(rule.tiers, tiers, commissionable as int);
    PermutationValid(rule.tiers, tiers);
    var total: int64 := 0;
    var i := 0;
    while i < |tiers|
      invariant 0 <= i <= |tiers|
      invariant 0 <= total as int == Total(tiers[..i], commissionable as int)
    {
      var tier := tiers[i];
      TotalPrefix(tiers, i, commissionable as int);
      ShareNonNegative(tier, commissionable as int);
      var intersection := TierIntersection(tier, commissionable);
      var percentage := PercentageMinor(intersection, tier.basisPoints);
      if percentage.Err? {
        assert false;
      }
      if total > MAX_INT64 - percentage.value {
        return Err(AmountOverflow);
      }
      total := total + percentage.value;
      if commissionable >= tier.minMinor && (tier.maxMinor == 0 || commissionable < tier.maxMinor) {
        if total > MAX_INT64 - tier.fixedMinor {
          return Err(AmountOverflow);
        }
        total := total + tier.fixedMinor;
      }
      i := i + 1;
    }
    assert tiers[..i] == tiers;
    return Ok(total);
  }

  lemma PermutationValid(a: seq<Tier>, b: seq<Tier>)
    requires multiset(a) == multiset(b) && ValidTiers(a)
    ensures ValidTiers(b)
  {
    forall i | 0 <= i < |b|
      ensures ValidTier(b[i])
    {
      assert b[i] in multiset(a);
    }
  }

  lemma TotalPrefix(tiers: seq<Tier>, i: nat, amount: int)
    requires i < |tiers| && ValidTiers(tiers)
    ensures Total(tiers[..i + 1], amount) == Total(tiers[..i], amount) + Share(tiers[i], amount)
    ensures Total(tiers[..i + 1], amount) <= Total(tiers, amount)
  {
    assert tiers[..i + 1] == tiers[..i] + [tiers[i]];
    TotalAppend(tiers[..i], [tiers[i]], amount);
    assert tiers == tiers[..i + 1] + tiers[i + 1..];
    TotalAppend(tiers[..i + 1], tiers[i + 1..], amount);
    TotalNonNegative(tiers[i + 1..], amount);
  }

  // ----- one event -----

  predicate IsCapped(t: Template) { t.maxCommission.minor > 0 }

  /** Everything the calculation needs but the amounts. */
  predicate IsWellFormed(t: Template, e: Event) {
    ValidEvent(e) && ValidCalculationTemplate(t) && e.sourceType in t.allowedEventTypes &&
    (IsCapped(t) ==> t.maxCommission.currency == e.commissionable.currency) &&
    forall i :: 0 <= i < |t.rules| ==> ValidRule(t.rules[i], true)
  }

  /** The rules that pay something, in rule order. */
  function Payouts(rules: seq<Rule>, paid: Amount): seq<Calculation> {
    if rules == [] then []
    else
      var total := Total(rules[0].tiers, paid.minor as int);
      (if 0 < total <= MAX_INT64 as int
       then [Calculation(rules[0].slot, rules[0].beneficiary, Amount(paid.currency, total as int64))] else []) +
      Payouts(rules[1..], paid)
  }

  function SumOf(calculations: seq<Calculation>): int {
    if calculations == [] then 0 else calculations[0].amount.minor as int + SumOf(calculations[1..])
  }

  lemma {:induction false} RulesTotalPrefix(rules: seq<Rule>, i: nat, amount: int)
    requires i < |rules| && forall j :: 0 <= j < |rules| ==> ValidTiers(rules[j].tiers)
    ensures RulesTotal(rules[..i + 1], amount) == RulesTotal(rules[..i], amount) + Total(rules[i].tiers, amount)
    ensures 0 <= Total(rules[i].tiers, amount) && RulesTotal(rules[..i + 1], amount) <= RulesTotal(rules, amount)
    ensures 0 <= RulesTotal(rules[..i], amount)
  {
    TotalNonNegative(rules[0].tiers, amount);
    if i == 0 {
      RulesTotalNonNegative(rules[1..], amount);
      assert rules[..1][1..] == [];
    } else {
      RulesTotalPrefix(rules[1..], i - 1, amount);
      assert rules[..i + 1][1..] == rules[1..][..i] && rules[..i][1..] == rules[1..][..i - 1];
    }
  }

  lemma {:induction false} RulesTotalNonNegative(rules: seq<Rule>, amount: int)
    requires forall j :: 0 <= j < |rules| ==> ValidTiers(rules[j].tiers)
    ensures 0 <= RulesTotal(rules, amount)
  {
    if rules != [] {
      TotalNonNegative(rules[0].tiers, amount);
      RulesTotalNonNegative(rules[1..], amount);
    }
  }

  lemma {:induction false} PayoutsPrefix(rules: seq<Rule>, i: nat, paid: Amount)
    requires i < |rules|
    ensures Payouts(rules[..i + 1], paid) == Payouts(rules[..i], paid) + Payouts([rules[i]], paid)
  {
    if i == 0 {
      assert rules[..1] == [rules[0]] && rules[..0] == [];
    } else {
      PayoutsPrefix(rules[1..], i - 1, paid);
      assert rules[..i + 1][1..] == rules[1..][..i] && rules[..i][1..] == rules[1..][..i - 1];
    }
  }

  /** When the total fits, the payouts are exactly the non-zero rule totals and add up to it. */
  lemma {:induction false} PayoutsAddUp(rules: seq<Rule>, paid: Amount)
    requires forall j :: 0 <= j < |rules| ==> ValidTiers(rules[j].tiers)
    requires RulesTotal(rules, paid.minor as int) <= MAX_INT64 as int
    ensures SumOf(Payouts(rules, paid)) == RulesTotal(rules, paid.minor as int)
    ensures forall i :: 0 <= i < |Payouts(rules, paid)| ==> Payouts(rules, paid)[i].amount.minor > 0
  {
    if rules != [] {
      TotalNonNegative(rules[0].tiers, paid.minor as int);
      RulesTotalNonNegative(rules[1..], paid.minor as int);
      PayoutsAddUp(rules[1..], paid);
      var total := Total(rules[0].tiers, paid.minor as int);
      if total > 0 {
        var first := Calculation(rules[0].slot, rules[0].beneficiary, Amount(paid.currency, total as int64));
        assert ([first] + Payouts(rules[1..], paid))[1..] == Payouts(rules[1..], paid);
      } else {
        assert [] + Payouts(rules[1..], paid) == Payouts(rules[1..], paid);
      }
    }
  }

  /** The first thing that stops the rules from being paid, when `sofar` has been paid already. */
  function PayingProblem(rules: seq<Rule>, t: Template, amount: int, sofar: int): Option<Error> {
    if rules == [] then None
    else
      var next := sofar + Total(rules[0].tiers, amount);
      if !ValidRule(rules[0], true) then RuleProblem(rules[0], true)
      else if next > MAX_INT64 as int then Some(AmountOverflow)
      else if IsCapped(t) && next > sofar && next > t.maxCommission.minor as int then Some(CommissionCapExceeded)
      else PayingProblem(rules[1..], t, amount, next)
  }

  function CalculationProblem(t: Template, e: Event): Option<Error> {
    if !ValidEvent(e) then Some(InvalidEvent)
    else if TemplateProblem(t).Some? then TemplateProblem(t)
    else if e.sourceType !in t.allowedEventTypes then Some(EventTypeDisabled)
    else if IsCapped(t) && t.maxCommission.currency != e.commissionable.currency then Some(CurrencyMismatch)
    else PayingProblem(t.rules, t, e.commissionable.minor as int, 0)
  }

  lemma ValidRuleTiers(r: Rule)
    requires ValidRule(r, true)
    ensures ValidTiers(r.tiers)
  {
  }

  method FindTemplateProblem(t: Template) returns (problem: Option<Error>)
    ensures problem == TemplateProblem(t)
  {
    if t.freezePeriod < 0 || (t.maxCommission != Amount("", 0) && !ValidAmount(t.maxCommission)) {
      return Some(InvalidTemplate);
    }
    if "" in t.allowedEventTypes {
      return Some(InvalidTemplate);
    }
    var i := 0;
    while i < |t.rules|
      invariant 0 <= i <= |t.rules| && FirstRuleProblem(t.rules) == FirstRuleProblem(t.rules[i..])
    {
      if RuleProblem(t.rules[i], false).Some? {
        return RuleProblem(t.rules[i], false);
      }
      assert t.rules[i..][1..] == t.rules[i + 1..];
      i := i + 1;
    }
    return None;
  }

  method Calculate(template: Template, event: Event) returns (result: Result<seq<Calculation>, Error>)
    ensures match CalculationProblem(template, event)
            case Some(error) => result == Err(error)
            case None => result == Ok(Payouts(template.rules, event.commissionable))
  {
    hide Total, TemplateProblem, ValidEvent, RuleProblem, RulesTotal;
    if !ValidEvent(event) {
      return Err(InvalidEvent);
    }
    var problem := FindTemplateProblem(template);
    if problem.Some? {
      return Err(problem.value);
    }
    if event.sourceType !in template.allowedEventTypes {
      return Err(EventTypeDisabled);
    }
    var capEnabled := template.maxCommission.minor > 0;
    if capEnabled && template.maxCommission.currency != event.commissionable.currency {
      return Err(CurrencyMismatch);
    }
    var rules, amount := template.rules, event.commissionable.minor;
    var calculations: seq<Calculation> := [];
    var total: int64 := 0;
    var i := 0;
    assert rules[0..] == rules;
    while i < |rules|
      invariant 0 <= i <= |rules| && 0 <= total
      invariant PayingProblem(rules, template, amount as int, 0) ==
        PayingProblem(rules[i..], template, amount as int, total as int)
      invariant calculations == Payouts(rules[..i], event.commissionable)
    {
      PayoutsPrefix(rules, i, event.commissionable);
      assert rules[i..][1..] == rules[i + 1..] && rules[i..][0] == rules[i];
      if !ValidRule(rules[i], true) {
        return Err(RuleProblem(rules[i], true).value);
      }
      ValidRuleTiers(rules[i]);
      TotalNonNegative(rules[i].tiers, amount as int);
      var minor := CalculateRule(rules[i], amount);
      if minor.Err? {
        return Err(minor.error);
      }
      if minor.value == 0 {
        i := i + 1;
        continue;
      }
      if total > MAX_INT64 - minor.value {
        return Err(AmountOverflow);
      }
      total := total + minor.value;
      if capEnabled && total > template.maxCommission.minor {
        return Err(CommissionCapExceeded);
      }
      calculations := calculations +
        [Calculation(rules[i].slot, rules[i].beneficiary, Amount(event.commissionable.currency, minor.value))];
      i := i + 1;
    }
    assert rules[..i] == rules;
    return Ok(calculations);
  }

  lemma {:induction false} PayingFits(rules: seq<Rule>, t: Template, amount: int, sofar: int)
    requires 0 <= sofar <= MAX_INT64 as int && (IsCapped(t) ==> sofar <= t.maxCommission.minor as int)
    ensures PayingProblem(rules, t, amount, sofar).None? <==>
      (forall i :: 0 <= i < |rules| ==> ValidRule(rules[i], true)) &&
      sofar + RulesTotal(rules, amount) <= MAX_INT64 as int &&
      (IsCapped(t) ==> sofar + RulesTotal(rules, amount) <= t.maxCommission.minor as int)
    decreases |rules|
  {
    if rules != [] && !ValidRule(rules[0], true) {
      assert PayingProblem(rules, t, amount, sofar) == RuleProblem(rules[0], true);
    } else if rules != [] {
      var next := sofar + Total(rules[0].tiers, amount);
      TotalNonNegative(rules[0].tiers, amount);
      hide Total, ValidRule;
      if next <= MAX_INT64 as int && (IsCapped(t) ==> next <= t.maxCommission.minor as int) {
        PayingFits(rules[1..], t, amount, next);
        assert PayingProblem(rules, t, amount, sofar) == PayingProblem(rules[1..], t, amount, next);
        assert (forall i :: 0 <= i < |rules| ==> ValidRule(rules[i], true)) <==>
          forall i :: 0 <= i < |rules[1..]| ==> ValidRule(rules[1..][i], true) by { FirstAndRest(rules); }
      } else if forall i :: 0 <= i < |rules| ==> ValidRule(rules[i], true) {
        assert forall i :: 0 <= i < |rules[1..]| ==> ValidTiers(rules[1..][i].tiers) by {
          forall i | 0 <= i < |rules[1..]| ensures ValidTiers(rules[1..][i].tiers) { ValidRuleTiers(rules[i + 1]); }
        }
        RulesTotalNonNegative(rules[1..], amount);
      }
    }
  }

  lemma FirstAndRest(rules: seq<Rule>)
    requires rules != [] && ValidRule(rules[0], true)
    ensures (forall i :: 0 <= i < |rules| ==> ValidRule(rules[i], true)) <==>
      forall i :: 0 <= i < |rules[1..]| ==> ValidRule(rules[1..][i], true)
  {
    hide ValidRule;
    assert forall i :: 0 < i < |rules| ==> rules[i] == rules[1..][i - 1];
  }

  /**
   A calculation succeeds exactly when template and event are well formed and the exact total fits the
   64-bit integers and the cap; it then pays the non-zero rule totals in rule order, which add up to it.
   */
  lemma CalculationExact(t: Template, e: Event)
    ensures var total := RulesTotal(t.rules, e.commissionable.minor as int);
      CalculationProblem(t, e).None? <==>
        IsWellFormed(t, e) && total <= MAX_INT64 as int && (IsCapped(t) ==> total <= t.maxCommission.minor as int)
    ensures CalculationProblem(t, e).None? ==>
      SumOf(Payouts(t.rules, e.commissionable)) == RulesTotal(t.rules, e.commissionable.minor as int) &&
      forall i :: 0 <= i < |Payouts(t.rules, e.commissionable)| ==>
        Payouts(t.rules, e.commissionable)[i].amount.minor > 0
  {
    PayingFits(t.rules, t, e.commissionable.minor as int, 0);
    if CalculationProblem(t, e).None? {
      PayoutsAddUp(t.rules, e.commissionable);
    }
  }
}
