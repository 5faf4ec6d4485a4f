/** Programs within templates: an accepted program never pays more than its template, slot by slot and in all. */
module CommissionCap {
  import opened Prelude
  import opened Sorting
  import opened CommissionFormula

  datatype ProgramStatus = DraftProgram | PendingApproval | ActiveProgram | SuspendedProgram | RetiredProgram

  datatype Program = Program(
    id: string, tenant: string, templateID: string, templateVersion: int64, status: ProgramStatus, version: int64,
      rules: seq<Rule>)

  datatype Attribution = Attribution(
    tenant: string, programID: string, slot: string, beneficiary: Beneficiary, active: bool, version: int64)

  datatype ProgramError = InvalidProgram | ProgramExceedsTemplate

  // ----- one rule within another -----

  /** Range first, then rates: the order of `sortedTiers`. */
  predicate TierOrder(a: Tier, b: Tier) {
    if a.minMinor != b.minMinor then a.minMinor < b.minMinor
    else if a.maxMinor != b.maxMinor then a.maxMinor < b.maxMinor
    else if a.basisPoints != b.basisPoints then a.basisPoints < b.basisPoints
    else a.fixedMinor <= b.fixedMinor
  }

  /** Same range, and nowhere a higher rate. */
  predicate IsDominated(t: Tier, cap: Tier) {
    t.minMinor == cap.minMinor && t.maxMinor == cap.maxMinor && t.basisPoints <= cap.basisPoints &&
      t.fixedMinor <= cap.fixedMinor
  }

  predicate AllDominated(tiers: seq<Tier>, caps: seq<Tier>) {
    |tiers| == |caps| && forall i :: 0 <= i < |tiers| ==> IsDominated(tiers[i], caps[i])
  }

  predicate RuleWithinCap(rule: Rule, cap: Rule) {
    AllDominated(Sort(rule.tiers, TierOrder), Sort(cap.tiers, TierOrder))
  }

  lemma SortedTiers(tiers: seq<Tier>)
    ensures multiset(Sort(tiers, TierOrder)) == multiset(tiers) && |Sort(tiers, TierOrder)| == |tiers|
  {
    SortSorts(tiers, TierOrder);
  }

  method CheckRuleWithinCap(rule: Rule, cap: Rule) returns (within: bool)
    ensures within <==> RuleWithinCap(rule, cap)
  {
    SortedTiers(rule.tiers);
    SortedTiers(cap.tiers);
    hide Sort, TierOrder;
    if |rule.tiers| != |cap.tiers| {
      return false;
    }
    var tiers, caps := Sort(rule.tiers, TierOrder), Sort(cap.tiers, TierOrder);
    var index := 0;
    while index < |tiers|
      invariant 0 <= index <= |tiers|
      invariant forall i :: 0 <= i < index ==> IsDominated(tiers[i], caps[i])
    {
      var tier, capTier := tiers[index], caps[index];
      if tier.minMinor != capTier.minMinor || tier.maxMinor != capTier.maxMinor ||
        tier.basisPoints > capTier.basisPoints ||
         tier.fixedMinor > capTier.fixedMinor {
        return false;
      }
      index := index + 1;
    }
    return true;
  }

  lemma DominatedShare(t: Tier, cap: Tier, amount: int)
    requires IsDominated(t, cap)
    ensures Share(t, amount) <= Share(cap, amount)
  {
    var overlap := Overlap(t, amount);
    assert overlap == Overlap(cap, amount);
    MultiplyMonotoneLeft(overlap, t.basisPoints as int, cap.basisPoints as int);
  }

  lemma MultiplyMonotoneLeft(overlap: int, a: int, b: int)
    requires 0 <= overlap && a <= b
    ensures a * overlap / 10_000 <= b * overlap / 10_000
  {
    assert a * overlap <= b * overlap;
  }

  lemma {:induction false} DominatedTotal(tiers: seq<Tier>, caps: seq<Tier>, amount: int)
    requires AllDominated(tiers, caps)
    ensures Total(tiers, amount) <= Total(caps, amount)
  {
    if tiers != [] {
      hide Share;
      DominatedShare(tiers[0], caps[0], amount);
      DominatedTotal(tiers[1..], caps[1..], amount);
    }
  }

  /** A rule within a cap pays at most the cap's amount, whatever the commissionable amount. */
  lemma WithinCapPaysLess(rule: Rule, cap: Rule, amount: int)
    requires RuleWithinCap(rule, cap)
    ensures Total(rule.tiers, amount) <= Total(cap.tiers, amount)
  {
    SortedTiers(rule.tiers);
    SortedTiers(cap.tiers);
    TotalOfPermutation(rule.tiers, Sort(rule.tiers, TierOrder), amount);
    TotalOfPermutation(cap.tiers, Sort(cap.tiers, TierOrder), amount);
    DominatedTotal(Sort(rule.tiers, TierOrder), Sort(cap.tiers, TierOrder), amount);
  }

  // ----- a program within a template -----

  /** The first rule of a slot. */
  function RuleOf(rules: seq<Rule>, slot: string): (found: Option<nat>)
    ensures found.Some? ==> found.value < |rules| && rules[found.value].slot == slot
    ensures found.None? ==> forall i :: 0 <= i < |rules| ==> rules[i].slot != slot
  {
    if rules == [] then None
    else if rules[0].slot == slot then Some(0)
    else match RuleOf(rules[1..], slot) case None => None case Some(i) => Some(i + 1)
  }

  /** The first problem of the rules, when `seen` slots came before them. */
  function RulesProblem(rules: seq<Rule>, seen: set<string>, template: Template): Option<ProgramError> {
    if rules == [] then None
    else
      var cap := RuleOf(template.rules, rules[0].slot);
      if !ValidRule(rules[0], true) || rules[0].slot in seen then Some(InvalidProgram)
      else if cap.None? || !RuleWithinCap(rules[0], template.rules[cap.value]) then Some(ProgramExceedsTemplate)
      else RulesProblem(rules[1..], seen + {rules[0].slot}, template)
  }

  function ProgramProblem(program: Program, template: Template): Option<ProgramError> {
    if program.id == "" || program.tenant == "" || program.templateID == "" || program.templateVersion <= 0 ||
      program.rules == [] then
      Some(InvalidProgram)
    else if template.id != program.templateID || template.version != program.templateVersion then Some(InvalidProgram)
    else RulesProblem(program.rules, {}, template)
  }

  method ValidateProgramAgainstTemplate(program: Program, template: Template) returns (error: Option<ProgramError>)
    ensures error == ProgramProblem(program, template)
  {
    if program.id == "" || program.tenant == "" || program.templateID == "" || program.templateVersion <= 0 ||
      |program.rules| == 0 {
      return Some(InvalidProgram);
    }
    if template.id != program.templateID || template.version != program.templateVersion {
      return Some(InvalidProgram);
    }
    hide RuleWithinCap, ValidRule;
    var rules := program.rules;
    var slots: set<string> := {};
    var i := 0;
    assert rules[0..] == rules;
    while i < |rules|
      invariant 0 <= i <= |rules| && RulesProblem(rules, {}, template) == RulesProblem(rules[i..], slots, template)
    {
      var rule := rules[i];
      assert rules[i..][0] == rule && rules[i..][1..] == rules[i + 1..];
      if !ValidRule(rule, true) || rule.slot in slots {
        return Some(InvalidProgram);
      }
      slots := slots + {rule.slot};
      var cap := RuleOf(template.rules, rule.slot);
      if cap.None? {
        return Some(ProgramExceedsTemplate);
      }
      var within := CheckRuleWithinCap(rule, template.rules[cap.value]);
      if !within {
        return Some(ProgramExceedsTemplate);
      }
      i := i + 1;
    }
    return None;
  }

  /** Every rule has its own slot and stays within the template's rule for it. */
  ghost predicate StaysWithin(rules: seq<Rule>, template: Template) {
    (forall i, j :: 0 <= i < j < |rules| ==> rules[i].slot != rules[j].slot) &&
    (forall i :: 0 <= i < |rules| ==>
       RuleOf(template.rules, rules[i].slot).Some? &&
       RuleWithinCap(rules[i], template.rules[RuleOf(template.rules, rules[i].slot).value]))
  }

  lemma {:induction false} AcceptedRules(rules: seq<Rule>, seen: set<string>, template: Template)
    requires RulesProblem(rules, seen, template).None?
    ensures StaysWithin(rules, template) && forall i :: 0 <= i < |rules| ==>
      rules[i].slot !in seen && ValidRule(rules[i], true)
  {
    if rules != [] {
      hide RuleWithinCap, ValidRule, StaysWithin;
      AcceptedRules(rules[1..], seen + {rules[0].slot}, template);
      StaysWithinCons(rules, template);
    }
  }

  lemma StaysWithinCons(rules: seq<Rule>, template: Template)
    requires rules != [] && StaysWithin(rules[1..], template)
    requires forall i :: 0 <= i < |rules[1..]| ==> rules[1..][i].slot != rules[0].slot
    requires RuleOf(template.rules, rules[0].slot).Some? &&
             RuleWithinCap(rules[0], template.rules[RuleOf(template.rules, rules[0].slot).value])
    ensures StaysWithin(rules, template)
  {
    hide RuleWithinCap;
    var rest := rules[1..];
    assert forall i :: 0 < i < |rules| ==> rules[i] == rest[i - 1];
  }

  // ----- attributions -----

  /** The last active attribution of a slot decides who is paid. */
  function BeneficiaryFor(attributions: seq<Attribution>, rule: Rule): Beneficiary
    decreases |attributions|
  {
    if attributions == [] then rule.beneficiary
    else
      var last := attributions[|attributions| - 1];
      if last.active && last.slot == rule.slot then last.beneficiary
      else BeneficiaryFor(attributions[..|attributions| - 1], rule)
  }

  function EffectiveRules(rules: seq<Rule>, attributions: seq<Attribution>): (effective: seq<Rule>)
    ensures |effective| == |rules|
    ensures forall i :: 0 <= i < |rules| ==>
      effective[i].slot == rules[i].slot && effective[i].tiers == rules[i].tiers &&
      effective[i].beneficiary == BeneficiaryFor(attributions, rules[i])
  {
    seq(|rules|, i requires 0 <= i < |rules| => rules[i].(beneficiary := BeneficiaryFor(attributions, rules[i])))
  }

  method EffectiveTemplate(template: Template, program: Program, attributions: seq<Attribution>)
    returns (effective: Template)
    ensures effective == template.(rules := EffectiveRules(program.rules, attributions))
  {
    var bySlot: map<string, Beneficiary> := map[];
    var i := 0;
    assert attributions[..0] == [];
    while i < |attributions|
      invariant 0 <= i <= |attributions|
      invariant forall r: Rule ::
        BeneficiaryFor(attributions[..i], r) == if r.slot in bySlot then bySlot[r.slot] else r.beneficiary
    {
      assert attributions[..i + 1][..i] == attributions[..i] && attributions[..i + 1][i] == attributions[i];
      if attributions[i].active {
        bySlot := bySlot[attributions[i].slot := attributions[i].beneficiary];
      }
      i := i + 1;
    }
    assert attributions[..i] == attributions;
    var rules := program.rules;
    var index := 0;
    while index < |rules|
      invariant 0 <= index <= |rules| && |rules| == |program.rules|
      invariant rules[index..] == program.rules[index..]
      invariant rules[..index] == EffectiveRules(program.rules, attributions)[..index]
    {
      assert rules[index] == rules[index..][0] == program.rules[index..][0] == program.rules[index];
      var beneficiary := if rules[index].slot in bySlot then bySlot[rules[index].slot] else rules[index].beneficiary;
      assert beneficiary == BeneficiaryFor(attributions, program.rules[index]);
      rules := rules[index := rules[index].(beneficiary := beneficiary)];
      index := index + 1;
    }
    assert rules[..index] == rules;
    return template.(rules := rules);
  }

  // ----- cap soundness -----

  lemma {:induction false} TotalWithout(rules: seq<Rule>, i: nat, amount: int)
    requires i < |rules|
    ensures RulesTotal(rules, amount) == Total(rules[i].tiers, amount) + RulesTotal(rules[..i] + rules[i + 1..], amount)
  {
    if i == 0 {
      assert rules[..0] + rules[1..] == rules[1..];
    } else {
      TotalWithout(rules[1..], i - 1, amount);
      assert (rules[..i] + rules[i + 1..])[1..] == rules[1..][..i - 1] + rules[1..][i..];
    }
  }

  lemma {:induction false} RuleOfWithout(rules: seq<Rule>, i: nat, slot: string)
    requires i < |rules| && rules[i].slot != slot && RuleOf(rules, slot).Some?
    ensures var rest := rules[..i] + rules[i + 1..];
      RuleOf(rest, slot).Some? && rest[RuleOf(rest, slot).value] == rules[RuleOf(rules, slot).value]
  {
    var rest := rules[..i] + rules[i + 1..];
    if i == 0 {
      assert rest == rules[1..];
    } else {
      assert rest == [rules[0]] + (rules[1..][..i - 1] + rules[1..][i..]);
      assert rest[1..] == rules[1..][..i - 1] + rules[1..][i..];
      if rules[0].slot != slot {
        assert rules[1..][i - 1] == rules[i];
        RuleOfWithout(rules[1..], i - 1, slot);
      }
    }
  }

  lemma {:induction false} WithinPaysLess(rules: seq<Rule>, template: Template, amount: int)
    requires StaysWithin(rules, template)
    requires forall i :: 0 <= i < |template.rules| ==> ValidTiers(template.rules[i].tiers)
    ensures RulesTotal(rules, amount) <= RulesTotal(template.rules, amount)
    decreases |rules|
  {
    if rules == [] {
      RulesTotalNonNegative(template.rules, amount);
    } else {
      hide RuleWithinCap, Total;
      var i := RuleOf(template.rules, rules[0].slot).value;
      var others := template.(rules := template.rules[..i] + template.rules[i + 1..]);
      forall j | 0 <= j < |rules[1..]|
        ensures var slot := rules[1..][j].slot;
          RuleOf(others.rules, slot).Some? &&
            RuleWithinCap(rules[1..][j], others.rules[RuleOf(others.rules, slot).value])
      {
        assert rules[1..][j] == rules[j + 1];
        RuleOfWithout(template.rules, i, rules[j + 1].slot);
      }
      WithinPaysLess(rules[1..], others, amount);
      TotalWithout(template.rules, i, amount);
      WithinCapPaysLess(rules[0], template.rules[i], amount);
    }
  }

  /**
   An accepted program pays at most what its template would, for every amount and any attributions: each
   slot at most the template's rule for the slot, and all slots together at most the whole template.
   */
  lemma CapSoundness(program: Program, template: Template, attributions: seq<Attribution>, amount: int)
    requires ProgramProblem(program, template).None?
    requires forall i :: 0 <= i < |template.rules| ==> ValidTiers(template.rules[i].tiers)
    ensures var rules := EffectiveRules(program.rules, attributions);
      (forall i :: 0 <= i < |rules| ==>
         RuleOf(template.rules, rules[i].slot).Some? &&
         Total(rules[i].tiers, amount) <= Total(template.rules[RuleOf(template.rules, rules[i].slot).value].tiers,
           amount)) &&
      RulesTotal(rules, amount) <= RulesTotal(template.rules, amount)
  {
    AcceptedRules(program.rules, {}, template);
    hide RulesProblem, RuleWithinCap, Total, ValidTiers;
    var rules := EffectiveRules(program.rules, attributions);
    forall i | 0 <= i < |rules|
      ensures RuleOf(template.rules, rules[i].slot).Some? &&
        Total(rules[i].tiers, amount) <= Total(template.rules[RuleOf(template.rules, rules[i].slot).value].tiers,
          amount)
    {
      WithinCapPaysLess(program.rules[i], template.rules[RuleOf(template.rules, rules[i].slot).value], amount);
    }
    WithinPaysLess(program.rules, template, amount);
    SameTiersSameTotal(rules, program.rules, amount);
  }

  lemma {:induction false} SameTiersSameTotal(a: seq<Rule>, b: seq<Rule>, amount: int)
    requires |a| == |b| && forall i :: 0 <= i < |a| ==> a[i].tiers == b[i].tiers
    ensures RulesTotal(a, amount) == RulesTotal(b, amount)
  {
    if a != [] {
      SameTiersSameTotal(a[1..], b[1..], amount);
    }
  }

  /** Where the template's own calculation would fit, the accepted program's fits too. */
  lemma CapPreventsOverflow(program: Program, template: Template, attributions: seq<Attribution>, event: Event)
    requires ProgramProblem(program, template).None?
    requires forall i :: 0 <= i < |template.rules| ==> ValidTiers(template.rules[i].tiers)
    requires RulesTotal(template.rules, event.commissionable.minor as int) <= MAX_INT64 as int
    requires IsCapped(template) ==>
      RulesTotal(template.rules, event.commissionable.minor as int) <= template.maxCommission.minor as int
    ensures var effective := template.(rules := EffectiveRules(program.rules, attributions));
      IsWellFormed(effective, event) ==> CalculationProblem(effective, event).None?
  {
    CapSoundness(program, template, attributions, event.commissionable.minor as int);
    CalculationExact(template.(rules := EffectiveRules(program.rules, attributions)), event);
  }

  /** The amount is at most what the first of the rules for the slot would pay. */
  predicate IsWithin(slot: string, minor: int, caps: seq<Rule>, amount: int) {
    var cap := RuleOf(caps, slot);
    cap.Some? && minor <= Total(caps[cap.value].tiers, amount)
  }

  /** Each payout stays within the template's rule for its slot when the rules do. */
  lemma {:induction false} PayoutsWithin(rules: seq<Rule>, caps: seq<Rule>, paid: Amount)
    requires forall i :: 0 <= i < |rules| ==>
      IsWithin(rules[i].slot, Total(rules[i].tiers, paid.minor as int), caps, paid.minor as int)
    ensures forall c :: c in Payouts(rules, paid) ==> IsWithin(c.slot, c.amount.minor as int, caps, paid.minor as int)
  {
    hide IsWithin, Total;
    if rules != [] {
      PayoutsWithin(rules[1..], caps, paid);
    }
  }
}
