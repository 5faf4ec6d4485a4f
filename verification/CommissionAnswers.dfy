/**
 What calculations and program checks answer, field by field: which inputs are calculable, what stops a calculation
 first, who is paid what, and which programs are accepted.
 */
module CommissionAnswers {
  import opened Prelude
  import opened WhiteSpace
  import opened Sorting
  import opened CommissionFormula
  import opened CommissionCap

  // ----- what can be calculated -----

  /** Something else than white space. */
  predicate HasText(s: string) { exists i :: 0 <= i < |s| && s[i] !in " \t\n\r\U{000C}\U{000B}" }

  predicate IsMoney(a: Amount) {
    0 <= a.minor && |a.currency| == 3 && forall c :: c in a.currency ==> c in "ABCDEFGHIJKLMNOPQRSTUVWXYZ"
  }

  predicate IsPayee(b: Beneficiary) { b.kind != NoKind && HasText(b.id) }

  /** A range, open above where it ends at zero, with a rate of at most a hundred percent and not all for nothing. */
  predicate IsRange(t: Tier) {
    0 <= t.minMinor && (t.maxMinor == 0 || t.minMinor < t.maxMinor) && 0 <= t.basisPoints <= 10_000 &&
    0 <= t.fixedMinor && (0 < t.basisPoints || 0 < t.fixedMinor)
  }

  predicate IsRule(r: Rule) { HasText(r.slot) && |r.tiers| > 0 && forall t :: t in r.tiers ==> IsRange(t) }

  predicate IsEvent(e: Event) {
    e.tenant != "" && HasText(e.sourceType) && HasText(e.sourceID) && e.occurredAt != 0 && IsMoney(e.commissionable)
  }

  /** Beneficiaries may be left to programs, but not half given. */
  predicate IsTemplate(t: Template) {
    0 <= t.freezePeriod && (t.maxCommission == Amount("", 0) || IsMoney(t.maxCommission)) &&
    "" !in t.allowedEventTypes &&
    forall r :: r in t.rules ==> IsRule(r) && (r.beneficiary == Beneficiary(NoKind, "") || IsPayee(r.beneficiary))
  }

  /** A cap counts in its own currency. */
  predicate SameCurrency(t: Template, e: Event) {
    0 < t.maxCommission.minor ==> t.maxCommission.currency == e.commissionable.currency
  }

  predicate IsCalculable(t: Template, e: Event) {
    IsEvent(e) && IsTemplate(t) && e.sourceType in t.allowedEventTypes && SameCurrency(t, e) &&
    forall r :: r in t.rules ==> IsPayee(r.beneficiary)
  }

  lemma TextExactly(s: string)
    ensures HasText(s) <==> !IsBlank(s)
  {
    forall i | 0 <= i < |s|
      ensures IsSpace(s[i]) <==> s[i] in " \t\n\r\U{000C}\U{000B}"
    {
    }
  }

  lemma CapitalLetters(c: char)
    ensures 'A' <= c <= 'Z' <==> c in "ABCDEFGHIJKLMNOPQRSTUVWXYZ"
  {
    var letters := "ABCDEFGHIJKLMNOPQRSTUVWXYZ";
    if 'A' <= c <= 'Z' {
      assert letters[c as int - 'A' as int] == c by { LetterAt(c as int - 'A' as int); }
    }
    if i: nat :| i < |letters| && letters[i] == c {
      LetterAt(i);
    }
  }

  lemma LetterAt(i: nat)
    requires i < 26
    ensures "ABCDEFGHIJKLMNOPQRSTUVWXYZ"[i] as int == 'A' as int + i
  {
  }

  lemma MoneyExactly(a: Amount)
    ensures IsMoney(a) <==> ValidAmount(a)
  {
    forall c: char
      ensures 'A' <= c <= 'Z' <==> c in "ABCDEFGHIJKLMNOPQRSTUVWXYZ"
    {
      CapitalLetters(c);
    }
    assert forall i :: 0 <= i < |a.currency| ==> a.currency[i] in a.currency;
  }

  lemma PayeeExactly(b: Beneficiary)
    ensures IsPayee(b) <==> ValidBeneficiary(b)
  {
    TextExactly(b.id);
    hide HasText, IsBlank;
  }

  lemma RangeExactly(t: Tier)
    ensures IsRange(t) <==> ValidTier(t)
  {
  }

  lemma RuleExactly(r: Rule)
    ensures ValidRule(r, true) <==> IsRule(r) && IsPayee(r.beneficiary)
    ensures ValidRule(r, false) <==>
      IsRule(r) && (r.beneficiary == Beneficiary(NoKind, "") || IsPayee(r.beneficiary))
  {
    TextExactly(r.slot);
    TextExactly(r.beneficiary.id);
    TiersExactly(r.tiers);
    hide HasText, IsBlank, IsRange, ValidTiers;
  }

  lemma TiersExactly(tiers: seq<Tier>)
    ensures ValidTiers(tiers) <==> forall t :: t in tiers ==> IsRange(t)
  {
    forall t
      ensures IsRange(t) <==> ValidTier(t)
    {
      RangeExactly(t);
    }
    hide IsRange, ValidTier;
    assert forall i :: 0 <= i < |tiers| ==> tiers[i] in tiers;
  }

  lemma {:induction false} NoRuleProblem(rules: seq<Rule>)
    ensures FirstRuleProblem(rules).None? <==> forall r :: r in rules ==> ValidRule(r, false)
  {
    if rules != [] {
      NoRuleProblem(rules[1..]);
      assert rules[0] in rules && forall r :: r in rules <==> r == rules[0] || r in rules[1..];
      assert FirstRuleProblem(rules).None? <==> ValidRule(rules[0], false) && FirstRuleProblem(rules[1..]).None?;
      hide RuleProblem, FirstRuleProblem;
    }
  }

  lemma EventExactly(e: Event)
    ensures IsEvent(e) <==> ValidEvent(e)
  {
    TextExactly(e.sourceType);
    TextExactly(e.sourceID);
    MoneyExactly(e.commissionable);
    hide HasText, IsBlank, IsMoney, ValidAmount;
  }

  lemma TemplateExactly(t: Template)
    ensures IsTemplate(t) <==> ValidCalculationTemplate(t)
  {
    MoneyExactly(t.maxCommission);
    NoRuleProblem(t.rules);
    forall r
      ensures ValidRule(r, false) <==>
        IsRule(r) && (r.beneficiary == Beneficiary(NoKind, "") || IsPayee(r.beneficiary))
    {
      RuleExactly(r);
    }
    hide IsMoney, ValidAmount, IsRule, IsPayee, RuleProblem, FirstRuleProblem;
    if FirstRuleProblem(t.rules).Some? {
      assert !IsTemplate(t);
    }
  }

  lemma WellFormedExactly(t: Template, e: Event)
    ensures IsWellFormed(t, e) <==> IsCalculable(t, e)
  {
    EventExactly(e);
    TemplateExactly(t);
    forall r
      ensures ValidRule(r, true) <==> IsRule(r) && IsPayee(r.beneficiary)
    {
      RuleExactly(r);
    }
    hide IsEvent, ValidEvent, IsRule, IsPayee, RuleProblem, ValidCalculationTemplate;
    assert forall i :: 0 <= i < |t.rules| ==> t.rules[i] in t.rules;
  }

  /**
   A calculation succeeds exactly when its inputs are calculable and the exact total fits 64 bits and the cap.
   */
  lemma CalculatesExactly(t: Template, e: Event)
    ensures var total := RulesTotal(t.rules, e.commissionable.minor as int);
      CalculationProblem(t, e).None? <==>
        IsCalculable(t, e) && total <= 0x7FFF_FFFF_FFFF_FFFF &&
        (0 < t.maxCommission.minor ==> total <= t.maxCommission.minor as int)
  {
    hide IsCalculable, RulesTotal, IsWellFormed;
    WellFormedExactly(t, e);
    CalculationExact(t, e);
  }

  // ----- what stops a calculation -----

  /** What is wrong before any rule is looked at, in this order. */
  lemma InputsRefused(t: Template, e: Event)
    ensures !IsEvent(e) ==> CalculationProblem(t, e) == Some(InvalidEvent)
    ensures IsEvent(e) && !IsTemplate(t) ==>
      CalculationProblem(t, e) in
        {Some(InvalidTemplate), Some(InvalidRule), Some(InvalidBeneficiary), Some(InvalidTier)}
    ensures IsEvent(e) && IsTemplate(t) && e.sourceType !in t.allowedEventTypes ==>
      CalculationProblem(t, e) == Some(EventTypeDisabled)
    ensures IsEvent(e) && IsTemplate(t) && e.sourceType in t.allowedEventTypes && !SameCurrency(t, e) ==>
      CalculationProblem(t, e) == Some(CurrencyMismatch)
  {
    EventExactly(e);
    TemplateExactly(t);
    RuleProblems(t.rules);
    hide IsEvent, ValidEvent, IsTemplate, RuleProblem, PayingProblem, FirstRuleProblem, ValidAmount;
  }

  lemma {:induction false} RuleProblems(rules: seq<Rule>)
    ensures FirstRuleProblem(rules) in {None, Some(InvalidRule), Some(InvalidBeneficiary), Some(InvalidTier)}
  {
    if rules != [] {
      RuleProblems(rules[1..]);
      assert RuleProblem(rules[0], false) in {None, Some(InvalidRule), Some(InvalidBeneficiary), Some(InvalidTier)};
      hide RuleProblem;
    }
  }

  /** The rules before `k` are paid: each is valid and the sum so far fits 64 bits and the cap. */
  ghost predicate PaidUpTo(t: Template, amount: int, k: nat) {
    k <= |t.rules| && forall i :: 0 <= i < k ==> IsPaid(t, amount, i)
  }

  predicate IsPaid(t: Template, amount: int, i: nat)
    requires i < |t.rules|
  {
    var sum := RulesTotal(t.rules[..i + 1], amount);
    ValidRule(t.rules[i], true) && sum <= 0x7FFF_FFFF_FFFF_FFFF &&
    (0 < t.maxCommission.minor ==> sum <= t.maxCommission.minor as int)
  }

  lemma {:induction false} PayingReaches(t: Template, amount: int, k: nat)
    requires PaidUpTo(t, amount, k)
    ensures PayingProblem(t.rules, t, amount, 0) == PayingProblem(t.rules[k..], t, amount, RulesTotal(t.rules[..k],
      amount))
    decreases k
  {
    hide RuleProblem, Total;
    if k > 0 {
      assert IsPaid(t, amount, k - 1);
    }
    hide IsPaid;
    if k == 0 {
      assert t.rules[0..] == t.rules && t.rules[..0] == [];
    } else {
      PayingReaches(t, amount, k - 1);
      PrefixGrows(t.rules, k - 1, amount);
      assert t.rules[k - 1..][0] == t.rules[k - 1] && t.rules[k - 1..][1..] == t.rules[k..];
    }
  }

  lemma {:induction false} PrefixGrows(rules: seq<Rule>, i: nat, amount: int)
    requires i < |rules|
    ensures RulesTotal(rules[..i + 1], amount) == RulesTotal(rules[..i], amount) + Total(rules[i].tiers, amount)
  {
    hide Total;
    if i == 0 {
      assert rules[..1][1..] == [];
    } else {
      PrefixGrows(rules[1..], i - 1, amount);
      assert rules[..i + 1][1..] == rules[1..][..i] && rules[..i][1..] == rules[1..][..i - 1];
    }
  }

  /** What is wrong with the first rule that cannot be paid. */
  function Unpaid(rule: Rule, paid: int, sum: int, cap: int): Option<Error> {
    if !HasText(rule.slot) || rule.tiers == [] then Some(InvalidRule)
    else if !IsPayee(rule.beneficiary) then Some(InvalidBeneficiary)
    else if !(forall t :: t in rule.tiers ==> IsRange(t)) then Some(InvalidTier)
    else if 0x7FFF_FFFF_FFFF_FFFF < sum then Some(AmountOverflow)
    else if 0 < paid && 0 < cap < sum then Some(CommissionCapExceeded)
    else None
  }

  /** The first rule that cannot be paid says why the calculation of otherwise calculable inputs fails. */
  lemma FirstUnpaid(t: Template, e: Event, k: nat)
    requires IsEvent(e) && IsTemplate(t) && e.sourceType in t.allowedEventTypes && SameCurrency(t, e)
    requires k < |t.rules| && PaidUpTo(t, e.commissionable.minor as int, k)
    ensures var amount, rule := e.commissionable.minor as int, t.rules[k];
      var problem := Unpaid(rule, Total(rule.tiers, amount), RulesTotal(t.rules[..k + 1], amount),
                            t.maxCommission.minor as int);
      problem.Some? ==> CalculationProblem(t, e) == problem
  {
    var amount, rule := e.commissionable.minor as int, t.rules[k];
    PayingReaches(t, amount, k);
    PrefixGrows(t.rules, k, amount);
    assert t.rules[k..][0] == t.rules[k];
    ProblemExactly(rule);
    EventExactly(e);
    TemplateExactly(t);
    hide RuleProblem, Total, ValidEvent, IsEvent, IsTemplate, TemplateProblem, RulesTotal, IsPaid, IsRange,
      IsPayee, HasText;
  }

  lemma ProblemExactly(r: Rule)
    ensures RuleProblem(r, true) ==
      if !HasText(r.slot) || r.tiers == [] then Some(InvalidRule)
      else if !IsPayee(r.beneficiary) then Some(InvalidBeneficiary)
      else if !(forall t :: t in r.tiers ==> IsRange(t)) then Some(InvalidTier)
      else None
  {
    TextExactly(r.slot);
    TextExactly(r.beneficiary.id);
    TiersExactly(r.tiers);
    hide HasText, IsBlank, IsRange, ValidTiers;
  }

  // ----- who is paid what -----

  /** The calculation for a rule that pays something. */
  predicate PaysFor(rule: Rule, paid: Amount, c: Calculation) {
    0 < Total(rule.tiers, paid.minor as int) <= 0x7FFF_FFFF_FFFF_FFFF && c.slot == rule.slot &&
    c.beneficiary == rule.beneficiary && c.amount.currency == paid.currency &&
    c.amount.minor as int == Total(rule.tiers, paid.minor as int)
  }

  /** Rules are paid one after another, in their order. */
  lemma {:induction false} PayoutsAppend(a: seq<Rule>, b: seq<Rule>, paid: Amount)
    ensures Payouts(a + b, paid) == Payouts(a, paid) + Payouts(b, paid)
  {
    hide Total;
    if a == [] {
      assert a + b == b;
    } else {
      assert (a + b)[1..] == a[1..] + b;
      PayoutsAppend(a[1..], b, paid);
    }
  }

  /** The payouts are those of the rules that pay something, and of no other. */
  lemma {:induction false} PayoutsExactly(rules: seq<Rule>, paid: Amount, c: Calculation)
    ensures c in Payouts(rules, paid) <==> exists r :: r in rules && PaysFor(r, paid, c)
  {
    hide Total;
    if rules != [] {
      PayoutsExactly(rules[1..], paid, c);
      PayoutOfOne(rules[0], paid, c);
      assert rules == [rules[0]] + rules[1..];
      PayoutsAppend([rules[0]], rules[1..], paid);
      hide Payouts, PaysFor;
    }
  }

  lemma PayoutOfOne(rule: Rule, paid: Amount, c: Calculation)
    ensures c in Payouts([rule], paid) <==> PaysFor(rule, paid, c)
    ensures |Payouts([rule], paid)| <= 1
  {
    assert Payouts([rule][1..], paid) == [];
  }

  predicate AttributesTo(a: Attribution, slot: string) { a.active && a.slot == slot }

  /** The last active attribution of the slot. */
  predicate IsLastFor(attributions: seq<Attribution>, i: nat, slot: string) {
    i < |attributions| && AttributesTo(attributions[i], slot) &&
    forall j :: i < j < |attributions| ==> !AttributesTo(attributions[j], slot)
  }

  lemma LastDecides(attributions: seq<Attribution>, rule: Rule)
    requires attributions != []
    ensures var last := attributions[|attributions| - 1];
      BeneficiaryFor(attributions, rule) ==
        if AttributesTo(last, rule.slot) then last.beneficiary
        else BeneficiaryFor(attributions[..|attributions| - 1], rule)
  {
  }

  lemma {:induction false} PaidToLast(attributions: seq<Attribution>, rule: Rule, i: nat)
    requires IsLastFor(attributions, i, rule.slot)
    ensures BeneficiaryFor(attributions, rule) == attributions[i].beneficiary
    decreases |attributions|
  {
    hide BeneficiaryFor, AttributesTo;
    var n := |attributions| - 1;
    LastDecides(attributions, rule);
    if i < n {
      assert !AttributesTo(attributions[n], rule.slot);
      PaidToLast(attributions[..n], rule, i);
    }
  }

  lemma {:induction false} PaidByRule(attributions: seq<Attribution>, rule: Rule)
    requires forall a :: a in attributions ==> !AttributesTo(a, rule.slot)
    ensures BeneficiaryFor(attributions, rule) == rule.beneficiary
    decreases |attributions|
  {
    if attributions != [] {
      var n := |attributions| - 1;
      LastDecides(attributions, rule);
      assert attributions[n] in attributions;
      PaidByRule(attributions[..n], rule);
    }
  }

  /** A slot is paid to its last active attribution, and to the rule's own beneficiary where there is none. */
  lemma PaidTo(attributions: seq<Attribution>, rule: Rule)
    ensures forall i: nat :: IsLastFor(attributions, i, rule.slot) ==>
      BeneficiaryFor(attributions, rule) == attributions[i].beneficiary
    ensures (forall a :: a in attributions ==> !AttributesTo(a, rule.slot)) ==>
      BeneficiaryFor(attributions, rule) == rule.beneficiary
  {
    hide BeneficiaryFor, AttributesTo;
    forall i: nat | IsLastFor(attributions, i, rule.slot)
      ensures BeneficiaryFor(attributions, rule) == attributions[i].beneficiary
    {
      PaidToLast(attributions, rule, i);
    }
    if forall a :: a in attributions ==> !AttributesTo(a, rule.slot) {
      PaidByRule(attributions, rule);
    }
  }

  // ----- which programs are accepted -----

  /** The template's rule for a slot is the first of that slot. */
  predicate IsRuleFor(rules: seq<Rule>, i: nat, slot: string) {
    i < |rules| && rules[i].slot == slot && forall j :: 0 <= j < i ==> rules[j].slot != slot
  }

  ghost predicate HasCap(rule: Rule, template: Template) {
    exists i: nat :: IsRuleFor(template.rules, i, rule.slot) && RuleWithinCap(rule, template.rules[i])
  }

  ghost predicate IsAcceptable(program: Program, template: Template) {
    program.id != "" && program.tenant != "" && program.templateID == template.id != "" &&
    program.templateVersion == template.version > 0 && |program.rules| > 0 &&
    (forall i, j :: 0 <= i < j < |program.rules| ==> program.rules[i].slot != program.rules[j].slot) &&
    forall r :: r in program.rules ==> IsRule(r) && IsPayee(r.beneficiary) && HasCap(r, template)
  }

  lemma {:induction false} RuleOfExactly(rules: seq<Rule>, slot: string)
    ensures forall i: nat :: RuleOf(rules, slot) == Some(i) <==> IsRuleFor(rules, i, slot)
  {
    if rules != [] {
      RuleOfExactly(rules[1..], slot);
      forall i: nat
        ensures RuleOf(rules, slot) == Some(i) <==> IsRuleFor(rules, i, slot)
      {
        if i > 0 && i < |rules| {
          assert rules[1..][i - 1] == rules[i];
          assert IsRuleFor(rules, i, slot) <==> rules[0].slot != slot && IsRuleFor(rules[1..], i - 1, slot) by {
            assert forall j :: 0 <= j < i - 1 ==> rules[1..][j] == rules[j + 1];
            assert forall j :: 0 < j < i ==> rules[j] == rules[1..][j - 1];
          }
        }
      }
    }
  }

  lemma CapExactly(rule: Rule, template: Template)
    ensures HasCap(rule, template) <==>
      var cap := RuleOf(template.rules, rule.slot); cap.Some? && RuleWithinCap(rule, template.rules[cap.value])
  {
    RuleOfExactly(template.rules, rule.slot);
    hide RuleWithinCap;
    var cap := RuleOf(template.rules, rule.slot);
    if cap.Some? {
      assert IsRuleFor(template.rules, cap.value, rule.slot);
    }
  }

  /** The rules' slots are apart from those seen and from each other. */
  predicate FreshSlots(rules: seq<Rule>, seen: set<string>) {
    (forall r :: r in rules ==> r.slot !in seen) &&
    forall i, j :: 0 <= i < j < |rules| ==> rules[i].slot != rules[j].slot
  }

  lemma FreshCons(rules: seq<Rule>, seen: set<string>)
    requires rules != []
    ensures FreshSlots(rules, seen) <==>
      rules[0].slot !in seen && FreshSlots(rules[1..], seen + {rules[0].slot})
  {
    var rest := rules[1..];
    assert rules[0] in rules && forall r :: r in rules <==> r == rules[0] || r in rest;
    assert forall i :: 0 <= i < |rest| ==> rest[i] == rules[i + 1] && rest[i] in rest;
    assert forall j :: 0 < j < |rules| ==> rules[j] == rest[j - 1];
    if FreshSlots(rules, seen) {
      forall r | r in rest
        ensures r.slot != rules[0].slot
      {
        var i :| 0 <= i < |rest| && rest[i] == r;
        assert rules[i + 1] == r;
      }
    }
  }

  lemma {:induction false} NoRulesProblem(rules: seq<Rule>, seen: set<string>, template: Template)
    ensures RulesProblem(rules, seen, template).None? <==>
      FreshSlots(rules, seen) && forall r :: r in rules ==> ValidRule(r, true) && HasCap(r, template)
  {
    hide RuleProblem, RuleWithinCap, HasCap;
    if rules != [] {
      NoRulesProblem(rules[1..], seen + {rules[0].slot}, template);
      CapExactly(rules[0], template);
      FreshCons(rules, seen);
      hide FreshSlots;
      assert rules[0] in rules && forall r :: r in rules <==> r == rules[0] || r in rules[1..];
    }
  }

  /** A program is accepted exactly when it is complete, made for the template, and its rules stay within. */
  lemma AcceptsExactly(program: Program, template: Template)
    ensures ProgramProblem(program, template).None? <==> IsAcceptable(program, template)
  {
    NoRulesProblem(program.rules, {}, template);
    forall r
      ensures ValidRule(r, true) <==> IsRule(r) && IsPayee(r.beneficiary)
    {
      RuleExactly(r);
    }
    hide RuleProblem, RuleWithinCap, HasCap, RulesProblem, IsRule, IsPayee;
  }

  /** The program names this version of the template. */
  predicate IsFor(program: Program, template: Template) {
    program.id != "" && program.tenant != "" && program.templateID == template.id != "" &&
    program.templateVersion == template.version > 0 && |program.rules| > 0
  }

  function SlotsOf(rules: seq<Rule>): set<string> { set r | r in rules :: r.slot }

  /** The rules before `k` have slots of their own and stay within the template's. */
  ghost predicate GoodUpTo(rules: seq<Rule>, template: Template, k: nat) {
    k <= |rules| && forall i :: 0 <= i < k ==> IsGood(rules, template, i)
  }

  ghost predicate IsGood(rules: seq<Rule>, template: Template, i: nat)
    requires i < |rules|
  {
    ValidRule(rules[i], true) && HasCap(rules[i], template) && rules[i].slot !in SlotsOf(rules[..i])
  }

  lemma {:induction false} RulesReach(rules: seq<Rule>, template: Template, k: nat)
    requires GoodUpTo(rules, template, k)
    ensures RulesProblem(rules, {}, template) == RulesProblem(rules[k..], SlotsOf(rules[..k]), template)
    decreases k
  {
    if k == 0 {
      assert rules[0..] == rules && SlotsOf(rules[..0]) == {};
    } else {
      assert IsGood(rules, template, k - 1);
      CapExactly(rules[k - 1], template);
      MoreSlots(rules, k - 1);
      assert rules[k - 1..][0] == rules[k - 1] && rules[k - 1..][1..] == rules[k..];
      hide RuleProblem, RuleWithinCap, HasCap, SlotsOf, IsGood;
      RulesReach(rules, template, k - 1);
    }
  }

  lemma MoreSlots(rules: seq<Rule>, i: nat)
    requires i < |rules|
    ensures SlotsOf(rules[..i + 1]) == SlotsOf(rules[..i]) + {rules[i].slot}
  {
    assert rules[..i + 1] == rules[..i] + [rules[i]];
  }

  /** A program for the template is refused for its first bad rule: bad itself, of a used slot, or too generous. */
  lemma FirstRefused(program: Program, template: Template, k: nat)
    requires IsFor(program, template) && k < |program.rules| && GoodUpTo(program.rules, template, k)
    ensures var rule := program.rules[k];
      if !IsRule(rule) || !IsPayee(rule.beneficiary) || rule.slot in SlotsOf(program.rules[..k])
      then ProgramProblem(program, template) == Some(InvalidProgram)
      else !HasCap(rule, template) ==> ProgramProblem(program, template) == Some(ProgramExceedsTemplate)
  {
    var rules := program.rules;
    RulesReach(rules, template, k);
    RuleExactly(rules[k]);
    CapExactly(rules[k], template);
    assert rules[k..][0] == rules[k];
    hide RuleProblem, RuleWithinCap, HasCap, IsRule, IsPayee, SlotsOf, GoodUpTo;
  }

  lemma OtherProgramsRefused(program: Program, template: Template)
    requires !IsFor(program, template)
    ensures ProgramProblem(program, template) == Some(InvalidProgram)
  {
    hide RulesProblem;
  }

  // ----- a rule within a cap -----

  function RangeOf(t: Tier): (int64, int64) { (t.minMinor, t.maxMinor) }

  function Ranges(tiers: seq<Tier>): seq<(int64, int64)> {
    seq(|tiers|, i requires 0 <= i < |tiers| => RangeOf(tiers[i]))
  }

  predicate RangeOrder(a: (int64, int64), b: (int64, int64)) { a.0 < b.0 || (a.0 == b.0 && a.1 <= b.1) }

  /** Each tier of the rule has one of the cap with its range and at least its rates, and the cap has no others. */
  ghost predicate CapDominates(tiers: seq<Tier>, caps: seq<Tier>) {
    |tiers| == |caps| &&
    forall t :: t in tiers ==>
      exists c ::
        c in caps && RangeOf(c) == RangeOf(t) && t.basisPoints <= c.basisPoints && t.fixedMinor <= c.fixedMinor
  }

  lemma SortedRanges(tiers: seq<Tier>)
    requires Distinct(Ranges(tiers))
    ensures var sorted := Sort(tiers, TierOrder);
      Distinct(Ranges(sorted)) && IsSorted(Ranges(sorted), RangeOrder) && |sorted| == |tiers| &&
      forall t :: t in sorted <==> t in tiers
  {
    SortSorts(tiers, TierOrder);
    SortMembers(tiers, TierOrder);
    PermutedRanges(tiers, Sort(tiers, TierOrder));
    hide Sort;
  }

  lemma {:induction false} PermutedRanges(a: seq<Tier>, b: seq<Tier>)
    requires multiset(a) == multiset(b) && Distinct(Ranges(a))
    ensures Distinct(Ranges(b))
    decreases |a|
  {
    if a == [] {
      assert |multiset(b)| == 0;
    } else {
      var i := PermutationWithout(a, b);
      var rest := b[..i] + b[i + 1..];
      assert Distinct(Ranges(a[1..])) by {
        assert forall k :: 0 <= k < |a| - 1 ==> Ranges(a[1..])[k] == Ranges(a)[k + 1];
      }
      PermutedRanges(a[1..], rest);
      FirstRangeApart(a);
      forall k | 0 <= k < |b| && k != i
        ensures RangeOf(b[k]) != RangeOf(b[i])
      {
        assert b[k] == rest[if k < i then k else k - 1];
        assert b[k] in multiset(rest);
      }
      forall j, k | 0 <= j < k < |b|
        ensures Ranges(b)[j] != Ranges(b)[k]
      {
        if j != i && k != i {
          assert Ranges(rest)[if j < i then j else j - 1] == Ranges(b)[j];
          assert Ranges(rest)[if k < i then k else k - 1] == Ranges(b)[k];
        }
      }
    }
  }

  lemma FirstRangeApart(a: seq<Tier>)
    requires a != [] && Distinct(Ranges(a))
    ensures forall t :: t in multiset(a[1..]) ==> RangeOf(t) != RangeOf(a[0])
  {
    forall t | t in multiset(a[1..])
      ensures RangeOf(t) != RangeOf(a[0])
    {
      var k :| 0 <= k < |a| - 1 && a[1..][k] == t;
      assert Ranges(a)[0] != Ranges(a)[k + 1];
    }
  }

  /** Where no two tiers share a range, a rule is within a cap exactly when tier by tier it is dominated. */
  lemma WithinCapExactly(rule: Rule, cap: Rule)
    requires Distinct(Ranges(rule.tiers)) && Distinct(Ranges(cap.tiers))
    ensures RuleWithinCap(rule, cap) <==> CapDominates(rule.tiers, cap.tiers)
  {
    var a, b := Sort(rule.tiers, TierOrder), Sort(cap.tiers, TierOrder);
    SortedRanges(rule.tiers);
    SortedRanges(cap.tiers);
    hide Sort, TierOrder;
    if RuleWithinCap(rule, cap) {
      forall t | t in rule.tiers
        ensures exists c ::
          c in cap.tiers && RangeOf(c) == RangeOf(t) && t.basisPoints <= c.basisPoints && t.fixedMinor <= c.fixedMinor
      {
        assert t in a;
        var i :| 0 <= i < |a| && a[i] == t;
        assert b[i] in b && IsDominated(a[i], b[i]);
      }
    }
    if CapDominates(rule.tiers, cap.tiers) {
      DominatedInOrder(a, b);
    }
  }

  lemma DominatedInOrder(a: seq<Tier>, b: seq<Tier>)
    requires CapDominates(a, b) && Distinct(Ranges(a)) && Distinct(Ranges(b))
    requires IsSorted(Ranges(a), RangeOrder) && IsSorted(Ranges(b), RangeOrder)
    ensures AllDominated(a, b)
  {
    forall x | x in Ranges(a)
      ensures x in Ranges(b)
    {
      var i :| 0 <= i < |a| && Ranges(a)[i] == x;
      assert a[i] in a;
      var c :| c in b && RangeOf(c) == RangeOf(a[i]);
      var k :| 0 <= k < |b| && b[k] == c;
      assert Ranges(b)[k] == x;
    }
    SameElements(Ranges(a), Ranges(b));
    SortedUnique(Ranges(a), Ranges(b), RangeOrder);
    forall i | 0 <= i < |a|
      ensures IsDominated(a[i], b[i])
    {
      assert a[i] in a;
      var c :| c in b && RangeOf(c) == RangeOf(a[i]) && a[i].basisPoints <= c.basisPoints &&
        a[i].fixedMinor <= c.fixedMinor;
      var k :| 0 <= k < |b| && b[k] == c;
      assert Ranges(b)[k] == Ranges(a)[i] == Ranges(b)[i];
    }
  }

  /** Where two tiers share a range, the sorted comparison may refuse what another pairing would allow. */
  lemma SharedRangesMayFail()
    ensures var rule, cap := Rule("s", Beneficiary(NoKind, ""), [Tier(0, 0, 1, 10), Tier(0, 0, 2, 5)]),
                             Rule("s", Beneficiary(NoKind, ""), [Tier(0, 0, 2, 5), Tier(0, 0, 2, 10)]);
      CapDominates(rule.tiers, cap.tiers) && !RuleWithinCap(rule, cap)
  {
    var low, high := Tier(0, 0, 1, 10), Tier(0, 0, 2, 5);
    var cap, more := Tier(0, 0, 2, 5), Tier(0, 0, 2, 10);
    assert IsDominated(low, more) && IsDominated(high, cap) && !IsDominated(low, cap);
    assert more in [cap, more] && cap in [cap, more];
    assert Sort([high], TierOrder) == [high] && Sort([more], TierOrder) == [more];
    assert Sort([low, high], TierOrder) == [low, high] by { assert [low, high][1..] == [high]; }
    assert Sort([cap, more], TierOrder) == [cap, more] by { assert [cap, more][1..] == [more]; }
    assert [low, high][0] == low && [cap, more][0] == cap;
    hide Sort, IsDominated;
  }
}
