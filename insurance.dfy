/**
 * routes/insurance.py, InsurancePlanGenerator: the risk score, the coverage tier, the plan
 * type, the prices, and the coverage, benefit, exclusion and waiting-period lists of a
 * generated plan.
 *
 * The YAML configuration is a `Tables` value, except its `coverage.basic` list, which the
 * generator extends in place: that list is the one field of the `InsuranceConfig` object.
 * `random.choice` and `random.sample` draw from a `Draws` value: an index per choice and an
 * ordering of catalog positions per sample. `date.today()` is a day number passed in.
 * Floating-point arithmetic is exact real arithmetic.
 */
module Insurance {
  import opened Wrappers
  import opened Text
  import opened Numbers
  import opened Models

  datatype Tier = Bronze | Silver | Gold | Platinum

  function TierName(t: Tier): string {
    match t
    case Bronze => "Bronze"
    case Silver => "Silver"
    case Gold => "Gold"
    case Platinum => "Platinum"
  }

  /** A configuration entry keyed by tier name, such as `base_premium`. */
  datatype TierTable = TierTable(bronze: real, silver: real, gold: real, platinum: real) {
    function Of(t: Tier): real {
      match t
      case Bronze => bronze
      case Silver => silver
      case Gold => gold
      case Platinum => platinum
    }
  }

  /** The `waiting_periods` entry, in months. */
  datatype WaitingConfig = WaitingConfig(general: int, preExistingHigh: int, preExistingLow: int, specificProcedures: int)

  /** The configuration the generator reads, apart from `coverage.basic`. */
  datatype Tables = Tables(
    companies: seq<string>,
    networkTypes: seq<string>,
    basePremium: TierTable,
    baseMultiplier: TierTable,
    baseDeductible: TierTable,
    baseOutOfPocketMax: TierTable,
    baseCopay: TierTable,
    additionalCoverage: seq<string>,
    goldPlatinumCoverage: seq<string>,
    benefits: seq<string>,
    exclusions: seq<string>,
    waiting: WaitingConfig)

  /** What the random module returns for one plan: the positions `random.choice` picks and the
      orders in which `random.sample` visits the benefit and exclusion catalogs. */
  datatype Draws = Draws(network: nat, company: nat, benefitOrder: seq<nat>, exclusionOrder: seq<nat>)

  /** An ordering of the positions 0 .. n-1, each exactly once. */
  predicate IsIndexOrder(order: seq<nat>, n: nat) {
    && |order| == n
    && (forall i :: 0 <= i < n ==> order[i] < n)
    && (forall i, j :: 0 <= i < j < n ==> order[i] != order[j])
  }

  /** Draws that the random module can return for these tables. */
  predicate DrawsFit(d: Draws, t: Tables) {
    && (t.networkTypes == [] || d.network < |t.networkTypes|)
    && (t.companies == [] || d.company < |t.companies|)
    && IsIndexOrder(d.benefitOrder, |t.benefits|)
    && IsIndexOrder(d.exclusionOrder, |t.exclusions|)
  }

  /** random.choice(pop): IndexError on an empty list. */
  function Choose(pop: seq<string>, i: nat): (r: Result<string, PyError>)
    requires pop == [] || i < |pop|
    ensures r.Failure? <==> pop == []
    ensures r.Failure? ==> r.error == IndexError
    ensures r.Success? ==> r.value in pop
  {
    if pop == [] then Failure(IndexError) else Success(pop[i])
  }

  /** random.sample(pop, k): k entries from distinct positions, or ValueError when k exceeds
      the population. */
  function Sample(pop: seq<string>, k: nat, order: seq<nat>): (r: Result<seq<string>, PyError>)
    requires IsIndexOrder(order, |pop|)
    ensures r.Failure? <==> k > |pop|
    ensures r.Failure? ==> r.error == ValueError
    ensures r.Success? ==> |r.value| == k && forall i :: 0 <= i < k ==> r.value[i] in pop
    ensures r.Success? ==> multiset(r.value) <= multiset(pop)
  {
    if k > |pop| then Failure(ValueError)
    else
      var picked := Picked(pop, order[..k]);
      PickedWithin(pop, order[..k]);
      Success(picked)
  }

  /** The entries at the given positions, in the order the positions are listed. */
  function Picked(pop: seq<string>, idx: seq<nat>): (r: seq<string>)
    requires forall i :: 0 <= i < |idx| ==> idx[i] < |pop|
    ensures |r| == |idx| && forall i :: 0 <= i < |idx| ==> r[i] == pop[idx[i]]
  {
    seq(|idx|, i requires 0 <= i < |idx| => pop[idx[i]])
  }

  /** Entries taken from distinct positions are a sub-multiset of the population: no entry
      is drawn more often than the population holds it. */
  lemma {:induction false} PickedWithin(pop: seq<string>, idx: seq<nat>)
    requires forall i :: 0 <= i < |idx| ==> idx[i] < |pop|
    requires forall i, j :: 0 <= i < j < |idx| ==> idx[i] != idx[j]
    ensures multiset(Picked(pop, idx)) <= multiset(pop)
    decreases |pop|
  {
    if idx == [] {
      assert Picked(pop, idx) == [];
    } else {
      assert idx[0] < |pop|;
      var m := |pop| - 1;
      var init := pop[..m];
      assert pop == init + [pop[m]];
      if p :| 0 <= p < |idx| && idx[p] == m {
        var rest := DropPosition(idx, p);
        PickedDrop(pop, idx, p);
        PickedBelow(pop, rest);
        PickedWithin(init, rest);
      } else {
        PickedBelow(pop, idx);
        PickedWithin(init, idx);
      }
    }
  }

  /** Removing the last population position from a list of distinct positions leaves
      distinct positions below it. */
  lemma DropPosition(idx: seq<nat>, p: nat) returns (rest: seq<nat>)
    requires p < |idx|
    requires forall i :: 0 <= i < |idx| ==> idx[i] <= idx[p]
    requires forall i, j :: 0 <= i < j < |idx| ==> idx[i] != idx[j]
    ensures rest == idx[..p] + idx[p + 1..]
    ensures forall i :: 0 <= i < |rest| ==> rest[i] < idx[p]
    ensures forall i, j :: 0 <= i < j < |rest| ==> rest[i] != rest[j]
  {
    rest := idx[..p] + idx[p + 1..];
    forall i | 0 <= i < |rest| ensures rest[i] < idx[p] {
      if i < p { assert rest[i] == idx[i]; } else { assert rest[i] == idx[i + 1]; }
    }
    forall i, j | 0 <= i < j < |rest| ensures rest[i] != rest[j] {
      var a := if i < p then i else i + 1;
      var b := if j < p then j else j + 1;
      assert rest[i] == idx[a] && rest[j] == idx[b] && a < b;
    }
  }

  /** Dropping one position drops its entry once from the picked multiset. */
  lemma PickedDrop(pop: seq<string>, idx: seq<nat>, p: nat)
    requires forall i :: 0 <= i < |idx| ==> idx[i] < |pop|
    requires p < |idx|
    ensures multiset(Picked(pop, idx)) == multiset(Picked(pop, idx[..p] + idx[p + 1..])) + multiset{pop[idx[p]]}
  {
    assert idx == idx[..p] + [idx[p]] + idx[p + 1..];
    assert Picked(pop, idx) == Picked(pop, idx[..p]) + [pop[idx[p]]] + Picked(pop, idx[p + 1..]);
    assert Picked(pop, idx[..p] + idx[p + 1..]) == Picked(pop, idx[..p]) + Picked(pop, idx[p + 1..]);
  }

  /** Positions below the last pick the same entries from the population without its last
      entry. */
  lemma PickedBelow(pop: seq<string>, idx: seq<nat>)
    requires pop != []
    requires forall i :: 0 <= i < |idx| ==> idx[i] < |pop| - 1
    ensures Picked(pop, idx) == Picked(pop[..|pop| - 1], idx)
  {
  }

  /** A sample of a catalog without repeated entries has no repeated entries. */
  lemma SampleHasNoRepeats(pop: seq<string>, k: nat, order: seq<nat>)
    requires IsIndexOrder(order, |pop|)
    requires forall i, j :: 0 <= i < j < |pop| ==> pop[i] != pop[j]
    requires Sample(pop, k, order).Success?
    ensures forall i, j :: 0 <= i < j < k ==> Sample(pop, k, order).value[i] != Sample(pop, k, order).value[j]
  {
    var s := Sample(pop, k, order).value;
    forall i, j | 0 <= i < j < k ensures s[i] != s[j] {
      assert s[i] == pop[order[i]] && s[j] == pop[order[j]];
      if order[i] < order[j] {
        assert pop[order[i]] != pop[order[j]];
      } else {
        assert pop[order[j]] != pop[order[i]];
      }
    }
  }

  /** How many predictions carry the given risk level. */
  function CountLevel(preds: seq<Prediction>, level: RiskLevel): (n: nat)
    ensures n <= |preds|
    ensures n == 0 <==> forall i :: 0 <= i < |preds| ==> preds[i].riskLevel != Some(level)
  {
    if preds == [] then 0
    else
      var init := preds[..|preds| - 1];
      assert forall i :: 0 <= i < |init| ==> init[i] == preds[i];
      CountLevel(init, level) + (if preds[|preds| - 1].riskLevel == Some(level) then 1 else 0)
  }

  /** The filter `risk_level == level` on predictions. */
  function AtLevel(level: RiskLevel): Prediction -> bool {
    (x: Prediction) => x.riskLevel == Some(level)
  }

  /** The count is the number of predictions the comprehension at that level keeps. */
  lemma {:induction false} CountLevelIsFilterSize(preds: seq<Prediction>, level: RiskLevel)
    ensures CountLevel(preds, level) == |Where(preds, AtLevel(level))|
  {
    if preds != [] {
      var init := preds[..|preds| - 1];
      assert preds == init + [preds[|preds| - 1]];
      CountLevelIsFilterSize(init, level);
      WhereSnoc(init, AtLevel(level), preds[|preds| - 1]);
    }
  }

  predicate AnyHigh(preds: seq<Prediction>) {
    exists i :: 0 <= i < |preds| && preds[i].riskLevel == Some(High)
  }

  function Flag(b: bool): real {
    if b then 1.0 else 0.0
  }

  /** The additive risk score in closed form: 0.5, plus 0.1 per High and 0.05 per Medium
      prediction, 0.1 for any smoking status but "Never", 0.05 for moderate or heavy drinking,
      0.05 for a BMI outside [18.5, 30], 0.05 for a blood pressure over 140/90, 0.1 past 50 or
      else 0.05 past 40, 0.1 for any medical history but "No major issues"; capped at 1.0.
      Comparing a NULL BMI, systolic pressure (or diastolic, when the systolic one does not
      already exceed 140) or age with a number raises TypeError. */
  function RiskScoreOf(profile: UserProfile, health: HealthInformation, lifestyle: LifestyleInformation,
                       ml: MLModelData, preds: seq<Prediction>): (r: Result<real, PyError>)
    ensures r.Failure? <==> (ml.bmi.None? || ml.systolicBp.None? ||
                             (ml.systolicBp.value <= 140 && ml.diastolicBp.None?) || profile.age.None?)
    ensures r.Failure? ==> r.error == TypeError
    ensures r.Success? ==> 0.5 <= r.value <= 1.0
  {
    if ml.bmi.None? || ml.systolicBp.None? || (ml.systolicBp.value <= 140 && ml.diastolicBp.None?) || profile.age.None? then
      Failure(TypeError)
    else
      var bmi := ml.bmi.value;
      var age := profile.age.value;
      var bp := ml.systolicBp.value > 140 || ml.diastolicBp.value > 90;
      var raw := 0.5 + 0.1 * CountLevel(preds, High) as real + 0.05 * CountLevel(preds, Medium) as real
        + 0.1 * Flag(lifestyle.smokingStatus != Some("Never"))
        + 0.05 * Flag(lifestyle.alcoholConsumption in {Some("Moderate"), Some("Heavy")})
        + 0.05 * Flag(bmi > 30.0 || bmi < 18.5)
        + 0.05 * Flag(bp)
        + (if age > 50 then 0.1 else if age > 40 then 0.05 else 0.0)
        + 0.1 * Flag(health.medicalHistory != Some("No major issues"));
      Success(Min(raw, 1.0))
  }

  /** _calculate_risk_score: the score bumped by one `if` after another. */
  method CalculateRiskScore(profile: UserProfile, health: HealthInformation, lifestyle: LifestyleInformation,
                            ml: MLModelData, preds: seq<Prediction>) returns (r: Result<real, PyError>)
    ensures r == RiskScoreOf(profile, health, lifestyle, ml, preds)
  {
    var highCount := CountLevel(preds, High);
    var mediumCount := CountLevel(preds, Medium);
    var riskScore := 0.5 + (highCount as real * 0.1) + (mediumCount as real * 0.05);
    if lifestyle.smokingStatus != Some("Never") {
      riskScore := riskScore + 0.1;
    }
    if lifestyle.alcoholConsumption == Some("Moderate") || lifestyle.alcoholConsumption == Some("Heavy") {
      riskScore := riskScore + 0.05;
    }
    if ml.bmi.None? {
      return Failure(TypeError);
    }
    if ml.bmi.value > 30.0 || ml.bmi.value < 18.5 {
      riskScore := riskScore + 0.05;
    }
    if ml.systolicBp.None? {
      return Failure(TypeError);
    }
    if ml.systolicBp.value > 140 {
      riskScore := riskScore + 0.05;
    } else if ml.diastolicBp.None? {
      return Failure(TypeError);
    } else if ml.diastolicBp.value > 90 {
      riskScore := riskScore + 0.05;
    }
    if profile.age.None? {
      return Failure(TypeError);
    }
    if profile.age.value > 50 {
      riskScore := riskScore + 0.1;
    } else if profile.age.value > 40 {
      riskScore := riskScore + 0.05;
    }
    if health.medicalHistory != Some("No major issues") {
      riskScore := riskScore + 0.1;
    }
    r := Success(Min(riskScore, 1.0));
  }

  /** _determine_coverage_type: the first of Platinum, Gold, Silver whose score and income
      thresholds both hold, else Bronze. The income is compared only once the score test
      passes, and comparing a NULL income raises TypeError. */
  function SelectTier(risk: real, income: Option<real>): (r: Result<Tier, PyError>)
    ensures r.Failure? <==> risk < 0.7 && income.None?
    ensures r.Failure? ==> r.error == TypeError
  {
    if risk < 0.3 && income.None? then Failure(TypeError)
    else if risk < 0.3 && income.value > 1500000.0 then Success(Platinum)
    else if risk < 0.5 && income.None? then Failure(TypeError)
    else if risk < 0.5 && income.value > 1000000.0 then Success(Gold)
    else if risk < 0.7 && income.None? then Failure(TypeError)
    else if risk < 0.7 && income.value > 500000.0 then Success(Silver)
    else Success(Bronze)
  }

  /** Each tier is chosen exactly when its own rule holds and no earlier rule does. */
  lemma SelectTierFirstMatch(risk: real, income: real)
    ensures SelectTier(risk, Some(income)) == Success(Platinum) <==> risk < 0.3 && income > 1500000.0
    ensures SelectTier(risk, Some(income)) == Success(Gold) <==>
      !(risk < 0.3 && income > 1500000.0) && risk < 0.5 && income > 1000000.0
    ensures SelectTier(risk, Some(income)) == Success(Silver) <==>
      !(risk < 0.3 && income > 1500000.0) && !(risk < 0.5 && income > 1000000.0) && risk < 0.7 && income > 500000.0
    ensures SelectTier(risk, Some(income)) == Success(Bronze) <==>
      !(risk < 0.3 && income > 1500000.0) && !(risk < 0.5 && income > 1000000.0) && !(risk < 0.7 && income > 500000.0)
  {
  }

  /** A score of at least 0.5, which every computed score is, never buys Gold or Platinum. */
  lemma NoPremiumTierFromScore(profile: UserProfile, health: HealthInformation, lifestyle: LifestyleInformation,
                               ml: MLModelData, preds: seq<Prediction>)
    requires RiskScoreOf(profile, health, lifestyle, ml, preds).Success?
    ensures SelectTier(RiskScoreOf(profile, health, lifestyle, ml, preds).value, profile.annualIncome) != Success(Gold)
    ensures SelectTier(RiskScoreOf(profile, health, lifestyle, ml, preds).value, profile.annualIncome) != Success(Platinum)
  {
    var risk := RiskScoreOf(profile, health, lifestyle, ml, preds).value;
    assert 0.5 <= risk;
  }

  lemma SelectTierExample()
    ensures SelectTier(0.55, Some(1200000.0)) == Success(Silver)
  {
  }

  /** _determine_plan_type. */
  function PlanTypeOf(age: int, preds: seq<Prediction>): (r: string)
    ensures r == "Senior Citizen" <==> age >= 60
    ensures r == "Critical Illness" <==> age < 60 && AnyHigh(preds)
    ensures r == "Individual" <==> age < 60 && !AnyHigh(preds)
  {
    if age >= 60 then "Senior Citizen"
    else if AnyHigh(preds) then "Critical Illness"
    else "Individual"
  }

  /** The premium before the clamp: the base premium scaled by age and by risk. */
  function RawPremium(base: real, age: int, risk: real): real {
    base * (1.0 + (age - 18) as real * 0.02) * (1.0 + risk * 0.5)
  }

  /** _calculate_premium: the raw premium clamped to [500, 20000] and rounded to paise; the
      result is the nearest paise amount to the clamped premium, an exact half-paisa tie
      going to the even amount. */
  function MonthlyPremium(base: real, age: int, risk: real): (r: real)
    ensures 500.0 <= r <= 20000.0
    ensures (r * 100.0).Floor as real == r * 100.0
    ensures -0.005 <= Clamp(RawPremium(base, age, risk), 500.0, 20000.0) - r <= 0.005
    ensures var clamped := Clamp(RawPremium(base, age, risk), 500.0, 20000.0);
      (clamped - r == 0.005 || r - clamped == 0.005) ==> (r * 100.0).Floor % 2 == 0
  {
    var clamped := Clamp(RawPremium(base, age, risk), 500.0, 20000.0);
    RoundToHundredthsWithin(clamped, 50000, 2000000);
    RoundToHundredths(clamped)
  }

  /** A premium at or below 500 is charged 500, one at or above 20,000 is charged 20,000, and
      one in between only moves by rounding. */
  lemma MonthlyPremiumNearRaw(base: real, age: int, risk: real)
    ensures RawPremium(base, age, risk) <= 500.0 ==> MonthlyPremium(base, age, risk) == 500.0
    ensures RawPremium(base, age, risk) >= 20000.0 ==> MonthlyPremium(base, age, risk) == 20000.0
    ensures 500.0 <= RawPremium(base, age, risk) <= 20000.0 ==>
      -0.005 <= RawPremium(base, age, risk) - MonthlyPremium(base, age, risk) <= 0.005
  {
    var raw := RawPremium(base, age, risk);
    if raw <= 500.0 {
      assert Clamp(raw, 500.0, 20000.0) == 500.0;
      RoundHalfEvenUnique(50000.0, 50000);
    } else if raw >= 20000.0 {
      assert Clamp(raw, 500.0, 20000.0) == 20000.0;
      RoundHalfEvenUnique(2000000.0, 2000000);
    }
  }

  /** The sum insured before the cap: income times the tier multiplier, raised 10% per High
      prediction. */
  function RawSumInsured(income: real, multiplier: real, highCount: nat): real {
    income * multiplier * (1.0 + highCount as real * 0.1)
  }

  /** _calculate_sum_insured: the raw sum capped at 50,000,000 and rounded to the nearest
      multiple of 100,000, an exact tie going to the even multiple. */
  function SumInsured(income: real, multiplier: real, highCount: nat): (r: real)
    ensures (r / 100000.0).Floor as real * 100000.0 == r
    ensures r <= 50000000.0
    ensures -50000.0 <= Min(RawSumInsured(income, multiplier, highCount), 50000000.0) - r <= 50000.0
    ensures var capped := Min(RawSumInsured(income, multiplier, highCount), 50000000.0);
      (capped - r == 50000.0 || r - capped == 50000.0) ==> (r / 100000.0).Floor % 2 == 0
  {
    var capped := Min(RawSumInsured(income, multiplier, highCount), 50000000.0);
    RoundToHundredThousandsBelow(capped, 500);
    RoundToHundredThousands(capped)
  }

  /** An income of 650,000 at multiplier 5 with no High prediction is a raw 3,250,000, an
      exact tie: round(.., -5) gives the even multiple 3,200,000, not 3,300,000. */
  lemma SumInsuredTieExample()
    ensures SumInsured(650000.0, 5.0, 0) == 3200000.0
  {
    assert RawSumInsured(650000.0, 5.0, 0) == 3250000.0;
    RoundToHundredThousandsUnique(3250000.0, 3200000.0);
  }

  const RupeeSign: char := '\U{20B9}'

  /** f"₹{n}". */
  function Rupees(n: int): string {
    [RupeeSign] + IntToString(n)
  }

  /** Reads back an amount written by Rupees. */
  function ParseRupees(s: string): Option<int> {
    if s != [] && s[0] == RupeeSign then ParseInt(s[1..]) else None
  }

  lemma RupeesRoundTrip(n: int)
    ensures ParseRupees(Rupees(n)) == Some(n)
  {
    assert Rupees(n)[1..] == IntToString(n);
    IntToStringRoundTrip(n);
  }

  /** _calculate_deductible: the truncated risk-adjusted deductible. */
  function Deductible(base: real, risk: real): string {
    Rupees(Truncate(base * (1.0 + risk)))
  }

  /** _calculate_out_of_pocket_max: the truncated risk-adjusted maximum. */
  function OutOfPocketMax(base: real, risk: real): string {
    Rupees(Truncate(base * (1.0 + risk * 0.5)))
  }

  const CopayServices: seq<string> :=
    ["Primary Care Visit", "Specialist Visit", "Emergency Room Visit", "Generic Prescription Drugs"]

  /** _generate_copayments: the four services, priced from one truncated base amount. */
  function Copayments(base: real, risk: real): seq<(string, string)> {
    var c := Truncate(base * (1.0 + risk * 0.5));
    [(CopayServices[0], Rupees(c)), (CopayServices[1], Rupees(c * 2)),
     (CopayServices[2], Rupees(c * 5)), (CopayServices[3], Rupees(c / 2))]
  }

  /** The deductible and out-of-pocket maximum read back as the truncated amounts. */
  lemma AmountsAreTruncated(baseDeductible: real, baseOop: real, risk: real)
    ensures ParseRupees(Deductible(baseDeductible, risk)) == Some(Truncate(baseDeductible * (1.0 + risk)))
    ensures ParseRupees(OutOfPocketMax(baseOop, risk)) == Some(Truncate(baseOop * (1.0 + risk * 0.5)))
  {
    RupeesRoundTrip(Truncate(baseDeductible * (1.0 + risk)));
    RupeesRoundTrip(Truncate(baseOop * (1.0 + risk * 0.5)));
  }

  /** Four services in fixed order; the specialist visit costs twice the primary visit, the
      emergency room five times, generic drugs half (rounded down). */
  lemma CopaymentsLinked(base: real, risk: real)
    ensures var c := Copayments(base, risk);
      && |c| == 4
      && (forall i :: 0 <= i < 4 ==> c[i].0 == CopayServices[i])
      && ParseRupees(c[0].1).Some?
      && ParseRupees(c[1].1) == Some(2 * ParseRupees(c[0].1).value)
      && ParseRupees(c[2].1) == Some(5 * ParseRupees(c[0].1).value)
      && ParseRupees(c[3].1) == Some(ParseRupees(c[0].1).value / 2)
  {
    var p := Truncate(base * (1.0 + risk * 0.5));
    RupeesRoundTrip(p);
    RupeesRoundTrip(p * 2);
    RupeesRoundTrip(p * 5);
    RupeesRoundTrip(p / 2);
  }

  /** The line added for one High prediction, underscores in its name shown as spaces. */
  function EnhancedItem(p: Prediction): string {
    "Enhanced coverage for " + ReplaceAll(p.conditionName, "_", " ")
  }

  /** One EnhancedItem per High prediction, in prediction order. */
  function EnhancedItems(preds: seq<Prediction>): seq<string> {
    if preds == [] then []
    else
      var last := preds[|preds| - 1];
      EnhancedItems(preds[..|preds| - 1]) + (if last.riskLevel == Some(High) then [EnhancedItem(last)] else [])
  }

  lemma {:induction false} EnhancedItemsCount(preds: seq<Prediction>)
    ensures |EnhancedItems(preds)| == CountLevel(preds, High)
    decreases |preds|
  {
    if preds != [] {
      EnhancedItemsCount(preds[..|preds| - 1]);
    }
  }

  lemma EnhancedItemHasNoUnderscore(p: Prediction)
    ensures '_' !in EnhancedItem(p)
  {
    ReplaceCharRemoves(p.conditionName, '_', " ");
    assert '_' !in "Enhanced coverage for ";
  }

  /** `item` is the enhanced line of one of the High predictions. */
  predicate FromHighPrediction(item: string, preds: seq<Prediction>) {
    exists i :: 0 <= i < |preds| && preds[i].riskLevel == Some(High) && item == EnhancedItem(preds[i])
  }

  /** Every enhanced line names one High prediction's condition with no underscore left. */
  lemma {:induction false} EnhancedItemsReadable(preds: seq<Prediction>)
    ensures forall k :: 0 <= k < |EnhancedItems(preds)| ==> FromHighPrediction(EnhancedItems(preds)[k], preds)
    ensures forall k :: 0 <= k < |EnhancedItems(preds)| ==> '_' !in EnhancedItems(preds)[k]
    decreases |preds|
  {
    if preds != [] {
      var init := preds[..|preds| - 1];
      var last := preds[|preds| - 1];
      EnhancedItemsReadable(init);
      var e := EnhancedItems(preds);
      assert e == EnhancedItems(init) + (if last.riskLevel == Some(High) then [EnhancedItem(last)] else []);
      forall k | 0 <= k < |e| ensures FromHighPrediction(e[k], preds) {
        if k < |EnhancedItems(init)| {
          assert FromHighPrediction(EnhancedItems(init)[k], init);
          var i :| 0 <= i < |init| && init[i].riskLevel == Some(High) && EnhancedItems(init)[k] == EnhancedItem(init[i]);
          assert e[k] == EnhancedItems(init)[k] && preds[i] == init[i];
          assert FromHighPrediction(e[k], preds);
        } else {
          assert last.riskLevel == Some(High) && e[k] == EnhancedItem(last);
          assert preds[|preds| - 1] == last;
          assert FromHighPrediction(e[k], preds);
        }
      }
      forall k | 0 <= k < |e| ensures '_' !in e[k] {
        assert FromHighPrediction(e[k], preds);
        var i :| 0 <= i < |preds| && preds[i].riskLevel == Some(High) && e[k] == EnhancedItem(preds[i]);
        EnhancedItemHasNoUnderscore(preds[i]);
      }
    }
  }

  /** What _generate_coverage_details adds to the basic list for one plan. */
  function CoverageExtras(t: Tables, tier: Tier, network: string, preds: seq<Prediction>): seq<string> {
    (if network == "PPO" then t.additionalCoverage else [])
      + (if tier == Gold || tier == Platinum then t.goldPlatinumCoverage else [])
      + EnhancedItems(preds)
  }

  /** The coverage list of one plan when the configured basic list is left untouched: the
      basic items, then the PPO items, then the Gold/Platinum items, then one line per High
      prediction. */
  function CoverageDetails(t: Tables, basic: seq<string>, tier: Tier, network: string, preds: seq<Prediction>): seq<string> {
    basic + CoverageExtras(t, tier, network, preds)
  }

  lemma CoverageDetailsShape(t: Tables, basic: seq<string>, tier: Tier, network: string, preds: seq<Prediction>)
    ensures var c := CoverageDetails(t, basic, tier, network, preds);
      && |c| == |basic| + (if network == "PPO" then |t.additionalCoverage| else 0)
                        + (if tier == Gold || tier == Platinum then |t.goldPlatinumCoverage| else 0)
                        + CountLevel(preds, High)
      && c[..|basic|] == basic
      && (forall k :: |c| - CountLevel(preds, High) <= k < |c| ==> '_' !in c[k])
  {
    EnhancedItemsCount(preds);
    EnhancedItemsReadable(preds);
    var c := CoverageDetails(t, basic, tier, network, preds);
    var e := EnhancedItems(preds);
    forall k | |c| - CountLevel(preds, High) <= k < |c| ensures '_' !in c[k] {
      assert c[k] == e[k - (|c| - |e|)];
    }
  }

  /** _determine_benefits' fixed share of catalog entries per tier. */
  function BenefitQuota(t: Tier): nat {
    match t
    case Bronze => 2
    case Silver => 3
    case Gold => 4
    case Platinum => 5
  }

  /** Some prediction for the named condition is High. */
  predicate HighFor(preds: seq<Prediction>, condition: string) {
    exists i :: 0 <= i < |preds| && preds[i].conditionName == condition && preds[i].riskLevel == Some(High)
  }

  /** The named programs, each with the condition that earns it, in the order they are added. */
  const Programs: seq<(string, string)> := [
    ("Heart_Disease_Risk", "Cardiovascular Health Program"),
    ("Diabetes", "Diabetes Management Program"),
    ("Cancer_Risk", "Cancer Screening Program")
  ]

  /** The programs a user's High predictions earn, in program order. */
  function EarnedPrograms(preds: seq<Prediction>): (r: seq<string>)
    ensures |r| <= |Programs|
  {
    (if HighFor(preds, Programs[0].0) then [Programs[0].1] else [])
      + (if HighFor(preds, Programs[1].0) then [Programs[1].1] else [])
      + (if HighFor(preds, Programs[2].0) then [Programs[2].1] else [])
  }

  /** The benefit list of one plan: the tier's quota sampled from the catalog, then the
      earned programs. */
  function BenefitsOf(t: Tables, tier: Tier, preds: seq<Prediction>, order: seq<nat>): (r: Result<seq<string>, PyError>)
    requires IsIndexOrder(order, |t.benefits|)
    ensures r.Failure? <==> BenefitQuota(tier) > |t.benefits|
    ensures r.Success? ==> |r.value| == BenefitQuota(tier) + |EarnedPrograms(preds)|
    ensures r.Success? ==> r.value[BenefitQuota(tier)..] == EarnedPrograms(preds)
    ensures r.Success? ==> forall i :: 0 <= i < BenefitQuota(tier) ==> r.value[i] in t.benefits
  {
    match Sample(t.benefits, BenefitQuota(tier), order)
    case Failure(e) => Failure(e)
    case Success(s) => Success(s + EarnedPrograms(preds))
  }

  /** Each program is earned exactly when the user has a High prediction for its condition. */
  lemma EarnedProgramsExact(preds: seq<Prediction>, k: nat)
    requires k < |Programs|
    ensures Programs[k].1 in EarnedPrograms(preds) <==> HighFor(preds, Programs[k].0)
  {
  }

  /** _determine_benefits: the sample, then one append per earned program. */
  method DetermineBenefits(t: Tables, tier: Tier, preds: seq<Prediction>, order: seq<nat>)
    returns (r: Result<seq<string>, PyError>)
    requires IsIndexOrder(order, |t.benefits|)
    ensures r == BenefitsOf(t, tier, preds, order)
  {
    var sample := Sample(t.benefits, BenefitQuota(tier), order);
    if sample.Failure? {
      return Failure(sample.error);
    }
    var benefits := sample.value;
    if HighFor(preds, "Heart_Disease_Risk") {
      benefits := benefits + ["Cardiovascular Health Program"];
    }
    if HighFor(preds, "Diabetes") {
      benefits := benefits + ["Diabetes Management Program"];
    }
    if HighFor(preds, "Cancer_Risk") {
      benefits := benefits + ["Cancer Screening Program"];
    }
    assert benefits == sample.value + EarnedPrograms(preds);
    r := Success(benefits);
  }

  const WaitingKeys: seq<string> := ["General Waiting Period", "Pre-existing Diseases", "Specific Procedures"]

  /** _generate_waiting_periods. */
  function WaitingPeriods(w: WaitingConfig, preds: seq<Prediction>): (r: seq<(string, int)>)
    ensures |r| == 3 && forall i :: 0 <= i < 3 ==> r[i].0 == WaitingKeys[i]
    ensures r[0].1 == w.general && r[2].1 == w.specificProcedures
    ensures AnyHigh(preds) ==> r[1].1 == w.preExistingHigh
    ensures !AnyHigh(preds) ==> r[1].1 == w.preExistingLow
  {
    [(WaitingKeys[0], w.general),
     (WaitingKeys[1], if AnyHigh(preds) then w.preExistingHigh else w.preExistingLow),
     (WaitingKeys[2], w.specificProcedures)]
  }

  /** The parts of a plan computed before its coverage list. */
  datatype Priced = Priced(
    risk: real,
    tier: Tier,
    network: string,
    company: string,
    planType: string,
    monthlyPremium: real,
    sumInsured: real,
    deductible: string,
    outOfPocketMax: string,
    copayments: seq<(string, string)>)

  /** The plan dictionary _generate_fallback_plan returns; dates are day numbers. */
  datatype Plan = Plan(
    company: string,
    planName: string,
    planType: string,
    networkType: string,
    monthlyPremium: real,
    annualPremium: real,
    sumInsured: real,
    deductible: string,
    outOfPocketMax: string,
    copayments: seq<(string, string)>,
    coverageDetails: seq<string>,
    additionalBenefits: seq<string>,
    effectiveDate: int,
    expirationDate: int,
    generalExclusions: seq<string>,
    waitingPeriods: seq<(string, int)>)

  function PlanName(tier: Tier, network: string): string {
    TierName(tier) + " " + network + " Health Shield"
  }

  /** Everything _generate_fallback_plan computes before the coverage list, in its order, with
      the first exception any step raises. */
  function PricingOf(t: Tables, profile: UserProfile, health: HealthInformation, lifestyle: LifestyleInformation,
                     ml: MLModelData, preds: seq<Prediction>, d: Draws): (r: Result<Priced, PyError>)
    requires DrawsFit(d, t)
    ensures r.Success? ==> RiskScoreOf(profile, health, lifestyle, ml, preds) == Success(r.value.risk)
    ensures r.Success? ==> SelectTier(r.value.risk, profile.annualIncome) == Success(r.value.tier)
  {
    match RiskScoreOf(profile, health, lifestyle, ml, preds)
    case Failure(e) => Failure(e)
    case Success(risk) =>
      match SelectTier(risk, profile.annualIncome)
      case Failure(e) => Failure(e)
      case Success(tier) =>
        match Choose(t.networkTypes, d.network)
        case Failure(e) => Failure(e)
        case Success(network) =>
          match Choose(t.companies, d.company)
          case Failure(e) => Failure(e)
          case Success(company) =>
            var age := profile.age.value;
            if profile.annualIncome.None? then Failure(TypeError)
            else
              Success(Priced(
                risk, tier, network, company,
                PlanTypeOf(age, preds),
                MonthlyPremium(t.basePremium.Of(tier), age, risk),
                SumInsured(profile.annualIncome.value, t.baseMultiplier.Of(tier), CountLevel(preds, High)),
                Deductible(t.baseDeductible.Of(tier), risk),
                OutOfPocketMax(t.baseOutOfPocketMax.Of(tier), risk),
                Copayments(t.baseCopay.Of(tier), risk)))
  }

  /** The plan generated from a given basic coverage list: the pricing, the coverage list, the
      benefits, three exclusions and the waiting periods. */
  function PlanOf(t: Tables, basic: seq<string>, profile: UserProfile, health: HealthInformation,
                  lifestyle: LifestyleInformation, ml: MLModelData, preds: seq<Prediction>, d: Draws,
                  today: int): Result<Plan, PyError>
    requires DrawsFit(d, t)
  {
    match PricingOf(t, profile, health, lifestyle, ml, preds, d)
    case Failure(e) => Failure(e)
    case Success(p) =>
      var coverage := CoverageDetails(t, basic, p.tier, p.network, preds);
      match BenefitsOf(t, p.tier, preds, d.benefitOrder)
      case Failure(e) => Failure(e)
      case Success(benefits) =>
        match Sample(t.exclusions, 3, d.exclusionOrder)
        case Failure(e) => Failure(e)
        case Success(exclusions) =>
          Success(Plan(
            p.company, PlanName(p.tier, p.network), p.planType, p.network,
            p.monthlyPremium, p.monthlyPremium * 12.0, p.sumInsured,
            p.deductible, p.outOfPocketMax, p.copayments,
            coverage, benefits, today, today + 365, exclusions,
            WaitingPeriods(t.waiting, preds)))
  }

  /** What every generated plan satisfies. */
  lemma GeneratedPlanProperties(t: Tables, basic: seq<string>, profile: UserProfile, health: HealthInformation,
                                lifestyle: LifestyleInformation, ml: MLModelData, preds: seq<Prediction>,
                                d: Draws, today: int)
    requires DrawsFit(d, t)
    requires PlanOf(t, basic, profile, health, lifestyle, ml, preds, d, today).Success?
    ensures var plan := PlanOf(t, basic, profile, health, lifestyle, ml, preds, d, today).value;
      && 500.0 <= plan.monthlyPremium <= 20000.0
      && plan.annualPremium == 12.0 * plan.monthlyPremium
      && (plan.sumInsured / 100000.0).Floor as real * 100000.0 == plan.sumInsured
      && plan.sumInsured <= 50000000.0
      && plan.planName in {PlanName(Silver, plan.networkType), PlanName(Bronze, plan.networkType)}
      && plan.networkType in t.networkTypes && plan.company in t.companies
      && |plan.copayments| == 4
      && |plan.generalExclusions| == 3
      && (forall i :: 0 <= i < 3 ==> plan.generalExclusions[i] in t.exclusions)
      && |plan.waitingPeriods| == 3
      && plan.expirationDate == plan.effectiveDate + 365
      && plan.coverageDetails[..|basic|] == basic
  {
    var p := PricingOf(t, profile, health, lifestyle, ml, preds, d).value;
    NoPremiumTierFromScore(profile, health, lifestyle, ml, preds);
    CoverageDetailsShape(t, basic, p.tier, p.network, preds);
  }

  /** The configuration as loaded once per process. Its `coverage.basic` list is the one
      part the generator changes. */
  class InsuranceConfig {
    const tables: Tables
    var basic: seq<string>

    constructor (tables: Tables, basic: seq<string>)
      ensures this.tables == tables && this.basic == basic
    {
      this.tables := tables;
      this.basic := basic;
    }

    /** _generate_coverage_details as written: it extends and appends to the configured basic
        list itself and returns that list, so the configuration keeps every item added. */
    method GenerateCoverageDetails(tier: Tier, network: string, preds: seq<Prediction>) returns (coverage: seq<string>)
      modifies this
      ensures basic == old(basic) + CoverageExtras(tables, tier, network, preds)
      ensures coverage == basic
    {
      if network == "PPO" {
        basic := basic + tables.additionalCoverage;
      }
      if tier == Gold || tier == Platinum {
        basic := basic + tables.goldPlatinumCoverage;
      }
      AppendEnhancedItems(preds);
      coverage := basic;
    }

    /** The loop of _generate_coverage_details over the predictions: one enhanced line
        appended to the basic list per High prediction, in prediction order. */
    method AppendEnhancedItems(preds: seq<Prediction>)
      modifies this
      ensures basic == old(basic) + EnhancedItems(preds)
    {
      var k := 0;
      while k < |preds|
        invariant 0 <= k <= |preds|
        invariant basic == old(basic) + EnhancedItems(preds[..k])
      {
        assert preds[..k + 1][..k] == preds[..k];
        if preds[k].riskLevel == Some(High) {
          basic := basic + ["Enhanced coverage for " + ReplaceAll(preds[k].conditionName, "_", " ")];
        }
        k := k + 1;
      }
      assert preds[..k] == preds;
    }

    /** InsurancePlanGenerator.generate_plan as written: the plan is the one built from the
        basic list as it stands, and once pricing succeeds the list has grown by this plan's
        extra coverage items, even when a later step raises. */
    method GeneratePlan(profile: UserProfile, health: HealthInformation, lifestyle: LifestyleInformation,
                        ml: MLModelData, preds: seq<Prediction>, d: Draws, today: int)
      returns (r: Result<Plan, PyError>)
      requires DrawsFit(d, tables)
      modifies this
      ensures r == PlanOf(tables, old(basic), profile, health, lifestyle, ml, preds, d, today)
      ensures basic == match PricingOf(tables, profile, health, lifestyle, ml, preds, d)
                       case Success(p) => old(basic) + CoverageExtras(tables, p.tier, p.network, preds)
                       case Failure(_) => old(basic)
    {
      var risk := CalculateRiskScore(profile, health, lifestyle, ml, preds);
      if risk.Failure? {
        return Failure(risk.error);
      }
      var tier := SelectTier(risk.value, profile.annualIncome);
      if tier.Failure? {
        return Failure(tier.error);
      }
      var network := Choose(tables.networkTypes, d.network);
      if network.Failure? {
        return Failure(network.error);
      }
      var company := Choose(tables.companies, d.company);
      if company.Failure? {
        return Failure(company.error);
      }
      var age := profile.age.value;
      if profile.annualIncome.None? {
        return Failure(TypeError);
      }
      var p := Priced(
        risk.value, tier.value, network.value, company.value,
        PlanTypeOf(age, preds),
        MonthlyPremium(tables.basePremium.Of(tier.value), age, risk.value),
        SumInsured(profile.annualIncome.value, tables.baseMultiplier.Of(tier.value), CountLevel(preds, High)),
        Deductible(tables.baseDeductible.Of(tier.value), risk.value),
        OutOfPocketMax(tables.baseOutOfPocketMax.Of(tier.value), risk.value),
        Copayments(tables.baseCopay.Of(tier.value), risk.value));
      assert PricingOf(tables, profile, health, lifestyle, ml, preds, d) == Success(p);
      var coverage := GenerateCoverageDetails(p.tier, p.network, preds);
      var benefits := DetermineBenefits(tables, p.tier, preds, d.benefitOrder);
      if benefits.Failure? {
        return Failure(benefits.error);
      }
      var exclusions := Sample(tables.exclusions, 3, d.exclusionOrder);
      if exclusions.Failure? {
        return Failure(exclusions.error);
      }
      r := Success(Plan(
        p.company, PlanName(p.tier, p.network), p.planType, p.network,
        p.monthlyPremium, p.monthlyPremium * 12.0, p.sumInsured,
        p.deductible, p.outOfPocketMax, p.copayments,
        coverage, benefits.value, today, today + 365, exclusions.value,
        WaitingPeriods(tables.waiting, preds)));
    }
  }

  /** Two PPO requests in one process: the second request's coverage list holds the PPO items
      twice, although both requests are alike. */
  method CoverageDriftWitness() returns (first: seq<string>, second: seq<string>)
    ensures first == ["Hospitalization", "OPD"]
    ensures second == ["Hospitalization", "OPD", "OPD"]
  {
    var t := Tables([], [], TierTable(0.0, 0.0, 0.0, 0.0), TierTable(0.0, 0.0, 0.0, 0.0),
                    TierTable(0.0, 0.0, 0.0, 0.0), TierTable(0.0, 0.0, 0.0, 0.0), TierTable(0.0, 0.0, 0.0, 0.0),
                    ["OPD"], [], [], [], WaitingConfig(0, 0, 0, 0));
    var config := new InsuranceConfig(t, ["Hospitalization"]);
    first := config.GenerateCoverageDetails(Bronze, "PPO", []);
    second := config.GenerateCoverageDetails(Bronze, "PPO", []);
  }
}
