/**
 * routes/dashboard.py: the health percentage and its status, the ordered list of risk
 * contributors, the claim counts per decision, the plan count and the plan that expires
 * last, put together by get_dashboard_data. The health tip comes from a language model and
 * is an input here.
 */
module Dashboard {
  import opened Wrappers
  import opened Utils
  import opened Models

  // ---------------------------------------------------------------- health percentage

  /** The four measurements the percentage is computed from, once read. */
  datatype Readings = Readings(bmi: real, systolic: real, diastolic: real, cholesterol: real)

  /** `float(x) if x else default`: a falsy column (None or zero) gives the default. */
  function ReadMetric(v: PyValue, default: real): (r: Result<real, PyError>)
  {
    if Truthy(v) then ToFloat(v) else Success(default)
  }

  /** The four readings together, or the first exception raised while reading them. */
  function Combine(bmi: Result<real, PyError>, systolic: Result<real, PyError>,
                   diastolic: Result<real, PyError>, cholesterol: Result<real, PyError>): (r: Result<Readings, PyError>)
    ensures r.Success? <==> bmi.Success? && systolic.Success? && diastolic.Success? && cholesterol.Success?
    ensures r.Success? ==> r.value == Readings(bmi.value, systolic.value, diastolic.value, cholesterol.value)
  {
    if bmi.Failure? then Failure(bmi.error)
    else if systolic.Failure? then Failure(systolic.error)
    else if diastolic.Failure? then Failure(diastolic.error)
    else if cholesterol.Failure? then Failure(cholesterol.error)
    else Success(Readings(bmi.value, systolic.value, diastolic.value, cholesterol.value))
  }

  /** The four readings with their defaults 24.22, 120, 80 and 200, or the first exception
      float() raises. */
  function ReadingsOf(bmi: PyValue, systolic: PyValue, diastolic: PyValue, cholesterol: PyValue)
    : Result<Readings, PyError>
  {
    Combine(ReadMetric(bmi, 24.22), ReadMetric(systolic, 120.0), ReadMetric(diastolic, 80.0),
            ReadMetric(cholesterol, 200.0))
  }

  /** `bmi < 18.5 or bmi > 24.9` on float(BMI): for the column's two-place values, comparing
      the doubles orders them as their decimal values. */
  predicate BmiOutOfRange(bmi: real) {
    bmi < 18.5 || bmi > 24.9
  }

  predicate PressureHigh(systolic: real, diastolic: real) {
    systolic > 130.0 || diastolic > 85.0
  }

  predicate CholesterolHigh(cholesterol: real) {
    cholesterol > 240.0
  }

  /** How many of the three health checks the readings fail. */
  function FailedChecks(r: Readings): (n: nat)
    ensures n <= 3
  {
    (if BmiOutOfRange(r.bmi) then 1 else 0)
      + (if PressureHigh(r.systolic, r.diastolic) then 1 else 0)
      + (if CholesterolHigh(r.cholesterol) then 1 else 0)
  }

  /** The percentage calculate_health_percentage promises: 100 less 10 per failed check, or
      50 when a reading cannot be converted. */
  function HealthScore(readings: Result<Readings, PyError>): int {
    match readings
    case Failure(_) => 50
    case Success(r) => 100 - 10 * FailedChecks(r)
  }

  function HealthPercentageOf(bmi: PyValue, systolic: PyValue, diastolic: PyValue, cholesterol: PyValue): int {
    HealthScore(ReadingsOf(bmi, systolic, diastolic, cholesterol))
  }

  /** The scoring inside calculate_health_percentage: 100, less 10 for each failed check,
      clamped to [0, 100]. */
  method ScoreReadings(r: Readings) returns (score: int)
    ensures score == 100 - 10 * FailedChecks(r)
  {
    var healthScore := 100;
    if r.bmi < 18.5 || r.bmi > 24.9 {
      healthScore := healthScore - 10;
    }
    if r.systolic > 130.0 || r.diastolic > 85.0 {
      healthScore := healthScore - 10;
    }
    if r.cholesterol > 240.0 {
      healthScore := healthScore - 10;
    }
    var upper := if healthScore <= 100 then healthScore else 100;
    score := if upper >= 0 then upper else 0;
  }

  /** calculate_health_percentage: the readings scored, or 50 when one cannot be converted. */
  method CalculateHealthPercentage(bmi: PyValue, systolic: PyValue, diastolic: PyValue, cholesterol: PyValue)
    returns (pct: int)
    ensures pct == HealthPercentageOf(bmi, systolic, diastolic, cholesterol)
    ensures 0 <= pct <= 100
  {
    var readings := ReadingsOf(bmi, systolic, diastolic, cholesterol);
    if readings.Failure? {
      return 50;
    }
    pct := ScoreReadings(readings.value);
  }

  /** The percentage takes five values only: 70 to 100 in steps of 10 when the readings
      convert, 50 when one does not; the clamp never changes the score. */
  lemma {:induction false} HealthScoreValues(readings: Result<Readings, PyError>)
    ensures readings.Success? ==> HealthScore(readings) in {70, 80, 90, 100}
    ensures readings.Failure? ==> HealthScore(readings) == 50
  {
    if readings.Success? {
      var n := FailedChecks(readings.value);
      assert n == 0 || n == 1 || n == 2 || n == 3;
    }
  }

  /** Missing measurements are read as 24.22, 120/80 and 200, which pass every check. */
  lemma MissingMetricsAreHealthy()
    ensures HealthPercentageOf(PyNone, PyNone, PyNone, PyNone) == 100
  {
  }

  /** A zero reading counts as missing, not as an out-of-range value. */
  lemma ZeroIsMissing(systolic: PyValue, diastolic: PyValue, cholesterol: PyValue)
    ensures HealthPercentageOf(PyFloat(0.0), systolic, diastolic, cholesterol)
         == HealthPercentageOf(PyNone, systolic, diastolic, cholesterol)
  {
  }

  /** Each failed check costs exactly 10 points. */
  lemma {:induction false} EachFailedCheckCostsTen(r: Readings)
    ensures HealthPercentageOf(PyFloat(r.bmi), PyFloat(r.systolic), PyFloat(r.diastolic), PyFloat(r.cholesterol))
         == 100 - 10 * FailedChecks(Readings(if r.bmi == 0.0 then 24.22 else r.bmi,
                                              if r.systolic == 0.0 then 120.0 else r.systolic,
                                              if r.diastolic == 0.0 then 80.0 else r.diastolic,
                                              if r.cholesterol == 0.0 then 200.0 else r.cholesterol))
  {
    assert ReadingsOf(PyFloat(r.bmi), PyFloat(r.systolic), PyFloat(r.diastolic), PyFloat(r.cholesterol))
        == Success(Readings(if r.bmi == 0.0 then 24.22 else r.bmi,
                            if r.systolic == 0.0 then 120.0 else r.systolic,
                            if r.diastolic == 0.0 then 80.0 else r.diastolic,
                            if r.cholesterol == 0.0 then 200.0 else r.cholesterol));
  }

  /** The MLModelData columns as the Python values the route reads. */
  function RealColumn(x: Option<real>): PyValue {
    if x.Some? then PyFloat(x.value) else PyNone
  }

  function IntColumn(x: Option<int>): PyValue {
    if x.Some? then PyInt(x.value) else PyNone
  }

  /** calculate_health_percentage(ml_model_data) on a stored row. */
  function RowHealthPercentage(ml: MLModelData): int {
    HealthPercentageOf(RealColumn(ml.bmi), IntColumn(ml.systolicBp), IntColumn(ml.diastolicBp), IntColumn(ml.cholesterolTotal))
  }

  /** Numeric columns always convert, so a stored row never takes the 50 fallback. */
  lemma RowReadingsConvert(ml: MLModelData)
    ensures ReadingsOf(RealColumn(ml.bmi), IntColumn(ml.systolicBp), IntColumn(ml.diastolicBp),
                       IntColumn(ml.cholesterolTotal)).Success?
    ensures RowHealthPercentage(ml) in {70, 80, 90, 100}
  {
    HealthScoreValues(ReadingsOf(RealColumn(ml.bmi), IntColumn(ml.systolicBp), IntColumn(ml.diastolicBp), IntColumn(ml.cholesterolTotal)));
  }

  // ---------------------------------------------------------------- health status

  const Optimal := "Optimal"
  const Moderate := "Moderate"
  const NeedsAttention := "Needs Attention"

  /** determine_health_status. */
  function DetermineHealthStatus(pct: int): (r: string)
    ensures r == Optimal <==> pct >= 80
    ensures r == Moderate <==> 50 <= pct < 80
    ensures r == NeedsAttention <==> pct < 50
  {
    if pct >= 80 then Optimal else if pct >= 50 then Moderate else NeedsAttention
  }

  /** Every percentage calculate_health_percentage returns is at least 50, so the dashboard
      never reports "Needs Attention". */
  lemma NeverNeedsAttention(bmi: PyValue, systolic: PyValue, diastolic: PyValue, cholesterol: PyValue)
    ensures DetermineHealthStatus(HealthPercentageOf(bmi, systolic, diastolic, cholesterol)) != NeedsAttention
  {
    HealthScoreValues(ReadingsOf(bmi, systolic, diastolic, cholesterol));
  }

  // ---------------------------------------------------------------- risk contributors

  /** The contributors in the order identify_risk_contributors checks them. */
  const ContributorLabels: seq<string> := [
    "BMI out of normal range",
    "High Blood Pressure",
    "Smoking",
    "High Alcohol Consumption",
    "Low Physical Activity"
  ]

  const NoContributors := "No significant risk contributors identified"

  /** The double nearest 24.9, exactly. The BMI column is a decimal, and Python compares a
      Decimal with the float literal 24.9 by their exact values, so a stored 24.90 lies above it. */
  const DoubleNear24_9: real := 24.89999999999999857891452847979962825775146484375

  /** Whether each contributor applies, in label order. A NULL or zero BMI or systolic
      pressure is not checked; a NULL lifestyle column never equals a label. */
  function ContributorFlags(ml: MLModelData, lifestyle: LifestyleInformation): (f: seq<bool>)
    ensures |f| == |ContributorLabels|
  {
    [ ml.bmi.Some? && ml.bmi.value != 0.0 && (ml.bmi.value < 18.5 || ml.bmi.value > DoubleNear24_9),
      ml.systolicBp.Some? && ml.systolicBp.value != 0 && ml.systolicBp.value > 130,
      lifestyle.smokingStatus != Some("Never"),
      lifestyle.alcoholConsumption == Some("Moderate") || lifestyle.alcoholConsumption == Some("Heavy"),
      lifestyle.physicalActivity == Some("None") || lifestyle.physicalActivity == Some("Light") ]
  }

  /** The labels of the contributors among the first `n` that apply, in label order. */
  function ApplyingBelow(flags: seq<bool>, n: nat): seq<string>
    requires n <= |flags| <= |ContributorLabels|
  {
    if n == 0 then []
    else ApplyingBelow(flags, n - 1) + (if flags[n - 1] then [ContributorLabels[n - 1]] else [])
  }

  /** The contributors that apply, in label order. */
  function Applying(flags: seq<bool>): seq<string>
    requires |flags| == |ContributorLabels|
  {
    ApplyingBelow(flags, |flags|)
  }

  /** The positions below `n` whose flag is set, in increasing order. */
  function Positions(flags: seq<bool>, n: nat): seq<nat>
    requires n <= |flags|
  {
    if n == 0 then [] else Positions(flags, n - 1) + (if flags[n - 1] then [n - 1] else [])
  }

  /** The listed positions are below `n`, flagged and strictly increasing. */
  lemma {:induction false} PositionsSound(flags: seq<bool>, n: nat)
    requires n <= |flags|
    ensures forall k :: 0 <= k < |Positions(flags, n)| ==> Positions(flags, n)[k] < n && flags[Positions(flags, n)[k]]
    ensures forall a, b :: 0 <= a < b < |Positions(flags, n)| ==> Positions(flags, n)[a] < Positions(flags, n)[b]
  {
    if n > 0 {
      PositionsSound(flags, n - 1);
      var p := Positions(flags, n - 1);
      var q := Positions(flags, n);
      assert forall k :: 0 <= k < |p| ==> q[k] == p[k];
      if flags[n - 1] {
        assert q == p + [n - 1];
      } else {
        assert q == p;
      }
    }
  }

  /** Every set flag below `n` is listed. */
  lemma {:induction false} PositionsComplete(flags: seq<bool>, n: nat, i: nat)
    requires i < n <= |flags| && flags[i]
    ensures i in Positions(flags, n)
  {
    if i < n - 1 {
      PositionsComplete(flags, n - 1, i);
    }
  }

  /** The labels at the given positions. */
  function LabelsAt(ps: seq<nat>): (r: seq<string>)
    requires forall k :: 0 <= k < |ps| ==> ps[k] < |ContributorLabels|
    ensures |r| == |ps| && forall k :: 0 <= k < |ps| ==> r[k] == ContributorLabels[ps[k]]
  {
    seq(|ps|, k requires 0 <= k < |ps| => ContributorLabels[ps[k]])
  }

  /** The applying contributors are the labels at the flagged positions. */
  lemma {:induction false} ApplyingAtPositions(flags: seq<bool>, n: nat)
    requires n <= |flags| <= |ContributorLabels|
    ensures forall k :: 0 <= k < |Positions(flags, n)| ==> Positions(flags, n)[k] < |ContributorLabels|
    ensures ApplyingBelow(flags, n) == LabelsAt(Positions(flags, n))
  {
    PositionsSound(flags, n);
    if n > 0 {
      ApplyingAtPositions(flags, n - 1);
      PositionsSound(flags, n - 1);
      var p := Positions(flags, n - 1);
      if flags[n - 1] {
        assert Positions(flags, n) == p + [n - 1];
        assert LabelsAt(p + [n - 1]) == LabelsAt(p) + [ContributorLabels[n - 1]];
      }
    }
  }

  /** identify_risk_contributors: one append per contributor that applies, in order, or the
      single sentinel text when none does. */
  method IdentifyRiskContributors(ml: MLModelData, lifestyle: LifestyleInformation) returns (contributors: seq<string>)
    ensures var a := Applying(ContributorFlags(ml, lifestyle));
      contributors == if a == [] then [NoContributors] else a
  {
    ghost var flags := ContributorFlags(ml, lifestyle);
    contributors := [];
    if ml.bmi.Some? && ml.bmi.value != 0.0 && (ml.bmi.value < 18.5 || ml.bmi.value > DoubleNear24_9) {
      contributors := contributors + [ContributorLabels[0]];
    }
    assert contributors == ApplyingBelow(flags, 1);
    if ml.systolicBp.Some? && ml.systolicBp.value != 0 && ml.systolicBp.value > 130 {
      contributors := contributors + [ContributorLabels[1]];
    }
    assert contributors == ApplyingBelow(flags, 2);
    if lifestyle.smokingStatus != Some("Never") {
      contributors := contributors + [ContributorLabels[2]];
    }
    assert contributors == ApplyingBelow(flags, 3);
    if lifestyle.alcoholConsumption == Some("Moderate") || lifestyle.alcoholConsumption == Some("Heavy") {
      contributors := contributors + [ContributorLabels[3]];
    }
    assert contributors == ApplyingBelow(flags, 4);
    if lifestyle.physicalActivity == Some("None") || lifestyle.physicalActivity == Some("Light") {
      contributors := contributors + [ContributorLabels[4]];
    }
    assert contributors == ApplyingBelow(flags, 5);
    if contributors == [] {
      contributors := [NoContributors];
    }
  }

  /** The five labels and the sentinel are pairwise different (their lengths already are). */
  lemma LabelsDistinct()
    ensures forall i, j :: 0 <= i < j < |ContributorLabels| ==> |ContributorLabels[i]| != |ContributorLabels[j]|
    ensures forall i :: 0 <= i < |ContributorLabels| ==> |ContributorLabels[i]| != |NoContributors|
  {
  }

  /** A contributor's label is listed exactly when its condition holds. */
  lemma ContributorListed(flags: seq<bool>, i: nat)
    requires |flags| == |ContributorLabels| && i < |flags|
    ensures ContributorLabels[i] in Applying(flags) <==> flags[i]
  {
    var ps := Positions(flags, |flags|);
    var a := Applying(flags);
    ApplyingAtPositions(flags, |flags|);
    if flags[i] {
      PositionsComplete(flags, |flags|, i);
      var k :| 0 <= k < |ps| && ps[k] == i;
      assert a[k] == ContributorLabels[i];
    }
    if ContributorLabels[i] in a {
      PositionsSound(flags, |flags|);
      LabelsDistinct();
      var k :| 0 <= k < |a| && a[k] == ContributorLabels[i];
      assert |ContributorLabels[ps[k]]| == |ContributorLabels[i]|;
    }
  }

  /** At a stored BMI of 24.90 the two checks part ways: the BMI contributor is listed, yet
      the percentage deducts nothing for BMI (it is what it would be at a normal 22.00). */
  lemma BmiBoundaryDisagrees(ml: MLModelData, lifestyle: LifestyleInformation)
    requires ml.bmi == Some(24.9)
    ensures ContributorLabels[0] in Applying(ContributorFlags(ml, lifestyle))
    ensures RowHealthPercentage(ml) == RowHealthPercentage(ml.(bmi := Some(22.0)))
  {
    ContributorListed(ContributorFlags(ml, lifestyle), 0);
  }

  /** No contributor applies exactly when the list of applying contributors is empty. */
  lemma ApplyingEmptyIffNone(flags: seq<bool>)
    requires |flags| == |ContributorLabels|
    ensures Applying(flags) == [] <==> forall i :: 0 <= i < |flags| ==> !flags[i]
  {
    ApplyingAtPositions(flags, |flags|);
    var ps := Positions(flags, |flags|);
    if ps != [] {
      PositionsSound(flags, |flags|);
      assert flags[ps[0]];
    }
    forall i | 0 <= i < |flags| && flags[i] ensures ps != [] {
      PositionsComplete(flags, |flags|, i);
    }
  }

  /** The sentinel text is never one of the applying contributors. */
  lemma SentinelNotApplying(flags: seq<bool>)
    requires |flags| == |ContributorLabels|
    ensures NoContributors !in Applying(flags)
  {
    ApplyingAtPositions(flags, |flags|);
    var ps := Positions(flags, |flags|);
    var a := Applying(flags);
    LabelsDistinct();
    forall k | 0 <= k < |a| ensures a[k] != NoContributors {
      assert |a[k]| == |ContributorLabels[ps[k]]|;
    }
  }

  /** The contributor list is never empty; it is the sentinel alone exactly when no contributor
      applies; otherwise it lists each contributor whose condition holds and no other. */
  lemma ContributorsExact(flags: seq<bool>)
    requires |flags| == |ContributorLabels|
    ensures var a := Applying(flags);
      && (a == [] <==> forall i :: 0 <= i < |flags| ==> !flags[i])
      && (forall i :: 0 <= i < |flags| ==> (ContributorLabels[i] in a <==> flags[i]))
      && NoContributors !in a
  {
    forall i | 0 <= i < |flags| ensures ContributorLabels[i] in Applying(flags) <==> flags[i] {
      ContributorListed(flags, i);
    }
    ApplyingEmptyIffNone(flags);
    SentinelNotApplying(flags);
  }

  /** The listed contributors keep the order in which they are checked: the x-th listed label
      is the label at the x-th flagged position, and those positions increase. */
  lemma ContributorsOrdered(flags: seq<bool>)
    requires |flags| == |ContributorLabels|
    ensures var a := Applying(flags);
      var ps := Positions(flags, |flags|);
      && |ps| == |a|
      && (forall x :: 0 <= x < |a| ==> ps[x] < |flags| && flags[ps[x]] && a[x] == ContributorLabels[ps[x]])
      && (forall x, y :: 0 <= x < y < |a| ==> ps[x] < ps[y])
  {
    ApplyingAtPositions(flags, |flags|);
    PositionsSound(flags, |flags|);
  }

  // ---------------------------------------------------------------- claim counts

  /** `len([claim for claim in claims if claim.decision == wanted])`. */
  function CountDecision(claims: seq<ClaimStatus>, wanted: string): (n: nat)
    ensures n <= |claims|
  {
    if claims == [] then 0
    else (if claims[0].decision == wanted then 1 else 0) + CountDecision(claims[1..], wanted)
  }

  /** The three counts never exceed the number of claims: no claim is counted twice. */
  lemma {:induction false} CountsWithinTotal(claims: seq<ClaimStatus>)
    ensures CountDecision(claims, DecisionLabel(Approved)) + CountDecision(claims, DecisionLabel(InReview))
          + CountDecision(claims, DecisionLabel(Cancelled)) <= |claims|
  {
    if claims != [] {
      CountsWithinTotal(claims[1..]);
    }
  }

  /** A count is the number of claims with that exact decision text. */
  lemma {:induction false} CountDecisionIsFilterSize(claims: seq<ClaimStatus>, wanted: string)
    ensures CountDecision(claims, wanted) == |Where(claims, (c: ClaimStatus) => c.decision == wanted)|
  {
    if claims != [] {
      CountDecisionIsFilterSize(claims[1..], wanted);
    }
  }

  // ---------------------------------------------------------------- the active plan

  /** `max(insurance, key=lambda x: x.expiration_date)`: the position of the first plan with
      the latest expiration date. */
  function LatestIndex(plans: seq<PlanRow>): (r: nat)
    requires plans != []
    ensures r < |plans|
    ensures forall j :: 0 <= j < |plans| ==> plans[j].expirationDate <= plans[r].expirationDate
    ensures forall j :: 0 <= j < r ==> plans[j].expirationDate < plans[r].expirationDate
  {
    if |plans| == 1 then 0
    else
      var m := LatestIndex(plans[..|plans| - 1]);
      assert forall j :: 0 <= j < |plans| - 1 ==> plans[..|plans| - 1][j] == plans[j];
      if plans[|plans| - 1].expirationDate > plans[m].expirationDate then |plans| - 1 else m
  }

  /** The plan the dashboard shows as active, or None without plans. */
  function ActivePlan(plans: seq<PlanRow>): (r: Option<PlanRow>)
    ensures r.None? <==> plans == []
    ensures r.Some? ==> r.value in plans && forall j :: 0 <= j < |plans| ==> plans[j].expirationDate <= r.value.expirationDate
  {
    if plans == [] then None else Some(plans[LatestIndex(plans)])
  }

  // ---------------------------------------------------------------- get_dashboard_data

  datatype ClaimCounts = ClaimCounts(approved: nat, inReview: nat, rejected: nat)

  /** The 200 reply of get_dashboard_data, apart from the last prescription date; dates are
      day numbers. */
  datatype DashboardData = DashboardData(
    insuranceCount: nat,
    insuranceExpiration: Option<int>,
    claims: ClaimCounts,
    percentage: int,
    status: string,
    tip: string,
    riskContributors: seq<string>)

  datatype DashboardReply = Incomplete | Dashboard(data: DashboardData)

  /** What get_dashboard_data(user_id) replies, given the tables it reads and the health tip
      the language model wrote: the 400 reply when the profile, lifestyle or lab row is
      missing, otherwise the user's plans and claims summarised and the first lab row scored. */
  function DashboardOf(profiles: seq<UserProfile>, lifestyles: seq<LifestyleInformation>, labData: seq<MLModelData>,
                       claimRows: seq<ClaimStatus>, planRows: seq<PlanRow>, userId: int, tip: string): DashboardReply
  {
    var profile := FirstWhere(profiles, (x: UserProfile) => x.userId == userId);
    var lifestyle := FirstWhere(lifestyles, (x: LifestyleInformation) => x.userId == userId);
    var ml := FirstWhere(labData, (x: MLModelData) => x.userId == userId);
    if profile.None? || lifestyle.None? || ml.None? then Incomplete
    else
      var plans := Where(planRows, (p: PlanRow) => p.userId == userId);
      var claims := Where(claimRows, (c: ClaimStatus) => c.userId == userId);
      var applying := Applying(ContributorFlags(ml.value, lifestyle.value));
      Dashboard(DashboardData(
        |plans|,
        if plans == [] then None else Some(plans[LatestIndex(plans)].expirationDate),
        ClaimCounts(CountDecision(claims, DecisionLabel(Approved)), CountDecision(claims, DecisionLabel(InReview)),
                    CountDecision(claims, DecisionLabel(Cancelled))),
        RowHealthPercentage(ml.value),
        DetermineHealthStatus(RowHealthPercentage(ml.value)),
        tip,
        if applying == [] then [NoContributors] else applying))
  }

  /** The dashboard reply is 400 exactly when a row is missing; otherwise it counts the user's
      plans, shows the latest expiry, counts each claim decision without counting a claim
      twice, scores the lab row at 70 to 100, never says "Needs Attention" and always lists
      at least one contributor line. */
  lemma DashboardProperties(profiles: seq<UserProfile>, lifestyles: seq<LifestyleInformation>, labData: seq<MLModelData>,
                            claimRows: seq<ClaimStatus>, planRows: seq<PlanRow>, userId: int, tip: string)
    ensures var reply := DashboardOf(profiles, lifestyles, labData, claimRows, planRows, userId, tip);
      reply.Incomplete? <==>
      || (forall i :: 0 <= i < |profiles| ==> profiles[i].userId != userId)
      || (forall i :: 0 <= i < |lifestyles| ==> lifestyles[i].userId != userId)
      || (forall i :: 0 <= i < |labData| ==> labData[i].userId != userId)
    ensures var reply := DashboardOf(profiles, lifestyles, labData, claimRows, planRows, userId, tip);
      reply.Dashboard? ==>
      var plans := Where(planRows, (p: PlanRow) => p.userId == userId);
      var claims := Where(claimRows, (c: ClaimStatus) => c.userId == userId);
      && reply.data.insuranceCount == |plans|
      && (reply.data.insuranceExpiration.None? <==> plans == [])
      && (forall p :: p in plans ==> reply.data.insuranceExpiration.Some? && p.expirationDate <= reply.data.insuranceExpiration.value)
      && reply.data.claims.approved + reply.data.claims.inReview + reply.data.claims.rejected <= |claims|
      && reply.data.percentage in {70, 80, 90, 100}
      && reply.data.status != NeedsAttention
      && reply.data.riskContributors != []
      && reply.data.tip == tip
  {
    var ml := FirstWhere(labData, (x: MLModelData) => x.userId == userId);
    CountsWithinTotal(Where(claimRows, (c: ClaimStatus) => c.userId == userId));
    if ml.Some? {
      RowReadingsConvert(ml.value);
    }
  }

  /** get_dashboard_data(user_id), given the tables it reads and the health tip the language
      model wrote. */
  method GetDashboardData(profiles: seq<UserProfile>, lifestyles: seq<LifestyleInformation>, labData: seq<MLModelData>,
                          claimRows: seq<ClaimStatus>, planRows: seq<PlanRow>, userId: int, tip: string)
    returns (reply: DashboardReply)
    ensures reply == DashboardOf(profiles, lifestyles, labData, claimRows, planRows, userId, tip)
  {
    var profile := FirstWhere(profiles, (x: UserProfile) => x.userId == userId);
    var lifestyle := FirstWhere(lifestyles, (x: LifestyleInformation) => x.userId == userId);
    var ml := FirstWhere(labData, (x: MLModelData) => x.userId == userId);
    var claims := Where(claimRows, (c: ClaimStatus) => c.userId == userId);
    var plans := Where(planRows, (p: PlanRow) => p.userId == userId);
    if profile.None? || lifestyle.None? || ml.None? {
      return Incomplete;
    }
    var active := ActivePlan(plans);
    var expiration := if active.Some? then Some(active.value.expirationDate) else None;
    var counts := ClaimCounts(CountDecision(claims, "Claim Approved"), CountDecision(claims, "Claim in review"),
                              CountDecision(claims, "Claim Cancelled"));
    var m := ml.value;
    var pct := CalculateHealthPercentage(RealColumn(m.bmi), IntColumn(m.systolicBp), IntColumn(m.diastolicBp),
                                         IntColumn(m.cholesterolTotal));
    var status := DetermineHealthStatus(pct);
    var contributors := IdentifyRiskContributors(m, lifestyle.value);
    reply := Dashboard(DashboardData(|plans|, expiration, counts, pct, status, tip, contributors));
  }
}
