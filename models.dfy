/**
 * models.py: the rows the decision code reads (profile, health, lifestyle, lab data,
 * predictions, claim statuses), the two table lookups every route performs
 * (`filter_by(...).first()` and `filter_by(...).all()`), fetch_user_data, and the
 * translation of lab-test names into MLModelData column names.
 */
module Models {
  import opened Wrappers
  import opened Text
  import opened Utils

  datatype RiskLevel = Low | Medium | High

  /** The UserProfile columns the decision code reads; any of them may be NULL. */
  datatype UserProfile = UserProfile(userId: int, age: Option<int>, annualIncome: Option<real>)

  datatype HealthInformation = HealthInformation(userId: int, medicalHistory: Option<string>)

  /** Enum columns are kept as their text, so that comparisons such as `!= "Never"` read
      the same here as in the routes (a NULL column compares unequal to every label). */
  datatype LifestyleInformation = LifestyleInformation(
    userId: int,
    smokingStatus: Option<string>,
    alcoholConsumption: Option<string>,
    physicalActivity: Option<string>)

  /** The MLModelData columns the plan generator and the dashboard read. */
  datatype MLModelData = MLModelData(
    userId: int,
    bmi: Option<real>,
    systolicBp: Option<int>,
    diastolicBp: Option<int>,
    cholesterolTotal: Option<int>)

  /** A PredictionResults row; (userId, conditionName) is the primary key. */
  datatype Prediction = Prediction(
    userId: int,
    conditionName: string,
    probability: Option<real>,
    riskLevel: Option<RiskLevel>)

  datatype Date = Date(year: int, month: int, day: int)
  datatype Timestamp = Timestamp(date: Date, secondOfDay: int)

  predicate ValidDate(d: Date) {
    1000 <= d.year <= 9999 && 1 <= d.month <= 12 && 1 <= d.day <= 31
  }

  /** The values of the ClaimStatus decision enum, in declaration order. */
  datatype Decision = Approved | Cancelled | InReview

  /** The label the enum stores for each value. */
  function DecisionLabel(d: Decision): string {
    match d
    case Approved => "Claim Approved"
    case Cancelled => "Claim Cancelled"
    case InReview => "Claim in review"
  }

  /** A value the decision enum admits: one of its labels, compared without regard to case. */
  predicate IsDecisionLabel(t: string) {
    exists d :: |t| == |DecisionLabel(d)| && StartsWithIgnoringCase(t, DecisionLabel(d))
  }

  /** A ClaimStatus row. */
  datatype ClaimStatus = ClaimStatus(
    claimId: int,
    userId: int,
    decision: string,
    reason: string,
    billName: string,
    processedAt: Timestamp)

  /** A row the ClaimStatus table admits: a decision from the enum and a real timestamp. */
  predicate ClaimStatusShape(c: ClaimStatus) {
    IsDecisionLabel(c.decision) && ValidDate(c.processedAt.date)
  }

  /** Claim ids are distinct and below their counter, and every claim row has the shape its
      table admits. */
  predicate ClaimLogValid(claims: seq<ClaimStatus>, nextClaimId: int) {
    && (forall i, j :: 0 <= i < j < |claims| ==> claims[i].claimId != claims[j].claimId)
    && (forall i :: 0 <= i < |claims| ==> claims[i].claimId < nextClaimId && ClaimStatusShape(claims[i]))
  }

  /** A Users row: the account and whether its details are complete. */
  datatype UserRow = UserRow(userId: int, userDetails: bool)

  /** Some Users row has this id: what the foreign keys to `Users.user_id` demand. */
  predicate HasUser(users: seq<UserRow>, userId: int) {
    exists i :: 0 <= i < |users| && users[i].userId == userId
  }

  /** An InsurancePlans row; dates are day numbers. */
  datatype PlanRow = PlanRow(
    planId: int,
    userId: int,
    company: string,
    planName: string,
    planType: string,
    networkType: string,
    monthlyPremium: real,
    annualPremium: real,
    sumInsured: real,
    deductible: string,
    outOfPocketMax: string,
    effectiveDate: int,
    expirationDate: int)

  /** A row of one of the plan detail tables (CoverageDetails, Copayments, AdditionalBenefits,
      PolicyExclusions): the plan it belongs to and its content. */
  datatype DetailRow<V> = DetailRow(planId: int, value: V)

  /** The five tables generate_plan writes, with the plan id counter. */
  datatype PlanTables = PlanTables(
    plans: seq<PlanRow>,
    coverage: seq<DetailRow<string>>,
    copayments: seq<DetailRow<(string, string)>>,
    benefits: seq<DetailRow<string>>,
    exclusions: seq<DetailRow<(string, string)>>,
    nextPlanId: int)

  /** Plan ids are distinct and below the counter, and every detail row belongs to an id
      already handed out. */
  predicate PlanTablesValid(t: PlanTables) {
    && (forall i, j :: 0 <= i < j < |t.plans| ==> t.plans[i].planId != t.plans[j].planId)
    && (forall i :: 0 <= i < |t.plans| ==> t.plans[i].planId < t.nextPlanId)
    && (forall i :: 0 <= i < |t.coverage| ==> t.coverage[i].planId < t.nextPlanId)
    && (forall i :: 0 <= i < |t.copayments| ==> t.copayments[i].planId < t.nextPlanId)
    && (forall i :: 0 <= i < |t.benefits| ==> t.benefits[i].planId < t.nextPlanId)
    && (forall i :: 0 <= i < |t.exclusions| ==> t.exclusions[i].planId < t.nextPlanId)
  }

  /** The database the routes share. Each table is the sequence of its rows in insertion
      order; the plan id counter is the next InsurancePlans auto-increment value. */
  class Database {
    var users: seq<UserRow>
    var profiles: seq<UserProfile>
    var healthInfo: seq<HealthInformation>
    var lifestyles: seq<LifestyleInformation>
    var labData: seq<MLModelData>
    var predictions: seq<Prediction>
    var claims: seq<ClaimStatus>
    var plans: seq<PlanRow>
    var coverage: seq<DetailRow<string>>
    var copayments: seq<DetailRow<(string, string)>>
    var benefits: seq<DetailRow<string>>
    var exclusions: seq<DetailRow<(string, string)>>
    var nextPlanId: int
    var nextClaimId: int

    function PlanTablesOf(): PlanTables
      reads this
    {
      PlanTables(plans, coverage, copayments, benefits, exclusions, nextPlanId)
    }

    /** The plan tables and the claim log are valid. */
    ghost predicate Valid()
      reads this
    {
      && PlanTablesValid(PlanTablesOf())
      && ClaimLogValid(claims, nextClaimId)
    }

    constructor ()
      ensures Valid()
      ensures users == [] && profiles == [] && healthInfo == [] && lifestyles == [] && labData == []
      ensures predictions == [] && claims == [] && plans == []
      ensures coverage == [] && copayments == [] && benefits == [] && exclusions == []
      ensures nextPlanId == 1 && nextClaimId == 1
    {
      users, profiles, healthInfo, lifestyles, labData := [], [], [], [], [];
      predictions, claims, plans := [], [], [];
      coverage, copayments, benefits, exclusions := [], [], [], [];
      nextPlanId, nextClaimId := 1, 1;
    }

    /** `db.session.add(ClaimStatus(...))` and commit: the row is appended under the next
        claim id; no existing row and no other table changes. */
    method AddClaim(userId: int, decision: string, reason: string, billName: string, now: Timestamp)
      returns (c: ClaimStatus)
      requires Valid() && IsDecisionLabel(decision) && ValidDate(now.date)
      modifies this
      ensures Valid()
      ensures c == ClaimStatus(old(nextClaimId), userId, decision, reason, billName, now)
      ensures claims == old(claims) + [c] && nextClaimId == old(nextClaimId) + 1
      ensures PlanTablesOf() == old(PlanTablesOf()) && users == old(users)
      ensures profiles == old(profiles) && healthInfo == old(healthInfo)
      ensures lifestyles == old(lifestyles) && labData == old(labData) && predictions == old(predictions)
    {
      c := ClaimStatus(nextClaimId, userId, decision, reason, billName, now);
      claims := claims + [c];
      nextClaimId := nextClaimId + 1;
    }
  }

  /** `filter_by(...).all()`: the rows that satisfy `p`, in table order. */
  function Where<T>(rows: seq<T>, p: T -> bool): (r: seq<T>)
    ensures |r| <= |rows|
    ensures forall i :: 0 <= i < |r| ==> r[i] in rows && p(r[i])
    ensures forall i :: 0 <= i < |rows| && p(rows[i]) ==> rows[i] in r
  {
    if rows == [] then []
    else (if p(rows[0]) then [rows[0]] else []) + Where(rows[1..], p)
  }

  /** Filtering a table with one more row at the end keeps that row last, if it matches. */
  lemma {:induction false} WhereSnoc<T>(rows: seq<T>, p: T -> bool, x: T)
    ensures Where(rows + [x], p) == Where(rows, p) + (if p(x) then [x] else [])
  {
    if rows != [] {
      assert (rows + [x])[1..] == rows[1..] + [x];
      WhereSnoc(rows[1..], p, x);
    } else {
      assert Where([x], p) == (if p(x) then [x] else []) + Where([x][1..], p);
    }
  }

  /** The positions of the rows that satisfy `p`, in increasing order: the rows a filtered
      query visits, each once. */
  function MatchingPositions<T>(rows: seq<T>, p: T -> bool): (ix: seq<nat>)
    ensures forall k :: 0 <= k < |ix| ==> ix[k] < |rows| && p(rows[ix[k]])
    ensures forall k, l :: 0 <= k < l < |ix| ==> ix[k] < ix[l]
    ensures forall i :: 0 <= i < |rows| && p(rows[i]) ==> i in ix
  {
    MatchingFrom(rows, p, 0)
  }

  /** The matching positions at or after `from`. */
  function MatchingFrom<T>(rows: seq<T>, p: T -> bool, from: nat): (ix: seq<nat>)
    requires from <= |rows|
    ensures forall k :: 0 <= k < |ix| ==> from <= ix[k] < |rows| && p(rows[ix[k]])
    ensures forall k, l :: 0 <= k < l < |ix| ==> ix[k] < ix[l]
    ensures forall i :: from <= i < |rows| && p(rows[i]) ==> i in ix
    decreases |rows| - from
  {
    if from == |rows| then []
    else
      var rest := MatchingFrom(rows, p, from + 1);
      if p(rows[from]) then [from] + rest else rest
  }

  /** Where keeps exactly the rows at the matching positions, in order and each once, so
      the filtered list repeats a row only as often as the table does. */
  lemma WhereAtPositions<T>(rows: seq<T>, p: T -> bool)
    ensures |Where(rows, p)| == |MatchingPositions(rows, p)|
    ensures forall k :: 0 <= k < |Where(rows, p)| ==> Where(rows, p)[k] == rows[MatchingPositions(rows, p)[k]]
  {
    WhereFromPositions(rows, p, 0);
    assert rows[0..] == rows;
  }

  /** The suffix form of WhereAtPositions, by induction on the start of the suffix. */
  lemma {:induction false} WhereFromPositions<T>(rows: seq<T>, p: T -> bool, from: nat)
    requires from <= |rows|
    ensures |Where(rows[from..], p)| == |MatchingFrom(rows, p, from)|
    ensures forall k :: 0 <= k < |Where(rows[from..], p)| ==>
      Where(rows[from..], p)[k] == rows[MatchingFrom(rows, p, from)[k]]
    decreases |rows| - from
  {
    if from < |rows| {
      WhereFromPositions(rows, p, from + 1);
      var w, rest := Where(rows[from + 1..], p), MatchingFrom(rows, p, from + 1);
      assert rows[from..][1..] == rows[from + 1..];
      if p(rows[from]) {
        assert Where(rows[from..], p) == [rows[from]] + w;
        assert MatchingFrom(rows, p, from) == [from] + rest;
        ConsPosition(rows, from, w, rest);
      } else {
        assert Where(rows[from..], p) == w;
      }
    }
  }

  /** Putting a row and its position in front keeps a list aligned with its positions. */
  lemma ConsPosition<T>(rows: seq<T>, i: nat, w: seq<T>, ix: seq<nat>)
    requires i < |rows| && |w| == |ix|
    requires forall k :: 0 <= k < |ix| ==> ix[k] < |rows| && w[k] == rows[ix[k]]
    ensures forall k :: 0 <= k < |w| + 1 ==> ([rows[i]] + w)[k] == rows[([i] + ix)[k]]
  {
    forall k | 1 <= k < |w| + 1 ensures ([rows[i]] + w)[k] == rows[([i] + ix)[k]] {
      assert ([rows[i]] + w)[k] == w[k - 1];
      assert ([i] + ix)[k] == ix[k - 1];
    }
  }

  /** The position of the first row that satisfies `p`, or None. */
  function FirstIndexWhere<T>(rows: seq<T>, p: T -> bool): (r: Option<nat>)
    ensures r.None? <==> forall i :: 0 <= i < |rows| ==> !p(rows[i])
    ensures r.Some? ==> r.value < |rows| && p(rows[r.value]) && forall j :: 0 <= j < r.value ==> !p(rows[j])
  {
    if rows == [] then None
    else if p(rows[0]) then Some(0)
    else
      var r := FirstIndexWhere(rows[1..], p);
      assert forall i :: 1 <= i < |rows| ==> rows[i] == rows[1..][i - 1];
      if r.None? then None else Some(r.value + 1)
  }

  /** The first position satisfying `p` is the one FirstIndexWhere finds. */
  lemma FirstIndexWhereIs<T>(rows: seq<T>, p: T -> bool, i: nat)
    requires i < |rows| && p(rows[i]) && forall j :: 0 <= j < i ==> !p(rows[j])
    ensures FirstIndexWhere(rows, p) == Some(i)
  {
  }

  /** `filter_by(...).first()`: the first row that satisfies `p`, or None. */
  function FirstWhere<T>(rows: seq<T>, p: T -> bool): (r: Option<T>)
    ensures r.None? <==> forall i :: 0 <= i < |rows| ==> !p(rows[i])
    ensures r.Some? ==> exists i :: 0 <= i < |rows| && rows[i] == r.value && p(rows[i]) &&
                                    forall j :: 0 <= j < i ==> !p(rows[j])
  {
    match FirstIndexWhere(rows, p)
    case None => None
    case Some(i) => Some(rows[i])
  }

  /** Every row Where keeps comes from a later position than the head of the table. */
  lemma WhereTailFrom<T>(rows: seq<T>, p: T -> bool, m: int)
    requires rows != [] && 0 <= m < |Where(rows[1..], p)|
    ensures exists n :: 1 <= n < |rows| && rows[n] == Where(rows[1..], p)[m] && p(rows[n])
  {
    var w := Where(rows[1..], p);
    assert w[m] in rows[1..];
    var n :| 0 <= n < |rows| - 1 && rows[1..][n] == w[m];
    assert rows[n + 1] == w[m];
  }

  /** Keys that differ on every pair of selected rows still differ once the rows are filtered. */
  lemma {:induction false} WhereKeepsKeysDistinct<T, K>(rows: seq<T>, p: T -> bool, key: T -> K)
    requires forall i, j :: 0 <= i < j < |rows| && p(rows[i]) && p(rows[j]) ==> key(rows[i]) != key(rows[j])
    ensures forall i, j :: 0 <= i < j < |Where(rows, p)| ==> key(Where(rows, p)[i]) != key(Where(rows, p)[j])
  {
    if rows != [] {
      var tail := rows[1..];
      forall i, j | 0 <= i < j < |tail| && p(tail[i]) && p(tail[j]) ensures key(tail[i]) != key(tail[j]) {
        assert tail[i] == rows[i + 1] && tail[j] == rows[j + 1];
      }
      WhereKeepsKeysDistinct(tail, p, key);
      var w := Where(tail, p);
      if p(rows[0]) {
        forall m | 0 <= m < |w| ensures key(rows[0]) != key(w[m]) {
          WhereTailFrom(rows, p, m);
        }
        assert Where(rows, p) == [rows[0]] + w;
        ConsKeepsKeysDistinct(rows[0], w, key);
      } else {
        assert Where(rows, p) == w;
      }
    }
  }

  /** A row whose key differs from every key of a list with distinct keys can be put in front. */
  lemma ConsKeepsKeysDistinct<T, K>(x: T, w: seq<T>, key: T -> K)
    requires forall i, j :: 0 <= i < j < |w| ==> key(w[i]) != key(w[j])
    requires forall m :: 0 <= m < |w| ==> key(x) != key(w[m])
    ensures forall i, j :: 0 <= i < j < |[x] + w| ==> key(([x] + w)[i]) != key(([x] + w)[j])
  {
    var r := [x] + w;
    forall i, j | 0 <= i < j < |r| ensures key(r[i]) != key(r[j]) {
      assert r[j] == w[j - 1];
      if i > 0 { assert r[i] == w[i - 1]; }
    }
  }

  /** The rows the PredictionResults primary key admits: no two share user and condition. */
  predicate WellKeyed(table: seq<Prediction>) {
    forall i, j :: 0 <= i < j < |table| ==>
      table[i].userId != table[j].userId || table[i].conditionName != table[j].conditionName
  }

  /** `PredictionResults.query.filter_by(user_id=u).all()`. */
  function PredictionsOf(table: seq<Prediction>, u: int): seq<Prediction> {
    Where(table, (x: Prediction) => x.userId == u)
  }

  /** Because of the composite key, one user never has two predictions for one condition. */
  lemma OnePredictionPerCondition(table: seq<Prediction>, u: int)
    requires WellKeyed(table)
    ensures forall i, j :: 0 <= i < j < |PredictionsOf(table, u)| ==>
      PredictionsOf(table, u)[i].conditionName != PredictionsOf(table, u)[j].conditionName
  {
    var p := (x: Prediction) => x.userId == u;
    var key := (x: Prediction) => x.conditionName;
    WhereKeepsKeysDistinct(table, p, key);
  }

  /** fetch_user_data(user_id): the user's first profile and first lifestyle row, or the
      ValueError raised when either is missing. */
  function FetchUserData(profiles: seq<UserProfile>, lifestyles: seq<LifestyleInformation>, userId: int)
    : (r: Result<(UserProfile, LifestyleInformation), PyError>)
    ensures r.Failure? <==> ((forall i :: 0 <= i < |profiles| ==> profiles[i].userId != userId) ||
                             (forall i :: 0 <= i < |lifestyles| ==> lifestyles[i].userId != userId))
    ensures r.Failure? ==> r.error == ValueError
    ensures r.Success? ==> exists i :: 0 <= i < |profiles| && profiles[i] == r.value.0 && profiles[i].userId == userId &&
                                       forall j :: 0 <= j < i ==> profiles[j].userId != userId
    ensures r.Success? ==> exists i :: 0 <= i < |lifestyles| && lifestyles[i] == r.value.1 && lifestyles[i].userId == userId &&
                                       forall j :: 0 <= j < i ==> lifestyles[j].userId != userId
  {
    var profile := FirstWhere(profiles, (x: UserProfile) => x.userId == userId);
    var lifestyle := FirstWhere(lifestyles, (x: LifestyleInformation) => x.userId == userId);
    if profile.None? || lifestyle.None? then Failure(ValueError)
    else Success((profile.value, lifestyle.value))
  }

  /** The MLModelData columns a lab test can fill. */
  datatype LabColumn =
    Hemoglobin
    | WhiteBloodCellCount
    | PlateletCount
    | Bmi
    | SystolicBp
    | DiastolicBp
    | CholesterolTotal
    | CholesterolHdl
    | CholesterolLdl
    | Triglycerides
    | BloodGlucoseFasting
    | HbA1c
    | Creatinine
    | Egfr
    | Alt
    | Ast
    | Tsh
    | T4
    | VitaminD
    | Calcium
    | CReactiveProtein
    | VitaminB12
    | Folate
    | Ferritin
    | UricAcid
    | Psa
    | BoneDensityTScore

  /** The attribute name of each column. */
  function ColumnName(c: LabColumn): string {
    match c
    case Hemoglobin => "Hemoglobin"
    case WhiteBloodCellCount => "White_Blood_Cell_Count"
    case PlateletCount => "Platelet_Count"
    case Bmi => "BMI"
    case SystolicBp => "Systolic_BP"
    case DiastolicBp => "Diastolic_BP"
    case CholesterolTotal => "Cholesterol_Total"
    case CholesterolHdl => "Cholesterol_HDL"
    case CholesterolLdl => "Cholesterol_LDL"
    case Triglycerides => "Triglycerides"
    case BloodGlucoseFasting => "Blood_Glucose_Fasting"
    case HbA1c => "HbA1c"
    case Creatinine => "Creatinine"
    case Egfr => "eGFR"
    case Alt => "ALT"
    case Ast => "AST"
    case Tsh => "TSH"
    case T4 => "T4"
    case VitaminD => "Vitamin_D"
    case Calcium => "Calcium"
    case CReactiveProtein => "C_Reactive_Protein"
    case VitaminB12 => "Vitamin_B12"
    case Folate => "Folate"
    case Ferritin => "Ferritin"
    case UricAcid => "Uric_Acid"
    case Psa => "PSA"
    case BoneDensityTScore => "Bone_Density_T_Score"
  }

  /** The test name the dictionary pairs with each column. */
  function TestName(c: LabColumn): string {
    match c
    case Hemoglobin => "Hemoglobin"
    case WhiteBloodCellCount => "White Blood Cell Count"
    case PlateletCount => "Platelet Count"
    case Bmi => "BMI"
    case SystolicBp => "Systolic BP"
    case DiastolicBp => "Diastolic BP"
    case CholesterolTotal => "Cholesterol (Total)"
    case CholesterolHdl => "HDL"
    case CholesterolLdl => "LDL"
    case Triglycerides => "Triglycerides"
    case BloodGlucoseFasting => "Blood Glucose Fasting"
    case HbA1c => "HbA1c"
    case Creatinine => "Creatinine"
    case Egfr => "eGFR"
    case Alt => "ALT"
    case Ast => "AST"
    case Tsh => "TSH"
    case T4 => "T4"
    case VitaminD => "Vitamin D"
    case Calcium => "Calcium"
    case CReactiveProtein => "C Reactive Protein"
    case VitaminB12 => "Vitamin B12"
    case Folate => "Folate"
    case Ferritin => "Ferritin"
    case UricAcid => "Uric Acid"
    case Psa => "PSA"
    case BoneDensityTScore => "Bone Density T Score"
  }

  /** `mapping.get(name)` on the fixed dictionary from lab-test names to columns, whose
      entries are the pairs (TestName(c), ColumnName(c)) in declaration order. */
  function FieldFor(name: string): Option<LabColumn> {
    if name == TestName(Hemoglobin) then Some(Hemoglobin)
    else if name == TestName(WhiteBloodCellCount) then Some(WhiteBloodCellCount)
    else if name == TestName(PlateletCount) then Some(PlateletCount)
    else if name == TestName(Bmi) then Some(Bmi)
    else if name == TestName(SystolicBp) then Some(SystolicBp)
    else if name == TestName(DiastolicBp) then Some(DiastolicBp)
    else if name == TestName(CholesterolTotal) then Some(CholesterolTotal)
    else if name == TestName(CholesterolHdl) then Some(CholesterolHdl)
    else if name == TestName(CholesterolLdl) then Some(CholesterolLdl)
    else if name == TestName(Triglycerides) then Some(Triglycerides)
    else if name == TestName(BloodGlucoseFasting) then Some(BloodGlucoseFasting)
    else if name == TestName(HbA1c) then Some(HbA1c)
    else if name == TestName(Creatinine) then Some(Creatinine)
    else if name == TestName(Egfr) then Some(Egfr)
    else if name == TestName(Alt) then Some(Alt)
    else if name == TestName(Ast) then Some(Ast)
    else if name == TestName(Tsh) then Some(Tsh)
    else if name == TestName(T4) then Some(T4)
    else if name == TestName(VitaminD) then Some(VitaminD)
    else if name == TestName(Calcium) then Some(Calcium)
    else if name == TestName(CReactiveProtein) then Some(CReactiveProtein)
    else if name == TestName(VitaminB12) then Some(VitaminB12)
    else if name == TestName(Folate) then Some(Folate)
    else if name == TestName(Ferritin) then Some(Ferritin)
    else if name == TestName(UricAcid) then Some(UricAcid)
    else if name == TestName(Psa) then Some(Psa)
    else if name == TestName(BoneDensityTScore) then Some(BoneDensityTScore)
    else None
  }


  /** Only the name the dictionary lists beside a column maps to it. */
  lemma FieldForNamesColumn(name: string)
    ensures FieldFor(name).Some? ==> name == TestName(FieldFor(name).value)
  {
  }

  /** Two test names that map to one column are the same name. */
  lemma FieldForInjective(a: string, b: string)
    requires FieldFor(a).Some? && FieldFor(a) == FieldFor(b)
    ensures a == b
  {
    FieldForNamesColumn(a);
    FieldForNamesColumn(b);
  }

  /** The keys of a dictionary, given as its items, are distinct. */
  predicate DistinctKeys<V>(items: seq<(string, V)>) {
    forall i, j :: 0 <= i < j < |items| ==> items[i].0 != items[j].0
  }


  /** A lookup that never sends two names to one column. */
  ghost predicate Injective(lookup: string -> Option<LabColumn>) {
    forall a, b :: lookup(a).Some? && lookup(a) == lookup(b) ==> a == b
  }

  lemma FieldForIsInjective()
    ensures Injective(FieldFor)
  {
    forall a, b | FieldFor(a).Some? && FieldFor(a) == FieldFor(b)
      ensures a == b
    {
      FieldForInjective(a, b);
    }
  }

  /** The dictionary map_tests_to_mlmodeldata has built after the first k tests, for a given
      name-to-column lookup. */
  function MappedPrefix(tests: seq<(string, PyValue)>, k: nat, lookup: string -> Option<LabColumn>)
    : map<LabColumn, Option<real>>
    requires k <= |tests|
  {
    if k == 0 then map[]
    else
      var m := MappedPrefix(tests, k - 1, lookup);
      var field := lookup(tests[k - 1].0);
      if field.Some? then m[field.value := SafeFloat(tests[k - 1].1, None)] else m
  }

  /** Every column in the dictionary is one that one of the first k tests maps to. */
  lemma {:induction false} MappedPrefixDomain(tests: seq<(string, PyValue)>, k: nat, lookup: string -> Option<LabColumn>)
    requires k <= |tests|
    ensures forall f :: f in MappedPrefix(tests, k, lookup) ==> exists i :: 0 <= i < k && lookup(tests[i].0) == Some(f)
  {
    if k > 0 {
      MappedPrefixDomain(tests, k - 1, lookup);
    }
  }

  /** How many of the first k test names the lookup recognises. */
  function RecognisedCount(tests: seq<(string, PyValue)>, k: nat, lookup: string -> Option<LabColumn>): nat
    requires k <= |tests|
  {
    if k == 0 then 0 else RecognisedCount(tests, k - 1, lookup) + (if lookup(tests[k - 1].0).Some? then 1 else 0)
  }

  /** With distinct test names and an injective lookup, every recognised test among the first
      k has its own column, holding safe_float of its value. */
  lemma {:induction false} MappedPrefixValues(tests: seq<(string, PyValue)>, k: nat, lookup: string -> Option<LabColumn>)
    requires DistinctKeys(tests) && Injective(lookup) && k <= |tests|
    ensures forall i :: 0 <= i < k && lookup(tests[i].0).Some? ==>
      lookup(tests[i].0).value in MappedPrefix(tests, k, lookup)
      && MappedPrefix(tests, k, lookup)[lookup(tests[i].0).value] == SafeFloat(tests[i].1, None)
  {
    if k > 0 {
      MappedPrefixValues(tests, k - 1, lookup);
    }
  }

  /** With an injective lookup, the dictionary has one entry per recognised test: no two tests
      share a column. */
  lemma {:induction false} MappedPrefixSize(tests: seq<(string, PyValue)>, k: nat, lookup: string -> Option<LabColumn>)
    requires DistinctKeys(tests) && Injective(lookup) && k <= |tests|
    ensures |MappedPrefix(tests, k, lookup)| == RecognisedCount(tests, k, lookup)
  {
    if k > 0 {
      MappedPrefixSize(tests, k - 1, lookup);
      var field := lookup(tests[k - 1].0);
      if field.Some? {
        MappedPrefixDomain(tests, k - 1, lookup);
        assert field.value !in MappedPrefix(tests, k - 1, lookup);
      }
    }
  }

  /** The loop of map_tests_to_mlmodeldata, for a given name-to-column lookup: each test
      the lookup recognises sets its column to safe_float of the test's value. */
  method MapTestsWith(tests: seq<(string, PyValue)>, lookup: string -> Option<LabColumn>)
    returns (result: map<LabColumn, Option<real>>)
    ensures result == MappedPrefix(tests, |tests|, lookup)
  {
    result := map[];
    var k := 0;
    while k < |tests|
      invariant 0 <= k <= |tests|
      invariant result == MappedPrefix(tests, k, lookup)
    {
      var (name, value) := tests[k];
      var field := lookup(name);
      if field.Some? {
        result := result[field.value := SafeFloat(value, None)];
      }
      k := k + 1;
    }
  }

  /** map_tests_to_mlmodeldata(tests): each recognised test becomes one column whose value is
      safe_float of the test's value (None when it does not convert); other tests are dropped. */
  method MapTestsToMlModelData(tests: seq<(string, PyValue)>) returns (result: map<LabColumn, Option<real>>)
    requires DistinctKeys(tests)
    ensures forall f :: f in result ==> exists i :: 0 <= i < |tests| && FieldFor(tests[i].0) == Some(f)
    ensures forall i :: 0 <= i < |tests| && FieldFor(tests[i].0).Some? ==>
      FieldFor(tests[i].0).value in result && result[FieldFor(tests[i].0).value] == SafeFloat(tests[i].1, None)
    ensures |result| == RecognisedCount(tests, |tests|, FieldFor)
  {
    result := MapTestsWith(tests, FieldFor);
    MappedPrefixDomain(tests, |tests|, FieldFor);
    FieldForIsInjective();
    MappedPrefixValues(tests, |tests|, FieldFor);
    MappedPrefixSize(tests, |tests|, FieldFor);
  }
}
