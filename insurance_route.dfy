/**
 * routes/insurance.py, generate_plan: reads the user's rows, generates a plan, then either
 * updates the user's first plan in place and replaces its detail rows, or adds a new plan
 * with fresh detail rows, and finally marks the user's details as complete.
 */
module InsuranceRoute {
  import opened Wrappers
  import opened Text
  import opened Models
  import opened Insurance

  /** The status code of the reply, and the insurance details a 200 reply carries. */
  datatype PlanReply = PlanReply(status: int, details: Option<Plan>)

  /** The rows the generator needs, read for one user. */
  datatype UserData = UserData(
    profile: UserProfile,
    health: HealthInformation,
    lifestyle: LifestyleInformation,
    ml: MLModelData,
    preds: seq<Prediction>)

  /** The first profile, health, lifestyle and lab row of the user and all their predictions,
      or None when any row is missing or there is no prediction. */
  function UserDataOf(profiles: seq<UserProfile>, healthInfo: seq<HealthInformation>,
                      lifestyles: seq<LifestyleInformation>, labData: seq<MLModelData>,
                      predictions: seq<Prediction>, userId: int): (r: Option<UserData>)
    ensures r.None? <==>
      || (forall i :: 0 <= i < |profiles| ==> profiles[i].userId != userId)
      || (forall i :: 0 <= i < |healthInfo| ==> healthInfo[i].userId != userId)
      || (forall i :: 0 <= i < |lifestyles| ==> lifestyles[i].userId != userId)
      || (forall i :: 0 <= i < |labData| ==> labData[i].userId != userId)
      || PredictionsOf(predictions, userId) == []
    ensures r.Some? ==> r.value.preds == PredictionsOf(predictions, userId)
  {
    var profile := FirstWhere(profiles, (x: UserProfile) => x.userId == userId);
    var health := FirstWhere(healthInfo, (x: HealthInformation) => x.userId == userId);
    var lifestyle := FirstWhere(lifestyles, (x: LifestyleInformation) => x.userId == userId);
    var ml := FirstWhere(labData, (x: MLModelData) => x.userId == userId);
    var preds := PredictionsOf(predictions, userId);
    if profile.None? || health.None? || lifestyle.None? || ml.None? || preds == [] then None
    else Some(UserData(profile.value, health.value, lifestyle.value, ml.value, preds))
  }

  /** The detail rows of every plan but `pid`, in order (`filter_by(plan_id=pid).delete()`). */
  function WithoutPlan<V>(rows: seq<DetailRow<V>>, pid: int): (r: seq<DetailRow<V>>)
    ensures |r| <= |rows|
  {
    if rows == [] then []
    else (if rows[0].planId == pid then [] else [rows[0]]) + WithoutPlan(rows[1..], pid)
  }

  /** One detail row of plan `pid` per value, in order. */
  function RowsFor<V>(pid: int, values: seq<V>): (r: seq<DetailRow<V>>)
    ensures |r| == |values| && forall i :: 0 <= i < |values| ==> r[i] == DetailRow(pid, values[i])
  {
    seq(|values|, i requires 0 <= i < |values| => DetailRow(pid, values[i]))
  }

  /** What a detail table holds for plan `pid`, in insertion order. */
  function ValuesOf<V>(rows: seq<DetailRow<V>>, pid: int): seq<V> {
    if rows == [] then []
    else (if rows[0].planId == pid then [rows[0].value] else []) + ValuesOf(rows[1..], pid)
  }

  lemma {:induction false} ValuesOfAppend<V>(a: seq<DetailRow<V>>, b: seq<DetailRow<V>>, pid: int)
    ensures ValuesOf(a + b, pid) == ValuesOf(a, pid) + ValuesOf(b, pid)
    decreases |a|
  {
    if a != [] {
      assert (a + b)[1..] == a[1..] + b;
      ValuesOfAppend(a[1..], b, pid);
    } else {
      assert a + b == b;
    }
  }

  /** Deleting plan `pid`'s rows leaves none of them and keeps every other plan's rows. */
  lemma {:induction false} ValuesOfWithoutPlan<V>(rows: seq<DetailRow<V>>, pid: int, q: int)
    ensures ValuesOf(WithoutPlan(rows, pid), q) == if q == pid then [] else ValuesOf(rows, q)
    decreases |rows|
  {
    if rows != [] {
      ValuesOfWithoutPlan(rows[1..], pid, q);
      var head: seq<DetailRow<V>> := if rows[0].planId == pid then [] else [rows[0]];
      ValuesOfAppend(head, WithoutPlan(rows[1..], pid), q);
      assert ValuesOf(head, q) == if rows[0].planId == pid || rows[0].planId != q then [] else [rows[0].value] by {
        if head != [] { assert head[1..] == []; }
      }
    }
  }

  lemma {:induction false} ValuesOfRowsFor<V>(pid: int, values: seq<V>, q: int)
    ensures ValuesOf(RowsFor(pid, values), q) == if q == pid then values else []
    decreases |values|
  {
    if values != [] {
      assert RowsFor(pid, values)[1..] == RowsFor(pid, values[1..]);
      ValuesOfRowsFor(pid, values[1..], q);
    }
  }

  /** A table whose rows all belong to ids below `bound` holds nothing for a later id. */
  lemma {:induction false} ValuesOfUnusedId<V>(rows: seq<DetailRow<V>>, bound: int)
    requires forall i :: 0 <= i < |rows| ==> rows[i].planId < bound
    ensures ValuesOf(rows, bound) == []
    decreases |rows|
  {
    if rows != [] {
      ValuesOfUnusedId(rows[1..], bound);
    }
  }

  /** The PolicyExclusions content: the exclusions and the waiting periods, each as one
      comma-separated text. */
  function ExclusionText(plan: Plan): (string, string) {
    (Join(", ", plan.generalExclusions),
     Join(", ", seq(|plan.waitingPeriods|, i requires 0 <= i < |plan.waitingPeriods| =>
       plan.waitingPeriods[i].0 + ": " + IntToString(plan.waitingPeriods[i].1) + " months")))
  }

  /** The position of the user's first plan (`InsurancePlans.query.filter_by(user_id=...).first()`). */
  function PlanIndexOf(plans: seq<PlanRow>, userId: int): Option<nat> {
    FirstIndexWhere(plans, (p: PlanRow) => p.userId == userId)
  }

  /** The position of the user's account row. */
  function UserIndexOf(users: seq<UserRow>, userId: int): Option<nat> {
    FirstIndexWhere(users, (u: UserRow) => u.userId == userId)
  }

  /** The InsurancePlans row holding a generated plan. */
  function PlanRowFor(pid: int, userId: int, plan: Plan): PlanRow {
    PlanRow(pid, userId, plan.company, plan.planName, plan.planType, plan.networkType,
            plan.monthlyPremium, plan.annualPremium, plan.sumInsured, plan.deductible,
            plan.outOfPocketMax, plan.effectiveDate, plan.expirationDate)
  }

  /** The plan tables after storing `plan` for the user: their first plan is overwritten in
      place, keeping its id, and its detail rows are replaced; without a plan, a new one takes
      the next id. */
  function AfterUpsert(t: PlanTables, userId: int, plan: Plan): PlanTables {
    match PlanIndexOf(t.plans, userId)
    case Some(i) =>
      var pid := t.plans[i].planId;
      PlanTables(
        t.plans[i := PlanRowFor(pid, userId, plan)],
        WithoutPlan(t.coverage, pid) + RowsFor(pid, plan.coverageDetails),
        WithoutPlan(t.copayments, pid) + RowsFor(pid, plan.copayments),
        WithoutPlan(t.benefits, pid) + RowsFor(pid, plan.additionalBenefits),
        WithoutPlan(t.exclusions, pid) + RowsFor(pid, [ExclusionText(plan)]),
        t.nextPlanId)
    case None =>
      var pid := t.nextPlanId;
      PlanTables(
        t.plans + [PlanRowFor(pid, userId, plan)],
        t.coverage + RowsFor(pid, plan.coverageDetails),
        t.copayments + RowsFor(pid, plan.copayments),
        t.benefits + RowsFor(pid, plan.additionalBenefits),
        t.exclusions + RowsFor(pid, [ExclusionText(plan)]),
        pid + 1)
  }

  /** The plan the user's first existing plan row has, if any. */
  function PlanIdOf(t: PlanTables, userId: int): Option<int> {
    match PlanIndexOf(t.plans, userId)
    case Some(i) => Some(t.plans[i].planId)
    case None => None
  }

  /** An existing plan keeps its id and the table keeps its size; otherwise exactly one plan
      is added, under the next id. Either way the user's first plan is now the stored one. */
  lemma UpsertPlanRows(t: PlanTables, userId: int, plan: Plan)
    ensures var a := AfterUpsert(t, userId, plan);
      && (PlanIdOf(t, userId).Some? ==> |a.plans| == |t.plans| && a.nextPlanId == t.nextPlanId &&
                                        PlanIdOf(a, userId) == PlanIdOf(t, userId))
      && (PlanIdOf(t, userId).None? ==> a.plans == t.plans + [PlanRowFor(t.nextPlanId, userId, plan)] &&
                                        a.nextPlanId == t.nextPlanId + 1)
      && PlanIdOf(a, userId).Some?
  {
    var p := (r: PlanRow) => r.userId == userId;
    var a := AfterUpsert(t, userId, plan);
    match PlanIndexOf(t.plans, userId)
    case Some(i) =>
      var pid := t.plans[i].planId;
      assert a.plans == t.plans[i := PlanRowFor(pid, userId, plan)];
      assert forall j :: 0 <= j < i ==> a.plans[j] == t.plans[j];
      FirstIndexWhereIs(a.plans, p, i);
    case None =>
      FirstIndexWhereIs(a.plans, p, |t.plans|);
  }

  /** Deleting a plan's detail rows and adding new ones leaves exactly the new values for
      that plan and every other plan's values as they were. */
  lemma ReplacedValues<V>(rows: seq<DetailRow<V>>, pid: int, values: seq<V>, q: int)
    ensures ValuesOf(WithoutPlan(rows, pid) + RowsFor(pid, values), q) == if q == pid then values else ValuesOf(rows, q)
  {
    ValuesOfAppend(WithoutPlan(rows, pid), RowsFor(pid, values), q);
    ValuesOfWithoutPlan(rows, pid, q);
    ValuesOfRowsFor(pid, values, q);
  }

  /** Adding rows under an id no row has yet leaves exactly the new values for that id. */
  lemma AppendedValues<V>(rows: seq<DetailRow<V>>, pid: int, values: seq<V>, q: int)
    requires forall i :: 0 <= i < |rows| ==> rows[i].planId < pid
    ensures ValuesOf(rows + RowsFor(pid, values), q) == if q == pid then values else ValuesOf(rows, q)
  {
    ValuesOfAppend(rows, RowsFor(pid, values), q);
    ValuesOfRowsFor(pid, values, q);
    ValuesOfUnusedId(rows, pid);
  }

  /** After the upsert the stored plan's detail tables hold exactly this plan's coverage items,
      its four copayments, its benefits and one exclusions row, and every other plan's detail
      rows are as they were. */
  lemma UpsertReplacesDetails(t: PlanTables, userId: int, plan: Plan, q: int)
    requires PlanTablesValid(t)
    ensures PlanIdOf(AfterUpsert(t, userId, plan), userId).Some?
    ensures var a := AfterUpsert(t, userId, plan);
      var pid := PlanIdOf(a, userId).value;
      && ValuesOf(a.coverage, pid) == plan.coverageDetails
      && ValuesOf(a.copayments, pid) == plan.copayments
      && ValuesOf(a.benefits, pid) == plan.additionalBenefits
      && ValuesOf(a.exclusions, pid) == [ExclusionText(plan)]
      && (q != pid ==> ValuesOf(a.coverage, q) == ValuesOf(t.coverage, q))
      && (q != pid ==> ValuesOf(a.copayments, q) == ValuesOf(t.copayments, q))
      && (q != pid ==> ValuesOf(a.benefits, q) == ValuesOf(t.benefits, q))
      && (q != pid ==> ValuesOf(a.exclusions, q) == ValuesOf(t.exclusions, q))
  {
    UpsertPlanRows(t, userId, plan);
    var a := AfterUpsert(t, userId, plan);
    var pid := PlanIdOf(a, userId).value;
    if PlanIdOf(t, userId).Some? {
      assert pid == PlanIdOf(t, userId).value;
      ReplacedValues(t.coverage, pid, plan.coverageDetails, pid);
      ReplacedValues(t.coverage, pid, plan.coverageDetails, q);
      ReplacedValues(t.copayments, pid, plan.copayments, pid);
      ReplacedValues(t.copayments, pid, plan.copayments, q);
      ReplacedValues(t.benefits, pid, plan.additionalBenefits, pid);
      ReplacedValues(t.benefits, pid, plan.additionalBenefits, q);
      ReplacedValues(t.exclusions, pid, [ExclusionText(plan)], pid);
      ReplacedValues(t.exclusions, pid, [ExclusionText(plan)], q);
    } else {
      assert pid == t.nextPlanId;
      AppendedValues(t.coverage, pid, plan.coverageDetails, pid);
      AppendedValues(t.coverage, pid, plan.coverageDetails, q);
      AppendedValues(t.copayments, pid, plan.copayments, pid);
      AppendedValues(t.copayments, pid, plan.copayments, q);
      AppendedValues(t.benefits, pid, plan.additionalBenefits, pid);
      AppendedValues(t.benefits, pid, plan.additionalBenefits, q);
      AppendedValues(t.exclusions, pid, [ExclusionText(plan)], pid);
      AppendedValues(t.exclusions, pid, [ExclusionText(plan)], q);
    }
  }

  /** The upsert keeps the plan tables valid. */
  lemma UpsertKeepsValid(t: PlanTables, userId: int, plan: Plan)
    requires PlanTablesValid(t)
    ensures PlanTablesValid(AfterUpsert(t, userId, plan))
  {
    match PlanIndexOf(t.plans, userId)
    case Some(i) =>
      var pid := t.plans[i].planId;
      WithoutPlanFrom(t.coverage, pid);
      WithoutPlanFrom(t.copayments, pid);
      WithoutPlanFrom(t.benefits, pid);
      WithoutPlanFrom(t.exclusions, pid);
    case None =>
  }

  /** Every row WithoutPlan keeps is a row of the table. */
  lemma {:induction false} WithoutPlanFrom<V>(rows: seq<DetailRow<V>>, pid: int)
    ensures forall i :: 0 <= i < |WithoutPlan(rows, pid)| ==> WithoutPlan(rows, pid)[i] in rows
    decreases |rows|
  {
    if rows != [] {
      WithoutPlanFrom(rows[1..], pid);
      var w := WithoutPlan(rows, pid);
      var tail := WithoutPlan(rows[1..], pid);
      forall i | 0 <= i < |w| ensures w[i] in rows {
        if rows[0].planId == pid {
          assert w[i] == tail[i];
        } else if i > 0 {
          assert w[i] == tail[i - 1];
        }
      }
    }
  }

  /** A user with at most one plan still has at most one after the upsert, and every other
      user's plans are untouched. */
  lemma UpsertKeepsOnePlanPerUser(t: PlanTables, userId: int, plan: Plan)
    requires forall i, j :: 0 <= i < j < |t.plans| ==> t.plans[i].userId != t.plans[j].userId
    ensures var a := AfterUpsert(t, userId, plan);
      forall i, j :: 0 <= i < j < |a.plans| ==> a.plans[i].userId != a.plans[j].userId
  {
    var a := AfterUpsert(t, userId, plan);
    match PlanIndexOf(t.plans, userId)
    case Some(i) =>
      assert forall j :: 0 <= j < |t.plans| ==> a.plans[j].userId == t.plans[j].userId;
    case None =>
      assert forall j :: 0 <= j < |t.plans| ==> a.plans[j] == t.plans[j];
  }

  /** The `for` loops of generate_plan that add one detail row per value. */
  method AddRows<V>(rows: seq<DetailRow<V>>, pid: int, values: seq<V>) returns (r: seq<DetailRow<V>>)
    ensures r == rows + RowsFor(pid, values)
    ensures ValuesOf(r, pid) == ValuesOf(rows, pid) + values
  {
    r := rows;
    var k := 0;
    while k < |values|
      invariant 0 <= k <= |values|
      invariant r == rows + RowsFor(pid, values[..k])
    {
      assert RowsFor(pid, values[..k + 1]) == RowsFor(pid, values[..k]) + [DetailRow(pid, values[k])];
      r := r + [DetailRow(pid, values[k])];
      k := k + 1;
    }
    assert values[..k] == values;
    ValuesOfAppend(rows, RowsFor(pid, values), pid);
    ValuesOfRowsFor(pid, values, pid);
  }

  /** The writes of generate_plan to the plan tables, in its order: the plan row updated or
      added, the old detail rows deleted, the new ones added row by row. */
  method UpsertTables(t: PlanTables, userId: int, plan: Plan) returns (a: PlanTables)
    ensures a == AfterUpsert(t, userId, plan)
  {
    var plans, coverage, copayments, benefits, exclusions, nextPlanId :=
      t.plans, t.coverage, t.copayments, t.benefits, t.exclusions, t.nextPlanId;
    var existing := PlanIndexOf(plans, userId);
    var pid;
    if existing.Some? {
      pid := plans[existing.value].planId;
      plans := plans[existing.value := PlanRowFor(pid, userId, plan)];
      coverage := WithoutPlan(coverage, pid);
      copayments := WithoutPlan(copayments, pid);
      benefits := WithoutPlan(benefits, pid);
      exclusions := WithoutPlan(exclusions, pid);
    } else {
      pid := nextPlanId;
      plans := plans + [PlanRowFor(pid, userId, plan)];
      nextPlanId := nextPlanId + 1;
    }
    coverage := AddRows(coverage, pid, plan.coverageDetails);
    copayments := AddRows(copayments, pid, plan.copayments);
    benefits := AddRows(benefits, pid, plan.additionalBenefits);
    exclusions := exclusions + [DetailRow(pid, ExclusionText(plan))];
    assert RowsFor(pid, [ExclusionText(plan)]) == [DetailRow(pid, ExclusionText(plan))];
    a := PlanTables(plans, coverage, copayments, benefits, exclusions, nextPlanId);
  }

  /** Commits the upserted plan tables to the database; every other table is untouched. */
  method StorePlan(db: Database, userId: int, plan: Plan)
    requires db.Valid()
    modifies db
    ensures db.Valid()
    ensures db.PlanTablesOf() == AfterUpsert(old(db.PlanTablesOf()), userId, plan)
    ensures db.users == old(db.users) && db.profiles == old(db.profiles) && db.healthInfo == old(db.healthInfo)
    ensures db.lifestyles == old(db.lifestyles) && db.labData == old(db.labData)
    ensures db.predictions == old(db.predictions) && db.claims == old(db.claims) && db.nextClaimId == old(db.nextClaimId)
  {
    UpsertKeepsValid(db.PlanTablesOf(), userId, plan);
    var a := UpsertTables(db.PlanTablesOf(), userId, plan);
    db.plans, db.coverage, db.copayments, db.benefits, db.exclusions, db.nextPlanId :=
      a.plans, a.coverage, a.copayments, a.benefits, a.exclusions, a.nextPlanId;
  }

  /** `user.user_details = True`: sets the flag on the user's row, or reports that there is
      no such row (the route then fails with AttributeError). */
  method MarkDetailsComplete(db: Database, userId: int) returns (found: bool)
    requires db.Valid()
    modifies db
    ensures db.Valid()
    ensures found <==> UserIndexOf(old(db.users), userId).Some?
    ensures found ==> var i := UserIndexOf(old(db.users), userId).value;
      db.users == old(db.users)[i := old(db.users)[i].(userDetails := true)]
    ensures !found ==> db.users == old(db.users)
    ensures db.PlanTablesOf() == old(db.PlanTablesOf()) && db.profiles == old(db.profiles)
    ensures db.healthInfo == old(db.healthInfo) && db.lifestyles == old(db.lifestyles) && db.labData == old(db.labData)
    ensures db.predictions == old(db.predictions) && db.claims == old(db.claims) && db.nextClaimId == old(db.nextClaimId)
  {
    var user := UserIndexOf(db.users, userId);
    found := user.Some?;
    if found {
      db.users := db.users[user.value := db.users[user.value].(userDetails := true)];
    }
  }

  /** The reply and the new tables generate_plan produces once the user's rows were found. */
  predicate GeneratedOutcome(gen: Result<Plan, PyError>, reply: PlanReply, userFound: bool) {
    match gen
    case Failure(_) => reply == PlanReply(500, None)
    case Success(plan) => reply == (if userFound then PlanReply(200, Some(plan)) else PlanReply(500, None))
  }

  /** generate_plan(user_id). A missing row or an empty prediction list gives 400 with nothing
      written; an exception from the generator gives 500 with the tables untouched (the
      configuration's basic list may have grown); otherwise the plan is stored as AfterUpsert
      says, the user's details are marked complete, and the reply is 200 with the plan, or
      500 when the user row itself is missing (after the plan has been stored). That last
      path cannot be reached while the keys of UserProfile and InsurancePlans to Users
      hold: a user with a profile has a Users row, and a plan for an absent user would be
      refused at its insert; the model does not enforce those keys here. */
  method GeneratePlanRoute(db: Database, config: InsuranceConfig, userId: int, d: Draws, today: int)
    returns (reply: PlanReply)
    requires db.Valid()
    requires DrawsFit(d, config.tables)
    modifies db, config
    ensures db.Valid()
    ensures db.profiles == old(db.profiles) && db.healthInfo == old(db.healthInfo)
    ensures db.lifestyles == old(db.lifestyles) && db.labData == old(db.labData)
    ensures db.predictions == old(db.predictions) && db.claims == old(db.claims) && db.nextClaimId == old(db.nextClaimId)
    ensures var data := UserDataOf(old(db.profiles), old(db.healthInfo), old(db.lifestyles), old(db.labData),
                                   old(db.predictions), userId);
      && (data.None? <==> reply.status == 400)
      && (data.None? ==> db.PlanTablesOf() == old(db.PlanTablesOf()) && db.users == old(db.users) &&
                         config.basic == old(config.basic))
      && (data.Some? ==>
            var gen := PlanOf(config.tables, old(config.basic), data.value.profile, data.value.health,
                              data.value.lifestyle, data.value.ml, data.value.preds, d, today);
            var found := UserIndexOf(old(db.users), userId).Some?;
            && GeneratedOutcome(gen, reply, found)
            && config.basic == (match PricingOf(config.tables, data.value.profile, data.value.health,
                                               data.value.lifestyle, data.value.ml, data.value.preds, d)
                               case Success(p) => old(config.basic) + CoverageExtras(config.tables, p.tier, p.network, data.value.preds)
                               case Failure(_) => old(config.basic))
            && (!found ==> db.users == old(db.users))
            && (gen.Failure? ==> db.PlanTablesOf() == old(db.PlanTablesOf()) && db.users == old(db.users))
            && (gen.Success? ==> db.PlanTablesOf() == AfterUpsert(old(db.PlanTablesOf()), userId, gen.value))
            && (gen.Success? && found ==>
                  var i := UserIndexOf(old(db.users), userId).value;
                  db.users == old(db.users)[i := old(db.users)[i].(userDetails := true)]))
  {
    var data := UserDataOf(db.profiles, db.healthInfo, db.lifestyles, db.labData, db.predictions, userId);
    if data.None? {
      return PlanReply(400, None);
    }
    var ud := data.value;
    var generated := config.GeneratePlan(ud.profile, ud.health, ud.lifestyle, ud.ml, ud.preds, d, today);
    if generated.Failure? {
      return PlanReply(500, None);
    }
    StorePlan(db, userId, generated.value);
    var found := MarkDetailsComplete(db, userId);
    if !found {
      return PlanReply(500, None);
    }
    reply := PlanReply(200, Some(generated.value));
  }
}
