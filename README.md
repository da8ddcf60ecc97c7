# CareSync decision core in Dafny

This project models the decision logic of the CareSync health-insurance backend, a Flask
service over a relational database. The model covers:

- **Insurance plans** (`Insurance`, `InsuranceRoute`). `InsurancePlanGenerator` derives a
  plan from a user's profile, health record, lifestyle answers, lab data and risk
  predictions. It computes a risk score, a tier (Bronze, Silver, Gold or Platinum), a plan
  type, premiums, the sum insured, rupee amounts, copayments, coverage items, benefits,
  exclusions and waiting periods. The `generate_plan` route then upserts the plan:
  - a user who already has a plan has that row overwritten in place, keeping its id, and its
    detail rows replaced;
  - any other user gets a new plan under the next id.
- **Claims** (`Claim`). `process_claim_api` validates the upload form and classifies the
  bill file by extension. `process_claim` and `verify_treatment` run the two
  regular-expression searches that pull a decision and a reason out of the language
  model's reply. The route writes a `ClaimStatus` row only when a decision came back.
  `retrieve_claims` lists a user's claims with `YYYY-MM-DD` dates.
- **Dashboard** (`Dashboard`). It covers:
  - the health percentage and its status;
  - the ordered list of risk contributors with its sentinel entry;
  - the per-decision claim counts;
  - the plan with the latest expiration date.
- **Models and utilities** (`Models`, `Utils`). This part holds:
  - the table rows and the two query shapes (`filter_by(...).first()` and `.all()`);
  - `fetch_user_data`;
  - the lab-test-name to column mapping;
  - `safe_float` and `safe_int`;
  - the text cleaning done by `clean_json_response`.
- **Support modules.** `Text` holds the Python string operations the routes rely on:
  `strip`, ASCII lower-casing, `re.IGNORECASE` letter matching, `str.replace`,
  `split(...)[-1]` and `str(int)`. `Numbers` holds `int()` truncation, `round` and clamping.
  `Wrappers` holds `Option`, `Result` and the Python exceptions that matter here.

Database tables are the fields of a `Database` class, which the route methods modify. The
random module is an explicit `Draws` value: the positions `random.choice` picks and the
orders in which `random.sample` visits a catalog. The language-model replies and the
image conversion are inputs (`Services`).

Some consequences of the code, proved below:

- Every computed risk score is at least 0.5. So a generated plan is never Gold or Platinum
  (`NoPremiumTierFromScore`).
- Every health percentage is 50, 70, 80, 90 or 100. So the dashboard never reports "Needs
  Attention" (`NeverNeedsAttention`).
- The smart-quote replacement of `clean_json_response` never fires. The preceding regular
  expression has already dropped those characters (`SmartQuotesAlreadyGone`).
- A reply without a recognisable verdict makes `verify_treatment` return one string. The
  caller unpacks that string into two names, so it raises `ValueError` and the route replies
  500 (`UndeterminedRaises`, `UndeterminedIsServerError`).
- A claim decision for a user id that no `Users` row has breaks the `ClaimStatus` foreign
  key at the commit, so the route replies 500 and stores nothing
  (`UnknownUserIsServerError`).
- The BMI column is a two-place decimal. The percentage compares `float(BMI)` with 24.9, but
  the contributor list compares the decimal itself with the float literal, whose exact value
  lies just below 24.9. At a stored 24.90 the BMI contributor is listed while the percentage
  makes no BMI deduction (`BmiBoundaryDisagrees`).

## Model

| member | source | states |
|---|---|---|
| Numbers.Truncate | routes/insurance.py:107 | `int(x)` rounds toward zero: the result is within 1 of x, on the side of zero |
| Numbers.RoundHalfEven | routes/insurance.py:93 | `round` gives the nearest integer, and an exact tie goes to the even neighbour |
| Numbers.RoundHalfEvenUnique | routes/insurance.py:93 | those two properties single out the result: no other integer has both |
| Numbers.RoundToHundredths | routes/insurance.py:93 | `round(x, 2)` is a multiple of 0.01 within 0.005 of x, an exact tie going to the even multiple |
| Numbers.RoundToHundredthsUnique | routes/insurance.py:93 | those three properties single out `round(x, 2)` |
| Numbers.RoundToHundredThousands | routes/insurance.py:102 | `round(x, -5)` is a multiple of 100,000 within 50,000 of x, an exact tie going to the even multiple |
| Numbers.RoundToHundredThousandsUnique | routes/insurance.py:102 | those three properties single out `round(x, -5)` |
| Numbers.Clamp | routes/insurance.py:93 | `max(lo, min(hi, x))` is x inside [lo, hi], lo at or below lo, and hi at or above hi |
| Numbers.RoundToHundredthsWithin | routes/insurance.py:93 | rounding to paise keeps a premium inside bounds that are whole paise |
| Numbers.RoundToHundredThousandsBelow | routes/insurance.py:101-102 | rounding keeps the sum insured under a cap that is a multiple of 100,000 |
| Text.LStrip | utils.py:65 | `lstrip()` drops exactly the longest whitespace prefix |
| Text.RStrip | utils.py:65 | `rstrip()` drops exactly the longest whitespace suffix |
| Text.Strip | utils.py:65 | `strip()` leaves no whitespace at either end |
| Text.StripFixesTrimmed | utils.py:65 | `strip()` leaves a string unchanged iff it has no whitespace at either end |
| Text.StripIsInfix | utils.py:65 | what `strip()` keeps is one contiguous piece of the input |
| Text.StripRemovesOnlySpace | utils.py:65 | every character `strip()` removes is whitespace |
| Text.AsciiLowerString | routes/claim.py:34 | `lower()` maps each character on its own and keeps the length |
| Text.LetterMatchIsNotSpace | routes/claim.py:176 | a character matching a letter under IGNORECASE is not whitespace |
| Text.StartsWithIgnoringCaseTake | routes/claim.py:176 | a case-insensitive prefix match depends only on the first characters of the text |
| Text.ReplaceAbsent | utils.py:63-64 | `replace` of a pattern that never occurs changes nothing |
| Text.ReplaceCharRemoves | routes/insurance.py:132 | replacing `_` by a space leaves no `_` |
| Text.AfterLast | routes/claim.py:34 | `split('.')[-1]` is the longest dot-free suffix, preceded by a dot when shorter than the text |
| Text.DigitChar | routes/insurance.py:107 | a digit value maps to the matching ASCII digit |
| Text.NatToString | routes/insurance.py:107 | `str(n)` is digits with no leading zero |
| Text.NatToStringValue | routes/insurance.py:107 | the digits of `str(n)` read back as n |
| Text.IntToStringRoundTrip | routes/insurance.py:107 | parsing `str(i)` gives i back, sign included |
| Utils.TakeDigits | utils.py:49 | the longest all-digit prefix, which stops at a non-digit |
| Utils.Pow10 | utils.py:49 | powers of ten are positive (the scale of a fractional part) |
| Utils.SafeFloat | utils.py:47-51 | None, or a value `float()` rejects with TypeError/ValueError, gives the default; a value it converts gives exactly the converted number |
| Utils.SafeInt | utils.py:53-58 | the same, with `int()`: a value it converts gives exactly the converted integer |
| Utils.SafeIntReadsDecimalText | utils.py:53-58 | the decimal text of an integer converts back to it |
| Utils.DecimalTextIsTrimmed | utils.py:56 | decimal text has nothing for `int()`'s whitespace stripping to remove |
| Utils.DigitsAreUnsignedDecimal | utils.py:49 | a digit string is read as its decimal value |
| Utils.DigitsPrefixIsAll | utils.py:49 | an all-digit string is its own digit prefix |
| Utils.SafeFloatReadsDecimalText | utils.py:47-51 | the decimal text of an integer converts to that number |
| Utils.SafeIntTruncatesFloat | utils.py:53-58 | `safe_int` of a float always succeeds and truncates toward zero |
| Utils.SafeFloatRejectsText | utils.py:50-51 | stripped text whose first character is ASCII and can begin no number, sign, point, `inf` or `nan` yields the default instead of raising |
| Utils.DropNonPrintable | utils.py:62 | the regular-expression pass leaves only characters 0x20-0x7E |
| Utils.DropNonPrintableKeepsPrintable | utils.py:62 | printable text passes that stage unchanged |
| Utils.SmartQuotesAlreadyGone | utils.py:62-63 | the quote replacement never changes the already-filtered text |
| Utils.ReplaceAllFrom | utils.py:63-64 | every character of a `replace` result comes from the input or the replacement |
| Utils.RemoveFenceHead | utils.py:64 | how removing "```" proceeds at the head of the text |
| Utils.RemoveFenceKeepsNonBacktickHead | utils.py:64 | removing fences never puts a backtick at the head when none was there |
| Utils.RemoveFenceKeepsShortRun | utils.py:64 | removing fences never builds a run of two backticks at the head |
| Utils.RemoveFenceLeavesNone | utils.py:64 | after `replace("```", "")` no fence is left, even across a removed one |
| Utils.InfixHasNoFence | utils.py:65 | a piece of fence-free text is fence-free |
| Utils.AllPrintableInfix | utils.py:65 | a piece of printable text is printable |
| Utils.ReplacePreservesPrintable | utils.py:63-64 | `replace` with printable text keeps the text printable |
| Utils.CleanTextIsStrippedStages | utils.py:62-65 | the cleaned text is the stripped result of the earlier stages |
| Utils.UnstrippedShape | utils.py:62-64 | before the strip, the text is printable and fence-free |
| Utils.CleanTextShape | utils.py:62-65 | the text handed to the decoder is printable ASCII, fence-free, with no space at either end |
| Utils.StripKeepsPrintable | utils.py:65 | `strip()` keeps text printable |
| Utils.StripKeepsNoFence | utils.py:65 | `strip()` keeps text fence-free |
| Utils.CleanJsonResponse | utils.py:60-69 | None exactly when decoding the cleaned text fails, otherwise the decoded value |
| Models.Database.constructor | models.py:6-173 | a database starts with empty tables and ids counting from 1 |
| Models.Database.AddClaim | routes/claim.py:56-63 | a claim row is appended under the next id, and no other row or table changes |
| Models.Where | routes/dashboard.py:47-48 | `filter_by(...).all()` keeps only matching rows, and every matching row |
| Models.MatchingPositions | routes/dashboard.py:47-48 | the positions of the matching rows: each one matches, they increase, and none is missed |
| Models.WhereSnoc | routes/dashboard.py:47-48 | filtering a table with one more row at the end adds that row last iff it matches |
| Models.WhereAtPositions | routes/dashboard.py:47-48 | the k-th kept row is the row at the k-th matching position, so order and repeats follow the table |
| Models.ConsPosition | routes/dashboard.py:47-48 | a row put in front together with its position keeps a list aligned with its positions |
| Models.FirstIndexWhere | routes/insurance.py:173 | the position of the first matching row, or None iff no row matches |
| Models.FirstIndexWhereIs | routes/insurance.py:173 | the first matching position is the one found |
| Models.FirstWhere | routes/dashboard.py:43-45 | `filter_by(...).first()` is the first matching row, or None iff none matches |
| Models.WhereTailFrom | routes/dashboard.py:47 | each row kept from the tail comes from a later table position |
| Models.WhereKeepsKeysDistinct | models.py:124-129 | filtering keeps keys distinct |
| Models.ConsKeepsKeysDistinct | models.py:124-129 | a row with a fresh key can be put in front of a key-distinct list |
| Models.OnePredictionPerCondition | models.py:124-129 | the composite key gives one user at most one prediction per condition |
| Models.FetchUserData | models.py:176-184 | ValueError iff the profile or the lifestyle row is missing; otherwise the first profile row and the first lifestyle row of the user |
| Models.FieldForNamesColumn | models.py:188-216 | a test name maps to a column only when the dictionary pairs them |
| Models.FieldForInjective | models.py:188-216 | no two test names map to the same column |
| Models.FieldForIsInjective | models.py:188-216 | the lookup, as a whole, is injective |
| Models.MappedPrefixDomain | models.py:217-222 | every column in the result comes from some recognised test |
| Models.MappedPrefixValues | models.py:217-222 | every recognised test sets its column to `safe_float` of its value |
| Models.MappedPrefixSize | models.py:217-222 | one entry per recognised test |
| Models.MapTestsWith | models.py:217-222 | the loop builds exactly the dictionary the specification function describes |
| Models.MapTestsToMlModelData | models.py:186-222 | only recognised tests appear; each maps to `safe_float` of its value; one entry per recognised test |
| Insurance.Choose | routes/insurance.py:28 | `random.choice` raises IndexError iff the list is empty, otherwise returns a member |
| Insurance.Sample | routes/insurance.py:138 | `random.sample` raises ValueError iff k exceeds the population, otherwise returns k members, none drawn more often than the population holds it |
| Insurance.PickedWithin | routes/insurance.py:138 | entries taken from distinct positions form a sub-multiset of the population |
| Insurance.PickedDrop | routes/insurance.py:138 | dropping one position removes its entry once from the picked multiset |
| Insurance.DropPosition | routes/insurance.py:138 | removing the highest position leaves distinct positions below it |
| Insurance.SampleHasNoRepeats | routes/insurance.py:149 | a sample of a repeat-free catalog has no repeats |
| Insurance.CountLevel | routes/insurance.py:52-53 | the count is zero iff no prediction has that level |
| Insurance.CountLevelIsFilterSize | routes/insurance.py:52-53 | the count is the number of predictions at that level, as the comprehension keeps them |
| Insurance.RiskScoreOf | routes/insurance.py:50-69 | TypeError iff a NULL is compared with a number; otherwise a score in [0.5, 1.0] |
| Insurance.CalculateRiskScore | routes/insurance.py:50-69 | the sequence of `if` updates computes RiskScoreOf |
| Insurance.SelectTier | routes/insurance.py:71-79 | TypeError iff the income is compared while NULL |
| Insurance.SelectTierFirstMatch | routes/insurance.py:71-79 | each tier is chosen iff its rule holds and no earlier rule does |
| Insurance.NoPremiumTierFromScore | routes/insurance.py:26-27 | a computed score never selects Gold or Platinum |
| Insurance.SelectTierExample | routes/insurance.py:76-77 | score 0.55 with income 1,200,000 gives Silver |
| Insurance.PlanTypeOf | routes/insurance.py:81-86 | Senior Citizen iff 60 or older; otherwise Critical Illness iff any High prediction; otherwise Individual |
| Insurance.MonthlyPremium | routes/insurance.py:88-93 | the premium lies in [500, 20000], is whole paise, and is the clamped raw premium `base * (1 + (age-18)*0.02) * (1 + risk*0.5)` to within half a paisa, an exact half-paisa tie going to the even amount |
| Insurance.MonthlyPremiumNearRaw | routes/insurance.py:88-93 | a raw premium at or below 500 gives exactly 500, at or above 20000 exactly 20000, and in between it moves by at most half a paisa |
| Insurance.SumInsured | routes/insurance.py:95-102 | a multiple of 100,000, at most 50,000,000, and within 50,000 of `min(income * multiplier * (1 + 0.1 * high-risk count), 50,000,000)`, an exact tie going to the even multiple |
| Insurance.SumInsuredTieExample | routes/insurance.py:95-102 | income 650,000 at multiplier 5 with no High prediction gives 3,200,000, the even neighbour of the tie |
| Insurance.RupeesRoundTrip | routes/insurance.py:107 | an amount written as "₹n" reads back as n |
| Insurance.AmountsAreTruncated | routes/insurance.py:104-112 | the deductible and out-of-pocket maximum read back as the truncated adjusted amounts |
| Insurance.CopaymentsLinked | routes/insurance.py:114-122 | four services in fixed order, priced at 2x, 5x and half (floored) of the primary visit |
| Insurance.EnhancedItemsCount | routes/insurance.py:130-132 | one enhanced line per High prediction |
| Insurance.EnhancedItemHasNoUnderscore | routes/insurance.py:132 | an enhanced line has no underscore |
| Insurance.EnhancedItemsReadable | routes/insurance.py:130-132 | each enhanced line names a High prediction's condition, with no underscore |
| Insurance.CoverageDetailsShape | routes/insurance.py:124-133 | corrected list: basic items first, then PPO, Gold/Platinum and enhanced items, with a length that counts each |
| Insurance.EarnedPrograms | routes/insurance.py:139-144 | at most the three named programs |
| Insurance.BenefitsOf | routes/insurance.py:135-145 | ValueError iff the quota exceeds the catalog; otherwise quota catalog items, then the earned programs |
| Insurance.EarnedProgramsExact | routes/insurance.py:139-144 | a program is listed iff some High prediction names its condition |
| Insurance.DetermineBenefits | routes/insurance.py:135-145 | the sample followed by the appends computes BenefitsOf |
| Insurance.WaitingPeriods | routes/insurance.py:151-157 | three keys in order; the pre-existing period is the high one iff any prediction is High |
| Insurance.PricingOf | routes/insurance.py:25-39 | a successful pricing uses the risk score and the tier the rules give |
| Insurance.GeneratedPlanProperties | routes/insurance.py:25-48 | bounds on premium and sum insured; annual = 12 x monthly; a tier-named plan; config members; 4 copayments; 3 exclusions; 3 waiting periods; a one-year term; basic coverage first |
| Insurance.InsuranceConfig.constructor | routes/insurance.py:15-19 | the generator holds the configuration tables and the basic coverage list |
| Insurance.InsuranceConfig.AppendEnhancedItems | routes/insurance.py:130-132 | the loop appends one enhanced line per High prediction to the basic list, in order |
| Insurance.InsuranceConfig.GenerateCoverageDetails | routes/insurance.py:124-133 | as written: the extras are appended to the configured basic list itself, and that list is returned |
| Insurance.InsuranceConfig.GeneratePlan | routes/insurance.py:21-48 | returns the plan PlanOf describes; the configured basic list keeps whatever extras were added |
| Insurance.CoverageDriftWitness | routes/insurance.py:124-133 | two identical PPO requests: the second coverage list holds "OPD" twice |
| InsuranceRoute.UserDataOf | routes/insurance.py:162-170 | None iff a profile, health, lifestyle or lab row is missing or there is no prediction |
| InsuranceRoute.WithoutPlan | routes/insurance.py:196-199 | deleting a plan's detail rows never adds rows |
| InsuranceRoute.RowsFor | routes/insurance.py:220-245 | one detail row per value, under the plan id, in order |
| InsuranceRoute.ValuesOfAppend | routes/insurance.py:220-245 | a plan's values in two row lists are the values in each, concatenated |
| InsuranceRoute.ValuesOfWithoutPlan | routes/insurance.py:196-199 | after the delete the plan has no values, and other plans keep theirs |
| InsuranceRoute.ValuesOfRowsFor | routes/insurance.py:220-245 | the new rows hold exactly the values, for that plan only |
| InsuranceRoute.ValuesOfUnusedId | routes/insurance.py:203-218 | a fresh id has no detail rows |
| InsuranceRoute.UpsertPlanRows | routes/insurance.py:173-218 | an existing plan keeps its id and the table its size; otherwise one plan is added under the next id |
| InsuranceRoute.ReplacedValues | routes/insurance.py:196-245 | delete-then-insert leaves exactly the new values for the plan and others unchanged |
| InsuranceRoute.AppendedValues | routes/insurance.py:203-245 | inserting under a fresh id leaves exactly the new values for it |
| InsuranceRoute.UpsertReplacesDetails | routes/insurance.py:173-245 | after the upsert the user's plan holds exactly the new details, and every other plan keeps its own |
| InsuranceRoute.UpsertKeepsValid | routes/insurance.py:173-245 | the upsert keeps plan ids unique, and every plan and detail row under the next id |
| InsuranceRoute.WithoutPlanFrom | routes/insurance.py:196-199 | every kept row was in the table |
| InsuranceRoute.UpsertKeepsOnePlanPerUser | routes/insurance.py:173-218 | at most one plan per user stays at most one |
| InsuranceRoute.AddRows | routes/insurance.py:221-237 | the insert loop appends one row per value |
| InsuranceRoute.UpsertTables | routes/insurance.py:173-245 | the writes, in the route's order, produce AfterUpsert |
| InsuranceRoute.StorePlan | routes/insurance.py:173-245 | the plan tables become AfterUpsert, and no other table changes |
| InsuranceRoute.MarkDetailsComplete | routes/insurance.py:247-248 | the user's flag is set iff their row exists, and nothing else changes |
| InsuranceRoute.GeneratePlanRoute | routes/insurance.py:159-276 | 400 iff data is missing (nothing written); a generation error writes nothing; success stores the plan and sets the flag; the basic coverage list grows by the priced plan's extras and by nothing else; an absent Users row is left absent |
| Claim.MimeType | routes/claim.py:33-49 | a file is accepted iff its lower-cased last extension is jpg, jpeg, png or pdf, and it is sent as a PDF iff that extension is pdf |
| Claim.LowerKeepsDots | routes/claim.py:34 | lower-casing neither adds nor removes dots |
| Claim.AfterLastDot | routes/claim.py:34 | the text after the last dot is the extension |
| Claim.ExtensionOfDottedName | routes/claim.py:34 | `stem.ext` has the lower-cased `ext` as its extension |
| Claim.ExtensionOfUndottedName | routes/claim.py:34 | a dot-free name is its own lower-cased extension |
| Claim.MimeTypeUpperCase | routes/claim.py:34-37 | "scan.JPG" is accepted as an image |
| Claim.MimeTypeLastDot | routes/claim.py:34-49 | "bill.png.txt" is refused |
| Claim.MimeTypeBareName | routes/claim.py:34-47 | a file named "pdf" is taken for a PDF |
| Claim.SkipSpaces | routes/claim.py:176 | `\s*` stops at the first non-whitespace character |
| Claim.LineEnd | routes/claim.py:177 | `.*` stops at the first newline or at the end |
| Claim.LabelAt | routes/claim.py:176 | the first alternative that matches case-insensitively, or None iff none does |
| Claim.LabelEndsAreLetters | routes/claim.py:176 | each label begins and ends with a letter |
| Claim.MatchedEndsAreNotSpace | routes/claim.py:179 | a matched label has no whitespace at either end |
| Claim.MatchedSliceIsTrimmed | routes/claim.py:179 | the matched group is left alone by `strip()` |
| Claim.MatchedLabelText | routes/claim.py:176-179 | the matched group is a decision label that `strip()` leaves unchanged |
| Claim.LabelTextIsDecision | routes/claim.py:176 | text matching a label case-insensitively, at full length, counts as a decision label |
| Claim.DecisionAt | routes/claim.py:179 | the decision is a label, spelled as in the reply after `Answer:` and spaces |
| Claim.LabelTextAt | routes/claim.py:179 | the group text is a label, spelled as in the reply |
| Claim.MatchedSliceAt | routes/claim.py:176 | the covered text matches the label |
| Claim.SearchFrom | routes/claim.py:176-177 | the scan finds the leftmost matching position, or None iff there is none |
| Claim.AnswerSearch | routes/claim.py:176 | the `Answer:` search finds the leftmost match, or None iff there is none |
| Claim.ReasonSearch | routes/claim.py:177 | the `Reason:` search finds the leftmost match, or None iff there is none |
| Claim.ParseVerdict | routes/claim.py:176-184 | a decision iff an `Answer:` match exists, and then it is a label; otherwise the fixed error text |
| Claim.LeftmostAnswer | routes/claim.py:176 | the search returns the leftmost `Answer:` match |
| Claim.LeftmostReason | routes/claim.py:177 | the search returns the leftmost `Reason:` match |
| Claim.DecisionFromLeftmostMatch | routes/claim.py:176-179 | the decision comes from the leftmost `Answer:` match |
| Claim.ReasonFromLeftmostMatch | routes/claim.py:177-180 | the reason comes from the leftmost `Reason:` match, wherever it lies |
| Claim.ReasonDefault | routes/claim.py:180 | with no `Reason:` the reason is "No reason provided." |
| Claim.StrippedLine | routes/claim.py:180 | stripping one line gives one line with nothing left to strip |
| Claim.ReasonAfterIsOneTrimmedLine | routes/claim.py:177-180 | the captured reason is one line, already trimmed |
| Claim.ReasonIsOneTrimmedLine | routes/claim.py:180 | every stored reason is one line with no surrounding whitespace |
| Claim.NoReasonIsTrimmed | routes/claim.py:180 | the default reason is one trimmed line |
| Claim.NoReasonIsOneLine | routes/claim.py:180 | the default reason has no newline |
| Claim.Unpack | routes/claim.py:145 | a decided verdict unpacks into its decision and reason |
| Claim.ProcessClaim | routes/claim.py:72-146 | a returned decision is a label, and it is the parsed verdict of the reply |
| Claim.UndeterminedRaises | routes/claim.py:145 | unpacking fails iff the verdict is undetermined, and then it raises ValueError |
| Claim.BadRequestExactly | routes/claim.py:30-49 | 400 iff an input is missing or the type is unsupported, with no row written; every status is 200, 400 or 500 |
| Claim.Record | routes/claim.py:52-69 | after the file is read: 200 or 500; a row iff a decision returns and the id text, in `ParseInt`'s form (sign and ASCII digits only), names a Users row; an error dictionary gives 200 without a row |
| Claim.RowExactlyOnDecision | routes/claim.py:52-65 | a row is written iff the inputs pass, the image converts, a decision returns and the id text, in `ParseInt`'s form, names a Users row; it carries the form's fields |
| Claim.RowHoldsParsedVerdict | routes/claim.py:52-63 | a written row holds a label and the parsed verdict of the reply |
| Claim.ErrorOnlyIsSilent | routes/claim.py:82-91 | a failed extraction or context query still gives 200, with nothing written |
| Claim.UndeterminedIsServerError | routes/claim.py:67-69 | a reply with no verdict gives 500, with nothing written |
| Claim.FailureIsServerError | routes/claim.py:67-69 | once the inputs pass, a raising `process_claim` gives 500 |
| Claim.UnknownUserIsServerError | models.py:116 | a decision for an id with no Users row breaks the foreign key: 500, nothing written |
| Claim.ProcessClaimUndetermined | routes/claim.py:145 | an undetermined verdict makes process_claim raise ValueError |
| Claim.ProcessClaimApi | routes/claim.py:23-69 | the reply status; exactly one claim row appended iff the outcome has one; every other table unchanged |
| Claim.Digits | routes/claim.py:204 | zero-padded digits of the given width |
| Claim.DigitsRoundTrip | routes/claim.py:204 | padded digits read back as the number |
| Claim.DateText | routes/claim.py:204 | `%Y-%m-%d` is 10 characters with dashes at positions 4 and 7 |
| Claim.DateTextRoundTrip | routes/claim.py:204 | the date text reads back as the date |
| Claim.RetrieveClaims | routes/claim.py:187-209 | the k-th entry is the entry of the claim row at the user's k-th table position, so one entry per row of the user, in table order |
| Claim.RetrieveClaimsMatchesRows | routes/claim.py:191-207 | every claim row of the user has its entry listed, and every entry comes from a claim row of the user |
| Dashboard.Combine | routes/dashboard.py:103-106 | the readings succeed iff all four conversions do |
| Dashboard.FailedChecks | routes/dashboard.py:111-116 | at most three checks fail |
| Dashboard.ScoreReadings | routes/dashboard.py:109-118 | the score is 100 less 10 per failed check; the clamp never acts |
| Dashboard.CalculateHealthPercentage | routes/dashboard.py:99-122 | the percentage the scoring rule gives, in [0, 100] |
| Dashboard.HealthScoreValues | routes/dashboard.py:99-122 | 70, 80, 90 or 100 when the readings convert; 50 otherwise |
| Dashboard.MissingMetricsAreHealthy | routes/dashboard.py:103-106 | all-missing readings score 100 |
| Dashboard.ZeroIsMissing | routes/dashboard.py:103 | a zero BMI counts as missing |
| Dashboard.EachFailedCheckCostsTen | routes/dashboard.py:103-118 | each failed check on the defaulted readings costs exactly 10 |
| Dashboard.RowReadingsConvert | routes/dashboard.py:103-106 | stored numeric columns always convert, so the score is 70 to 100 |
| Dashboard.DetermineHealthStatus | routes/dashboard.py:124-130 | Optimal iff >= 80; Moderate iff in [50, 80); Needs Attention iff < 50 |
| Dashboard.NeverNeedsAttention | routes/dashboard.py:67-70 | a computed percentage is never reported as Needs Attention |
| Dashboard.ContributorFlags | routes/dashboard.py:135-148 | one flag per contributor |
| Dashboard.BmiBoundaryDisagrees | routes/dashboard.py:103-112 | at a stored BMI of 24.90 the BMI contributor is listed, yet the percentage deducts nothing for BMI |
| Dashboard.PositionsSound | routes/dashboard.py:132-150 | listed positions are flagged and increase |
| Dashboard.PositionsComplete | routes/dashboard.py:132-150 | every flagged position is listed |
| Dashboard.LabelsAt | routes/dashboard.py:132-150 | the labels at the given positions, in order |
| Dashboard.ApplyingAtPositions | routes/dashboard.py:132-150 | the applying contributors are the labels at the flagged positions |
| Dashboard.IdentifyRiskContributors | routes/dashboard.py:132-150 | the appends give the applying labels in order, or the sentinel alone |
| Dashboard.LabelsDistinct | routes/dashboard.py:136-150 | the five labels and the sentinel are pairwise different |
| Dashboard.ContributorListed | routes/dashboard.py:132-150 | a label is listed iff its condition holds |
| Dashboard.ApplyingEmptyIffNone | routes/dashboard.py:150 | the list is empty iff no condition holds |
| Dashboard.SentinelNotApplying | routes/dashboard.py:150 | the sentinel is never a contributor |
| Dashboard.ContributorsExact | routes/dashboard.py:132-150 | the sentinel appears iff nothing applies; otherwise exactly the applying labels |
| Dashboard.ContributorsOrdered | routes/dashboard.py:132-150 | listed labels keep the checking order |
| Dashboard.CountDecision | routes/dashboard.py:59-61 | a count never exceeds the number of claims |
| Dashboard.CountsWithinTotal | routes/dashboard.py:59-61 | the three counts together never exceed the number of claims |
| Dashboard.CountDecisionIsFilterSize | routes/dashboard.py:59-61 | a count is the size of the filtered list |
| Dashboard.LatestIndex | routes/dashboard.py:55 | `max(key=...)` picks the first plan with the latest expiration date |
| Dashboard.ActivePlan | routes/dashboard.py:55-56 | None iff there are no plans; otherwise a plan expiring no earlier than any other |
| Dashboard.DashboardProperties | routes/dashboard.py:40-97 | 400 iff the profile, lifestyle or lab row is missing; otherwise the plan count, the latest expiry (None iff no plan), claim counts that count no claim twice, a percentage of 70 to 100, never Needs Attention, a non-empty contributor list and the tip |
| Dashboard.GetDashboardData | routes/dashboard.py:40-97 | the reply is the specification reply: the first profile, lifestyle and lab rows, the expiry of the plan `max` picks, the lab row's percentage and its status, and the contributors of that lab row and lifestyle row |

## Left out

- Language-model calls are left out: the bill-text extraction, the verdict reply and the
  health tip. Their results are inputs: `Services` for claims, `tip` for the dashboard.
  The prompts and the SQL context query text are not modelled; only whether the query ran
  is.
- `PIL` image conversion and base64 encoding are left out. The model keeps only whether the
  image converts.
- The configuration is not loaded from `config.yml`. The YAML loading is a `Tables`
  parameter and the basic coverage list is a field. Its values are not known to the model.
- The random module is an explicit `Draws` value: choice positions and sample orders.
- `date.today()` is an integer day parameter. `timedelta(days=365)` is `+ 365`.
- Float arithmetic is exact real arithmetic. `round` is round-half-even on the exact value,
  so IEEE binary rounding of the inputs is not captured.
- Database sessions, commit ordering, rollbacks and SQL errors are left out, apart from
  the `ClaimStatus` foreign key to `Users`. These errors
  are the only way `retrieve_claims` and `get_dashboard_data` reach their 500 replies, so
  those replies are not modelled.
- Claim.Record: the user id text is accepted only in `ParseInt`'s form, an optional sign
  and ASCII digits. MySQL's wider conversion of text into the INT column depends on
  sql_mode and accepts surrounding spaces, a fractional part (rounded) and an exponent;
  it is not modelled. So " 12", "12 " or "12.0" give 500 and no row here, where the
  program stores one.
- Claim.RowExactlyOnDecision: inherits the narrower user id conversion of `Claim.Record`.
- Claim.ProcessClaimApi: inherits the narrower user id conversion of `Claim.Record`.
- MySQL's case-insensitive enum comparison and value canonicalisation are left out.
  Decisions are stored and compared as the exact text the parser returned.
- The two MIME strings are the `Mime` datatype.
- The last prescription date on the dashboard is not modelled. It is read from a table
  outside this model and appears only in the reply.
- The dictionary built from lab tests is keyed by `LabColumn` values. `ColumnName` gives
  each value's attribute text.
- `json.loads` is the parameter `decode` of the JSON cleaning step. Its result type and its
  errors are whatever that parameter returns.
- NULL lifestyle and history columns are compared as the routes compare them: unequal to
  every label.
- `lower()` folds ASCII letters only, so non-ASCII letters in file names are left as they
  are.
- SafeFloat (`Utils.SafeFloat`): the text forms `float()` accepts are signed decimals with an optional point.
  Exponents (`1e3`), `inf`, `infinity` and `nan`, digit-group underscores (`1_000`) and
  non-ASCII digits are read as rejected text, though Python converts them. The
  `OverflowError` that `float()` raises for an integer beyond the double range escapes
  `safe_float`; the model converts every integer.
- SafeInt (`Utils.SafeInt`): the text forms `int()` accepts are signed ASCII digit strings. Underscores and
  non-ASCII digits are read as rejected text, though Python converts them. A float is
  always a finite real, so the `OverflowError` that `int()` raises for an infinite float
  is not modelled.
- `ocr.py`, `routes/context.py`, authentication, CRUD routes, bcrypt and Azure uploads are
  not part of this model.

## Findings

| source | as written | input that shows it | evidently intended | confidence | as-written member | corrected member |
|---|---|---|---|---|---|---|
| routes/insurance.py:124-133 | `coverage` is the configured `basic` list itself. `extend` and `append` mutate the configuration, so every later plan in the same process inherits the earlier plans' extra items. | Basic list `["Hospitalization"]` and additional list `["OPD"]`, then two PPO Bronze requests. The second plan's coverage holds "OPD" twice. | Each plan's coverage is the basic items plus that plan's own extras, leaving the configuration unchanged. | not executed | Insurance.CoverageDriftWitness | Insurance.CoverageDetailsShape |
