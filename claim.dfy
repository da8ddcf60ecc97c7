/**
 * routes/claim.py: the claim submission route (required inputs, the bill's file type, the
 * rule that a ClaimStatus row is written only for a parsed verdict), the parser of the
 * verdict text the language model returns, and the claim listing of retrieve_claims.
 * The language model and the SQL context query are outside the model: their outcomes are
 * inputs (`Services`).
 */
module Claim {
  import opened Wrappers
  import opened Text
  import opened Utils
  import opened Models

  // ---------------------------------------------------------------- the submitted form

  /** An uploaded file, as far as the route looks at it: its name. */
  datatype Upload = Upload(filename: string)

  /** The multipart form of a submission; a field the client did not send is None. */
  datatype ClaimForm = ClaimForm(billFile: Option<Upload>, reasonForTreatment: Option<string>, userId: Option<string>)

  /** A form field is truthy when it was sent and is not empty. */
  predicate Given(v: Option<string>) {
    v.Some? && v.value != []
  }

  /** All three inputs are truthy; an upload is truthy when it carries a filename. */
  predicate FormComplete(f: ClaimForm) {
    f.billFile.Some? && f.billFile.value.filename != [] && Given(f.reasonForTreatment) && Given(f.userId)
  }

  // ---------------------------------------------------------------- the file type

  /** `bill_name.lower().split('.')[-1]`. */
  function Extension(filename: string): string {
    AfterLast(AsciiLowerString(filename), '.')
  }

  /** The two MIME types a bill is sent with: `image/jpeg` and `application/pdf`. */
  datatype Mime = ImageJpeg | ApplicationPdf

  /** The extensions the route accepts. */
  predicate AcceptedExtension(e: string) {
    e in {"jpg", "jpeg", "png", "pdf"}
  }

  predicate PdfExtension(e: string) {
    e == "pdf"
  }

  /** The MIME type the bill is sent with, or None for a format the route refuses: JPEG,
      PNG and PDF files are accepted, images being re-encoded as JPEG. */
  function MimeType(filename: string): (r: Option<Mime>)
    ensures r.Some? <==> AcceptedExtension(Extension(filename))
    ensures r == Some(ApplicationPdf) <==> PdfExtension(Extension(filename))
  {
    var e := Extension(filename);
    if e == "jpg" || e == "jpeg" || e == "png" then Some(ImageJpeg)
    else if e == "pdf" then Some(ApplicationPdf)
    else None
  }

  lemma LowerKeepsDots(s: string)
    ensures Lacks(AsciiLowerString(s), '.') <==> Lacks(s, '.')
  {
    var l := AsciiLowerString(s);
    if !Lacks(l, '.') {
      var i :| 0 <= i < |l| && l[i] == '.';
      assert s[i] == '.';
    }
  }

  lemma {:induction false} AfterLastDot(x: string, y: string)
    requires Lacks(y, '.')
    ensures AfterLast(x + "." + y, '.') == y
    decreases |y|
  {
    var s := x + "." + y;
    if y != [] {
      assert s[..|s| - 1] == x + "." + y[..|y| - 1];
      AfterLastDot(x, y[..|y| - 1]);
    }
  }

  /** The extension is what follows the last dot of the name, lower-cased. */
  lemma ExtensionOfDottedName(stem: string, ext: string)
    requires Lacks(ext, '.')
    ensures Extension(stem + "." + ext) == AsciiLowerString(ext)
  {
    assert AsciiLowerString(stem + "." + ext) == AsciiLowerString(stem) + "." + AsciiLowerString(ext);
    LowerKeepsDots(ext);
    AfterLastDot(AsciiLowerString(stem), AsciiLowerString(ext));
  }

  /** A name without a dot is its own extension. */
  lemma {:induction false} ExtensionOfUndottedName(name: string)
    requires Lacks(name, '.')
    ensures Extension(name) == AsciiLowerString(name)
    decreases |name|
  {
    LowerKeepsDots(name);
    var l := AsciiLowerString(name);
    if name != [] {
      assert l[..|l| - 1] == AsciiLowerString(name[..|name| - 1]);
      ExtensionOfUndottedName(name[..|name| - 1]);
    }
  }

  /** Upper-case extensions are accepted. */
  lemma MimeTypeUpperCase()
    ensures MimeType("scan.JPG") == Some(ImageJpeg)
  {
    assert "scan.JPG" == "scan" + "." + "JPG";
    ExtensionOfDottedName("scan", "JPG");
    assert AsciiLowerString("JPG") == "jpg";
  }

  /** Only the text after the last dot counts. */
  lemma MimeTypeLastDot()
    ensures MimeType("bill.png.txt") == None
  {
    assert "bill.png.txt" == "bill.png" + "." + "txt";
    ExtensionOfDottedName("bill.png", "txt");
    assert AsciiLowerString("txt") == "txt";
  }

  /** A name without a dot is taken whole as its extension. */
  lemma MimeTypeBareName()
    ensures MimeType("pdf") == Some(ApplicationPdf)
  {
    ExtensionOfUndottedName("pdf");
    assert AsciiLowerString("pdf") == "pdf";
  }

  // ---------------------------------------------------------------- the verdict parser

  /** `\s*` from position j: the first position at or after j that is not whitespace. */
  function SkipSpaces(s: string, j: nat): (r: nat)
    requires j <= |s|
    ensures j <= r <= |s| && (r == |s| || !IsSpace(s[r]))
    ensures forall k :: j <= k < r ==> IsSpace(s[k])
    decreases |s| - j
  {
    if j < |s| && IsSpace(s[j]) then SkipSpaces(s, j + 1) else j
  }

  /** `.*` from position j: everything up to the next newline or the end. */
  function LineEnd(s: string, j: nat): (r: nat)
    requires j <= |s|
    ensures j <= r <= |s| && (r == |s| || s[r] == '\n')
    ensures forall k :: j <= k < r ==> s[k] != '\n'
    decreases |s| - j
  {
    if j < |s| && s[j] != '\n' then LineEnd(s, j + 1) else j
  }

  const AnswerMarker := "Answer:"
  const ReasonMarker := "Reason:"

  /** Which alternative of `(Claim Approved|Claim Cancelled|Claim in review)` matches at j,
      tried in order. */
  function LabelAt(s: string, j: nat): (r: Option<Decision>)
    requires j <= |s|
    ensures r.Some? ==> StartsWithIgnoringCase(s[j..], DecisionLabel(r.value))
    ensures r.None? <==> forall d :: !StartsWithIgnoringCase(s[j..], DecisionLabel(d))
  {
    if StartsWithIgnoringCase(s[j..], DecisionLabel(Approved)) then Some(Approved)
    else if StartsWithIgnoringCase(s[j..], DecisionLabel(Cancelled)) then Some(Cancelled)
    else if StartsWithIgnoringCase(s[j..], DecisionLabel(InReview)) then Some(InReview)
    else None
  }

  /** `Answer:\s*(label)` matches at position p, case ignored. */
  predicate AnswerAt(s: string, p: nat) {
    p <= |s| && StartsWithIgnoringCase(s[p..], AnswerMarker) &&
    LabelAt(s, SkipSpaces(s, p + |AnswerMarker|)).Some?
  }

  /** `Reason:` matches at position p, case ignored. */
  predicate ReasonAt(s: string, p: nat) {
    p <= |s| && StartsWithIgnoringCase(s[p..], ReasonMarker)
  }

  /** Each decision label begins and ends with a letter. */
  lemma LabelEndsAreLetters(d: Decision)
    ensures var lbl := DecisionLabel(d);
      |lbl| > 0 && 'a' <= AsciiLower(lbl[0]) <= 'z' && 'a' <= AsciiLower(lbl[|lbl| - 1]) <= 'z'
  {
    match d
    case Approved =>
    case Cancelled =>
    case InReview =>
  }

  /** Text that matches, case ignored, a pattern beginning and ending with letters begins and
      ends with something other than whitespace. */
  lemma MatchedEndsAreNotSpace(t: string, lbl: string)
    requires |t| == |lbl| > 0 && StartsWithIgnoringCase(t, lbl)
    requires 'a' <= AsciiLower(lbl[0]) <= 'z' && 'a' <= AsciiLower(lbl[|lbl| - 1]) <= 'z'
    ensures !IsSpace(t[0]) && !IsSpace(t[|t| - 1])
  {
    LetterMatchIsNotSpace(t[0], lbl[0]);
    LetterMatchIsNotSpace(t[|t| - 1], lbl[|lbl| - 1]);
  }

  /** The text that a pattern beginning and ending with letters matches at j, case ignored,
      spans the pattern and has nothing for `.strip()` to remove. */
  lemma MatchedSliceIsTrimmed(s: string, j: nat, lbl: string)
    requires j <= |s| && StartsWithIgnoringCase(s[j..], lbl)
    requires |lbl| > 0 && 'a' <= AsciiLower(lbl[0]) <= 'z' && 'a' <= AsciiLower(lbl[|lbl| - 1]) <= 'z'
    ensures j + |lbl| <= |s|
    ensures var t := s[j..j + |lbl|]; Strip(t) == t && StartsWithIgnoringCase(t, lbl)
  {
    MatchedSliceAt(s, j, lbl);
    var t := s[j..j + |lbl|];
    MatchedEndsAreNotSpace(t, lbl);
    StripFixesTrimmed(t);
  }

  /** The text a label matches at j is a decision label that `.strip()` leaves alone. */
  lemma MatchedLabelText(s: string, j: nat, d: Decision)
    requires j <= |s| && StartsWithIgnoringCase(s[j..], DecisionLabel(d))
    ensures j + |DecisionLabel(d)| <= |s|
    ensures var t := s[j..j + |DecisionLabel(d)|]; Strip(t) == t && IsDecisionLabel(t)
  {
    var lbl := DecisionLabel(d);
    MatchedSliceAt(s, j, lbl);
    var t := s[j..j + |lbl|];
    assert !IsSpace(t[0]) && !IsSpace(t[|t| - 1]) by {
      LabelEndsAreLetters(d);
      MatchedEndsAreNotSpace(t, lbl);
    }
    StripFixesTrimmed(t);
    LabelTextIsDecision(t, d);
  }

  /** Text that spans a decision label and matches it, case ignored, is a decision label. */
  lemma LabelTextIsDecision(t: string, d: Decision)
    requires |t| == |DecisionLabel(d)| && StartsWithIgnoringCase(t, DecisionLabel(d))
    ensures IsDecisionLabel(t)
  {
  }

  /** `match.group(1).strip()` for a match at p: the label as the text spells it. */
  function DecisionAt(s: string, p: nat): (r: string)
    requires AnswerAt(s, p)
    ensures IsDecisionLabel(r) && SpelledAt(s, SkipSpaces(s, p + |AnswerMarker|), r)
  {
    LabelTextAt(s, SkipSpaces(s, p + |AnswerMarker|))
  }

  /** `r` is the text of `s` from position j on. */
  predicate SpelledAt(s: string, j: nat, r: string) {
    j + |r| <= |s| && r == s[j..j + |r|]
  }

  /** The stripped text of the label that matches at j. */
  function LabelTextAt(s: string, j: nat): (r: string)
    requires j <= |s| && LabelAt(s, j).Some?
    ensures IsDecisionLabel(r) && SpelledAt(s, j, r)
  {
    var d := LabelAt(s, j).value;
    MatchedLabelText(s, j, d);
    Strip(s[j..j + |DecisionLabel(d)|])
  }

  /** The text a matching label covers matches it. */
  lemma MatchedSliceAt(s: string, j: nat, lbl: string)
    requires j <= |s| && StartsWithIgnoringCase(s[j..], lbl)
    ensures j + |lbl| <= |s|
    ensures StartsWithIgnoringCase(s[j..j + |lbl|], lbl)
  {
    StartsWithIgnoringCaseTake(s[j..], lbl);
    assert s[j..][..|lbl|] == s[j..j + |lbl|];
  }

  /** `reason_match.group(1).strip()` for a match at p: the rest of the line after the marker
      and any whitespace (which may span line breaks), stripped. */
  function ReasonAfter(s: string, p: nat): string
    requires ReasonAt(s, p)
  {
    var j := SkipSpaces(s, p + |ReasonMarker|);
    Strip(s[j..LineEnd(s, j)])
  }

  /** re.search's scan: the leftmost position in [i, n] at which `at` holds, or None. */
  function SearchFrom(at: nat -> bool, n: nat, i: nat): (r: Option<nat>)
    requires i <= n + 1
    ensures r.None? <==> forall p :: i <= p <= n ==> !at(p)
    ensures r.Some? ==> i <= r.value <= n && at(r.value) && forall p :: i <= p < r.value ==> !at(p)
    decreases n + 1 - i
  {
    if i > n then None else if at(i) then Some(i) else SearchFrom(at, n, i + 1)
  }

  /** re.search for `Answer:\s*(label)`: the leftmost match position at or after i, or None. */
  function AnswerSearch(s: string, i: nat): (r: Option<nat>)
    requires i <= |s| + 1
    ensures r.None? <==> forall p :: i <= p <= |s| ==> !AnswerAt(s, p)
    ensures r.Some? ==> i <= r.value <= |s| && AnswerAt(s, r.value) && forall p :: i <= p < r.value ==> !AnswerAt(s, p)
  {
    var at := (p: nat) => AnswerAt(s, p);
    assert forall p: nat :: at(p) == AnswerAt(s, p);
    SearchFrom(at, |s|, i)
  }

  /** re.search for `Reason:`: the leftmost match position at or after i, or None. */
  function ReasonSearch(s: string, i: nat): (r: Option<nat>)
    requires i <= |s| + 1
    ensures r.None? <==> forall p :: i <= p <= |s| ==> !ReasonAt(s, p)
    ensures r.Some? ==> i <= r.value <= |s| && ReasonAt(s, r.value) && forall p :: i <= p < r.value ==> !ReasonAt(s, p)
  {
    var at := (p: nat) => ReasonAt(s, p);
    assert forall p: nat :: at(p) == ReasonAt(s, p);
    SearchFrom(at, |s|, i)
  }

  const NoReason := "No reason provided."
  const UndeterminedMessage := "Error: Unable to determine the claim status from the Gemini response."

  /** What verify_treatment returns: a (decision, reason) pair, or a single error string. */
  datatype Verdict = Decided(decision: string, reason: string) | Undetermined(message: string)

  /** The regular-expression half of verify_treatment, on the stripped reply text. */
  function ParseVerdict(t: string): (r: Verdict)
    ensures r.Decided? <==> exists p :: 0 <= p <= |t| && AnswerAt(t, p)
    ensures r.Undetermined? ==> r.message == UndeterminedMessage
    ensures r.Decided? ==> IsDecisionLabel(r.decision)
  {
    match AnswerSearch(t, 0)
    case None => Undetermined(UndeterminedMessage)
    case Some(p) =>
      var reason := match ReasonSearch(t, 0) case Some(q) => ReasonAfter(t, q) case None => NoReason;
      Decided(DecisionAt(t, p), reason)
  }

  /** The reply's text is stripped before it is searched. */
  function VerifyTreatment(response: string): Verdict {
    ParseVerdict(Strip(response))
  }

  lemma LeftmostAnswer(t: string, p: nat)
    requires AnswerAt(t, p) && forall k :: 0 <= k < p ==> !AnswerAt(t, k)
    ensures AnswerSearch(t, 0) == Some(p)
  {
    var a := AnswerSearch(t, 0);
    assert a.Some?;
    assert !(a.value < p);
    assert !(a.value > p);
  }

  lemma LeftmostReason(t: string, q: nat)
    requires ReasonAt(t, q) && forall k :: 0 <= k < q ==> !ReasonAt(t, k)
    ensures ReasonSearch(t, 0) == Some(q)
  {
    var r := ReasonSearch(t, 0);
    assert r.Some?;
    assert !(r.value < q);
    assert !(r.value > q);
  }

  /** The decision comes from the leftmost `Answer:` match. */
  lemma DecisionFromLeftmostMatch(t: string, p: nat)
    requires AnswerAt(t, p) && forall k :: 0 <= k < p ==> !AnswerAt(t, k)
    ensures ParseVerdict(t).Decided? && ParseVerdict(t).decision == DecisionAt(t, p)
  {
    LeftmostAnswer(t, p);
  }

  /** The reason comes from the leftmost `Reason:` match, wherever it lies relative to the
      decision. */
  lemma ReasonFromLeftmostMatch(t: string, q: nat)
    requires ParseVerdict(t).Decided?
    requires ReasonAt(t, q) && forall k :: 0 <= k < q ==> !ReasonAt(t, k)
    ensures ParseVerdict(t).reason == ReasonAfter(t, q)
  {
    LeftmostReason(t, q);
  }

  /** Without a `Reason:` match the reason is the fixed text. */
  lemma ReasonDefault(t: string)
    requires ParseVerdict(t).Decided?
    requires forall q :: 0 <= q <= |t| ==> !ReasonAt(t, q)
    ensures ParseVerdict(t).reason == NoReason
  {
  }

  /** Stripping one line of text leaves one line with nothing left to strip. */
  lemma StrippedLine(line: string)
    requires Lacks(line, '\n')
    ensures Lacks(Strip(line), '\n') && Strip(Strip(line)) == Strip(line)
  {
    StripIsInfix(line);
    var r := Strip(line);
    forall i | 0 <= i < |r| ensures r[i] != '\n' {
      assert r[i] == line[(|line| - |LStrip(line)|) + i];
    }
    StripFixesTrimmed(r);
  }

  /** What `(.*)` captures after the marker, once stripped, has no line break and nothing left
      to strip. */
  lemma ReasonAfterIsOneTrimmedLine(t: string, q: nat)
    requires ReasonAt(t, q)
    ensures Lacks(ReasonAfter(t, q), '\n') && Strip(ReasonAfter(t, q)) == ReasonAfter(t, q)
  {
    var j := SkipSpaces(t, q + |ReasonMarker|);
    var line := t[j..LineEnd(t, j)];
    assert Lacks(line, '\n');
    StrippedLine(line);
  }

  /** The stored reason is one line with no whitespace at either end. */
  lemma ReasonIsOneTrimmedLine(t: string)
    requires ParseVerdict(t).Decided?
    ensures Lacks(ParseVerdict(t).reason, '\n') && Strip(ParseVerdict(t).reason) == ParseVerdict(t).reason
  {
    var r := ReasonSearch(t, 0);
    if r.Some? {
      ReasonFromLeftmostMatch(t, r.value);
      ReasonAfterIsOneTrimmedLine(t, r.value);
    } else {
      ReasonDefault(t);
      NoReasonIsTrimmed();
    }
  }

  lemma NoReasonIsTrimmed()
    ensures Lacks(NoReason, '\n') && Strip(NoReason) == NoReason
  {
    NoReasonIsOneLine();
    StripFixesTrimmed(NoReason);
  }

  lemma NoReasonIsOneLine()
    ensures Lacks(NoReason, '\n')
  {
    assert forall i :: 0 <= i < |NoReason| ==> NoReason[i] != '\n';
  }

  // ---------------------------------------------------------------- process_claim

  /** What the calls the route makes outside this model produce: whether PIL can open the
      image and re-save it as JPEG, the bill text the model extracts (None when the call
      raises), whether the context query runs, and the verdict reply (None when that call
      raises). */
  datatype Services = Services(
    imageConverts: bool,
    extraction: Option<string>,
    contextFetched: bool,
    verdict: Option<string>)

  /** The dictionary process_claim returns: a decision and a reason, or only an error. */
  datatype ClaimResult = Decision(decision: string, reason: string) | ErrorOnly

  /** `decision, reason = verify_treatment(...)`: a pair unpacks; a string unpacks only when
      it has exactly two characters. */
  function Unpack(v: Verdict): (r: Result<(string, string), PyError>)
    ensures v.Decided? ==> r == Success((v.decision, v.reason))
  {
    match v
    case Decided(d, reason) => Success((d, reason))
    case Undetermined(m) => if |m| == 2 then Success(([m[0]], [m[1]])) else Failure(ValueError)
  }

  /** process_claim: a failed or empty extraction, or a failed context query, gives an
      error-only result; a failure of the verdict call or of the unpacking propagates. */
  function ProcessClaim(svc: Services): (r: Result<ClaimResult, PyError>)
    ensures r.Success? && r.value.Decision? ==> IsDecisionLabel(r.value.decision)
    ensures r.Success? && r.value.Decision? ==>
      svc.verdict.Some? && VerifyTreatment(svc.verdict.value) == Decided(r.value.decision, r.value.reason)
  {
    if svc.extraction.None? || svc.extraction.value == [] then Success(ErrorOnly)
    else if !svc.contextFetched then Success(ErrorOnly)
    else if svc.verdict.None? then Failure(ServiceError)
    else
      match Unpack(VerifyTreatment(svc.verdict.value))
      case Failure(e) => Failure(e)
      case Success(pair) => Success(Decision(pair.0, pair.1))
  }

  /** verify_treatment's single error string never unpacks, so an undetermined verdict always
      raises ValueError. */
  lemma UndeterminedRaises(response: string)
    ensures VerifyTreatment(response).Undetermined? <==> Unpack(VerifyTreatment(response)).Failure?
    ensures Unpack(VerifyTreatment(response)).Failure? ==> Unpack(VerifyTreatment(response)).error == ValueError
  {
  }

  // ---------------------------------------------------------------- process_claim_api

  /** The ClaimStatus fields a submission supplies; the id and the timestamp come from the
      database. */
  datatype NewClaim = NewClaim(userId: int, decision: string, reason: string, billName: string)

  datatype Outcome = Outcome(status: int, row: Option<NewClaim>)

  /** The reply of process_claim_api and the row it adds, given what process_claim returns.
      The user id text is read as the integer column's value in `ParseInt`'s form only
      (an optional sign and ASCII digits); the foreign key then takes only an id some Users
      row has, and otherwise the commit raises. MySQL's own, wider conversion of text to an
      integer (surrounding spaces, a fraction, an exponent) is not part of this model. */
  function Respond(form: ClaimForm, users: seq<UserRow>, imageConverts: bool, result: Result<ClaimResult, PyError>): Outcome {
    if !FormComplete(form) then Outcome(400, None)
    else
      var name := form.billFile.value.filename;
      match MimeType(name)
      case None => Outcome(400, None)
      case Some(mime) =>
        if mime == ImageJpeg && !imageConverts then Outcome(500, None)
        else
          Record(form.userId.value, name, users, result)
  }

  /** The part of process_claim_api after the file is read: a raised exception is a 500, an
      error dictionary a 200 without a row, and a decision is committed under the form's user
      id, which fails with 500 when its text is not in `ParseInt`'s form or names no Users
      row. Text that MySQL would still convert, such as " 12" or "12.0", is refused here. */
  function Record(userText: string, billName: string, users: seq<UserRow>, result: Result<ClaimResult, PyError>)
    : (o: Outcome)
    ensures o.status in {200, 500}
    ensures o.row.Some? <==> result.Success? && result.value.Decision? && ParseInt(userText).Some? &&
                             HasUser(users, ParseInt(userText).value)
    ensures o.row.Some? ==> o.status == 200 &&
                            o.row.value == NewClaim(ParseInt(userText).value, result.value.decision, result.value.reason, billName)
    ensures result.Success? && result.value.ErrorOnly? ==> o == Outcome(200, None)
  {
    match result
    case Failure(_) => Outcome(500, None)
    case Success(ErrorOnly) => Outcome(200, None)
    case Success(Decision(d, reason)) =>
      match ParseInt(userText)
      case None => Outcome(500, None)
      case Some(uid) =>
        if !HasUser(users, uid) then Outcome(500, None)
        else Outcome(200, Some(NewClaim(uid, d, reason, billName)))
  }

  /** process_claim_api on a form, given the Users table and the outcomes of the calls it makes. */
  function Submission(form: ClaimForm, users: seq<UserRow>, svc: Services): Outcome {
    Respond(form, users, svc.imageConverts, ProcessClaim(svc))
  }

  /** A missing input or an unsupported file type is a 400, and only these are; every reply
      is 200, 400 or 500. */
  lemma BadRequestExactly(form: ClaimForm, users: seq<UserRow>, imageConverts: bool, result: Result<ClaimResult, PyError>)
    ensures var o := Respond(form, users, imageConverts, result);
      && (o.status == 400 <==> !FormComplete(form) || MimeType(form.billFile.value.filename).None?)
      && (o.status == 400 ==> o.row.None?)
      && o.status in {200, 400, 500}
  {
    if FormComplete(form) {
      var name := form.billFile.value.filename;
      var m := MimeType(name);
      if m.Some? {
        var stored := Record(form.userId.value, name, users, result);
        assert Respond(form, users, imageConverts, result) ==
          if m.value == ImageJpeg && !imageConverts then Outcome(500, None) else stored;
      }
    }
  }

  /** A row is written exactly when the inputs pass, the bill is readable, process_claim
      returns a decision and the user id is the integer id of a Users row; the row carries
      the filename. */
  lemma RowExactlyOnDecision(form: ClaimForm, users: seq<UserRow>, imageConverts: bool, result: Result<ClaimResult, PyError>)
    ensures var o := Respond(form, users, imageConverts, result);
      o.row.Some? <==>
        && FormComplete(form)
        && MimeType(form.billFile.value.filename).Some?
        && (MimeType(form.billFile.value.filename) == Some(ImageJpeg) ==> imageConverts)
        && result.Success? && result.value.Decision?
        && ParseInt(form.userId.value).Some?
        && HasUser(users, ParseInt(form.userId.value).value)
    ensures var o := Respond(form, users, imageConverts, result);
      o.row.Some? ==> && o.status == 200
                      && o.row.value == NewClaim(ParseInt(form.userId.value).value, result.value.decision,
                                                 result.value.reason, form.billFile.value.filename)
  {
    if FormComplete(form) {
      var m := MimeType(form.billFile.value.filename);
      if m.Some? && !(m.value == ImageJpeg && !imageConverts) && result.Success? && result.value.Decision? {
        assert Respond(form, users, imageConverts, result).row.Some? <==>
          ParseInt(form.userId.value).Some? && HasUser(users, ParseInt(form.userId.value).value);
      }
    }
  }

  /** Every row a submission writes holds a decision label, and its decision and reason are
      what the verdict parser read from the reply. */
  lemma RowHoldsParsedVerdict(form: ClaimForm, users: seq<UserRow>, svc: Services)
    requires Submission(form, users, svc).row.Some?
    ensures var c := Submission(form, users, svc).row.value;
      && IsDecisionLabel(c.decision)
      && svc.verdict.Some?
      && VerifyTreatment(svc.verdict.value) == Decided(c.decision, c.reason)
  {
    RowExactlyOnDecision(form, users, svc.imageConverts, ProcessClaim(svc));
  }

  /** An empty or failed extraction, or a failed context query, still replies 200 but
      writes nothing. */
  lemma ErrorOnlyIsSilent(form: ClaimForm, users: seq<UserRow>, svc: Services)
    requires FormComplete(form) && MimeType(form.billFile.value.filename).Some?
    requires MimeType(form.billFile.value.filename) == Some(ImageJpeg) ==> svc.imageConverts
    requires svc.extraction.None? || svc.extraction.value == [] || !svc.contextFetched
    ensures Submission(form, users, svc) == Outcome(200, None)
  {
    assert ProcessClaim(svc) == Success(ErrorOnly);
  }

  /** A reply without a recognisable verdict makes the route fail with 500 and write nothing. */
  lemma UndeterminedIsServerError(form: ClaimForm, users: seq<UserRow>, svc: Services)
    requires FormComplete(form) && MimeType(form.billFile.value.filename).Some?
    requires svc.extraction.Some? && svc.extraction.value != [] && svc.contextFetched
    requires svc.verdict.Some? && VerifyTreatment(svc.verdict.value).Undetermined?
    ensures Submission(form, users, svc) == Outcome(500, None)
  {
    ProcessClaimUndetermined(svc);
    FailureIsServerError(form, users, svc.imageConverts, ValueError);
  }

  /** Once the inputs pass, a process_claim that raises makes the route reply 500. */
  lemma FailureIsServerError(form: ClaimForm, users: seq<UserRow>, imageConverts: bool, e: PyError)
    requires FormComplete(form) && MimeType(form.billFile.value.filename).Some?
    ensures Respond(form, users, imageConverts, Failure(e)) == Outcome(500, None)
  {
  }

  /** A decision for an integer id that no Users row has breaks the foreign key at the
      commit: the route replies 500 and writes nothing. */
  lemma UnknownUserIsServerError(form: ClaimForm, users: seq<UserRow>, imageConverts: bool, d: string, reason: string)
    requires FormComplete(form) && MimeType(form.billFile.value.filename).Some?
    requires MimeType(form.billFile.value.filename) == Some(ImageJpeg) ==> imageConverts
    requires ParseInt(form.userId.value).Some? && !HasUser(users, ParseInt(form.userId.value).value)
    ensures Respond(form, users, imageConverts, Success(Decision(d, reason))) == Outcome(500, None)
  {
  }

  lemma ProcessClaimUndetermined(svc: Services)
    requires svc.extraction.Some? && svc.extraction.value != [] && svc.contextFetched
    requires svc.verdict.Some? && VerifyTreatment(svc.verdict.value).Undetermined?
    ensures ProcessClaim(svc) == Failure(ValueError)
  {
    UndeterminedRaises(svc.verdict.value);
  }

  /** The row the database stores for a new claim. */
  function ClaimRow(claimId: int, c: NewClaim, now: Timestamp): ClaimStatus {
    ClaimStatus(claimId, c.userId, c.decision, c.reason, c.billName, now)
  }

  /** process_claim_api(): validates, classifies the file, runs process_claim and appends at
      most one ClaimStatus row, under the next claim id, stamped with the current time. */
  method ProcessClaimApi(db: Database, form: ClaimForm, svc: Services, now: Timestamp) returns (status: int)
    requires db.Valid() && ValidDate(now.date)
    modifies db
    ensures db.Valid()
    ensures status == Submission(form, old(db.users), svc).status
    ensures var row := Submission(form, old(db.users), svc).row;
      && (row.None? ==> db.claims == old(db.claims) && db.nextClaimId == old(db.nextClaimId))
      && (row.Some? ==> db.claims == old(db.claims) + [ClaimRow(old(db.nextClaimId), row.value, now)] &&
                        db.nextClaimId == old(db.nextClaimId) + 1)
    ensures db.PlanTablesOf() == old(db.PlanTablesOf()) && db.users == old(db.users)
    ensures db.profiles == old(db.profiles) && db.healthInfo == old(db.healthInfo)
    ensures db.lifestyles == old(db.lifestyles) && db.labData == old(db.labData) && db.predictions == old(db.predictions)
  {
    var result := ProcessClaim(svc);
    assert Submission(form, db.users, svc) == Respond(form, db.users, svc.imageConverts, result);
    if !FormComplete(form) {
      return 400;
    }
    var billName := form.billFile.value.filename;
    var mime := MimeType(billName);
    if mime.None? {
      return 400;
    }
    if mime.value == ImageJpeg && !svc.imageConverts {
      return 500;
    }
    if result.Failure? {
      return 500;
    }
    if result.value.Decision? {
      var uid := ParseInt(form.userId.value);
      if uid.None? || !HasUser(db.users, uid.value) {
        return 500;
      }
      var row := NewClaim(uid.value, result.value.decision, result.value.reason, billName);
      assert Submission(form, db.users, svc) == Outcome(200, Some(row));
      var c := db.AddClaim(row.userId, row.decision, row.reason, row.billName, now);
    }
    status := 200;
  }

  // ---------------------------------------------------------------- retrieve_claims

  /** The digits of n, left-padded with zeros to `width` characters. */
  function Digits(n: nat, width: nat): (r: string)
    ensures |r| == width && AllDigits(r)
  {
    if width == 0 then [] else Digits(n / 10, width - 1) + [DigitChar(n % 10)]
  }

  lemma {:induction false} DigitsRoundTrip(n: nat, width: nat)
    requires n < Pow10(width)
    ensures DigitsValue(Digits(n, width)) == n
    decreases width
  {
    if width > 0 {
      var r := Digits(n, width);
      assert r[..|r| - 1] == Digits(n / 10, width - 1);
      DigitsRoundTrip(n / 10, width - 1);
    }
  }

  /** `strftime('%Y-%m-%d')`. */
  function DateText(d: Date): (r: string)
    requires ValidDate(d)
    ensures |r| == 10 && r[4] == '-' && r[7] == '-'
  {
    Digits(d.year, 4) + "-" + Digits(d.month, 2) + "-" + Digits(d.day, 2)
  }

  /** Reads a `YYYY-MM-DD` text back. */
  function ParseDate(s: string): Option<Date> {
    if |s| == 10 && s[4] == '-' && s[7] == '-' && AllDigits(s[..4]) && AllDigits(s[5..7]) && AllDigits(s[8..]) then
      Some(Date(DigitsValue(s[..4]), DigitsValue(s[5..7]), DigitsValue(s[8..])))
    else None
  }

  /** The date text determines the date: reading it back gives the date. */
  lemma DateTextRoundTrip(d: Date)
    requires ValidDate(d)
    ensures ParseDate(DateText(d)) == Some(d)
  {
    var s := DateText(d);
    assert s[..4] == Digits(d.year, 4);
    assert s[5..7] == Digits(d.month, 2);
    assert s[8..] == Digits(d.day, 2);
    assert Pow10(2) == 100 && Pow10(4) == 10000;
    DigitsRoundTrip(d.year, 4);
    DigitsRoundTrip(d.month, 2);
    DigitsRoundTrip(d.day, 2);
  }

  /** One entry of the retrieve_claims reply. */
  datatype ClaimEntry = ClaimEntry(billName: string, status: string, reason: string, date: string)

  function EntryOf(c: ClaimStatus): ClaimEntry
    requires ValidDate(c.processedAt.date)
  {
    ClaimEntry(c.billName, c.decision, c.reason, DateText(c.processedAt.date))
  }

  /** The filter `user_id=user_id` on ClaimStatus rows. */
  function ClaimedBy(userId: int): ClaimStatus -> bool {
    (c: ClaimStatus) => c.userId == userId
  }

  /** retrieve_claims(user_id): one entry per claim row of the user, taken from the rows
      at the user's positions of the table in increasing order. */
  function RetrieveClaims(claims: seq<ClaimStatus>, userId: int): (r: seq<ClaimEntry>)
    requires forall i :: 0 <= i < |claims| ==> ValidDate(claims[i].processedAt.date)
    ensures |r| == |MatchingPositions(claims, ClaimedBy(userId))|
    ensures forall k :: 0 <= k < |r| ==> r[k] == EntryOf(claims[MatchingPositions(claims, ClaimedBy(userId))[k]])
  {
    var mine := Where(claims, ClaimedBy(userId));
    WhereAtPositions(claims, ClaimedBy(userId));
    seq(|mine|, k requires 0 <= k < |mine| => EntryOf(mine[k]))
  }

  /** Every claim row of the user has its entry in the reply, and every entry in the reply
      comes from a claim row of the user. */
  lemma RetrieveClaimsMatchesRows(claims: seq<ClaimStatus>, userId: int)
    requires forall i :: 0 <= i < |claims| ==> ValidDate(claims[i].processedAt.date)
    ensures forall i :: 0 <= i < |claims| && claims[i].userId == userId ==> EntryOf(claims[i]) in RetrieveClaims(claims, userId)
    ensures forall k :: 0 <= k < |RetrieveClaims(claims, userId)| ==>
      exists i :: 0 <= i < |claims| && claims[i].userId == userId && RetrieveClaims(claims, userId)[k] == EntryOf(claims[i])
  {
    var ix := MatchingPositions(claims, ClaimedBy(userId));
    var r := RetrieveClaims(claims, userId);
    forall i | 0 <= i < |claims| && claims[i].userId == userId ensures EntryOf(claims[i]) in r {
      assert ClaimedBy(userId)(claims[i]);
      var k :| 0 <= k < |ix| && ix[k] == i;
      assert r[k] == EntryOf(claims[i]);
    }
    forall k | 0 <= k < |r|
      ensures exists i :: 0 <= i < |claims| && claims[i].userId == userId && r[k] == EntryOf(claims[i])
    {
      assert ClaimedBy(userId)(claims[ix[k]]);
      assert r[k] == EntryOf(claims[ix[k]]);
    }
  }
}
