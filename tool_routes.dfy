/**
 * The tool's own API for a launched session: grade passback to the LMS
 * through the LTI 1.1 Basic Outcomes service, the activity list, and the
 * instructor-only student overview and bulk grading.
 *
 * Every route receives the session user that `Dependencies.CurrentUser`
 * admitted. The clock, the random identifiers, the OAuth primitives, the
 * network and the XML parser are parameters, as in `GradeService`.
 */
module ToolRoutes {
  import opened Wrappers
  import opened JsonValues
  import opened Config
  import Dicts
  import Http
  import Models
  import GradeService
  import Dependencies

  // ------------------------------------------------------------ submit-grade

  /** The answer of `submit_grade_to_lms`; `grade` is present only on success. */
  datatype GradeReply = GradeReply(status: string, message: string, grade: Option<Json>, supportsGrading: bool)

  const NoPassback: GradeReply := GradeReply("warning", "Grade passback not available for this launch", None, false)

  /** Whether the session carries both the outcome service URL and the result sourcedid, each truthy. */
  predicate PassbackAvailable(user: Object)
  {
    TruthyAt(user, "lis_outcome_service_url") && TruthyAt(user, "lis_result_sourcedid")
  }

  /** The detail of the 500 that any exception during a submission becomes. */
  function SubmitError(message: string): string
  {
    "Error submitting grade: " + message
  }

  /** `str(KeyError(k))` */
  function KeyErrorText(k: string): string
  {
    "'" + k + "'"
  }

  /** `f"grade_{user_id}_{timestamp}"`, with `stamp` the text of the clock reading. */
  function MessageIdentifier(userId: Json, stamp: string): string
  {
    "grade_" + Str(userId) + "_" + stamp
  }

  /** What `send_grade` returns for the outcome of its request. */
  function SentReport(outcome: Http.Outcome, parse: string -> GradeService.XmlParse): Result<Dicts.Items<Json>>
  {
    match outcome
    case Failed(m) => Ok(GradeService.RequestErrorReport(m))
    case Answered(response) => GradeService.OutcomesReport(response, parse)
  }

  /**
   * The reply for the report `send_grade` returned, `grade` being the value
   * submitted: success when the report's `success` is truthy, an error
   * carrying its `error` otherwise; any exception is a 500.
   */
  function ReplyFor(report: Result<Dicts.Items<Json>>, grade: Json): Http.Reply<GradeReply>
  {
    match report
    case Raised(m) => Http.Refused(500, SubmitError(m))
    case Ok(result) =>
      match Dicts.Lookup(result, "success")
      case None => Http.Refused(500, SubmitError(KeyErrorText("success")))
      case Some(success) =>
        if Truthy(success) then Http.Done(GradeReply("success", "Grade submitted to LMS successfully", Some(grade), true))
        else Http.Done(GradeReply("error", "Failed to submit grade: "
                                           + Str(Dicts.Lookup(result, "error").GetOr(JStr("Unknown error"))), None, true))
  }

  /**
   * `submit_grade_to_lms` as written: the grade is read as
   * `grade_request.grade`, before the user id and before anything is sent.
   * `report` stands for whatever `send_grade` would return.
   */
  function SubmitGradeAsWritten(user: Object, g: Models.GradePassbackRequest, stamp: string,
                                report: Result<Dicts.Items<Json>>): Http.Reply<GradeReply>
  {
    if !PassbackAvailable(user) then Http.Done(NoPassback)
    else match Models.PassbackAttribute(g, "grade")
      case Raised(m) => Http.Refused(500, SubmitError(m))
      case Ok(grade) =>
        if "user_id" !in user then Http.Refused(500, SubmitError(KeyErrorText("user_id")))
        else ReplyFor(report, grade)
  }

  /**
   * As written, no grade ever reaches the LMS: a session without outcome
   * information gets the warning, and every other submission fails with 500
   * because a `GradePassbackRequest` has no `grade`.
   */
  lemma SubmitGradeAsWrittenFails(user: Object, g: Models.GradePassbackRequest, stamp: string,
                                  report: Result<Dicts.Items<Json>>)
    ensures !PassbackAvailable(user) ==> SubmitGradeAsWritten(user, g, stamp, report) == Http.Done(NoPassback)
    ensures PassbackAvailable(user) ==>
      SubmitGradeAsWritten(user, g, stamp, report)
      == Http.Refused(500, SubmitError(NoAttribute("GradePassbackRequest", "grade")))
  {
    Models.MissingAttributes(g, Models.LtiUser("", "", 0.0));
  }

  /** A report whose `success` is a boolean gives a reply that is a success exactly when it is true. */
  lemma ReplyForReport(result: Dicts.Items<Json>, grade: Json, success: bool)
    requires Dicts.Lookup(result, "success") == Some(JBool(success))
    ensures var r := ReplyFor(Ok(result), grade);
      && r.Done? && r.value.supportsGrading
      && (r.value.status == "success" <==> success)
      && (success ==> r.value.grade == Some(grade))
  {
  }

  /** A request that fails is an error reply carrying the exception text; grading stays supported. */
  lemma FailedRequestReply(message: string, parse: string -> GradeService.XmlParse, grade: Json)
    ensures ReplyFor(SentReport(Http.Failed(message), parse), grade)
            == Http.Done(GradeReply("error", "Failed to submit grade: " + message, None, true))
  {
    var report := GradeService.RequestErrorReport(message);
    assert |"success"| == 7 && |"error"| == 5;
    assert Dicts.Lookup(report, "success") == Some(JBool(false));
    assert Dicts.Lookup(report, "error") == Some(JStr(message));
  }

  /**
   * An answer from the platform is a success exactly when the platform
   * reported success, and always says that grading is supported.
   */
  lemma AnsweredReply(response: Http.Response, parse: string -> GradeService.XmlParse, grade: Json)
    requires GradeService.OutcomesReport(response, parse).Ok?
    ensures var r := ReplyFor(SentReport(Http.Answered(response), parse), grade);
      && r.Done? && r.value.supportsGrading
      && (r.value.status == "success" <==> GradeService.ReportsSuccess(response, parse))
      && (r.value.status == "success" ==> r.value.grade == Some(grade))
  {
    GradeService.OutcomesReportSuccess(response, parse);
    ReplyForReport(GradeService.OutcomesReport(response, parse).value, grade, GradeService.ReportsSuccess(response, parse));
  }

  /** The only answer that becomes a 500 is a status block with an empty `imsx_codeMajor`. */
  lemma CrashedReply(response: Http.Response, parse: string -> GradeService.XmlParse, grade: Json)
    ensures GradeService.OutcomesReport(response, parse).Raised? <==>
      ReplyFor(SentReport(Http.Answered(response), parse), grade) == Http.Refused(500, SubmitError(NoAttribute("NoneType", "lower")))
  {
    if GradeService.OutcomesReport(response, parse).Ok? {
      AnsweredReply(response, parse, grade);
    }
  }

  /** The `TypeError` `urllib.parse.quote_plus` raises for a value that is neither `str` nor `bytes`. */
  const QuoteBytesError: string := "quote_from_bytes() expected bytes"

  /**
   * What the model asks of `floatText`, the `str()` of a Python float (the
   * shortest text that reads back as the same float): distinct values get
   * distinct texts, and no text contains `<` (it is made of digits, `.`, `-`,
   * `+`, `e`, `inf` and `nan`).
   */
  ghost predicate FloatTextSound(floatText: real -> string)
  {
    && (forall a, b :: floatText(a) == floatText(b) ==> a == b)
    && (forall a :: '<' !in floatText(a))
  }

  /**
   * The grade posted in the outcomes XML is read back from it, so two
   * different scores never produce the same envelope.
   */
  lemma GradeReadBack(floatText: real -> string, sourcedid: string, identifier: string, score: real, other: real)
    requires FloatTextSound(floatText)
    requires '<' !in sourcedid && '<' !in identifier
    ensures GradeService.ReadEnvelope(GradeService.OutcomesXml(sourcedid, floatText(score), identifier))
         == (identifier, sourcedid, floatText(score))
    ensures score != other ==>
      GradeService.OutcomesXml(sourcedid, floatText(score), identifier)
        != GradeService.OutcomesXml(sourcedid, floatText(other), identifier)
  {
    GradeService.EnvelopeRoundTrip(sourcedid, floatText(score), identifier);
    GradeService.EnvelopeRoundTrip(sourcedid, floatText(other), identifier);
  }

  /**
   * `submit_grade_to_lms`, reading the grade from `score`: `stamp` is the
   * text of `datetime.utcnow().timestamp()`, `floatText` the `str()` of a
   * float that the f-string of the XML applies to the score, the other parameters those of
   * `GradeService.OutcomesService.SendGrade`. `sent` is the request made, if
   * any. An outcome URL that is truthy but not a string makes the signing
   * step's `quote_plus` raise, so nothing is sent and the reply is 500.
   */
  method SubmitGrade(cfg: Settings, user: Object, g: Models.GradePassbackRequest, stamp: string,
                     floatText: real -> string, timestamp: int, messageUuid: string, nonceUuid: string,
                     prims: GradeService.OAuthPrimitives,
                     send: Http.Request -> Http.Outcome, parse: string -> GradeService.XmlParse)
    returns (r: Http.Reply<GradeReply>, sent: Option<Http.Request>)
    ensures !PassbackAvailable(user) ==> r == Http.Done(NoPassback) && sent == None
    ensures PassbackAvailable(user) && "user_id" !in user ==>
      r == Http.Refused(500, SubmitError(KeyErrorText("user_id"))) && sent == None
    ensures PassbackAvailable(user) && "user_id" in user && !user["lis_outcome_service_url"].JStr? ==>
      r == Http.Refused(500, SubmitError(QuoteBytesError)) && sent == None
    ensures PassbackAvailable(user) && "user_id" in user && user["lis_outcome_service_url"].JStr? ==>
      && sent.Some?
      && sent.value.url == user["lis_outcome_service_url"].s
      && sent.value.body == Http.Text(GradeService.OutcomesXml(Str(user["lis_result_sourcedid"]), floatText(g.score),
                                                               MessageIdentifier(user["user_id"], stamp)))
      && r == ReplyFor(SentReport(send(sent.value), parse), JFloat(g.score))
  {
    var outcomesUrl := Get(user, "lis_outcome_service_url");
    var sourcedid := Get(user, "lis_result_sourcedid");
    if !PassbackAvailable(user) {
      return Http.Done(NoPassback), None;
    }
    var outcomesService := new GradeService.OutcomesService(cfg.consumerKey, cfg.sharedSecret);
    var grade := JFloat(g.score);
    if "user_id" !in user {
      return Http.Refused(500, SubmitError(KeyErrorText("user_id"))), None;
    }
    var identifier := MessageIdentifier(user["user_id"], stamp);
    if !outcomesUrl.value.JStr? {
      // `quote_plus` of the URL, while the request is signed, raises before anything is sent.
      return Http.Refused(500, SubmitError(QuoteBytesError)), None;
    }
    var result, request := outcomesService.SendGrade(outcomesUrl.value.s, Str(sourcedid.value), floatText(g.score),
                                                     Some(identifier), timestamp, messageUuid, nonceUuid, prims, send, parse);
    assert result == SentReport(send(request), parse);
    sent := Some(request);
    r := ReplyFor(result, grade);
  }

  // -------------------------------------------------------------- activities

  datatype Activity = Activity(id: string, name: string, kind: string, description: string,
                               durationMinutes: Option<int>, maxAttempts: Option<int>, available: bool, required: bool)

  /** The three activities every user sees, in order. */
  const BaseActivities: seq<Activity> := [
    Activity("quiz_1", "Introduction Quiz", "quiz", "Test your knowledge with this interactive quiz",
             Some(15), Some(3), true, true),
    Activity("assignment_1", "Essay Assignment", "assignment", "Write a 500-word essay on the topic",
             Some(60), Some(1), true, true),
    Activity("reading_1", "Chapter 1 Reading", "reading", "Read and understand the first chapter",
             Some(30), None, true, false)]

  /** The activity only instructors see. */
  const GradeManagement: Activity :=
    Activity("grade_management", "Grade Management", "management", "Manage student grades and progress",
             None, None, true, false)

  /**
   * `get_available_activities`: everyone gets the three base activities in
   * order; instructors, and only they, get grade management appended last.
   */
  method AvailableActivities(user: Object) returns (activities: seq<Activity>)
    ensures |activities| >= 3 && activities[..3] == BaseActivities
    ensures GradeManagement in activities <==> TruthyAt(user, "is_instructor")
    ensures TruthyAt(user, "is_instructor") ==> |activities| == 4 && activities[3] == GradeManagement
    ensures !TruthyAt(user, "is_instructor") ==> |activities| == 3
    ensures forall i :: 0 <= i < |activities| ==> activities[i].available
  {
    activities := BaseActivities;
    assert GradeManagement !in BaseActivities by {
      assert forall i :: 0 <= i < 3 ==> |BaseActivities[i].id| < |GradeManagement.id|;
    }
    if TruthyAt(user, "is_instructor") {
      activities := activities + [GradeManagement];
    }
  }

  // --------------------------------------------------------- instructor gates

  const ProgressRefusal: string := "Only instructors can view all student progress"
  const BulkRefusal: string := "Only instructors can submit bulk grades"

  /** The gate of `get_all_student_progress` and `submit_bulk_grades`, refusing with `detail`. */
  function InstructorOnly(user: Object, detail: string): Http.Reply<Object>
  {
    if !TruthyAt(user, "is_instructor") then Http.Refused(403, detail) else Http.Done(user)
  }

  /** Both gates admit exactly the users `require_instructor` admits. */
  lemma GatesAgree(user: Object, detail: string)
    ensures InstructorOnly(user, detail).Done? <==> Dependencies.RequireInstructor(user).Done?
    ensures InstructorOnly(user, detail).Refused? ==> InstructorOnly(user, detail) == Http.Refused(403, detail)
  {
  }

  // ------------------------------------------------------------ bulk grading

  datatype BulkResult = BulkResult(userId: Json, grade: Json, status: string, message: string)

  datatype BulkSummary = BulkSummary(status: string, results: seq<BulkResult>, successful: nat, failed: nat)

  /** The result recorded for one submission: its user and grade (or `None`) and success. */
  function Submitted(submission: Object): BulkResult
  {
    BulkResult(Get(submission, "user_id").GetOr(JNull), Get(submission, "grade").GetOr(JNull),
               "success", "Grade submitted successfully")
  }

  /** `len([r for r in results if r["status"] == s])` */
  function CountStatus(results: seq<BulkResult>, s: string): (n: nat)
    ensures n <= |results|
  {
    if results == [] then 0
    else (if results[0].status == s then 1 else 0) + CountStatus(results[1..], s)
  }

  /** When every result has status `a` or `b`, the two counts add up to the number of results. */
  lemma {:induction false} CountPartition(results: seq<BulkResult>, a: string, b: string)
    requires a != b
    requires forall i :: 0 <= i < |results| ==> results[i].status == a || results[i].status == b
    ensures CountStatus(results, a) + CountStatus(results, b) == |results|
  {
    if results != [] {
      assert results[0].status == a || results[0].status == b;
      CountPartition(results[1..], a, b);
    }
  }

  /** When every result has status `s`, all of them are counted. */
  lemma {:induction false} CountAll(results: seq<BulkResult>, s: string)
    requires forall i :: 0 <= i < |results| ==> results[i].status == s
    ensures CountStatus(results, s) == |results|
  {
    if results != [] {
      CountAll(results[1..], s);
    }
  }

  /**
   * `submit_bulk_grades`: instructors only; one result per submission, in
   * input order, every one a success (nothing in the loop body can raise),
   * and the two counts cover all the results.
   */
  method SubmitBulkGrades(user: Object, submissions: seq<Object>) returns (r: Http.Reply<BulkSummary>)
    ensures !TruthyAt(user, "is_instructor") <==> r == Http.Refused(403, BulkRefusal)
    ensures TruthyAt(user, "is_instructor") ==> r.Done? && r.value.status == "completed"
    ensures r.Done? ==> |r.value.results| == |submissions|
    ensures r.Done? ==> forall i :: 0 <= i < |submissions| ==> r.value.results[i] == Submitted(submissions[i])
    ensures r.Done? ==> r.value.successful == |submissions| && r.value.failed == 0
    ensures r.Done? ==> r.value.successful + r.value.failed == |r.value.results|
  {
    if !TruthyAt(user, "is_instructor") {
      return Http.Refused(403, BulkRefusal);
    }
    var results: seq<BulkResult> := [];
    for i := 0 to |submissions|
      invariant |results| == i
      invariant forall j :: 0 <= j < i ==> results[j] == Submitted(submissions[j])
    {
      results := results + [Submitted(submissions[i])];
    }
    CountAll(results, "success");
    CountPartition(results, "success", "error");
    r := Http.Done(BulkSummary("completed", results, CountStatus(results, "success"), CountStatus(results, "error")));
  }
}
