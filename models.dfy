/**
 * The enumerations and records of the LTI data model: the seven role IRIs of
 * the LIS v2 vocabulary the tool knows, the three LTI 1.3 message types, the
 * LTI 1.3 and legacy user records and the grade pass-back request, each with
 * the defaults of its optional fields.
 */
module Models {
  import opened Wrappers
  import opened JsonValues
  import Strings

  /** The common prefix of the LIS v2 role vocabulary. */
  const LisV2: string := "http://purl.imsglobal.org/vocab/lis/v2/"

  datatype LtiRole =
    | Administrator
    | Instructor
    | Learner
    | TeachingAssistant
    | ContentDeveloper
    | Mentor
    | Member
  {
    /** The enumeration value: the role's IRI. */
    function Iri(): string
    {
      LisV2 + Suffix()
    }

    /** The part of the IRI after the LIS v2 prefix. */
    function Suffix(): string
    {
      match this
      case Administrator => "institution/person#" + "Administrator"
      case Instructor => "membership#" + "Instructor"
      case Learner => "membership#" + "Learner"
      case TeachingAssistant => "membership/" + "Instructor" + "#" + "Teaching" + "Assistant"
      case ContentDeveloper => "membership#" + "ContentDeveloper"
      case Mentor => "membership#" + "Mentor"
      case Member => "membership#" + "Member"
    }
  }

  /** The role whose value is a given IRI, as `LTIRole(value)` looks it up. */
  function RoleOfIri(iri: string): (r: Option<LtiRole>)
    ensures r.Some? ==> r.value.Iri() == iri
  {
    if iri == Administrator.Iri() then Some(Administrator)
    else if iri == Instructor.Iri() then Some(Instructor)
    else if iri == Learner.Iri() then Some(Learner)
    else if iri == TeachingAssistant.Iri() then Some(TeachingAssistant)
    else if iri == ContentDeveloper.Iri() then Some(ContentDeveloper)
    else if iri == Mentor.Iri() then Some(Mentor)
    else if iri == Member.Iri() then Some(Member)
    else None
  }

  /** Two IRIs with the common prefix are equal iff their suffixes are. */
  lemma IriEqualIffSuffix(r1: LtiRole, r2: LtiRole)
    ensures r1.Iri() == r2.Iri() <==> r1.Suffix() == r2.Suffix()
  {
    if r1.Iri() == r2.Iri() {
      assert r1.Suffix() == r1.Iri()[|LisV2|..] == r2.Iri()[|LisV2|..] == r2.Suffix();
    }
  }

  /** The seven IRIs are pairwise distinct, so looking a role up by its IRI gives it back. */
  lemma RoleIriRoundTrip(r: LtiRole)
    ensures RoleOfIri(r.Iri()) == Some(r)
  {
    forall r2: LtiRole | r2 != r ensures r.Iri() != r2.Iri() {
      IriEqualIffSuffix(r, r2);
      SuffixesDistinct(r, r2);
    }
  }

  lemma SuffixesDistinct(r1: LtiRole, r2: LtiRole)
    requires r1 != r2
    ensures r1.Suffix() != r2.Suffix()
  {
    var s1, s2 := r1.Suffix(), r2.Suffix();
    if |s1| == |s2| && s1[0] == s2[0] {
      // Only MENTOR and MEMBER share a length; they differ at offset 13.
      assert s1[13] != s2[13];
    }
  }

  lemma RoleIrisDistinct(r1: LtiRole, r2: LtiRole)
    requires r1 != r2
    ensures r1.Iri() != r2.Iri()
  {
    RoleIriRoundTrip(r1);
    RoleIriRoundTrip(r2);
  }

  /** For a pattern starting with a capital letter, containment in an IRI is containment in its suffix. */
  lemma ContainsInSuffix(r: LtiRole, t: string)
    requires |t| > 0 && 'A' <= t[0] <= 'Z'
    ensures Strings.Contains(r.Iri(), t) <==> Strings.Contains(r.Suffix(), t)
  {
    NoCapitalInPrefix(t[0]);
    var suffix := r.Suffix();
    Strings.ContainsAfterPrefix(LisV2, suffix, t);
  }

  /** The common prefix of the role IRIs has no capital letter. */
  lemma NoCapitalInPrefix(c: char)
    requires 'A' <= c <= 'Z'
    ensures c !in LisV2
  {
  }

  /** Of the seven IRIs only INSTRUCTOR and TEACHING_ASSISTANT contain `Instructor`. */
  lemma IriContainsInstructor(r: LtiRole)
    ensures Strings.Contains(r.Iri(), "Instructor") <==> (r == Instructor || r == TeachingAssistant)
  {
    ContainsInSuffix(r, "Instructor");
    SuffixContainsInstructor(r);
  }

  lemma SuffixContainsInstructor(r: LtiRole)
    ensures Strings.Contains(r.Suffix(), "Instructor") <==> (r == Instructor || r == TeachingAssistant)
  {
    if r == Instructor || r == TeachingAssistant {
      InstructorSuffixes();
    } else {
      Strings.FirstCharAbsent(r.Suffix(), "Instructor");
    }
  }

  /** The two suffixes that contain `Instructor`. */
  lemma InstructorSuffixes()
    ensures Strings.Contains(Instructor.Suffix(), "Instructor")
    ensures Strings.Contains(TeachingAssistant.Suffix(), "Instructor")
  {
    Strings.ContainsMiddle("membership#", "Instructor", []);
    assert "membership#" + "Instructor" + [] == Instructor.Suffix();
    Strings.ContainsMiddle("membership/", "Instructor", "#" + "Teaching" + "Assistant");
    assert "membership/" + "Instructor" + ("#" + "Teaching" + "Assistant") == TeachingAssistant.Suffix();
  }

  /** Only LEARNER contains `Learner`. */
  lemma IriContainsLearner(r: LtiRole)
    ensures Strings.Contains(r.Iri(), "Learner") <==> r == Learner
  {
    ContainsInSuffix(r, "Learner");
    SuffixContainsLearner(r);
  }

  lemma SuffixContainsLearner(r: LtiRole)
    ensures Strings.Contains(r.Suffix(), "Learner") <==> r == Learner
  {
    if r == Learner {
      Strings.ContainsMiddle("membership#", "Learner", []);
      assert "membership#" + "Learner" + [] == r.Suffix();
    } else {
      Strings.FirstCharAbsent(r.Suffix(), "Learner");
    }
  }

  /** Only ADMINISTRATOR contains `Administrator` (TEACHING_ASSISTANT's `Assistant` is too short). */
  lemma IriContainsAdministrator(r: LtiRole)
    ensures Strings.Contains(r.Iri(), "Administrator") <==> r == Administrator
  {
    ContainsInSuffix(r, "Administrator");
    SuffixContainsAdministrator(r);
  }

  lemma SuffixContainsAdministrator(r: LtiRole)
    ensures Strings.Contains(r.Suffix(), "Administrator") <==> r == Administrator
  {
    if r == Administrator {
      Strings.ContainsMiddle("institution/person#", "Administrator", []);
      assert "institution/person#" + "Administrator" + [] == r.Suffix();
    } else if r == TeachingAssistant {
      AssistantIsNotAdministrator();
    } else {
      Strings.FirstCharAbsent(r.Suffix(), "Administrator");
    }
  }

  /** TEACHING_ASSISTANT starts its last word with `A`, but `Assistant` is shorter than `Administrator`. */
  lemma AssistantIsNotAdministrator()
    ensures !Strings.Contains(TeachingAssistant.Suffix(), "Administrator")
  {
    var front := "membership/" + "Instructor" + "#" + "Teaching";
    Strings.ShorterNotContains("Assistant", "Administrator");
    Strings.NotContainsAfterPrefix(front, "Assistant", "Administrator");
    assert front + "Assistant" == TeachingAssistant.Suffix();
  }

  /** Only TEACHING_ASSISTANT contains `TeachingAssistant`. */
  lemma IriContainsTeachingAssistant(r: LtiRole)
    ensures Strings.Contains(r.Iri(), "TeachingAssistant") <==> r == TeachingAssistant
  {
    ContainsInSuffix(r, "TeachingAssistant");
    SuffixContainsTeachingAssistant(r);
  }

  lemma SuffixContainsTeachingAssistant(r: LtiRole)
    ensures Strings.Contains(r.Suffix(), "TeachingAssistant") <==> r == TeachingAssistant
  {
    if r == TeachingAssistant {
      var front := "membership/" + "Instructor" + "#";
      Strings.ContainsMiddle(front, "TeachingAssistant", []);
      assert front + "TeachingAssistant" + [] == r.Suffix();
    } else {
      Strings.FirstCharAbsent(r.Suffix(), "TeachingAssistant");
    }
  }

  datatype MessageType = ResourceLinkRequest | DeepLinkingRequest | SubmissionReviewRequest
  {
    function Value(): string
    {
      match this
      case ResourceLinkRequest => "LtiResourceLinkRequest"
      case DeepLinkingRequest => "LtiDeepLinkingRequest"
      case SubmissionReviewRequest => "LtiSubmissionReviewRequest"
    }
  }

  /** The message types the launch validator accepts without a warning. */
  const SupportedMessageTypes: seq<string> :=
    ["LtiResourceLinkRequest", "LtiDeepLinkingRequest", "LtiSubmissionReviewRequest"]

  /** `LTI13MessageType(value)` */
  function MessageTypeOfValue(s: string): (r: Option<MessageType>)
    ensures r.Some? ==> r.value.Value() == s
  {
    if s == "LtiResourceLinkRequest" then Some(ResourceLinkRequest)
    else if s == "LtiDeepLinkingRequest" then Some(DeepLinkingRequest)
    else if s == "LtiSubmissionReviewRequest" then Some(SubmissionReviewRequest)
    else None
  }

  /**
   * The enumeration is exactly the set of message types the validator supports:
   * a string is a supported type iff it is the value of a member.
   */
  lemma MessageTypesAreSupported(s: string)
    ensures s in SupportedMessageTypes <==> MessageTypeOfValue(s).Some?
    ensures forall m: MessageType :: MessageTypeOfValue(m.Value()) == Some(m)
  {
    forall m: MessageType ensures MessageTypeOfValue(m.Value()) == Some(m) {
      match m {
        case ResourceLinkRequest =>
        case DeepLinkingRequest =>
          assert m.Value()[3] == 'D';
        case SubmissionReviewRequest =>
          assert m.Value()[3] == 'S';
      }
    }
  }

  /** An LTI 1.3 user; the three identifiers are required, the rest have defaults. */
  datatype Lti13User = Lti13User(
    userId: string,
    resourceLinkId: string,
    deploymentId: string,
    launchTimestamp: real,
    name: Option<string> := None,
    givenName: Option<string> := None,
    familyName: Option<string> := None,
    email: Option<string> := None,
    picture: Option<string> := None,
    roles: seq<LtiRole> := [],
    contextId: Option<string> := None,
    contextTitle: Option<string> := None,
    contextLabel: Option<string> := None,
    resourceLinkTitle: Option<string> := None,
    platformName: Option<string> := None,
    messageType: MessageType := ResourceLinkRequest,
    customParameters: Object := map[])

  /** The legacy (LTI 1.1) user: it has no `is_instructor` attribute. */
  datatype LtiUser = LtiUser(
    userId: string,
    resourceLinkId: string,
    launchTimestamp: real,
    fullName: Option<string> := None,
    email: Option<string> := None,
    roles: seq<LtiRole> := [],
    contextId: Option<string> := None,
    contextTitle: Option<string> := None)

  /** A grade pass-back request: `score` and `max_score` (default 100.0); there is no `grade`. */
  datatype GradePassbackRequest = GradePassbackRequest(
    userId: string,
    score: real,
    maxScore: real := 100.0,
    comment: Option<string> := None,
    activityId: Option<string> := None)

  /** Attribute access on a `GradePassbackRequest`: its five fields, an error for anything else. */
  function PassbackAttribute(g: GradePassbackRequest, attr: string): (r: Result<Json>)
    ensures r.Ok? <==> attr in {"user_id", "score", "max_score", "comment", "activity_id"}
    ensures r.Raised? ==> r.message == NoAttribute("GradePassbackRequest", attr)
  {
    if attr == "user_id" then Ok(JStr(g.userId))
    else if attr == "score" then Ok(JFloat(g.score))
    else if attr == "max_score" then Ok(JFloat(g.maxScore))
    else if attr == "comment" then Ok(OptionalString(g.comment))
    else if attr == "activity_id" then Ok(OptionalString(g.activityId))
    else Raised(NoAttribute("GradePassbackRequest", attr))
  }

  /** Attribute access on an `LTIUser`: its eight fields, an error for anything else. */
  function LtiUserAttribute(u: LtiUser, attr: string): (r: Result<Json>)
    ensures r.Ok? <==> attr in {"user_id", "full_name", "email", "roles", "context_id",
                                "context_title", "resource_link_id", "launch_timestamp"}
    ensures r.Raised? ==> r.message == NoAttribute("LTIUser", attr)
  {
    if attr == "user_id" then Ok(JStr(u.userId))
    else if attr == "full_name" then Ok(OptionalString(u.fullName))
    else if attr == "email" then Ok(OptionalString(u.email))
    else if attr == "roles" then Ok(RoleValues(u.roles))
    else if attr == "context_id" then Ok(OptionalString(u.contextId))
    else if attr == "context_title" then Ok(OptionalString(u.contextTitle))
    else if attr == "resource_link_id" then Ok(JStr(u.resourceLinkId))
    else if attr == "launch_timestamp" then Ok(JFloat(u.launchTimestamp))
    else Raised(NoAttribute("LTIUser", attr))
  }

  /** The models have no `grade` and no `is_instructor` attribute. */
  lemma MissingAttributes(g: GradePassbackRequest, u: LtiUser)
    ensures PassbackAttribute(g, "grade") == Raised(NoAttribute("GradePassbackRequest", "grade"))
    ensures LtiUserAttribute(u, "is_instructor") == Raised(NoAttribute("LTIUser", "is_instructor"))
  {
  }

  function OptionalString(o: Option<string>): (j: Json)
    ensures o.None? <==> j == JNull
  {
    match o
    case None => JNull
    case Some(s) => JStr(s)
  }

  /** `[role.value for role in roles]` */
  function RoleValues(roles: seq<LtiRole>): (j: Json)
    ensures j.JArr? && |j.items| == |roles|
    ensures forall i :: 0 <= i < |roles| ==> j.items[i] == JStr(roles[i].Iri())
  {
    JArr(seq(|roles|, i requires 0 <= i < |roles| => JStr(roles[i].Iri())))
  }
}
