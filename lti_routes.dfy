/**
 * The legacy LTI 1.1 routes: the launch that checks the OAuth 1.0 signature of
 * a Basic LTI launch form, maps its comma-separated roles and opens a session,
 * and the two debugging endpoints that exist only under `DEBUG`.
 *
 * The inbound signature check (`LTISignatureValidator`) is not part of this
 * model: it is a parameter, as are the OAuth signer of the test endpoint, the
 * clock and the session-token issuer.
 */
module LtiRoutes {
  import opened Wrappers
  import opened JsonValues
  import opened Config
  import Strings
  import Dicts
  import Http
  import Models
  import Lti13Routes

  // ----------------------------------------------------------- debug gating

  const NotFound: string := "Not found"

  /** The shared secret as the debug launch shows it: its first four characters and `***`, nothing when empty. */
  function MaskedSecret(secret: string): Option<string>
  {
    if secret == [] then None
    else Some((if |secret| <= 4 then secret else secret[..4]) + "***")
  }

  /**
   * The mask shows at most the first four characters of the secret, followed
   * by `***`; a secret of four characters or more always shows exactly four.
   */
  lemma MaskShowsPrefix(secret: string)
    ensures MaskedSecret(secret).None? <==> secret == []
    ensures MaskedSecret(secret).Some? ==>
      var m := MaskedSecret(secret).value;
      && |m| <= 7 && m[|m| - 3..] == "***"
      && m[..|m| - 3] <= secret
      && (|secret| >= 4 ==> |m| == 7)
  {
  }

  /** Two secrets that share their first four characters give the same mask: nothing after them leaks. */
  lemma MaskHidesRest(s1: string, s2: string)
    requires |s1| >= 4 && |s2| >= 4 && s1[..4] == s2[..4]
    ensures MaskedSecret(s1) == MaskedSecret(s2)
  {
    if |s1| == 4 {
      assert s1 == s1[..4];
    }
    if |s2| == 4 {
      assert s2 == s2[..4];
    }
  }

  /** What `debug_lti_launch` echoes back. */
  datatype DebugEcho = DebugEcho(url: string, httpMethod: string, headers: Dicts.Items<string>,
                                 formData: map<string, string>, clientHost: string, expectedConsumerKey: string,
                                 expectedSharedSecret: Option<string>)

  /** `debug_lti_launch`: 404 unless `DEBUG`, otherwise the request as received and the masked secret. */
  function DebugLaunch(cfg: Settings, url: string, httpMethod: string, headers: Dicts.Items<string>,
                       form: map<string, string>, clientHost: string): Http.Reply<DebugEcho>
  {
    if !cfg.debug then Http.Refused(404, NotFound)
    else Http.Done(DebugEcho(url, httpMethod, headers, form, clientHost, cfg.consumerKey, MaskedSecret(cfg.sharedSecret)))
  }

  /** The fixed launch parameters `test_signature` signs, with `oauth_timestamp` the clock reading. */
  function TestParams(cfg: Settings, timestamp: int): Dicts.Items<string>
  {
    [("lti_message_type", "basic-lti-launch-request"),
     ("lti_version", "LTI-1p0"),
     ("resource_link_id", "test_resource_123"),
     ("oauth_consumer_key", cfg.consumerKey),
     ("oauth_signature_method", "HMAC-SHA1"),
     ("oauth_timestamp", Strings.IntToString(timestamp)),
     ("oauth_nonce", "test_nonce_12345"),
     ("oauth_version", "1.0"),
     ("user_id", "test_user"),
     ("context_id", "test_context")]
  }

  /** Python `s.rsplit(c, 1)[0]`: the part before the last `c`, or all of `s` without one. */
  function RSplitHead(s: string, c: char): string
    decreases |s|
  {
    if c !in s then s
    else if s[|s| - 1] == c then s[..|s| - 1]
    else RSplitHead(s[..|s| - 1], c)
  }

  /** The head of `rsplit` is followed by the last `c`, after which no `c` occurs. */
  lemma {:induction false} RSplitHeadLast(s: string, c: char)
    requires c in s
    ensures var h := RSplitHead(s, c);
      |h| < |s| && s[..|h|] == h && s[|h|] == c && c !in s[|h| + 1..]
    decreases |s|
  {
    if s[|s| - 1] != c {
      var p := s[..|s| - 1];
      assert c in p by {
        var i :| 0 <= i < |s| && s[i] == c;
        assert i < |s| - 1 && p[i] == c;
      }
      RSplitHeadLast(p, c);
      var h := RSplitHead(p, c);
      assert s[|h| + 1..] == p[|h| + 1..] + [s[|s| - 1]];
    }
  }

  /** What `test_signature` answers: the URL, the signed parameters, the signature and where to check it. */
  datatype SignatureProbe = SignatureProbe(testUrl: string, testParams: Dicts.Items<string>, signature: string,
                                           consumerKey: string, validationUrl: string)

  /**
   * `test_signature`: `timestamp` is `int(time.time())` and `sign` the
   * validator's `generate_signature(method, url, params, secret)`.
   */
  function TestSignature(cfg: Settings, timestamp: int, sign: (string, string, Dicts.Items<string>, string) -> string)
    : Http.Reply<SignatureProbe>
  {
    if !cfg.debug then Http.Refused(404, NotFound)
    else
      var params := TestParams(cfg, timestamp);
      var signature := sign("POST", cfg.launchUrl, params, cfg.sharedSecret);
      Http.Done(SignatureProbe(cfg.launchUrl, Dicts.Put(params, "oauth_signature", signature), signature,
                               cfg.consumerKey, RSplitHead(cfg.launchUrl, '/') + "/debug-launch"))
  }

  /** Both debug endpoints answer 404 exactly when `DEBUG` is off. */
  lemma DebugGated(cfg: Settings, url: string, httpMethod: string, headers: Dicts.Items<string>,
                   form: map<string, string>, clientHost: string, timestamp: int,
                   sign: (string, string, Dicts.Items<string>, string) -> string)
    ensures !cfg.debug <==> DebugLaunch(cfg, url, httpMethod, headers, form, clientHost) == Http.Refused(404, NotFound)
    ensures !cfg.debug <==> TestSignature(cfg, timestamp, sign) == Http.Refused(404, NotFound)
    ensures cfg.debug ==> DebugLaunch(cfg, url, httpMethod, headers, form, clientHost).value.expectedSharedSecret
                          == MaskedSecret(cfg.sharedSecret)
  {
  }

  /** `oauth_signature` is not one of the test parameters. */
  lemma TestParamsUnsigned(cfg: Settings, timestamp: int)
    ensures !Dicts.HasKey(TestParams(cfg, timestamp), "oauth_signature")
  {
    var ks := Dicts.Keys(TestParams(cfg, timestamp));
    assert forall i :: 0 <= i < |ks| ==> |ks[i]| != 15 || ks[i][6] == 't';
  }

  /**
   * The test signature is computed over the ten parameters without
   * `oauth_signature`, which is then appended to them; the validation URL is
   * the launch URL's directory followed by `/debug-launch`.
   */
  lemma ProbeSigned(cfg: Settings, timestamp: int, sign: (string, string, Dicts.Items<string>, string) -> string)
    requires cfg.debug
    ensures var probe := TestSignature(cfg, timestamp, sign).value;
      && probe.signature == sign("POST", cfg.launchUrl, TestParams(cfg, timestamp), cfg.sharedSecret)
      && probe.testParams == TestParams(cfg, timestamp) + [("oauth_signature", probe.signature)]
      && probe.validationUrl == RSplitHead(cfg.launchUrl, '/') + "/debug-launch"
  {
    TestParamsUnsigned(cfg, timestamp);
  }

  /** The head of `rsplit` is everything before a last `c`. */
  lemma {:induction false} RSplitHeadOf(h: string, c: char, t: string)
    requires c !in t
    ensures RSplitHead(h + [c] + t, c) == h
    decreases |t|
  {
    var s := h + [c] + t;
    assert s[|h|] == c;
    if t != [] {
      assert s[..|s| - 1] == h + [c] + t[..|t| - 1];
      RSplitHeadOf(h, c, t[..|t| - 1]);
    } else {
      assert s[..|s| - 1] == h;
    }
  }

  /**
   * A launch URL ending in `/launch` (as the default `.../lti/launch` does)
   * has its signature checked at the sibling `/debug-launch`.
   */
  lemma SiblingValidationUrl(h: string)
    ensures RSplitHead(h + "/launch", '/') + "/debug-launch" == h + "/debug-launch"
  {
    assert h + "/launch" == h + ['/'] + "launch";
    RSplitHeadOf(h, '/', "launch");
  }

  // ------------------------------------------------------------- lti_launch

  /** `str(request.url).split('?')[0]`: the URL the signature was computed over. */
  function LaunchUrl(url: string): string
  {
    Strings.Split(url, '?')[0]
  }

  /** The launch URL is the request URL up to its first `?`. */
  lemma LaunchUrlBeforeQuery(url: string)
    ensures var l := LaunchUrl(url);
      && l <= url && '?' !in l
      && (|l| < |url| ==> url[|l|] == '?')
  {
    var parts := Strings.Split(url, '?');
    Strings.JoinSplit(url, '?');
    if |parts| > 1 {
      assert url == parts[0] + ['?'] + Strings.Join(parts[1..], ['?']);
    }
  }

  /** The entries of the `roles` parameter: none when it is absent or empty. */
  function RoleEntries(form: map<string, string>): seq<string>
  {
    if "roles" in form && form["roles"] != [] then Strings.Split(form["roles"], ',') else []
  }

  /** The first of the four tests that holds decides the role; none gives MEMBER. */
  function LegacyRoleByTests(instructor: bool, learner: bool, assistant: bool, administrator: bool): Models.LtiRole
  {
    if instructor then Models.Instructor
    else if learner then Models.Learner
    else if assistant then Models.TeachingAssistant
    else if administrator then Models.Administrator
    else Models.Member
  }

  /** The role of one entry after stripping: Instructor/Teacher, Student/Learner, TeachingAssistant, Administrator. */
  function LegacyRole(entry: string): Models.LtiRole
  {
    var e := Strings.Strip(entry);
    LegacyRoleByTests(Strings.Contains(e, "Instructor") || Strings.Contains(e, "Teacher"),
                      Strings.Contains(e, "Student") || Strings.Contains(e, "Learner"),
                      Strings.Contains(e, "TeachingAssistant"),
                      Strings.Contains(e, "Administrator"))
  }

  /** `user_roles`: one role per entry, in order. */
  function LegacyRoles(form: map<string, string>): seq<Models.LtiRole>
  {
    var entries := RoleEntries(form);
    seq(|entries|, i requires 0 <= i < |entries| => LegacyRole(entries[i]))
  }

  /** `user_roles` as the launch loop fills it. */
  method ParseRoles(form: map<string, string>) returns (roles: seq<Models.LtiRole>)
    ensures roles == LegacyRoles(form)
  {
    roles := [];
    if "roles" in form && form["roles"] != [] {
      var roleStrings := Strings.Split(form["roles"], ',');
      for i := 0 to |roleStrings|
        invariant roles == seq(i, j requires 0 <= j < i => LegacyRole(roleStrings[j]))
      {
        var roleStr := Strings.Strip(roleStrings[i]);
        var role: Models.LtiRole;
        if Strings.Contains(roleStr, "Instructor") || Strings.Contains(roleStr, "Teacher") {
          role := Models.Instructor;
        } else if Strings.Contains(roleStr, "Student") || Strings.Contains(roleStr, "Learner") {
          role := Models.Learner;
        } else if Strings.Contains(roleStr, "TeachingAssistant") {
          role := Models.TeachingAssistant;
        } else if Strings.Contains(roleStr, "Administrator") {
          role := Models.Administrator;
        } else {
          role := Models.Member;
        }
        roles := roles + [role];
      }
    }
  }

  /**
   * Stripping never changes a role: the tests give the same answer on the
   * entry as received, since none of the words starts or ends with
   * whitespace.
   */
  lemma LegacyRoleUnstripped(entry: string)
    ensures LegacyRole(entry) == LegacyRoleByTests(
      Strings.Contains(entry, "Instructor") || Strings.Contains(entry, "Teacher"),
      Strings.Contains(entry, "Student") || Strings.Contains(entry, "Learner"),
      Strings.Contains(entry, "TeachingAssistant"),
      Strings.Contains(entry, "Administrator"))
  {
    var e := Strings.Strip(entry);
    assert Strings.Contains(e, "Instructor") == Strings.Contains(entry, "Instructor") by {
      Strings.StripContains(entry, "Instructor");
    }
    assert Strings.Contains(e, "Teacher") == Strings.Contains(entry, "Teacher") by {
      Strings.StripContains(entry, "Teacher");
    }
    assert Strings.Contains(e, "Student") == Strings.Contains(entry, "Student") by {
      Strings.StripContains(entry, "Student");
    }
    assert Strings.Contains(e, "Learner") == Strings.Contains(entry, "Learner") by {
      Strings.StripContains(entry, "Learner");
    }
    assert Strings.Contains(e, "TeachingAssistant") == Strings.Contains(entry, "TeachingAssistant") by {
      Strings.StripContains(entry, "TeachingAssistant");
    }
    assert Strings.Contains(e, "Administrator") == Strings.Contains(entry, "Administrator") by {
      Strings.StripContains(entry, "Administrator");
    }
  }

  /**
   * The legacy order differs from the LTI 1.3 one: an entry naming both a
   * teaching assistant and an administrator (and no instructor or learner
   * word) is a TEACHING_ASSISTANT here and an ADMINISTRATOR in a 1.3 launch.
   */
  lemma LegacyOrderDiffers(entry: string)
    requires Strings.Contains(entry, "TeachingAssistant") && Strings.Contains(entry, "Administrator")
    requires !Strings.Contains(entry, "Instructor") && !Strings.Contains(entry, "Teacher")
    requires !Strings.Contains(entry, "Student") && !Strings.Contains(entry, "Learner")
    ensures LegacyRole(entry) == Models.TeachingAssistant
    ensures Lti13Routes.RoleOf13(JStr(entry)) == Ok(Models.Administrator)
  {
    LegacyRoleUnstripped(entry);
  }

  /** A form value as `request_data.get(k)`: the string, or `None`. */
  function FormValue(form: map<string, string>, k: string): Json
  {
    if k in form then JStr(form[k]) else JNull
  }

  function FormText(form: map<string, string>, k: string, default: string): string
  {
    if k in form then form[k] else default
  }

  function FormOpt(form: map<string, string>, k: string): Option<string>
  {
    if k in form then Some(form[k]) else None
  }

  /**
   * The `LTIUser` of a launch: `user_id` and `resource_link_id` default to
   * `unknown`, the full name to `Unknown User`. The given and family names
   * are passed too but the model has no such fields, so they are dropped.
   */
  function LegacyUser(form: map<string, string>, roles: seq<Models.LtiRole>, launchTime: real): Models.LtiUser
  {
    Models.LtiUser(
      userId := FormText(form, "user_id", "unknown"),
      resourceLinkId := FormText(form, "resource_link_id", "unknown"),
      launchTimestamp := launchTime,
      fullName := Some(FormText(form, "lis_person_name_full", "Unknown User")),
      email := FormOpt(form, "lis_person_contact_email_primary"),
      roles := roles,
      contextId := FormOpt(form, "context_id"),
      contextTitle := FormOpt(form, "context_title"))
  }

  /** Whether a legacy user is an instructor: the INSTRUCTOR role is among theirs. */
  predicate IsInstructor(u: Models.LtiUser)
  {
    Models.Instructor in u.roles
  }

  /** The session claims of a legacy launch, `is_instructor` given by `flag`. */
  function ClaimsWith(u: Models.LtiUser, form: map<string, string>, flag: Json): Dicts.Items<Json>
  {
    [("user_id", JStr(u.userId)),
     ("full_name", Models.OptionalString(u.fullName)),
     ("email", Models.OptionalString(u.email)),
     ("roles", Models.RoleValues(u.roles)),
     ("is_instructor", flag),
     ("context_id", Models.OptionalString(u.contextId)),
     ("context_title", Models.OptionalString(u.contextTitle)),
     ("resource_link_id", JStr(u.resourceLinkId)),
     ("lis_outcome_service_url", FormValue(form, "lis_outcome_service_url")),
     ("lis_result_sourcedid", FormValue(form, "lis_result_sourcedid"))]
  }

  /**
   * `token_data` as written. The user model declares its roles as plain
   * strings, to which the role members are converted, so `role.value` fails
   * for the first role; with no roles, reading `lti_user.is_instructor`, which
   * an `LTIUser` does not have, fails next.
   */
  function ClaimsAsWritten(u: Models.LtiUser, form: map<string, string>): Result<Dicts.Items<Json>>
  {
    if u.roles != [] then Raised(NoAttribute("str", "value"))
    else match Models.LtiUserAttribute(u, "is_instructor")
      case Raised(m) => Raised(m)
      case Ok(flag) => Ok(ClaimsWith(u, form, flag))
  }

  /** `token_data` with `is_instructor` derived from the roles. */
  function LegacyClaims(u: Models.LtiUser, form: map<string, string>): Dicts.Items<Json>
  {
    ClaimsWith(u, form, JBool(IsInstructor(u)))
  }

  /** The ten claim names are distinct. */
  lemma ClaimsUnique(u: Models.LtiUser, form: map<string, string>, flag: Json)
    ensures Dicts.UniqueKeys(ClaimsWith(u, form, flag))
  {
    var d := ClaimsWith(u, form, flag);
    assert |d[0].0| == 7 && |d[1].0| == 9 && |d[2].0| == 5 && |d[3].0| == 5 && |d[4].0| == 13;
    assert |d[5].0| == 10 && |d[6].0| == 13 && |d[7].0| == 16 && |d[8].0| == 23 && |d[9].0| == 20;
    assert d[2].0[0] == 'e' && d[3].0[0] == 'r' && d[4].0[0] == 'i' && d[6].0[0] == 'c';
  }

  /**
   * The session of a legacy launch names the user and says whether they are
   * an instructor, and copies the outcome service URL and the result
   * sourcedid verbatim from the launch form (`None` when absent).
   */
  lemma LegacyClaimsFields(u: Models.LtiUser, form: map<string, string>)
    ensures var d := LegacyClaims(u, form);
      && Dicts.Lookup(d, "user_id") == Some(JStr(u.userId))
      && Dicts.Lookup(d, "roles") == Some(Models.RoleValues(u.roles))
      && Dicts.Lookup(d, "is_instructor") == Some(JBool(IsInstructor(u)))
      && Dicts.Lookup(d, "resource_link_id") == Some(JStr(u.resourceLinkId))
      && Dicts.Lookup(d, "lis_outcome_service_url") == Some(FormValue(form, "lis_outcome_service_url"))
      && Dicts.Lookup(d, "lis_result_sourcedid") == Some(FormValue(form, "lis_result_sourcedid"))
      && Dicts.UniqueKeys(d)
  {
    var d := LegacyClaims(u, form);
    ClaimsUnique(u, form, JBool(IsInstructor(u)));
    Dicts.LookupAt(d, 0);
    Dicts.LookupAt(d, 3);
    Dicts.LookupAt(d, 4);
    Dicts.LookupAt(d, 7);
    Dicts.LookupAt(d, 8);
    Dicts.LookupAt(d, 9);
  }

  /** The launch data the page shows. */
  function LaunchData(u: Models.LtiUser, form: map<string, string>, launchStamp: string): Dicts.Items<Json>
  {
    [("user_id", JStr(u.userId)),
     ("resource_link_id", JStr(u.resourceLinkId)),
     ("lis_outcome_service_url", FormValue(form, "lis_outcome_service_url")),
     ("lis_result_sourcedid", FormValue(form, "lis_result_sourcedid")),
     ("launch_timestamp", JStr(launchStamp))]
  }

  /** What the signature check reports. */
  datatype SignatureCheck = SignatureCheck(valid: bool, errors: seq<string>, warnings: seq<string>)

  /** What the launch page is rendered with. */
  datatype LegacyPage = LegacyPage(user: Models.LtiUser, sessionToken: string, launchData: Dicts.Items<Json>)

  /**
   * `lti_launch` as written: `validate` is `validate_lti_request(data, url,
   * method)`, `launchTime` and `launchStamp` the two readings of the clock,
   * `issue` the session-token issuer.
   */
  function LaunchAsWritten(url: string, form: map<string, string>,
                           validate: (map<string, string>, string, string) -> SignatureCheck,
                           launchTime: real, launchStamp: string, issue: Lti13Routes.TokenIssuer)
    : Http.Reply<LegacyPage>
  {
    var check := validate(form, LaunchUrl(url), "POST");
    if !check.valid then Http.Refused(401, "Invalid LTI request: " + Strings.Join(check.errors, ", "))
    else
      var u := LegacyUser(form, LegacyRoles(form), launchTime);
      match ClaimsAsWritten(u, form)
      case Raised(m) => Http.Crashed(m)
      case Ok(claims) =>
        match issue(claims)
        case Raised(m) => Http.Crashed(m)
        case Ok(token) => Http.Done(LegacyPage(u, token, LaunchData(u, form, launchStamp)))
  }

  /**
   * As written, no legacy launch ever succeeds: a form that fails the
   * signature check is refused with 401, and every other one ends in an
   * `AttributeError` (for `value` when the form names roles, for
   * `is_instructor` otherwise), which the application answers with 500.
   */
  lemma LaunchAsWrittenFails(url: string, form: map<string, string>,
                             validate: (map<string, string>, string, string) -> SignatureCheck,
                             launchTime: real, launchStamp: string, issue: Lti13Routes.TokenIssuer)
    ensures !LaunchAsWritten(url, form, validate, launchTime, launchStamp, issue).Done?
    ensures validate(form, LaunchUrl(url), "POST").valid ==>
      LaunchAsWritten(url, form, validate, launchTime, launchStamp, issue)
      == Http.Crashed(if RoleEntries(form) != [] then NoAttribute("str", "value") else NoAttribute("LTIUser", "is_instructor"))
  {
    Models.MissingAttributes(Models.GradePassbackRequest("", 0.0), LegacyUser(form, LegacyRoles(form), launchTime));
  }

  /** `lti_launch` with `is_instructor` derived from the roles. */
  function Launch(url: string, form: map<string, string>,
                  validate: (map<string, string>, string, string) -> SignatureCheck,
                  launchTime: real, launchStamp: string, issue: Lti13Routes.TokenIssuer)
    : Http.Reply<LegacyPage>
  {
    var check := validate(form, LaunchUrl(url), "POST");
    if !check.valid then Http.Refused(401, "Invalid LTI request: " + Strings.Join(check.errors, ", "))
    else
      var u := LegacyUser(form, LegacyRoles(form), launchTime);
      match issue(LegacyClaims(u, form))
      case Raised(m) => Http.Crashed(m)
      case Ok(token) => Http.Done(LegacyPage(u, token, LaunchData(u, form, launchStamp)))
  }

  /**
   * A launch is refused with 401 and the joined errors exactly when the
   * signature check over the query-less URL fails. Otherwise the page is shown
   * exactly when the session token can be issued (the launch ends in 500 with
   * the issuer's error when it cannot); the user has the defaults of
   * `LegacyUser`, one role per entry of the `roles` parameter, and is an
   * instructor exactly when some entry names an instructor or teacher.
   */
  lemma LaunchCases(url: string, form: map<string, string>,
                    validate: (map<string, string>, string, string) -> SignatureCheck,
                    launchTime: real, launchStamp: string, issue: Lti13Routes.TokenIssuer)
    ensures var check := validate(form, LaunchUrl(url), "POST");
      var r := Launch(url, form, validate, launchTime, launchStamp, issue);
      && (!check.valid <==> r == Http.Refused(401, "Invalid LTI request: " + Strings.Join(check.errors, ", ")))
      && (check.valid ==>
            var claims := LegacyClaims(LegacyUser(form, LegacyRoles(form), launchTime), form);
            (r.Done? <==> issue(claims).Ok?) && (issue(claims).Raised? ==> r == Http.Crashed(issue(claims).message)))
    ensures Launch(url, form, validate, launchTime, launchStamp, issue).Done? ==>
      var page := Launch(url, form, validate, launchTime, launchStamp, issue).value;
      && issue(LegacyClaims(page.user, form)) == Ok(page.sessionToken)
      && page.user.userId == FormText(form, "user_id", "unknown")
      && page.user.resourceLinkId == FormText(form, "resource_link_id", "unknown")
      && page.user.fullName == Some(FormText(form, "lis_person_name_full", "Unknown User"))
      && |page.user.roles| == |RoleEntries(form)|
      && (IsInstructor(page.user) <==>
            exists i :: 0 <= i < |RoleEntries(form)| &&
              (Strings.Contains(RoleEntries(form)[i], "Instructor") || Strings.Contains(RoleEntries(form)[i], "Teacher")))
  {
    if validate(form, LaunchUrl(url), "POST").valid {
      var entries := RoleEntries(form);
      var roles := LegacyRoles(form);
      forall i | 0 <= i < |entries|
        ensures roles[i] == Models.Instructor <==>
          (Strings.Contains(entries[i], "Instructor") || Strings.Contains(entries[i], "Teacher"))
      {
        LegacyRoleUnstripped(entries[i]);
      }
      assert Models.Instructor in roles <==> exists i :: 0 <= i < |roles| && roles[i] == Models.Instructor;
    }
  }

  /** `lti_launch`: the role loop, then the user, the session and the page. */
  method LtiLaunch(url: string, form: map<string, string>,
                   validate: (map<string, string>, string, string) -> SignatureCheck,
                   launchTime: real, launchStamp: string, issue: Lti13Routes.TokenIssuer)
    returns (r: Http.Reply<LegacyPage>)
    ensures r == Launch(url, form, validate, launchTime, launchStamp, issue)
  {
    var launchUrl := Strings.Split(url, '?')[0];
    var validationResult := validate(form, launchUrl, "POST");
    if !validationResult.valid {
      return Http.Refused(401, "Invalid LTI request: " + Strings.Join(validationResult.errors, ", "));
    }
    var userRoles := ParseRoles(form);
    var user := LegacyUser(form, userRoles, launchTime);
    var sessionToken := issue(LegacyClaims(user, form));
    if sessionToken.Raised? {
      return Http.Crashed(sessionToken.message);
    }
    r := Http.Done(LegacyPage(user, sessionToken.value, LaunchData(user, form, launchStamp)));
  }
}
