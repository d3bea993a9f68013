/**
 * The LTI 1.3 routes: the tool's key set (JWK Set, section 5 of RFC 7517),
 * OIDC login initiation (the third-party-initiated login of the LTI 1.3
 * security framework, answered with an authentication request as in section
 * 3.1.2.1 of OpenID Connect Core 1.0), the launch that turns a validated
 * `id_token` into a user and a session, and the health report.
 *
 * File reads, randomness (`state`, `nonce`), the clock and the JWT library are
 * parameters; the launch calls the validator object of `Lti13Validator`.
 */
module Lti13Routes {
  import opened Wrappers
  import opened JsonValues
  import opened Config
  import Strings
  import Dicts
  import Quoting
  import Http
  import Models
  import Lti13Validator

  // ---------------------------------------------------------------- get_jwks

  /** The tool's public key as a JWK with `kid`, `use` and `alg` written over it. */
  function TaggedKey(jwk: Dicts.Items<Json>, cfg: Settings): Dicts.Items<Json>
  {
    Dicts.Put(Dicts.Put(Dicts.Put(jwk, "kid", JStr(cfg.keyId)), "use", JStr("sig")), "alg", JStr("RS256"))
  }

  /**
   * The published key carries the configured key id, `use` = `sig` and
   * `alg` = `RS256`, and every other member of the converted key as it was.
   */
  lemma KeyTagged(jwk: Dicts.Items<Json>, cfg: Settings)
    ensures var t := TaggedKey(jwk, cfg);
      && Dicts.Lookup(t, "kid") == Some(JStr(cfg.keyId))
      && Dicts.Lookup(t, "use") == Some(JStr("sig"))
      && Dicts.Lookup(t, "alg") == Some(JStr("RS256"))
      && (forall k :: k !in {"kid", "use", "alg"} ==> Dicts.Lookup(t, k) == Dicts.Lookup(jwk, k))
      && (Dicts.UniqueKeys(jwk) ==> Dicts.UniqueKeys(t))
  {
    var t1 := Dicts.Put(jwk, "kid", JStr(cfg.keyId));
    var t2 := Dicts.Put(t1, "use", JStr("sig"));
    Dicts.PutOther(t1, "use", JStr("sig"), "kid");
    Dicts.PutOther(t2, "alg", JStr("RS256"), "kid");
    Dicts.PutOther(t2, "alg", JStr("RS256"), "use");
    forall k | k !in {"kid", "use", "alg"}
      ensures Dicts.Lookup(TaggedKey(jwk, cfg), k) == Dicts.Lookup(jwk, k)
    {
      Dicts.PutOther(jwk, "kid", JStr(cfg.keyId), k);
      Dicts.PutOther(t1, "use", JStr("sig"), k);
      Dicts.PutOther(t2, "alg", JStr("RS256"), k);
    }
    if Dicts.UniqueKeys(jwk) {
      Dicts.PutUnique(jwk, "kid", JStr(cfg.keyId));
      Dicts.PutUnique(t1, "use", JStr("sig"));
      Dicts.PutUnique(t2, "alg", JStr("RS256"));
    }
  }

  const JwksFailure: string := "Failed to generate JWKS"

  /**
   * `get_jwks`: `jwk` is the public key file read, loaded and converted by
   * `to_jwk`, or the exception any of those steps raises. The answer is the
   * `keys` list of the key set.
   */
  method GetJwks(cfg: Settings, jwk: Result<Dicts.Items<Json>>) returns (r: Http.Reply<seq<Dicts.Items<Json>>>)
    ensures jwk.Raised? ==> r == Http.Refused(500, JwksFailure)
    ensures jwk.Ok? ==> r == Http.Done([TaggedKey(jwk.value, cfg)])
  {
    if jwk.Raised? {
      return Http.Refused(500, JwksFailure);
    }
    var key := new Dicts.Dict(jwk.value);
    key.Set("kid", JStr(cfg.keyId));
    key.Set("use", JStr("sig"));
    key.Set("alg", JStr("RS256"));
    r := Http.Done([key.items]);
  }

  // --------------------------------------------------------------- oidc_login

  /** The parameters login initiation cannot do without, in the order they are checked. */
  const RequiredLoginParams: seq<string> := ["iss", "login_hint", "target_link_uri"]

  /** A `GET` reads the query string, any other method the form. */
  function LoginParams(httpMethod: string, query: map<string, string>, form: map<string, string>): map<string, string>
  {
    if httpMethod == "GET" then query else form
  }

  /** The required parameters the login did not carry, in order. */
  function MissingLoginParams(params: map<string, string>): (m: seq<string>)
    ensures m == [] <==> "iss" in params && "login_hint" in params && "target_link_uri" in params
  {
    Dicts.MissingKeysEmpty(RequiredLoginParams, params.Keys);
    assert forall n :: n in RequiredLoginParams <==> n == "iss" || n == "login_hint" || n == "target_link_uri";
    Dicts.MissingKeys(RequiredLoginParams, params.Keys)
  }

  /** `params.get(k)` on the login parameters. */
  function Param(params: map<string, string>, k: string): Option<string>
  {
    if k in params then Some(params[k]) else None
  }

  /** The nine parameters every authentication request carries, in order. */
  function AuthFixed(cfg: Settings, loginHint: string, state: string, nonce: string): Dicts.Items<string>
  {
    [("response_type", "id_token"),
     ("client_id", cfg.clientId),
     ("redirect_uri", cfg.launchUrl),
     ("login_hint", loginHint),
     ("state", state),
     ("nonce", nonce),
     ("response_mode", "form_post"),
     ("scope", "openid"),
     ("prompt", "none")]
  }

  /** `lti_message_hint` and `lti_deployment_id` copied from the login parameters when present. */
  function WithLoginHints(d: Dicts.Items<string>, params: map<string, string>): Dicts.Items<string>
  {
    CopyParam(CopyParam(d, params, "lti_message_hint"), params, "lti_deployment_id")
  }

  function AuthParams(cfg: Settings, params: map<string, string>, loginHint: string, state: string, nonce: string)
    : Dicts.Items<string>
  {
    WithLoginHints(AuthFixed(cfg, loginHint, state, nonce), params)
  }

  datatype Redirect = Redirect(status: int, url: string)

  /** What `oidc_login` answers for the login parameters and the generated `state` and `nonce`. */
  function LoginRedirect(cfg: Settings, params: map<string, string>, state: string, nonce: string): Http.Reply<Redirect>
  {
    var missing := MissingLoginParams(params);
    if missing != [] then Http.Refused(400, "Missing required parameters: " + StringListRepr(missing))
    else if params["iss"] != cfg.platformIssuer then Http.Refused(400, "Invalid issuer")
    else
      var query := Quoting.Urlencode(AuthParams(cfg, params, params["login_hint"], state, nonce));
      Http.Done(Redirect(302, cfg.platformAuthUrl + "?" + query))
  }

  /**
   * Login goes on exactly when the three required parameters are present and
   * `iss` is the configured platform; otherwise the answer is 400, listing the
   * missing parameters in the order `iss`, `login_hint`, `target_link_uri`
   * when any is missing.
   */
  lemma LoginChecks(cfg: Settings, params: map<string, string>, state: string, nonce: string)
    ensures var r := LoginRedirect(cfg, params, state, nonce);
      && (r.Done? <==> "iss" in params && "login_hint" in params && "target_link_uri" in params
                       && params["iss"] == cfg.platformIssuer)
      && (!r.Done? ==> r.Refused? && r.status == 400)
      && (MissingLoginParams(params) != [] ==>
            r == Http.Refused(400, "Missing required parameters: " + StringListRepr(MissingLoginParams(params))))
      && (forall n :: n in MissingLoginParams(params) <==> n in RequiredLoginParams && n !in params)
  {
    Dicts.MissingKeysMembers(RequiredLoginParams, params.Keys);
    Dicts.MissingKeysEmpty(RequiredLoginParams, params.Keys);
  }

  /** The nine fixed parameter names are distinct and none of them is one of the two optional ones. */
  lemma AuthFixedUnique(cfg: Settings, loginHint: string, state: string, nonce: string)
    ensures var d := AuthFixed(cfg, loginHint, state, nonce);
      && Dicts.UniqueKeys(d)
      && !Dicts.HasKey(d, "lti_message_hint") && !Dicts.HasKey(d, "lti_deployment_id")
  {
    var d := AuthFixed(cfg, loginHint, state, nonce);
    assert |d[0].0| == 13 && |d[1].0| == 9 && |d[2].0| == 12 && |d[3].0| == 10 && |d[4].0| == 5;
    assert |d[5].0| == 5 && |d[6].0| == 13 && |d[7].0| == 5 && |d[8].0| == 6;
    assert d[0].0[9] == 't' && d[6].0[9] == 'm';
    assert d[4].0[1] == 't' && d[5].0[1] == 'o' && d[7].0[1] == 'c';
    var ks := Dicts.Keys(d);
    assert forall i :: 0 <= i < 9 ==> |ks[i]| <= 13;
  }

  /** The fixed parameters hold the values the authentication request needs. */
  lemma AuthFixedValues(cfg: Settings, loginHint: string, state: string, nonce: string)
    ensures var d := AuthFixed(cfg, loginHint, state, nonce);
      && Dicts.Lookup(d, "response_type") == Some("id_token")
      && Dicts.Lookup(d, "client_id") == Some(cfg.clientId)
      && Dicts.Lookup(d, "redirect_uri") == Some(cfg.launchUrl)
      && Dicts.Lookup(d, "login_hint") == Some(loginHint)
      && Dicts.Lookup(d, "state") == Some(state)
      && Dicts.Lookup(d, "nonce") == Some(nonce)
      && Dicts.Lookup(d, "response_mode") == Some("form_post")
      && Dicts.Lookup(d, "scope") == Some("openid")
      && Dicts.Lookup(d, "prompt") == Some("none")
  {
    var d := AuthFixed(cfg, loginHint, state, nonce);
    AuthFixedUnique(cfg, loginHint, state, nonce);
    Dicts.LookupAt(d, 0);
    Dicts.LookupAt(d, 1);
    Dicts.LookupAt(d, 2);
    Dicts.LookupAt(d, 3);
    Dicts.LookupAt(d, 4);
    Dicts.LookupAt(d, 5);
    Dicts.LookupAt(d, 6);
    Dicts.LookupAt(d, 7);
    Dicts.LookupAt(d, 8);
  }

  /** `d[k] = params[k]` when the login carried `k`. */
  function CopyParam(d: Dicts.Items<string>, params: map<string, string>, k: string): Dicts.Items<string>
  {
    if k in params then Dicts.Put(d, k, params[k]) else d
  }

  /**
   * Copying one parameter the dict does not hold yet appends it exactly when
   * the login carried it, and leaves every other entry alone.
   */
  lemma CopyParamEffect(d: Dicts.Items<string>, params: map<string, string>, k: string)
    requires Dicts.UniqueKeys(d) && !Dicts.HasKey(d, k)
    ensures var r := CopyParam(d, params, k);
      && r == d + (if k in params then [(k, params[k])] else [])
      && Dicts.Lookup(r, k) == Param(params, k)
      && (forall k' :: k' != k ==> Dicts.Lookup(r, k') == Dicts.Lookup(d, k'))
      && Dicts.UniqueKeys(r)
  {
    if k in params {
      Dicts.PutUnique(d, k, params[k]);
      forall k' | k' != k ensures Dicts.Lookup(CopyParam(d, params, k), k') == Dicts.Lookup(d, k') {
        Dicts.PutOther(d, k, params[k], k');
      }
    }
  }

  /** The hints the login carried, as the items they add. */
  function HintItems(params: map<string, string>): Dicts.Items<string>
  {
    (if "lti_message_hint" in params then [("lti_message_hint", params["lti_message_hint"])] else [])
    + (if "lti_deployment_id" in params then [("lti_deployment_id", params["lti_deployment_id"])] else [])
  }

  /**
   * Copying the two hints keeps the parameters already there, appends each
   * hint exactly when the login carried it, with the value it carried, and
   * keeps the names unique.
   */
  lemma LoginHintsCopied(d: Dicts.Items<string>, params: map<string, string>)
    requires Dicts.UniqueKeys(d)
    requires !Dicts.HasKey(d, "lti_message_hint") && !Dicts.HasKey(d, "lti_deployment_id")
    ensures var r := WithLoginHints(d, params);
      && r == d + HintItems(params)
      && (forall k :: k != "lti_message_hint" && k != "lti_deployment_id" ==> Dicts.Lookup(r, k) == Dicts.Lookup(d, k))
      && Dicts.Lookup(r, "lti_message_hint") == Param(params, "lti_message_hint")
      && Dicts.Lookup(r, "lti_deployment_id") == Param(params, "lti_deployment_id")
      && Dicts.UniqueKeys(r)
  {
    var withHint := CopyParam(d, params, "lti_message_hint");
    CopyParamEffect(d, params, "lti_message_hint");
    assert !Dicts.HasKey(withHint, "lti_deployment_id") by {
      assert Dicts.Lookup(withHint, "lti_deployment_id") == Dicts.Lookup(d, "lti_deployment_id");
    }
    CopyParamEffect(withHint, params, "lti_deployment_id");
    var a := if "lti_message_hint" in params then [("lti_message_hint", params["lti_message_hint"])] else [];
    var b := if "lti_deployment_id" in params then [("lti_deployment_id", params["lti_deployment_id"])] else [];
    assert WithLoginHints(d, params) == (d + a) + b;
    AppendAssoc(d, a, b);
  }

  lemma AppendAssoc<T>(a: seq<T>, b: seq<T>, c: seq<T>)
    ensures (a + b) + c == a + (b + c)
  {
  }

  /**
   * The authentication request always carries `response_type=id_token`,
   * `response_mode=form_post`, `scope=openid`, `prompt=none`, the client id
   * and the launch URL as `redirect_uri`; the two hints are copied exactly
   * when given; each name occurs once.
   */
  lemma AuthParamsFields(cfg: Settings, params: map<string, string>, loginHint: string, state: string, nonce: string)
    ensures var p := AuthParams(cfg, params, loginHint, state, nonce);
      && p == AuthFixed(cfg, loginHint, state, nonce) + HintItems(params)
      && Dicts.Lookup(p, "response_type") == Some("id_token")
      && Dicts.Lookup(p, "client_id") == Some(cfg.clientId)
      && Dicts.Lookup(p, "redirect_uri") == Some(cfg.launchUrl)
      && Dicts.Lookup(p, "login_hint") == Some(loginHint)
      && Dicts.Lookup(p, "response_mode") == Some("form_post")
      && Dicts.Lookup(p, "scope") == Some("openid")
      && Dicts.Lookup(p, "prompt") == Some("none")
      && Dicts.Lookup(p, "lti_message_hint") == Param(params, "lti_message_hint")
      && Dicts.Lookup(p, "lti_deployment_id") == Param(params, "lti_deployment_id")
      && Dicts.UniqueKeys(p)
  {
    var d := AuthFixed(cfg, loginHint, state, nonce);
    AuthFixedUnique(cfg, loginHint, state, nonce);
    AuthFixedValues(cfg, loginHint, state, nonce);
    LoginHintsCopied(d, params);
  }

  /**
   * A redirect goes to the platform's authorisation endpoint with status 302,
   * and its query splits at `&` into exactly the encoded authentication
   * parameters, in order.
   */
  lemma LoginQuery(cfg: Settings, params: map<string, string>, state: string, nonce: string)
    requires LoginRedirect(cfg, params, state, nonce).Done?
    ensures var r := LoginRedirect(cfg, params, state, nonce).value;
      var p := AuthParams(cfg, params, params["login_hint"], state, nonce);
      && r.status == 302
      && r.url == cfg.platformAuthUrl + "?" + Quoting.Urlencode(p)
      && Strings.Split(Quoting.Urlencode(p), '&') == Quoting.EncodedPairs(p)
  {
    LoginChecks(cfg, params, state, nonce);
    var p := AuthParams(cfg, params, params["login_hint"], state, nonce);
    LoginHintsCopied(AuthFixed(cfg, params["login_hint"], state, nonce), params) by {
      AuthFixedUnique(cfg, params["login_hint"], state, nonce);
    }
    Quoting.UrlencodeParts(p);
  }

  /** `oidc_login`: `state` and `nonce` are the two `token_urlsafe(32)` values. */
  method OidcLogin(cfg: Settings, httpMethod: string, query: map<string, string>, form: map<string, string>,
                   state: string, nonce: string)
    returns (r: Http.Reply<Redirect>)
    ensures r == LoginRedirect(cfg, LoginParams(httpMethod, query, form), state, nonce)
  {
    var params := if httpMethod == "GET" then query else form;
    var missing := MissingLoginParams(params);
    if missing != [] {
      return Http.Refused(400, "Missing required parameters: " + StringListRepr(missing));
    }
    if params["iss"] != cfg.platformIssuer {
      return Http.Refused(400, "Invalid issuer");
    }
    var authParams := AuthFixed(cfg, params["login_hint"], state, nonce);
    if "lti_message_hint" in params {
      authParams := Dicts.Put(authParams, "lti_message_hint", params["lti_message_hint"]);
    }
    if "lti_deployment_id" in params {
      authParams := Dicts.Put(authParams, "lti_deployment_id", params["lti_deployment_id"]);
    }
    r := Http.Done(Redirect(302, cfg.platformAuthUrl + "?" + Quoting.Urlencode(authParams)));
  }

  // ------------------------------------------------------------- lti13_launch

  const ClaimRoles: string := Lti13Validator.LtiClaim + "roles"
  const ClaimContext: string := Lti13Validator.LtiClaim + "context"
  const ClaimResourceLink: string := Lti13Validator.LtiClaim + "resource_link"
  const ClaimCustom: string := Lti13Validator.LtiClaim + "custom"

  /** The first of the four tests that holds decides the role; none gives MEMBER. */
  function RoleByTests(instructor: bool, learner: bool, administrator: bool, assistant: bool): Models.LtiRole
  {
    if instructor then Models.Instructor
    else if learner then Models.Learner
    else if administrator then Models.Administrator
    else if assistant then Models.TeachingAssistant
    else Models.Member
  }

  /**
   * The role of one entry of the roles claim: `'Instructor' in entry` and so
   * on. On a string `in` is a substring test, on a list element membership,
   * on an object key membership; any other value cannot be searched.
   */
  function RoleOf13(entry: Json): Result<Models.LtiRole>
  {
    if !Iterable(entry) then Raised(NotIterable(entry))
    else Ok(RoleByTests(Includes(entry, "Instructor"), Includes(entry, "Learner"),
                        Includes(entry, "Administrator"), Includes(entry, "TeachingAssistant")))
  }

  /** The roles of a sequence of entries, in order; the first entry that cannot be searched raises. */
  function RolesOf13(entries: seq<Json>): Result<seq<Models.LtiRole>>
  {
    if entries == [] then Ok([])
    else match RolesOf13(entries[..|entries| - 1])
      case Raised(m) => Raised(m)
      case Ok(front) =>
        match RoleOf13(entries[|entries| - 1])
        case Raised(m) => Raised(m)
        case Ok(role) => Ok(front + [role])
  }

  /** An error in a prefix is the error of the whole sequence. */
  lemma {:induction false} RolesPrefixRaised(entries: seq<Json>, i: nat)
    requires i <= |entries|
    requires RolesOf13(entries[..i]).Raised?
    ensures RolesOf13(entries) == RolesOf13(entries[..i])
    decreases |entries|
  {
    if i < |entries| {
      var front := entries[..|entries| - 1];
      assert front[..i] == entries[..i];
      RolesPrefixRaised(front, i);
    } else {
      assert entries[..i] == entries;
    }
  }

  /**
   * One role per entry, in input order, each the role of its entry; or the
   * error of the first entry that cannot be searched.
   */
  lemma {:induction false} RolesOneEach(entries: seq<Json>)
    ensures RolesOf13(entries).Ok? <==> forall i :: 0 <= i < |entries| ==> RoleOf13(entries[i]).Ok?
    ensures RolesOf13(entries).Ok? ==>
      |RolesOf13(entries).value| == |entries|
      && forall i :: 0 <= i < |entries| ==> RoleOf13(entries[i]) == Ok(RolesOf13(entries).value[i])
    ensures RolesOf13(entries).Raised? ==>
      exists i :: 0 <= i < |entries| && RoleOf13(entries[i]) == Raised(RolesOf13(entries).message)
                  && forall j :: 0 <= j < i ==> RoleOf13(entries[j]).Ok?
  {
    if entries != [] {
      var front := entries[..|entries| - 1];
      RolesOneEach(front);
      assert forall i :: 0 <= i < |front| ==> front[i] == entries[i];
    }
  }

  /** `user_roles` as the launch loop fills it. */
  method MapRoles13(entries: seq<Json>) returns (r: Result<seq<Models.LtiRole>>)
    ensures r == RolesOf13(entries)
  {
    var roles: seq<Models.LtiRole> := [];
    var i := 0;
    while i < |entries|
      invariant 0 <= i <= |entries|
      invariant RolesOf13(entries[..i]) == Ok(roles)
    {
      assert entries[..i + 1][..i] == entries[..i];
      var role := RoleOf13(entries[i]);
      if role.Raised? {
        assert RolesOf13(entries[..i + 1]) == Raised(role.message);
        RolesPrefixRaised(entries, i + 1);
        return Raised(role.message);
      }
      roles := roles + [role.value];
      i := i + 1;
    }
    assert entries[..i] == entries;
    r := Ok(roles);
  }

  /**
   * The seven standard role IRIs as the launch maps them: the Teaching
   * Assistant IRI contains `Instructor` and becomes INSTRUCTOR, Content
   * Developer and Mentor become MEMBER, the other four keep their role.
   */
  lemma StandardRoles13(r: Models.LtiRole)
    ensures RoleOf13(JStr(r.Iri())) == Ok(
      match r
      case TeachingAssistant => Models.Instructor
      case ContentDeveloper => Models.Member
      case Mentor => Models.Member
      case _ => r)
  {
    Models.IriContainsInstructor(r);
    Models.IriContainsLearner(r);
    Models.IriContainsAdministrator(r);
    Models.IriContainsTeachingAssistant(r);
  }

  /**
   * The entries of the roles claim (an empty list when absent): a list gives
   * its items, a string its characters; a number, a boolean or `null` cannot
   * be iterated.
   */
  function RoleEntries(payload: Object): Result<seq<Json>>
  {
    match Get(payload, ClaimRoles).GetOr(JArr([]))
    case JArr(xs) => Ok(xs)
    case JStr(s) => Ok(seq(|s|, i requires 0 <= i < |s| => JStr([s[i]])))
    case JObj(_) => Raised(ObjectRolesUnmodelled)
    case other => Raised("'" + TypeName(other) + "' object is not iterable")
  }

  /** A roles claim that is an object is iterated over its keys in document order, which is not modelled. */
  const ObjectRolesUnmodelled: string := "roles claim given as an object"

  /** The text of the validation error `LTI13User(...)` raises for a field of the wrong type. */
  const UserValidationError: string := "validation error for LTI13User"

  /** A required `str` field: only a string is accepted. */
  function Text(j: Json): Result<string>
  {
    if j.JStr? then Ok(j.s) else Raised(UserValidationError)
  }

  /** An `Optional[str]` field: absent or `null` is `None`, a string is kept, anything else is refused. */
  function OptText(o: Option<Json>): Result<Option<string>>
  {
    match o
    case None => Ok(None)
    case Some(JNull) => Ok(None)
    case Some(JStr(s)) => Ok(Some(s))
    case Some(_) => Raised(UserValidationError)
  }

  /**
   * The `LTI13User` the launch builds from the claims: `context` and
   * `resource_link` default to `{}` and must have `get`; `sub` defaults to
   * `unknown`, the resource link id to `unknown`, the deployment id to `1`;
   * the message type is always a resource link request.
   */
  function LaunchUser(payload: Object, roles: seq<Models.LtiRole>, launchTime: real): Result<Models.Lti13User>
  {
    var context := Get(payload, ClaimContext).GetOr(JObj(map[]));
    var link := Get(payload, ClaimResourceLink).GetOr(JObj(map[]));
    if !context.JObj? then Raised(NoAttribute(TypeName(context), "get"))
    else if !link.JObj? then Raised(NoAttribute(TypeName(link), "get"))
    else
      var userId := Text(Get(payload, "sub").GetOr(JStr("unknown")));
      var name := OptText(Get(payload, "name"));
      var givenName := OptText(Get(payload, "given_name"));
      var familyName := OptText(Get(payload, "family_name"));
      var email := OptText(Get(payload, "email"));
      var picture := OptText(Get(payload, "picture"));
      var contextId := OptText(Get(context.fields, "id"));
      var contextTitle := OptText(Get(context.fields, "title"));
      var contextLabel := OptText(Get(context.fields, "label"));
      var linkId := Text(Get(link.fields, "id").GetOr(JStr("unknown")));
      var linkTitle := OptText(Get(link.fields, "title"));
      var deploymentId := Text(Get(payload, Lti13Validator.ClaimDeploymentId).GetOr(JStr("1")));
      var custom := Get(payload, ClaimCustom).GetOr(JObj(map[]));
      if || userId.Raised? || name.Raised? || givenName.Raised? || familyName.Raised? || email.Raised?
         || picture.Raised? || contextId.Raised? || contextTitle.Raised? || contextLabel.Raised?
         || linkId.Raised? || linkTitle.Raised? || deploymentId.Raised? || !custom.JObj?
      then Raised(UserValidationError)
      else Ok(Models.Lti13User(
        userId := userId.value, resourceLinkId := linkId.value, deploymentId := deploymentId.value,
        launchTimestamp := launchTime, name := name.value, givenName := givenName.value,
        familyName := familyName.value, email := email.value, picture := picture.value, roles := roles,
        contextId := contextId.value, contextTitle := contextTitle.value, contextLabel := contextLabel.value,
        resourceLinkTitle := linkTitle.value, messageType := Models.ResourceLinkRequest,
        customParameters := custom.fields))
  }

  /**
   * The defaults of the launch user: `unknown` for a missing `sub` and a
   * missing resource link id, `1` for a missing deployment id; otherwise the
   * claim's own string. The roles are the mapped ones and the message type is
   * always `LtiResourceLinkRequest`, whatever the message said.
   */
  lemma LaunchUserDefaults(payload: Object, roles: seq<Models.LtiRole>, launchTime: real)
    requires LaunchUser(payload, roles, launchTime).Ok?
    ensures var u := LaunchUser(payload, roles, launchTime).value;
      && ("sub" !in payload ==> u.userId == "unknown")
      && ("sub" in payload ==> payload["sub"] == JStr(u.userId))
      && (Lti13Validator.ClaimDeploymentId !in payload ==> u.deploymentId == "1")
      && (Lti13Validator.ClaimDeploymentId in payload ==>
            payload[Lti13Validator.ClaimDeploymentId] == JStr(u.deploymentId))
      && (ClaimResourceLink !in payload ==> u.resourceLinkId == "unknown")
      && u.roles == roles
      && u.messageType == Models.ResourceLinkRequest
      && u.launchTimestamp == launchTime
  {
  }

  /** The claims the session token carries: no `is_instructor`. */
  function SessionClaims(u: Models.Lti13User): Dicts.Items<Json>
  {
    [("user_id", JStr(u.userId)),
     ("context_id", Models.OptionalString(u.contextId)),
     ("resource_link_id", JStr(u.resourceLinkId)),
     ("roles", Models.RoleValues(u.roles)),
     ("deployment_id", JStr(u.deploymentId))]
  }

  /**
   * A 1.3 session names the user, the context, the resource link, the roles
   * by IRI and the deployment, and nothing about being an instructor.
   */
  lemma SessionClaimsFields(u: Models.Lti13User)
    ensures Dicts.Keys(SessionClaims(u)) == ["user_id", "context_id", "resource_link_id", "roles", "deployment_id"]
    ensures !Dicts.HasKey(SessionClaims(u), "is_instructor")
    ensures Dicts.Lookup(SessionClaims(u), "user_id") == Some(JStr(u.userId))
    ensures Dicts.Lookup(SessionClaims(u), "resource_link_id") == Some(JStr(u.resourceLinkId))
  {
    var ks := Dicts.Keys(SessionClaims(u));
    assert ks == ["user_id", "context_id", "resource_link_id", "roles", "deployment_id"];
    assert forall i :: 0 <= i < 5 ==> |ks[i]| != |"is_instructor"| || ks[i][0] != 'i';
  }

  /** The launch data shown to the page: an `LTI13User` has no outcome fields, so those are `None`. */
  function LaunchData(u: Models.Lti13User): Dicts.Items<Json>
  {
    [("user_id", JStr(u.userId)),
     ("context_id", Models.OptionalString(u.contextId)),
     ("resource_link_id", JStr(u.resourceLinkId)),
     ("roles", Models.RoleValues(u.roles)),
     ("lis_outcome_service_url", JNull),
     ("lis_result_sourcedid", JNull)]
  }

  /** What the launch page is rendered with. */
  datatype LaunchPage = LaunchPage(user: Models.Lti13User, launchData: Dicts.Items<Json>, sessionToken: string,
                                   apiBaseUrl: string)

  /** `request_data.get('id_token')` is truthy. */
  predicate IdTokenGiven(form: map<string, string>)
  {
    "id_token" in form && form["id_token"] != []
  }

  /**
   * `SecurityManager.create_access_token`: the signed session token for the
   * given claims, or the message of the exception `jwt.encode` raises (with
   * an RS256 algorithm and a secret that is not an RSA key, for instance).
   */
  type TokenIssuer = Dicts.Items<Json> -> Result<string>

  /** The launch of an accepted message: roles, user, launch data and session token. */
  function LaunchSession(cfg: Settings, payload: Object, launchTime: real, issue: TokenIssuer)
    : Http.Reply<LaunchPage>
  {
    match RoleEntries(payload)
    case Raised(m) => Http.Crashed(m)
    case Ok(entries) =>
      match RolesOf13(entries)
      case Raised(m) => Http.Crashed(m)
      case Ok(roles) =>
        match LaunchUser(payload, roles, launchTime)
        case Raised(m) => Http.Crashed(m)
        case Ok(u) =>
          match issue(SessionClaims(u))
          case Raised(m) => Http.Crashed(m)
          case Ok(token) => Http.Done(LaunchPage(u, LaunchData(u), token, cfg.toolUrl))
  }

  /** The part of the launch after the `id_token` has been validated. */
  function LaunchWith(cfg: Settings, validation: Lti13Validator.JwtResult, currentTime: int, launchTime: real,
                      issue: TokenIssuer): Http.Reply<LaunchPage>
  {
    if validation.JwtInvalid? then Http.Refused(401, "Invalid JWT token: " + validation.error)
    else
      match Lti13Validator.MessageResult(cfg, validation.payload, currentTime)
      case MessageFault(m) => Http.Crashed(m)
      case MessageChecked(valid, errors, _) =>
        if !valid then Http.Refused(400, "Invalid LTI message: " + Strings.Join(errors, ", "))
        else LaunchSession(cfg, validation.payload, launchTime, issue)
  }

  /**
   * `lti13_launch`: the key-set cache on entry, the clock readings of the
   * key-set lookup (`now`, `storedAt`), `int(time.time())` of the message
   * check, the user's launch time, and the functions that decode a token
   * without verification, download a key set, verify a signature and issue
   * the session token.
   */
  function LaunchOutcome(cfg: Settings, cache: Lti13Validator.Cache, expiry: real, now: real,
                         fetch: string -> Option<Json>, decode: string -> Result<(Object, Object)>,
                         verify: (Object, string, string) -> Lti13Validator.DecodeOutcome,
                         form: map<string, string>, currentTime: int, launchTime: real,
                         issue: TokenIssuer): Http.Reply<LaunchPage>
  {
    if !IdTokenGiven(form) then Http.Refused(400, "Missing id_token")
    else
      var validation := Lti13Validator.ValidateJwt(cfg, cache, expiry, now, fetch, decode(form["id_token"]),
                                                   Some(cfg.clientId), verify);
      LaunchWith(cfg, validation, currentTime, launchTime, issue)
  }

  /**
   * A launch is refused with 400 without a token, 401 when the token does
   * not validate (with the validator's error), and 400 when the message
   * check finds errors (joined by `, `).
   */
  lemma LaunchRefusals(cfg: Settings, validation: Lti13Validator.JwtResult, currentTime: int, launchTime: real,
                       issue: TokenIssuer)
    ensures validation.JwtInvalid? ==>
      LaunchWith(cfg, validation, currentTime, launchTime, issue) == Http.Refused(401, "Invalid JWT token: " + validation.error)
    ensures validation.JwtValid? && Lti13Validator.MessageResult(cfg, validation.payload, currentTime).MessageChecked?
            && Lti13Validator.MessageResult(cfg, validation.payload, currentTime).errors != [] ==>
      LaunchWith(cfg, validation, currentTime, launchTime, issue)
      == Http.Refused(400, "Invalid LTI message: "
                           + Strings.Join(Lti13Validator.MessageResult(cfg, validation.payload, currentTime).errors, ", "))
  {
  }

  /**
   * A launch succeeds only for a validated token whose message the validator
   * accepts (all required claims, the configured deployment, not expired, not
   * issued in the future), and then it is the session of that message.
   */
  lemma LaunchAccepted(cfg: Settings, validation: Lti13Validator.JwtResult, currentTime: int, launchTime: real,
                       issue: TokenIssuer)
    requires LaunchWith(cfg, validation, currentTime, launchTime, issue).Done?
    ensures validation.JwtValid?
    ensures Lti13Validator.LaunchAcceptable(cfg, validation.payload, currentTime)
    ensures LaunchWith(cfg, validation, currentTime, launchTime, issue)
            == LaunchSession(cfg, validation.payload, launchTime, issue)
  {
    Lti13Validator.MessageValidIffAcceptable(cfg, validation.payload, currentTime);
  }

  /**
   * A launch session shows the user built from the message with the mapped
   * roles of its roles claim, and issues the session token for that user's
   * session claims, which never say `is_instructor`.
   */
  lemma SessionIssued(cfg: Settings, payload: Object, launchTime: real, issue: TokenIssuer)
    requires LaunchSession(cfg, payload, launchTime, issue).Done?
    ensures var page := LaunchSession(cfg, payload, launchTime, issue).value;
      && RoleEntries(payload).Ok?
      && RolesOf13(RoleEntries(payload).value) == Ok(page.user.roles)
      && LaunchUser(payload, page.user.roles, launchTime) == Ok(page.user)
      && issue(SessionClaims(page.user)) == Ok(page.sessionToken)
      && !Dicts.HasKey(SessionClaims(page.user), "is_instructor")
      && page.launchData == LaunchData(page.user)
      && page.apiBaseUrl == cfg.toolUrl
  {
    assert RoleEntries(payload).Ok?;
    var entries := RoleEntries(payload).value;
    assert RolesOf13(entries).Ok?;
    var roles := RolesOf13(entries).value;
    assert LaunchUser(payload, roles, launchTime).Ok?;
    var u := LaunchUser(payload, roles, launchTime).value;
    assert issue(SessionClaims(u)).Ok?;
    assert LaunchSession(cfg, payload, launchTime, issue)
        == Http.Done(LaunchPage(u, LaunchData(u), issue(SessionClaims(u)).value, cfg.toolUrl));
    SessionClaimsFields(u);
  }

  /**
   * When the session token cannot be issued, the launch of an otherwise
   * accepted message ends in 500 with the issuer's error, and no page is shown.
   */
  lemma SessionIssueRaises(cfg: Settings, payload: Object, launchTime: real, issue: TokenIssuer, u: Models.Lti13User)
    requires RoleEntries(payload).Ok? && RolesOf13(RoleEntries(payload).value).Ok?
    requires LaunchUser(payload, RolesOf13(RoleEntries(payload).value).value, launchTime) == Ok(u)
    requires issue(SessionClaims(u)).Raised?
    ensures LaunchSession(cfg, payload, launchTime, issue) == Http.Crashed(issue(SessionClaims(u)).message)
  {
  }

  /**
   * `lti13_launch` with the validator object: a launch with an id_token
   * looks up the key set of the token's issuer, so the cache changes as
   * `Lti13Validator.Validator.ValidateJwtToken` states; without one, or when
   * the token names no issuer and audience, the cache is left alone.
   */
  method Lti13Launch(cfg: Settings, validator: Lti13Validator.Validator, form: map<string, string>,
                     decode: string -> Result<(Object, Object)>, now: real, storedAt: real,
                     fetch: string -> Option<Json>, verify: (Object, string, string) -> Lti13Validator.DecodeOutcome,
                     currentTime: int, launchTime: real, issue: TokenIssuer)
    returns (r: Http.Reply<LaunchPage>)
    modifies validator
    ensures r == LaunchOutcome(cfg, old(validator.platformJwksCache), validator.cacheExpiry, now, fetch, decode, verify,
                               form, currentTime, launchTime, issue)
    ensures !IdTokenGiven(form) ==> validator.platformJwksCache == old(validator.platformJwksCache)
    ensures IdTokenGiven(form) && Lti13Validator.LookedUpIssuer(decode(form["id_token"])).None? ==>
      validator.platformJwksCache == old(validator.platformJwksCache)
    ensures IdTokenGiven(form) && Lti13Validator.LookedUpIssuer(decode(form["id_token"])).Some? ==>
      validator.platformJwksCache
        == Lti13Validator.Stored(old(validator.platformJwksCache), validator.cacheExpiry, cfg,
                                 Lti13Validator.LookedUpIssuer(decode(form["id_token"])).value, now, storedAt, fetch)
  {
    if "id_token" !in form || form["id_token"] == [] {
      return Http.Refused(400, "Missing id_token");
    }
    var validation := validator.ValidateJwtToken(cfg, decode(form["id_token"]), Some(cfg.clientId), now, storedAt,
                                                 fetch, verify);
    r := FinishLaunch(cfg, validation, currentTime, launchTime, issue);
  }

  /** The launch after validation: message check, role loop, user, session. */
  method FinishLaunch(cfg: Settings, validation: Lti13Validator.JwtResult, currentTime: int, launchTime: real,
                      issue: TokenIssuer)
    returns (r: Http.Reply<LaunchPage>)
    ensures r == LaunchWith(cfg, validation, currentTime, launchTime, issue)
  {
    if validation.JwtInvalid? {
      return Http.Refused(401, "Invalid JWT token: " + validation.error);
    }
    var payload := validation.payload;
    var check := Lti13Validator.ValidateLtiMessage(cfg, payload, currentTime);
    if check.MessageFault? {
      return Http.Crashed(check.message);
    }
    if !check.valid {
      return Http.Refused(400, "Invalid LTI message: " + Strings.Join(check.errors, ", "));
    }
    r := StartSession(cfg, payload, launchTime, issue);
  }

  /** The launch of an accepted message: the role loop, the user, the session token. */
  method StartSession(cfg: Settings, payload: Object, launchTime: real, issue: TokenIssuer)
    returns (r: Http.Reply<LaunchPage>)
    ensures r == LaunchSession(cfg, payload, launchTime, issue)
  {
    var entries := RoleEntries(payload);
    if entries.Raised? {
      return Http.Crashed(entries.message);
    }
    var roles := MapRoles13(entries.value);
    if roles.Raised? {
      return Http.Crashed(roles.message);
    }
    var user := LaunchUser(payload, roles.value, launchTime);
    if user.Raised? {
      return Http.Crashed(user.message);
    }
    var sessionToken := issue(SessionClaims(user.value));
    if sessionToken.Raised? {
      return Http.Crashed(sessionToken.message);
    }
    r := Http.Done(LaunchPage(user.value, LaunchData(user.value), sessionToken.value, cfg.toolUrl));
  }

  // ------------------------------------------------------------- lti13_health

  /** The values that mark a setting as not yet provided by the platform. */
  const PlaceholderValues: seq<string> := [Placeholder, "your-consumer-key", "lti-tool-client-id"]

  const ConfigMessage: string := "Please complete Moodle registration and update .env file"

  /** The names of the platform settings still holding a placeholder, in the order they are checked. */
  function MissingConfig(cfg: Settings): seq<string>
  {
    (if cfg.clientId in PlaceholderValues then ["LTI_CLIENT_ID"] else [])
    + (if cfg.platformIssuer in PlaceholderValues then ["LTI_PLATFORM_ISSUER"] else [])
    + (if cfg.deploymentId in PlaceholderValues then ["LTI_DEPLOYMENT_ID"] else [])
  }

  /**
   * A setting is listed as missing exactly when it holds one of the
   * placeholders, each at most once, in the order client id, issuer,
   * deployment id.
   */
  lemma MissingConfigNames(cfg: Settings)
    ensures "LTI_CLIENT_ID" in MissingConfig(cfg) <==> cfg.clientId in PlaceholderValues
    ensures "LTI_PLATFORM_ISSUER" in MissingConfig(cfg) <==> cfg.platformIssuer in PlaceholderValues
    ensures "LTI_DEPLOYMENT_ID" in MissingConfig(cfg) <==> cfg.deploymentId in PlaceholderValues
    ensures |MissingConfig(cfg)| <= 3
  {
    assert |"LTI_CLIENT_ID"| == 13 && |"LTI_PLATFORM_ISSUER"| == 19 && |"LTI_DEPLOYMENT_ID"| == 17;
  }

  function Strs(names: seq<string>): Json
  {
    JArr(seq(|names|, i requires 0 <= i < |names| => JStr(names[i])))
  }

  /** The report before any check. */
  function HealthBase(cfg: Settings): Dicts.Items<Json>
  {
    [("status", JStr("healthy")),
     ("lti_version", JStr("1.3.0")),
     ("oidc_login_url", JStr(cfg.loginUrl)),
     ("launch_url", JStr(cfg.launchUrl)),
     ("jwks_url", JStr(cfg.jwksUrl)),
     ("client_id", JStr(cfg.clientId)),
     ("deployment_id", JStr(cfg.deploymentId)),
     ("platform_issuer", JStr(cfg.platformIssuer))]
  }

  /** The configuration part of the report, written over the report `h`. */
  function ConfigChecks(h: Dicts.Items<Json>, missing: seq<string>): Dicts.Items<Json>
  {
    var withFlag := Dicts.Put(h, "moodle_config_complete", JBool(missing == []));
    if missing == [] then withFlag
    else Dicts.Put(Dicts.Put(Dicts.Put(withFlag, "missing_config", Strs(missing)), "status", JStr("needs_configuration")),
                   "message", JStr(ConfigMessage))
  }

  /** One key-file entry: `present`, or `missing` and the status degraded. */
  function KeyReport(h: Dicts.Items<Json>, name: string, present: bool): Dicts.Items<Json>
  {
    var withKey := Dicts.Put(h, name, JStr(if present then "present" else "missing"));
    if present then withKey else Dicts.Put(withKey, "status", JStr("degraded"))
  }

  /** What `open(path, 'r')` of a key file did. */
  datatype FileOpen = Opened | NotFound | OpenFailed(message: string)

  /** The report, given whether each key file could be opened. */
  function HealthReport(cfg: Settings, privateKey: bool, publicKey: bool): Dicts.Items<Json>
  {
    KeyReport(KeyReport(ConfigChecks(HealthBase(cfg), MissingConfig(cfg)), "private_key", privateKey),
              "public_key", publicKey)
  }

  /** A key-file entry sets its own name and may only degrade the status. */
  lemma KeyReportEffect(h: Dicts.Items<Json>, name: string, present: bool)
    requires name != "status"
    ensures var r := KeyReport(h, name, present);
      && Dicts.Lookup(r, name) == Some(JStr(if present then "present" else "missing"))
      && Dicts.Lookup(r, "status") == (if present then Dicts.Lookup(h, "status") else Some(JStr("degraded")))
  {
    var withKey := Dicts.Put(h, name, JStr(if present then "present" else "missing"));
    Dicts.PutOther(h, name, JStr(if present then "present" else "missing"), "status");
    if !present {
      Dicts.PutOther(withKey, "status", JStr("degraded"), name);
    }
  }

  /** A key-file entry leaves every other entry alone. */
  lemma KeyReportOther(h: Dicts.Items<Json>, name: string, present: bool, other: string)
    requires other != name && other != "status"
    ensures Dicts.Lookup(KeyReport(h, name, present), other) == Dicts.Lookup(h, other)
  {
    var withKey := Dicts.Put(h, name, JStr(if present then "present" else "missing"));
    Dicts.PutOther(h, name, JStr(if present then "present" else "missing"), other);
    if !present {
      Dicts.PutOther(withKey, "status", JStr("degraded"), other);
    }
  }

  /**
   * The configuration checks record whether the configuration is complete,
   * and list the missing settings and ask for configuration exactly when it
   * is not.
   */
  lemma ConfigChecksEffect(h: Dicts.Items<Json>, missing: seq<string>)
    requires !Dicts.HasKey(h, "missing_config")
    ensures var r := ConfigChecks(h, missing);
      && Dicts.Lookup(r, "moodle_config_complete") == Some(JBool(missing == []))
      && Dicts.Lookup(r, "status") == (if missing == [] then Dicts.Lookup(h, "status") else Some(JStr("needs_configuration")))
      && Dicts.Lookup(r, "missing_config") == (if missing == [] then None else Some(Strs(missing)))
  {
    var h0 := Dicts.Put(h, "moodle_config_complete", JBool(missing == []));
    Dicts.PutOther(h, "moodle_config_complete", JBool(missing == []), "status");
    Dicts.PutOther(h, "moodle_config_complete", JBool(missing == []), "missing_config");
    if missing != [] {
      var h1 := Dicts.Put(h0, "missing_config", Strs(missing));
      var h2 := Dicts.Put(h1, "status", JStr("needs_configuration"));
      Dicts.PutOther(h0, "missing_config", Strs(missing), "moodle_config_complete");
      Dicts.PutOther(h1, "status", JStr("needs_configuration"), "moodle_config_complete");
      Dicts.PutOther(h2, "message", JStr(ConfigMessage), "moodle_config_complete");
      Dicts.PutOther(h1, "status", JStr("needs_configuration"), "missing_config");
      Dicts.PutOther(h2, "message", JStr(ConfigMessage), "missing_config");
      Dicts.PutOther(h2, "message", JStr(ConfigMessage), "status");
    }
  }

  /** The report starts out healthy and without a list of missing settings. */
  lemma HealthBaseStart(cfg: Settings)
    ensures Dicts.Lookup(HealthBase(cfg), "status") == Some(JStr("healthy"))
    ensures !Dicts.HasKey(HealthBase(cfg), "missing_config")
  {
    var ks := Dicts.Keys(HealthBase(cfg));
    assert ks == ["status", "lti_version", "oidc_login_url", "launch_url", "jwks_url", "client_id", "deployment_id",
                  "platform_issuer"];
    assert forall i :: 0 <= i < |ks| ==> |ks[i]| != 14 || ks[i][0] != 'm';
  }

  /**
   * The health status is `degraded` when a key file is missing, otherwise
   * `needs_configuration` when the client id, the issuer or the deployment id
   * is a placeholder, otherwise `healthy`; `missing_config` names exactly the
   * placeholder settings, in order, and each key file is reported.
   */
  lemma HealthStatus(cfg: Settings, privateKey: bool, publicKey: bool)
    ensures var r := HealthReport(cfg, privateKey, publicKey);
      && Dicts.Lookup(r, "status") == Some(JStr(
           if !privateKey || !publicKey then "degraded"
           else if MissingConfig(cfg) != [] then "needs_configuration"
           else "healthy"))
      && Dicts.Lookup(r, "moodle_config_complete") == Some(JBool(MissingConfig(cfg) == []))
      && Dicts.Lookup(r, "missing_config") == (if MissingConfig(cfg) == [] then None else Some(Strs(MissingConfig(cfg))))
      && Dicts.Lookup(r, "private_key") == Some(JStr(if privateKey then "present" else "missing"))
      && Dicts.Lookup(r, "public_key") == Some(JStr(if publicKey then "present" else "missing"))
  {
    HealthBaseStart(cfg);
    ConfigChecksEffect(HealthBase(cfg), MissingConfig(cfg));
    KeyFilesReported(ConfigChecks(HealthBase(cfg), MissingConfig(cfg)), privateKey, publicKey);
  }

  /** Both key-file entries: each is reported, either missing one degrades the status, nothing else changes. */
  lemma KeyFilesReported(c: Dicts.Items<Json>, privateKey: bool, publicKey: bool)
    ensures var r := KeyReport(KeyReport(c, "private_key", privateKey), "public_key", publicKey);
      && Dicts.Lookup(r, "status") == (if !privateKey || !publicKey then Some(JStr("degraded")) else Dicts.Lookup(c, "status"))
      && Dicts.Lookup(r, "private_key") == Some(JStr(if privateKey then "present" else "missing"))
      && Dicts.Lookup(r, "public_key") == Some(JStr(if publicKey then "present" else "missing"))
      && Dicts.Lookup(r, "moodle_config_complete") == Dicts.Lookup(c, "moodle_config_complete")
      && Dicts.Lookup(r, "missing_config") == Dicts.Lookup(c, "missing_config")
  {
    var p := KeyReport(c, "private_key", privateKey);
    assert |"moodle_config_complete"| == 22 && |"missing_config"| == 14;
    assert |"private_key"| == 11 && |"public_key"| == 10;
    KeyReportEffect(c, "private_key", privateKey);
    KeyReportOther(c, "private_key", privateKey, "moodle_config_complete");
    KeyReportOther(c, "private_key", privateKey, "missing_config");
    KeyReportEffect(p, "public_key", publicKey);
    KeyReportOther(p, "public_key", publicKey, "private_key");
    KeyReportOther(p, "public_key", publicKey, "moodle_config_complete");
    KeyReportOther(p, "public_key", publicKey, "missing_config");
  }

  /** With the default settings and both key files present, the report asks for configuration of all three. */
  lemma DefaultsNeedConfiguration()
    ensures MissingConfig(Defaults()) == ["LTI_CLIENT_ID", "LTI_PLATFORM_ISSUER", "LTI_DEPLOYMENT_ID"]
    ensures Dicts.Lookup(HealthReport(Defaults(), true, true), "status") == Some(JStr("needs_configuration"))
  {
    var cfg := Defaults();
    UnregisteredSettings(cfg);
    HealthStatus(cfg, true, true);
  }

  lemma UnregisteredSettings(cfg: Settings)
    requires cfg.clientId == Placeholder && cfg.platformIssuer == Placeholder && cfg.deploymentId == Placeholder
    ensures MissingConfig(cfg) == ["LTI_CLIENT_ID", "LTI_PLATFORM_ISSUER", "LTI_DEPLOYMENT_ID"]
  {
    assert PlaceholderValues[0] == Placeholder;
  }

  /**
   * `lti13_health`: only `FileNotFoundError` is caught, so any other failure
   * to open a key file (a permission error, a directory) escapes and the
   * application answers 500.
   */
  function HealthReply(cfg: Settings, privateKey: FileOpen, publicKey: FileOpen): Http.Reply<Dicts.Items<Json>>
  {
    if privateKey.OpenFailed? then Http.Crashed(privateKey.message)
    else if publicKey.OpenFailed? then Http.Crashed(publicKey.message)
    else Http.Done(HealthReport(cfg, privateKey.Opened?, publicKey.Opened?))
  }

  /**
   * The health check answers with a report exactly when neither key file
   * failed to open for a reason other than its absence, and otherwise fails
   * with the first such error. In a report, a key file is `missing` (and the
   * status `degraded`) exactly when it does not exist.
   */
  lemma HealthReplyCases(cfg: Settings, privateKey: FileOpen, publicKey: FileOpen)
    ensures var r := HealthReply(cfg, privateKey, publicKey);
      && (r.Done? <==> !privateKey.OpenFailed? && !publicKey.OpenFailed?)
      && (!r.Done? ==> r == Http.Crashed(if privateKey.OpenFailed? then privateKey.message else publicKey.message))
      && (r.Done? ==>
            && (Dicts.Lookup(r.value, "private_key") == Some(JStr("missing")) <==> privateKey == NotFound)
            && (Dicts.Lookup(r.value, "public_key") == Some(JStr("missing")) <==> publicKey == NotFound)
            && (Dicts.Lookup(r.value, "status") == Some(JStr("degraded")) <==> privateKey == NotFound || publicKey == NotFound))
  {
    if !privateKey.OpenFailed? && !publicKey.OpenFailed? {
      HealthStatus(cfg, privateKey.Opened?, publicKey.Opened?);
      assert JStr("present") != JStr("missing");
      assert JStr("needs_configuration") != JStr("degraded") && JStr("healthy") != JStr("degraded");
    }
  }

  /** `lti13_health`: the report dict filled step by step, then the two key files. */
  method Lti13Health(cfg: Settings, privateKey: FileOpen, publicKey: FileOpen) returns (r: Http.Reply<Dicts.Items<Json>>)
    ensures r == HealthReply(cfg, privateKey, publicKey)
  {
    var health := ConfigReport(cfg);
    match privateKey {
      case Opened =>
        health := Dicts.Put(health, "private_key", JStr("present"));
      case NotFound =>
        health := Dicts.Put(health, "private_key", JStr("missing"));
        health := Dicts.Put(health, "status", JStr("degraded"));
      case OpenFailed(m) =>
        return Http.Crashed(m);
    }
    match publicKey {
      case Opened =>
        health := Dicts.Put(health, "public_key", JStr("present"));
      case NotFound =>
        health := Dicts.Put(health, "public_key", JStr("missing"));
        health := Dicts.Put(health, "status", JStr("degraded"));
      case OpenFailed(m) =>
        return Http.Crashed(m);
    }
    r := Http.Done(health);
  }

  /** The first half of `lti13_health`: the report and the placeholder checks. */
  method ConfigReport(cfg: Settings) returns (health: Dicts.Items<Json>)
    ensures health == ConfigChecks(HealthBase(cfg), MissingConfig(cfg))
  {
    health := HealthBase(cfg);
    var configComplete := true;
    var missingConfig: seq<string> := [];
    if cfg.clientId in PlaceholderValues {
      configComplete := false;
      missingConfig := missingConfig + ["LTI_CLIENT_ID"];
    }
    if cfg.platformIssuer in PlaceholderValues {
      configComplete := false;
      missingConfig := missingConfig + ["LTI_PLATFORM_ISSUER"];
    }
    if cfg.deploymentId in PlaceholderValues {
      configComplete := false;
      missingConfig := missingConfig + ["LTI_DEPLOYMENT_ID"];
    }
    assert missingConfig == MissingConfig(cfg) && configComplete == (missingConfig == []);
    health := Dicts.Put(health, "moodle_config_complete", JBool(configComplete));
    if !configComplete {
      health := Dicts.Put(health, "missing_config", Strs(missingConfig));
      health := Dicts.Put(health, "status", JStr("needs_configuration"));
      health := Dicts.Put(health, "message", JStr(ConfigMessage));
    }
  }
}
