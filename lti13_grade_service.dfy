/**
 * The LTI Advantage Assignment and Grade Services client: a single-slot
 * access-token cache filled by a `client_credentials` grant (section 4.4 of
 * RFC 6749) with a JWT-bearer client assertion (section 2.2 of RFC 7523),
 * and the score and line-item requests made with the token.
 *
 * The network is a function from a request to its outcome; the clock
 * readings are parameters (`TokenClock`, and the ISO timestamp of a score);
 * signing is the function `CreateToolJwt` is given.
 */
module Lti13GradeService {
  import opened Wrappers
  import opened JsonValues
  import opened Config
  import Strings
  import Dicts
  import Http
  import Lti13Validator

  /**
   * The clock readings `get_access_token` may take: `check` for the cache test,
   * `jti` for the assertion identifier (`int(...)` of a reading), `signing` for
   * the `iat` that `create_tool_jwt` writes, and `stored` for the expiry.
   */
  datatype TokenClock = TokenClock(check: real, jti: int, signing: int, stored: real)

  const TokenContentType: string := "application/x-www-form-urlencoded"
  const AssertionType: string := "urn:ietf:params:oauth:client-assertion-type:jwt-bearer"
  const ScoreScope: string := "https://purl.imsglobal.org/spec/lti-ags/scope/score"

  /** The claims `get_access_token` puts in the client assertion before handing it over for signing. */
  function ClientAssertion(cfg: Settings, jti: int): Dicts.Items<Json>
  {
    [("iss", JStr(cfg.clientId)),
     ("sub", JStr(cfg.clientId)),
     ("aud", JStr(cfg.platformTokenUrl)),
     ("jti", JStr("lti-service-token-" + Strings.IntToString(jti)))]
  }

  /** The claims actually signed: `create_tool_jwt` writes its own `iss`, `aud`, `iat` and `exp` over them. */
  function SignedAssertion(cfg: Settings, clock: TokenClock): Dicts.Items<Json>
  {
    Lti13Validator.WithToolClaims(ClientAssertion(cfg, clock.jti), cfg, clock.signing)
  }

  /** The four claims `get_access_token` writes have distinct names. */
  lemma ClientAssertionUnique(cfg: Settings, jti: int)
    ensures Dicts.UniqueKeys(ClientAssertion(cfg, jti))
  {
    var d := ClientAssertion(cfg, jti);
    assert d[0].0[0] == 'i' && d[1].0[0] == 's' && d[2].0[0] == 'a' && d[3].0[0] == 'j';
  }

  /**
   * `create_tool_jwt` over a dict whose keys are unique: `iss`, `aud` and `exp`
   * are its own, `sub` and `jti` are the caller's.
   */
  lemma ToolClaimsOver(d: Dicts.Items<Json>, cfg: Settings, iat: int, sub: Json, jti: Json)
    requires Dicts.UniqueKeys(d)
    requires ("sub", sub) in d && ("jti", jti) in d
    ensures var r := Lti13Validator.WithToolClaims(d, cfg, iat);
      && Dicts.Lookup(r, "iss") == Some(JStr(cfg.toolUrl))
      && Dicts.Lookup(r, "aud") == Some(JStr(cfg.platformIssuer))
      && Dicts.Lookup(r, "sub") == Some(sub)
      && Dicts.Lookup(r, "jti") == Some(jti)
      && Dicts.Lookup(r, "exp") == Some(JInt(iat + 3600))
      && Dicts.UniqueKeys(r)
  {
    Dicts.LookupUnique(d, "sub", sub);
    Dicts.LookupUnique(d, "jti", jti);
    Lti13Validator.ToolClaimsOverwrite(d, cfg, iat);
    assert "sub" !in {"iss", "aud", "iat", "exp"} && "jti" !in {"iss", "aud", "iat", "exp"};
  }

  /**
   * The assertion that is signed identifies the tool by its URL and names the
   * platform issuer as audience, not the client id and the token endpoint
   * `get_access_token` wrote; `sub` and `jti` survive, and `exp` is one hour
   * after signing.
   */
  lemma AssertionClaims(cfg: Settings, clock: TokenClock)
    ensures var a := SignedAssertion(cfg, clock);
      && Dicts.Lookup(a, "iss") == Some(JStr(cfg.toolUrl))
      && Dicts.Lookup(a, "aud") == Some(JStr(cfg.platformIssuer))
      && Dicts.Lookup(a, "sub") == Some(JStr(cfg.clientId))
      && Dicts.Lookup(a, "jti") == Some(JStr("lti-service-token-" + Strings.IntToString(clock.jti)))
      && Dicts.Lookup(a, "exp") == Some(JInt(clock.signing + 3600))
      && Dicts.UniqueKeys(a)
  {
    var d := ClientAssertion(cfg, clock.jti);
    ClientAssertionUnique(cfg, clock.jti);
    ToolClaimsOver(d, cfg, clock.signing, d[1].1, d[3].1);
  }

  /** The form of the token request. */
  function TokenForm(assertion: string): Dicts.Items<string>
  {
    [("grant_type", "client_credentials"),
     ("client_assertion_type", AssertionType),
     ("client_assertion", assertion),
     ("scope", ScoreScope)]
  }

  function TokenRequest(cfg: Settings, assertion: string): Http.Request
  {
    Http.Request("POST", cfg.platformTokenUrl, [("Content-Type", TokenContentType)], Http.Form(TokenForm(assertion)))
  }

  /** The token request is a client-credentials grant carrying the signed assertion, for the score scope only. */
  lemma TokenRequestGrant(cfg: Settings, assertion: string)
    ensures var form := TokenRequest(cfg, assertion).body.fields;
      && TokenRequest(cfg, assertion).url == cfg.platformTokenUrl
      && Dicts.Lookup(form, "grant_type") == Some("client_credentials")
      && Dicts.Lookup(form, "client_assertion_type") == Some(AssertionType)
      && Dicts.Lookup(form, "client_assertion") == Some(assertion)
      && Dicts.Lookup(form, "scope") == Some(ScoreScope)
      && Dicts.UniqueKeys(form)
  {
    var form := TokenForm(assertion);
    assert Dicts.UniqueKeys(form) by {
      assert |form[0].0| == 10 && |form[1].0| == 21 && |form[2].0| == 16 && |form[3].0| == 5;
    }
    Dicts.LookupAt(form, 0);
    Dicts.LookupAt(form, 1);
    Dicts.LookupAt(form, 2);
    Dicts.LookupAt(form, 3);
  }

  /** What the token endpoint's answer gives: a token and its expiry, a token only, or an error message. */
  datatype Fetch = Fetched(token: Json, expiry: real) | TokenOnly(token: Json, message: string) | FetchFailed(message: string)

  /** The message of `doc['access_token']` failing on a value that is not a dict. */
  function NotSubscriptable(doc: Json): string
  {
    match doc
    case JArr(_) => "list indices must be integers or slices, not str"
    case JStr(_) => "string indices must be integers, not 'str'"
    case _ => "'" + TypeName(doc) + "' object is not subscriptable"
  }

  /** The message of `float + x` for an `x` that is not a number. */
  function UnsupportedAdd(x: Json): string
  {
    "unsupported operand type(s) for +: 'float' and '" + TypeName(x) + "'"
  }

  /** `expires_in` as given, or 3600 when absent. */
  function ExpiresIn(fields: map<string, Json>): Json
  {
    Get(fields, "expires_in").GetOr(JInt(3600))
  }

  /** Reading the token endpoint's answer: `raise_for_status`, `.json()`, `['access_token']`, then the expiry. */
  function ReadTokenResponse(response: Http.Response, stored: real): Fetch
  {
    var status := Http.RaiseForStatus(response);
    if status.Some? then FetchFailed(status.value)
    else if response.json.Raised? then FetchFailed(response.json.message)
    else
      var doc := response.json.value;
      if !doc.JObj? then FetchFailed(NotSubscriptable(doc))
      else if "access_token" !in doc.fields then FetchFailed("'access_token'")
      else
        var token := doc.fields["access_token"];
        var expiresIn := ExpiresIn(doc.fields);
        if Number(expiresIn).None? then TokenOnly(token, UnsupportedAdd(expiresIn))
        else Fetched(token, stored + Number(expiresIn).value)
  }

  /** A fresh token and its expiry come from a 2xx or 3xx answer whose JSON object holds `access_token`. */
  lemma FetchedToken(response: Http.Response, stored: real)
    ensures var f := ReadTokenResponse(response, stored);
      f.Fetched? <==>
        && !(400 <= response.status < 600)
        && response.json.Ok? && response.json.value.JObj?
        && "access_token" in response.json.value.fields
        && Number(ExpiresIn(response.json.value.fields)).Some?
    ensures var f := ReadTokenResponse(response, stored);
      f.Fetched? ==>
        && f.token == response.json.value.fields["access_token"]
        && f.expiry == stored + Number(ExpiresIn(response.json.value.fields)).value
        && ("expires_in" !in response.json.value.fields ==> f.expiry == stored + 3600.0)
  {
  }

  /** What `create_tool_jwt` gives for the assertion: the signed token, or the error it raises. */
  function Signing(cfg: Settings, clock: TokenClock, sign: (Dicts.Items<Json>, string) -> Result<string>): Result<string>
  {
    var signed := sign(SignedAssertion(cfg, clock), cfg.keyId);
    if signed.Raised? then Raised("JWT creation failed: " + signed.message) else signed
  }

  /** Obtaining a token once the assertion is signed: post the form, read the answer. */
  function FetchToken(cfg: Settings, assertion: Result<string>, stored: real, send: Http.Request -> Http.Outcome): Fetch
  {
    if assertion.Raised? then FetchFailed(assertion.message)
    else
      match send(TokenRequest(cfg, assertion.value))
      case Failed(m) => FetchFailed(m)
      case Answered(response) => ReadTokenResponse(response, stored)
  }

  /** The result of `get_access_token` and the two cached fields after it. */
  datatype TokenOutcome = TokenOutcome(result: Result<Json>, accessToken: Json, tokenExpiry: Option<real>)

  /** The cache holds a token that is still valid at `check`. */
  predicate Cached(accessToken: Json, tokenExpiry: Option<real>, check: real)
  {
    Truthy(accessToken) && tokenExpiry.Some? && tokenExpiry.value != 0.0 && check < tokenExpiry.value
  }

  function TokenError(message: string): string
  {
    "Token request failed: " + message
  }

  /** How a fetch ends the token step, from the cached fields it starts with. */
  function FetchOutcome(accessToken: Json, tokenExpiry: Option<real>, f: Fetch): TokenOutcome
  {
    match f
    case Fetched(t, e) => TokenOutcome(Ok(t), t, Some(e))
    case TokenOnly(t, m) => TokenOutcome(Raised(TokenError(m)), t, tokenExpiry)
    case FetchFailed(m) => TokenOutcome(Raised(TokenError(m)), accessToken, tokenExpiry)
  }

  /**
   * `get_access_token` from the cached fields it starts with, the clock
   * readings, the outcome of signing the assertion and the network.
   */
  function TokenStep(accessToken: Json, tokenExpiry: Option<real>, cfg: Settings, clock: TokenClock,
                     assertion: Result<string>, send: Http.Request -> Http.Outcome): TokenOutcome
  {
    if Cached(accessToken, tokenExpiry, clock.check) then TokenOutcome(Ok(accessToken), accessToken, tokenExpiry)
    else FetchOutcome(accessToken, tokenExpiry, FetchToken(cfg, assertion, clock.stored, send))
  }

  /**
   * A valid cached token is returned as it is, with no request made (whatever
   * the signer and the network would do) and the cache unchanged.
   */
  lemma CachedTokenReused(accessToken: Json, tokenExpiry: Option<real>, cfg: Settings, clock: TokenClock,
                          assertion1: Result<string>, send1: Http.Request -> Http.Outcome,
                          assertion2: Result<string>, send2: Http.Request -> Http.Outcome)
    requires Cached(accessToken, tokenExpiry, clock.check)
    ensures TokenStep(accessToken, tokenExpiry, cfg, clock, assertion1, send1) == TokenOutcome(Ok(accessToken), accessToken, tokenExpiry)
    ensures TokenStep(accessToken, tokenExpiry, cfg, clock, assertion1, send1) == TokenStep(accessToken, tokenExpiry, cfg, clock, assertion2, send2)
  {
  }

  /**
   * Without a valid cached token the outcome is the fetch's: a fresh token
   * fills both fields; every failure raises `Token request failed: …` and
   * keeps the expiry, and keeps the token too unless the failure came after
   * `access_token` was stored (an `expires_in` that is not a number).
   */
  lemma TokenRefreshed(accessToken: Json, tokenExpiry: Option<real>, cfg: Settings, clock: TokenClock,
                       assertion: Result<string>, send: Http.Request -> Http.Outcome)
    requires !Cached(accessToken, tokenExpiry, clock.check)
    ensures var o := TokenStep(accessToken, tokenExpiry, cfg, clock, assertion, send);
      var f := FetchToken(cfg, assertion, clock.stored, send);
      && (o.result.Ok? <==> f.Fetched?)
      && (f.Fetched? ==> o.result == Ok(f.token) && o.accessToken == f.token && o.tokenExpiry == Some(f.expiry))
      && (o.result.Raised? ==> o.result.message == TokenError(f.message) && o.tokenExpiry == tokenExpiry)
      && (f.FetchFailed? ==> o.accessToken == accessToken)
  {
  }

  /** A failed signature, a transport failure or an error status all fail the fetch. */
  lemma FetchFailures(cfg: Settings, assertion: Result<string>, stored: real, send: Http.Request -> Http.Outcome)
    ensures assertion.Raised? ==> FetchToken(cfg, assertion, stored, send) == FetchFailed(assertion.message)
    ensures assertion.Ok? && send(TokenRequest(cfg, assertion.value)).Failed? ==>
      FetchToken(cfg, assertion, stored, send) == FetchFailed(send(TokenRequest(cfg, assertion.value)).message)
    ensures assertion.Ok? && send(TokenRequest(cfg, assertion.value)).Answered?
            && 400 <= send(TokenRequest(cfg, assertion.value)).response.status < 600 ==>
      FetchToken(cfg, assertion, stored, send).FetchFailed?
  {
  }

  /** A score as `submit_grade` receives it; `timestamp` is `datetime.utcnow().isoformat()`. */
  datatype Score = Score(userId: string, scoreGiven: real, scoreMaximum: real, comment: Option<string>,
                         activityProgress: string, gradingProgress: string, timestamp: string)

  /** `comment` (an optional string) is truthy. */
  predicate Given(s: Option<string>)
  {
    s.Some? && s.value != []
  }

  /** The score document. */
  function ScoreDocument(score: Score): Dicts.Items<Json>
  {
    [("timestamp", JStr(score.timestamp + "Z")),
     ("scoreGiven", JFloat(score.scoreGiven)),
     ("scoreMaximum", JFloat(score.scoreMaximum)),
     ("userId", JStr(score.userId)),
     ("activityProgress", JStr(score.activityProgress)),
     ("gradingProgress", JStr(score.gradingProgress))]
    + (if Given(score.comment) then [("comment", JStr(score.comment.value))] else [])
  }

  /** The score document has the six fields, in order, and `comment` last exactly when one is given. */
  lemma ScoreDocumentFields(score: Score)
    ensures Dicts.Keys(ScoreDocument(score))
         == ["timestamp", "scoreGiven", "scoreMaximum", "userId", "activityProgress", "gradingProgress"]
            + (if Given(score.comment) then ["comment"] else [])
    ensures Given(score.comment) ==> ScoreDocument(score)[6] == ("comment", JStr(score.comment.value))
  {
  }

  /** `f"{lineitems.rstrip('/')}/scores"` */
  function ScoresUrl(lineitems: string): string
  {
    Strings.RStripChar(lineitems, '/') + "/scores"
  }

  /** The scores URL is the line-items URL without its trailing slashes, then `/scores`. */
  lemma ScoresUrlShape(lineitems: string)
    ensures var u := ScoresUrl(lineitems);
      var base := u[..|u| - 7];
      && u[|u| - 7..] == "/scores"
      && base <= lineitems
      && (base != [] ==> base[|base| - 1] != '/')
      && forall i :: |base| <= i < |lineitems| ==> lineitems[i] == '/'
  {
    var base := Strings.RStripChar(lineitems, '/');
    assert ScoresUrl(lineitems)[..|ScoresUrl(lineitems)| - 7] == base;
  }

  function Bearer(token: Json): (string, string)
  {
    ("Authorization", "Bearer " + Str(token))
  }

  function ScoreRequest(lineitems: string, token: Json, score: Score): Http.Request
  {
    Http.Request("POST", ScoresUrl(lineitems),
                 [Bearer(token), ("Content-Type", "application/vnd.ims.lis.v1.score+json")],
                 Http.JsonBody(ScoreDocument(score)))
  }

  /** What `submit_grade` returns once the token step has given `token`. */
  predicate ScoreAccepted(token: Result<Json>, agsClaim: Object, score: Score, send: Http.Request -> Http.Outcome)
  {
    && token.Ok?
    && TruthyAt(agsClaim, "lineitems")
    && agsClaim["lineitems"].JStr?
    && var outcome := send(ScoreRequest(agsClaim["lineitems"].s, token.value, score));
    && outcome.Answered? && Http.Created(outcome.response.status)
  }

  /**
   * `submit_grade` is false without a token or a line-items URL, whatever the
   * network does, and otherwise true exactly when the platform answers the
   * score request with 200 or 201.
   */
  lemma ScoreAcceptedCases(token: Result<Json>, agsClaim: Object, score: Score,
                           send1: Http.Request -> Http.Outcome, send2: Http.Request -> Http.Outcome)
    ensures (token.Raised? || !TruthyAt(agsClaim, "lineitems")) ==>
      !ScoreAccepted(token, agsClaim, score, send1) && !ScoreAccepted(token, agsClaim, score, send2)
    ensures token.Ok? && "lineitems" in agsClaim && agsClaim["lineitems"].JStr? && agsClaim["lineitems"].s != [] ==>
      var outcome := send1(ScoreRequest(agsClaim["lineitems"].s, token.value, score));
      (ScoreAccepted(token, agsClaim, score, send1) <==> outcome.Answered? && outcome.response.status in {200, 201})
  {
  }

  /** `f"{lineitems_url}/{lineitem_id}"` when an id is given, `lineitems_url` otherwise. */
  function LineitemUrl(lineitems: Json, lineitemId: Option<string>): string
  {
    if Given(lineitemId) then Str(lineitems) + "/" + lineitemId.value else Str(lineitems)
  }

  function LineitemRequest(lineitems: Json, lineitemId: Option<string>, token: Json): Http.Request
  {
    Http.Request("GET", LineitemUrl(lineitems, lineitemId),
                 [Bearer(token), ("Accept", "application/vnd.ims.lis.v2.lineitem+json")], Http.NoBody)
  }

  /** What `get_lineitem` returns once the token step has given `token` (`JNull` for Python's `None`). */
  function LineitemFound(token: Result<Json>, agsClaim: Object, lineitemId: Option<string>,
                         send: Http.Request -> Http.Outcome): Json
  {
    if token.Raised? || !TruthyAt(agsClaim, "lineitems") then JNull
    else match send(LineitemRequest(agsClaim["lineitems"], lineitemId, token.value))
      case Failed(_) => JNull
      case Answered(response) =>
        if Http.RaiseForStatus(response).Some? || response.json.Raised? then JNull else response.json.value
  }

  /**
   * The document `create_lineitem` posts: `scoreMaximum` and `label`, then
   * `resourceId` and `tag` each stored only when given.
   */
  function LineitemDocument(labelText: string, scoreMaximum: real, resourceId: Option<string>, tag: Option<string>): Dicts.Items<Json>
  {
    PutIfGiven(PutIfGiven(LineitemRequired(labelText, scoreMaximum), "resourceId", resourceId), "tag", tag)
  }

  function LineitemRequired(labelText: string, scoreMaximum: real): Dicts.Items<Json>
  {
    [("scoreMaximum", JFloat(scoreMaximum)), ("label", JStr(labelText))]
  }

  /** `if value: d[k] = value` */
  function PutIfGiven(d: Dicts.Items<Json>, k: string, o: Option<string>): Dicts.Items<Json>
  {
    if Given(o) then Dicts.Put(d, k, JStr(o.value)) else d
  }

  /** The line-item document has the two required fields first, then `resourceId` and `tag` exactly when given, each once. */
  lemma LineitemDocumentFields(labelText: string, scoreMaximum: real, resourceId: Option<string>, tag: Option<string>)
    ensures Dicts.Keys(LineitemDocument(labelText, scoreMaximum, resourceId, tag))
         == ["scoreMaximum", "label"] + (if Given(resourceId) then ["resourceId"] else []) + (if Given(tag) then ["tag"] else [])
  {
    var required := LineitemRequired(labelText, scoreMaximum);
    var k0 := ["scoreMaximum", "label"];
    var k1 := k0 + (if Given(resourceId) then ["resourceId"] else []);
    RequiredKeys(labelText, scoreMaximum);
    PutIfGivenKeys(required, k0, "resourceId", resourceId);
    PutIfGivenKeys(PutIfGiven(required, "resourceId", resourceId), k1, "tag", tag);
  }

  /** The two fields every line item has, and neither optional field among them. */
  lemma RequiredKeys(labelText: string, scoreMaximum: real)
    ensures Dicts.Keys(LineitemRequired(labelText, scoreMaximum)) == ["scoreMaximum", "label"]
    ensures "resourceId" !in ["scoreMaximum", "label"]
    ensures "tag" !in ["scoreMaximum", "label"] && "tag" !in ["scoreMaximum", "label", "resourceId"]
  {
    var required := LineitemRequired(labelText, scoreMaximum);
    assert Dicts.Keys(required) == [required[0].0] + Dicts.Keys(required[1..]);
  }

  /** Storing an optional field that the dict does not have appends its key exactly when the value is given. */
  lemma PutIfGivenKeys(d: Dicts.Items<Json>, ks: seq<string>, k: string, o: Option<string>)
    requires Dicts.Keys(d) == ks && k !in ks
    ensures Dicts.Keys(PutIfGiven(d, k, o)) == ks + (if Given(o) then [k] else [])
  {
    if Given(o) {
      Dicts.PutKeys(d, k, JStr(o.value));
    }
  }

  /** The dict `create_lineitem` fills: the two required fields, then each optional one that is given. */
  method BuildLineitem(labelText: string, scoreMaximum: real, resourceId: Option<string>, tag: Option<string>)
    returns (doc: Dicts.Items<Json>)
    ensures Dicts.Keys(doc)
         == ["scoreMaximum", "label"] + (if Given(resourceId) then ["resourceId"] else []) + (if Given(tag) then ["tag"] else [])
    ensures doc == LineitemDocument(labelText, scoreMaximum, resourceId, tag)
  {
    doc := [("scoreMaximum", JFloat(scoreMaximum)), ("label", JStr(labelText))];
    if Given(resourceId) {
      doc := Dicts.Put(doc, "resourceId", JStr(resourceId.value));
    }
    if Given(tag) {
      doc := Dicts.Put(doc, "tag", JStr(tag.value));
    }
    LineitemDocumentFields(labelText, scoreMaximum, resourceId, tag);
  }

  function CreateLineitemRequest(lineitems: Json, token: Json, doc: Dicts.Items<Json>): Http.Request
  {
    Http.Request("POST", Str(lineitems),
                 [Bearer(token), ("Content-Type", "application/vnd.ims.lis.v2.lineitem+json")], Http.JsonBody(doc))
  }

  /** What `create_lineitem` returns once the token step has given `token` (`JNull` for `None`). */
  function LineitemCreated(token: Result<Json>, agsClaim: Object, doc: Dicts.Items<Json>, send: Http.Request -> Http.Outcome): Json
  {
    if token.Raised? || !TruthyAt(agsClaim, "lineitems") then JNull
    else match send(CreateLineitemRequest(agsClaim["lineitems"], token.value, doc))
      case Failed(_) => JNull
      case Answered(response) =>
        if Http.Created(response.status) && response.json.Ok? then response.json.value else JNull
  }

  /**
   * The lookup asks for the line-items URL itself when no id is given, and
   * for that URL extended by `/` and the id when one is.
   */
  lemma LineitemLookupUrl(lineitems: Json, lineitemId: Option<string>, token: Json)
    ensures var url := LineitemRequest(lineitems, lineitemId, token).url;
      && Str(lineitems) <= url
      && (Given(lineitemId) <==> |url| > |Str(lineitems)|)
      && (Given(lineitemId) ==> url[|Str(lineitems)|..] == "/" + lineitemId.value)
  {
    if Given(lineitemId) {
      var url := LineitemRequest(lineitems, lineitemId, token).url;
      assert url == Str(lineitems) + ("/" + lineitemId.value);
    }
  }

  /**
   * Both line-item calls give `None` without a token or a line-items URL, and
   * a created line item is returned only for status 200 or 201.
   */
  lemma LineitemCases(token: Result<Json>, agsClaim: Object, lineitemId: Option<string>, doc: Dicts.Items<Json>,
                      send: Http.Request -> Http.Outcome)
    ensures (token.Raised? || !TruthyAt(agsClaim, "lineitems")) ==>
      LineitemFound(token, agsClaim, lineitemId, send) == JNull && LineitemCreated(token, agsClaim, doc, send) == JNull
    ensures LineitemCreated(token, agsClaim, doc, send) != JNull ==>
      var outcome := send(CreateLineitemRequest(agsClaim["lineitems"], token.value, doc));
      outcome.Answered? && Http.Created(outcome.response.status)
  {
  }

  /** The `LTI13GradeService` object: the cached access token and its expiry time. */
  class AgsClient {
    var accessToken: Json
    var tokenExpiry: Option<real>

    constructor()
      ensures accessToken == JNull && tokenExpiry == None
    {
      accessToken := JNull;
      tokenExpiry := None;
    }

    /** `get_access_token` */
    method GetAccessToken(cfg: Settings, validator: Lti13Validator.Validator, clock: TokenClock,
                          sign: (Dicts.Items<Json>, string) -> Result<string>, send: Http.Request -> Http.Outcome)
      returns (r: Result<Json>)
      modifies this
      ensures TokenOutcome(r, accessToken, tokenExpiry)
           == TokenStep(old(accessToken), old(tokenExpiry), cfg, clock, Signing(cfg, clock, sign), send)
    {
      if Truthy(accessToken) && tokenExpiry.Some? && tokenExpiry.value != 0.0 {
        if clock.check < tokenExpiry.value {
          return Ok(accessToken);
        }
      }
      var payload := new Dicts.Dict(ClientAssertion(cfg, clock.jti));
      var assertion := validator.CreateToolJwt(cfg, payload, clock.signing, sign);
      r := RequestToken(cfg, assertion, clock.stored, send);
    }

    /** The part of `get_access_token` after signing: the token request and the update of the two fields. */
    method RequestToken(cfg: Settings, assertion: Result<string>, stored: real, send: Http.Request -> Http.Outcome)
      returns (r: Result<Json>)
      modifies this
      ensures TokenOutcome(r, accessToken, tokenExpiry)
           == FetchOutcome(old(accessToken), old(tokenExpiry), FetchToken(cfg, assertion, stored, send))
    {
      if assertion.Raised? {
        return Raised(TokenError(assertion.message));
      }
      var outcome := send(TokenRequest(cfg, assertion.value));
      if outcome.Failed? {
        return Raised(TokenError(outcome.message));
      }
      var response := outcome.response;
      var status := Http.RaiseForStatus(response);
      if status.Some? {
        return Raised(TokenError(status.value));
      }
      if response.json.Raised? {
        return Raised(TokenError(response.json.message));
      }
      var doc := response.json.value;
      if !doc.JObj? {
        return Raised(TokenError(NotSubscriptable(doc)));
      }
      if "access_token" !in doc.fields {
        return Raised(TokenError("'access_token'"));
      }
      accessToken := doc.fields["access_token"];
      var expiresIn := ExpiresIn(doc.fields);
      var seconds := Number(expiresIn);
      if seconds.None? {
        return Raised(TokenError(UnsupportedAdd(expiresIn)));
      }
      tokenExpiry := Some(stored + seconds.value);
      return Ok(accessToken);
    }

    /** `submit_grade`: never raises; true only when the platform accepted the score. */
    method SubmitGrade(cfg: Settings, validator: Lti13Validator.Validator, clock: TokenClock,
                       sign: (Dicts.Items<Json>, string) -> Result<string>, send: Http.Request -> Http.Outcome,
                       agsClaim: Object, score: Score)
      returns (ok: bool)
      modifies this
      ensures var step := TokenStep(old(accessToken), old(tokenExpiry), cfg, clock, Signing(cfg, clock, sign), send);
        && accessToken == step.accessToken && tokenExpiry == step.tokenExpiry
        && ok == ScoreAccepted(step.result, agsClaim, score, send)
    {
      var token := GetAccessToken(cfg, validator, clock, sign, send);
      if token.Raised? {
        return false;
      }
      var lineitems := Get(agsClaim, "lineitems");
      if lineitems.None? || !Truthy(lineitems.value) {
        return false;
      }
      if !lineitems.value.JStr? {
        return false;
      }
      var request := ScoreRequest(lineitems.value.s, token.value, score);
      var outcome := send(request);
      if outcome.Failed? {
        return false;
      }
      ok := outcome.response.status == 200 || outcome.response.status == 201;
    }

    /** `get_lineitem` */
    method GetLineitem(cfg: Settings, validator: Lti13Validator.Validator, clock: TokenClock,
                       sign: (Dicts.Items<Json>, string) -> Result<string>, send: Http.Request -> Http.Outcome,
                       agsClaim: Object, lineitemId: Option<string>)
      returns (r: Json)
      modifies this
      ensures var step := TokenStep(old(accessToken), old(tokenExpiry), cfg, clock, Signing(cfg, clock, sign), send);
        && accessToken == step.accessToken && tokenExpiry == step.tokenExpiry
        && r == LineitemFound(step.result, agsClaim, lineitemId, send)
    {
      ghost var step := TokenStep(accessToken, tokenExpiry, cfg, clock, Signing(cfg, clock, sign), send);
      var token := GetAccessToken(cfg, validator, clock, sign, send);
      assert token == step.result && accessToken == step.accessToken && tokenExpiry == step.tokenExpiry;
      if token.Raised? {
        return JNull;
      }
      var lineitems := Get(agsClaim, "lineitems");
      if lineitems.None? || !Truthy(lineitems.value) {
        return JNull;
      }
      var outcome := send(LineitemRequest(lineitems.value, lineitemId, token.value));
      if outcome.Failed? {
        return JNull;
      }
      if Http.RaiseForStatus(outcome.response).Some? || outcome.response.json.Raised? {
        return JNull;
      }
      r := outcome.response.json.value;
    }

    /** `create_lineitem` */
    method CreateLineitem(cfg: Settings, validator: Lti13Validator.Validator, clock: TokenClock,
                          sign: (Dicts.Items<Json>, string) -> Result<string>, send: Http.Request -> Http.Outcome,
                          agsClaim: Object, labelText: string, scoreMaximum: real, resourceId: Option<string>, tag: Option<string>)
      returns (r: Json)
      modifies this
      ensures var step := TokenStep(old(accessToken), old(tokenExpiry), cfg, clock, Signing(cfg, clock, sign), send);
        && accessToken == step.accessToken && tokenExpiry == step.tokenExpiry
        && r == LineitemCreated(step.result, agsClaim, LineitemDocument(labelText, scoreMaximum, resourceId, tag), send)
    {
      ghost var step := TokenStep(accessToken, tokenExpiry, cfg, clock, Signing(cfg, clock, sign), send);
      var token := GetAccessToken(cfg, validator, clock, sign, send);
      assert token == step.result && accessToken == step.accessToken && tokenExpiry == step.tokenExpiry;
      if token.Raised? {
        return JNull;
      }
      var lineitems := Get(agsClaim, "lineitems");
      if lineitems.None? || !Truthy(lineitems.value) {
        return JNull;
      }
      var doc := BuildLineitem(labelText, scoreMaximum, resourceId, tag);
      var outcome := send(CreateLineitemRequest(lineitems.value, token.value, doc));
      if outcome.Failed? {
        return JNull;
      }
      if Http.Created(outcome.response.status) && outcome.response.json.Ok? {
        return outcome.response.json.value;
      }
      return JNull;
    }
  }
}
