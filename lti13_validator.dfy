/**
 * The LTI 1.3 launch validator: a per-issuer cache of platform key sets (JWK
 * Sets, RFC 7517 section 5) with a one-hour lifetime, the validation of an
 * `id_token` against the key chosen by `kid`, the checks of the message's
 * claims (RFC 7519 section 4.1 and the LTI claims) and the claim overwrite done
 * before the tool signs a token of its own.
 *
 * The clock, the network, the JWT library and the RSA key are parameters: each
 * reading of `time.time()` is a `real`, the JWKS download a function from URL to
 * the decoded body (or `None` on any failure), the verification of a signature
 * with a chosen key a function to a `DecodeOutcome`.
 */
module Lti13Validator {
  import opened Wrappers
  import opened JsonValues
  import opened Config
  import Strings
  import Dicts
  import Models

  /** Lifetime of a cached key set, in seconds. */
  const CacheLifetime: real := 3600.0

  datatype CacheEntry = CacheEntry(jwks: Json, timestamp: real)

  type Cache = map<string, CacheEntry>

  /** The key set returned when the download fails: `{"keys": []}`. */
  const EmptyKeySet: Json := JObj(map["keys" := JArr([])])

  /** A cached key set for `issuer` is still served at time `now`. */
  predicate CacheFresh(cache: Cache, expiry: real, issuer: string, now: real)
  {
    issuer in cache && now - cache[issuer].timestamp < expiry
  }

  /** Where the key set of `issuer` is downloaded from. */
  function JwksUrl(cfg: Settings, issuer: string): string
  {
    if Strings.Contains(Strings.Lower(issuer), "moodle") || issuer == cfg.platformIssuer then cfg.platformJwksUrl
    else issuer + "/.well-known/jwks.json"
  }

  /** The key set `get_platform_jwks` returns. */
  function Served(cache: Cache, expiry: real, cfg: Settings, issuer: string, now: real,
                  fetch: string -> Option<Json>): Json
  {
    if CacheFresh(cache, expiry, issuer, now) then cache[issuer].jwks
    else match fetch(JwksUrl(cfg, issuer))
      case Some(jwks) => jwks
      case None => EmptyKeySet
  }

  /** The cache after `get_platform_jwks`; `storedAt` is the clock reading taken when storing. */
  function Stored(cache: Cache, expiry: real, cfg: Settings, issuer: string, now: real, storedAt: real,
                  fetch: string -> Option<Json>): Cache
  {
    if CacheFresh(cache, expiry, issuer, now) then cache
    else match fetch(JwksUrl(cfg, issuer))
      case Some(jwks) => cache[issuer := CacheEntry(jwks, storedAt)]
      case None => cache
  }

  /**
   * A key set stored at time `t` is served from the cache exactly while fewer
   * than 3600 seconds have passed: at 3600 seconds it is downloaded again.
   */
  lemma CacheWindow(cache: Cache, cfg: Settings, issuer: string, jwks: Json, t: real, now: real,
                    fetch: string -> Option<Json>)
    ensures var c := cache[issuer := CacheEntry(jwks, t)];
      (now < t + 3600.0 ==> Served(c, CacheLifetime, cfg, issuer, now, fetch) == jwks)
      && (now < t + 3600.0 <==> CacheFresh(c, CacheLifetime, issuer, now))
  {
  }

  /** The key set and the cache entry of one issuer do not depend on another issuer's entry. */
  lemma CacheEntriesIndependent(cache: Cache, cfg: Settings, issuer: string, other: string, e: CacheEntry,
                                now: real, fetch: string -> Option<Json>)
    requires other != issuer
    ensures Served(cache[other := e], CacheLifetime, cfg, issuer, now, fetch)
         == Served(cache, CacheLifetime, cfg, issuer, now, fetch)
  {
  }

  /**
   * The token's own issuer decides where its keys come from: the configured
   * URL, or a URL under the issuer's name. Every issuer that mentions Moodle,
   * in any letter case, is trusted with the configured key set.
   */
  lemma JwksUrlChoice(cfg: Settings, issuer: string)
    ensures JwksUrl(cfg, issuer) == cfg.platformJwksUrl || issuer < JwksUrl(cfg, issuer)
    ensures Strings.Contains(Strings.Lower(issuer), "moodle") ==> JwksUrl(cfg, issuer) == cfg.platformJwksUrl
  {
  }

  /** What the JWT library's verifying `decode` gives for a token, a key, an audience and an issuer. */
  datatype DecodeOutcome =
    | Decoded(payload: Object)
    | ExpiredSignature
    | InvalidAudience(detail: string)
    | InvalidIssuer(detail: string)
    | InvalidSignature
    | OtherError(detail: string)

  /** The result of `validate_jwt_token`. */
  datatype JwtResult = JwtValid(payload: Object, warnings: seq<string>) | JwtInvalid(error: string)

  const DebugSkipWarning: string := "Signature verification skipped in debug mode"

  /** The mapping of the library's exceptions to the result, as the `except` clauses do it. */
  function DecodeResult(o: DecodeOutcome): (r: JwtResult)
    ensures r.JwtValid? <==> o.Decoded?
    ensures o.Decoded? ==> r == JwtValid(o.payload, [])
  {
    match o
    case Decoded(p) => JwtValid(p, [])
    case ExpiredSignature => JwtInvalid("Token expired")
    case InvalidAudience(d) => JwtInvalid("Invalid audience: " + d)
    case InvalidIssuer(d) => JwtInvalid("Invalid issuer: " + d)
    case InvalidSignature => JwtInvalid("Invalid signature")
    case OtherError(d) => JwtInvalid(d)
  }

  /** The outcome of the key-selection loop. */
  datatype KeyChoice = KeyAt(index: nat, key: Object) | NoKey | KeyFault(message: string)

  /**
   * With a truthy `kid`, a key matches when its `kid` is equal by Python's
   * `==`; otherwise when its `use` is `"sig"`.
   */
  predicate KeyMatches(key: Object, kid: Option<Json>)
  {
    if kid.Some? && Truthy(kid.value) then "kid" in key && PyEq(key["kid"], kid.value)
    else Get(key, "use") == Some(JStr("sig"))
  }
  /**
   * A string `kid` matches only the same string; a numeric `kid` matches a
   * key whose `kid` has the same value, whatever its numeric type.
   */
  lemma KidMatchesByValue(key: Object, kid: Json)
    requires Truthy(kid)
    ensures kid.JStr? ==> (KeyMatches(key, Some(kid)) <==> Get(key, "kid") == Some(kid))
    ensures Number(kid).Some? && "kid" in key && Number(key["kid"]) == Number(kid) ==> KeyMatches(key, Some(kid))
  {
    if kid.JStr? && "kid" in key {
      PyEqScalars(kid.s, key["kid"], kid, kid);
      assert PyEq(key["kid"], kid) <==> PyEq(kid, key["kid"]) by {
        PyEqSymmetricString(kid.s, key["kid"]);
      }
    }
    if "kid" in key {
      PyEqScalars("", key["kid"], key["kid"], kid);
    }
  }


  /** The first matching key at or after `from`; a non-object entry ends the loop with an error. */
  function SelectKey(entries: seq<Json>, kid: Option<Json>, from: nat): (c: KeyChoice)
    requires from <= |entries|
    ensures c.KeyAt? ==> from <= c.index < |entries|
    decreases |entries| - from
  {
    if from == |entries| then NoKey
    else match entries[from]
      case JObj(key) =>
        if KeyMatches(key, kid) then KeyAt(from, key) else SelectKey(entries, kid, from + 1)
      case other => KeyFault(NoAttribute(TypeName(other), "get"))
  }

  /** The entry at `i` is a key object that does not match. */
  predicate Passed(entries: seq<Json>, kid: Option<Json>, i: int)
    requires 0 <= i < |entries|
  {
    entries[i].JObj? && !KeyMatches(entries[i].fields, kid)
  }

  /**
   * Key selection picks the FIRST matching key: every earlier entry is a key
   * that does not match. Nothing is picked only when every entry is such a key,
   * and the loop fails only on a non-object entry reached before any match.
   */
  lemma {:induction false} SelectKeyFirst(entries: seq<Json>, kid: Option<Json>, from: nat)
    requires from <= |entries|
    ensures var c := SelectKey(entries, kid, from);
      && (c.KeyAt? ==> entries[c.index] == JObj(c.key) && KeyMatches(c.key, kid)
                       && forall j :: from <= j < c.index ==> Passed(entries, kid, j))
      && (c.NoKey? <==> forall j :: from <= j < |entries| ==> Passed(entries, kid, j))
      && (c.KeyFault? ==> exists i :: from <= i < |entries| && !entries[i].JObj?
                                      && forall j :: from <= j < i ==> Passed(entries, kid, j))
    decreases |entries| - from
  {
    if from < |entries| {
      SelectKeyFirst(entries, kid, from + 1);
      var c := SelectKey(entries, kid, from);
      if !Passed(entries, kid, from) {
        assert !forall j :: from <= j < |entries| ==> Passed(entries, kid, j);
      }
    }
  }

  /** Iterating over `jwks['keys']` once it is known to be truthy. */
  function KeyEntries(keys: Json): Result<seq<Json>>
  {
    match keys
    case JArr(xs) => Ok(xs)
    case JStr(s) => Ok(seq(|s|, i requires 0 <= i < |s| => JStr([s[i]])))
    // Iterating a dict gives its keys, all strings: the first one has no `get`.
    case JObj(_) => Raised(NoAttribute("str", "get"))
    case _ => Raised("'" + TypeName(keys) + "' object is not iterable")
  }

  /** `audience or settings.LTI_CLIENT_ID` */
  function Audience(cfg: Settings, audience: Option<string>): string
  {
    if audience.Some? && audience.value != [] then audience.value else cfg.clientId
  }

  /** The part of `validate_jwt_token` after the key set of issuer `iss` has been obtained. */
  function CheckWithKeys(cfg: Settings, header: Object, iss: string, payload: Object, jwks: Json,
                         audience: Option<string>, verify: (Object, string, string) -> DecodeOutcome): JwtResult
  {
    if !jwks.JObj? then JwtInvalid(NoAttribute(TypeName(jwks), "get"))
    else if !TruthyAt(jwks.fields, "keys") then NoKeysResult(cfg, payload)
    else match KeyEntries(jwks.fields["keys"])
      case Raised(m) => JwtInvalid(m)
      case Ok(entries) =>
        KeyChoiceResult(cfg, SelectKey(entries, Get(header, "kid"), 0), Get(header, "kid"), iss, audience, verify)
  }

  /** The outcome for a key set without keys: accepted unverified when `DEBUG` is on. */
  function NoKeysResult(cfg: Settings, payload: Object): JwtResult
  {
    if cfg.debug then JwtValid(payload, [DebugSkipWarning])
    else JwtInvalid("No public keys available for signature verification")
  }

  /** The outcome once the key for `kid` has been looked for among the key set's entries. */
  function KeyChoiceResult(cfg: Settings, choice: KeyChoice, kid: Option<Json>, iss: string,
                           audience: Option<string>, verify: (Object, string, string) -> DecodeOutcome): JwtResult
  {
    match choice
    case KeyFault(m) => JwtInvalid(m)
    case NoKey => JwtInvalid("No matching public key found for kid: " + StrOpt(kid))
    case KeyAt(_, key) => DecodeResult(verify(key, Audience(cfg, audience), iss))
  }

  /** The issuer whose key set `validate_jwt_token` looks up, if it gets that far. */
  function LookedUpIssuer(token: Result<(Object, Object)>): Option<string>
  {
    match token
    case Raised(_) => None
    case Ok((_, payload)) =>
      if "iss" in payload && "aud" in payload && payload["iss"].JStr? then Some(payload["iss"].s) else None
  }

  /**
   * `validate_jwt_token`: `token` is what the unverified decode of the header and
   * payload gives, `cache` the key-set cache on entry.
   */
  function ValidateJwt(cfg: Settings, cache: Cache, expiry: real, now: real, fetch: string -> Option<Json>,
                       token: Result<(Object, Object)>, audience: Option<string>,
                       verify: (Object, string, string) -> DecodeOutcome): JwtResult
  {
    match token
    case Raised(m) => JwtInvalid(m)
    case Ok((header, payload)) =>
      if "iss" !in payload then JwtInvalid("Missing issuer (iss) in JWT")
      else if "aud" !in payload then JwtInvalid("Missing audience (aud) in JWT")
      else match payload["iss"]
        case JStr(iss) =>
          CheckWithKeys(cfg, header, iss, payload, Served(cache, expiry, cfg, iss, now, fetch), audience, verify)
        // A list or dict is not hashable, so the cache lookup fails; any other value has no `lower`.
        case JArr(_) => JwtInvalid("unhashable type: 'list'")
        case JObj(_) => JwtInvalid("unhashable type: 'dict'")
        case other => JwtInvalid(NoAttribute(TypeName(other), "lower"))
  }

  /** A token without `iss` or `aud` is rejected before any key set is looked up or downloaded. */
  lemma MissingIssuerOrAudience(cfg: Settings, c1: Cache, c2: Cache, e1: real, e2: real, n1: real, n2: real,
                                f1: string -> Option<Json>, f2: string -> Option<Json>,
                                header: Object, payload: Object, audience: Option<string>,
                                verify: (Object, string, string) -> DecodeOutcome)
    requires "iss" !in payload || "aud" !in payload
    ensures var r := ValidateJwt(cfg, c1, e1, n1, f1, Ok((header, payload)), audience, verify);
      r.JwtInvalid? && r == ValidateJwt(cfg, c2, e2, n2, f2, Ok((header, payload)), audience, verify)
    ensures LookedUpIssuer(Ok((header, payload))).None?
  {
  }

  /**
   * A key set without keys lets the token through unverified, with its
   * unverified payload and exactly one warning, when `DEBUG` is on (the
   * default); with `DEBUG` off it is rejected. This holds for every served
   * object whose `keys` is absent or falsy (`{}`, `{"keys": null}`,
   * `{"keys": []}`), whether it came from the platform, from the cache or
   * from the fallback after a failed download.
   */
  lemma EmptyKeySetFallback(cfg: Settings, cache: Cache, expiry: real, now: real, fetch: string -> Option<Json>,
                            header: Object, payload: Object, iss: string, audience: Option<string>,
                            verify: (Object, string, string) -> DecodeOutcome)
    requires LookedUpIssuer(Ok((header, payload))) == Some(iss)
    requires var j := Served(cache, expiry, cfg, iss, now, fetch); j.JObj? && !TruthyAt(j.fields, "keys")
    ensures var r := ValidateJwt(cfg, cache, expiry, now, fetch, Ok((header, payload)), audience, verify);
      && (cfg.debug ==> r == JwtValid(payload, [DebugSkipWarning]))
      && (!cfg.debug ==> r == JwtInvalid("No public keys available for signature verification"))
  {
    assert ValidateJwt(cfg, cache, expiry, now, fetch, Ok((header, payload)), audience, verify)
      == CheckWithKeys(cfg, header, iss, payload, Served(cache, expiry, cfg, iss, now, fetch), audience, verify);
  }

  /** A token is accepted with a non-empty key set only when the chosen key verifies it. */
  lemma ValidOnlyByVerification(cfg: Settings, header: Object, iss: string, payload: Object, jwks: Json,
                                audience: Option<string>, verify: (Object, string, string) -> DecodeOutcome)
    requires jwks.JObj? && TruthyAt(jwks.fields, "keys")
    ensures var r := CheckWithKeys(cfg, header, iss, payload, jwks, audience, verify);
      r.JwtValid? ==>
        && KeyEntries(jwks.fields["keys"]).Ok?
        && var c := SelectKey(KeyEntries(jwks.fields["keys"]).value, Get(header, "kid"), 0);
        && c.KeyAt?
        && verify(c.key, Audience(cfg, audience), iss) == Decoded(r.payload)
        && r.warnings == []
  {
  }

  /** The decoded LTI claims checked by `validate_lti_message`. */
  const LtiClaim: string := "https://purl.imsglobal.org/" + "spec/lti/claim/"
  const ClaimMessageType: string := LtiClaim + "message_type"
  const ClaimVersion: string := LtiClaim + "version"
  const ClaimDeploymentId: string := LtiClaim + "deployment_id"
  const ClaimTargetLinkUri: string := LtiClaim + "target_link_uri"

  const RequiredClaims: seq<string> :=
    ["iss", "aud", "exp", "iat", "nonce", ClaimMessageType, ClaimVersion, ClaimDeploymentId]

  /** The result of `validate_lti_message`, or the `TypeError`/`AttributeError` it raises. */
  datatype MessageCheck =
    | MessageChecked(valid: bool, errors: seq<string>, warnings: seq<string>)
    | MessageFault(message: string)

  const ExpiredError: string := "Token has expired"
  const FutureError: string := "Token issued in the future"

  function MissingClaimsError(missing: seq<string>): string
  {
    "Missing required claims: " + StringListRepr(missing)
  }

  function DeploymentError(deployment: Option<Json>): string
  {
    "Invalid deployment ID: " + StrOpt(deployment)
  }

  function VersionWarning(version: Option<Json>): string
  {
    "LTI version " + StrOpt(version) + " may not be fully supported"
  }

  function TypeWarning(messageType: Option<Json>): string
  {
    "Message type " + StrOpt(messageType) + " may not be fully supported"
  }

  function TargetWarning(target: string): string
  {
    "Target link URI doesn't match tool URL: " + target
  }

  /** `exp` and `iat` as compared with the clock: absent means 0. */
  function ClaimNumber(payload: Object, name: string): Option<real>
  {
    Number(Get(payload, name).GetOr(JInt(0)))
  }

  predicate Expired(payload: Object, currentTime: int)
  {
    ClaimNumber(payload, "exp").Some? && ClaimNumber(payload, "exp").value < currentTime as real
  }

  predicate IssuedInFuture(payload: Object, currentTime: int)
  {
    ClaimNumber(payload, "iat").Some? && ClaimNumber(payload, "iat").value > (currentTime + 60) as real
  }

  /** A truthy `target_link_uri` that is not a string has no `startswith`. */
  predicate TargetFault(payload: Object)
  {
    TruthyAt(payload, ClaimTargetLinkUri) && !payload[ClaimTargetLinkUri].JStr?
  }

  /** The message check raises instead of answering. */
  predicate MessageFaults(payload: Object)
  {
    TargetFault(payload) || ClaimNumber(payload, "exp").None? || ClaimNumber(payload, "iat").None?
  }

  /**
   * An LTI 1.3 launch message the tool accepts: every required claim is
   * present, the deployment is the configured one, the token has not expired
   * and was not issued more than 60 seconds in the future.
   */
  predicate LaunchAcceptable(cfg: Settings, payload: Object, currentTime: int)
  {
    && (forall c :: c in RequiredClaims ==> c in payload)
    && Get(payload, ClaimDeploymentId) == Some(JStr(cfg.deploymentId))
    && ClaimNumber(payload, "exp").Some? && ClaimNumber(payload, "exp").value >= currentTime as real
    && ClaimNumber(payload, "iat").Some? && ClaimNumber(payload, "iat").value <= (currentTime + 60) as real
  }

  /** The message type is one of the three the tool supports. */
  predicate SupportedType(messageType: Option<Json>)
  {
    exists t :: t in Models.SupportedMessageTypes && messageType == Some(JStr(t))
  }

  /** A truthy string `target_link_uri` that does not start with the tool URL. */
  predicate ForeignTarget(cfg: Settings, payload: Object)
  {
    TruthyAt(payload, ClaimTargetLinkUri) && payload[ClaimTargetLinkUri].JStr?
    && !(cfg.toolUrl <= payload[ClaimTargetLinkUri].s)
  }

  /** The errors `validate_lti_message` collects, in order, when it does not raise. */
  function MessageErrors(cfg: Settings, payload: Object, currentTime: int): seq<string>
  {
    MissingErrors(payload) + DeploymentErrors(cfg, payload)
    + (if Expired(payload, currentTime) then [ExpiredError] else [])
    + (if IssuedInFuture(payload, currentTime) then [FutureError] else [])
  }

  function MissingErrors(payload: Object): seq<string>
  {
    var missing := Dicts.MissingKeys(RequiredClaims, payload.Keys);
    if missing != [] then [MissingClaimsError(missing)] else []
  }

  function DeploymentErrors(cfg: Settings, payload: Object): seq<string>
  {
    if Get(payload, ClaimDeploymentId) != Some(JStr(cfg.deploymentId))
    then [DeploymentError(Get(payload, ClaimDeploymentId))] else []
  }

  /** The warnings `validate_lti_message` collects, in order, when it does not raise. */
  function MessageWarnings(cfg: Settings, payload: Object): seq<string>
  {
    VersionWarnings(payload) + TypeWarnings(payload) + TargetWarnings(cfg, payload)
  }

  function VersionWarnings(payload: Object): seq<string>
  {
    if Get(payload, ClaimVersion) != Some(JStr("1.3.0")) then [VersionWarning(Get(payload, ClaimVersion))] else []
  }

  function TypeWarnings(payload: Object): seq<string>
  {
    if !SupportedType(Get(payload, ClaimMessageType)) then [TypeWarning(Get(payload, ClaimMessageType))] else []
  }

  function TargetWarnings(cfg: Settings, payload: Object): seq<string>
  {
    if ForeignTarget(cfg, payload) then [TargetWarning(payload[ClaimTargetLinkUri].s)] else []
  }

  /** What `validate_lti_message` returns or raises; `currentTime` is `int(time.time())`. */
  function MessageResult(cfg: Settings, payload: Object, currentTime: int): MessageCheck
  {
    var exp := Get(payload, "exp").GetOr(JInt(0));
    var iat := Get(payload, "iat").GetOr(JInt(0));
    if TargetFault(payload) then
      MessageFault(NoAttribute(TypeName(payload[ClaimTargetLinkUri]), "startswith"))
    else if Number(exp).None? then
      MessageFault("'<' not supported between instances of '" + TypeName(exp) + "' and 'int'")
    else if Number(iat).None? then
      MessageFault("'>' not supported between instances of '" + TypeName(iat) + "' and 'int'")
    else
      var errors := MessageErrors(cfg, payload, currentTime);
      MessageChecked(errors == [], errors, MessageWarnings(cfg, payload))
  }

  /** The check raises exactly on a non-string target URI or a non-numeric `exp` or `iat`. */
  lemma MessageFaultCases(cfg: Settings, payload: Object, currentTime: int)
    ensures MessageResult(cfg, payload, currentTime).MessageFault? <==> MessageFaults(payload)
  {
  }

  /**
   * A message passes the check exactly when it is an acceptable launch: all
   * required claims, the configured deployment, not expired, not issued more
   * than a minute ahead. `valid` is the emptiness of the error list.
   */
  lemma MessageValidIffAcceptable(cfg: Settings, payload: Object, currentTime: int)
    ensures var r := MessageResult(cfg, payload, currentTime);
      r.MessageChecked? ==>
        (r.valid <==> r.errors == []) && (r.valid <==> LaunchAcceptable(cfg, payload, currentTime))
  {
    Dicts.MissingKeysEmpty(RequiredClaims, payload.Keys);
  }

  /** Each error is reported exactly when its condition holds, and there are at most four. */
  lemma MessageErrorCases(cfg: Settings, payload: Object, t: int)
    ensures var errors := MessageErrors(cfg, payload, t);
      var missing := Dicts.MissingKeys(RequiredClaims, payload.Keys);
      && |errors| <= 4
      && (MissingClaimsError(missing) in errors <==> missing != [])
      && ((DeploymentError(Get(payload, ClaimDeploymentId)) in errors)
            <==> Get(payload, ClaimDeploymentId) != Some(JStr(cfg.deploymentId)))
      && (ExpiredError in errors <==> Expired(payload, t))
      && (FutureError in errors <==> IssuedInFuture(payload, t))
  {
    var missing := Dicts.MissingKeys(RequiredClaims, payload.Keys);
    var dep := Get(payload, ClaimDeploymentId);
    MessagePrefixes(missing, dep);
  }

  /** The four error texts are pairwise different. */
  lemma MessagePrefixes(missing: seq<string>, dep: Option<Json>)
    ensures MissingClaimsError(missing) != DeploymentError(dep)
    ensures MissingClaimsError(missing) != ExpiredError && MissingClaimsError(missing) != FutureError
    ensures DeploymentError(dep) != ExpiredError && DeploymentError(dep) != FutureError
    ensures ExpiredError != FutureError
  {
    assert MissingClaimsError(missing)[0] == 'M';
    assert DeploymentError(dep)[0] == 'I';
    assert ExpiredError[6] == 'h';
    assert FutureError[6] == 'i';
    assert |ExpiredError| == 17;
    assert MissingClaimsError(missing)[..9] == "Missing r";
  }

  /** Each warning is given exactly when its condition holds, and there are at most three. */
  lemma MessageWarningCases(cfg: Settings, payload: Object)
    ensures var warnings := MessageWarnings(cfg, payload);
      && |warnings| <= 3
      && (VersionWarning(Get(payload, ClaimVersion)) in warnings <==> Get(payload, ClaimVersion) != Some(JStr("1.3.0")))
      && (TypeWarning(Get(payload, ClaimMessageType)) in warnings <==> !SupportedType(Get(payload, ClaimMessageType)))
      && (ForeignTarget(cfg, payload) <==> exists u :: TargetWarning(u) in warnings)
  {
    var v := Get(payload, ClaimVersion);
    var m := Get(payload, ClaimMessageType);
    var vs, ts, gs := VersionWarnings(payload), TypeWarnings(payload), TargetWarnings(cfg, payload);
    assert MessageWarnings(cfg, payload) == vs + ts + gs;
    WarningHeads(v, m);
    assert VersionWarning(v) !in ts + gs;
    assert TypeWarning(m) !in vs + gs;
    assert ForeignTarget(cfg, payload) <==> exists u :: TargetWarning(u) in gs;
    forall u ensures TargetWarning(u) in vs + ts + gs <==> TargetWarning(u) in gs {
      WarningHeads(v, m, u);
    }
  }

  /** The three warnings start with different letters, so no two of them coincide. */
  lemma WarningHeads(v: Option<Json>, m: Option<Json>, u: string := "")
    ensures VersionWarning(v)[0] == 'L' && TypeWarning(m)[0] == 'M' && TargetWarning(u)[0] == 'T'
  {
  }

  /** A message with every claim in order, as a platform sends it, passes with no warning. */
  lemma WellFormedLaunchAccepted(cfg: Settings, payload: Object, currentTime: int)
    requires forall c :: c in RequiredClaims ==> c in payload
    requires payload[ClaimVersion] == JStr("1.3.0")
    requires payload[ClaimMessageType] == JStr(Models.MessageType.ResourceLinkRequest.Value())
    requires payload[ClaimDeploymentId] == JStr(cfg.deploymentId)
    requires ClaimTargetLinkUri !in payload
    requires payload["exp"] == JInt(currentTime + 3600) && payload["iat"] == JInt(currentTime)
    ensures MessageResult(cfg, payload, currentTime) == MessageChecked(true, [], [])
  {
    assert SupportedType(Get(payload, ClaimMessageType)) by {
      assert Models.MessageType.ResourceLinkRequest.Value() in Models.SupportedMessageTypes;
    }
    assert MessageWarnings(cfg, payload) == [];
    assert MissingErrors(payload) == [] by {
      Dicts.MissingKeysEmpty(RequiredClaims, payload.Keys);
    }
    assert MessageErrors(cfg, payload, currentTime) == [];
  }

  /**
   * The claim checks of `validate_lti_message`, before the clock is read:
   * `fault` is the value of a truthy `target_link_uri` that is not a string,
   * on which `startswith` raises.
   */
  method CheckClaims(cfg: Settings, payload: Object) returns (errors: seq<string>, warnings: seq<string>, fault: Option<Json>)
    ensures fault.Some? <==> TargetFault(payload)
    ensures fault.Some? ==> fault.value == payload[ClaimTargetLinkUri]
    ensures fault.None? ==> errors == MissingErrors(payload) + DeploymentErrors(cfg, payload)
    ensures fault.None? ==> warnings == MessageWarnings(cfg, payload)
  {
    errors := [];
    warnings := [];

    var missing := Dicts.MissingKeys(RequiredClaims, payload.Keys);
    if missing != [] {
      errors := errors + [MissingClaimsError(missing)];
    }
    assert errors == MissingErrors(payload);

    var version := Get(payload, ClaimVersion);
    if version != Some(JStr("1.3.0")) {
      warnings := warnings + [VersionWarning(version)];
    }

    var messageType := Get(payload, ClaimMessageType);
    if !SupportedType(messageType) {
      warnings := warnings + [TypeWarning(messageType)];
    }
    assert warnings == VersionWarnings(payload) + TypeWarnings(payload);

    var deployment := Get(payload, ClaimDeploymentId);
    if deployment != Some(JStr(cfg.deploymentId)) {
      errors := errors + [DeploymentError(deployment)];
    }
    assert errors == MissingErrors(payload) + DeploymentErrors(cfg, payload);

    fault := None;
    var target := Get(payload, ClaimTargetLinkUri);
    if target.Some? && Truthy(target.value) {
      if !target.value.JStr? {
        fault := target;
      } else if !(cfg.toolUrl <= target.value.s) {
        warnings := warnings + [TargetWarning(target.value.s)];
      }
    }
  }

  /** `validate_lti_message`; `currentTime` is `int(time.time())`. */
  method ValidateLtiMessage(cfg: Settings, payload: Object, currentTime: int) returns (r: MessageCheck)
    ensures r == MessageResult(cfg, payload, currentTime)
  {
    var errors, warnings, fault := CheckClaims(cfg, payload);
    if fault.Some? {
      return MessageFault(NoAttribute(TypeName(fault.value), "startswith"));
    }

    var exp := Get(payload, "exp").GetOr(JInt(0));
    var iat := Get(payload, "iat").GetOr(JInt(0));

    if Number(exp).None? {
      return MessageFault("'<' not supported between instances of '" + TypeName(exp) + "' and 'int'");
    }
    if Number(exp).value < currentTime as real {
      errors := errors + [ExpiredError];
    }

    if Number(iat).None? {
      return MessageFault("'>' not supported between instances of '" + TypeName(iat) + "' and 'int'");
    }
    if Number(iat).value > (currentTime + 60) as real {
      errors := errors + [FutureError];
    }

    r := MessageChecked(errors == [], errors, warnings);
  }

  /** The claims `create_tool_jwt` writes over the caller's dict, in this order. */
  function WithToolClaims(d: Dicts.Items<Json>, cfg: Settings, iat: int): Dicts.Items<Json>
  {
    var d1 := Dicts.Put(d, "iss", JStr(cfg.toolUrl));
    var d2 := Dicts.Put(d1, "aud", JStr(cfg.platformIssuer));
    var d3 := Dicts.Put(d2, "iat", JInt(iat));
    Dicts.Put(d3, "exp", JInt(iat + 3600))
  }

  /**
   * Whatever the caller had put in `iss`, `aud`, `iat` and `exp`, after the
   * overwrite they hold the tool URL, the platform issuer, the current time and
   * one hour later; every other claim is untouched and keys stay unique.
   */
  lemma ToolClaimsOverwrite(d: Dicts.Items<Json>, cfg: Settings, iat: int)
    ensures var r := WithToolClaims(d, cfg, iat);
      && Dicts.Lookup(r, "iss") == Some(JStr(cfg.toolUrl))
      && Dicts.Lookup(r, "aud") == Some(JStr(cfg.platformIssuer))
      && Dicts.Lookup(r, "iat") == Some(JInt(iat))
      && Dicts.Lookup(r, "exp") == Some(JInt(iat + 3600))
      && (forall k :: k !in {"iss", "aud", "iat", "exp"} ==> Dicts.Lookup(r, k) == Dicts.Lookup(d, k))
      && (Dicts.UniqueKeys(d) ==> Dicts.UniqueKeys(r))
  {
    var d1 := Dicts.Put(d, "iss", JStr(cfg.toolUrl));
    var d2 := Dicts.Put(d1, "aud", JStr(cfg.platformIssuer));
    var d3 := Dicts.Put(d2, "iat", JInt(iat));
    Dicts.PutOther(d1, "aud", JStr(cfg.platformIssuer), "iss");
    Dicts.PutOther(d2, "iat", JInt(iat), "iss");
    Dicts.PutOther(d2, "iat", JInt(iat), "aud");
    Dicts.PutOther(d3, "exp", JInt(iat + 3600), "iss");
    Dicts.PutOther(d3, "exp", JInt(iat + 3600), "aud");
    Dicts.PutOther(d3, "exp", JInt(iat + 3600), "iat");
    forall k | k !in {"iss", "aud", "iat", "exp"}
      ensures Dicts.Lookup(WithToolClaims(d, cfg, iat), k) == Dicts.Lookup(d, k)
    {
      Dicts.PutOther(d, "iss", JStr(cfg.toolUrl), k);
      Dicts.PutOther(d1, "aud", JStr(cfg.platformIssuer), k);
      Dicts.PutOther(d2, "iat", JInt(iat), k);
      Dicts.PutOther(d3, "exp", JInt(iat + 3600), k);
    }
    if Dicts.UniqueKeys(d) {
      Dicts.PutUnique(d, "iss", JStr(cfg.toolUrl));
      Dicts.PutUnique(d1, "aud", JStr(cfg.platformIssuer));
      Dicts.PutUnique(d2, "iat", JInt(iat));
      Dicts.PutUnique(d3, "exp", JInt(iat + 3600));
    }
  }

  /** The validator object and its key-set cache. */
  class Validator {
    var platformJwksCache: Cache
    const cacheExpiry: real

    constructor()
      ensures platformJwksCache == map[] && cacheExpiry == CacheLifetime
    {
      platformJwksCache := map[];
      cacheExpiry := CacheLifetime;
    }

    /**
     * `get_platform_jwks`: `now` is the clock reading of the freshness test,
     * `storedAt` the one taken when storing; `fetchedFrom` is the URL
     * downloaded from, if any.
     */
    method GetPlatformJwks(cfg: Settings, issuer: string, now: real, storedAt: real, fetch: string -> Option<Json>)
      returns (jwks: Json, fetchedFrom: Option<string>)
      modifies this
      ensures old(CacheFresh(platformJwksCache, cacheExpiry, issuer, now)) ==>
        jwks == old(platformJwksCache)[issuer].jwks && fetchedFrom.None?
        && platformJwksCache == old(platformJwksCache)
      ensures !old(CacheFresh(platformJwksCache, cacheExpiry, issuer, now)) ==>
        fetchedFrom == Some(JwksUrl(cfg, issuer))
      ensures !old(CacheFresh(platformJwksCache, cacheExpiry, issuer, now)) && fetch(JwksUrl(cfg, issuer)).Some? ==>
        jwks == fetch(JwksUrl(cfg, issuer)).value
        && platformJwksCache == old(platformJwksCache)[issuer := CacheEntry(jwks, storedAt)]
      ensures !old(CacheFresh(platformJwksCache, cacheExpiry, issuer, now)) && fetch(JwksUrl(cfg, issuer)).None? ==>
        jwks == EmptyKeySet && platformJwksCache == old(platformJwksCache)
      ensures jwks == Served(old(platformJwksCache), cacheExpiry, cfg, issuer, now, fetch)
      ensures platformJwksCache == Stored(old(platformJwksCache), cacheExpiry, cfg, issuer, now, storedAt, fetch)
    {
      if issuer in platformJwksCache {
        var cached := platformJwksCache[issuer];
        if now - cached.timestamp < cacheExpiry {
          return cached.jwks, None;
        }
      }
      var url := JwksUrl(cfg, issuer);
      fetchedFrom := Some(url);
      match fetch(url) {
        case Some(body) =>
          platformJwksCache := platformJwksCache[issuer := CacheEntry(body, storedAt)];
          jwks := body;
        case None =>
          jwks := EmptyKeySet;
      }
    }

    /** The key-selection loop of `validate_jwt_token`. */
    method FindKey(entries: seq<Json>, kid: Option<Json>) returns (c: KeyChoice)
      ensures c == SelectKey(entries, kid, 0)
    {
      var i := 0;
      while i < |entries|
        invariant 0 <= i <= |entries|
        invariant SelectKey(entries, kid, i) == SelectKey(entries, kid, 0)
      {
        match entries[i] {
          case JObj(key) =>
            if KeyMatches(key, kid) {
              return KeyAt(i, key);
            }
          case other =>
            return KeyFault(NoAttribute(TypeName(other), "get"));
        }
        i := i + 1;
      }
      return NoKey;
    }

    /**
     * `validate_jwt_token`: `token` is the unverified decode of the token's
     * header and payload; `now` and `storedAt` are the clock readings of the
     * key-set lookup.
     */
    method ValidateJwtToken(cfg: Settings, token: Result<(Object, Object)>, audience: Option<string>,
                            now: real, storedAt: real, fetch: string -> Option<Json>,
                            verify: (Object, string, string) -> DecodeOutcome)
      returns (r: JwtResult)
      modifies this
      ensures r == ValidateJwt(cfg, old(platformJwksCache), cacheExpiry, now, fetch, token, audience, verify)
      ensures LookedUpIssuer(token).None? ==> platformJwksCache == old(platformJwksCache)
      ensures LookedUpIssuer(token).Some? ==>
        platformJwksCache == Stored(old(platformJwksCache), cacheExpiry, cfg, LookedUpIssuer(token).value,
                                    now, storedAt, fetch)
    {
      if token.Raised? {
        return JwtInvalid(token.message);
      }
      var (header, payload) := token.value;
      if "iss" !in payload {
        return JwtInvalid("Missing issuer (iss) in JWT");
      }
      if "aud" !in payload {
        return JwtInvalid("Missing audience (aud) in JWT");
      }
      var iss: string;
      match payload["iss"] {
        case JStr(s) => iss := s;
        case JArr(_) => return JwtInvalid("unhashable type: 'list'");
        case JObj(_) => return JwtInvalid("unhashable type: 'dict'");
        case other => return JwtInvalid(NoAttribute(TypeName(other), "lower"));
      }
      ghost var cache := platformJwksCache;
      assert ValidateJwt(cfg, cache, cacheExpiry, now, fetch, token, audience, verify)
        == CheckWithKeys(cfg, header, iss, payload, Served(cache, cacheExpiry, cfg, iss, now, fetch), audience, verify);
      var jwks, _ := GetPlatformJwks(cfg, iss, now, storedAt, fetch);
      assert jwks == Served(cache, cacheExpiry, cfg, iss, now, fetch);
      r := CheckKeys(cfg, header, iss, payload, jwks, audience, verify);
    }

    /** The part of `validate_jwt_token` after the key set of issuer `iss` has been obtained. */
    method CheckKeys(cfg: Settings, header: Object, iss: string, payload: Object, jwks: Json,
                     audience: Option<string>, verify: (Object, string, string) -> DecodeOutcome)
      returns (r: JwtResult)
      ensures r == CheckWithKeys(cfg, header, iss, payload, jwks, audience, verify)
    {
      if !jwks.JObj? {
        r := JwtInvalid(NoAttribute(TypeName(jwks), "get"));
      } else if !TruthyAt(jwks.fields, "keys") {
        r := NoKeysResult(cfg, payload);
      } else {
        var entries := KeyEntries(jwks.fields["keys"]);
        if entries.Raised? {
          r := JwtInvalid(entries.message);
        } else {
          var kid := Get(header, "kid");
          assert CheckWithKeys(cfg, header, iss, payload, jwks, audience, verify)
            == KeyChoiceResult(cfg, SelectKey(entries.value, kid, 0), kid, iss, audience, verify);
          var choice := FindKey(entries.value, kid);
          r := KeyChoiceResult(cfg, choice, kid, iss, audience, verify);
        }
      }
    }

    /**
     * `create_tool_jwt` at `int(time.time())` = `currentTime`: overwrites the
     * four claims in the caller's dict, then
     * signs it with the tool's key (`sign` reads the key file and encodes the
     * RS256 token with header `kid`); any failure there is re-raised as
     * `JWT creation failed: …`.
     */
    method CreateToolJwt(cfg: Settings, payload: Dicts.Dict<Json>, currentTime: int,
                         sign: (Dicts.Items<Json>, string) -> Result<string>)
      returns (r: Result<string>)
      modifies payload
      ensures payload.items == WithToolClaims(old(payload.items), cfg, currentTime)
      ensures sign(payload.items, cfg.keyId).Ok? ==> r == sign(payload.items, cfg.keyId)
      ensures sign(payload.items, cfg.keyId).Raised? ==>
        r == Raised("JWT creation failed: " + sign(payload.items, cfg.keyId).message)
    {
      payload.Set("iss", JStr(cfg.toolUrl));
      payload.Set("aud", JStr(cfg.platformIssuer));
      payload.Set("iat", JInt(currentTime));
      payload.Set("exp", JInt(currentTime + 3600));
      var signed := sign(payload.items, cfg.keyId);
      match signed {
        case Ok(t) => r := Ok(t);
        case Raised(m) => r := Raised("JWT creation failed: " + m);
      }
    }
  }
}
