# FastAPI LTI tool: a Dafny model of its launch, session and grading core

This project models the server core of a FastAPI "external tool" for a
Moodle-like learning platform. It speaks two versions of the Learning Tools
Interoperability protocol:

- **LTI 1.3.** OIDC login initiation (`/lti/login`) and the platform's signed
  `id_token` launch (`/lti/launch`). The launch is checked by `LTI13Validator`:
  the key set is fetched and cached per issuer, a key is chosen by `kid`, the
  JWT is verified, and the message claims are checked. The tool publishes its
  own key set (`/lti/jwks`) and a configuration health report (`/lti/health`).
  `LTI13GradeService` is the Assignment and Grade Services client. It caches an
  OAuth2 access token obtained with a signed client assertion, posts scores and
  reads or creates line items.
- **LTI 1.1 (legacy).** The form-post launch with its role-string parsing, the
  debug endpoints, and `LTIOutcomesService`. That service posts a grade as a
  POX XML envelope, signed with an OAuth 1.0 body hash and an HMAC-SHA1
  signature, and reads the platform's status reply.
- **The tool API.** Bearer-token session users (`get_current_lti_user`), the
  instructor, administrator and resource guards, and the `/api/tool` routes:
  grade submission, activities, student progress and bulk grades.

## How the model is built

Each core file is one module:

| Module | Models |
|---|---|
| `Models` | the roles, message types and user/grade records |
| `Lti13Validator` | the validator |
| `GradeService` | the 1.1 outcomes service |
| `Lti13GradeService` | the AGS client |
| `Lti13Routes` | the 1.3 routes |
| `LtiRoutes` | the 1.1 routes |
| `Dependencies` | the request dependencies |
| `ToolRoutes` | the tool API |

Some modules support the rest:

- `Sessions` states what the two launches' session tokens do when they pass through the guards.
- `Config` is the settings record. `Config.Defaults()` holds the source's default values.
- `JsonValues` holds JSON values, Python truthiness and `in`.
- `Dicts` is an insertion-ordered Python dict and `sorted(d.items())`.
- `Strings` holds `in`, `split`, `strip`, `lower` and `upper`.
- `Quoting` holds UTF-8 and `urllib.parse.quote_plus`/`urlencode`.
- `Http` holds requests, responses, and a route's reply: a value, an `HTTPException`, or any other exception, which the application answers with 500.

Objects that the source updates in place are classes:

- the validator with its key-set cache;
- the AGS client with its token and expiry;
- the outcomes service;
- a mutable dict.

The methods of these classes are proved against specification functions. The
properties the source promises are then proved about those functions as lemmas.

Everything outside the process is a parameter of the operation that uses it:

- Cryptography: RSA, JWT encoding and decoding, SHA-1, HMAC and base64.
- The network, as `send`/`fetch` functions that return a response or a failure.
- The XML parser.
- Clocks, as separate readings where the source reads the clock more than once.
- `uuid4` and `secrets`.
- The existence of the key files.
- The LTI 1.1 signature validator. `app/core/lti_validator.py` is not part of this model; its verdict is the `validate` parameter.

## Model

| member | source | states |
|---|---|---|
| Models.RoleOfIri | app/models/lti.py:6-14 | a string maps to a role only when it is that role's IRI value |
| Models.RoleIriRoundTrip | app/models/lti.py:6-14 | every role's IRI value maps back to the role itself |
| Models.RoleIrisDistinct | app/models/lti.py:6-14 | distinct roles have distinct IRI values |
| Models.IriEqualIffSuffix | app/models/lti.py:6-14 | two role IRIs are equal exactly when their final segments are |
| Models.SuffixesDistinct | app/models/lti.py:6-14 | distinct roles have distinct final IRI segments |
| Models.ContainsInSuffix | app/models/lti.py:6-14 | a capitalised word occurs in a role IRI exactly when it occurs in the IRI's final segment (the shared prefix is lower-case) |
| Models.NoCapitalInPrefix | app/models/lti.py:6-14 | the shared `lis/v2` IRI prefix has no capital letter |
| Models.IriContainsInstructor | app/models/lti.py:9-11 | "Instructor" occurs in the IRI of exactly the Instructor and TeachingAssistant roles |
| Models.SuffixContainsInstructor | app/models/lti.py:9-11 | "Instructor" occurs in the final IRI segment of exactly Instructor and TeachingAssistant |
| Models.IriContainsLearner | app/models/lti.py:10 | "Learner" occurs only in the Learner IRI |
| Models.SuffixContainsLearner | app/models/lti.py:10 | "Learner" occurs only in the Learner final segment |
| Models.IriContainsAdministrator | app/models/lti.py:8 | "Administrator" occurs only in the Administrator IRI |
| Models.SuffixContainsAdministrator | app/models/lti.py:8 | "Administrator" occurs only in the Administrator final segment |
| Models.IriContainsTeachingAssistant | app/models/lti.py:11 | "TeachingAssistant" occurs only in the TeachingAssistant IRI |
| Models.SuffixContainsTeachingAssistant | app/models/lti.py:11 | "TeachingAssistant" occurs only in the TeachingAssistant final segment |
| Models.MessageTypeOfValue | app/models/lti.py:16-20 | a string maps to a message type only when it is that type's value |
| Models.MessageTypesAreSupported | app/core/lti13_validator.py:182-190 | the validator's supported list is exactly the three `LTI13MessageType` values, and each value maps back to its type |
| Models.PassbackAttribute | app/models/lti.py:129-135 | a grade request has exactly the attributes user_id, score, max_score, comment and activity_id; any other read raises the pydantic AttributeError |
| Models.LtiUserAttribute | app/models/lti.py:93-102 | a legacy user has exactly its eight declared fields; any other read raises AttributeError |
| Models.MissingAttributes | app/models/lti.py:93-135 | `GradePassbackRequest.grade` and `LTIUser.is_instructor` do not exist, and reading them raises |
| Models.RoleValues | app/api/routes/lti13.py:241 | `[role.value for role in roles]` is a list of the same length holding each role's IRI in order |
| Models.OptionalString | app/models/lti.py:22-46 | an absent optional field is JSON null and a present one is not |
| Lti13Validator.Validator.constructor | app/core/lti13_validator.py:17-19 | a new validator has an empty key-set cache and a one-hour lifetime |
| Lti13Validator.CacheWindow | app/core/lti13_validator.py:46-49 | a key set stored at time t is fresh exactly while now < t + 3600, and is served from the cache then; from t + 3600 on it is stale and fetched again |
| Lti13Validator.CacheEntriesIndependent | app/core/lti13_validator.py:46-49 | storing one issuer's key set never changes what another issuer is served |
| Lti13Validator.JwksUrlChoice | app/core/lti13_validator.py:51-55 | the token's own issuer decides where its keys come from: the configured JWKS URL or a longer URL that starts with the issuer's name; any issuer containing "moodle" in any letter case gets the configured URL |
| Lti13Validator.Validator.GetPlatformJwks | app/core/lti13_validator.py:43-73 | a fresh cache entry is returned with no fetch and no change; otherwise the key set is fetched from the chosen URL and stored with its time on success, and `{"keys": []}` is returned on failure |
| Lti13Validator.DecodeResult | app/core/lti13_validator.py:120-152 | only a verified decode gives a valid result, and that result carries the verified payload and no warnings |
| Lti13Validator.SelectKey | app/core/lti13_validator.py:106-118 | a chosen key lies at or after the starting index |
| Lti13Validator.SelectKeyFirst | app/core/lti13_validator.py:106-118 | the key chosen is the first entry that matches (`kid` equal by Python's `==` when the header has one, `use == "sig"` otherwise); no key exactly when none matches; a non-object entry before any match raises |
| Lti13Validator.KidMatchesByValue | app/core/lti13_validator.py:105-112 | a string `kid` matches only the same string; a numeric `kid` matches a key whose `kid` has the same value in any numeric type (`1`, `1.0`, `True`) |
| JsonValues.PyEqScalars | app/core/lti13_validator.py:109 | Python's `==` on decoded values: a string equals only the same string, and numbers are equal exactly when their values are, whatever their types |
| Lti13Validator.Validator.FindKey | app/core/lti13_validator.py:106-118 | the key loop returns the key `SelectKey` specifies |
| Lti13Validator.MissingIssuerOrAudience | app/core/lti13_validator.py:85-89 | a token without `iss` or `aud` is invalid whatever the cache, the clock and the network do |
| Lti13Validator.EmptyKeySetFallback | app/core/lti13_validator.py:94-104 | for every served object whose `keys` is absent or falsy (`{}`, `{"keys": null}`, `{"keys": []}`), from the platform, the cache or the failed-download fallback, debug mode accepts the unverified payload with the skip warning and production rejects it with "No public keys available for signature verification" |
| Lti13Validator.ValidOnlyByVerification | app/core/lti13_validator.py:106-132 | with keys, a token is valid only when a matching key was found and the verifier, given that key, the audience and the issuer, returned this payload |
| Lti13Validator.Validator.CheckKeys | app/core/lti13_validator.py:93-132 | once the key set is in hand, the method gives the outcome the key-set function specifies: a non-object set fails, an empty one falls back on `DEBUG`, and otherwise the first matching key decides |
| Lti13Validator.Validator.ValidateJwtToken | app/core/lti13_validator.py:75-152 | the result is the one the validation function specifies; the cache is left alone when no issuer was read and otherwise updated exactly as the key-set lookup specifies |
| Lti13Validator.MessageFaultCases | app/core/lti13_validator.py:196-204 | the check raises exactly when a truthy target link URI is not a string or `exp`/`iat` is not a number |
| Lti13Validator.MessageValidIffAcceptable | app/core/lti13_validator.py:210 | a checked message is valid exactly when it has no errors, which is exactly when it is acceptable |
| Lti13Validator.MessageErrorCases | app/core/lti13_validator.py:163-208 | at most four errors: missing claims iff some required claim is absent; bad deployment iff the deployment differs from the setting; expired iff `exp` is in the past; future iff `iat` is more than 60 s ahead |
| Lti13Validator.MessagePrefixes | app/core/lti13_validator.py:176-208 | the four error texts are pairwise distinct |
| Lti13Validator.MessageWarningCases | app/core/lti13_validator.py:178-198 | at most three warnings: version iff it is not "1.3.0"; type iff it is unsupported; target iff a given target URI does not start with the tool URL |
| Lti13Validator.WellFormedLaunchAccepted | app/core/lti13_validator.py:154-212 | a complete, current, version 1.3.0 resource-link message for the configured deployment is valid with no errors and no warnings |
| Lti13Validator.CheckClaims | app/core/lti13_validator.py:163-198 | the claim checks raise exactly on a non-string target URI; otherwise they give the missing-claim and deployment errors and the warnings in source order |
| Lti13Validator.ValidateLtiMessage | app/core/lti13_validator.py:154-212 | the method returns the result the message-check function specifies |
| Lti13Validator.ToolClaimsOverwrite | app/core/lti13_validator.py:217-223 | `payload.update` sets iss to the tool URL, aud to the platform issuer, and iat and exp one hour apart; it leaves every other claim alone and keeps keys unique |
| Lti13Validator.Validator.CreateToolJwt | app/core/lti13_validator.py:214-245 | the caller's dict is updated in place with the tool claims; the signer's token is returned, and a signing failure becomes "JWT creation failed: …" |
| GradeService.OutcomesService.constructor | app/services/grade_service.py:17-19 | the service keeps the consumer key and secret |
| GradeService.UpTo | app/services/grade_service.py:67-95 | the text read up to a delimiter is a prefix without it, followed by the delimiter |
| GradeService.UpToBefore | app/services/grade_service.py:67-95 | reading up to `c` from x + y, where y starts with `c` and x lacks it, gives x |
| GradeService.ReadStep | app/services/grade_service.py:67-95 | a field value without '<', followed by fixed markup, reads back as that value and the rest |
| GradeService.FillReadFields | app/services/grade_service.py:67-95 | three '<'-free values placed in a template read back in order |
| GradeService.EnvelopeRoundTrip | app/services/grade_service.py:67-95 | the POX envelope reads back as its message identifier, sourcedId and grade text |
| GradeService.OAuthParamsShape | app/services/grade_service.py:97-106 | six parameters with unique keys and no signature; consumer key and HMAC-SHA1 as given; a body-hash slot present |
| GradeService.OAuthKeysDistinct | app/services/grade_service.py:97-106 | the six OAuth parameter names are pairwise distinct |
| GradeService.AuthParts | app/services/grade_service.py:146-154 | the header has one part per parameter |
| GradeService.ParamStringParts | app/services/grade_service.py:120-126 | splitting the parameter string at '&' gives the encoded pairs of the sorted parameters |
| GradeService.ParamSigned | app/services/grade_service.py:120-126 | every parameter appears, encoded, in the signed parameter string |
| GradeService.AuthPartsMember | app/services/grade_service.py:146-154 | every parameter appears as a `key="value"` part of the header |
| GradeService.BaseStringParts | app/services/grade_service.py:128-133 | the base string splits at '&' into the upper-cased method, the quoted URL and the quoted parameter string |
| GradeService.AuthHeaderListsEachOnce | app/services/grade_service.py:146-154 | the header lists each parameter exactly once, in strictly increasing key order |
| GradeService.OutcomesService.GenerateSignature | app/services/grade_service.py:108-144 | the caller's dict gets the body hash in place, and the signature is the HMAC of the base string under `quote_plus(secret)&` |
| GradeService.OutcomesService.SignParameters | app/services/grade_service.py:120-144 | the signature is the HMAC-SHA1 of the base string over the sorted, quoted parameters |
| GradeService.OutcomesService.CreateAuthHeader | app/services/grade_service.py:146-154 | the loop builds the `OAuth k="v", …` header from the sorted parameters |
| GradeService.SignedParams | app/services/grade_service.py:35-41 | after signing, the body hash is in the signed string, the signature is not, and the header carries the signature, with one more parameter and keys still unique |
| GradeService.GradeRequestSigned | app/services/grade_service.py:35-55 | the posted request carries the XML body and an Authorization header over the body-hashed, signed parameters |
| GradeService.Put2Other | app/services/grade_service.py:159-188 | adding error and code leaves every other report entry alone |
| GradeService.WithStatusOther | app/services/grade_service.py:180-182 | adding the status fields leaves every other report entry alone |
| GradeService.ReportBaseLookups | app/services/grade_service.py:159-163 | a report starts unsuccessful, with the response's status and body |
| GradeService.ErrorReportLookups | app/services/grade_service.py:165-188 | an error report keeps the base success, status and body |
| GradeService.StatusReportLookups | app/services/grade_service.py:175-184 | a status report keeps status and body and records success as computed |
| GradeService.UnknownIsNotSuccess | app/services/grade_service.py:180-184 | a missing codeMajor, read as "unknown", never counts as success |
| GradeService.ErrorReportEntries | app/services/grade_service.py:165-188 | a non-200 reply or an unparsable body gives an unsuccessful report |
| GradeService.StatusReportEntries | app/services/grade_service.py:170-184 | a parsed status with a non-empty codeMajor gives a report whose success is `codeMajor.lower() == "success"` |
| GradeService.OutcomesReportSuccess | app/services/grade_service.py:156-190 | every report records success as specified; parsing raises exactly on a present but empty codeMajor |
| GradeService.HttpErrorReport | app/services/grade_service.py:165-168 | a non-200 reply gives code HTTP_ERROR and "HTTP <status>" without parsing |
| GradeService.ParseErrorReport | app/services/grade_service.py:186-188 | an unparsable 200 reply gives code XML_PARSE_ERROR with the parser's message |
| GradeService.OutcomesService.ParseOutcomesResponse | app/services/grade_service.py:156-190 | the method returns the report the specification function gives |
| GradeService.OutcomesService.SendGrade | app/services/grade_service.py:21-65 | a missing or empty identifier is replaced by a fresh uuid; the signed request is posted; a transport failure gives a REQUEST_ERROR report and an answer gives the parsed report |
| Lti13GradeService.AgsClient.constructor | app/services/lti13_grade_service.py:16-19 | a new client has no token and no expiry |
| Lti13GradeService.ClientAssertionUnique | app/services/lti13_grade_service.py:30-35 | the client-assertion claims have unique keys |
| Lti13GradeService.ToolClaimsOver | app/services/lti13_grade_service.py:38 | signing the assertion overwrites iss and aud with the tool claims but keeps sub and jti |
| Lti13GradeService.AssertionClaims | app/services/lti13_grade_service.py:30-38 | the assertion is signed with iss = tool URL, aud = platform issuer, sub = client id, jti = "lti-service-token-<seconds>" and a one-hour exp |
| Lti13GradeService.TokenRequestGrant | app/services/lti13_grade_service.py:40-52 | the token request goes to the token URL with the client-credentials grant, the JWT-bearer assertion type, the assertion and the score scope |
| Lti13GradeService.FetchedToken | app/services/lti13_grade_service.py:54-58 | a token is fetched exactly when the reply is not 4xx/5xx and is a JSON object with `access_token` and a numeric `expires_in`; the expiry is the clock plus `expires_in`, or plus 3600 when it is absent |
| Lti13GradeService.CachedTokenReused | app/services/lti13_grade_service.py:24-26 | a token still valid by the clock is returned with no signing and no request |
| Lti13GradeService.TokenRefreshed | app/services/lti13_grade_service.py:28-64 | otherwise the step succeeds exactly when the fetch does and then stores the new token and expiry; a failure raises "Token request failed: …" and leaves the expiry alone, the stored token changing only when `access_token` was read before a non-numeric `expires_in` |
| Lti13GradeService.FetchFailures | app/services/lti13_grade_service.py:37-64 | a signing failure, a transport failure and an HTTP error status all fail the fetch |
| Lti13GradeService.AgsClient.GetAccessToken | app/services/lti13_grade_service.py:21-64 | the result and the new token and expiry are exactly the token step's |
| Lti13GradeService.AgsClient.RequestToken | app/services/lti13_grade_service.py:37-64 | the request half of the token step stores what the fetch gives |
| Lti13GradeService.ScoreDocumentFields | app/services/lti13_grade_service.py:88-98 | the score has its six fields in order, plus `comment` last exactly when a non-empty comment is given |
| Lti13GradeService.ScoresUrlShape | app/services/lti13_grade_service.py:86 | the scores URL is the line-items URL with trailing slashes stripped, followed by "/scores" |
| Lti13GradeService.ScoreAcceptedCases | app/services/lti13_grade_service.py:66-124 | no token or no line-items URL gives False with no request; otherwise success is exactly a 200 or 201 reply to the score post |
| Lti13GradeService.AgsClient.SubmitGrade | app/services/lti13_grade_service.py:66-124 | the token state is updated by the token step and the result is the specified acceptance |
| Lti13GradeService.AgsClient.GetLineitem | app/services/lti13_grade_service.py:126-153 | the token state is updated by the token step and the result is the specified line-item lookup |
| Lti13GradeService.LineitemDocumentFields | app/services/lti13_grade_service.py:172-181 | a line item has scoreMaximum and label, then resourceId and tag exactly when they are given |
| Lti13GradeService.BuildLineitem | app/services/lti13_grade_service.py:172-181 | the in-place build has those keys in that order and equals the specified document |
| Lti13GradeService.LineitemLookupUrl | app/services/lti13_grade_service.py:141-144 | the lookup asks the line-items URL itself without an id, and that URL followed by `/` and the id when one is given |
| Lti13GradeService.LineitemCases | app/services/lti13_grade_service.py:126-203 | no token or no line-items URL gives None for both calls; a created item implies a 200/201 reply to the post |
| Lti13GradeService.AgsClient.CreateLineitem | app/services/lti13_grade_service.py:155-203 | the token state is updated by the token step and the result is the specified creation |
| Lti13Routes.KeyTagged | app/api/routes/lti13.py:36-39 | the published key carries kid = the key id, use = sig, alg = RS256, with every other member unchanged |
| Lti13Routes.GetJwks | app/api/routes/lti13.py:20-49 | the key set holds exactly the tagged key; any failure gives 500 "Failed to generate JWKS" |
| Lti13Routes.MissingLoginParams | app/api/routes/lti13.py:102-103 | nothing is missing exactly when iss, login_hint and target_link_uri are all given |
| Lti13Routes.LoginChecks | app/api/routes/lti13.py:102-114 | login redirects exactly when all three parameters are given and iss is the configured issuer; otherwise 400, listing the missing names in order |
| Lti13Routes.AuthFixedUnique | app/api/routes/lti13.py:120-130 | the nine fixed authorization parameters have unique keys and no hint keys |
| Lti13Routes.AuthFixedValues | app/api/routes/lti13.py:120-130 | each fixed authorization parameter has its value: id_token, client id, launch URL, hint, state, nonce, form_post, openid, none |
| Lti13Routes.CopyParamEffect | app/api/routes/lti13.py:132-136 | copying an optional hint appends it exactly when given and changes nothing else |
| Lti13Routes.LoginHintsCopied | app/api/routes/lti13.py:132-136 | the message hint and deployment id are appended when given and leave the other parameters alone |
| Lti13Routes.AuthParamsFields | app/api/routes/lti13.py:120-136 | the authorization parameters are the fixed nine followed by the given hints, with the fixed values |
| Lti13Routes.LoginQuery | app/api/routes/lti13.py:138-144 | a successful login is a 302 to `<auth URL>?<urlencode(params)>`, whose '&'-parts are exactly the encoded parameters |
| Lti13Routes.OidcLogin | app/api/routes/lti13.py:88-144 | parameters come from the query for GET and from the form otherwise, and the reply is the specified redirect |
| Lti13Routes.RolesPrefixRaised | app/api/routes/lti13.py:201-211 | once a role entry raises, the loop result is that error |
| Lti13Routes.RolesOneEach | app/api/routes/lti13.py:198-211 | the loop succeeds exactly when every entry maps, giving one role per entry in order; otherwise it gives the first entry's error |
| Lti13Routes.MapRoles13 | app/api/routes/lti13.py:198-211 | the loop method computes the specified role list |
| Lti13Routes.StandardRoles13 | app/api/routes/lti13.py:201-211 | a standard role IRI maps to its own role, except that TeachingAssistant maps to Instructor and ContentDeveloper and Mentor map to Member |
| Lti13Routes.LaunchUserDefaults | app/api/routes/lti13.py:216-232 | a missing sub, deployment id or resource link gives "unknown", "1" and "unknown"; present ones are taken as given; roles are the mapped roles |
| Lti13Routes.SessionClaimsFields | app/api/routes/lti13.py:237-243 | the session claims are user_id, context_id, resource_link_id, roles and deployment_id, with no is_instructor |
| Lti13Routes.LaunchRefusals | app/api/routes/lti13.py:165-193 | an invalid JWT gives 401 "Invalid JWT token: …"; message errors give 400 "Invalid LTI message: …" joined by ", " |
| Lti13Routes.LaunchAccepted | app/api/routes/lti13.py:165-265 | a launch succeeds only with a valid JWT whose message is acceptable |
| Lti13Routes.SessionIssued | app/api/routes/lti13.py:198-265 | a successful launch's page has the mapped roles, the specified user, the token the issuer returned for the session claims, the launch data and the tool URL |
| Lti13Routes.SessionIssueRaises | app/api/routes/lti13.py:245 | when `create_access_token` raises for an otherwise accepted launch, the launch ends in 500 with that error and shows no page |
| Lti13Routes.Lti13Launch | app/api/routes/lti13.py:146-265 | a missing or empty id_token gives 400 and leaves the cache alone; otherwise the reply is the specified launch outcome, and the key-set cache is the old one with the issuer's key set looked up and stored as `get_platform_jwks` does (unchanged when the token names no issuer and audience) |
| Lti13Routes.FinishLaunch | app/api/routes/lti13.py:170-265 | the post-validation half returns the specified reply |
| Lti13Routes.StartSession | app/api/routes/lti13.py:198-265 | the session half returns the specified page, or 500 when the session token cannot be issued |
| Lti13Routes.MissingConfigNames | app/api/routes/lti13.py:292-311 | each setting is reported missing exactly when it holds one of the three placeholders |
| Lti13Routes.KeyReportEffect | app/api/routes/lti13.py:319-331 | a key file is reported present or missing, and a missing one degrades the status |
| Lti13Routes.KeyReportOther | app/api/routes/lti13.py:319-331 | the key report leaves other entries alone |
| Lti13Routes.ConfigChecksEffect | app/api/routes/lti13.py:313-317 | the completeness flag, and the status and missing list when incomplete |
| Lti13Routes.HealthBaseStart | app/api/routes/lti13.py:281-290 | the report starts "healthy" without missing_config |
| Lti13Routes.HealthStatus | app/api/routes/lti13.py:277-333 | the status is degraded when a key file is missing, else needs_configuration when a setting is a placeholder, else healthy; flags and lists are as computed |
| Lti13Routes.KeyFilesReported | app/api/routes/lti13.py:319-331 | the two key reports set their entries and the status and leave the config entries alone |
| Lti13Routes.DefaultsNeedConfiguration | app/api/routes/lti13.py:292-317 | with the default settings all three settings are missing and the status is needs_configuration |
| Lti13Routes.UnregisteredSettings | app/api/routes/lti13.py:301-311 | placeholder client id, issuer and deployment are reported in that order |
| Lti13Routes.HealthReplyCases | app/api/routes/lti13.py:318-333 | a report comes back exactly when neither key file failed to open for a reason other than its absence, otherwise 500 with the first such error; a key file is `missing`, and the status `degraded`, exactly when it does not exist |
| Lti13Routes.ConfigReport | app/api/routes/lti13.py:280-316 | the report and the placeholder checks build the specified configuration part |
| Lti13Routes.Lti13Health | app/api/routes/lti13.py:277-333 | the method gives the specified reply: the report, or 500 when a key file fails to open for a reason other than its absence |
| LtiRoutes.MaskShowsPrefix | app/api/routes/lti.py:73 | an empty secret is shown as null; otherwise at most its first four characters followed by "***" |
| LtiRoutes.MaskHidesRest | app/api/routes/lti.py:73 | secrets that share their first four characters are shown identically |
| LtiRoutes.DebugGated | app/api/routes/lti.py:57-80 | both debug endpoints answer 404 exactly when debug is off; the echo shows the masked secret |
| LtiRoutes.TestParamsUnsigned | app/api/routes/lti.py:82-93 | the test parameters carry no signature before signing |
| LtiRoutes.ProbeSigned | app/api/routes/lti.py:95-108 | the signature is over POST, the launch URL, the test parameters and the secret; the returned parameters are those plus the signature; the validation URL replaces the last path segment |
| LtiRoutes.RSplitHeadLast | app/api/routes/lti.py:107 | `rsplit(c, 1)[0]` is the prefix before the last `c` |
| LtiRoutes.RSplitHeadOf | app/api/routes/lti.py:107 | `rsplit(c, 1)[0]` of h + c + t, with t free of c, is h |
| LtiRoutes.SiblingValidationUrl | app/api/routes/lti.py:107 | for a launch URL ending in "/launch", the validation URL is the sibling "/debug-launch" |
| LtiRoutes.LaunchUrlBeforeQuery | app/api/routes/lti.py:126 | the validated URL is the request URL up to its first '?' |
| LtiRoutes.ParseRoles | app/api/routes/lti.py:146-160 | the loop gives the specified role list: one role per comma-separated entry, classified after stripping |
| LtiRoutes.LegacyRoleUnstripped | app/api/routes/lti.py:149-160 | stripping does not change the classification |
| LtiRoutes.LegacyOrderDiffers | app/api/routes/lti.py:151-158 | an entry naming both TeachingAssistant and Administrator is TeachingAssistant in the legacy launch but Administrator in the 1.3 launch |
| LtiRoutes.ClaimsUnique | app/api/routes/lti.py:175-186 | the legacy session claims have unique keys |
| LtiRoutes.LegacyClaimsFields | app/api/routes/lti.py:175-186 | the claims carry the user id, the role IRIs, is_instructor, the resource link and the outcome fields as posted |
| LtiRoutes.LaunchAsWrittenFails | app/api/routes/lti.py:132-188 | the launch as written never succeeds; a valid launch crashes on `role.value` when roles are given and on `lti_user.is_instructor` otherwise |
| LtiRoutes.LaunchCases | app/api/routes/lti.py:110-205 | the corrected launch: 401 exactly when the signature check fails; otherwise a page exactly when the session token can be issued (500 with the issuer's error when not), whose user has the form defaults, one role per entry and instructor status exactly when some entry names Instructor or Teacher |
| LtiRoutes.LtiLaunch | app/api/routes/lti.py:110-205 | the method returns the specified corrected launch, including 500 when the session token cannot be issued |
| Dependencies.CurrentUserCases | app/api/dependencies.py:12-47 | the session user is the payload exactly when it has user_id and resource_link_id; everything else is 401, and a missing user_id is reported first |
| Dependencies.InstructorGate | app/api/dependencies.py:49-67 | the instructor guard passes exactly users whose is_instructor is truthy, and refuses the rest with 403 |
| Dependencies.AdminGate | app/api/dependencies.py:69-89 | the admin guard passes a literal "Administrator" role or an instructor, gives 403 otherwise, and raises when roles is not a container |
| Dependencies.AdminAdmitsInstructors | app/api/dependencies.py:81-89 | every instructor with a container roles claim passes the admin guard |
| Dependencies.ResourceGate | app/api/dependencies.py:91-113 | the resource guard passes exactly users whose resource_link_id is that resource, unchanged |
| ToolRoutes.SubmitGradeAsWrittenFails | app/api/routes/tool.py:53-97 | as written, a user with passback information always gets 500 from reading `grade_request.grade` |
| ToolRoutes.ReplyForReport | app/api/routes/tool.py:76-90 | the reply is "success" exactly when the report says so, and then echoes the grade |
| ToolRoutes.FailedRequestReply | app/api/routes/tool.py:84-90 | a transport failure gives an error reply "Failed to submit grade: <message>" |
| ToolRoutes.AnsweredReply | app/api/routes/tool.py:76-90 | an answered post gives "success" exactly when the platform's codeMajor is success |
| ToolRoutes.CrashedReply | app/api/routes/tool.py:92-97 | a report that raises gives 500 "Error submitting grade: …" |
| ToolRoutes.SubmitGrade | app/api/routes/tool.py:46-97 | no passback gives the warning; a missing user_id gives 500; a truthy outcome URL that is not a string gives 500 "quote_from_bytes() expected bytes" with nothing sent; otherwise the outcomes XML, carrying the score's float text, is posted to the user's URL and the reply follows the report |
| ToolRoutes.GradeReadBack | app/services/grade_service.py:67-95 | the score's text is read back from the posted envelope, so two different scores never produce the same XML |
| ToolRoutes.AvailableActivities | app/api/routes/tool.py:146-198 | every user gets the three base activities in order; instructors exactly get grade management appended; all are available |
| ToolRoutes.GatesAgree | app/api/routes/tool.py:206-210 | the route's own instructor check admits exactly those the instructor guard admits, with 403 and its own text |
| ToolRoutes.CountStatus | app/api/routes/tool.py:276-277 | a status count never exceeds the number of results |
| ToolRoutes.CountPartition | app/api/routes/tool.py:276-277 | when every result is one of two statuses, the two counts sum to the total |
| ToolRoutes.CountAll | app/api/routes/tool.py:276 | when every result has one status, its count is the total |
| ToolRoutes.SubmitBulkGrades | app/api/routes/tool.py:239-278 | 403 exactly for non-instructors; otherwise "completed", with one success per submission in order and no failures |
| Sessions.SessionPayload | app/core/security.py:12-21 | the decoded session always has exp and iat |
| Sessions.PayloadClaim | app/core/security.py:13-19 | every claim other than exp and iat is carried unchanged |
| Sessions.PayloadLacks | app/core/security.py:13-19 | an absent claim stays absent |
| Sessions.IrisAreNotBareWords | app/api/dependencies.py:83 | a list of role IRIs never contains the bare word "Administrator" |
| Sessions.Lti13RolesClaim | app/api/routes/lti13.py:241 | the 1.3 session roles claim is the list of role IRIs |
| Sessions.GuardsOver | app/api/dependencies.py:12-89 | a payload with the two required fields and IRI roles passes the session check, and passes the instructor and admin guards exactly when is_instructor is truthy |
| Sessions.Lti13ClaimsLack | app/api/routes/lti13.py:237-243 | a 1.3 session has no is_instructor and no outcome URL |
| Sessions.Lti13SessionGuards | app/api/routes/lti13.py:237-245 | every 1.3 session is accepted as a user but refused by the instructor guard (403) and the admin guard (403), and never has grade passback |
| Sessions.FormValueTruthy | app/api/routes/lti.py:184-185 | a posted field is truthy in the session exactly when it is present and non-empty |
| Sessions.LegacySessionGuards | app/api/routes/lti.py:175-188 | a corrected legacy session passes the instructor and admin guards exactly for instructors, and has passback exactly when both outcome fields were posted non-empty |
| Dicts.PutKeys | app/core/lti13_validator.py:217-223 | `d[k] = v` keeps key order, and a new key goes last |
| Dicts.SortByKeySorted | app/services/grade_service.py:121 | `sorted(d.items())` on a dict gives strictly increasing keys |
| Dicts.SortByKeyMembers | app/services/grade_service.py:121 | sorting keeps exactly the dict's items |
| Quoting.UnquoteQuotePlusBytes | app/services/grade_service.py:122-123 | `quote_plus` is inverted by its unquoting |
| Quoting.QuotePlusAlphabet | app/services/grade_service.py:122-135 | `quote_plus` output contains no '&', '=' or '"', so the joined strings split back |
| Quoting.UrlencodeParts | app/api/routes/lti13.py:139 | `urlencode` splits at '&' into the encoded pairs |
| Strings.StripContains | app/api/routes/lti.py:150-151 | a word with no surrounding space occurs in the stripped entry exactly when it occurs in the entry |
| Strings.JoinSplit | app/api/routes/lti.py:148 | joining the split parts with the separator gives back the string |
| Http.RaiseForStatus | app/services/lti13_grade_service.py:54 | `raise_for_status` raises exactly for a 4xx or 5xx status |

## Left out

- Cryptography is a parameter: RSA key loading, JWT encoding and decoding, SHA-1, HMAC and base64. `generate_key_pair` and the PEM-to-JWK conversion are not modelled. The JWKS route takes the converted key or the failure.
- The network, the XML parser, the clocks, `uuid4`, `secrets.token_urlsafe` and the key files are parameters.
- Logging is not modelled, and neither is the Jinja template rendering. A page is modelled as the values handed to the template.
- `app/core/lti_validator.py` (the LTI 1.1 OAuth signature check) is not part of this model. Its verdict is a parameter of the legacy launch and of the signature probe.
- `app/core/security.py` token encoding and decoding is not part of this model. A session is the claims plus exp and iat, and decoding is a `TokenCheck` outcome. Encoding is a parameter that gives the token or the exception's message: with the shipped defaults (`JWT_ALGORITHM` RS256 and a plain-text `SECRET_KEY`, `app/core/config.py:38-39`) `jwt.encode` cannot load the secret as an RSA key, so every launch would end in 500; the model covers that through the failure branch and does not fix which settings are used.
- `ToolRoutes.SubmitGrade`: the grade's text in the outcomes XML is the parameter `floatText`, CPython's `str()` of a float. The model asks of it only what `ToolRoutes.GradeReadBack` needs (distinct scores get distinct texts, none contains `<`), not its exact digits.
- `JsonValues.Str` renders an integral float as its digits and `.0`, but every non-integral float as the same placeholder `<float>` and every object as `{...}`. It is used only where a session or response value is turned into text (error messages, a `sourcedId` or URL read from the session), not for the grade; two such values can therefore print alike in the model.
- `JsonValues.Repr` quotes a string in single quotes without Python's escaping of quotes, backslashes and control characters; it only builds error-message texts.
- `Strings.Lower` and `Strings.Upper` change ASCII letters only. The core applies them to `"success"`-style status codes, `"POST"` and issuer names, where this matches Python except for non-ASCII letters.
- The pydantic `ValidationError` text for a 1.3 launch whose claims have the wrong types is collapsed into one crash message.
- Lti13Routes.RolesOneEach: a 1.3 roles claim that is a JSON object is iterated over its keys by the source; the model does not carry key order for objects and treats such a claim as a failed launch (a string claim is iterated character by character, as in the source).
- The configuration endpoints (`/lti/config` in both route files and the legacy XML configuration) return constant documents built from the settings and are not modelled.
- `/lti/deep-linking` is not modelled: it returns fixed HTML.
- `save-progress` and `progress` in the tool API return mock data and are not modelled.
- The `student-progress` mock list is left out. Only its instructor gate is modelled.
- In bulk grading, the `except` branch cannot be reached, because appending a dict built from `get` cannot raise. The model has no error results.
- Bearer-header parsing by `HTTPBearer` (403 on a missing header) is not modelled. So are the `WWW-Authenticate` headers.
- The legacy user's given and family names are read in the source but dropped by the `LTIUser` model. The model drops them too.
- `main.py` mounts only the 1.3, user and tool routers, so the legacy `/lti` router is not reachable in the application. Importing `app/api/routes/lti.py` as written would also fail: line 12 imports `LTILaunchRequest`, which `app/models/lti.py` does not define, so the module raises `ImportError` and none of its routes exist. The model still covers the routes as if the module loaded.

## Findings

| source | as written | input that shows it | evidently intended | confidence | as-written member | corrected member |
|---|---|---|---|---|---|---|
| app/api/routes/tool.py:72 | reads `grade_request.grade`, which `GradePassbackRequest` does not have, so the `AttributeError` becomes 500 "Error submitting grade: …" | a session with `lis_outcome_service_url` and `lis_result_sourcedid`, and any valid grade request | send `grade_request.score` and echo it | not executed | ToolRoutes.SubmitGradeAsWrittenFails | ToolRoutes.SubmitGrade |
| app/api/routes/lti.py:179-180 | `role.value` on the roles of an `LTIUser`, which pydantic has coerced to plain `str`, and `lti_user.is_instructor`, which `LTIUser` does not have; once the module loads, every validated legacy launch raises and gets 500 (as written it does not load at all: line 12 imports the undefined `LTILaunchRequest`, an `ImportError`) | any launch whose signature check passes, such as roles "Instructor" (the `role.value` error) or no roles (the `is_instructor` error) | the role strings themselves, and `is_instructor` true exactly when an Instructor role was parsed | not executed | LtiRoutes.LaunchAsWrittenFails | LtiRoutes.LaunchCases |

`Sessions.Lti13SessionGuards` also records a design consequence rather than a
bug. A 1.3 session token carries no `is_instructor` claim, and its roles are
full IRIs. So every 1.3 user, an instructor included, is refused by
`require_instructor` and `require_admin`, and by the tool API's own instructor
checks.
