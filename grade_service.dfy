/**
 * The LTI 1.1 Basic Outcomes client: the `replaceResult` envelope, its OAuth 1.0
 * signature with the body-hash extension (sections 3.4.1, 3.4.2 and 3.5.1 of
 * RFC 5849), the request that carries it and the reading of the platform's
 * answer.
 *
 * SHA-1, HMAC-SHA1 and base64 are the parameters `bodyHash` and `hmacSha1`; the
 * XML parser is a parameter giving the `imsx_statusInfo` block it finds; the
 * network is a function from the request to its outcome.
 */
module GradeService {
  import opened Wrappers
  import opened JsonValues
  import Strings
  import Dicts
  import Quoting
  import Http

  // The fixed text of the `replaceResultRequest` envelope around the three values.

  const XmlHead: string :=
    "<?xml version=\"1.0\" encoding=\"UTF-8\"?>\n"
    + "<imsx_POXEnvelopeRequest xmlns=\"http://www.imsglobal.org/services/ltiv1p1/xsd/imsoms_v1p0\">\n"
    + "    <imsx_POXHeader>\n"
    + "        <imsx_POXRequestHeaderInfo>\n"
    + "            <imsx_version>V1.0</imsx_version>\n"
    + "            <imsx_messageIdentifier>"

  const XmlAfterIdentifier: string :=
    "</imsx_messageIdentifier>\n"
    + "        </imsx_POXRequestHeaderInfo>\n"
    + "    </imsx_POXHeader>\n"
    + "    <imsx_POXBody>\n"
    + "        <replaceResultRequest>\n"
    + "            <resultRecord>\n"
    + "                <sourcedGUID>\n"
    + "                    <sourcedId>"

  const XmlAfterSourcedId: string :=
    "</sourcedId>\n"
    + "                </sourcedGUID>\n"
    + "                <result>\n"
    + "                    <resultScore>\n"
    + "                        <language>en</language>\n"
    + "                        <textString>"

  const XmlTail: string :=
    "</textString>\n"
    + "                    </resultScore>\n"
    + "                </result>\n"
    + "            </resultRecord>\n"
    + "        </replaceResultRequest>\n"
    + "    </imsx_POXBody>\n"
    + "</imsx_POXEnvelopeRequest>"

  /** The envelope with the message identifier, the sourcedId and the text of the grade. */
  function OutcomesXml(sourcedid: string, gradeText: string, messageIdentifier: string): string
  {
    Fill(XmlHead, XmlAfterIdentifier, XmlAfterSourcedId, XmlTail, messageIdentifier, sourcedid, gradeText)
  }

  /** Three values set between four fixed texts. */
  function Fill(head: string, afterFirst: string, afterSecond: string, tail: string,
                first: string, second: string, third: string): string
  {
    head + first + afterFirst + second + afterSecond + third + tail
  }

  /** The text of `s` before its first `c`, or all of `s`. */
  function UpTo(s: string, c: char): (r: string)
    ensures r <= s && c !in r
    ensures |r| < |s| ==> s[|r|] == c
  {
    if s == [] || s[0] == c then [] else [s[0]] + UpTo(s[1..], c)
  }

  lemma {:induction false} UpToBefore(x: string, y: string, c: char)
    requires c !in x && y != [] && y[0] == c
    ensures UpTo(x + y, c) == x
  {
    if x != [] {
      UpToBefore(x[1..], y, c);
      assert (x + y)[1..] == x[1..] + y;
    }
  }

  function Drop(s: string, n: nat): string
  {
    if n <= |s| then s[n..] else []
  }

  /** One value read up to the next `<`, and the text after it and the `skip` characters that follow. */
  function Field(s: string, skip: nat): (string, string)
  {
    var value := UpTo(s, '<');
    (value, Drop(s, |value| + skip))
  }

  /**
   * Reading three values back by position: skip the head, read up to the next
   * `<`, skip the fixed text after it, and so on.
   */
  function ReadFields(xml: string, headLength: nat, afterFirstLength: nat, afterSecondLength: nat): (string, string, string)
  {
    var (first, afterFirst) := Field(Drop(xml, headLength), afterFirstLength);
    var (second, afterSecond) := Field(afterFirst, afterSecondLength);
    (first, second, UpTo(afterSecond, '<'))
  }

  /** A value without `<` followed by a fixed text starting with `<`: read it, then skip both. */
  lemma ReadStep(value: string, fixed: string, rest: string)
    requires '<' !in value && fixed != [] && fixed[0] == '<'
    ensures Field(value + (fixed + rest), |fixed|) == (value, rest)
  {
    UpToBefore(value, fixed + rest, '<');
    assert (value + (fixed + rest))[|value| + |fixed|..] == rest;
  }

  /** Values without `<` are read back from a template whose fixed texts after them start with `<`. */
  lemma FillReadFields(head: string, afterFirst: string, afterSecond: string, tail: string,
                       first: string, second: string, third: string)
    requires afterFirst != [] && afterFirst[0] == '<' && afterSecond != [] && afterSecond[0] == '<'
    requires tail != [] && tail[0] == '<'
    requires '<' !in first && '<' !in second && '<' !in third
    ensures ReadFields(Fill(head, afterFirst, afterSecond, tail, first, second, third), |head|, |afterFirst|, |afterSecond|)
         == (first, second, third)
  {
    var xml := Fill(head, afterFirst, afterSecond, tail, first, second, third);
    var rest2 := third + tail;
    var rest1 := second + (afterSecond + rest2);
    var afterHead := first + (afterFirst + rest1);
    assert xml == head + afterHead;
    assert Drop(xml, |head|) == afterHead;
    ReadStep(first, afterFirst, rest1);
    ReadStep(second, afterSecond, rest2);
    UpToBefore(third, tail, '<');
  }

  /** Reading an envelope back: the message identifier, the sourcedId and the score text. */
  function ReadEnvelope(xml: string): (string, string, string)
  {
    ReadFields(xml, |XmlHead|, |XmlAfterIdentifier|, |XmlAfterSourcedId|)
  }

  /**
   * The values are embedded verbatim, without escaping: when none contains `<`
   * they are read back unchanged from the envelope.
   */
  lemma EnvelopeRoundTrip(sourcedid: string, gradeText: string, messageIdentifier: string)
    requires '<' !in sourcedid && '<' !in gradeText && '<' !in messageIdentifier
    ensures ReadEnvelope(OutcomesXml(sourcedid, gradeText, messageIdentifier)) == (messageIdentifier, sourcedid, gradeText)
  {
    assert XmlAfterIdentifier[0] == '<' && XmlAfterSourcedId[0] == '<' && XmlTail[0] == '<';
    FillReadFields(XmlHead, XmlAfterIdentifier, XmlAfterSourcedId, XmlTail, messageIdentifier, sourcedid, gradeText);
  }

  /** Base64 of SHA-1 of the UTF-8 body, and base64 of HMAC-SHA1 under a key. */
  datatype OAuthPrimitives = OAuthPrimitives(bodyHash: string -> string, hmacSha1: (string, string) -> string)

  /** `_create_oauth_params` with the clock reading `int(time.time())` and the nonce `str(uuid4())`. */
  function OAuthParams(consumerKey: string, timestamp: int, nonce: string): Dicts.Items<string>
  {
    [("oauth_consumer_key", consumerKey),
     ("oauth_signature_method", "HMAC-SHA1"),
     ("oauth_timestamp", Strings.IntToString(timestamp)),
     ("oauth_nonce", nonce),
     ("oauth_version", "1.0"),
     ("oauth_body_hash", "")]
  }

  /** The six protocol parameters have distinct keys, none of them `oauth_signature`. */
  lemma OAuthParamsShape(consumerKey: string, timestamp: int, nonce: string)
    ensures var p := OAuthParams(consumerKey, timestamp, nonce);
      && |p| == 6 && Dicts.UniqueKeys(p) && !Dicts.HasKey(p, "oauth_signature")
      && Dicts.Lookup(p, "oauth_consumer_key") == Some(consumerKey)
      && Dicts.Lookup(p, "oauth_signature_method") == Some("HMAC-SHA1")
      && Dicts.HasKey(p, "oauth_body_hash")
  {
    var p := OAuthParams(consumerKey, timestamp, nonce);
    OAuthKeysDistinct(p);
    var keys := Dicts.Keys(p);
    assert "oauth_signature"[6] == 's' && "oauth_signature"[7] == 'i';
    assert keys[1][7] == 'i' && |keys[1]| == 22 && |"oauth_signature"| == 15;
    forall i | 0 <= i < 6 ensures keys[i] != "oauth_signature" {
      if i != 1 {
        assert keys[i][6] != 's';
      }
    }
    assert keys[5] == "oauth_body_hash";
  }

  /** The keys of the protocol parameters differ at their seventh character. */
  lemma OAuthKeysDistinct(p: Dicts.Items<string>)
    requires |p| == 6
    requires p[0].0 == "oauth_consumer_key" && p[1].0 == "oauth_signature_method"
    requires p[2].0 == "oauth_timestamp" && p[3].0 == "oauth_nonce"
    requires p[4].0 == "oauth_version" && p[5].0 == "oauth_body_hash"
    ensures Dicts.UniqueKeys(p)
    ensures forall i :: 0 <= i < 6 ==> |p[i].0| > 6 && p[i].0[6] == "cstnvb"[i]
  {
    assert "oauth_consumer_key"[6] == 'c' && "oauth_signature_method"[6] == 's';
    assert "oauth_timestamp"[6] == 't' && "oauth_nonce"[6] == 'n';
    assert "oauth_version"[6] == 'v' && "oauth_body_hash"[6] == 'b';
  }

  /** The normalised parameter string: the encoded pairs sorted by key, joined by `&`. */
  function ParamString(params: Dicts.Items<string>): string
  {
    Quoting.Urlencode(Dicts.SortByKey(params))
  }

  /** The signature base string: method, URL and parameter string, each encoded, joined by `&`. */
  function BaseString(httpMethod: string, url: string, paramString: string): string
  {
    Strings.Join([Strings.Upper(httpMethod), Quoting.QuotePlus(url), Quoting.QuotePlus(paramString)], "&")
  }

  /** The HMAC-SHA1 key: the encoded consumer secret and `&` (there is no token secret). */
  function SigningKey(consumerSecret: string): string
  {
    Quoting.QuotePlus(consumerSecret) + "&"
  }

  /** One entry of the `Authorization` header: `quote_plus(k)="quote_plus(v)"`. */
  function AuthPart(item: (string, string)): string
  {
    Quoting.QuotePlus(item.0) + "=\"" + Quoting.QuotePlus(item.1) + "\""
  }

  function AuthParts(items: Dicts.Items<string>): (r: seq<string>)
    ensures |r| == |items|
  {
    seq(|items|, i requires 0 <= i < |items| => AuthPart(items[i]))
  }

  function AuthHeader(params: Dicts.Items<string>): string
  {
    "OAuth " + Strings.Join(AuthParts(Dicts.SortByKey(params)), ", ")
  }

  /**
   * The parameter string splits at `&` into exactly the encoded pairs of the
   * parameters in key order: encoding leaves no `&` or `=` inside a key or a
   * value that could be mistaken for a separator.
   */
  lemma ParamStringParts(params: Dicts.Items<string>)
    requires params != []
    ensures Strings.Split(ParamString(params), '&') == Quoting.EncodedPairs(Dicts.SortByKey(params))
  {
    Quoting.UrlencodeParts(Dicts.SortByKey(params));
  }

  /** Every parameter of the dict is covered by the signature. */
  lemma ParamSigned(params: Dicts.Items<string>, key: string, value: string)
    requires (key, value) in params
    ensures Quoting.EncodedPair((key, value)) in Strings.Split(ParamString(params), '&')
  {
    ParamStringParts(params);
    Dicts.SortByKeyMembers(params, (key, value));
    Quoting.EncodedPairsMember(Dicts.SortByKey(params), (key, value));
  }

  lemma AuthPartsMember(items: Dicts.Items<string>, item: (string, string))
    requires item in items
    ensures AuthPart(item) in AuthParts(items)
  {
    var i :| 0 <= i < |items| && items[i] == item;
    assert AuthParts(items)[i] == AuthPart(item);
  }

  /** The base string splits at `&` into its three parts (section 3.4.1.1 of RFC 5849). */
  lemma BaseStringParts(httpMethod: string, url: string, paramString: string)
    requires '&' !in httpMethod
    ensures Strings.Split(BaseString(httpMethod, url, paramString), '&')
         == [Strings.Upper(httpMethod), Quoting.QuotePlus(url), Quoting.QuotePlus(paramString)]
  {
    var parts := [Strings.Upper(httpMethod), Quoting.QuotePlus(url), Quoting.QuotePlus(paramString)];
    assert '&' !in parts[0] by {
      forall i | 0 <= i < |httpMethod| ensures parts[0][i] != '&' {
        assert httpMethod[i] != '&';
      }
    }
    Quoting.NoAmpersand(url);
    Quoting.NoAmpersand(paramString);
    Strings.SplitJoin(parts, '&');
  }

  /**
   * The header lists every parameter of a dict once: one entry per
   * parameter, each parameter's entry present, in strictly increasing key order.
   */
  lemma AuthHeaderListsEachOnce(params: Dicts.Items<string>)
    requires Dicts.UniqueKeys(params)
    ensures var sorted := Dicts.SortByKey(params);
      && |AuthParts(sorted)| == |params|
      && Dicts.SortedByKey(sorted)
      && forall item :: item in params ==> AuthPart(item) in AuthParts(sorted)
  {
    var sorted := Dicts.SortByKey(params);
    Dicts.SortByKeySorted(params);
    forall item | item in params ensures AuthPart(item) in AuthParts(sorted) {
      Dicts.SortByKeyMembers(params, item);
      AuthPartsMember(sorted, item);
    }
  }

  /** An XML element found by `find`: its `.text`, `None` for an empty element. */
  datatype XmlElement = XmlElement(text: Option<string>)

  /** The children of `imsx_statusInfo` that `find` locates. */
  datatype StatusInfo = StatusInfo(codeMajor: Option<XmlElement>, severity: Option<XmlElement>, description: Option<XmlElement>)

  /** `ET.fromstring` followed by the search for `imsx_statusInfo`. */
  datatype XmlParse = Parsed(statusInfo: Option<StatusInfo>) | ParseError(message: string)

  /** `child.text if child is not None else default` */
  function ChildText(child: Option<XmlElement>, default: string): Json
  {
    match child
    case None => JStr(default)
    case Some(XmlElement(None)) => JNull
    case Some(XmlElement(Some(t))) => JStr(t)
  }

  /** The keys `_parse_outcomes_response` always sets first. */
  function ReportBase(response: Http.Response): Dicts.Items<Json>
  {
    [("success", JBool(false)), ("status_code", JInt(response.status)), ("response_body", JStr(response.text))]
  }

  /** `result[k1] = v1; result[k2] = v2` */
  function Put2(d: Dicts.Items<Json>, k1: string, v1: Json, k2: string, v2: Json): Dicts.Items<Json>
  {
    Dicts.Put(Dicts.Put(d, k1, v1), k2, v2)
  }

  /** The report with the children of the status block, before `success` is set. */
  function WithStatus(base: Dicts.Items<Json>, info: StatusInfo): Dicts.Items<Json>
  {
    Dicts.Put(Put2(base, "code_major", ChildText(info.codeMajor, "unknown"),
                         "severity", ChildText(info.severity, "unknown")),
              "description", ChildText(info.description, "No description"))
  }

  /** What `_parse_outcomes_response` returns, or the `AttributeError` it lets through. */
  function OutcomesReport(response: Http.Response, parse: string -> XmlParse): Result<Dicts.Items<Json>>
  {
    var base := ReportBase(response);
    if response.status != 200 then
      Ok(Put2(base, "error", JStr("HTTP " + Strings.IntToString(response.status)), "code", JStr("HTTP_ERROR")))
    else match parse(response.text)
      case ParseError(e) => Ok(Put2(base, "error", JStr("XML Parse Error: " + e), "code", JStr("XML_PARSE_ERROR")))
      case Parsed(None) => Ok(base)
      case Parsed(Some(info)) =>
        var codeMajor := ChildText(info.codeMajor, "unknown");
        if !codeMajor.JStr? then Raised(NoAttribute("NoneType", "lower"))
        else Ok(Dicts.Put(WithStatus(base, info), "success", JBool(Strings.Lower(codeMajor.s) == "success")))
  }

  /** The platform reported success: status 200 and a status block whose code is `success` in any case. */
  predicate ReportsSuccess(response: Http.Response, parse: string -> XmlParse)
  {
    && response.status == 200
    && parse(response.text).Parsed?
    && parse(response.text).statusInfo.Some?
    && var info := parse(response.text).statusInfo.value;
    && info.codeMajor.Some? && info.codeMajor.value.text.Some?
    && Strings.Lower(info.codeMajor.value.text.value) == "success"
  }

  /** Writing two keys other than `k` leaves `get(k)` alone. */
  lemma Put2Other(d: Dicts.Items<Json>, k1: string, v1: Json, k2: string, v2: Json, k: string)
    requires k != k1 && k != k2
    ensures Dicts.Lookup(Put2(d, k1, v1, k2, v2), k) == Dicts.Lookup(d, k)
  {
    Dicts.PutOther(d, k1, v1, k);
    Dicts.PutOther(Dicts.Put(d, k1, v1), k2, v2, k);
  }

  /** Writing the status children leaves `get(k)` alone for the other keys. */
  lemma WithStatusOther(base: Dicts.Items<Json>, info: StatusInfo, k: string)
    requires k != "code_major" && k != "severity" && k != "description"
    ensures Dicts.Lookup(WithStatus(base, info), k) == Dicts.Lookup(base, k)
  {
    Put2Other(base, "code_major", ChildText(info.codeMajor, "unknown"), "severity", ChildText(info.severity, "unknown"), k);
    Dicts.PutOther(Put2(base, "code_major", ChildText(info.codeMajor, "unknown"), "severity", ChildText(info.severity, "unknown")),
                   "description", ChildText(info.description, "No description"), k);
  }

  lemma ReportBaseLookups(response: Http.Response)
    ensures Dicts.Lookup(ReportBase(response), "success") == Some(JBool(false))
    ensures Dicts.Lookup(ReportBase(response), "status_code") == Some(JInt(response.status))
    ensures Dicts.Lookup(ReportBase(response), "response_body") == Some(JStr(response.text))
  {
    assert |"status_code"| == 11 && |"response_body"| == 13 && |"success"| == 7;
  }

  /** An error report (`error` and `code` added to the base) keeps the three base entries. */
  lemma ErrorReportLookups(response: Http.Response, error: Json, code: Json)
    ensures var r := Put2(ReportBase(response), "error", error, "code", code);
      && Dicts.Lookup(r, "success") == Some(JBool(false))
      && Dicts.Lookup(r, "status_code") == Some(JInt(response.status))
      && Dicts.Lookup(r, "response_body") == Some(JStr(response.text))
  {
    ReportBaseLookups(response);
    assert |"status_code"| == 11 && |"response_body"| == 13 && |"success"| == 7 && |"error"| == 5 && |"code"| == 4;
    Put2Other(ReportBase(response), "error", error, "code", code, "success");
    Put2Other(ReportBase(response), "error", error, "code", code, "status_code");
    Put2Other(ReportBase(response), "error", error, "code", code, "response_body");
  }

  /** A report from a status block: `success` as computed, the status code and body as received. */
  lemma StatusReportLookups(response: Http.Response, info: StatusInfo, success: bool)
    ensures var r := Dicts.Put(WithStatus(ReportBase(response), info), "success", JBool(success));
      && Dicts.Lookup(r, "success") == Some(JBool(success))
      && Dicts.Lookup(r, "status_code") == Some(JInt(response.status))
      && Dicts.Lookup(r, "response_body") == Some(JStr(response.text))
  {
    var filled := WithStatus(ReportBase(response), info);
    ReportBaseLookups(response);
    assert |"status_code"| == 11 && |"response_body"| == 13 && |"success"| == 7;
    assert |"code_major"| == 10 && |"severity"| == 8 && |"description"| == 11;
    assert "status_code"[0] == 's' && "description"[0] == 'd';
    WithStatusOther(ReportBase(response), info, "status_code");
    WithStatusOther(ReportBase(response), info, "response_body");
    Dicts.PutOther(filled, "success", JBool(success), "status_code");
    Dicts.PutOther(filled, "success", JBool(success), "response_body");
  }

  /** The default code `unknown` is not a success. */
  lemma UnknownIsNotSuccess()
    ensures Strings.Lower("unknown") != "success"
  {
    assert Strings.Lower("unknown")[0] == 'u';
  }

  /** What every report that is returned says: `success`, the status code and the body. */
  predicate ReportEntries(report: Dicts.Items<Json>, success: bool, response: Http.Response)
  {
    && Dicts.Lookup(report, "success") == Some(JBool(success))
    && Dicts.Lookup(report, "status_code") == Some(JInt(response.status))
    && Dicts.Lookup(report, "response_body") == Some(JStr(response.text))
  }

  lemma ErrorReportEntries(response: Http.Response, parse: string -> XmlParse)
    requires response.status != 200 || parse(response.text).ParseError?
    ensures OutcomesReport(response, parse).Ok?
    ensures ReportEntries(OutcomesReport(response, parse).value, false, response)
  {
    if response.status != 200 {
      ErrorReportLookups(response, JStr("HTTP " + Strings.IntToString(response.status)), JStr("HTTP_ERROR"));
    } else {
      ErrorReportLookups(response, JStr("XML Parse Error: " + parse(response.text).message), JStr("XML_PARSE_ERROR"));
    }
  }

  lemma StatusReportEntries(response: Http.Response, parse: string -> XmlParse)
    requires response.status == 200 && parse(response.text).Parsed? && parse(response.text).statusInfo.Some?
    requires parse(response.text).statusInfo.value.codeMajor != Some(XmlElement(None))
    ensures OutcomesReport(response, parse).Ok?
    ensures ReportEntries(OutcomesReport(response, parse).value, ReportsSuccess(response, parse), response)
  {
    var info := parse(response.text).statusInfo.value;
    var codeMajor := ChildText(info.codeMajor, "unknown");
    UnknownIsNotSuccess();
    StatusReportLookups(response, info, Strings.Lower(codeMajor.s) == "success");
  }

  /**
   * `success` is true exactly when the platform reported success, every report
   * keeps the status code and the body as received, and the report fails only
   * for an empty `imsx_codeMajor` element.
   */
  lemma OutcomesReportSuccess(response: Http.Response, parse: string -> XmlParse)
    ensures var r := OutcomesReport(response, parse);
      && (r.Ok? ==> ReportEntries(r.value, ReportsSuccess(response, parse), response))
      && (r.Raised? <==> response.status == 200 && parse(response.text).Parsed?
                         && parse(response.text).statusInfo.Some?
                         && parse(response.text).statusInfo.value.codeMajor == Some(XmlElement(None)))
  {
    var parsed := parse(response.text);
    if response.status != 200 || parsed.ParseError? {
      ErrorReportEntries(response, parse);
    } else if parsed.statusInfo.None? {
      ReportBaseLookups(response);
    } else if parsed.statusInfo.value.codeMajor != Some(XmlElement(None)) {
      StatusReportEntries(response, parse);
    }
  }

  /** A status other than 200 is an `HTTP_ERROR` whatever the body, and the body is not parsed. */
  lemma HttpErrorReport(response: Http.Response, parse1: string -> XmlParse, parse2: string -> XmlParse)
    requires response.status != 200
    ensures var r := OutcomesReport(response, parse1);
      && r == OutcomesReport(response, parse2)
      && r.Ok? && Dicts.Lookup(r.value, "code") == Some(JStr("HTTP_ERROR"))
      && Dicts.Lookup(r.value, "error") == Some(JStr("HTTP " + Strings.IntToString(response.status)))
  {
    var e := JStr("HTTP " + Strings.IntToString(response.status));
    assert |"error"| == 5 && |"code"| == 4;
    Dicts.PutOther(Dicts.Put(ReportBase(response), "error", e), "code", JStr("HTTP_ERROR"), "error");
  }

  /** A body that is not XML is an `XML_PARSE_ERROR` carrying the parser's message. */
  lemma ParseErrorReport(response: Http.Response, parse: string -> XmlParse)
    requires response.status == 200 && parse(response.text).ParseError?
    ensures var r := OutcomesReport(response, parse);
      && r.Ok? && Dicts.Lookup(r.value, "code") == Some(JStr("XML_PARSE_ERROR"))
      && Dicts.Lookup(r.value, "error") == Some(JStr("XML Parse Error: " + parse(response.text).message))
  {
    var e := JStr("XML Parse Error: " + parse(response.text).message);
    assert |"error"| == 5 && |"code"| == 4;
    Dicts.PutOther(Dicts.Put(ReportBase(response), "error", e), "code", JStr("XML_PARSE_ERROR"), "error");
  }

  /** A failed request: `success` false, the exception text and `REQUEST_ERROR`. */
  function RequestErrorReport(message: string): Dicts.Items<Json>
  {
    [("success", JBool(false)), ("error", JStr(message)), ("code", JStr("REQUEST_ERROR"))]
  }

  /** The three headers of the outcomes request. */
  function OutcomesHeaders(authHeader: string): Dicts.Items<string>
  {
    [("Authorization", authHeader), ("Content-Type", "application/xml"), ("User-Agent", "FastAPI-LTI-Tool/1.0")]
  }

  /** The `LTIOutcomesService` object: the consumer key and secret it signs with. */
  class OutcomesService {
    const consumerKey: string
    const consumerSecret: string

    constructor(consumerKey: string, consumerSecret: string)
      ensures this.consumerKey == consumerKey && this.consumerSecret == consumerSecret
    {
      this.consumerKey := consumerKey;
      this.consumerSecret := consumerSecret;
    }

    /** The request `send_grade` makes for an envelope, the OAuth parameters it signs and the signature. */
    function GradeRequest(outcomesUrl: string, xml: string, params: Dicts.Items<string>, prims: OAuthPrimitives): Http.Request
    {
      var signed := Dicts.Put(params, "oauth_body_hash", prims.bodyHash(xml));
      var signature := prims.hmacSha1(SigningKey(consumerSecret), BaseString("POST", outcomesUrl, ParamString(signed)));
      Http.Request("POST", outcomesUrl, OutcomesHeaders(AuthHeader(Dicts.Put(signed, "oauth_signature", signature))), Http.Text(xml))
    }

    /**
     * `_generate_outcomes_signature`: writes the body hash into the caller's
     * parameters, then signs the base string built from all of them.
     */
    method GenerateSignature(httpMethod: string, url: string, body: string, params: Dicts.Dict<string>, prims: OAuthPrimitives)
      returns (signature: string)
      modifies params
      ensures params.items == Dicts.Put(old(params.items), "oauth_body_hash", prims.bodyHash(body))
      ensures signature == prims.hmacSha1(SigningKey(consumerSecret), BaseString(httpMethod, url, ParamString(params.items)))
    {
      params.Set("oauth_body_hash", prims.bodyHash(body));
      signature := SignParameters(httpMethod, url, params.items, prims);
    }

    /** The second half of `_generate_outcomes_signature`: the parameter string, the base string and its HMAC. */
    method SignParameters(httpMethod: string, url: string, params: Dicts.Items<string>, prims: OAuthPrimitives)
      returns (signature: string)
      ensures signature == prims.hmacSha1(SigningKey(consumerSecret), BaseString(httpMethod, url, ParamString(params)))
    {
      var sorted := Dicts.SortByKey(params);
      var encoded: seq<string> := [];
      for i := 0 to |sorted|
        invariant |encoded| == i
        invariant forall j :: 0 <= j < i ==> encoded[j] == Quoting.EncodedPair(sorted[j])
      {
        var encodedKey := Quoting.QuotePlus(sorted[i].0);
        var encodedValue := Quoting.QuotePlus(sorted[i].1);
        encoded := encoded + [encodedKey + "=" + encodedValue];
      }
      assert encoded == Quoting.EncodedPairs(sorted);
      var parameterString := Strings.Join(encoded, "&");
      var signatureBase := Strings.Join([Strings.Upper(httpMethod), Quoting.QuotePlus(url), Quoting.QuotePlus(parameterString)], "&");
      var signingKey := Quoting.QuotePlus(consumerSecret) + "&";
      signature := prims.hmacSha1(signingKey, signatureBase);
    }

    /** `_create_auth_header` */
    method CreateAuthHeader(params: Dicts.Items<string>) returns (header: string)
      ensures header == AuthHeader(params)
    {
      var sorted := Dicts.SortByKey(params);
      var parts: seq<string> := [];
      for i := 0 to |sorted|
        invariant |parts| == i
        invariant forall j :: 0 <= j < i ==> parts[j] == AuthPart(sorted[j])
      {
        parts := parts + [Quoting.QuotePlus(sorted[i].0) + "=\"" + Quoting.QuotePlus(sorted[i].1) + "\""];
      }
      assert parts == AuthParts(sorted);
      header := "OAuth " + Strings.Join(parts, ", ");
    }

    /** `_parse_outcomes_response`: fills the report step by step. */
    method ParseOutcomesResponse(response: Http.Response, parse: string -> XmlParse) returns (r: Result<Dicts.Items<Json>>)
      ensures r == OutcomesReport(response, parse)
    {
      var result := new Dicts.Dict(ReportBase(response));
      if response.status != 200 {
        result.Set("error", JStr("HTTP " + Strings.IntToString(response.status)));
        result.Set("code", JStr("HTTP_ERROR"));
        return Ok(result.items);
      }
      var parsed := parse(response.text);
      if parsed.ParseError? {
        result.Set("error", JStr("XML Parse Error: " + parsed.message));
        result.Set("code", JStr("XML_PARSE_ERROR"));
      } else if parsed.statusInfo.Some? {
        var info := parsed.statusInfo.value;
        var codeMajor := ChildText(info.codeMajor, "unknown");
        result.Set("code_major", codeMajor);
        result.Set("severity", ChildText(info.severity, "unknown"));
        result.Set("description", ChildText(info.description, "No description"));
        if !codeMajor.JStr? {
          return Raised(NoAttribute("NoneType", "lower"));
        }
        result.Set("success", JBool(Strings.Lower(codeMajor.s) == "success"));
      }
      return Ok(result.items);
    }

    /**
     * `send_grade`: `timestamp` is `int(time.time())`, `messageUuid` and
     * `nonceUuid` the two `uuid4()` values it may draw, `gradeText` is
     * `str(grade)`.
     */
    method SendGrade(outcomesUrl: string, sourcedid: string, gradeText: string, messageIdentifier: Option<string>,
                     timestamp: int, messageUuid: string, nonceUuid: string, prims: OAuthPrimitives,
                     send: Http.Request -> Http.Outcome, parse: string -> XmlParse)
      returns (r: Result<Dicts.Items<Json>>, request: Http.Request)
      ensures var identifier := if messageIdentifier.Some? && messageIdentifier.value != [] then messageIdentifier.value
                                else messageUuid;
        request == GradeRequest(outcomesUrl, OutcomesXml(sourcedid, gradeText, identifier),
                                OAuthParams(consumerKey, timestamp, nonceUuid), prims)
      ensures send(request).Failed? ==> r == Ok(RequestErrorReport(send(request).message))
      ensures send(request).Answered? ==> r == OutcomesReport(send(request).response, parse)
    {
      var identifier := messageUuid;
      if messageIdentifier.Some? && messageIdentifier.value != [] {
        identifier := messageIdentifier.value;
      }
      var xml := OutcomesXml(sourcedid, gradeText, identifier);
      var oauthParams := new Dicts.Dict(OAuthParams(consumerKey, timestamp, nonceUuid));
      var signature := GenerateSignature("POST", outcomesUrl, xml, oauthParams, prims);
      oauthParams.Set("oauth_signature", signature);
      var authHeader := CreateAuthHeader(oauthParams.items);
      request := Http.Request("POST", outcomesUrl, OutcomesHeaders(authHeader), Http.Text(xml));
      match send(request) {
        case Failed(m) =>
          r := Ok(RequestErrorReport(m));
        case Answered(response) =>
          r := ParseOutcomesResponse(response, parse);
      }
    }
  }

  /**
   * Signing a dict of protocol parameters: the body hash replaces its empty
   * placeholder and is covered by the signature, the signature is not signed
   * over, and the header lists the signature along with every other parameter.
   */
  lemma SignedParams(params: Dicts.Items<string>, bodyHash: string, signature: string)
    requires Dicts.UniqueKeys(params) && Dicts.HasKey(params, "oauth_body_hash") && !Dicts.HasKey(params, "oauth_signature")
    ensures var signed := Dicts.Put(params, "oauth_body_hash", bodyHash);
      var sent := Dicts.Put(signed, "oauth_signature", signature);
      && Quoting.EncodedPair(("oauth_body_hash", bodyHash)) in Strings.Split(ParamString(signed), '&')
      && !Dicts.HasKey(signed, "oauth_signature")
      && AuthPart(("oauth_signature", signature)) in AuthParts(Dicts.SortByKey(sent))
      && |sent| == |params| + 1 && Dicts.UniqueKeys(sent)
  {
    var signed := Dicts.Put(params, "oauth_body_hash", bodyHash);
    Dicts.PutKeys(params, "oauth_body_hash", bodyHash);
    Dicts.PutUnique(params, "oauth_body_hash", bodyHash);
    ParamSigned(signed, "oauth_body_hash", bodyHash);
    var sent := Dicts.Put(signed, "oauth_signature", signature);
    Dicts.PutUnique(signed, "oauth_signature", signature);
    Dicts.SortByKeyMembers(sent, ("oauth_signature", signature));
    AuthPartsMember(Dicts.SortByKey(sent), ("oauth_signature", signature));
  }

  /**
   * The request `send_grade` sends for protocol parameters of the shape
   * `OAuthParamsShape` gives carries the envelope as its body, its body hash
   * is signed, and its `Authorization` header holds seven entries, one of them
   * the signature.
   */
  lemma GradeRequestSigned(service: OutcomesService, outcomesUrl: string, xml: string, params: Dicts.Items<string>,
                           prims: OAuthPrimitives)
    requires |params| == 6 && Dicts.UniqueKeys(params)
    requires Dicts.HasKey(params, "oauth_body_hash") && !Dicts.HasKey(params, "oauth_signature")
    ensures var signed := Dicts.Put(params, "oauth_body_hash", prims.bodyHash(xml));
      var signature := prims.hmacSha1(SigningKey(service.consumerSecret), BaseString("POST", outcomesUrl, ParamString(signed)));
      var sent := Dicts.Put(signed, "oauth_signature", signature);
      && service.GradeRequest(outcomesUrl, xml, params, prims).body == Http.Text(xml)
      && service.GradeRequest(outcomesUrl, xml, params, prims).headers[0] == ("Authorization", AuthHeader(sent))
      && Quoting.EncodedPair(("oauth_body_hash", prims.bodyHash(xml))) in Strings.Split(ParamString(signed), '&')
      && AuthPart(("oauth_signature", signature)) in AuthParts(Dicts.SortByKey(sent))
      && |AuthParts(Dicts.SortByKey(sent))| == 7
  {
    var signed := Dicts.Put(params, "oauth_body_hash", prims.bodyHash(xml));
    var signature := prims.hmacSha1(SigningKey(service.consumerSecret), BaseString("POST", outcomesUrl, ParamString(signed)));
    SignedParams(params, prims.bodyHash(xml), signature);
  }
}
