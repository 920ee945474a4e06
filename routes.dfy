/**
 * The `POST /api/webhook` handler: validate the body, check that the admin
 * password is configured, compare passwords, check that the webhook URL is
 * configured, strip the password and forward the rest. The environment
 * variables are parameters, and the outcome of the outbound `fetch` is an
 * input; the handler keeps no state between requests.
 */
module Routes {
  import opened Wrappers
  import opened Json
  import opened Schema

  /** How the outbound call ended: it resolved with some HTTP status, or it threw. */
  datatype FetchOutcome = Resolved(webhookStatus: int) | Threw

  /** `res.sendStatus` sends the status text; `res.json` a message object. */
  datatype ResponseBody = StatusText(text: string) | JsonMessage(message: string)

  datatype Response = Response(status: int, body: ResponseBody)

  /** The one outbound POST the handler may issue. */
  datatype OutboundRequest = OutboundRequest(url: string, httpMethod: string, headers: seq<(string, string)>, body: Value)

  /** The handler's observable effects: its response and the outbound call it made, if any. */
  datatype Reply = Reply(response: Response, forwarded: Option<OutboundRequest>)

  /** The only message of every 500 response; it names neither the secret nor the URL. */
  const REQUEST_FAILED: string := "Request failed"
  /** The message of the 401 response ("authentication error"). */
  const AUTH_ERROR: string := "認証エラー"
  /** The status text `res.sendStatus(200)` sends as the body of a success. */
  const OK_TEXT: string := "OK"
  const OUTBOUND_HEADERS: seq<(string, string)> := [("Content-Type", "application/json"), ("Accept", "application/json")]

  /** A configuration value is usable when it is set and non-empty (JavaScript truthiness). */
  predicate Configured(v: Option<string>) {
    v.Some? && v.value != ""
  }

  /** `const { password, ...webhookData } = payload`: the payload object minus its `password` key. */
  function WithoutPassword(p: WebhookPayload): (v: Value)
    ensures v == JObject(PayloadJson(p).fields - {"password"})
  {
    var rest := map["items" := StringArray(p.items)];
    var all := PayloadJson(p).fields;
    assert "items" != "password";
    assert (all - {"password"}).Keys == rest.Keys;
    assert (all - {"password"})["items"] == rest["items"];
    assert rest == all - {"password"};
    JObject(rest)
  }

  /** Every fault caught by the handler's `catch` block. */
  function Failure(forwarded: Option<OutboundRequest>): Reply {
    Reply(Response(500, JsonMessage(REQUEST_FAILED)), forwarded)
  }

  /**
   * The handler's decision for one request. A call is forwarded only for a
   * valid body carrying the configured admin password, and only when a
   * webhook URL is configured; a wrong password is the one 401.
   */
  function HandleWebhook(body: Value, adminPassword: Option<string>, webhookUrl: Option<string>, fetch: FetchOutcome): (r: Reply)
    ensures r.response.status in {200, 401, 500}
    ensures r.response.status == 401 <==>
      ParsePayload(body).Some? && Configured(adminPassword) && ParsePayload(body).value.password != adminPassword.value
    ensures r.forwarded.Some? <==>
      && ParsePayload(body).Some? && Configured(adminPassword) && ParsePayload(body).value.password == adminPassword.value
      && Configured(webhookUrl)
    ensures r.forwarded.Some? ==>
      r.forwarded.value == OutboundRequest(webhookUrl.value, "POST", OUTBOUND_HEADERS, WithoutPassword(ParsePayload(body).value))
    ensures r.response.status == 200 <==> r.forwarded.Some? && fetch.Resolved?
    ensures r.response.status == 500 ==> r.response.body == JsonMessage(REQUEST_FAILED)
  {
    match ParsePayload(body)
    case None => Failure(None)
    case Some(payload) =>
      if !Configured(adminPassword) then Failure(None)
      else if payload.password != adminPassword.value then Reply(Response(401, JsonMessage(AUTH_ERROR)), None)
      else if !Configured(webhookUrl) then Failure(None)
      else
        var call := OutboundRequest(webhookUrl.value, "POST", OUTBOUND_HEADERS, WithoutPassword(payload));
        match fetch
        case Threw => Failure(Some(call))
        case Resolved(_) => Reply(Response(200, StatusText(OK_TEXT)), Some(call))
  }

  /** A body the schema rejects gives 500 and no outbound call. */
  lemma InvalidBodyFails(body: Value, adminPassword: Option<string>, webhookUrl: Option<string>, fetch: FetchOutcome)
    requires !IsWebhookPayload(body)
    ensures HandleWebhook(body, adminPassword, webhookUrl, fetch) == Failure(None)
  {
  }

  /** With no usable admin password every valid request gives 500, whatever password it carries. */
  lemma UnconfiguredSecretFails(items: seq<string>, password: string, adminPassword: Option<string>, webhookUrl: Option<string>, fetch: FetchOutcome)
    requires password != "" && !Configured(adminPassword)
    ensures HandleWebhook(PayloadJson(WebhookPayload(items, password)), adminPassword, webhookUrl, fetch) == Failure(None)
  {
    ParsePayloadRoundTrip(WebhookPayload(items, password));
  }

  /** The password is checked before the URL: a wrong password without a URL is still a 401. */
  lemma WrongPasswordBeforeMissingUrl(items: seq<string>, password: string, secret: string, fetch: FetchOutcome)
    requires password != "" && secret != "" && password != secret
    ensures HandleWebhook(PayloadJson(WebhookPayload(items, password)), Some(secret), None, fetch)
            == Reply(Response(401, JsonMessage(AUTH_ERROR)), None)
  {
    ParsePayloadRoundTrip(WebhookPayload(items, password));
  }

  /** A correct password without a configured URL is a 500 and no outbound call. */
  lemma CorrectPasswordMissingUrl(items: seq<string>, secret: string, webhookUrl: Option<string>, fetch: FetchOutcome)
    requires secret != "" && !Configured(webhookUrl)
    ensures HandleWebhook(PayloadJson(WebhookPayload(items, secret)), Some(secret), webhookUrl, fetch) == Failure(None)
  {
    ParsePayloadRoundTrip(WebhookPayload(items, secret));
  }

  /** The forwarded body has exactly one key, `items`, holding the received items in order. */
  lemma ForwardedBodyOmitsPassword(body: Value, adminPassword: Option<string>, webhookUrl: Option<string>, fetch: FetchOutcome)
    requires HandleWebhook(body, adminPassword, webhookUrl, fetch).forwarded.Some?
    ensures var sent := HandleWebhook(body, adminPassword, webhookUrl, fetch).forwarded.value.body;
            && sent.JObject? && sent.fields.Keys == {"items"}
            && sent.fields["items"] == body.fields["items"]
  {
  }

  /** Once the call resolves the caller gets 200, whatever status the webhook answered with. */
  lemma WebhookStatusIgnored(body: Value, adminPassword: Option<string>, webhookUrl: Option<string>, s1: int, s2: int)
    ensures HandleWebhook(body, adminPassword, webhookUrl, Resolved(s1)) == HandleWebhook(body, adminPassword, webhookUrl, Resolved(s2))
  {
  }

  /** A throwing call still counts as the one call made, and the caller sees only the fixed message. */
  lemma ThrowingCallFails(body: Value, adminPassword: Option<string>, webhookUrl: Option<string>)
    ensures var r := HandleWebhook(body, adminPassword, webhookUrl, Threw);
            r.forwarded.Some? ==> r.response == Response(500, JsonMessage(REQUEST_FAILED))
  {
  }

  /** The configured secret "secret123" and the body {"items":["milk"],"password":"secret123"}: 200, and {"items":["milk"]} is forwarded. */
  lemma MatchingSecretForwardsMilk(url: string, status: int)
    requires url != ""
    ensures HandleWebhook(PayloadJson(WebhookPayload(["milk"], "secret123")), Some("secret123"), Some(url), Resolved(status))
            == Reply(Response(200, StatusText(OK_TEXT)),
                     Some(OutboundRequest(url, "POST", OUTBOUND_HEADERS, JObject(map["items" := JArray([JString("milk")])]))))
  {
    ParsePayloadRoundTrip(WebhookPayload(["milk"], "secret123"));
    assert StringArray(["milk"]) == JArray([JString("milk")]);
  }

  /** The same body with "wrong" as its password: 401 and no outbound call. */
  lemma WrongSecretForwardsNothing(url: Option<string>, fetch: FetchOutcome)
    ensures HandleWebhook(PayloadJson(WebhookPayload(["milk"], "wrong")), Some("secret123"), url, fetch)
            == Reply(Response(401, JsonMessage(AUTH_ERROR)), None)
  {
    ParsePayloadRoundTrip(WebhookPayload(["milk"], "wrong"));
  }

  /** A body without a `password` key: 500 and no outbound call. */
  lemma MissingPasswordFails(fields: map<string, Value>, adminPassword: Option<string>, url: Option<string>, fetch: FetchOutcome)
    requires "password" !in fields
    ensures HandleWebhook(JObject(fields), adminPassword, url, fetch) == Failure(None)
  {
  }
}
