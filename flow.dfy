/**
 * The page and the server together: what the page sends for a selection is
 * what the server validates, authenticates and forwards to the webhook.
 * The page's request helper is assumed to send the payload as its JSON
 * serialisation.
 */
module Flow {
  import opened Wrappers
  import opened Json
  import opened Schema
  import opened Routes
  import opened Home

  /** Every payload the page sends passes the server's schema, even though the schema allows more. */
  lemma PageRequestsAreValid(items: seq<ShoppingItem>, password: string)
    requires SelectedNames(items) != [] && password != ""
    ensures ParsePayload(PayloadJson(WebhookPayload(SelectedNames(items), password)))
            == Some(WebhookPayload(SelectedNames(items), password))
  {
    ParsePayloadRoundTrip(WebhookPayload(SelectedNames(items), password));
  }

  /**
   * With the right password and a configured URL, the webhook receives the
   * selected names in list order and nothing else, and the page gets 200.
   */
  lemma SelectionReachesWebhook(items: seq<ShoppingItem>, password: string, url: string, status: int)
    requires SelectedNames(items) != [] && password != "" && url != ""
    ensures HandleWebhook(PayloadJson(WebhookPayload(SelectedNames(items), password)), Some(password), Some(url), Resolved(status))
            == Reply(Response(200, StatusText(OK_TEXT)),
                     Some(OutboundRequest(url, "POST", OUTBOUND_HEADERS, JObject(map["items" := StringArray(SelectedNames(items))]))))
  {
    PageRequestsAreValid(items, password);
  }

  /** With any other server password the page's request is refused with 401 and nothing is forwarded. */
  lemma WrongPasswordForwardsNothing(items: seq<ShoppingItem>, password: string, secret: string, url: Option<string>, fetch: FetchOutcome)
    requires SelectedNames(items) != [] && password != "" && secret != "" && password != secret
    ensures HandleWebhook(PayloadJson(WebhookPayload(SelectedNames(items), password)), Some(secret), url, fetch)
            == Reply(Response(401, JsonMessage(AUTH_ERROR)), None)
  {
    PageRequestsAreValid(items, password);
  }
}
