/**
 * The types shared by the page and the server: a shopping item, the webhook
 * payload with the validity check the payload schema encodes, and the list
 * the page starts with.
 */
module Schema {
  import opened Wrappers
  import opened Json

  /** One entry of the shopping list. */
  datatype ShoppingItem = ShoppingItem(id: string, name: string, isSelected: bool)

  /** What the page sends to the server: the selected names and the password. */
  datatype WebhookPayload = WebhookPayload(items: seq<string>, password: string)

  /** No two items of the list share an id. */
  predicate DistinctIds(items: seq<ShoppingItem>) {
    forall i, j :: 0 <= i < j < |items| ==> items[i].id != items[j].id
  }

  /**
   * The shape the payload schema accepts: an object whose `items` is an
   * array of strings and whose `password` is a string of length at least 1.
   * Other keys may be present.
   */
  ghost predicate IsWebhookPayload(body: Value) {
    && body.JObject?
    && "items" in body.fields
    && body.fields["items"].JArray?
    && (forall e :: e in body.fields["items"].elems ==> e.JString?)
    && "password" in body.fields
    && body.fields["password"].JString?
    && |body.fields["password"].s| >= 1
  }

  /** The payload as the page serialises it. */
  function PayloadJson(p: WebhookPayload): Value {
    JObject(map["items" := StringArray(p.items), "password" := JString(p.password)])
  }

  /**
   * The array-of-strings check: the strings of `elems`, in order, or None
   * as soon as one element is not a string.
   */
  function StringElements(elems: seq<Value>): (r: Option<seq<string>>)
    ensures r.Some? <==> forall i :: 0 <= i < |elems| ==> elems[i].JString?
    ensures r.Some? ==> |r.value| == |elems| && forall i :: 0 <= i < |elems| ==> r.value[i] == elems[i].s
  {
    if elems == [] then Some([])
    else if !elems[0].JString? then None
    else match StringElements(elems[1..])
      case None => None
      case Some(rest) => Some([elems[0].s] + rest)
  }

  /**
   * `webhookPayloadSchema.parse(body)`: the payload the body holds, with any
   * other keys dropped, or None where parsing throws.
   */
  function ParsePayload(body: Value): (r: Option<WebhookPayload>)
    ensures r.Some? <==> IsWebhookPayload(body)
    ensures r.Some? ==> PayloadJson(r.value).fields == body.fields - (body.fields.Keys - {"items", "password"})
  {
    if !body.JObject? || "items" !in body.fields || !body.fields["items"].JArray? then None
    else
      var names := StringElements(body.fields["items"].elems);
      var password := if "password" in body.fields then body.fields["password"] else JNull;
      if names.None? || !password.JString? || |password.s| < 1 then None
      else
        var p := WebhookPayload(names.value, password.s);
        assert StringArray(p.items) == body.fields["items"];
        Some(p)
  }

  /** Parsing what the page serialises gives the payload back, unless the password is empty. */
  lemma ParsePayloadRoundTrip(p: WebhookPayload)
    ensures ParsePayload(PayloadJson(p)) == if |p.password| >= 1 then Some(p) else None
  {
    var r := ParsePayload(PayloadJson(p));
    if r.Some? {
      var q := r.value;
      assert StringArray(q.items) == StringArray(p.items);
      assert |q.items| == |p.items|;
      forall i | 0 <= i < |p.items| ensures q.items[i] == p.items[i] {
        assert StringArray(q.items).elems[i] == JString(q.items[i]);
      }
      assert q.items == p.items;
      assert JString(q.password) == PayloadJson(q).fields["password"] == JString(p.password);
    }
  }

  /** An empty `items` array passes: only the page insists on a non-empty selection. */
  lemma EmptyItemsAccepted(password: string)
    requires password != ""
    ensures ParsePayload(PayloadJson(WebhookPayload([], password))) == Some(WebhookPayload([], password))
  {
    ParsePayloadRoundTrip(WebhookPayload([], password));
  }

  /** Item strings are not constrained: duplicates and empty strings pass. */
  lemma DuplicateAndEmptyItemsAccepted()
    ensures var p := WebhookPayload(["milk", "milk", ""], "secret123");
            ParsePayload(PayloadJson(p)) == Some(p)
  {
    ParsePayloadRoundTrip(WebhookPayload(["milk", "milk", ""], "secret123"));
  }

  /** An empty password fails validation whatever else the body holds. */
  lemma EmptyPasswordRejected(fields: map<string, Value>)
    requires "password" in fields && fields["password"] == JString("")
    ensures ParsePayload(JObject(fields)) == None
  {
  }

  /** Keys other than `items` and `password` play no part in parsing. */
  lemma UnknownKeysIgnored(fields: map<string, Value>, key: string, v: Value)
    requires key != "items" && key != "password"
    ensures ParsePayload(JObject(fields[key := v])) == ParsePayload(JObject(fields))
  {
  }

  /** The list the page starts with. */
  const DEFAULT_ITEMS: seq<ShoppingItem> := [
    ShoppingItem("1", "バナナ", false),
    ShoppingItem("2", "トマト", false),
    ShoppingItem("3", "納豆", false),
    ShoppingItem("4", "キムチ", false),
    ShoppingItem("5", "梅干し", false),
    ShoppingItem("6", "ヨーグルト", false),
    ShoppingItem("7", "牛乳", false),
    ShoppingItem("8", "Y1000", false),
    ShoppingItem("9", "ミューズリー", false)
  ]

  /** Nine unselected items whose ids are "1" to "9", hence pairwise distinct. */
  lemma DefaultItemsWellFormed()
    ensures |DEFAULT_ITEMS| == 9
    ensures forall i :: 0 <= i < 9 ==> DEFAULT_ITEMS[i].id == [('1' as int + i) as char]
    ensures forall i :: 0 <= i < 9 ==> !DEFAULT_ITEMS[i].isSelected
    ensures DistinctIds(DEFAULT_ITEMS)
  {
  }
}
