/** The `createCharge` handler: validates a charge request, labels it with a
    pricing tier derived from the uploaded file's size, builds the charge
    sent to the vendor's charges API, and maps the vendor's reply back to
    the caller.  The vendor reply is an input: the reply the vendor gave to
    the charge this handler sent. */
module CreateCharge {
  import opened JsValues
  import opened JsStrings
  import opened Http

  /** The parts of the incoming request the handler reads. */
  datatype Request = Request(httpMethod: string, body: Value)

  // ---------------------------------------------------------------------------
  // Pricing tiers

  datatype Tier = Tier1 | Tier2 | Tier3 | Tier4 | Tier5

  function Label(t: Tier): string {
    match t
    case Tier1 => "Tier 1 (<100KB)"
    case Tier2 => "Tier 2 (100KB-20MB)"
    case Tier3 => "Tier 3 (20-50MB)"
    case Tier4 => "Tier 4 (50-100MB)"
    case Tier5 => "Tier 5 (>100MB)"
  }

  /** The tier's position in the table, smallest files first. */
  function Rank(t: Tier): nat {
    match t
    case Tier1 => 1
    case Tier2 => 2
    case Tier3 => 3
    case Tier4 => 4
    case Tier5 => 5
  }

  /** `parseFloat(fileSize) / 1024 / 1024 < limit`: the size in megabytes
      against a limit.  NaN (None) is below no limit. */
  predicate BelowMB(size: Option<int>, limit: real) {
    size.Some? && size.value as real / 1024.0 / 1024.0 < limit
  }

  /** The first-match tier chain.  Its contract gives the byte ranges each
      tier covers: half-open, lower bound included, at 0.1, 20, 50 and 100
      megabytes; a NaN size falls through to the last tier. */
  function Classify(size: Option<int>): (t: Tier)
    ensures size.None? ==> t == Tier5
    ensures size.Some? ==> (t == Tier1 <==> size.value <= 104857)
    ensures size.Some? ==> (t == Tier2 <==> 104858 <= size.value < 20971520)
    ensures size.Some? ==> (t == Tier3 <==> 20971520 <= size.value < 52428800)
    ensures size.Some? ==> (t == Tier4 <==> 52428800 <= size.value < 104857600)
    ensures size.Some? ==> (t == Tier5 <==> 104857600 <= size.value)
  {
    if BelowMB(size, 0.1) then Tier1
    else if BelowMB(size, 20.0) then Tier2
    else if BelowMB(size, 50.0) then Tier3
    else if BelowMB(size, 100.0) then Tier4
    else Tier5
  }

  /** A larger file never lands in a lower tier. */
  lemma ClassifyMonotone(a: int, b: int)
    requires a <= b
    ensures Rank(Classify(Some(a))) <= Rank(Classify(Some(b)))
  {
  }

  /** A negative byte count is below every limit, so it is Tier 1. */
  lemma NegativeSizeIsTier1(bytes: int)
    requires bytes < 0
    ensures Classify(Some(bytes)) == Tier1
  {
  }

  /** A file size that is missing or not numeric reads as NaN and falls
      through every comparison to Tier 5, not Tier 1. */
  lemma NonNumericSizeIsTier5(fileSize: Value)
    requires fileSize.Undefined? || fileSize.Null? || fileSize.Bool? || fileSize.Obj?
    ensures Classify(ParseFloat(fileSize)) == Tier5
  {
  }

  // ---------------------------------------------------------------------------
  // The charge sent to the vendor

  datatype Price = Price(amount: string, currency: string)

  datatype Charge = Charge(
    name: string,
    description: Value,
    pricingType: string,
    localPrice: Price,
    metadata: map<string, Value>,
    redirectUrl: string,
    cancelUrl: string)

  /** The keys the handler writes over whatever the caller's metadata held. */
  const HandlerKeys: set<string> := {"file_size", "tier", "timestamp"}

  /** `{...(metadata || {}), file_size, tier, timestamp}`. */
  function Metadata(callerMetadata: Value, fileSize: Value, tier: Tier, now: string): (m: map<string, Value>)
    ensures m.Keys == SpreadEntries(Or(callerMetadata, Obj(map[]))).Keys + HandlerKeys
    ensures m["file_size"] == fileSize && m["tier"] == Str(Label(tier)) && m["timestamp"] == Str(now)
    ensures callerMetadata.Obj? ==>
      forall k :: k in callerMetadata.fields && k !in HandlerKeys ==> m[k] == callerMetadata.fields[k]
    ensures !Truthy(callerMetadata) ==> m.Keys == HandlerKeys
  {
    SpreadEntries(Or(callerMetadata, Obj(map[])))
      + map["file_size" := fileSize, "tier" := Str(Label(tier)), "timestamp" := Str(now)]
  }

  function DefaultDescription(t: Tier): string {
    "Payment for document upload (" + Label(t) + ")"
  }

  /** The `chargeData` literal, built once amount, currency and name are
      known to be truthy.  `currency.toLowerCase()` throws when the currency
      is not a string; `amount.toString()` cannot throw on a truthy JSON
      value. */
  function BuildCharge(body: Value, baseUrl: Option<string>, now: string): (r: Result<Charge>)
    requires HasRequiredFields(body)
    ensures r.Throw? <==> !Prop(body, "currency").Str?
    ensures r.Throw? ==> r.fault == NotAFunction("currency.toLowerCase")
    ensures r.Ok? ==> var tier := Classify(ParseFloat(Prop(body, "fileSize")));
      && r.value.pricingType == "fixed_price"
      && r.value.name == "Document Upload - " + Label(tier)
      && r.value.localPrice == Price(ToString(Prop(body, "amount")), ToLowerCase(Prop(body, "currency").s))
      && (Truthy(Prop(body, "description")) ==> r.value.description == Prop(body, "description"))
      && (!Truthy(Prop(body, "description")) ==> r.value.description == Str(DefaultDescription(tier)))
      && HandlerKeys <= r.value.metadata.Keys
      && r.value.metadata["tier"] == Str(Label(tier))
      && r.value.metadata["file_size"] == Prop(body, "fileSize")
      && r.value.metadata["timestamp"] == Str(now)
    ensures r.Ok? ==>
      r.value.metadata == Metadata(Prop(body, "metadata"), Prop(body, "fileSize"), Classify(ParseFloat(Prop(body, "fileSize"))), now)
    ensures r.Ok? ==>
      && r.value.redirectUrl == EnvText(baseUrl) + "/upload?status=success"
      && r.value.cancelUrl == EnvText(baseUrl) + "/upload?status=canceled"
  {
    var amount := Prop(body, "amount");
    var currency := Prop(body, "currency");
    var description := Prop(body, "description");
    var fileSize := Prop(body, "fileSize");
    var tier := Classify(ParseFloat(fileSize));
    if !currency.Str? then Throw(NotAFunction("currency.toLowerCase"))
    else
      Ok(Charge(
        "Document Upload - " + Label(tier),
        Or(description, Str(DefaultDescription(tier))),
        "fixed_price",
        Price(ToString(amount), ToLowerCase(currency.s)),
        Metadata(Prop(body, "metadata"), fileSize, tier, now),
        EnvText(baseUrl) + "/upload?status=success",
        EnvText(baseUrl) + "/upload?status=canceled"))
  }

  /** Caller metadata survives in the charge, except under the three keys
      the handler sets itself. */
  lemma CallerMetadataKept(body: Value, baseUrl: Option<string>, now: string, k: string)
    requires HasRequiredFields(body)
    requires BuildCharge(body, baseUrl, now).Ok?
    requires Prop(body, "metadata").Obj? && k in Prop(body, "metadata").fields && k !in HandlerKeys
    ensures k in BuildCharge(body, baseUrl, now).value.metadata
    ensures BuildCharge(body, baseUrl, now).value.metadata[k] == Prop(body, "metadata").fields[k]
  {
  }

  /** Example: a 50000-byte upload of 10.00 USD. */
  lemma SmallUploadExample()
    ensures var body := Obj(map["amount" := Str("10.00"), "currency" := Str("USD"), "name" := Str("doc"), "fileSize" := Num(50000)]);
      var c := BuildCharge(body, None, "2024-01-01T00:00:00.000Z");
      && c.Ok?
      && c.value.localPrice == Price("10.00", "usd")
      && c.value.metadata["tier"] == Str("Tier 1 (<100KB)")
  {
    var body := Obj(map["amount" := Str("10.00"), "currency" := Str("USD"), "name" := Str("doc"), "fileSize" := Num(50000)]);
    assert Prop(body, "currency") == Str("USD");
    assert Prop(body, "amount") == Str("10.00");
    assert Prop(body, "fileSize") == Num(50000);
    assert ParseFloat(Num(50000)) == Some(50000);
    assert ToLowerCase("USD") == "usd";
  }

  // ---------------------------------------------------------------------------
  // The handler

  /** Where the handler stands once its input is checked: it has answered,
      or it has a charge to send to the vendor. */
  datatype Step = Respond(response: Response) | Send(charge: Charge)

  /** The body of the `catch` block: status 500, a fixed error text, and the
      thrown error's (never empty) message. */
  function InternalError(f: Fault): (r: Response)
    ensures r.status == 500 && r.body.Some? && r.body.value.Obj?
    ensures r.body.value.fields.Keys == {"error", "message"}
    ensures r.body.value.fields["error"] == Str("Internal server error")
    ensures r.body.value.fields["message"] == Str(Message(f))
    ensures r.body.value.fields["message"].Str? && Truthy(r.body.value.fields["message"])
  {
    Response(500, Some(Obj(map["error" := Str("Internal server error"), "message" := Str(Message(f))])))
  }

  function MissingFieldsBody(): Value {
    Obj(map[
      "error" := Str("Missing required fields"),
      "required" := Arr([Str("amount"), Str("currency"), Str("name")])])
  }

  predicate HasRequiredFields(body: Value) {
    Truthy(Prop(body, "amount")) && Truthy(Prop(body, "currency")) && Truthy(Prop(body, "name"))
  }

  /** Everything before the vendor call. */
  function Prepare(req: Request, env: Env, now: string): (s: Step)
    ensures s.Send? <==> req.httpMethod == "POST" && HasApiKey(env) && Truthy(req.body)
                         && HasRequiredFields(req.body) && BuildCharge(req.body, env.baseUrl, now).Ok?
    ensures s.Send? ==> s.charge == BuildCharge(req.body, env.baseUrl, now).value
  {
    if req.httpMethod == "OPTIONS" then Respond(Response(200, None))
    else if req.httpMethod != "POST" then Respond(Response(405, Some(ErrorBody("Method not allowed"))))
    else if !HasApiKey(env) then Respond(Response(500, Some(ErrorBody("Server configuration error"))))
    else if !Truthy(req.body) then Respond(Response(400, Some(ErrorBody("Request body is required"))))
    else if !HasRequiredFields(req.body) then Respond(Response(400, Some(MissingFieldsBody())))
    else
      match BuildCharge(req.body, env.baseUrl, now)
      case Throw(f) => Respond(InternalError(f))
      case Ok(c) => Send(c)
  }

  /** The vendor's answer, as the caller sees it. */
  function ReplyResponse(reply: VendorReply): (r: Response)
    ensures ReplyOk(reply) ==> r == Response(201, Some(reply.data))
    ensures !ReplyOk(reply) && Nullish(reply.data) ==> r == InternalError(ReadOfNullish(reply.data, "error"))
    ensures !ReplyOk(reply) && !Nullish(reply.data) ==>
      var err := Prop(reply.data, "error");
      var message := OptionalProp(err, "message");
      && r.status == reply.status
      && r.body.Some? && r.body.value.Obj? && r.body.value.fields.Keys == {"error", "details"}
      && r.body.value.fields["details"] == err
      && (Truthy(message) ==> r.body.value.fields["error"] == message)
      && (!Truthy(message) ==> r.body.value.fields["error"] == Str("Failed to create charge"))
  {
    if !ReplyOk(reply) then
      match Get(reply.data, "error")
      case Throw(f) => InternalError(f)
      case Ok(err) =>
        Response(reply.status, Some(Obj(map[
          "error" := Or(OptionalProp(err, "message"), Str("Failed to create charge")),
          "details" := err])))
    else
      Response(201, Some(reply.data))
  }

  /** The whole handler.  Its contract is the validation order: preflight,
      method, API key, body, required fields. */
  function Handle(req: Request, env: Env, now: string, reply: VendorReply): (r: Response)
    ensures req.httpMethod == "OPTIONS" ==> r == Response(200, None)
    ensures req.httpMethod != "OPTIONS" && req.httpMethod != "POST" ==>
      r == Response(405, Some(ErrorBody("Method not allowed")))
    ensures req.httpMethod == "POST" && !HasApiKey(env) ==>
      r == Response(500, Some(ErrorBody("Server configuration error")))
    ensures req.httpMethod == "POST" && HasApiKey(env) && !Truthy(req.body) ==>
      r == Response(400, Some(ErrorBody("Request body is required")))
    ensures req.httpMethod == "POST" && HasApiKey(env) && Truthy(req.body) && !HasRequiredFields(req.body) ==>
      r == Response(400, Some(MissingFieldsBody()))
    ensures req.httpMethod == "POST" && HasApiKey(env) && Truthy(req.body) && HasRequiredFields(req.body)
            && !Prop(req.body, "currency").Str? ==>
      r == InternalError(NotAFunction("currency.toLowerCase"))
    ensures req.httpMethod == "POST" && HasApiKey(env) && Truthy(req.body) && HasRequiredFields(req.body)
            && Prop(req.body, "currency").Str? && ReplyOk(reply) ==>
      r == Response(201, Some(reply.data))
    ensures req.httpMethod == "POST" && HasApiKey(env) && Truthy(req.body) && HasRequiredFields(req.body)
            && Prop(req.body, "currency").Str? && !ReplyOk(reply) ==>
      r == ReplyResponse(reply)
    ensures r.status == 201 ==> ReplyOk(reply) && r.body == Some(reply.data)
  {
    match Prepare(req, env, now)
    case Respond(early) => early
    case Send(_) => ReplyResponse(reply)
  }

  /** A request turned away before the vendor call gets the same answer
      whatever the vendor would have said. */
  lemma EarlyAnswerIgnoresVendor(req: Request, env: Env, now: string, a: VendorReply, b: VendorReply)
    requires Prepare(req, env, now).Respond?
    ensures Handle(req, env, now, a) == Handle(req, env, now, b)
  {
  }

  /** The missing-fields answer names all three fields, whichever is missing. */
  lemma MissingFieldListFixed(env: Env, now: string, reply: VendorReply, body1: Value, body2: Value)
    requires HasApiKey(env) && Truthy(body1) && Truthy(body2)
    requires !HasRequiredFields(body1) && !HasRequiredFields(body2)
    ensures Handle(Request("POST", body1), env, now, reply) == Handle(Request("POST", body2), env, now, reply)
  {
  }
}
