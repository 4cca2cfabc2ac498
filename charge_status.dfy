/** The `chargeStatus` handler: looks a charge up at the vendor and reduces
    its event timeline to one status name.  The vendor reply is an input:
    the reply the vendor gave to the lookup of the requested charge. */
module ChargeStatus {
  import opened JsValues
  import opened Http

  /** `timeline || []`, read off the charge record (`data.data`). */
  function Timeline(charge: Value): (r: Result<Value>)
    ensures Nullish(charge) <==> r.Throw?
  {
    match Get(charge, "timeline")
    case Throw(f) => Throw(f)
    case Ok(t) => Ok(Or(t, Arr([])))
  }

  /** The charge's timeline is a non-empty array: its events. */
  predicate HasEvents(charge: Value) {
    var t := Prop(charge, "timeline");
    t.Arr? && |t.items| > 0
  }

  /** The charge carries no timeline events to read: the timeline is absent,
      falsy, or an empty array. */
  predicate NoEvents(charge: Value) {
    var t := Prop(charge, "timeline");
    !Truthy(t) || t == Arr([])
  }

  /** The status of the charge record: that of the last timeline event, or
      the record's own `status` when the timeline has no events. */
  function LatestStatus(charge: Value): (r: Result<Value>)
    ensures Nullish(charge) ==> r == Throw(ReadOfNullish(charge, "timeline"))
    ensures !Nullish(charge) && NoEvents(charge) ==> r == Ok(Prop(charge, "status"))
    ensures !Nullish(charge) && HasEvents(charge) ==>
      var last := Prop(charge, "timeline").items[|Prop(charge, "timeline").items| - 1];
      r == Get(last, "status")
  {
    match Timeline(charge)
    case Throw(f) => Throw(f)
    case Ok(timeline) =>
      match timeline
      case Arr(items) =>
        if |items| > 0 then Get(items[|items| - 1], "status") else Ok(Prop(charge, "status"))
      // A non-empty string: its last character has no `status`.
      case Str(_) => Ok(Undefined)
      // `timeline.length` is undefined, and `undefined > 0` is false.
      case _ => Ok(Prop(charge, "status"))
  }

  /** Only the last event counts: events before it never change the result. */
  lemma EarlierEventsIgnored(m: map<string, Value>, p: seq<Value>, q: seq<Value>, e: Value)
    ensures LatestStatus(Obj(m["timeline" := Arr(p + [e])])) == LatestStatus(Obj(m["timeline" := Arr(q + [e])]))
  {
  }

  /** Appending an event with status `s` makes `s` the charge's status. */
  lemma AppendedEventDecides(m: map<string, Value>, events: seq<Value>, event: map<string, Value>, s: Value)
    requires "status" in event && event["status"] == s
    ensures LatestStatus(Obj(m["timeline" := Arr(events + [Obj(event)])])) == Ok(s)
  {
  }

  /** The answer the caller gets when the handler throws: status 500 and the
      error's message, which is never empty, so the fallback text is never
      used. */
  function Failure(f: Fault): (r: Response)
    ensures r == Response(500, Some(ErrorBody(Message(f))))
  {
    Response(500, Some(Obj(map["error" := Or(Str(Message(f)), Str("Internal server error"))])))
  }

  /** The whole handler, for the query string `query` (chargeId is read
      from it).  Its contract is the check order and the reply mapping. */
  function Handle(query: map<string, Value>, env: Env, reply: VendorReply): (r: Response)
    ensures !Truthy(Prop(Obj(query), "chargeId")) ==> r == Response(400, Some(ErrorBody("Missing chargeId")))
    ensures Truthy(Prop(Obj(query), "chargeId")) && !HasApiKey(env) ==>
      r == Response(500, Some(ErrorBody("Server configuration error")))
    ensures Truthy(Prop(Obj(query), "chargeId")) && HasApiKey(env) && !ReplyOk(reply) && !Nullish(reply.data) ==>
      r == Response(reply.status, Some(Obj(map["error" := Or(Prop(reply.data, "error"), Str("Failed to get charge status"))])))
    ensures Truthy(Prop(Obj(query), "chargeId")) && HasApiKey(env) && !ReplyOk(reply) && Nullish(reply.data) ==>
      r == Failure(ReadOfNullish(reply.data, "error"))
    ensures r.status == 200 ==>
      && Truthy(Prop(Obj(query), "chargeId")) && HasApiKey(env) && ReplyOk(reply)
      && LatestStatus(Prop(reply.data, "data")).Ok?
      && r.body == Some(Obj(map["statusName" := LatestStatus(Prop(reply.data, "data")).value]))
    ensures (Truthy(Prop(Obj(query), "chargeId")) && HasApiKey(env) && ReplyOk(reply) && !Nullish(reply.data)
             && LatestStatus(Prop(reply.data, "data")).Ok?) ==> r.status == 200
  {
    var chargeId := Prop(Obj(query), "chargeId");
    if !Truthy(chargeId) then Response(400, Some(ErrorBody("Missing chargeId")))
    else if !HasApiKey(env) then Response(500, Some(ErrorBody("Server configuration error")))
    else if !ReplyOk(reply) then
      match Get(reply.data, "error")
      case Throw(f) => Failure(f)
      case Ok(error) => Response(reply.status, Some(Obj(map["error" := Or(error, Str("Failed to get charge status"))])))
    else
      match Get(reply.data, "data")
      case Throw(f) => Failure(f)
      case Ok(charge) =>
        match LatestStatus(charge)
        case Throw(f) => Failure(f)
        case Ok(statusName) => Response(200, Some(Obj(map["statusName" := statusName])))
  }

  /** A vendor reply `{data: charge}` with status 200. */
  function Found(charge: map<string, Value>): VendorReply {
    VendorReply(200, Obj(map["data" := Obj(charge)]))
  }

  /** A timeline ending in COMPLETED reports COMPLETED. */
  lemma CompletedTimelineExample(env: Env)
    requires HasApiKey(env)
    ensures var charge := map["timeline" := Arr([Obj(map["status" := Str("NEW")]), Obj(map["status" := Str("COMPLETED")])])];
      Handle(map["chargeId" := Str("ABC")], env, Found(charge))
        == Response(200, Some(Obj(map["statusName" := Str("COMPLETED")])))
  {
  }

  /** An empty timeline falls back to the record's own status. */
  lemma EmptyTimelineExample(env: Env)
    requires HasApiKey(env)
    ensures var charge := map["timeline" := Arr([]), "status" := Str("PENDING")];
      Handle(map["chargeId" := Str("ABC")], env, Found(charge))
        == Response(200, Some(Obj(map["statusName" := Str("PENDING")])))
  {
  }
}
