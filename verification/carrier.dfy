/** The verdict that `check_mc_active` (app/fmcsa_verification.py) derives
    from the carrier registry's answer for one MC number. The HTTP GET and the
    JSON decoding are not modelled: the registry's answer is an input. */
module CarrierCheck {
  import opened Common

  /** A decoded JSON value, as far as the verdict looks at it: a string, JSON
      `null` (Python `None`), or any other value together with the text that
      Python's `str()` gives for it. */
  datatype JsonValue = JString(s: string) | JNull | JOther(pyStr: string)

  /** What `r.json()` yields: a JSON object (a Python dict), any other JSON
      value, or a body that is not JSON at all (`r.json()` raises). */
  datatype Body = Object(fields: map<string, JsonValue>) | NotObject | Undecodable

  /** The registry's answer: a status code with its body, or no answer
      (the GET raised, for instance on the 10-second timeout). */
  datatype RegistryResponse = Response(statusCode: int, body: Body) | Unreachable

  /** The returned dict: `{"abort": ..., "reason": ...}`, where `reason` may be
      absent. */
  datatype Verdict = Verdict(abort: bool, reason: Option<string>)

  /** The exceptions `check_mc_active` lets escape. */
  datatype CheckError = RequestFailed | BodyNotJson

  const NoCarrierFound: string := "Invalid MC number — no carrier found"
  const EmptyResponse: string := "Invalid MC number — empty response"
  const InactivePrefix: string := "Carrier inactive — status="

  /** Python's `data.get(key)`. */
  function Get(fields: map<string, JsonValue>, key: string): (r: Option<JsonValue>)
    ensures r.Some? <==> key in fields
    ensures r.Some? ==> r.value == fields[key]
  {
    if key in fields then Some(fields[key]) else None
  }

  /** Python's `str()` of the looked-up value: a missing key and JSON `null`
      both print as `None`. */
  function PyStr(v: Option<JsonValue>): (t: string)
    ensures v.None? || v == Some(JNull) ==> t == "None"
    ensures v.Some? && v.value.JString? ==> t == v.value.s
  {
    match v
    case None => "None"
    case Some(JNull) => "None"
    case Some(JString(s)) => s
    case Some(JOther(t)) => t
  }

  function InactiveReason(status: Option<JsonValue>): (reason: string)
    ensures |InactivePrefix| <= |reason| && reason[..|InactivePrefix|] == InactivePrefix
  {
    InactivePrefix + PyStr(status)
  }

  /** The registry answered 200 with an object whose `allowToOperate` is the
      string "Y" — the one shape of answer that lets the carrier through. */
  predicate Authorizes(resp: RegistryResponse)
    // an authorizing answer is never the empty object
    ensures Authorizes(resp) ==> resp.Response? && resp.body.Object? && resp.body.fields != map[]
  {
    && resp.Response?
    && resp.statusCode == 200
    && resp.body.Object?
    && Get(resp.body.fields, "allowToOperate") == Some(JString("Y"))
  }

  function CheckMcActive(resp: RegistryResponse): (r: Result<Verdict, CheckError>)
    // only a failed request or an undecodable 200 body raise
    ensures r.Err? <==> resp.Unreachable? || (resp.statusCode == 200 && resp.body.Undecodable?)
    // the carrier is allowed exactly on an authorizing answer
    ensures r.Ok? ==> (!r.value.abort <==> Authorizes(resp))
    // a reason is present exactly when the verdict aborts
    ensures r.Ok? ==> (r.value.reason.Some? <==> r.value.abort)
    // any non-200 status is "no carrier found", whatever the body
    ensures resp.Response? && resp.statusCode != 200 ==> r == Ok(Verdict(true, Some(NoCarrierFound)))
    // a 200 with a non-object or an empty object is "empty response"
    ensures resp.Response? && resp.statusCode == 200 && (resp.body.NotObject? || resp.body == Object(map[])) ==>
      r == Ok(Verdict(true, Some(EmptyResponse)))
    // a 200 with a non-empty object that does not authorize reports its status
    ensures resp.Response? && resp.statusCode == 200 && resp.body.Object? && resp.body.fields != map[]
            && !Authorizes(resp) ==>
      r == Ok(Verdict(true, Some(InactiveReason(Get(resp.body.fields, "status")))))
  {
    match resp
    case Unreachable => Err(RequestFailed)
    case Response(code, body) =>
      if code != 200 then Ok(Verdict(true, Some(NoCarrierFound)))
      else
        match body
        case Undecodable => Err(BodyNotJson)
        case NotObject => Ok(Verdict(true, Some(EmptyResponse)))
        case Object(fields) =>
          if fields == map[] then Ok(Verdict(true, Some(EmptyResponse)))
          else if Get(fields, "allowToOperate") != Some(JString("Y")) then
            Ok(Verdict(true, Some(InactiveReason(Get(fields, "status")))))
          else Ok(Verdict(false, None))
  }

  /** The three abort reasons are pairwise distinct, so a caller can tell from
      the reason alone which test failed. */
  lemma AbortReasonsDistinct(status: Option<JsonValue>)
    ensures NoCarrierFound != EmptyResponse
    ensures InactiveReason(status) != NoCarrierFound
    ensures InactiveReason(status) != EmptyResponse
  {
    var r := InactiveReason(status);
    assert r[0] == 'C';
    assert NoCarrierFound[0] == 'I' && EmptyResponse[0] == 'I';
    assert NoCarrierFound[20] == 'n' && EmptyResponse[20] == 'e';
  }
}
