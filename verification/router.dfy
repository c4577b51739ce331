/** One request to `process_load` (app/main.py): the optional carrier gate,
    then routing on the call-type tag against the two in-memory logs
    `new_calls_list` and `voicemail_retry`. The POST to the downstream
    workflow is a boolean `forwarded`; the registry's answer is an input. */
module LoadRouter {
  import opened Common
  import CarrierCheck

  /** The 17-field request body. Two events are the same event exactly when
      every field agrees (Dafny's datatype equality, as Python's dict `==`). */
  datatype CallEvent = CallEvent(
    origin: string,
    destination: string,
    pickupDatetime: string,
    deliveryDatetime: string,
    equipmentType: string,
    loadboardRate: string,
    notes: string,
    weight: string,
    commodityType: string,
    numOfPieces: string,
    miles: string,
    dimensions: string,
    carrierName: string,
    carrierPhone: string,
    carrierMcNumber: string,
    typeOfCall: string,
    validateCarrier: string)

  /** The two process-wide logs. */
  datatype DedupLog = DedupLog(newCalls: seq<CallEvent>, voicemailRetries: seq<CallEvent>)

  /** The logs at process start. */
  const Initial: DedupLog := DedupLog([], [])

  /** How many equal voicemail retries are let through. */
  const RetryLimit: nat := 3

  const NewCall: string := "new_call"
  const RescheduleCall: string := "reschedule_call"
  const VoicemailRetry: string := "voicemail_retry"

  /** The `status` field of the JSON reply. */
  datatype LoadStatus =
    | CarrierValidationFailed(reason: string)
    | DuplicateSkipped
    | RetryLimitReached
    | Forwarded

  /** The logs after the request, the reply, and whether the event was POSTed
      downstream. */
  datatype Step = Step(log: DedupLog, status: LoadStatus, forwarded: bool)

  /** Python's `list.count(x)`. */
  function Count(s: seq<CallEvent>, e: CallEvent): (n: nat)
    ensures n == 0 <==> e !in s
  {
    multiset(s)[e]
  }

  /** Each event is in the list at most once. */
  predicate NoDuplicates(s: seq<CallEvent>) {
    forall i, j :: 0 <= i < j < |s| ==> s[i] != s[j]
  }

  /** The invariant both logs keep in every reachable state. */
  predicate Valid(log: DedupLog)
    // the cap holds for every payload, not only for those already logged
    ensures Valid(log) ==> forall e :: Count(log.voicemailRetries, e) <= RetryLimit
  {
    && NoDuplicates(log.newCalls)
    && forall e | e in log.voicemailRetries :: Count(log.voicemailRetries, e) <= RetryLimit
  }

  /** The carrier gate lets the event through: either validation was not asked
      for, or the registry's answer authorizes the carrier. */
  predicate GatePasses(event: CallEvent, registry: CarrierCheck.RegistryResponse) {
    event.validateCarrier != "yes" || CarrierCheck.Authorizes(registry)
  }

  /** The branch on `type_of_call`, once the carrier gate has passed. */
  function Route(log: DedupLog, event: CallEvent): (s: Step)
    // a POST happens only with a "forwarded" reply; a non-forwarded reply
    // other than an unknown tag leaves both logs alone
    ensures s.forwarded ==> s.status == Forwarded
    ensures s.status != Forwarded ==> s.log == log
    ensures event.typeOfCall != NewCall ==> s.log.newCalls == log.newCalls
    ensures event.typeOfCall != VoicemailRetry ==> s.log.voicemailRetries == log.voicemailRetries
    // new_call: at most once
    ensures event.typeOfCall == NewCall && event in log.newCalls ==> s == Step(log, DuplicateSkipped, false)
    ensures event.typeOfCall == NewCall && event !in log.newCalls ==>
      s.log.newCalls == log.newCalls + [event] && s.status == Forwarded && s.forwarded
    // reschedule_call: always forwarded, never logged
    ensures event.typeOfCall == RescheduleCall ==> s == Step(log, Forwarded, true)
    // voicemail_retry: capped at RetryLimit equal entries
    ensures event.typeOfCall == VoicemailRetry && Count(log.voicemailRetries, event) == RetryLimit ==>
      s == Step(log, RetryLimitReached, false)
    ensures event.typeOfCall == VoicemailRetry && Count(log.voicemailRetries, event) != RetryLimit ==>
      s.log.voicemailRetries == log.voicemailRetries + [event] && s.status == Forwarded && s.forwarded
    // any other tag: reported as forwarded, but nothing is sent or logged
    ensures event.typeOfCall !in {NewCall, RescheduleCall, VoicemailRetry} ==> s == Step(log, Forwarded, false)
  {
    if event.typeOfCall == NewCall then
      if event in log.newCalls then Step(log, DuplicateSkipped, false)
      else Step(log.(newCalls := log.newCalls + [event]), Forwarded, true)
    else if event.typeOfCall == RescheduleCall then
      Step(log, Forwarded, true)
    else if event.typeOfCall == VoicemailRetry then
      if Count(log.voicemailRetries, event) == RetryLimit then Step(log, RetryLimitReached, false)
      else Step(log.(voicemailRetries := log.voicemailRetries + [event]), Forwarded, true)
    else
      Step(log, Forwarded, false)
  }

  /** `process_load`. An `Err` is an exception escaping the carrier check; it
      happens before any log is touched. */
  function ProcessLoad(log: DedupLog, event: CallEvent, registry: CarrierCheck.RegistryResponse)
    : (r: Result<Step, CarrierCheck.CheckError>)
    // the registry is consulted only when validation is asked for
    ensures event.validateCarrier != "yes" ==> r == Ok(Route(log, event))
    // a passing gate hands the event to the router
    ensures GatePasses(event, registry) ==> r == Ok(Route(log, event))
    // a failing gate replies with the check's reason and changes nothing
    ensures event.validateCarrier == "yes" && !CarrierCheck.Authorizes(registry) && r.Ok? ==>
      r.value.log == log && !r.value.forwarded && r.value.status.CarrierValidationFailed?
      && CarrierCheck.CheckMcActive(registry) == Ok(CarrierCheck.Verdict(true, Some(r.value.status.reason)))
    ensures r.Err? ==> event.validateCarrier == "yes" && CarrierCheck.CheckMcActive(registry) == Err(r.error)
  {
    if event.validateCarrier == "yes" then
      match CarrierCheck.CheckMcActive(registry)
      case Err(e) => Err(e)
      case Ok(verdict) =>
        if verdict.abort then Ok(Step(log, CarrierValidationFailed(verdict.reason.value), false))
        else Ok(Route(log, event))
    else
      Ok(Route(log, event))
  }

  /** Whatever the registry would have answered does not matter when
      validation is not asked for. */
  lemma RegistryIgnoredWithoutValidation(log: DedupLog, event: CallEvent,
                                         a: CarrierCheck.RegistryResponse, b: CarrierCheck.RegistryResponse)
    requires event.validateCarrier != "yes"
    ensures ProcessLoad(log, event, a) == ProcessLoad(log, event, b)
  {
  }

  /** A new_call that has been accepted once is skipped on every resubmission,
      and the skip is a fixed point. */
  lemma NewCallResubmissionSkipped(log: DedupLog, event: CallEvent, first: CarrierCheck.RegistryResponse,
                                   again: CarrierCheck.RegistryResponse)
    requires event.typeOfCall == NewCall && GatePasses(event, first) && GatePasses(event, again)
    requires ProcessLoad(log, event, first).Ok? && ProcessLoad(log, event, first).value.forwarded
    ensures var log1 := ProcessLoad(log, event, first).value.log;
      && ProcessLoad(log1, event, again) == Ok(Step(log1, DuplicateSkipped, false))
      && ProcessLoad(log1, event, again).value.log == log1
  {
    var log1 := ProcessLoad(log, event, first).value.log;
    assert log1.newCalls == log.newCalls + [event];
    assert log1.newCalls[|log.newCalls|] == event;
  }

  /** The `== RetryLimit` test in the router cannot be slipped past: in a valid
      state it is the same as `>= RetryLimit`. */
  lemma CapTestIsThreshold(log: DedupLog, event: CallEvent)
    requires Valid(log)
    ensures Count(log.voicemailRetries, event) == RetryLimit <==> Count(log.voicemailRetries, event) >= RetryLimit
  {
    if event !in log.voicemailRetries {
      assert Count(log.voicemailRetries, event) == 0;
    }
  }

  /** Every request keeps the invariant. */
  lemma ProcessLoadPreservesValid(log: DedupLog, event: CallEvent, registry: CarrierCheck.RegistryResponse)
    requires Valid(log)
    ensures ProcessLoad(log, event, registry).Ok? ==> Valid(ProcessLoad(log, event, registry).value.log)
  {
    var r := ProcessLoad(log, event, registry);
    if r.Ok? {
      var log1 := r.value.log;
      if event.typeOfCall == NewCall && log1 != log {
        assert log1.newCalls == log.newCalls + [event];
        assert event !in log.newCalls;
        forall i, j | 0 <= i < j < |log1.newCalls|
          ensures log1.newCalls[i] != log1.newCalls[j]
        {
          if j == |log.newCalls| {
            assert log1.newCalls[i] == log.newCalls[i];
          }
        }
      }
      if event.typeOfCall == VoicemailRetry && log1 != log {
        var before := log.voicemailRetries;
        assert log1.voicemailRetries == before + [event];
        assert multiset(before + [event]) == multiset(before) + multiset{event};
        CapTestIsThreshold(log, event);
        forall e | e in log1.voicemailRetries
          ensures Count(log1.voicemailRetries, e) <= RetryLimit
        {
          if e != event {
            assert Count(log1.voicemailRetries, e) == Count(before, e);
            assert e in before;
          }
        }
      }
    }
  }
}
