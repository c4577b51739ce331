/** Sequences of `process_load` requests served one after another against the
    same process-wide logs, and what holds of every reachable state. */
module LoadRuns {
  import opened Common
  import CarrierCheck
  import opened LoadRouter

  /** One inbound request: the event and what the registry would answer for
      its MC number. */
  datatype Request = Request(event: CallEvent, registry: CarrierCheck.RegistryResponse)

  /** What the client sees: a JSON reply (and whether a POST went out), or a
      failed request. */
  datatype Reply = Replied(status: LoadStatus, forwarded: bool) | Failed(error: CarrierCheck.CheckError)

  datatype Trace = Trace(log: DedupLog, replies: seq<Reply>)

  function ReplyOf(r: Result<Step, CarrierCheck.CheckError>): Reply {
    match r
    case Ok(s) => Replied(s.status, s.forwarded)
    case Err(e) => Failed(e)
  }

  /** The logs after a request; a failed request touched nothing. */
  function LogAfter(log: DedupLog, r: Result<Step, CarrierCheck.CheckError>): DedupLog {
    if r.Ok? then r.value.log else log
  }

  /** Serve `reqs` in order, starting from `log`. */
  function Run(log: DedupLog, reqs: seq<Request>): (t: Trace)
    ensures |t.replies| == |reqs|
    decreases |reqs|
  {
    if |reqs| == 0 then Trace(log, [])
    else
      var prev := Run(log, reqs[..|reqs| - 1]);
      var last := reqs[|reqs| - 1];
      var res := ProcessLoad(prev.log, last.event, last.registry);
      Trace(LogAfter(prev.log, res), prev.replies + [ReplyOf(res)])
  }

  /** A request's reply, and the logs after it, do not depend on the requests
      that come after it: serving a prefix gives a prefix of the replies. */
  lemma {:induction false} EarlierRepliesFixed(log: DedupLog, reqs: seq<Request>, j: nat)
    requires j <= |reqs|
    ensures Run(log, reqs).replies[..j] == Run(log, reqs[..j]).replies
    decreases |reqs|
  {
    if j < |reqs| {
      var k := |reqs| - 1;
      assert reqs[..k][..j] == reqs[..j];
      EarlierRepliesFixed(log, reqs[..k], j);
      assert Run(log, reqs).replies[..k] == Run(log, reqs[..k]).replies;
    } else {
      assert reqs[..j] == reqs;
    }
  }

  /** The logs reachable from process start. */
  ghost predicate Reachable(log: DedupLog) {
    exists reqs :: Run(Initial, reqs).log == log
  }

  lemma {:induction false} RunKeepsValid(log: DedupLog, reqs: seq<Request>)
    requires Valid(log)
    ensures Valid(Run(log, reqs).log)
    decreases |reqs|
  {
    if |reqs| > 0 {
      var prev := Run(log, reqs[..|reqs| - 1]);
      RunKeepsValid(log, reqs[..|reqs| - 1]);
      var last := reqs[|reqs| - 1];
      ProcessLoadPreservesValid(prev.log, last.event, last.registry);
    }
  }

  /** Every reachable state is valid: no new call is logged twice and no
      voicemail retry is logged more than three times. */
  lemma ReachableIsValid(log: DedupLog)
    requires Reachable(log)
    ensures Valid(log)
    ensures NoDuplicates(log.newCalls)
    ensures forall e :: Count(log.voicemailRetries, e) <= RetryLimit
  {
    var reqs :| Run(Initial, reqs).log == log;
    RunKeepsValid(Initial, reqs);
    forall e ensures Count(log.voicemailRetries, e) <= RetryLimit {
      if e !in log.voicemailRetries {
        assert Count(log.voicemailRetries, e) == 0;
      }
    }
  }

  /** Both logs are append-only: each is a prefix of its later self. */
  lemma {:induction false} RunOnlyAppends(log: DedupLog, reqs: seq<Request>)
    ensures log.newCalls <= Run(log, reqs).log.newCalls
    ensures log.voicemailRetries <= Run(log, reqs).log.voicemailRetries
    decreases |reqs|
  {
    if |reqs| > 0 {
      RunOnlyAppends(log, reqs[..|reqs| - 1]);
    }
  }

  /** How many requests carrying `e` were answered with a POST downstream. */
  function ForwardCount(reqs: seq<Request>, replies: seq<Reply>, e: CallEvent): (n: nat)
    requires |replies| == |reqs|
    ensures n <= |reqs|
    decreases |reqs|
  {
    if |reqs| == 0 then 0
    else
      var k := |reqs| - 1;
      ForwardCount(reqs[..k], replies[..k], e)
        + (if reqs[k].event == e && replies[k] == Replied(Forwarded, true) then 1 else 0)
  }

  /** One request: a forward of `e` adds one `e` to the log its tag selects,
      and nothing else adds an `e` there. */
  lemma StepForwardIsLogged(log: DedupLog, req: Request, e: CallEvent)
    ensures var res := ProcessLoad(log, req.event, req.registry);
      var added := if req.event == e && ReplyOf(res) == Replied(Forwarded, true) then 1 else 0;
      && (e.typeOfCall == NewCall ==> Count(LogAfter(log, res).newCalls, e) == Count(log.newCalls, e) + added)
      && (e.typeOfCall == VoicemailRetry ==>
            Count(LogAfter(log, res).voicemailRetries, e) == Count(log.voicemailRetries, e) + added)
  {
    assert multiset(log.newCalls + [req.event]) == multiset(log.newCalls) + multiset{req.event};
    assert multiset(log.voicemailRetries + [req.event]) == multiset(log.voicemailRetries) + multiset{req.event};
  }

  /** Each forward of a new call or a voicemail retry leaves exactly one new
      entry in the matching log. */
  lemma {:induction false} ForwardsAreLogged(log: DedupLog, reqs: seq<Request>, e: CallEvent)
    ensures e.typeOfCall == NewCall ==>
      Count(Run(log, reqs).log.newCalls, e) == Count(log.newCalls, e) + ForwardCount(reqs, Run(log, reqs).replies, e)
    ensures e.typeOfCall == VoicemailRetry ==>
      Count(Run(log, reqs).log.voicemailRetries, e)
        == Count(log.voicemailRetries, e) + ForwardCount(reqs, Run(log, reqs).replies, e)
    decreases |reqs|
  {
    if |reqs| > 0 {
      var k := |reqs| - 1;
      var prev := Run(log, reqs[..k]);
      ForwardsAreLogged(log, reqs[..k], e);
      StepForwardIsLogged(prev.log, reqs[k], e);
      var t := Run(log, reqs);
      assert t.replies[..k] == prev.replies;
    }
  }

  lemma {:induction false} NoDuplicatesCount(s: seq<CallEvent>, e: CallEvent)
    requires NoDuplicates(s)
    ensures Count(s, e) <= 1
    decreases |s|
  {
    if |s| > 0 {
      var k := |s| - 1;
      assert s == s[..k] + [s[k]];
      assert multiset(s) == multiset(s[..k]) + multiset{s[k]};
      NoDuplicatesCount(s[..k], e);
      if s[k] == e {
        assert e !in s[..k];
      }
    }
  }

  /** Over the lifetime of the process, each new-call payload is POSTed at
      most once and each voicemail-retry payload at most three times. */
  lemma ForwardLimits(reqs: seq<Request>, e: CallEvent)
    ensures e.typeOfCall == NewCall ==> ForwardCount(reqs, Run(Initial, reqs).replies, e) <= 1
    ensures e.typeOfCall == VoicemailRetry ==> ForwardCount(reqs, Run(Initial, reqs).replies, e) <= RetryLimit
  {
    var t := Run(Initial, reqs);
    ForwardsAreLogged(Initial, reqs, e);
    RunKeepsValid(Initial, reqs);
    NoDuplicatesCount(t.log.newCalls, e);
    if e !in t.log.voicemailRetries {
      assert Count(t.log.voicemailRetries, e) == 0;
    }
  }

  /** One voicemail retry whose gate passes: forwarded and logged below the
      cap, refused at it. */
  lemma VoicemailStep(log: DedupLog, req: Request, e: CallEvent)
    requires e.typeOfCall == VoicemailRetry && req.event == e && GatePasses(e, req.registry)
    requires Count(log.voicemailRetries, e) <= RetryLimit
    ensures var c := Count(log.voicemailRetries, e);
      var res := ProcessLoad(log, e, req.registry);
      && ReplyOf(res) == (if c < RetryLimit then Replied(Forwarded, true) else Replied(RetryLimitReached, false))
      && Count(LogAfter(log, res).voicemailRetries, e) == (if c < RetryLimit then c + 1 else RetryLimit)
      && LogAfter(log, res).newCalls == log.newCalls
  {
    assert multiset(log.voicemailRetries + [e]) == multiset(log.voicemailRetries) + multiset{e};
  }

  /** The same voicemail retry sent again and again, with the carrier gate
      passing each time: while fewer than three equal entries are logged the
      retry is forwarded and logged; from then on it is refused, for good. */
  lemma {:induction false} VoicemailRepeats(log: DedupLog, reqs: seq<Request>, e: CallEvent)
    requires e.typeOfCall == VoicemailRetry
    requires Count(log.voicemailRetries, e) <= RetryLimit
    requires forall k :: 0 <= k < |reqs| ==> reqs[k].event == e && GatePasses(e, reqs[k].registry)
    ensures var c := Count(log.voicemailRetries, e);
      forall k :: 0 <= k < |reqs| ==>
        Run(log, reqs).replies[k]
          == if c + k < RetryLimit then Replied(Forwarded, true) else Replied(RetryLimitReached, false)
    ensures var c := Count(log.voicemailRetries, e);
      Count(Run(log, reqs).log.voicemailRetries, e) == if c + |reqs| < RetryLimit then c + |reqs| else RetryLimit
    ensures Run(log, reqs).log.newCalls == log.newCalls
    decreases |reqs|
  {
    if |reqs| > 0 {
      var k := |reqs| - 1;
      var c := Count(log.voicemailRetries, e);
      VoicemailRepeats(log, reqs[..k], e);
      var prev := Run(log, reqs[..k]);
      VoicemailStep(prev.log, reqs[k], e);
      var res := ProcessLoad(prev.log, e, reqs[k].registry);
      var t := Run(log, reqs);
      assert t == Trace(LogAfter(prev.log, res), prev.replies + [ReplyOf(res)]);
      forall j | 0 <= j < k
        ensures t.replies[j] == if c + j < RetryLimit then Replied(Forwarded, true) else Replied(RetryLimitReached, false)
      {
        assert t.replies[j] == prev.replies[j];
      }
    }
  }

  /** From process start, the 1st to 3rd equal voicemail retries are
      forwarded and the 4th and every later one are refused. */
  lemma VoicemailFromStart(reqs: seq<Request>, e: CallEvent)
    requires e.typeOfCall == VoicemailRetry
    requires forall k :: 0 <= k < |reqs| ==> reqs[k].event == e && GatePasses(e, reqs[k].registry)
    ensures forall k :: 0 <= k < |reqs| ==>
      Run(Initial, reqs).replies[k] == if k < 3 then Replied(Forwarded, true) else Replied(RetryLimitReached, false)
  {
    assert Count(Initial.voicemailRetries, e) == 0;
    VoicemailRepeats(Initial, reqs, e);
  }

  /** The same new call sent again and again, with the carrier gate passing
      each time: the first send is forwarded and logged once, every later one
      is skipped. */
  lemma {:induction false} NewCallRepeats(log: DedupLog, reqs: seq<Request>, e: CallEvent)
    requires e.typeOfCall == NewCall && e !in log.newCalls
    requires forall k :: 0 <= k < |reqs| ==> reqs[k].event == e && GatePasses(e, reqs[k].registry)
    ensures forall k :: 0 <= k < |reqs| ==>
      Run(log, reqs).replies[k] == if k == 0 then Replied(Forwarded, true) else Replied(DuplicateSkipped, false)
    ensures Run(log, reqs).log.newCalls == if |reqs| == 0 then log.newCalls else log.newCalls + [e]
    ensures Run(log, reqs).log.voicemailRetries == log.voicemailRetries
    decreases |reqs|
  {
    if |reqs| > 0 {
      var k := |reqs| - 1;
      NewCallRepeats(log, reqs[..k], e);
      var prev := Run(log, reqs[..k]);
      var res := ProcessLoad(prev.log, e, reqs[k].registry);
      assert res == Ok(Route(prev.log, e));
      if k > 0 {
        assert prev.log.newCalls[|log.newCalls|] == e;
      }
      var t := Run(log, reqs);
      assert t.replies[..k] == prev.replies;
      forall j | 0 <= j < k
        ensures t.replies[j] == if j == 0 then Replied(Forwarded, true) else Replied(DuplicateSkipped, false)
      {
        assert t.replies[j] == prev.replies[j];
      }
    }
  }

  /** Reschedules are never deduplicated: however often the same one is sent,
      with the carrier gate passing, each is forwarded and no log changes. */
  lemma {:induction false} RescheduleRepeats(log: DedupLog, reqs: seq<Request>, e: CallEvent)
    requires e.typeOfCall == RescheduleCall
    requires forall k :: 0 <= k < |reqs| ==> reqs[k].event == e && GatePasses(e, reqs[k].registry)
    ensures forall k :: 0 <= k < |reqs| ==> Run(log, reqs).replies[k] == Replied(Forwarded, true)
    ensures Run(log, reqs).log == log
    decreases |reqs|
  {
    if |reqs| > 0 {
      var k := |reqs| - 1;
      RescheduleRepeats(log, reqs[..k], e);
      var prev := Run(log, reqs[..k]);
      assert ProcessLoad(prev.log, e, reqs[k].registry) == Ok(Route(prev.log, e));
      var t := Run(log, reqs);
      assert t.replies[..k] == prev.replies;
      forall j | 0 <= j < k ensures t.replies[j] == Replied(Forwarded, true) {
        assert t.replies[j] == prev.replies[j];
      }
    }
  }

  /** Requests whose carrier gate fails never reach the logs and are never
      forwarded. */
  lemma {:induction false} RejectedCarriersChangeNothing(log: DedupLog, reqs: seq<Request>)
    requires forall k :: 0 <= k < |reqs| ==> !GatePasses(reqs[k].event, reqs[k].registry)
    ensures Run(log, reqs).log == log
    ensures forall k :: 0 <= k < |reqs| ==>
      Run(log, reqs).replies[k].Failed? || Run(log, reqs).replies[k].status.CarrierValidationFailed?
    ensures forall k :: 0 <= k < |reqs| ==> Run(log, reqs).replies[k] != Replied(Forwarded, true)
    decreases |reqs|
  {
    if |reqs| > 0 {
      var k := |reqs| - 1;
      RejectedCarriersChangeNothing(log, reqs[..k]);
      var t := Run(log, reqs);
      var prev := Run(log, reqs[..k]);
      assert t.replies[..k] == prev.replies;
      forall j | 0 <= j < k
        ensures t.replies[j].Failed? || t.replies[j].status.CarrierValidationFailed?
      {
        assert t.replies[j] == prev.replies[j];
      }
    }
  }
}
