# Call relay: deduplicating router, carrier gate, bearer guard and call analytics

This project models the decision logic of a small HTTP relay that sits between
a voice-automation workflow and a downstream workflow:

- **process_load** (`LoadRouter`, `LoadRuns`): an inbound 17-field call event
  may first pass a carrier-authority gate (only when `validate_carrier` is the
  string `"yes"`). It is then routed on `type_of_call` against two
  process-wide, append-only logs. A `new_call` is forwarded at most once per
  distinct payload. A `reschedule_call` is always forwarded. A
  `voicemail_retry` is forwarded until three equal entries are logged. Any
  other tag is reported as `forwarded`, but nothing is sent or logged.
  Payloads are compared on all 17 fields.
- **check_mc_active** (`CarrierCheck`): the verdict derived from the carrier
  registry's answer. A non-200 status means "no carrier found". A non-object
  or empty object means "empty response". An `allowToOperate` other than
  `"Y"` means "inactive", with the registry's `status` in the reason.
- **verify_api_key** (`Security`): the `Authorization` header must start with
  the exact text `"Bearer "`, and the rest must equal the configured key.
- **process_call / compute_metrics** (`Analytics`): a reported call outcome is
  coerced (integer duration and miles; a rate that is absent, `""` or `"N/A"`
  is stored as missing) and appended to a table. Four metrics are computed
  from that table: connection rate, acceptance rate, and the average and
  total of the accepted rates.

Everything is an immutable value and a pure function. The process-wide state
is a `DedupLog` value that is passed in and returned. A sequence of requests
is folded by `LoadRuns.Run`, and the reachable-state invariants are proved
over it. The carrier registry's answer is an input to each request. The
downstream POST is a boolean `forwarded`. Python's `int()`/`float()` are
parameters (`Analytics.Parsers`). Metrics are exact `real`s. They are
computed in two stages: first the counts and rate sum of the table
(`Analytics.Aggregate`), then the divisions (`Analytics.MetricsOf`).

Files: `common.dfy` (Option/Result), `security.dfy`, `carrier.dfy`,
`router.dfy`, `runs.dfy`, `analytics.dfy`.

## Model

| member | source | states |
|---|---|---|
| Security.StartsWith | app/security.py:19 | `str.startswith`: a header that passes the test is the prefix followed by the rest of the header |
| Security.ReplaceFirst | app/security.py:22 | `str.replace(old, new, 1)`: with no occurrence the string is unchanged; otherwise exactly the first occurrence is replaced |
| Security.ReplaceFirstOfPrefix | app/security.py:19-22 | once the prefix test has passed, replacing the first `"Bearer "` by nothing is the same as cutting the prefix off |
| Security.Token | app/security.py:22 | the extracted token is exactly what follows the `"Bearer "` prefix: prefix + token rebuilds the header |
| Security.VerifyApiKey | app/security.py:17-24 | accepts exactly when the header is `"Bearer " + key`; a missing (case-sensitive) prefix is a 401 "Missing Bearer token" whatever the key; a present prefix with a different token is a 401 "Invalid API key"; every rejection is a 401 |
| CarrierCheck.Get | app/fmcsa_verification.py:51-52 | `dict.get`: a value exactly when the key is present, and then the stored value |
| CarrierCheck.PyStr | app/fmcsa_verification.py:52-54 | the f-string's rendering of `status`: a missing key and JSON null both print as `None`; a string prints as itself |
| CarrierCheck.Authorizes | app/fmcsa_verification.py:44-51 | the one shape of answer that lets a carrier through; it is never the empty object, so it never meets the "empty response" test |
| CarrierCheck.CheckMcActive | app/fmcsa_verification.py:44-56 | non-200 aborts with "no carrier found" whatever the body; a 200 with a non-object or empty object aborts with "empty response"; a 200 with a non-empty object not authorizing aborts with the status-derived reason; the carrier is allowed exactly when the answer is 200 with `allowToOperate == "Y"`; a reason is present exactly when the verdict aborts; only an unreachable registry or an undecodable 200 body raise |
| CarrierCheck.InactiveReason | app/fmcsa_verification.py:51-54 | the inactive reason always starts with "Carrier inactive — status=" |
| CarrierCheck.AbortReasonsDistinct | app/fmcsa_verification.py:44-54 | the three abort reasons are pairwise different, so the reason tells which test failed |
| LoadRouter.Count | app/main.py:99 | `list.count`: zero exactly when the payload is not in the log |
| LoadRouter.Valid | app/main.py:29-31 | the invariant of the two logs: no new call twice, and at most three equal voicemail entries; the cap then holds for every payload, logged or not |
| LoadRouter.Route | app/main.py:73-112 | new_call: a logged payload is skipped with no change and no POST, a fresh one is appended once and forwarded; reschedule_call: forwarded, logs untouched; voicemail_retry: at three equal entries refused with no change, otherwise appended and forwarded; unknown tag: "forwarded" with no POST and no change; a POST only accompanies "forwarded", and a non-forwarded reply never changes a log |
| LoadRouter.ProcessLoad | app/main.py:64-112 | without `validate_carrier == "yes"` the request goes straight to the router; a passing gate routes the event; a failing gate replies `carrier_validation_failed` with the check's own reason, with logs unchanged and nothing forwarded; an exception can only come from the carrier check |
| LoadRouter.RegistryIgnoredWithoutValidation | app/main.py:67-68 | when validation is not asked for, the reply and the logs do not depend on anything the registry would answer |
| LoadRouter.NewCallResubmissionSkipped | app/main.py:74-77 | after a new_call has been forwarded, resubmitting it is `duplicate_skipped` and leaves the logs as they were (a fixed point) |
| LoadRouter.CapTestIsThreshold | app/main.py:99-101 | in a valid state the `== 3` test is the same as `>= 3`, so the cap cannot be overshot |
| LoadRouter.ProcessLoadPreservesValid | app/main.py:74-110 | every request keeps the invariant: no payload twice in the new-call log, at most three equal entries in the voicemail log |
| LoadRuns.Run | app/main.py:29-31 | requests are served one after another against the same process-wide logs, with exactly one reply per request |
| LoadRuns.EarlierRepliesFixed | app/main.py:29-31 | a reply never depends on the requests that come after it: serving a prefix of the requests gives the same prefix of the replies |
| LoadRuns.RunKeepsValid | app/main.py:74-110 | any sequence of requests from a valid state ends in a valid state |
| LoadRuns.ReachableIsValid | app/main.py:74-110 | every state reachable from process start has no duplicate new call and at most three equal voicemail entries per payload |
| LoadRuns.RunOnlyAppends | app/main.py:77-102 | both logs only grow at the end: each earlier log is a prefix of every later one |
| LoadRuns.ForwardsAreLogged | app/main.py:74-110 | each forward of a new call or a voicemail retry adds exactly one equal entry to the matching log |
| LoadRuns.ForwardLimits | app/main.py:74-110 | over the process lifetime a new-call payload is POSTed at most once and a voicemail-retry payload at most three times |
| LoadRuns.VoicemailRepeats | app/main.py:98-110 | repeating one voicemail retry: forwarded while fewer than three equal entries are logged, then `retry_limit_reached` for good; the log count ends at min(start + sends, 3) |
| LoadRuns.VoicemailFromStart | app/main.py:97-110 | from process start the 1st to 3rd equal voicemail retries are forwarded and the 4th and later are refused |
| LoadRuns.NewCallRepeats | app/main.py:73-85 | repeating one new call: the first is forwarded and logged once, every later one is `duplicate_skipped` |
| LoadRuns.RescheduleRepeats | app/main.py:87-95 | repeating one reschedule any number of times: every reply is a forward and neither log changes |
| LoadRuns.RejectedCarriersChangeNothing | app/main.py:66-71 | requests whose carrier gate fails never change a log and are never forwarded |
| Analytics.Coerce | app/main.py:142-145 | the coercion succeeds exactly when duration and miles parse and the rate is missing or parses; the rate is missing exactly for None, `""` or `"N/A"`; the first failing field (duration, rate, miles) is the one reported; other fields are copied |
| Analytics.ProcessCall | app/main.py:142-147 | on success the table grows by exactly one row at the end, earlier rows untouched, and the new row is the coerced report; on a coercion error nothing is appended |
| Analytics.CountConnected | app/main.py:162 | `connected_df`: the non-voicemail rows, never more than the table has |
| Analytics.CountAccepted | app/main.py:162-166 | accepted rows never outnumber connected rows |
| Analytics.AcceptedRates | app/main.py:172 | `rate_series`: the non-missing rates of accepted connected rows, never more than the accepted count |
| Analytics.Sum | app/main.py:174 | `Series.sum()`: 0 for no values, and not negative when no value is |
| Analytics.Aggregate | app/main.py:162-172 | the counts behind the metrics are ordered: rows with a rate ≤ accepted ≤ connected ≤ all rows |
| Analytics.Ratio | app/main.py:163-170 | the guarded division is 0 for a zero denominator and lies in [0, 1] when the numerator is between 0 and the denominator |
| Analytics.MetricsOf | app/main.py:158-181 | all zeros for an empty table; acceptance rate 0 with no connected rows; both rates in [0, 1] when the counts are ordered; average and total 0 when no rate is averaged, otherwise the total is the rate sum |
| Analytics.ComputeMetrics | app/main.py:151-181 | all zeros for an empty table; connection rate = non-voicemail rows / all rows; acceptance rate = accepted rows / connected rows, and 0 when every row is a voicemail; average = sum / count of the non-missing rates of accepted rows, total = their sum, both 0 when there are none; both rates lie in [0, 1] for every table |
| Analytics.ConnectionRateIsShare | app/main.py:168-170 | for any aggregates with rows, the connection rate times the row count gives back the connected count |
| Analytics.AcceptanceRateIsShare | app/main.py:163-166 | for any aggregates with connected rows, the acceptance rate times the connected count gives back the accepted count |
| Analytics.TotalIsMeanTimesCount | app/main.py:172-174 | for any aggregates, the total equals the average times the number of averaged rates (both 0 when there are none) |
| Analytics.AppendRow | app/main.py:147-172 | appending one row adds one to the connected count exactly when it is not a voicemail, one to the accepted count exactly when it is an accept, and its rate to the averaged rates exactly when it is an accept with a rate |
| Analytics.MissingRateCountsButIsNotAveraged | app/main.py:144-172 | a report with rate None, `""` or `"N/A"` still counts toward connection and acceptance but leaves the averaged rates unchanged |
| Analytics.ExampleAggregates | app/main.py:162-172 | [accept at 1000, voicemail without rate, accept at 2000] has 3 rows, 2 connected, 2 accepted, 2 rates summing to 3000 |
| Analytics.ExampleTable | app/main.py:158-181 | on that table the metrics are acceptance 1, connection 2/3, average 1500, total 3000 |
| Analytics.AggregateOnePass | app/main.py:162-174 | a single pass with running counts and a running sum yields the same aggregates as the filter-based definition |
| Analytics.ComputeMetricsOnePass | app/main.py:151-181 | metrics from the one-pass aggregates equal the metrics of the table, and both rates lie in [0, 1] |

## Left out

- The downstream POST (app/main.py:80-85, 90-95, 105-110) is network I/O. It is the boolean `forwarded`. A failed POST is not modelled. In the source such a failure raises after the log has already been appended.
- The registry GET and its JSON decoding (app/fmcsa_verification.py:38-42, 47) are network I/O. The decoded answer is an input (`RegistryResponse`). JSON values other than strings and null are kept only as the text Python's `str()` gives for them (`JOther`).
- Configuration loading and the start-up `RuntimeError`s are left out. So are the FastAPI routing, `Depends` wiring and pydantic validation (a missing header or a mistyped body is rejected before the modelled code runs), and the Jinja dashboard.
- Analytics.Coerce: Python's `int()` and `float()` string parsing is a pair of caller-supplied partial functions. `float()` results that are not finite (`nan`, `inf`) have no `real` counterpart and are not modelled. In pandas a NaN rate would be dropped like a missing one.
- Analytics.ComputeMetrics: float rounding is not modelled. The metrics are exact rationals.
- The check-then-append race between interleaved requests is out of scope. Requests are served one at a time.

## Notes on the source

- A coercion failure in `process_call` is not caught: `int()` or `float()` raise and the request fails. `Analytics.Coerce` returns `Err` naming the first field that failed, and nothing is appended.
- The carrier verdict is modelled from app/fmcsa_verification.py:44-56 as written.
