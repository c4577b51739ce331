/** The call-outcome table behind `process_call` and `compute_metrics`
    (app/main.py). The pandas DataFrame is a sequence of records, and the
    metrics are exact rationals (`real`) instead of floats. */
module Analytics {
  import opened Common

  /** The request body of `process_call`: every field a string, `rate_usd`
      optional. */
  datatype RawCall = RawCall(
    carrierPhone: string,
    carrierName: string,
    callDurationSec: string,
    outcome: string,
    sentiment: string,
    rateUsd: Option<string>,
    origin: string,
    destination: string,
    miles: string)

  /** A row of the table after coercion; a missing rate is `None`. */
  datatype CallRecord = CallRecord(
    carrierPhone: string,
    carrierName: string,
    durationSec: int,
    outcome: string,
    sentiment: string,
    rateUsd: Option<real>,
    origin: string,
    destination: string,
    miles: int)

  /** Python's `int()` and `float()` on strings, as partial functions supplied
      by the caller: `None` where Python raises `ValueError`. */
  datatype Parsers = Parsers(parseInt: string -> Option<int>, parseFloat: string -> Option<real>)

  /** Which coercion raised; they run in the order duration, rate, miles. */
  datatype CoercionError = BadDuration | BadRate | BadMiles

  const Accept: string := "accept"
  const Voicemail: string := "voicemail"

  /** The raw rate values stored as missing. */
  predicate IsMissingRate(raw: Option<string>) {
    raw == None || raw == Some("") || raw == Some("N/A")
  }

  /** The field-by-field coercion of one raw report. */
  function Coerce(raw: RawCall, p: Parsers): (r: Result<CallRecord, CoercionError>)
    ensures r.Ok? <==>
      && p.parseInt(raw.callDurationSec).Some?
      && (IsMissingRate(raw.rateUsd) || p.parseFloat(raw.rateUsd.value).Some?)
      && p.parseInt(raw.miles).Some?
    ensures r.Ok? ==> (r.value.rateUsd.None? <==> IsMissingRate(raw.rateUsd))
    ensures r.Ok? ==>
      && r.value.durationSec == p.parseInt(raw.callDurationSec).value
      && r.value.miles == p.parseInt(raw.miles).value
      && (r.value.rateUsd.Some? ==> Some(r.value.rateUsd.value) == p.parseFloat(raw.rateUsd.value))
      && r.value.outcome == raw.outcome
      && r.value.carrierPhone == raw.carrierPhone && r.value.carrierName == raw.carrierName
      && r.value.sentiment == raw.sentiment
      && r.value.origin == raw.origin && r.value.destination == raw.destination
    // the first coercion that fails is the one reported
    ensures p.parseInt(raw.callDurationSec).None? ==> r == Err(BadDuration)
    ensures (p.parseInt(raw.callDurationSec).Some? && !IsMissingRate(raw.rateUsd)
             && p.parseFloat(raw.rateUsd.value).None?) ==> r == Err(BadRate)
    ensures (p.parseInt(raw.callDurationSec).Some?
             && (IsMissingRate(raw.rateUsd) || p.parseFloat(raw.rateUsd.value).Some?)
             && p.parseInt(raw.miles).None?) ==> r == Err(BadMiles)
  {
    match p.parseInt(raw.callDurationSec)
    case None => Err(BadDuration)
    case Some(duration) =>
      var rate: Result<Option<real>, CoercionError> :=
        if IsMissingRate(raw.rateUsd) then Ok(None)
        else match p.parseFloat(raw.rateUsd.value)
          case None => Err(BadRate)
          case Some(x) => Ok(Some(x));
      if rate.Err? then Err(rate.error)
      else
        match p.parseInt(raw.miles)
        case None => Err(BadMiles)
        case Some(miles) =>
          Ok(CallRecord(raw.carrierPhone, raw.carrierName, duration, raw.outcome, raw.sentiment,
                        rate.value, raw.origin, raw.destination, miles))
  }

  /** `process_call`: coerce, then append one row at the end. A coercion error
      escapes before the table is touched. */
  function ProcessCall(table: seq<CallRecord>, raw: RawCall, p: Parsers): (r: Result<seq<CallRecord>, CoercionError>)
    ensures r.Ok? <==> Coerce(raw, p).Ok?
    ensures r.Ok? ==> |r.value| == |table| + 1 && r.value[..|table|] == table
    ensures r.Ok? ==> r.value[|table|] == Coerce(raw, p).value
    ensures r.Ok? ==> (r.value[|table|].rateUsd.None? <==> IsMissingRate(raw.rateUsd))
  {
    match Coerce(raw, p)
    case Err(e) => Err(e)
    case Ok(row) =>
      assert (table + [row])[..|table|] == table;
      Ok(table + [row])
  }

  /** Rows whose outcome is not "voicemail" (`connected_df`). */
  function CountConnected(rows: seq<CallRecord>): (n: nat)
    ensures n <= |rows|
  {
    if |rows| == 0 then 0
    else CountConnected(rows[..|rows| - 1]) + (if rows[|rows| - 1].outcome != Voicemail then 1 else 0)
  }

  /** Connected rows whose outcome is "accept". */
  function CountAccepted(rows: seq<CallRecord>): (n: nat)
    ensures n <= CountConnected(rows)
  {
    if |rows| == 0 then 0
    else
      var last := rows[|rows| - 1];
      CountAccepted(rows[..|rows| - 1]) + (if last.outcome != Voicemail && last.outcome == Accept then 1 else 0)
  }

  /** The non-missing rates of the accepted connected rows, in table order. */
  function AcceptedRates(rows: seq<CallRecord>): (rates: seq<real>)
    ensures |rates| <= CountAccepted(rows)
  {
    if |rows| == 0 then []
    else
      var last := rows[|rows| - 1];
      AcceptedRates(rows[..|rows| - 1])
        + (if last.outcome != Voicemail && last.outcome == Accept && last.rateUsd.Some? then [last.rateUsd.value] else [])
  }

  /** `Series.sum()`: the total of the values, 0 for none. */
  function Sum(xs: seq<real>): (r: real)
    ensures |xs| == 0 ==> r == 0.0
    ensures (forall i :: 0 <= i < |xs| ==> 0.0 <= xs[i]) ==> 0.0 <= r
  {
    if |xs| == 0 then 0.0 else Sum(xs[..|xs| - 1]) + xs[|xs| - 1]
  }

  lemma SumAppend(xs: seq<real>, x: real)
    ensures Sum(xs + [x]) == Sum(xs) + x
  {
    assert (xs + [x])[..|xs|] == xs;
  }

  /** The counts and the sum `compute_metrics` divides: all rows, connected
      rows, accepted rows, and the number and sum of the rates averaged. */
  datatype Aggregates = Aggregates(rows: nat, connected: nat, accepted: nat, rated: nat, rateSum: real)

  /** The aggregates of a table, by the filters `compute_metrics` applies. */
  function Aggregate(rows: seq<CallRecord>): (a: Aggregates)
    ensures a.rows == |rows| && a.accepted <= a.connected <= a.rows && a.rated <= a.accepted
  {
    var rates := AcceptedRates(rows);
    Aggregates(|rows|, CountConnected(rows), CountAccepted(rows), |rates|, Sum(rates))
  }

  /** `part / whole if whole else 0`, the guarded division behind both
      rates. */
  function Ratio(part: real, whole: nat): (q: real)
    ensures whole == 0 ==> q == 0.0
    ensures 0.0 <= part <= whole as real ==> 0.0 <= q <= 1.0
  {
    if whole == 0 then 0.0 else part / whole as real
  }

  datatype Metrics = Metrics(acceptanceRate: real, connectionRate: real, avgRateUsd: real, totalRateUsd: real)

  /** The arithmetic of `compute_metrics` once the table is aggregated. */
  function MetricsOf(a: Aggregates): (m: Metrics)
    ensures a.rows == 0 ==> m == Metrics(0.0, 0.0, 0.0, 0.0)
    ensures a.connected <= a.rows ==> 0.0 <= m.connectionRate <= 1.0
    ensures a.accepted <= a.connected ==> 0.0 <= m.acceptanceRate <= 1.0
    ensures a.connected == 0 ==> m.acceptanceRate == 0.0
    ensures a.rated == 0 ==> m.avgRateUsd == 0.0 && m.totalRateUsd == 0.0
    ensures a.rows > 0 && a.rated > 0 ==> m.totalRateUsd == a.rateSum
  {
    if a.rows == 0 then Metrics(0.0, 0.0, 0.0, 0.0)
    else
      Metrics(Ratio(a.accepted as real, a.connected), Ratio(a.connected as real, a.rows),
              Ratio(a.rateSum, a.rated), if a.rated > 0 then a.rateSum else 0.0)
  }

  /** `compute_metrics`. */
  function ComputeMetrics(rows: seq<CallRecord>): (m: Metrics)
    ensures |rows| == 0 ==> m == Metrics(0.0, 0.0, 0.0, 0.0)
    ensures 0.0 <= m.acceptanceRate <= 1.0 && 0.0 <= m.connectionRate <= 1.0
    ensures CountConnected(rows) == 0 ==> m.acceptanceRate == 0.0
    ensures m.totalRateUsd == Sum(AcceptedRates(rows))
    ensures |AcceptedRates(rows)| == 0 ==> m.avgRateUsd == 0.0 && m.totalRateUsd == 0.0
    // the three formulas: shares of the table's rows and the mean of the rates
    ensures |rows| > 0 ==> m.connectionRate == CountConnected(rows) as real / |rows| as real
    ensures CountConnected(rows) > 0 ==>
      m.acceptanceRate == CountAccepted(rows) as real / CountConnected(rows) as real
    ensures |AcceptedRates(rows)| > 0 ==>
      m.avgRateUsd == Sum(AcceptedRates(rows)) / |AcceptedRates(rows)| as real
  {
    MetricsOf(Aggregate(rows))
  }

  /** The connection rate is the share of connected rows: times the row count
      it gives back the connected count. */
  lemma ConnectionRateIsShare(a: Aggregates)
    requires a.rows > 0
    ensures MetricsOf(a).connectionRate * a.rows as real == a.connected as real
  {
  }

  /** The acceptance rate is the share of accepted rows among connected ones. */
  lemma AcceptanceRateIsShare(a: Aggregates)
    requires a.rows > 0 && a.connected > 0
    ensures MetricsOf(a).acceptanceRate * a.connected as real == a.accepted as real
  {
  }

  /** The average times the number of averaged rates is the total. */
  lemma TotalIsMeanTimesCount(a: Aggregates)
    ensures MetricsOf(a).totalRateUsd == MetricsOf(a).avgRateUsd * a.rated as real
  {
  }

  /** How one appended row moves each aggregate. */
  lemma {:induction false} AppendRow(rows: seq<CallRecord>, row: CallRecord)
    ensures CountConnected(rows + [row]) == CountConnected(rows) + (if row.outcome != Voicemail then 1 else 0)
    ensures CountAccepted(rows + [row]) == CountAccepted(rows) + (if row.outcome == Accept then 1 else 0)
    ensures AcceptedRates(rows + [row])
      == AcceptedRates(rows) + (if row.outcome == Accept && row.rateUsd.Some? then [row.rateUsd.value] else [])
  {
    assert (rows + [row])[..|rows|] == rows;
  }

  /** A report whose rate is absent, empty or "N/A" still counts toward the
      connection and acceptance rates, but adds nothing to the rate average or
      total. */
  lemma MissingRateCountsButIsNotAveraged(table: seq<CallRecord>, raw: RawCall, p: Parsers)
    requires ProcessCall(table, raw, p).Ok?
    requires IsMissingRate(raw.rateUsd)
    ensures var t := ProcessCall(table, raw, p).value;
      && CountConnected(t) == CountConnected(table) + (if raw.outcome != Voicemail then 1 else 0)
      && CountAccepted(t) == CountAccepted(table) + (if raw.outcome == Accept then 1 else 0)
      && AcceptedRates(t) == AcceptedRates(table)
  {
    var t := ProcessCall(table, raw, p).value;
    assert t == table + [t[|table|]];
    AppendRow(table, t[|table|]);
  }

  lemma SumOfTwo(x: real, y: real)
    ensures Sum([x, y]) == x + y
  {
    assert [x][..0] == [];
    assert Sum([x]) == x;
    assert [x, y][..1] == [x];
  }

  /** The aggregates of a three-row table: two accepted loads at 1000 and
      2000 around one voicemail with no rate. */
  lemma ExampleAggregates(a: CallRecord, v: CallRecord, b: CallRecord)
    requires a.outcome == Accept && a.rateUsd == Some(1000.0)
    requires v.outcome == Voicemail && v.rateUsd == None
    requires b.outcome == Accept && b.rateUsd == Some(2000.0)
    ensures Aggregate([a, v, b]) == Aggregates(3, 2, 2, 2, 3000.0)
  {
    assert [a, v, b][..2] == [a, v];
    assert [a, v][..1] == [a];
    assert [a][..0] == [];
    assert CountConnected([a]) == 1 && CountAccepted([a]) == 1 && AcceptedRates([a]) == [1000.0];
    assert CountConnected([a, v]) == 1 && CountAccepted([a, v]) == 1 && AcceptedRates([a, v]) == [1000.0];
    assert CountConnected([a, v, b]) == 2 && CountAccepted([a, v, b]) == 2;
    assert AcceptedRates([a, v, b]) == [1000.0, 2000.0];
    SumOfTwo(1000.0, 2000.0);
  }

  /** On that table the metrics are 2/3 connected, all connected accepted,
      and an average of 1500 over a total of 3000. */
  lemma ExampleTable(a: CallRecord, v: CallRecord, b: CallRecord)
    requires a.outcome == Accept && a.rateUsd == Some(1000.0)
    requires v.outcome == Voicemail && v.rateUsd == None
    requires b.outcome == Accept && b.rateUsd == Some(2000.0)
    ensures ComputeMetrics([a, v, b]) == Metrics(1.0, 2.0 / 3.0, 1500.0, 3000.0)
  {
    ExampleAggregates(a, v, b);
    ExampleMetrics();
  }

  lemma ExampleMetrics()
    ensures MetricsOf(Aggregates(3, 2, 2, 2, 3000.0)) == Metrics(1.0, 2.0 / 3.0, 1500.0, 3000.0)
  {
  }

  /** The aggregates in a single pass over the table, keeping running counts
      and a running sum the way a streaming aggregate would. */
  method AggregateOnePass(rows: seq<CallRecord>) returns (a: Aggregates)
    ensures a == Aggregate(rows)
  {
    var connected, accepted, rated := 0, 0, 0;
    var total := 0.0;
    var i := 0;
    while i < |rows|
      invariant 0 <= i <= |rows|
      invariant connected == CountConnected(rows[..i])
      invariant accepted == CountAccepted(rows[..i])
      invariant rated == |AcceptedRates(rows[..i])|
      invariant total == Sum(AcceptedRates(rows[..i]))
    {
      var row := rows[i];
      assert rows[..i + 1] == rows[..i] + [row];
      AppendRow(rows[..i], row);
      if row.outcome != Voicemail {
        connected := connected + 1;
        if row.outcome == Accept {
          accepted := accepted + 1;
        }
      }
      if row.outcome == Accept && row.rateUsd.Some? {
        SumAppend(AcceptedRates(rows[..i]), row.rateUsd.value);
        total := total + row.rateUsd.value;
        rated := rated + 1;
      } else {
        assert AcceptedRates(rows[..i + 1]) == AcceptedRates(rows[..i]) + [];
        assert AcceptedRates(rows[..i]) + [] == AcceptedRates(rows[..i]);
      }
      i := i + 1;
    }
    assert rows[..i] == rows;
    a := Aggregates(|rows|, connected, accepted, rated, total);
  }

  /** The metrics from the one-pass aggregates are the metrics of the table. */
  method ComputeMetricsOnePass(rows: seq<CallRecord>) returns (m: Metrics)
    ensures m == ComputeMetrics(rows)
    ensures 0.0 <= m.acceptanceRate <= 1.0 && 0.0 <= m.connectionRate <= 1.0
  {
    var a := AggregateOnePass(rows);
    m := MetricsOf(a);
  }
}
