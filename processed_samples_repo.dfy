/**
 * The processed-samples repository (apps/backend/src/storage/processed-samples.repo.ts): the
 * parameter lists and PostgreSQL `$n` placeholders its queries are built from, and the mapping
 * between a database row and a sample. The database itself is not modelled: the rows a query
 * returns are parameters, and the uuid of a new sample is the `id` parameter.
 */
module ProcessedSamplesRepo {
  import opened Wrappers
  import opened Text
  import opened Domain

  /** A query parameter as handed to the pg driver. */
  datatype SqlValue = SqlText(text: string) | SqlInt(integer: int) | SqlReal(number: real)

  /**
   * A row of processed_breath_samples as the driver returns it. The timestamp column arrives as
   * a decimal string; the numeric columns are taken as the values parseFloat gives back.
   * The signal_quality column holds the breath depth.
   */
  datatype ProcessedSampleRow = ProcessedSampleRow(
    id: string,
    deviceIdColumn: string,
    timestampText: string,
    breathingRateColumn: real,
    breathLengthMsColumn: int,
    variabilityColumn: real,
    signalQualityColumn: real,
    apneaRiskColumn: ApneaRiskLevel)

  /** parseInt(s, 10) on the decimal strings the driver produces. */
  function ParseInt(s: string): int {
    Atoi(s)
  }

  /** rowToSample: each column to its field; signal_quality becomes breathDepth. */
  function RowToSample(row: ProcessedSampleRow): (s: ProcessedBreathingSample)
    ensures s.id == row.id && s.deviceId == row.deviceIdColumn
    ensures s.breathDepth == row.signalQualityColumn
    ensures forall t :: row.timestampText == IntToString(t) ==> s.timestamp == t
  {
    forall t | row.timestampText == IntToString(t) { AtoiOfIntToString(t); }
    ProcessedBreathingSample(row.id, row.deviceIdColumn, ParseInt(row.timestampText), row.breathingRateColumn,
                             row.breathLengthMsColumn, row.variabilityColumn, row.signalQualityColumn, row.apneaRiskColumn)
  }

  /** The parameters of the INSERT, in its column order: id, device_id, timestamp, breathing_rate, breath_length_ms, variability, signal_quality, apnea_risk. */
  function InsertParams(id: string, sample: ProcessedBreathingSample): (params: seq<SqlValue>)
    ensures |params| == 8
    ensures params[6] == SqlReal(sample.breathDepth)
  {
    [SqlText(id), SqlText(sample.deviceId), SqlInt(sample.timestamp), SqlReal(sample.breathingRate),
     SqlInt(sample.breathLengthMs), SqlReal(sample.variability), SqlReal(sample.breathDepth), SqlText(sample.apneaRisk.Name())]
  }

  function ParseRisk(text: string): Option<ApneaRiskLevel> {
    if text == "LOW" then Some(Low)
    else if text == "MEDIUM" then Some(Medium)
    else if text == "HIGH" then Some(High)
    else None
  }

  /**
   * The row the database holds after an INSERT with these positional parameters, read back
   * through the INSERT's column list (integers come back as decimal text in the timestamp column).
   */
  function StoredRow(params: seq<SqlValue>): Option<ProcessedSampleRow> {
    if |params| != 8 then None
    else if !(params[0].SqlText? && params[1].SqlText? && params[2].SqlInt? && params[3].SqlReal?
              && params[4].SqlInt? && params[5].SqlReal? && params[6].SqlReal? && params[7].SqlText?) then None
    else match ParseRisk(params[7].text)
      case None => None
      case Some(risk) =>
        Some(ProcessedSampleRow(params[0].text, params[1].text, IntToString(params[2].integer), params[3].number,
                                params[4].integer, params[5].number, params[6].number, risk))
  }

  /** insert: the sample is returned with the generated id, and the parameters. */
  function Insert(id: string, sample: ProcessedBreathingSample): (r: (ProcessedBreathingSample, seq<SqlValue>))
    ensures r.0 == sample.(id := id)
    ensures r.1 == InsertParams(id, sample)
  {
    (sample.(id := id), InsertParams(id, sample))
  }

  /** What insert writes, read back by rowToSample, is what insert returned: breath depth goes out and comes back through signal_quality. */
  lemma InsertRoundTrip(id: string, sample: ProcessedBreathingSample)
    ensures StoredRow(Insert(id, sample).1).Some?
    ensures RowToSample(StoredRow(Insert(id, sample).1).value) == Insert(id, sample).0
  {
    var params := InsertParams(id, sample);
    assert params[7] == SqlText(sample.apneaRisk.Name());
    assert ParseRisk(sample.apneaRisk.Name()) == Some(sample.apneaRisk) by {
      match sample.apneaRisk
      case Low =>
      case Medium =>
      case High =>
    }
    var row := ProcessedSampleRow(id, sample.deviceId, IntToString(sample.timestamp), sample.breathingRate,
                                  sample.breathLengthMs, sample.variability, sample.breathDepth, sample.apneaRisk);
    assert StoredRow(params) == Some(row);
    AtoiOfIntToString(sample.timestamp);
    assert RowToSample(row) == sample.(id := id);
  }

  /** The filters of getHistory and getCount, with their JavaScript-truthy inputs: undefined, "" and 0 add no condition. */
  datatype Filters = Filters(deviceId: Option<string>, from: Option<int>, to: Option<int>)

  predicate TruthyText(s: Option<string>) { s.Some? && s.value != "" }
  predicate TruthyNumber(n: Option<int>) { n.Some? && n.value != 0 }

  /** One condition: the column test written before its placeholder, and the value bound to it. */
  datatype Condition = Condition(test: string, value: SqlValue)

  /** The active conditions, always in the order deviceId, from, to. */
  function ActiveConditions(f: Filters): (cs: seq<Condition>)
    ensures |cs| == (if TruthyText(f.deviceId) then 1 else 0) + (if TruthyNumber(f.from) then 1 else 0) + (if TruthyNumber(f.to) then 1 else 0)
  {
    (if TruthyText(f.deviceId) then [Condition("device_id = ", SqlText(f.deviceId.value))] else [])
    + (if TruthyNumber(f.from) then [Condition("timestamp >= ", SqlInt(f.from.value))] else [])
    + (if TruthyNumber(f.to) then [Condition("timestamp <= ", SqlInt(f.to.value))] else [])
  }

  /** The placeholder for the k-th parameter (1-based). */
  function Placeholder(k: nat): string {
    "$" + NatToString(k)
  }

  /** The condition texts: each test followed by its placeholder, numbered from $1 in order. */
  function NumberedConditions(cs: seq<Condition>): (texts: seq<string>)
    ensures |texts| == |cs|
    ensures forall k :: 0 <= k < |cs| ==> texts[k] == cs[k].test + Placeholder(k + 1)
  {
    seq(|cs|, k requires 0 <= k < |cs| => cs[k].test + Placeholder(k + 1))
  }

  /** The WHERE clause: empty without conditions, else "WHERE " and the conditions joined by " AND ". */
  function WhereClause(conditions: seq<string>): (w: string)
    ensures w == "" <==> conditions == []
    ensures conditions != [] ==> "WHERE " <= w
  {
    if |conditions| > 0 then "WHERE " + Join(conditions, " AND ") else ""
  }

  /**
   * The push sequence shared by getHistory and getCount: each active filter in turn pushes its
   * condition with placeholder $paramIndex and its value, then bumps paramIndex.
   */
  method BuildConditions(f: Filters) returns (conditions: seq<string>, params: seq<SqlValue>, paramIndex: nat)
    ensures |conditions| == |params| == |ActiveConditions(f)|
    ensures paramIndex == |params| + 1
    ensures conditions == NumberedConditions(ActiveConditions(f))
    ensures forall k :: 0 <= k < |params| ==> params[k] == ActiveConditions(f)[k].value
  {
    conditions, params, paramIndex := [], [], 1;
    ghost var expected := ActiveConditions(f);
    if TruthyText(f.deviceId) {
      conditions := conditions + ["device_id = " + Placeholder(paramIndex)];
      paramIndex := paramIndex + 1;
      params := params + [SqlText(f.deviceId.value)];
    }
    if TruthyNumber(f.from) {
      conditions := conditions + ["timestamp >= " + Placeholder(paramIndex)];
      paramIndex := paramIndex + 1;
      params := params + [SqlInt(f.from.value)];
    }
    if TruthyNumber(f.to) {
      conditions := conditions + ["timestamp <= " + Placeholder(paramIndex)];
      paramIndex := paramIndex + 1;
      params := params + [SqlInt(f.to.value)];
    }
  }

  /** The limit used: options.limit || 100. */
  function EffectiveLimit(limit: Option<int>): (n: int)
    ensures TruthyNumber(limit) ==> n == limit.value
    ensures !TruthyNumber(limit) ==> n == 100
  {
    if TruthyNumber(limit) then limit.value else 100
  }

  /** A SELECT the repository issues: its WHERE clause, the placeholder of its LIMIT (if any) and its parameters. */
  datatype SelectQuery = SelectQuery(whereClause: string, limitPlaceholder: Option<string>, params: seq<SqlValue>)

  /** getHistory: the conditions, then the limit pushed last and referenced as $params.length; the rows come back through rowToSample. */
  method GetHistory(f: Filters, limit: Option<int>, rows: seq<ProcessedSampleRow>) returns (query: SelectQuery, samples: seq<ProcessedBreathingSample>)
    ensures |query.params| == |ActiveConditions(f)| + 1
    ensures query.params[|query.params| - 1] == SqlInt(EffectiveLimit(limit))
    ensures query.limitPlaceholder == Some(Placeholder(|query.params|))
    ensures forall k :: 0 <= k < |ActiveConditions(f)| ==> query.params[k] == ActiveConditions(f)[k].value
    ensures query.whereClause == WhereClause(NumberedConditions(ActiveConditions(f)))
    ensures (query.whereClause == "") <==> ActiveConditions(f) == []
    ensures |samples| == |rows| && forall k :: 0 <= k < |rows| ==> samples[k] == RowToSample(rows[k])
  {
    var conditions, params, paramIndex := BuildConditions(f);
    var whereClause := WhereClause(conditions);
    params := params + [SqlInt(EffectiveLimit(limit))];
    query := SelectQuery(whereClause, Some(Placeholder(paramIndex)), params);
    samples := RowsToSamples(rows);
  }

  /** rows.map(rowToSample). */
  method RowsToSamples(rows: seq<ProcessedSampleRow>) returns (samples: seq<ProcessedBreathingSample>)
    ensures |samples| == |rows| && forall k :: 0 <= k < |rows| ==> samples[k] == RowToSample(rows[k])
  {
    samples := [];
    var i := 0;
    while i < |rows|
      invariant 0 <= i <= |rows|
      invariant |samples| == i && forall k :: 0 <= k < i ==> samples[k] == RowToSample(rows[k])
    {
      samples := samples + [RowToSample(rows[i])];
      i := i + 1;
    }
  }

  /** The count getCount reports: parseInt(row?.count || '0'). */
  function CountOf(countText: Option<string>): (n: int)
    ensures countText.None? ==> n == 0
    ensures countText == Some("") ==> n == 0
  {
    if countText.None? || countText.value == "" then AtoiOfZero(); ParseInt("0") else ParseInt(countText.value)
  }

  /** A count the database renders is read back unchanged. */
  lemma CountOfRendered(n: nat)
    ensures CountOf(Some(NatToString(n))) == n
  {
    AtoiOfNatToString(n);
  }

  /** getCount: the same conditions and parameters as getHistory, with no limit. */
  method GetCount(f: Filters, countText: Option<string>) returns (query: SelectQuery, count: int)
    ensures |query.params| == |ActiveConditions(f)|
    ensures forall k :: 0 <= k < |query.params| ==> query.params[k] == ActiveConditions(f)[k].value
    ensures query.limitPlaceholder.None?
    ensures query.whereClause == WhereClause(NumberedConditions(ActiveConditions(f)))
    ensures (query.whereClause == "") <==> ActiveConditions(f) == []
    ensures count == CountOf(countText)
  {
    var conditions, params, paramIndex := BuildConditions(f);
    query := SelectQuery(WhereClause(conditions), None, params);
    count := CountOf(countText);
  }

  /** getLatest: filter on device_id = $1 with one parameter iff a (non-empty) device id is given. */
  function GetLatest(deviceId: Option<string>, row: Option<ProcessedSampleRow>): (r: (SelectQuery, Option<ProcessedBreathingSample>))
    ensures TruthyText(deviceId) ==> r.0.whereClause == "WHERE device_id = " + Placeholder(1) && r.0.params == [SqlText(deviceId.value)]
    ensures !TruthyText(deviceId) ==> r.0.whereClause == "" && r.0.params == []
    ensures r.1.Some? <==> row.Some?
    ensures row.Some? ==> r.1.value == RowToSample(row.value)
  {
    var whereClause := if TruthyText(deviceId) then "WHERE device_id = $1" else "";
    var params := if TruthyText(deviceId) then [SqlText(deviceId.value)] else [];
    (SelectQuery(whereClause, None, params), if row.Some? then Some(RowToSample(row.value)) else None)
  }

}
