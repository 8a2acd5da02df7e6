/**
 * The reading normaliser: the sensor's decoded payload is turned into an
 * `EnvironmentalInfo` by taking, for each metric, the first alias present in
 * the payload (a chain of `??`) and converting it with `Convert.ToDouble`.
 */
module Normalizer {
  import opened Wrappers
  import opened JsonValues
  import opened Twins

  /** The twin property holding the decoded device payload. */
  const DECODED_PAYLOAD := "decodedPayload"

  /** The aliases of each metric, in priority order. */
  function Aliases(m: Metric): seq<string>
  {
    match m
    case Temperature => ["temperature", "temp", "TEMP", "TempC_SHT"]
    case Humidity => ["humidity", "Hum_SHT", "relativeHumidity", "RHUM"]
    case Co2 => ["co2"]
  }

  /**
   * `payload[a0] ?? payload[a1] ?? ... ?? null`: the token of the first alias
   * that is a key of the payload. A key holding JSON null still counts as
   * present, since only a missing key yields C# null.
   */
  function FirstPresent(payload: map<string, Json>, aliases: seq<string>): (r: Option<Json>)
    ensures r.None? <==> forall i :: 0 <= i < |aliases| ==> aliases[i] !in payload
    ensures r.Some? ==>
      exists i :: 0 <= i < |aliases| && aliases[i] in payload && r.value == payload[aliases[i]] &&
        forall j :: 0 <= j < i ==> aliases[j] !in payload
  {
    if aliases == [] then None
    else if aliases[0] in payload then Some(payload[aliases[0]])
    else
      var r := FirstPresent(payload, aliases[1..]);
      assert forall i :: 0 <= i < |aliases[1..]| ==> aliases[1..][i] == aliases[i + 1];
      r
  }

  /**
   * One metric of the sensor's reading (one of lines 113-115): 0.0 when no
   * alias is a key, and a failure only because of the value of a present
   * alias that is neither a number nor a boolean.
   */
  function ReadMetric(payload: map<string, Json>, m: Metric): (r: Result<real, Exception>)
    ensures (forall i :: 0 <= i < |Aliases(m)| ==> Aliases(m)[i] !in payload) ==> r == Ok(0.0)
    ensures r.Err? ==>
      exists i :: 0 <= i < |Aliases(m)| && Aliases(m)[i] in payload &&
        !payload[Aliases(m)[i]].JNumber? && !payload[Aliases(m)[i]].JBool?
  {
    ToDouble(FirstPresent(payload, Aliases(m)))
  }

  /**
   * The sensor's reading, metric by metric in the order temperature, humidity,
   * co2; the first conversion that throws ends the invocation.
   */
  function Normalize(payload: map<string, Json>): (r: Result<EnvironmentalInfo, Exception>)
    ensures r.Ok? <==> forall m :: ReadMetric(payload, m).Ok?
    ensures r.Ok? ==> forall m :: r.value.Get(m) == Some(ReadMetric(payload, m).value)
    ensures ReadMetric(payload, Temperature).Err? ==> r == Err(ReadMetric(payload, Temperature).error)
    ensures ReadMetric(payload, Temperature).Ok? && ReadMetric(payload, Humidity).Err? ==>
      r == Err(ReadMetric(payload, Humidity).error)
  {
    var t := ReadMetric(payload, Temperature);
    var h := ReadMetric(payload, Humidity);
    var c := ReadMetric(payload, Co2);
    if t.Err? then Err(t.error)
    else if h.Err? then Err(h.error)
    else if c.Err? then Err(c.error)
    else Ok(EnvironmentalInfo(Some(t.value), Some(h.value), Some(c.value)))
  }

  /** `sensorTwin.Contents["decodedPayload"]`, deserialised and cast to a JObject. */
  function DecodedPayload(twin: Twin): (r: Result<map<string, Json>, Exception>)
    ensures DECODED_PAYLOAD !in twin.contents ==> r == Err(KeyNotFound(DECODED_PAYLOAD))
    ensures r.Ok? ==> twin.contents[DECODED_PAYLOAD] == JObject(r.value)
  {
    if DECODED_PAYLOAD !in twin.contents then Err(KeyNotFound(DECODED_PAYLOAD))
    else AsObject(twin.contents[DECODED_PAYLOAD])
  }

  /** A successful normalisation always sets all three metrics. */
  lemma NormalizedReadingIsComplete(payload: map<string, Json>)
    requires Normalize(payload).Ok?
    ensures Normalize(payload).value.temperature.Some?
    ensures Normalize(payload).value.humidity.Some?
    ensures Normalize(payload).value.co2.Some?
  {
    assert Normalize(payload).value.Get(Temperature) == Some(ReadMetric(payload, Temperature).value);
    assert Normalize(payload).value.Get(Humidity) == Some(ReadMetric(payload, Humidity).value);
    assert Normalize(payload).value.Get(Co2) == Some(ReadMetric(payload, Co2).value);
  }

  /**
   * The first alias present wins: when alias `i` is the first key of the
   * payload among the metric's aliases and holds a number, that number is
   * the metric, whatever later aliases hold.
   */
  lemma FirstAliasWins(payload: map<string, Json>, m: Metric, i: nat, v: real)
    requires i < |Aliases(m)| && Aliases(m)[i] in payload
    requires forall j :: 0 <= j < i ==> Aliases(m)[j] !in payload
    requires payload[Aliases(m)[i]] == JNumber(v)
    ensures ReadMetric(payload, m) == Ok(v)
  {
    var r := FirstPresent(payload, Aliases(m));
    var k :| 0 <= k < |Aliases(m)| && Aliases(m)[k] in payload && r.value == payload[Aliases(m)[k]] &&
      forall j :: 0 <= j < k ==> Aliases(m)[j] !in payload;
    assert k == i;
  }

  /** A metric none of whose aliases is present reads as 0.0, not as absent. */
  lemma MissingMetricIsZero(payload: map<string, Json>, m: Metric)
    requires forall i :: 0 <= i < |Aliases(m)| ==> Aliases(m)[i] !in payload
    ensures ReadMetric(payload, m) == Ok(0.0)
  {
  }

  /** co2 is read from the key `co2` only. */
  lemma Co2ReadsOnlyCo2(payload: map<string, Json>)
    ensures ReadMetric(payload, Co2) == ToDouble(Member(payload, "co2"))
  {
  }
}
