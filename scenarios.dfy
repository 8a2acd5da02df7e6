/** End-to-end invocations on concrete inputs. */
module Scenarios {
  import opened Wrappers
  import opened JsonValues
  import opened Twins
  import opened Normalizer
  import opened Averaging
  import opened JsonPatch
  import opened Store
  import opened Traversal
  import opened ProcessDTRoutedData
  import opened PipelineProperties

  const SENSOR_MODEL := "dtmi:ttnlwstack:sensorA;1"
  const BOOTH_MODEL := "dtmi:example:ExhibitionBooth;1"
  const URL := Some("https://example.api.weu.digitaltwins.azure.net")

  /** A payload using the aliases `temp` and `Hum_SHT`, without co2. */
  const PAYLOAD := map["temp" := JNumber(21.5), "Hum_SHT" := JNumber(60.0)]
  const READING := EnvironmentalInfo(Some(21.5), Some(60.0), Some(0.0))
  /** The reading sensor-1 holds before the invocation: 20/50, no co2. */
  const STORED_READING := EnvironmentalInfo(Some(20.0), Some(50.0), None)
  const SENSOR := Twin("sensor-1", SENSOR_MODEL, map[DECODED_PAYLOAD := JObject(PAYLOAD), ENVIRONMENTAL_INFO := Serialize(STORED_READING)])
  /** sensor-2, the other sensor of booth-7, holds 24/70 and no co2. */
  const SENSOR2 := Twin("sensor-2", SENSOR_MODEL, map[ENVIRONMENTAL_INFO := Serialize(EnvironmentalInfo(Some(24.0), Some(70.0), None))])
  const BOOTH := Twin("booth-7", BOOTH_MODEL, map[])

  /** The join rows of booth-7, holding sensor-1 and sensor-2 as the store has them. */
  const ROWS := [map[SENSOR_ALIAS := SENSOR], map[SENSOR_ALIAS := SENSOR2]]
  const INFOS := [EnvironmentalInfo(Some(20.0), Some(50.0), None), EnvironmentalInfo(Some(24.0), Some(70.0), None)]
  const AVERAGE := EnvironmentalInfo(Some(22.0), Some(60.0), None)

  function SensorEvent(subject: string, data: string): Event
  {
    Event(subject, SENSOR_MODEL, data)
  }

  lemma SensorModelIsSensor()
    ensures SENSOR_MODEL_PREFIX <= SENSOR_MODEL
  {
    assert SENSOR_MODEL[..|SENSOR_MODEL_PREFIX|] == SENSOR_MODEL_PREFIX;
  }

  /**
   * The sensor's reading: temperature 21.5 and humidity 60 from the
   * aliases, and co2 0 because the missing co2 token converts to 0.0; it
   * replaces the stored reading.
   */
  lemma SensorReading()
    ensures DecodedPayload(SENSOR) == Ok(PAYLOAD)
    ensures Normalize(PAYLOAD) == Ok(READING)
    ensures BuildPatch(SENSOR.contents, READING) == [PatchOp(Replace, ENVIRONMENTAL_INFO_PATH,
      JObject(map["temperature" := JNumber(21.5), "humidity" := JNumber(60.0), "co2" := JNumber(0.0)]))]
  {
    NormalizedPayload();
    SensorPatch();
  }

  lemma NormalizedPayload()
    ensures Normalize(PAYLOAD) == Ok(READING)
  {
    FirstAliasWins(PAYLOAD, Temperature, 1, 21.5);
    FirstAliasWins(PAYLOAD, Humidity, 1, 60.0);
    MissingMetricIsZero(PAYLOAD, Co2);
  }

  lemma SensorPatch()
    ensures BuildPatch(SENSOR.contents, READING) == [PatchOp(Replace, ENVIRONMENTAL_INFO_PATH,
      JObject(map["temperature" := JNumber(21.5), "humidity" := JNumber(60.0), "co2" := JNumber(0.0)]))]
  {
    assert ENVIRONMENTAL_INFO in SENSOR.contents;
    assert Serialize(READING) ==
      JObject(map["temperature" := JNumber(21.5), "humidity" := JNumber(60.0), "co2" := JNumber(0.0)]);
  }

  /** For an event passing the filter, the plan is that of the first sensor twin. */
  lemma PlanOfSensorEvent(inp: Invocation)
    requires PassesFilter(inp) && inp.sensorTwins != []
    ensures Plan(inp) == SensorPlan(inp, inp.sensorTwins[0], [TwinById(inp.event.value.subject)])
  {
  }

  lemma SensorOnlyPlan(inp: Invocation, sensor: Twin, q1: seq<Query>, payload: map<string, Json>, reading: EnvironmentalInfo)
    requires DecodedPayload(sensor) == Ok(payload) && Normalize(payload) == Ok(reading)
    requires LastSensorsSource(inp.incoming).None?
    ensures SensorPlan(inp, sensor, q1) ==
      Trace(SensorOnly, q1 + [IncomingRelationships(sensor.id)], [Write(sensor.id, BuildPatch(sensor.contents, reading))])
  {
  }

  lemma AggregatedPlan(inp: Invocation, sensor: Twin, q1: seq<Query>, payload: map<string, Json>, reading: EnvironmentalInfo,
                       boothId: string, infos: seq<EnvironmentalInfo>)
    requires DecodedPayload(sensor) == Ok(payload) && Normalize(payload) == Ok(reading)
    requires LastSensorsSource(inp.incoming) == Some(boothId)
    requires SiblingInfos(inp.sensorRows) == Ok(infos) && inp.boothTwins != []
    ensures var booth := inp.boothTwins[|inp.boothTwins| - 1];
      SensorPlan(inp, sensor, q1) ==
        Trace(Aggregated, q1 + [IncomingRelationships(sensor.id), TwinById(boothId), SensorsOfBooth(boothId)],
          [Write(sensor.id, BuildPatch(sensor.contents, reading)), Write(booth.id, BuildPatch(booth.contents, Aggregate(infos)))])
  {
    assert q1 + [IncomingRelationships(sensor.id)] + [TwinById(boothId), SensorsOfBooth(boothId)] ==
      q1 + [IncomingRelationships(sensor.id), TwinById(boothId), SensorsOfBooth(boothId)];
  }

  /**
   * The sensor in no booth (its only incoming relationship is not
   * `sensors`) gets its reading written, and nothing else happens.
   */
  lemma SensorWithoutBooth(data: string)
    requires !ContainsText(data, ENVIRONMENTAL_INFO)
    ensures var inp := Invocation(URL, true, Some(SensorEvent("sensor-1", data)), [SENSOR], [IncomingRelationship("hall-2", "devices")], [], []);
      && Plan(inp).outcome == SensorOnly
      && Plan(inp).queries == [TwinById("sensor-1"), IncomingRelationships("sensor-1")]
      && Plan(inp).writes ==
        [Write("sensor-1", [PatchOp(Replace, ENVIRONMENTAL_INFO_PATH,
          JObject(map["temperature" := JNumber(21.5), "humidity" := JNumber(60.0), "co2" := JNumber(0.0)]))])]
  {
    var inp := Invocation(URL, true, Some(SensorEvent("sensor-1", data)), [SENSOR], [IncomingRelationship("hall-2", "devices")], [], []);
    SensorModelIsSensor();
    assert PassesFilter(inp);
    SensorReading();
    assert LastSensorsSource(inp.incoming).None?;
    SensorOnlyPlan(inp, SENSOR, [TwinById("sensor-1")], PAYLOAD, READING);
  }

  /** The booth, holding no reading yet, gets 22/60 added and no co2 member. */
  lemma BoothPatch()
    ensures BuildPatch(BOOTH.contents, AVERAGE) == [PatchOp(Add, ENVIRONMENTAL_INFO_PATH,
      JObject(map["temperature" := JNumber(22.0), "humidity" := JNumber(60.0)]))]
  {
    assert Serialize(AVERAGE) == JObject(map["temperature" := JNumber(22.0), "humidity" := JNumber(60.0)]);
  }

  /** The join rows of sensor-1 and sensor-2, with stored readings 20/50 and 24/70. */
  lemma TwoStoredReadings()
    ensures SiblingInfos(ROWS) == Ok(INFOS)
  {
    var r1 := map[SENSOR_ALIAS := SENSOR];
    var r2 := map[SENSOR_ALIAS := SENSOR2];
    var e1 := STORED_READING;
    var e2 := EnvironmentalInfo(Some(24.0), Some(70.0), None);
    StoredReadingRoundTrip(SENSOR, e1);
    StoredReadingRoundTrip(SENSOR2, e2);
    assert [] + [r1] == [r1] && [r1] + [r2] == [r1, r2];
    SiblingInfosSnoc([], r1, [], e1);
    assert [] + [e1] == [e1] && [e1] + [e2] == [e1, e2];
    SiblingInfosSnoc([r1], r2, [e1], e2);
  }

  /** The stored readings 20/50 and 24/70 average to 22/60, with no co2. */
  lemma AverageOfTwoReadings()
    ensures Aggregate(INFOS) == AVERAGE
  {
    var e1 := EnvironmentalInfo(Some(20.0), Some(50.0), None);
    var e2 := EnvironmentalInfo(Some(24.0), Some(70.0), None);
    assert [e1, e2][1..] == [e2] && [e2][1..] == [];
  }

  lemma SiblingInfosSnoc(rows: seq<map<string, Twin>>, row: map<string, Twin>, infos: seq<EnvironmentalInfo>, e: EnvironmentalInfo)
    requires SiblingInfos(rows) == Ok(infos)
    requires HasStoredInfo(row) && StoredInfo(row[SENSOR_ALIAS]) == Ok(e)
    ensures SiblingInfos(rows + [row]) == Ok(infos + [e])
  {
    assert (rows + [row])[..|rows|] == rows;
  }

  /**
   * An event for sensor-1, a `sensors` relationship from booth-7, and the
   * join rows of booth-7 holding the stored twins of sensor-1 and sensor-2:
   * the rows a store answers with when it refused sensor-1's update.
   */
  function BoothInvocation(data: string): Invocation
  {
    Invocation(URL, true, Some(SensorEvent("sensor-1", data)), [SENSOR],
      [IncomingRelationship("booth-7", SENSORS_RELATIONSHIP)], [BOOTH], ROWS)
  }

  /**
   * sensor-1 and sensor-2 under booth-7 hold readings 20/50 and 24/70 in
   * the join rows: the booth gets temperature 22 and humidity 60, and no
   * co2 since neither stored reading has one.
   */
  lemma BoothAverageOfTwoSensors(data: string)
    requires !ContainsText(data, ENVIRONMENTAL_INFO)
    ensures var inp := BoothInvocation(data);
      && Plan(inp).outcome == Aggregated
      && |Plan(inp).writes| == 2
      && Plan(inp).writes[1] == Write("booth-7", BuildPatch(BOOTH.contents, AVERAGE))
  {
    var inp := BoothInvocation(data);
    SensorModelIsSensor();
    assert PassesFilter(inp);
    SensorReading();
    TwoStoredReadings();
    AverageOfTwoReadings();
    assert LastSensorsSource(inp.incoming) == Some("booth-7");
    AggregatedPlan(inp, SENSOR, [TwinById("sensor-1")], PAYLOAD, READING, "booth-7", INFOS);
    PlanOfSensorEvent(inp);
  }

  /**
   * An event whose data mentions environmental_info, as the data of the
   * function's own update does, reads and writes nothing.
   */
  lemma OwnWriteIsIgnored(before: string, after: string)
    ensures var data := before + ENVIRONMENTAL_INFO + after;
      Plan(Invocation(URL, true, Some(SensorEvent("sensor-1", data)), [SENSOR], [], [], [])) == Trace(OwnUpdate, [], [])
  {
    SensorModelIsSensor();
    var data := before + ENVIRONMENTAL_INFO + after;
    assert data[|before|..|before| + |ENVIRONMENTAL_INFO|] == ENVIRONMENTAL_INFO;
    assert OccursAt(data, ENVIRONMENTAL_INFO, |before|);
  }

  /** Without ADT_SERVICE_URL, nothing is read or written. */
  lemma MissingServiceUrlDoesNothing(event: Event, sensors: seq<Twin>)
    ensures Plan(Invocation(None, true, Some(event), sensors, [], [], [])) == Trace(NoServiceUrl, [], [])
  {
  }

  /** The stored contents of sensor-1, sensor-2 and booth-7 before the invocation. */
  const STORED := map["sensor-1" := SENSOR.contents, "sensor-2" := SENSOR2.contents, "booth-7" := BOOTH.contents]

  /**
   * With every update of sensor-1 refused, the invocation's writes leave
   * sensor-1 as it was and give booth-7 the average.
   */
  lemma RefusedSensorWriteScenario(data: string)
    requires !ContainsText(data, ENVIRONMENTAL_INFO)
    ensures ApplyWrites(STORED, {"sensor-1"}, Plan(BoothInvocation(data)).writes) ==
      STORED["booth-7" := BOOTH.contents[ENVIRONMENTAL_INFO := Serialize(AVERAGE)]]
    ensures var after := ApplyWrites(STORED, {"sensor-1"}, Plan(BoothInvocation(data)).writes);
      && after["sensor-1"] == SENSOR.contents
      && after["booth-7"] == BOOTH.contents[ENVIRONMENTAL_INFO := Serialize(AVERAGE)]
  {
    BoothAverageOfTwoSensors(data);
    TwoStoredReadings();
    BoothGetsAverage(BoothInvocation(data));
  }

  lemma BoothGetsAverage(inp: Invocation)
    requires Plan(inp).outcome == Aggregated
    requires inp.sensorTwins[0].id == "sensor-1" && inp.boothTwins[|inp.boothTwins| - 1] == BOOTH
    requires SiblingInfos(inp.sensorRows) == Ok(INFOS)
    ensures ApplyWrites(STORED, {"sensor-1"}, Plan(inp).writes) ==
      STORED["booth-7" := BOOTH.contents[ENVIRONMENTAL_INFO := Serialize(AVERAGE)]]
    ensures var after := ApplyWrites(STORED, {"sensor-1"}, Plan(inp).writes);
      && after["sensor-1"] == SENSOR.contents
      && after["booth-7"] == BOOTH.contents[ENVIRONMENTAL_INFO := Serialize(AVERAGE)]
  {
    AverageOfTwoReadings();
    RefusedSensorWriteStillUpdatesBooth(inp, STORED, {"sensor-1"});
  }

  /**
   * Sent through a store that refuses every update of sensor-1, the
   * invocation still aggregates: sensor-1 keeps its contents and booth-7
   * gets the average.
   */
  method RefusedSensorUpdate(data: string) returns (outcome: Outcome, sensor: map<string, Json>, booth: map<string, Json>)
    requires !ContainsText(data, ENVIRONMENTAL_INFO)
    ensures outcome == Aggregated
    ensures sensor == SENSOR.contents
    ensures booth == BOOTH.contents[ENVIRONMENTAL_INFO := Serialize(AVERAGE)]
  {
    BoothAverageOfTwoSensors(data);
    RefusedSensorWriteScenario(data);
    var store := new TwinStore(STORED, {"sensor-1"});
    var queries;
    outcome, queries := Run(BoothInvocation(data), store);
    sensor := store.twins["sensor-1"];
    booth := store.twins["booth-7"];
  }
}
