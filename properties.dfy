/** Properties of an invocation, stated over `Plan` and the store's state. */
module PipelineProperties {
  import opened Wrappers
  import opened JsonValues
  import opened Twins
  import opened Normalizer
  import opened Averaging
  import opened JsonPatch
  import opened Store
  import opened Traversal
  import opened ProcessDTRoutedData

  /**
   * An event stopped by the filter (no service URL, no client, no event, a
   * model id that is not a sensor's, or data mentioning environmental_info)
   * reads and writes no twin; every other event starts with the query by id.
   */
  lemma FilteredEventTouchesNothing(inp: Invocation)
    ensures Plan(inp).queries == [] <==> !PassesFilter(inp)
    ensures !PassesFilter(inp) ==> Plan(inp).writes == []
    ensures PassesFilter(inp) ==> Plan(inp).queries[0] == TwinById(inp.event.value.subject)
  {
  }

  /**
   * At most two writes, the sensor's first and the booth's second, each a
   * one-operation patch at /environmental_info; the second happens only when
   * the invocation aggregates.
   */
  lemma WritesSensorThenBooth(inp: Invocation)
    ensures |Plan(inp).writes| <= 2
    ensures |Plan(inp).writes| >= 1 ==>
      (PassesFilter(inp) && inp.sensorTwins != [] && Plan(inp).writes[0].twinId == inp.sensorTwins[0].id)
    ensures |Plan(inp).writes| == 2 <==> Plan(inp).outcome == Aggregated
    ensures |Plan(inp).writes| == 2 ==>
      (inp.boothTwins != [] && Plan(inp).writes[1].twinId == inp.boothTwins[|inp.boothTwins| - 1].id)
    ensures forall k :: 0 <= k < |Plan(inp).writes| ==>
      |Plan(inp).writes[k].patch| == 1 && Plan(inp).writes[k].patch[0].path == ENVIRONMENTAL_INFO_PATH
  {
    if PassesFilter(inp) && inp.sensorTwins != [] {
      var sensor := inp.sensorTwins[0];
      var q1 := [TwinById(inp.event.value.subject)];
      assert Plan(inp) == SensorPlan(inp, sensor, q1);
      if DecodedPayload(sensor).Ok? && Normalize(DecodedPayload(sensor).value).Ok? {
        var reading := Normalize(DecodedPayload(sensor).value).value;
        assert Plan(inp) == ReadingPlan(inp, sensor, reading, q1);
      }
    }
  }

  /**
   * The sensor's write carries its normalised reading, with all three
   * metrics set, as "replace" when the sensor twin already had a reading
   * and "add" otherwise.
   */
  lemma SensorWriteIsNormalizedReading(inp: Invocation)
    requires PassesFilter(inp) && inp.sensorTwins != []
    requires DecodedPayload(inp.sensorTwins[0]).Ok?
    requires Normalize(DecodedPayload(inp.sensorTwins[0]).value).Ok?
    ensures var sensor := inp.sensorTwins[0];
      var reading := Normalize(DecodedPayload(sensor).value).value;
      && |Plan(inp).writes| >= 1
      && Plan(inp).writes[0] == Write(sensor.id, BuildPatch(sensor.contents, reading))
      && reading.temperature.Some? && reading.humidity.Some? && reading.co2.Some?
      && (Plan(inp).writes[0].patch[0].op == Replace <==> ENVIRONMENTAL_INFO in sensor.contents)
  {
    NormalizedReadingIsComplete(DecodedPayload(inp.sensorTwins[0]).value);
  }

  /**
   * A sensor with no incoming `sensors` relationship is updated alone: no
   * booth query and no join query run, and nothing else is written.
   */
  lemma NoBoothMeansSensorOnly(inp: Invocation)
    requires LastSensorsSource(inp.incoming).None?
    ensures forall k :: 0 <= k < |Plan(inp).queries| ==> !Plan(inp).queries[k].SensorsOfBooth?
    ensures |Plan(inp).queries| <= 2 && |Plan(inp).writes| <= 1
    ensures Plan(inp).outcome != Aggregated
    ensures (PassesFilter(inp) && inp.sensorTwins != [] && DecodedPayload(inp.sensorTwins[0]).Ok? &&
             Normalize(DecodedPayload(inp.sensorTwins[0]).value).Ok?) ==> Plan(inp).outcome == SensorOnly
  {
  }

  /**
   * The booth's write carries the per-metric averages of the stored
   * readings of the sensors in the join rows, only rows whose sensor holds
   * a reading taking part.
   */
  lemma BoothWriteIsAverage(inp: Invocation)
    requires Plan(inp).outcome == Aggregated
    ensures SiblingInfos(inp.sensorRows).Ok? && inp.boothTwins != []
    ensures var booth := inp.boothTwins[|inp.boothTwins| - 1];
      var infos := SiblingInfos(inp.sensorRows).value;
      && |infos| == |SensorsWithInfo(inp.sensorRows)|
      && Plan(inp).writes[1] == Write(booth.id, BuildPatch(booth.contents, Aggregate(infos)))
  {
    assert Plan(inp).outcome == SensorPlan(inp, inp.sensorTwins[0], [TwinById(inp.event.value.subject)]).outcome;
  }

  /** Only the first twin the query by id returns is handled. */
  lemma OnlyFirstSensorTwinMatters(inp: Invocation)
    requires |inp.sensorTwins| >= 1
    ensures Plan(inp) == Plan(inp.(sensorTwins := inp.sensorTwins[..1]))
  {
  }

  /** Twins other than the sensor and its booth keep their contents. */
  lemma OtherTwinsUnchanged(inp: Invocation, twins: map<string, map<string, Json>>, rejected: set<string>, id: string)
    requires id in twins
    requires inp.sensorTwins != [] ==> id != inp.sensorTwins[0].id
    requires inp.boothTwins != [] ==> id != inp.boothTwins[|inp.boothTwins| - 1].id
    ensures ApplyWrites(twins, rejected, Plan(inp).writes).Keys == twins.Keys
    ensures ApplyWrites(twins, rejected, Plan(inp).writes)[id] == twins[id]
  {
    WritesSensorThenBooth(inp);
  }

  /**
   * A refused sensor update is swallowed: the booth is still updated with
   * the average, and the sensor keeps its old contents.
   */
  lemma RefusedSensorWriteStillUpdatesBooth(inp: Invocation, twins: map<string, map<string, Json>>, rejected: set<string>)
    requires Plan(inp).outcome == Aggregated
    requires inp.sensorTwins[0].id in rejected
    requires var booth := inp.boothTwins[|inp.boothTwins| - 1];
      && booth.id in twins && booth.id !in rejected && booth.id != inp.sensorTwins[0].id
      && (ENVIRONMENTAL_INFO in booth.contents ==> ENVIRONMENTAL_INFO in twins[booth.id])
    ensures var booth := inp.boothTwins[|inp.boothTwins| - 1];
      var average := Aggregate(SiblingInfos(inp.sensorRows).value);
      ApplyWrites(twins, rejected, Plan(inp).writes) ==
        twins[booth.id := twins[booth.id][ENVIRONMENTAL_INFO := Serialize(average)]]
  {
    BoothWriteIsAverage(inp);
    WritesSensorThenBooth(inp);
    var ws := Plan(inp).writes;
    assert |ws| == 2;
    assert ws[0].twinId in rejected;
    assert ws == [ws[0], ws[1]];
    var booth := inp.boothTwins[|inp.boothTwins| - 1];
    assert ws[1] == Write(booth.id, BuildPatch(booth.contents, Aggregate(SiblingInfos(inp.sensorRows).value)));
    RefusedThenAccepted(twins, rejected, ws[0], booth, Aggregate(SiblingInfos(inp.sensorRows).value));
  }

  /** A refused write followed by a booth's accepted patch changes the booth alone. */
  lemma RefusedThenAccepted(twins: map<string, map<string, Json>>, rejected: set<string>, w1: Write, booth: Twin, average: EnvironmentalInfo)
    requires w1.twinId in rejected
    requires booth.id in twins && booth.id !in rejected
    requires ENVIRONMENTAL_INFO in booth.contents ==> ENVIRONMENTAL_INFO in twins[booth.id]
    ensures ApplyWrites(twins, rejected, [w1, Write(booth.id, BuildPatch(booth.contents, average))]) ==
      twins[booth.id := twins[booth.id][ENVIRONMENTAL_INFO := Serialize(average)]]
  {
    var w2 := Write(booth.id, BuildPatch(booth.contents, average));
    ApplyTwoWrites(twins, rejected, w1, w2);
    assert !Accepts(twins, rejected, w1);
    PatchEffect(booth.contents, twins[booth.id], average);
    assert Accepts(twins, rejected, w2);
  }

  lemma ApplyTwoWrites(twins: map<string, map<string, Json>>, rejected: set<string>, w1: Write, w2: Write)
    ensures ApplyWrites(twins, rejected, [w1, w2]) == ApplyWrite(ApplyWrite(twins, rejected, w1), rejected, w2)
  {
    assert [w1, w2][1..] == [w2];
    assert [w2][1..] == [];
  }
}
