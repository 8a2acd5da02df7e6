/** The entities of the twin graph and the canonical environmental reading. */
module Twins {
  import opened Wrappers
  import opened JsonValues

  /** A digital twin as returned by a query: its id, model id and property contents. */
  datatype Twin = Twin(id: string, modelId: string, contents: map<string, Json>)

  /** An incoming relationship of a twin: the twin it comes from and its name. */
  datatype IncomingRelationship = IncomingRelationship(sourceId: string, name: string)

  /** The three metrics of an environmental reading. */
  datatype Metric = Temperature | Humidity | Co2

  /** The `EnvironmentalInfo` value object: three independently optional readings. */
  datatype EnvironmentalInfo = EnvironmentalInfo(temperature: Option<real>, humidity: Option<real>, co2: Option<real>)
  {
    /** The metric selector used by the averages (`x => x.temperature`, ...). */
    function Get(m: Metric): Option<real>
    {
      match m
      case Temperature => temperature
      case Humidity => humidity
      case Co2 => co2
    }
  }

  /** The JSON property name of each metric in a serialised reading. */
  function MetricName(m: Metric): string
  {
    match m
    case Temperature => "temperature"
    case Humidity => "humidity"
    case Co2 => "co2"
  }

  /** The twin property that holds the canonical reading. */
  const ENVIRONMENTAL_INFO := "environmental_info"
}
