/** Building, checking and preparing chart specs (llm/tools/forecast_charts.py). */
module ChartSpec {
  import Durations
  import opened Wrappers
  import opened Json
  import TimeAxes
  import AxisDefaults

  const DATASET := "forecast"
  const DEFAULT_WIDTH: int := 720
  const DEFAULT_HEIGHT: int := 360
  const MAX_WIDTH: int := 900
  const MAX_HEIGHT: int := 500
  const MAX_DAYS: int := 7

  const TOP_LEVEL_DISALLOWED: set<string> := {"datasets", "facet", "concat", "hconcat", "vconcat", "repeat", "params"}

  datatype ChartError =
    | NoVariables
    | StartAfterEnd
    | RangeTooLong
    | NotAnObject
    | Unsupported
    | NoMarkOrLayer
    | LayerNotAList
    | DataBelowTop
    | WrongDataset
    | Forbidden(key: string)
    | UnknownField(field: string)
    | SchemaRejected

  // ---- Checks -----------------------------------------------------------------------

  function ValidateTimeRange(start: int, end: int): Result<(), ChartError> {
    if end < start then Err(StartAfterEnd)
    else if end - start > MAX_DAYS * Durations.DAY then Err(RangeTooLong)
    else Ok(())
  }

  /** `_reject_disallowed_keys`: some dictionary in the tree has the key. */
  predicate KeyAnywhere(j: Json, key: string)
    decreases j, 1
  {
    match j
    case Obj(es) => Has(es, key) || KeyInEntries(es, key)
    case Arr(items) => KeyInItems(items, key)
    case _ => false
  }

  predicate KeyInEntries(es: seq<Entry>, key: string)
    decreases es, 0
  {
    es != [] && (KeyAnywhere(es[0].value, key) || KeyInEntries(es[1..], key))
  }

  predicate KeyInItems(items: seq<Json>, key: string)
    decreases items, 0
  {
    items != [] && (KeyAnywhere(items[0], key) || KeyInItems(items[1..], key))
  }

  function ValidateShape(spec: Json): Result<(), ChartError> {
    if !spec.Obj? then Err(NotAnObject)
    else if exists k :: k in TOP_LEVEL_DISALLOWED && Has(spec.entries, k) then Err(Unsupported)
    else if !Has(spec.entries, "mark") && !Has(spec.entries, "layer") then Err(NoMarkOrLayer)
    else if Has(spec.entries, "layer") && !Get(spec.entries, "layer").value.Arr? then Err(LayerNotAList)
    else if KeyAnywhere(spec, "transform") then Err(Unsupported)
    else Ok(())
  }

  const NAMED_DATA: Json := Obj([Entry("name", Str(DATASET))])

  function CheckDataFound(found: seq<Found>): Result<(), ChartError> {
    if found == [] then Ok(())
    else if found[0].path != ["data"] then Err(DataBelowTop)
    else if found[0].value != NAMED_DATA then Err(WrongDataset)
    else CheckDataFound(found[1..])
  }

  function ValidateDataSources(spec: Json): Result<(), ChartError> {
    var checked := CheckDataFound(FindKeyValues(spec, "data"));
    if checked.Err? then checked
    else if FindKeyValues(spec, "url") != [] then Err(Forbidden("url"))
    else if FindKeyValues(spec, "values") != [] then Err(Forbidden("values"))
    else if FindKeyValues(spec, "datasets") != [] then Err(Forbidden("datasets"))
    else Ok(())
  }

  function CheckFieldsFound(found: seq<Found>, allowed: set<string>): Result<(), ChartError> {
    if found == [] then Ok(())
    else if found[0].value.Str? && found[0].value.s !in allowed then Err(UnknownField(found[0].value.s))
    else CheckFieldsFound(found[1..], allowed)
  }

  function ValidateFields(spec: Json, allowed: set<string>): Result<(), ChartError> {
    CheckFieldsFound(FindKeyValues(spec, "field"), allowed)
  }

  // ---- Preparing --------------------------------------------------------------------

  /** `int(x)` on a float drops the fraction. */
  function Truncate(r: real): int {
    if r >= 0.0 then r.Floor else -((-r).Floor)
  }

  /** A boolean is a number here, as in the source. */
  function AsInt(j: Json): Option<int> {
    match j
    case Int(i) => Some(i)
    case Float(r) => Some(Truncate(r))
    case Bool(b) => Some(if b then 1 else 0)
    case _ => None
  }

  function Distance(m: int, n: int): nat {
    if m < n then n - m else m - n
  }

  function BoundedDimension(value: Option<Json>, default: int, maximum: int): (r: int)
    requires 1 <= default <= maximum
    ensures 1 <= r <= maximum
    // A whole number becomes the nearest allowed one.
    ensures value.Some? && value.value.Int? ==>
              forall m :: 1 <= m <= maximum ==> Distance(r, value.value.i) <= Distance(m, value.value.i)
    // A fraction is dropped, and a boolean counts as a number.
    ensures value.Some? && value.value.Float? ==>
              var x := value.value.r;
              if x < 1.0 then r == 1 else if x >= maximum as real then r == maximum else r as real <= x < (r + 1) as real
    ensures value.Some? && value.value.Bool? ==> r == 1
    // Anything else becomes the default.
    ensures value.None? || !(value.value.Int? || value.value.Float? || value.value.Bool?) ==> r == default
  {
    var n := if value.Some? then AsInt(value.value) else None;
    if n.None? then default
    else if n.value > maximum then maximum
    else if n.value < 1 then 1
    else n.value
  }

  function NormalizeDimensions(es: seq<Entry>): seq<Entry> {
    var es1 := Put(es, "width", Int(BoundedDimension(Get(es, "width"), DEFAULT_WIDTH, MAX_WIDTH)));
    Put(es1, "height", Int(BoundedDimension(Get(es1, "height"), DEFAULT_HEIGHT, MAX_HEIGHT)))
  }

  function Complete(es: seq<Entry>, records: Json): seq<Entry> {
    var es1 := Put(es, "background", Get(es, "background").GetOr(Str("white")));
    var es2 := Put(es1, "data", NAMED_DATA);
    Put(es2, "datasets", Obj([Entry(DATASET, records)]))
  }

  /** `prepare_vega_lite_spec`; `accepts` stands for the schema validation of the charting library. */
  function Prepare(spec: Json, records: Json, allowed: set<string>, stamp: int -> string, start: int, end: int,
                   accepts: Json -> bool): Result<Json, ChartError>
  {
    var r0 := ValidateTimeRange(start, end);
    if r0.Err? then Err(r0.error)
    else var r1 := ValidateShape(spec);
    if r1.Err? then Err(r1.error)
    else var r2 := ValidateDataSources(spec);
    if r2.Err? then Err(r2.error)
    else var r3 := ValidateFields(spec, allowed);
    if r3.Err? then Err(r3.error)
    else
      var sized := Obj(NormalizeDimensions(spec.entries));
      var walked := AxisDefaults.NormalizeAxes(sized, AxisDefaults.Defaults(stamp, start, end));
      var prepared := Obj(Complete(walked.entries, records));
      if accepts(prepared) then Ok(prepared) else Err(SchemaRejected)
  }

  method CheckSources(sources: seq<Found>) returns (r: Result<(), ChartError>)
    ensures r == CheckDataFound(sources)
  {
    for i := 0 to |sources|
      invariant CheckDataFound(sources) == CheckDataFound(sources[i..])
    {
      assert sources[i..][1..] == sources[i + 1..];
      if sources[i].path != ["data"] {
        return Err(DataBelowTop);
      }
      if sources[i].value != NAMED_DATA {
        return Err(WrongDataset);
      }
    }
    r := Ok(());
  }

  method ValidateDataSourcesOf(spec: Json) returns (r: Result<(), ChartError>)
    ensures r == ValidateDataSources(spec)
  {
    hide FindKeyValues, CheckDataFound;
    var search := new KeySearch("data");
    search.Visit(spec, []);
    var sources := search.found;
    assert sources == FindKeyValues(spec, "data");
    var checked := CheckSources(sources);
    if checked.Err? {
      return checked;
    }
    var forbidden := ["url", "values", "datasets"];
    for k := 0 to |forbidden|
      invariant forall m :: 0 <= m < k ==> FindKeyValues(spec, forbidden[m]) == []
    {
      search := new KeySearch(forbidden[k]);
      search.Visit(spec, []);
      if search.found != [] {
        assert FindKeyValues(spec, forbidden[k]) != [];
        assert forbidden[0] == "url" && forbidden[1] == "values" && forbidden[2] == "datasets";
        return Err(Forbidden(forbidden[k]));
      }
    }
    assert forbidden[0] == "url" && forbidden[1] == "values" && forbidden[2] == "datasets";
    r := Ok(());
  }

  method ValidateFieldsOf(spec: Json, allowed: set<string>) returns (r: Result<(), ChartError>)
    ensures r == ValidateFields(spec, allowed)
  {
    hide FindKeyValues;
    var fields := new KeySearch("field");
    fields.Visit(spec, []);
    for i := 0 to |fields.found|
      invariant CheckFieldsFound(fields.found, allowed) == CheckFieldsFound(fields.found[i..], allowed)
    {
      assert fields.found[i..][1..] == fields.found[i + 1..];
      var value := fields.found[i].value;
      if value.Str? && value.s !in allowed {
        return Err(UnknownField(value.s));
      }
    }
    r := Ok(());
  }

  /** The preparation step by step, on a copy of the caller's dictionary. */
  method PrepareVegaLiteSpec(spec: Json, records: Json, allowed: set<string>, stamp: int -> string, start: int, end: int,
                             accepts: Json -> bool) returns (r: Result<Json, ChartError>)
    ensures r == Prepare(spec, records, allowed, stamp, start, end, accepts)
  {
    hide ValidateTimeRange, ValidateShape, ValidateDataSources, ValidateFields, AxisDefaults.NormalizeAxes, BoundedDimension;
    var checked := ValidateTimeRange(start, end);
    if checked.Err? {
      return Err(checked.error);
    }
    checked := ValidateShape(spec);
    if checked.Err? {
      return Err(checked.error);
    }
    checked := ValidateDataSourcesOf(spec);
    if checked.Err? {
      return Err(checked.error);
    }
    checked := ValidateFieldsOf(spec, allowed);
    if checked.Err? {
      return Err(checked.error);
    }
    ShapeMeansObject(spec);
    var prepared := spec.entries;
    prepared := Put(prepared, "width", Int(BoundedDimension(Get(prepared, "width"), DEFAULT_WIDTH, MAX_WIDTH)));
    prepared := Put(prepared, "height", Int(BoundedDimension(Get(prepared, "height"), DEFAULT_HEIGHT, MAX_HEIGHT)));
    WalkedIsObj(prepared, AxisDefaults.Defaults(stamp, start, end));
    prepared := AxisDefaults.NormalizeAxes(Obj(prepared), AxisDefaults.Defaults(stamp, start, end)).entries;
    prepared := Put(prepared, "background", Get(prepared, "background").GetOr(Str("white")));
    prepared := Put(prepared, "data", NAMED_DATA);
    prepared := Put(prepared, "datasets", Obj([Entry(DATASET, records)]));
    r := if accepts(Obj(prepared)) then Ok(Obj(prepared)) else Err(SchemaRejected);
  }

  lemma ShapeMeansObject(spec: Json)
    requires ValidateShape(spec).Ok?
    ensures spec.Obj?
  {
  }

  lemma WalkedIsObj(es: seq<Entry>, ds: seq<Entry>)
    ensures AxisDefaults.NormalizeAxes(Obj(es), ds).Obj?
  {
  }

  // ---- The default spec -------------------------------------------------------------

  datatype WeatherVariable =
    | Temperature | ApparentTemperature | Precipitation | PrecipitationProbability | Rain | Snowfall
    | CloudCover | WindSpeed | WindGusts | WindDirection | Pressure | Humidity | WeatherCode

  function FieldName(v: WeatherVariable): string {
    match v
    case Temperature => "temperature_2m_c"
    case ApparentTemperature => "apparent_temperature_c"
    case Precipitation => "precipitation_mm"
    case PrecipitationProbability => "precipitation_probability_pct"
    case Rain => "rain_mm"
    case Snowfall => "snowfall_cm"
    case CloudCover => "cloud_cover_pct"
    case WindSpeed => "wind_speed_10m_ms"
    case WindGusts => "wind_gusts_10m_ms"
    case WindDirection => "wind_direction_10m_deg"
    case Pressure => "pressure_msl_hpa"
    case Humidity => "relative_humidity_2m_pct"
    case WeatherCode => "weather_code"
  }

  predicate DrawnAsBar(v: WeatherVariable) {
    v == Precipitation || v == Rain || v == Snowfall
  }

  /** The Polish texts of a default chart. */
  datatype Wording = Wording(
    legend: WeatherVariable -> string,
    unit: WeatherVariable -> string,
    title: seq<WeatherVariable> -> string
  )

  function DefaultMark(v: WeatherVariable, dashed: bool): Json {
    if DrawnAsBar(v) then Obj([Entry("type", Str("bar")), Entry("opacity", Float(0.75))])
    else Obj([Entry("type", Str("line")), Entry("point", Bool(true))]
             + (if dashed then [Entry("strokeDash", Arr([Int(4), Int(3)]))] else []))
  }

  function Channel(field: string, kind: string, title: string): Json {
    Obj([Entry("field", Str(field)), Entry("type", Str(kind)), Entry("title", Str(title))])
  }

  function DefaultEncoding(words: Wording, v: WeatherVariable, color: bool): Json {
    Obj([Entry("x", Channel("time", "temporal", "Czas")),
         Entry("y", Channel(FieldName(v), "quantitative", words.unit(v))),
         Entry("tooltip", Arr([Channel("time", "temporal", "Czas"), Channel(FieldName(v), "quantitative", words.legend(v))]))]
        + (if color then [Entry("color", Obj([Entry("datum", Str(words.legend(v))), Entry("title", Str("Seria"))]))] else []))
  }

  function DefaultLayer(words: Wording, v: WeatherVariable, dashed: bool): Json {
    Obj([Entry("mark", DefaultMark(v, dashed)), Entry("encoding", DefaultEncoding(words, v, true))])
  }

  /** One layer per variable, in order; all but the first are dashed. */
  function DefaultLayers(words: Wording, vs: seq<WeatherVariable>, first: bool): seq<Json> {
    if vs == [] then [] else [DefaultLayer(words, vs[0], !first)] + DefaultLayers(words, vs[1..], false)
  }

  function Head(words: Wording, vs: seq<WeatherVariable>): seq<Entry> {
    [Entry("$schema", Str("https://vega.github.io/schema/vega-lite/v6.json")),
     Entry("title", Str(words.title(vs))),
     Entry("data", NAMED_DATA)]
  }

  function DefaultSpec(words: Wording, vs: seq<WeatherVariable>): Result<Json, ChartError> {
    if vs == [] then Err(NoVariables)
    else if |vs| == 1 then
      Ok(Obj(Head(words, vs) + [Entry("mark", DefaultMark(vs[0], false)),
                            Entry("encoding", DefaultEncoding(words, vs[0], false))]))
    else Ok(Obj(Head(words, vs) + [Entry("layer", Arr(DefaultLayers(words, vs, true)))]))
  }

  /** `{"time", *(variable.value ...)}`. */
  function AllowedFields(vs: seq<WeatherVariable>): set<string> {
    {"time"} + (set i | 0 <= i < |vs| :: FieldName(vs[i]))
  }
}
