/** The default chart spec passes every check made on a caller's spec. */
module ChartDefaults {
  import Durations
  import opened Wrappers
  import opened Json
  import TimeAxes
  import opened ChartSpec
  import ChartLaws

  const INLINE_KEYS: set<string> := {"data", "url", "values", "datasets"}

  // ---- Harmless parts ---------------------------------------------------------------

  /** Nothing in the tree concerns the checks, except allowed fields. */
  ghost predicate Harmless(j: Json, allowed: set<string>) {
    match j
    case Obj(es) => forall i :: 0 <= i < |es| ==> HarmlessKey(es[i], allowed) && Harmless(es[i].value, allowed)
    case Arr(items) => forall i :: 0 <= i < |items| ==> Harmless(items[i], allowed)
    case _ => true
  }

  ghost predicate HarmlessKey(e: Entry, allowed: set<string>) {
    && e.key !in INLINE_KEYS && e.key != "transform"
    && (e.key == "field" && e.value.Str? ==> e.value.s in allowed)
  }

  ghost predicate AllowedField(f: Found, key: string, allowed: set<string>) {
    key == "field" && (f.value.Str? ==> f.value.s in allowed)
  }

  ghost predicate Searched(key: string) {
    key in INLINE_KEYS || key == "field"
  }

  lemma {:induction false} HarmlessFinds(j: Json, allowed: set<string>, key: string, path: seq<string>, f: Found)
    requires Harmless(j, allowed) && Searched(key) && f in FindKeyValues(j, key, path)
    ensures AllowedField(f, key, allowed)
    decreases j
  {
    match j
    case Obj(es) =>
      var i := FoundInEntry(es, key, path, f);
      if f in FindKeyValues(es[i].value, key, path + [es[i].key]) {
        HarmlessFinds(es[i].value, allowed, key, path + [es[i].key], f);
      }
    case Arr(items) =>
      var i := FoundInItem(items, key, path, 0, f);
      HarmlessFinds(items[i], allowed, key, path + [Text.IntText(i)], f);
  }

  lemma {:induction false} HarmlessHasNoTransform(j: Json, allowed: set<string>)
    requires Harmless(j, allowed)
    ensures !KeyAnywhere(j, "transform")
    decreases j, 1
  {
    match j
    case Obj(es) =>
      GetMeaning(es, "transform");
      NoTransformInEntries(es, allowed);
    case Arr(items) => NoTransformInItems(items, allowed);
    case _ =>
  }

  lemma {:induction false} NoTransformInEntries(es: seq<Entry>, allowed: set<string>)
    requires forall i :: 0 <= i < |es| ==> Harmless(es[i].value, allowed)
    ensures !KeyInEntries(es, "transform")
    decreases es, 0
  {
    if es != [] {
      HarmlessHasNoTransform(es[0].value, allowed);
      NoTransformInEntries(es[1..], allowed);
    }
  }

  lemma {:induction false} NoTransformInItems(items: seq<Json>, allowed: set<string>)
    requires forall i :: 0 <= i < |items| ==> Harmless(items[i], allowed)
    ensures !KeyInItems(items, "transform")
    decreases items, 0
  {
    if items != [] {
      HarmlessHasNoTransform(items[0], allowed);
      NoTransformInItems(items[1..], allowed);
    }
  }

  // ---- The parts of the default spec ------------------------------------------------

  lemma MarkIsHarmless(v: WeatherVariable, dashed: bool, allowed: set<string>)
    ensures Harmless(DefaultMark(v, dashed), allowed)
  {
  }

  lemma ChannelIsHarmless(field: string, kind: string, title: string, allowed: set<string>)
    requires field in allowed
    ensures Harmless(Channel(field, kind, title), allowed)
  {
  }

  lemma EncodingIsHarmless(words: Wording, v: WeatherVariable, color: bool, allowed: set<string>)
    requires "time" in allowed && FieldName(v) in allowed
    ensures Harmless(DefaultEncoding(words, v, color), allowed)
  {
    hide Channel, FieldName;
    ChannelIsHarmless("time", "temporal", "Czas", allowed);
    ChannelIsHarmless(FieldName(v), "quantitative", words.unit(v), allowed);
    ChannelIsHarmless(FieldName(v), "quantitative", words.legend(v), allowed);
    var tooltip := Arr([Channel("time", "temporal", "Czas"), Channel(FieldName(v), "quantitative", words.legend(v))]);
    assert Harmless(tooltip, allowed);
    assert Harmless(Obj([Entry("datum", Str(words.legend(v))), Entry("title", Str("Seria"))]), allowed);
  }

  lemma {:induction false} LayersAreHarmless(words: Wording, vs: seq<WeatherVariable>, first: bool, allowed: set<string>)
    requires "time" in allowed && forall i :: 0 <= i < |vs| ==> FieldName(vs[i]) in allowed
    ensures Harmless(Arr(DefaultLayers(words, vs, first)), allowed)
  {
    if vs != [] {
      hide DefaultMark, DefaultEncoding, FieldName;
      MarkIsHarmless(vs[0], !first, allowed);
      EncodingIsHarmless(words, vs[0], true, allowed);
      LayersAreHarmless(words, vs[1..], false, allowed);
    }
  }

  // ---- The whole default spec -------------------------------------------------------

  /** A root entry names the data set or is harmless. */
  ghost predicate RootEntry(e: Entry, allowed: set<string>) {
    e == Entry("data", NAMED_DATA) || (HarmlessKey(e, allowed) && Harmless(e.value, allowed))
  }

  ghost predicate RootFound(f: Found, key: string, allowed: set<string>) {
    (key == "data" && f == Found(["data"], NAMED_DATA)) || AllowedField(f, key, allowed)
  }

  lemma RootFinds(es: seq<Entry>, allowed: set<string>, key: string, f: Found)
    requires forall i :: 0 <= i < |es| ==> RootEntry(es[i], allowed)
    requires Searched(key) && f in FindKeyValues(Obj(es), key)
    ensures RootFound(f, key, allowed)
  {
    var i := FoundInEntry(es, key, [], f);
    if f in FindKeyValues(es[i].value, key, [] + [es[i].key]) {
      assert Harmless(es[i].value, allowed);
      HarmlessFinds(es[i].value, allowed, key, [] + [es[i].key], f);
    }
  }

  lemma RootPassesChecks(es: seq<Entry>, allowed: set<string>)
    requires forall i :: 0 <= i < |es| ==> RootEntry(es[i], allowed)
    ensures ValidateDataSources(Obj(es)).Ok? && ValidateFields(Obj(es), allowed).Ok?
    ensures !KeyAnywhere(Obj(es), "transform")
  {
    hide FindKeyValues;
    var spec := Obj(es);
    forall key, f | Searched(key) && f in FindKeyValues(spec, key) ensures RootFound(f, key, allowed) {
      RootFinds(es, allowed, key, f);
    }
    var data, fields := FindKeyValues(spec, "data"), FindKeyValues(spec, "field");
    assert Searched("data") && Searched("field");
    assert forall i :: 0 <= i < |data| ==> RootFound(data[i], "data", allowed);
    assert forall i :: 0 <= i < |fields| ==> RootFound(fields[i], "field", allowed);
    ChartLaws.DataFoundAtTop(data);
    ChartLaws.FieldsFoundAllowed(fields, allowed);
    forall key | key in INLINE_KEYS && key != "data" ensures FindKeyValues(spec, key) == [] {
      var found := FindKeyValues(spec, key);
      assert |found| > 0 ==> RootFound(found[0], key, allowed);
    }
    GetMeaning(es, "transform");
    NoTransformInEntries(es, allowed);
  }

  lemma DefaultRootEntries(words: Wording, vs: seq<WeatherVariable>, i: nat)
    requires vs != [] && i < |DefaultSpec(words, vs).value.entries|
    ensures RootEntry(DefaultSpec(words, vs).value.entries[i], AllowedFields(vs))
  {
    hide DefaultMark, DefaultEncoding, FieldName, Harmless;
    var allowed := AllowedFields(vs);
    assert FieldName(vs[0]) in allowed;
    MarkIsHarmless(vs[0], false, allowed);
    EncodingIsHarmless(words, vs[0], false, allowed);
    LayersAreHarmless(words, vs, true, allowed);
    TextIsHarmless("https://vega.github.io/schema/vega-lite/v6.json", allowed);
    TextIsHarmless(words.title(vs), allowed);
  }

  lemma TextIsHarmless(s: string, allowed: set<string>)
    ensures Harmless(Str(s), allowed)
  {
  }

  lemma DefaultShape(words: Wording, vs: seq<WeatherVariable>)
    requires vs != [] && !KeyAnywhere(DefaultSpec(words, vs).value, "transform")
    ensures ValidateShape(DefaultSpec(words, vs).value).Ok?
  {
    hide DefaultMark, DefaultEncoding, DefaultLayers, KeyAnywhere, Get;
    var es := DefaultSpec(words, vs).value.entries;
    forall k | k in TOP_LEVEL_DISALLOWED ensures !Has(es, k) {
      GetMeaning(es, k);
    }
    GetMeaning(es, "mark");
    GetMeaning(es, "layer");
    assert es[3].key == if |vs| == 1 then "mark" else "layer";
  }

  /**
    Without variables there is no default spec.  For any non-empty list of variables, of any
    length and with repeats, the default spec passes the checks when those variables are the
    requested ones: preparing it can fail only on the time range or in the schema validation.
   */
  lemma DefaultSpecIsAccepted(words: Wording, vs: seq<WeatherVariable>)
    ensures vs == [] ==> DefaultSpec(words, vs) == Err(NoVariables)
    ensures vs != [] ==>
              && DefaultSpec(words, vs).Ok?
              && var spec := DefaultSpec(words, vs).value;
              && ValidateShape(spec).Ok?
              && ValidateDataSources(spec).Ok?
              && ValidateFields(spec, AllowedFields(vs)).Ok?
  {
    hide DefaultMark, DefaultEncoding, DefaultLayers, ValidateShape, ValidateDataSources, ValidateFields;
    if vs != [] {
      var es := DefaultSpec(words, vs).value.entries;
      forall i | 0 <= i < |es| ensures RootEntry(es[i], AllowedFields(vs)) {
        DefaultRootEntries(words, vs, i);
      }
      RootPassesChecks(es, AllowedFields(vs));
      DefaultShape(words, vs);
    }
  }

  lemma DefaultSpecFailsOnlyOnRangeOrSchema(words: Wording, vs: seq<WeatherVariable>, records: Json,
                                            stamp: int -> string, start: int, end: int, accepts: Json -> bool)
    requires vs != []
    ensures var r := Prepare(DefaultSpec(words, vs).value, records, AllowedFields(vs), stamp, start, end, accepts);
            && (r == Err(StartAfterEnd) <==> end < start)
            && (r == Err(RangeTooLong) <==> end - start > MAX_DAYS * Durations.DAY)
            && (r.Err? ==> r.error in {StartAfterEnd, RangeTooLong, SchemaRejected})
  {
    hide DefaultSpec, ValidateShape, ValidateDataSources, ValidateFields;
    DefaultSpecIsAccepted(words, vs);
  }

  // ---- What the default chart shows -------------------------------------------------

  lemma {:induction false} LayerAt(words: Wording, vs: seq<WeatherVariable>, first: bool, i: nat)
    requires i < |vs|
    ensures |DefaultLayers(words, vs, first)| == |vs|
    ensures DefaultLayers(words, vs, first)[i] == DefaultLayer(words, vs[i], !(first && i == 0))
  {
    hide DefaultLayer;
    if i > 0 {
      LayerAt(words, vs[1..], false, i - 1);
    } else if |vs| > 1 {
      LayerAt(words, vs[1..], false, 0);
    } else {
      assert DefaultLayers(words, vs[1..], false) == [];
    }
  }

  function MarkOf(j: Json): Option<Json> {
    Step(j, Key("mark"))
  }

  function ChannelOf(j: Json, channel: string): Option<Json> {
    match Step(j, Key("encoding"))
    case None => None
    case Some(encoding) => Step(encoding, Key(channel))
  }

  /** The part of the default spec that draws the `i`-th variable: the root itself, or layer `i`. */
  function DrawingPart(spec: Json, n: nat, i: nat): Option<Json> {
    if n == 1 then Some(spec)
    else
      match Step(spec, Key("layer"))
      case None => None
      case Some(layers) => Step(layers, Index(i))
  }

  /** The channel shows this field of this kind under this title. */
  predicate Shows(channel: Json, field: string, kind: string, title: string) {
    && Step(channel, Key("field")) == Some(Str(field))
    && Step(channel, Key("type")) == Some(Str(kind))
    && Step(channel, Key("title")) == Some(Str(title))
  }

  /** Half-transparent bars for amounts, otherwise a line with points; a dashed line has dashes of 4 and gaps of 3. */
  predicate MarksAs(mark: Json, v: WeatherVariable, dashed: bool) {
    var bar := v in {Precipitation, Rain, Snowfall};
    && Step(mark, Key("type")) == Some(Str(if bar then "bar" else "line"))
    && (bar ==> Step(mark, Key("opacity")) == Some(Float(0.75)))
    && (!bar ==> Step(mark, Key("point")) == Some(Bool(true)))
    && Step(mark, Key("strokeDash")) == (if dashed && !bar then Some(Arr([Int(4), Int(3)])) else None)
  }

  /** The tooltip shows the time and then the variable. */
  predicate Tells(tooltip: Json, words: Wording, v: WeatherVariable) {
    && tooltip.Arr? && |tooltip.items| == 2
    && Shows(tooltip.items[0], "time", "temporal", "Czas")
    && Shows(tooltip.items[1], FieldName(v), "quantitative", words.legend(v))
  }

  /** Time on x, the variable on y and in the tooltip, and among several variables a colour of its own in the legend. */
  predicate Draws(part: Json, words: Wording, v: WeatherVariable, dashed: bool, several: bool) {
    && MarkOf(part).Some? && MarksAs(MarkOf(part).value, v, dashed)
    && ChannelOf(part, "x").Some? && Shows(ChannelOf(part, "x").value, "time", "temporal", "Czas")
    && ChannelOf(part, "y").Some? && Shows(ChannelOf(part, "y").value, FieldName(v), "quantitative", words.unit(v))
    && ChannelOf(part, "tooltip").Some? && Tells(ChannelOf(part, "tooltip").value, words, v)
    && ChannelOf(part, "color")
       == if several then Some(Obj([Entry("datum", Str(words.legend(v))), Entry("title", Str("Seria"))])) else None
  }

  lemma ChannelShows(field: string, kind: string, title: string)
    ensures Shows(Channel(field, kind, title), field, kind, title)
  {
    var es := Channel(field, kind, title).entries;
    GetUnique(es, 0);
    GetUnique(es, 1);
    GetUnique(es, 2);
  }

  lemma MarkDraws(v: WeatherVariable, dashed: bool)
    ensures MarksAs(DefaultMark(v, dashed), v, dashed)
  {
    var es := DefaultMark(v, dashed).entries;
    GetUnique(es, 0);
    GetUnique(es, 1);
    if dashed && !DrawnAsBar(v) {
      GetUnique(es, 2);
    } else {
      GetMeaning(es, "strokeDash");
    }
  }

  lemma EncodingDraws(words: Wording, v: WeatherVariable, color: bool)
    ensures var encoding := DefaultEncoding(words, v, color);
            && Step(encoding, Key("x")) == Some(Channel("time", "temporal", "Czas"))
            && Step(encoding, Key("y")) == Some(Channel(FieldName(v), "quantitative", words.unit(v)))
            && Step(encoding, Key("tooltip")) == Some(Arr([Channel("time", "temporal", "Czas"),
                                                         Channel(FieldName(v), "quantitative", words.legend(v))]))
            && Step(encoding, Key("color"))
               == if color then Some(Obj([Entry("datum", Str(words.legend(v))), Entry("title", Str("Seria"))])) else None
  {
    hide Channel;
    var es := DefaultEncoding(words, v, color).entries;
    GetUnique(es, 0);
    GetUnique(es, 1);
    GetUnique(es, 2);
    if color {
      GetUnique(es, 3);
    } else {
      GetMeaning(es, "color");
    }
  }

  lemma PartDraws(words: Wording, v: WeatherVariable, dashed: bool, several: bool, part: Json)
    requires Step(part, Key("mark")) == Some(DefaultMark(v, dashed))
    requires Step(part, Key("encoding")) == Some(DefaultEncoding(words, v, several))
    ensures Draws(part, words, v, dashed, several)
  {
    hide DefaultMark, DefaultEncoding, Channel, Step, FieldName, Shows, MarksAs;
    MarkDraws(v, dashed);
    EncodingDraws(words, v, several);
    ChannelShows("time", "temporal", "Czas");
    ChannelShows(FieldName(v), "quantitative", words.unit(v));
    ChannelShows(FieldName(v), "quantitative", words.legend(v));
  }

  lemma LayerSteps(words: Wording, v: WeatherVariable, dashed: bool)
    ensures Step(DefaultLayer(words, v, dashed), Key("mark")) == Some(DefaultMark(v, dashed))
    ensures Step(DefaultLayer(words, v, dashed), Key("encoding")) == Some(DefaultEncoding(words, v, true))
  {
    hide DefaultMark, DefaultEncoding;
    GetUnique(DefaultLayer(words, v, dashed).entries, 0);
    GetUnique(DefaultLayer(words, v, dashed).entries, 1);
  }

  lemma RootEntryAt(words: Wording, vs: seq<WeatherVariable>, i: nat)
    requires vs != [] && i < |DefaultSpec(words, vs).value.entries|
    ensures var es := DefaultSpec(words, vs).value.entries; Get(es, es[i].key) == Some(es[i].value)
  {
    hide DefaultMark, DefaultEncoding, DefaultLayers;
    GetUnique(DefaultSpec(words, vs).value.entries, i);
  }

  /**
    The default spec draws every variable, in order: each has its part with time on x and its own
    field on y, as bars or as a line, and every line but the first variable's is dashed; several
    variables are layers with a colour each.
   */
  lemma DefaultSpecDrawsEveryVariable(words: Wording, vs: seq<WeatherVariable>, i: nat)
    requires i < |vs|
    ensures var part := DrawingPart(DefaultSpec(words, vs).value, |vs|, i);
            part.Some? && Draws(part.value, words, vs[i], i > 0, |vs| > 1)
    ensures Step(DefaultSpec(words, vs).value, Key("title")) == Some(Str(words.title(vs)))
    ensures |vs| > 1 ==>
              && Step(DefaultSpec(words, vs).value, Key("layer")).Some?
              && Step(DefaultSpec(words, vs).value, Key("layer")).value.Arr?
              && |Step(DefaultSpec(words, vs).value, Key("layer")).value.items| == |vs|
  {
    hide DefaultMark, DefaultEncoding, DefaultLayers, DefaultLayer, Draws, Get;
    var spec := DefaultSpec(words, vs).value;
    RootEntryAt(words, vs, 1);
    RootEntryAt(words, vs, 3);
    if |vs| == 1 {
      RootEntryAt(words, vs, 4);
      PartDraws(words, vs[0], false, false, spec);
    } else {
      LayerAt(words, vs, true, i);
      LayerSteps(words, vs[i], i > 0);
      PartDraws(words, vs[i], i > 0, true, DefaultLayers(words, vs, true)[i]);
    }
  }
}
