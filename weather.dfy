/** The weather snapshot and the normalisation of the provider's response
    into it (the lookups of `get_weather` in mcp_server.py). */
module Weather {
  import opened Wrappers
  import opened PyJson

  /** The normalised record: sixteen fields, each a copied JSON value or null. */
  datatype Snapshot = Snapshot(
    city: Json, region: Json, country: Json, localTime: Json,
    latitude: Json, longitude: Json,
    temperatureC: Json, feelslikeC: Json, humidity: Json, windKph: Json,
    windDir: Json, pressureMb: Json, uvIndex: Json, visibilityKm: Json,
    condition: Json, conditionIcon: Json)

  /** The record as the dict literal builds it: output keys in source order. */
  function Entries(w: Snapshot): Dict {
    [("city", w.city), ("region", w.region), ("country", w.country),
     ("local_time", w.localTime), ("latitude", w.latitude), ("longitude", w.longitude),
     ("temperature_c", w.temperatureC), ("feelslike_c", w.feelslikeC),
     ("humidity", w.humidity), ("wind_kph", w.windKph), ("wind_dir", w.windDir),
     ("pressure_mb", w.pressureMb), ("uv_index", w.uvIndex),
     ("visibility_km", w.visibilityKm), ("condition", w.condition),
     ("condition_icon", w.conditionIcon)]
  }

  /** Normalisation as the pull endpoint writes it. Each `:-` is a `.get` that
      raises when its receiver is not a dict; the order of the steps is
      Python's evaluation order. */
  function Normalize(data: Json): (r: Result<Snapshot, PyError>)
    // succeeds exactly on well-shaped input, else raises on the first non-dict receiver
    ensures r.Success? <==> WellShaped(data)
    ensures r.Failure? ==> r.error == NoAttributeGet(Offender(data))
    // on success the record is the table's: renamed keys, null where a key is absent
    ensures r.Success? ==> Entries(r.value) == TableRecord(data)
  {
    // Only the first `.get` on each receiver can raise: once it has returned,
    // the receiver is known to be a dict.
    var location :- GetOr(data, "location", EmptyObject);
    var current := DictGet(data.fields, "current", EmptyObject);
    var condition :- GetOr(current, "condition", EmptyObject);
    var city :- GetOr(location, "name", Null);
    var conditionText :- GetOr(condition, "text", Null);
    Success(Snapshot(
      city,
      DictGet(location.fields, "region", Null),
      DictGet(location.fields, "country", Null),
      DictGet(location.fields, "localtime", Null),
      DictGet(location.fields, "lat", Null),
      DictGet(location.fields, "lon", Null),
      DictGet(current.fields, "temp_c", Null),
      DictGet(current.fields, "feelslike_c", Null),
      DictGet(current.fields, "humidity", Null),
      DictGet(current.fields, "wind_kph", Null),
      DictGet(current.fields, "wind_dir", Null),
      DictGet(current.fields, "pressure_mb", Null),
      DictGet(current.fields, "uv", Null),
      DictGet(current.fields, "vis_km", Null),
      conditionText,
      DictGet(condition.fields, "icon", Null)))
  }

  // ---------------------------------------------------------------------------
  // An independent, declarative description of the same normalisation.

  /** A sub-object of `v`, `{}` when the key is absent (`v.get(key, {})`). */
  function Section(v: Json, key: string): Json {
    if v.Obj? && key in v.fields then v.fields[key] else EmptyObject
  }

  /** A leaf value of `v`, null when the key is absent (`v.get(key)`). */
  function Lookup(v: Json, key: string): Json {
    if v.Obj? && key in v.fields then v.fields[key] else Null
  }

  /** Follows a key path: intermediate keys default to `{}`, the last to null. */
  function Follow(v: Json, path: seq<string>): Json
    requires path != []
    decreases |path|
  {
    if |path| == 1 then Lookup(v, path[0]) else Follow(Section(v, path[0]), path[1..])
  }

  /** One output field: its key in the record and the path it is read from. */
  datatype Field = Field(output: string, path: seq<string>)

  /** The field table: output keys in record order, with their source paths. */
  const FieldTable: seq<Field> := [
    Field("city", ["location", "name"]),
    Field("region", ["location", "region"]),
    Field("country", ["location", "country"]),
    Field("local_time", ["location", "localtime"]),
    Field("latitude", ["location", "lat"]),
    Field("longitude", ["location", "lon"]),
    Field("temperature_c", ["current", "temp_c"]),
    Field("feelslike_c", ["current", "feelslike_c"]),
    Field("humidity", ["current", "humidity"]),
    Field("wind_kph", ["current", "wind_kph"]),
    Field("wind_dir", ["current", "wind_dir"]),
    Field("pressure_mb", ["current", "pressure_mb"]),
    Field("uv_index", ["current", "uv"]),
    Field("visibility_km", ["current", "vis_km"]),
    Field("condition", ["current", "condition", "text"]),
    Field("condition_icon", ["current", "condition", "icon"])
  ]

  /** The record the table describes for `data`. */
  function TableRecord(data: Json): Dict {
    seq(|FieldTable|, i requires 0 <= i < |FieldTable| =>
      (FieldTable[i].output, Follow(data, FieldTable[i].path)))
  }

  /** The source keys whose output name differs, paired with that name. */
  const Renamings: set<(string, string)> := {
    ("name", "city"), ("localtime", "local_time"), ("lat", "latitude"),
    ("lon", "longitude"), ("temp_c", "temperature_c"), ("uv", "uv_index"),
    ("vis_km", "visibility_km"), ("text", "condition"), ("icon", "condition_icon")
  }

  /** The input has a shape the lookups accept: a dict whose `location` and
      `current` (and `current.condition`) are each absent or a dict. */
  predicate WellShaped(data: Json) {
    data.Obj? &&
    Section(data, "location").Obj? &&
    Section(data, "current").Obj? &&
    Section(Section(data, "current"), "condition").Obj?
  }

  /** The value whose `.get` raises first on an input that is not well shaped:
      `current.get` on line 51 runs before any `location.get` in the literal. */
  function Offender(data: Json): Json
    requires !WellShaped(data)
  {
    if !data.Obj? then data
    else if !Section(data, "current").Obj? then Section(data, "current")
    else if !Section(data, "location").Obj? then Section(data, "location")
    else Section(Section(data, "current"), "condition")
  }

  /** Input without one top-level key. */
  function Without(data: Json, key: string): (r: Json)
    requires data.Obj?
    ensures r.Obj? && key !in r.fields
  {
    Obj(data.fields - {key})
  }

  // ---------------------------------------------------------------------------
  // Properties of Normalize.

  /** The source key a field is read from: the last key of its path. */
  function SourceKey(f: Field): string
    requires f.path != []
  {
    f.path[|f.path| - 1]
  }

  /** The renaming is fixed: a field's output key differs from its source key
      exactly for the nine listed pairs; every other key keeps its name. */
  lemma FieldTableRenamings()
    ensures forall i :: 0 <= i < |FieldTable| ==>
              (FieldTable[i].path != [] &&
               (FieldTable[i].output != SourceKey(FieldTable[i]) <==>
                (SourceKey(FieldTable[i]), FieldTable[i].output) in Renamings))
    ensures forall p :: p in Renamings ==>
              exists i :: 0 <= i < |FieldTable| && FieldTable[i].path != [] &&
                          (SourceKey(FieldTable[i]), FieldTable[i].output) == p
  {
    forall p | p in Renamings
      ensures exists i :: 0 <= i < |FieldTable| && FieldTable[i].path != [] &&
                          (SourceKey(FieldTable[i]), FieldTable[i].output) == p
    {
      var i := if p == ("name", "city") then 0
               else if p == ("localtime", "local_time") then 3
               else if p == ("lat", "latitude") then 4
               else if p == ("lon", "longitude") then 5
               else if p == ("temp_c", "temperature_c") then 6
               else if p == ("uv", "uv_index") then 12
               else if p == ("vis_km", "visibility_km") then 13
               else if p == ("text", "condition") then 14
               else 15;
      assert (SourceKey(FieldTable[i]), FieldTable[i].output) == p;
    }
  }

  /** Dropping `location` nulls exactly the six location fields. */
  lemma AbsentLocationNullsLocationFields(data: Json)
    requires data.Obj? && Normalize(data).Success?
    ensures Normalize(Without(data, "location")) ==
            Success(Normalize(data).value.(city := Null, region := Null, country := Null,
                                           localTime := Null, latitude := Null, longitude := Null))
  {
  }

  /** Dropping `current` nulls exactly the ten current and condition fields. */
  lemma AbsentCurrentNullsCurrentFields(data: Json)
    requires data.Obj? && Normalize(data).Success?
    ensures Normalize(Without(data, "current")) ==
            Success(Normalize(data).value.(temperatureC := Null, feelslikeC := Null, humidity := Null,
                                           windKph := Null, windDir := Null, pressureMb := Null,
                                           uvIndex := Null, visibilityKm := Null,
                                           condition := Null, conditionIcon := Null))
  {
  }

  /** Input with `condition` removed from its `current` dict; unchanged when
      `current` is absent or not a dict. */
  function WithoutCondition(data: Json): (r: Json)
    requires data.Obj?
    ensures r.Obj? && (Section(r, "current").Obj? ==> "condition" !in Section(r, "current").fields)
    ensures r.fields.Keys == data.fields.Keys
  {
    if "current" in data.fields && data.fields["current"].Obj? then
      Obj(data.fields["current" := Without(data.fields["current"], "condition")])
    else data
  }

  /** Dropping `current.condition` nulls exactly the two condition fields. */
  lemma AbsentConditionNullsConditionFields(data: Json)
    requires data.Obj? && Normalize(data).Success?
    ensures Normalize(WithoutCondition(data)) ==
            Success(Normalize(data).value.(condition := Null, conditionIcon := Null))
  {
  }

  // ---------------------------------------------------------------------------
  // A worked example.

  /** A provider response with some keys missing. */
  const JakartaResponse: Json := Obj(map[
    "location" := Obj(map[
      "name" := Str("Jakarta"), "region" := Str("Jakarta"),
      "country" := Str("Indonesia"), "localtime" := Str("2024-01-01 12:00")]),
    "current" := Obj(map[
      "temp_c" := Num("30"),
      "condition" := Obj(map["text" := Str("Sunny"), "icon" := Str("//x/icon.png")])])])

  /** Present keys are copied under their output names, missing ones are null. */
  lemma JakartaExample()
    ensures Normalize(JakartaResponse).Success?
    ensures var w := Normalize(JakartaResponse).value;
            w.city == Str("Jakarta") && w.localTime == Str("2024-01-01 12:00") &&
            w.temperatureC == Num("30") && w.condition == Str("Sunny") &&
            w.conditionIcon == Str("//x/icon.png") &&
            w.humidity == Null && w.windKph == Null && w.latitude == Null
  {
  }
}
