/**
 * The zod object schema that describes a visualisation request: five required
 * physical inputs with ranges or an enum, four optional fields with an enum or
 * a range and a default, and passthrough of every other key.
 *
 * Parsing checks every field (zod reports all issues, not only the first) and,
 * when none fails, returns the input with the defaults filled in.
 */
module PlotlySchema {
  import opened Js

  const PostureValues: seq<string> :=
    ["sitting", "standing", "lying", "walking", "running", "right", "left", "center"]
  const VisualizationTypes: seq<string> := ["pressure_distribution", "stress_analysis", "deformation"]
  const ColorSchemes: seq<string> := ["viridis", "plasma", "inferno", "magma", "jet", "hot", "cool"]
  const OutputModes: seq<string> := ["image", "html", "both"]

  /** A number in [min, max] (inclusive, as zod's `min`/`max` are), or a string from a list. */
  datatype Rule =
    | Range(min: real, max: real, integer: bool)
    | OneOf(values: seq<string>)

  /** One key of the schema; `default` is set for the `.optional().default(...)` fields. */
  datatype FieldRule = FieldRule(key: string, rule: Rule, default: Option<Value>)

  const Fields: seq<FieldRule> := [
    FieldRule("youngs_modulus", Range(1000.0, 1000000000000.0, false), None),
    FieldRule("poisson_ratio", Range(0.0, 0.5, false), None),
    FieldRule("height", Range(100.0, 250.0, false), None),
    FieldRule("weight", Range(20.0, 300.0, false), None),
    FieldRule("posture", OneOf(PostureValues), None),
    FieldRule("visualization_type", OneOf(VisualizationTypes), Some(Str("pressure_distribution"))),
    FieldRule("grid_resolution", Range(10.0, 100.0, true), Some(Num(50.0))),
    FieldRule("color_scheme", OneOf(ColorSchemes), Some(Str("viridis"))),
    FieldRule("output_mode", OneOf(OutputModes), Some(Str("html")))
  ]

  predicate IsInteger(x: real)
  {
    x.Floor as real == x
  }

  predicate Satisfies(rule: Rule, v: Value)
  {
    match rule
    case Range(lo, hi, integer) => v.Num? && lo <= v.n <= hi && (integer ==> IsInteger(v.n))
    case OneOf(values) => v.Str? && v.s in values
  }

  /**
   * The value a field parses to: the given one, or its default when the key is
   * absent (`undefined`). `null` is a present value and gets no default.
   */
  function Resolved(f: FieldRule, obj: map<string, Value>): Option<Value>
  {
    if f.key in obj then Some(obj[f.key]) else f.default
  }

  predicate FieldOk(f: FieldRule, obj: map<string, Value>)
  {
    var v := Resolved(f, obj);
    v.Some? && Satisfies(f.rule, v.value)
  }

  /** The keys whose check fails, in schema order: the paths of zod's issues. */
  function FailedKeys(fields: seq<FieldRule>, obj: map<string, Value>): (r: seq<string>)
    ensures |r| <= |fields|
  {
    if fields == [] then []
    else (if FieldOk(fields[0], obj) then [] else [fields[0].key]) + FailedKeys(fields[1..], obj)
  }

  /** The parsed object: every key of the input kept, each schema key set to its parsed value. */
  function WithParsed(fields: seq<FieldRule>, obj: map<string, Value>): map<string, Value>
    requires forall i :: 0 <= i < |fields| ==> FieldOk(fields[i], obj)
  {
    if fields == [] then obj
    else
      assert FieldOk(fields[0], obj);
      WithParsed(fields[1..], obj)[fields[0].key := Resolved(fields[0], obj).value]
  }

  /** `PlotlyParamsSchema.safeParse(obj)`: the parsed object, or the keys of the failing fields. */
  function Parse(obj: map<string, Value>): Result<map<string, Value>, seq<string>>
  {
    var failed := FailedKeys(Fields, obj);
    if failed == [] then
      NoFailedKeys(Fields, obj);
      Ok(WithParsed(Fields, obj))
    else Err(failed)
  }

  lemma {:induction false} NoFailedKeys(fields: seq<FieldRule>, obj: map<string, Value>)
    ensures FailedKeys(fields, obj) == [] <==> forall i :: 0 <= i < |fields| ==> FieldOk(fields[i], obj)
  {
    if fields != [] {
      NoFailedKeys(fields[1..], obj);
      if FieldOk(fields[0], obj) {
        assert forall i :: 1 <= i < |fields| ==> fields[i] == fields[1..][i - 1];
      }
    }
  }

  /** A key is reported failing exactly when the field with that key fails its check. */
  lemma {:induction false} FailedKeysExact(fields: seq<FieldRule>, obj: map<string, Value>, k: string)
    ensures k in FailedKeys(fields, obj) <==> exists i :: 0 <= i < |fields| && fields[i].key == k && !FieldOk(fields[i], obj)
  {
    if fields != [] {
      FailedKeysExact(fields[1..], obj, k);
      if k in FailedKeys(fields[1..], obj) {
        var i :| 0 <= i < |fields[1..]| && fields[1..][i].key == k && !FieldOk(fields[1..][i], obj);
        assert fields[i + 1] == fields[1..][i];
      }
      if exists i :: 0 <= i < |fields| && fields[i].key == k && !FieldOk(fields[i], obj) {
        var i :| 0 <= i < |fields| && fields[i].key == k && !FieldOk(fields[i], obj);
        if i > 0 {
          assert fields[1..][i - 1] == fields[i];
        }
      }
    }
  }

  predicate DistinctKeys(fields: seq<FieldRule>)
  {
    forall i, j :: 0 <= i < j < |fields| ==> fields[i].key != fields[j].key
  }

  /** No two fields of the schema share a key: their lengths or first letters differ. */
  lemma FieldKeysDistinct()
    ensures DistinctKeys(Fields)
  {
    forall i, j | 0 <= i < j < |Fields| ensures Fields[i].key != Fields[j].key {
      assert |Fields[i].key| != |Fields[j].key| || Fields[i].key[0] != Fields[j].key[0];
    }
  }

  lemma {:induction false} WithParsedAt(fields: seq<FieldRule>, obj: map<string, Value>, i: nat)
    requires forall j :: 0 <= j < |fields| ==> FieldOk(fields[j], obj)
    requires DistinctKeys(fields)
    requires i < |fields|
    ensures fields[i].key in WithParsed(fields, obj)
    ensures WithParsed(fields, obj)[fields[i].key] == Resolved(fields[i], obj).value
  {
    if i > 0 {
      assert forall j :: 0 <= j < |fields[1..]| ==> fields[1..][j] == fields[j + 1];
      WithParsedAt(fields[1..], obj, i - 1);
    }
  }

  lemma {:induction false} WithParsedElsewhere(fields: seq<FieldRule>, obj: map<string, Value>, k: string)
    requires forall j :: 0 <= j < |fields| ==> FieldOk(fields[j], obj)
    requires forall j :: 0 <= j < |fields| ==> fields[j].key != k
    ensures (k in WithParsed(fields, obj)) == (k in obj)
    ensures k in obj ==> WithParsed(fields, obj)[k] == obj[k]
  {
    if fields != [] {
      assert forall j :: 0 <= j < |fields[1..]| ==> fields[1..][j] == fields[j + 1];
      WithParsedElsewhere(fields[1..], obj, k);
    }
  }

  /** Parsing succeeds exactly when every field passes, and otherwise names each failing key. */
  lemma ParseAcceptsExactly(obj: map<string, Value>)
    ensures Parse(obj).Ok? <==> forall i :: 0 <= i < |Fields| ==> FieldOk(Fields[i], obj)
    ensures Parse(obj).Err? ==> forall k :: k in Parse(obj).error <==>
              exists i :: 0 <= i < |Fields| && Fields[i].key == k && !FieldOk(Fields[i], obj)
  {
    NoFailedKeys(Fields, obj);
    forall k {
      FailedKeysExact(Fields, obj, k);
    }
  }

  /** What a successfully parsed request is guaranteed to hold, key by key. */
  lemma ParsedRequestInRange(obj: map<string, Value>)
    requires Parse(obj).Ok?
    ensures var out := Parse(obj).value;
      && "youngs_modulus" in out && out["youngs_modulus"].Num?
      && 1000.0 <= out["youngs_modulus"].n <= 1000000000000.0
      && "poisson_ratio" in out && out["poisson_ratio"].Num?
      && 0.0 <= out["poisson_ratio"].n <= 0.5
      && "height" in out && out["height"].Num? && 100.0 <= out["height"].n <= 250.0
      && "weight" in out && out["weight"].Num? && 20.0 <= out["weight"].n <= 300.0
      && "posture" in out && out["posture"].Str? && out["posture"].s in PostureValues
      && "visualization_type" in out && out["visualization_type"].Str?
      && out["visualization_type"].s in VisualizationTypes
      && "grid_resolution" in out && out["grid_resolution"].Num?
      && IsInteger(out["grid_resolution"].n) && 10.0 <= out["grid_resolution"].n <= 100.0
      && "color_scheme" in out && out["color_scheme"].Str? && out["color_scheme"].s in ColorSchemes
      && "output_mode" in out && out["output_mode"].Str? && out["output_mode"].s in OutputModes
  {
    ParsedField(obj, 0);
    assert Fields[0] == FieldRule("youngs_modulus", Range(1000.0, 1000000000000.0, false), None);
    ParsedField(obj, 1);
    assert Fields[1] == FieldRule("poisson_ratio", Range(0.0, 0.5, false), None);
    ParsedField(obj, 2);
    assert Fields[2] == FieldRule("height", Range(100.0, 250.0, false), None);
    ParsedField(obj, 3);
    assert Fields[3] == FieldRule("weight", Range(20.0, 300.0, false), None);
    ParsedField(obj, 4);
    assert Fields[4] == FieldRule("posture", OneOf(PostureValues), None);
    ParsedField(obj, 5);
    assert Fields[5] == FieldRule("visualization_type", OneOf(VisualizationTypes), Some(Str("pressure_distribution")));
    ParsedField(obj, 6);
    assert Fields[6] == FieldRule("grid_resolution", Range(10.0, 100.0, true), Some(Num(50.0)));
    ParsedField(obj, 7);
    assert Fields[7] == FieldRule("color_scheme", OneOf(ColorSchemes), Some(Str("viridis")));
    ParsedField(obj, 8);
    assert Fields[8] == FieldRule("output_mode", OneOf(OutputModes), Some(Str("html")));
  }

  /** The parsed value of one field is present and satisfies the field's rule. */
  lemma ParsedField(obj: map<string, Value>, i: nat)
    requires Parse(obj).Ok?
    requires i < |Fields|
    ensures FieldOk(Fields[i], obj)
    ensures var out := Parse(obj).value;
      && Fields[i].key in out && Satisfies(Fields[i].rule, out[Fields[i].key])
      && out[Fields[i].key] == Resolved(Fields[i], obj).value
  {
    NoFailedKeys(Fields, obj);
    FieldKeysDistinct();
    assert Parse(obj).value == WithParsed(Fields, obj);
    WithParsedAt(Fields, obj, i);
  }

  /** An absent optional key is filled with its default; a present one is kept as given. */
  lemma ParsedDefaults(obj: map<string, Value>)
    requires Parse(obj).Ok?
    ensures var out := Parse(obj).value;
      && "visualization_type" in out && out["visualization_type"] == (if "visualization_type" in obj then obj["visualization_type"] else Str("pressure_distribution"))
      && "grid_resolution" in out && out["grid_resolution"] == (if "grid_resolution" in obj then obj["grid_resolution"] else Num(50.0))
      && "color_scheme" in out && out["color_scheme"] == (if "color_scheme" in obj then obj["color_scheme"] else Str("viridis"))
      && "output_mode" in out && out["output_mode"] == (if "output_mode" in obj then obj["output_mode"] else Str("html"))
  {
    ParsedOptional(obj, 5);
    ParsedOptional(obj, 6);
    ParsedOptional(obj, 7);
    ParsedOptional(obj, 8);
  }

  /** The parsed value of one optional field: the given value, or the field's default. */
  lemma ParsedOptional(obj: map<string, Value>, i: nat)
    requires Parse(obj).Ok?
    requires 5 <= i < |Fields|
    ensures Fields[i].default.Some?
    ensures var out := Parse(obj).value; var key := Fields[i].key;
      && key in out && out[key] == (if key in obj then obj[key] else Fields[i].default.value)
  {
    ParsedField(obj, i);
  }

  /** `.passthrough()`: a key the schema does not name comes out exactly as it went in. */
  lemma PassthroughUnknownKeys(obj: map<string, Value>, k: string)
    requires Parse(obj).Ok?
    requires forall i :: 0 <= i < |Fields| ==> Fields[i].key != k
    ensures (k in Parse(obj).value) == (k in obj)
    ensures k in obj ==> Parse(obj).value[k] == obj[k]
  {
    NoFailedKeys(Fields, obj);
    WithParsedElsewhere(Fields, obj, k);
  }

  /** A posture outside the enum is a validation failure, not a fallback. */
  lemma UnknownPostureRejected(obj: map<string, Value>, posture: string)
    requires "posture" in obj && obj["posture"] == Str(posture)
    requires posture !in PostureValues
    ensures Parse(obj).Err? && "posture" in Parse(obj).error
  {
    assert !FieldOk(Fields[4], obj);
    FailedKeysExact(Fields, obj, "posture");
  }

  /** `.optional()` admits an absent key but not `null`: a null grid resolution is rejected. */
  lemma NullOptionalRejected(obj: map<string, Value>)
    requires "grid_resolution" in obj && obj["grid_resolution"] == Null
    ensures Parse(obj).Err? && "grid_resolution" in Parse(obj).error
  {
    assert !FieldOk(Fields[6], obj);
    FailedKeysExact(Fields, obj, "grid_resolution");
  }
}
