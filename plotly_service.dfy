/**
 * The pressure-distribution visualisation service: the `||` defaults of a
 * request, the pressure field over an n×n grid on [-1,1]², the three plot
 * modes derived from it (pressure, principal stress, deformation) with their
 * colour ranges, and the decision of which URLs the response carries.
 *
 * Numbers are reals. `Math.pow` (the Du Bois exponents) and `Math.sqrt` are
 * oracles in `MathLib`; the lemmas that need them to behave like the real
 * functions say so with `PowPositive` and `SqrtSound`. The HTML page text,
 * base64 encoding, the S3 upload and the clock are fields of `Environment`.
 */
module PlotlyService {
  import opened Js
  import PlotlySchema

  /** `Math.pow` and `Math.sqrt` as the model sees them: functions it does not fix. */
  datatype MathLib = MathLib(pow: (real, real) -> real, sqrt: real -> real)

  /** A positive base to any power is positive, as for the real power function. */
  ghost predicate PowPositive(m: MathLib)
  {
    forall a, b :: a > 0.0 ==> m.pow(a, b) > 0.0
  }

  /**
   * The square root of a non-negative number is non-negative and at most 1
   * exactly when the number is. (IEEE `Math.sqrt` also rounds a value one unit
   * above 1 down to 1, which this ideal form leaves out.)
   */
  ghost predicate SqrtSound(m: MathLib)
  {
    forall r :: 0.0 <= r ==> 0.0 <= m.sqrt(r) && (m.sqrt(r) <= 1.0 <==> r <= 1.0)
  }

  // ---------------------------------------------------------------------------
  // Requests and their defaults

  /** The parameters `executeVisualization` receives; `None` is `undefined`. */
  datatype VisualizationParams = VisualizationParams(
    youngsModulus: real,
    poissonRatio: real,
    height: real,
    weight: real,
    posture: string,
    visualizationType: Option<string>,
    gridResolution: Option<int>,
    colorScheme: Option<string>,
    outputMode: Option<string>,
    debug: bool)

  /** The parameters after the defaults have been applied. */
  datatype ProcessedParams = ProcessedParams(
    youngsModulus: real,
    poissonRatio: real,
    height: real,
    weight: real,
    posture: string,
    visualizationType: string,
    gridResolution: int,
    colorScheme: string,
    outputMode: string)

  /** `s || d` for an optional string: `undefined` and `""` give way to `d`. */
  function StringOr(s: Option<string>, d: string): string
  {
    if s.Some? && s.value != "" then s.value else d
  }

  /** `n || d` for an optional number: `undefined` and `0` give way to `d`. */
  function NumberOr(n: Option<int>, d: int): int
  {
    if n.Some? && n.value != 0 then n.value else d
  }

  function ApplyDefaults(p: VisualizationParams): ProcessedParams
  {
    ProcessedParams(
      p.youngsModulus, p.poissonRatio, p.height, p.weight, p.posture,
      StringOr(p.visualizationType, "pressure_distribution"),
      NumberOr(p.gridResolution, 50),
      StringOr(p.colorScheme, "viridis"),
      StringOr(p.outputMode, "html"))
  }

  /** A processed request handed back in as a request, every optional field given. */
  function AsRequest(p: ProcessedParams, debug: bool): VisualizationParams
  {
    VisualizationParams(
      p.youngsModulus, p.poissonRatio, p.height, p.weight, p.posture,
      Some(p.visualizationType), Some(p.gridResolution), Some(p.colorScheme), Some(p.outputMode), debug)
  }

  /**
   * Falsy values are replaced, not only missing ones: `""` and `0` take the
   * default like `undefined` does; any other value is kept, and the five
   * required fields pass through unchanged. Every default is
   * itself truthy, so applying the defaults a second time changes nothing.
   */
  lemma DefaultsReplaceFalsy(p: VisualizationParams)
    ensures var r := ApplyDefaults(p);
      && (p.visualizationType.None? || p.visualizationType == Some("") ==> r.visualizationType == "pressure_distribution")
      && (p.gridResolution.None? || p.gridResolution == Some(0) ==> r.gridResolution == 50)
      && (p.colorScheme.None? || p.colorScheme == Some("") ==> r.colorScheme == "viridis")
      && (p.outputMode.None? || p.outputMode == Some("") ==> r.outputMode == "html")
      && (p.visualizationType.Some? && p.visualizationType.value != "" ==> r.visualizationType == p.visualizationType.value)
      && (p.gridResolution.Some? && p.gridResolution.value != 0 ==> r.gridResolution == p.gridResolution.value)
      && (p.colorScheme.Some? && p.colorScheme.value != "" ==> r.colorScheme == p.colorScheme.value)
      && (p.outputMode.Some? && p.outputMode.value != "" ==> r.outputMode == p.outputMode.value)
      && r.youngsModulus == p.youngsModulus && r.poissonRatio == p.poissonRatio
      && r.height == p.height && r.weight == p.weight && r.posture == p.posture
      && r.visualizationType != "" && r.gridResolution != 0 && r.colorScheme != "" && r.outputMode != ""
      && ApplyDefaults(AsRequest(r, p.debug)) == r
  {
  }

  // ---------------------------------------------------------------------------
  // Postures

  /** A posture's share of body surface in contact, and its pressure multiplier. */
  datatype PostureProfile = PostureProfile(fraction: real, multiplier: real)

  /** The `default:` branch: the sitting fraction, but multiplier 1.0 rather than 1.2. */
  const FallbackProfile := PostureProfile(0.15, 1.0)

  function Profile(posture: string): PostureProfile
  {
    match posture
    case "sitting" => PostureProfile(0.15, 1.2)
    case "standing" => PostureProfile(0.08, 1.5)
    case "lying" => PostureProfile(0.35, 0.8)
    case "walking" => PostureProfile(0.05, 2.0)
    case "running" => PostureProfile(0.03, 3.0)
    case "right" => PostureProfile(0.2, 0.9)
    case "left" => PostureProfile(0.2, 0.9)
    case "center" => PostureProfile(0.25, 1.0)
    case _ => FallbackProfile
  }

  /**
   * The properties every object literal inherits from `Object.prototype`. A
   * lookup `names[posture]` on a literal finds these too.
   */
  const ObjectPrototypeKeys: seq<string> := [
    "constructor", "__defineGetter__", "__defineSetter__", "hasOwnProperty",
    "__lookupGetter__", "__lookupSetter__", "isPrototypeOf", "propertyIsEnumerable",
    "toString", "valueOf", "__proto__", "toLocaleString"]

  /**
   * The text an inherited property becomes in a template literal: `__proto__`
   * is `Object.prototype` itself, `constructor` is the `Object` function, and
   * every other key is a built-in method, printed the way V8 prints native code.
   */
  function InheritedText(key: string): (r: string)
    ensures r != key
  {
    if key == "__proto__" then "[object Object]"
    else if key == "constructor" then "function Object() { [native code] }"
    else "function " + key + "() { [native code] }"
  }

  /**
   * `getPostureDisplayName`: `postureNames[posture] || posture`. The Chinese
   * name of a known posture; an inherited property of the literal, rendered as
   * text; otherwise the input itself.
   */
  function DisplayName(posture: string): string
  {
    match posture
    case "sitting" => "坐姿"
    case "standing" => "站立"
    case "lying" => "躺卧"
    case "walking" => "行走"
    case "running" => "跑步"
    case "right" => "右侧卧"
    case "left" => "左侧卧"
    case "center" => "中心姿势"
    case _ => if posture in ObjectPrototypeKeys then InheritedText(posture) else posture
  }

  /**
   * The posture switch and the schema's enum name the same eight postures: a
   * posture is in the enum exactly when it has its own profile. The display
   * lookup also answers for the inherited keys of an object literal, so a
   * posture is shown under another name exactly when it is in the enum or is
   * one of those keys. Every profile is positive.
   */
  lemma PostureTablesAgree(posture: string)
    ensures posture in PlotlySchema.PostureValues <==> Profile(posture) != FallbackProfile
    ensures posture in PlotlySchema.PostureValues || posture in ObjectPrototypeKeys <==> DisplayName(posture) != posture
    ensures Profile(posture).fraction > 0.0 && Profile(posture).multiplier > 0.0
  {
    if posture in ObjectPrototypeKeys {
      assert posture !in PlotlySchema.PostureValues;
    }
  }

  /**
   * An unknown posture is not rejected: it gets fraction 0.15 and multiplier
   * 1.0, unlike sitting. It is displayed under its own name, unless it is an
   * inherited key of the name table, which shows that property's text.
   */
  lemma UnknownPostureFallback(posture: string)
    requires posture !in PlotlySchema.PostureValues
    ensures Profile(posture) == PostureProfile(0.15, 1.0)
    ensures Profile(posture).fraction == Profile("sitting").fraction
    ensures Profile(posture).multiplier != Profile("sitting").multiplier
    ensures DisplayName(posture) == (if posture in ObjectPrototypeKeys then InheritedText(posture) else posture)
  {
  }

  /** Three inherited keys, as the page title shows them. */
  lemma InheritedPostureTitles()
    ensures DisplayName("constructor") == "function Object() { [native code] }"
    ensures DisplayName("toString") == "function toString() { [native code] }"
    ensures DisplayName("__proto__") == "[object Object]"
  {
    ConstructorTitle();
    ToStringTitle();
    ProtoTitle();
  }

  lemma ConstructorTitle()
    ensures DisplayName("constructor") == "function Object() { [native code] }"
  {
    assert ObjectPrototypeKeys[0] == "constructor";
  }

  lemma ToStringTitle()
    ensures DisplayName("toString") == "function toString() { [native code] }"
  {
    var t := "toString";
    assert |t| == 8 && t[0] == 't';
    assert t !in PlotlySchema.PostureValues;
    assert ObjectPrototypeKeys[8] == t;
    UnknownPostureFallback(t);
    ToStringText();
  }

  lemma ToStringText()
    ensures InheritedText("toString") == "function toString() { [native code] }"
  {
  }

  lemma ProtoTitle()
    ensures DisplayName("__proto__") == "[object Object]"
  {
    assert ObjectPrototypeKeys[10] == "__proto__";
  }

  // ---------------------------------------------------------------------------
  // The pressure field

  /** Du Bois body surface area, in m², from height in cm and weight in kg. */
  function BodySurfaceArea(height: real, weight: real, m: MathLib): real
  {
    0.007184 * m.pow(weight, 0.425) * m.pow(height / 100.0, 0.725)
  }

  function ContactArea(p: ProcessedParams, m: MathLib): real
  {
    BodySurfaceArea(p.height, p.weight, m) * Profile(p.posture).fraction
  }

  function BasePressure(p: ProcessedParams, m: MathLib): real
    requires ContactArea(p, m) != 0.0
  {
    p.weight * 9.81 / ContactArea(p, m)
  }

  function MaterialFactor(p: ProcessedParams): real
    requires 1.0 - p.poissonRatio * p.poissonRatio != 0.0
  {
    p.youngsModulus / (1.0 - p.poissonRatio * p.poissonRatio)
  }

  /**
   * The field is a real-valued function of the request when none of its
   * divisions is by zero: `n - 1` in the grid normalisation (n = 1 gives NaN
   * coordinates in the source), the contact area, and `1 - ν²`.
   */
  predicate FieldDefined(p: ProcessedParams, m: MathLib)
  {
    p.gridResolution != 1 && ContactArea(p, m) != 0.0 && 1.0 - p.poissonRatio * p.poissonRatio != 0.0
  }

  /** The i-th of n evenly spaced coordinates from -1 to 1. */
  function AxisCoord(i: int, n: int): real
    requires n != 1
  {
    (i as real / (n - 1) as real) * 2.0 - 1.0
  }

  /** The pressure at grid point (x, y): zero unless its distance from the centre is at most 1. */
  function PressureAt(p: ProcessedParams, m: MathLib, x: real, y: real): real
    requires FieldDefined(p, m)
  {
    var distance := m.sqrt(x * x + y * y);
    if distance <= 1.0 then
      var stressConcentration := 1.0 + (1.0 - distance) * 0.5;
      BasePressure(p, m) * Profile(p.posture).multiplier * stressConcentration * (MaterialFactor(p) / 1000000000.0)
    else 0.0
  }

  /** The number of rows (and columns) the loops visit: none when n is not positive. */
  function Rows(n: int): nat
  {
    if n <= 0 then 0 else n
  }

  /** The index of grid point (i, j) in row-major order. */
  function Cell(i: int, j: int, n: int): int
  {
    i * n + j
  }

  /** Columns 0 .. j-1 of row i: the x coordinate stays x_i. */
  function XRow(i: int, n: int, j: nat): seq<real>
    requires n != 1
  {
    seq(j, _ => AxisCoord(i, n))
  }

  /** Columns 0 .. j-1 of any row: y_0 .. y_{j-1}. */
  function YRow(n: int, j: nat): seq<real>
    requires n != 1
  {
    seq(j, jj => AxisCoord(jj, n))
  }

  /** Columns 0 .. j-1 of row i: the pressure at (x_i, y_jj). */
  function ZRow(p: ProcessedParams, m: MathLib, i: int, j: nat): seq<real>
    requires FieldDefined(p, m)
  {
    seq(j, jj => PressureAt(p, m, AxisCoord(i, p.gridResolution), AxisCoord(jj, p.gridResolution)))
  }

  /** The x coordinates of rows 0 .. i-1. */
  function GridXs(i: nat, n: int): seq<real>
    requires n != 1 && (i == 0 || n > 0)
    decreases i
  {
    if i == 0 then [] else GridXs(i - 1, n) + XRow(i - 1, n, n)
  }

  /** The y coordinates of rows 0 .. i-1. */
  function GridYs(i: nat, n: int): seq<real>
    requires n != 1 && (i == 0 || n > 0)
    decreases i
  {
    if i == 0 then [] else GridYs(i - 1, n) + YRow(n, n)
  }

  /** The pressures of rows 0 .. i-1. */
  function GridZs(p: ProcessedParams, m: MathLib, i: nat): seq<real>
    requires FieldDefined(p, m) && (i == 0 || p.gridResolution > 0)
    decreases i
  {
    if i == 0 then [] else GridZs(p, m, i - 1) + ZRow(p, m, i - 1, p.gridResolution)
  }

  datatype PressureField = PressureField(
    x: seq<real>, y: seq<real>, z: seq<real>, contactArea: real, basePressure: real)

  /** The field as a function of the request: the n×n grid in row-major order. */
  function Field(p: ProcessedParams, m: MathLib): PressureField
    requires FieldDefined(p, m)
  {
    var rows := Rows(p.gridResolution);
    PressureField(
      GridXs(rows, p.gridResolution), GridYs(rows, p.gridResolution), GridZs(p, m, rows),
      ContactArea(p, m), BasePressure(p, m))
  }

  lemma MulAtLeast(a: int, n: int)
    requires a >= 1 && n >= 1
    ensures a * n >= n
  {
    assert a * n == (a - 1) * n + n;
  }

  /**
   * The first i rows hold i·n points each, and point a·n + b of them is
   * (x_a, y_b) with the pressure there.
   */
  lemma {:induction false} GridAt(p: ProcessedParams, m: MathLib, i: nat, a: int, b: int)
    requires FieldDefined(p, m) && (i == 0 || p.gridResolution > 0)
    requires 0 <= a < i && 0 <= b < p.gridResolution
    ensures var n := p.gridResolution; var k := Cell(a, b, n);
      && |GridXs(i, n)| == |GridYs(i, n)| == |GridZs(p, m, i)| == i * n
      && 0 <= k < i * n
      && GridXs(i, n)[k] == AxisCoord(a, n) && GridYs(i, n)[k] == AxisCoord(b, n)
      && GridZs(p, m, i)[k] == PressureAt(p, m, AxisCoord(a, n), AxisCoord(b, n))
    decreases i
  {
    var n := p.gridResolution;
    GridLength(p, m, i);
    GridLength(p, m, i - 1);
    assert (i - 1) * n + n == i * n;
    if a < i - 1 {
      GridAt(p, m, i - 1, a, b);
    } else {
      assert Cell(a, b, n) == (i - 1) * n + b;
      if a > 0 {
        MulAtLeast(a, n);
      }
    }
  }

  lemma {:induction false} GridLength(p: ProcessedParams, m: MathLib, i: nat)
    requires FieldDefined(p, m) && (i == 0 || p.gridResolution > 0)
    ensures var n := p.gridResolution;
      |GridXs(i, n)| == |GridYs(i, n)| == |GridZs(p, m, i)| == i * n
    decreases i
  {
    if i > 0 {
      GridLength(p, m, i - 1);
      assert (i - 1) * p.gridResolution + p.gridResolution == i * p.gridResolution;
    }
  }

  /** Pushing column j onto row i extends each of the three row sequences by one point. */
  lemma RowsGrow(p: ProcessedParams, m: MathLib, i: int, j: nat)
    requires FieldDefined(p, m)
    ensures var n := p.gridResolution;
      && XRow(i, n, j + 1) == XRow(i, n, j) + [AxisCoord(i, n)]
      && YRow(n, j + 1) == YRow(n, j) + [AxisCoord(j, n)]
      && ZRow(p, m, i, j + 1) == ZRow(p, m, i, j) + [PressureAt(p, m, AxisCoord(i, n), AxisCoord(j, n))]
  {
    var n := p.gridResolution;
    assert XRow(i, n, j + 1) == XRow(i, n, j) + [AxisCoord(i, n)];
    assert YRow(n, j + 1) == YRow(n, j) + [AxisCoord(j, n)];
    assert ZRow(p, m, i, j + 1) == ZRow(p, m, i, j) + [PressureAt(p, m, AxisCoord(i, n), AxisCoord(j, n))];
  }

  /**
   * `calculatePressureDistribution`: the contact area and base pressure, then
   * the nested loop that pushes one point per (i, j), row by row. The
   * coordinate and pressure expressions of the loop body are `AxisCoord` and
   * `PressureAt`.
   */
  method CalculatePressureDistribution(p: ProcessedParams, m: MathLib) returns (f: PressureField)
    requires FieldDefined(p, m)
    ensures f == Field(p, m)
  {
    var contactArea := ContactArea(p, m);
    var basePressure := p.weight * 9.81 / contactArea;

    var n := p.gridResolution;
    var xs: seq<real>, ys: seq<real>, zs: seq<real> := [], [], [];
    var i := 0;
    while i < n
      invariant 0 <= i && (n > 0 ==> i <= n) && (i == 0 || n > 0)
      invariant xs == GridXs(i, n) && ys == GridYs(i, n) && zs == GridZs(p, m, i)
    {
      var j := 0;
      while j < n
        invariant 0 <= j <= n
        invariant xs == GridXs(i, n) + XRow(i, n, j)
        invariant ys == GridYs(i, n) + YRow(n, j)
        invariant zs == GridZs(p, m, i) + ZRow(p, m, i, j)
      {
        var xVal := AxisCoord(i, n);
        var yVal := AxisCoord(j, n);
        var pressure := PressureAt(p, m, xVal, yVal);
        RowsGrow(p, m, i, j);
        xs, ys, zs := xs + [xVal], ys + [yVal], zs + [pressure];
        j := j + 1;
      }
      i := i + 1;
    }
    f := PressureField(xs, ys, zs, contactArea, basePressure);
  }

  /** The field has one point per grid cell in each of its three parallel arrays. */
  lemma FieldShape(p: ProcessedParams, m: MathLib)
    requires FieldDefined(p, m)
    ensures var f := Field(p, m); var r := Rows(p.gridResolution);
      |f.x| == r * r && |f.y| == r * r && |f.z| == r * r
  {
    GridLength(p, m, Rows(p.gridResolution));
  }

  /** Point i·n + j of the field is (x_i, y_j) with the pressure there. */
  lemma FieldAtCell(p: ProcessedParams, m: MathLib, i: int, j: int)
    requires FieldDefined(p, m)
    requires 0 <= i < p.gridResolution && 0 <= j < p.gridResolution
    ensures var f := Field(p, m); var n := p.gridResolution; var k := Cell(i, j, n);
      && 0 <= k < |f.z| && |f.x| == |f.y| == |f.z| == n * n
      && f.x[k] == AxisCoord(i, n) && f.y[k] == AxisCoord(j, n)
      && f.z[k] == PressureAt(p, m, AxisCoord(i, n), AxisCoord(j, n))
  {
    GridAt(p, m, p.gridResolution, i, j);
  }

  /** The coordinates run evenly, in steps of 2/(n-1), from x_0 = -1 to x_{n-1} = 1. */
  lemma AxisEndpoints(n: int)
    requires n >= 2
    ensures AxisCoord(0, n) == -1.0 && AxisCoord(n - 1, n) == 1.0
    ensures forall i :: 0 <= i < n - 1 ==> AxisCoord(i + 1, n) - AxisCoord(i, n) == 2.0 / (n - 1) as real
    ensures forall i :: 0 <= i < n ==> -1.0 <= AxisCoord(i, n) <= 1.0
  {
    var d := (n - 1) as real;
    forall i | 0 <= i < n - 1
      ensures AxisCoord(i + 1, n) - AxisCoord(i, n) == 2.0 / d
    {
      assert (i + 1) as real / d == i as real / d + 1.0 / d;
    }
    forall i | 0 <= i < n
      ensures -1.0 <= AxisCoord(i, n) <= 1.0
    {
      assert 0.0 <= i as real / d <= 1.0;
    }
  }

  /** The pressure at the rim of the contact disk, where the stress concentration is 1. */
  function EdgePressure(p: ProcessedParams, m: MathLib): real
    requires FieldDefined(p, m)
  {
    BasePressure(p, m) * Profile(p.posture).multiplier * (MaterialFactor(p) / 1000000000.0)
  }

  /**
   * The pressure at a point is zero once its distance from the centre exceeds
   * 1 — for an ideal square root, exactly when x² + y² > 1 — and inside the
   * disk it is the rim pressure scaled by a stress concentration that rises
   * linearly from 1 at the rim to 1.5 at the centre.
   */
  lemma PressureAtValue(p: ProcessedParams, m: MathLib, x: real, y: real)
    requires FieldDefined(p, m)
    ensures m.sqrt(x * x + y * y) > 1.0 ==> PressureAt(p, m, x, y) == 0.0
    ensures SqrtSound(m) && x * x + y * y > 1.0 ==> PressureAt(p, m, x, y) == 0.0
    ensures SqrtSound(m) && x * x + y * y <= 1.0 && EdgePressure(p, m) >= 0.0 ==>
      EdgePressure(p, m) <= PressureAt(p, m, x, y) <= 1.5 * EdgePressure(p, m)
  {
    var r2 := x * x + y * y;
    assert r2 >= 0.0 by {
      assert x * x >= 0.0 && y * y >= 0.0;
    }
    var d := m.sqrt(r2);
    if SqrtSound(m) {
      assert 0.0 <= d && (d <= 1.0 <==> r2 <= 1.0);
    }
    if d <= 1.0 {
      var c := 1.0 + (1.0 - d) * 0.5;
      var e := EdgePressure(p, m);
      var b := BasePressure(p, m) * Profile(p.posture).multiplier;
      var f := MaterialFactor(p) / 1000000000.0;
      assert PressureAt(p, m, x, y) == b * c * f;
      assert b * c * f == e * c;
      if SqrtSound(m) && e >= 0.0 {
        assert 1.0 <= c <= 1.5;
        ProductNonNegative(e, c - 1.0);
        ProductNonNegative(e, 1.5 - c);
      }
    }
  }

  /** The same, for every point of the field. */
  lemma FieldValue(p: ProcessedParams, m: MathLib, i: int, j: int)
    requires FieldDefined(p, m)
    requires 0 <= i < p.gridResolution && 0 <= j < p.gridResolution
    ensures var f := Field(p, m); var k := Cell(i, j, p.gridResolution);
      var x := AxisCoord(i, p.gridResolution); var y := AxisCoord(j, p.gridResolution);
      && 0 <= k < |f.z| && |f.x| == |f.y| == |f.z| && f.x[k] == x && f.y[k] == y
      && (SqrtSound(m) && x * x + y * y > 1.0 ==> f.z[k] == 0.0)
      && (SqrtSound(m) && x * x + y * y <= 1.0 && EdgePressure(p, m) >= 0.0 ==>
            EdgePressure(p, m) <= f.z[k] <= 1.5 * EdgePressure(p, m))
  {
    FieldAtCell(p, m, i, j);
    PressureAtValue(p, m, AxisCoord(i, p.gridResolution), AxisCoord(j, p.gridResolution));
  }

  /** The request ranges the schema enforces. */
  predicate InSchemaRanges(p: ProcessedParams)
  {
    && 1000.0 <= p.youngsModulus <= 1000000000000.0
    && 0.0 <= p.poissonRatio <= 0.5
    && 100.0 <= p.height <= 250.0
    && 20.0 <= p.weight <= 300.0
    && p.posture in PlotlySchema.PostureValues
    && p.visualizationType in PlotlySchema.VisualizationTypes
    && 10 <= p.gridResolution <= 100
    && p.colorScheme in PlotlySchema.ColorSchemes
    && p.outputMode in PlotlySchema.OutputModes
  }

  /** For 0 ≤ ν ≤ 0.5 the denominator 1 - ν² lies in [0.75, 1]. */
  lemma PoissonDenominator(nu: real)
    requires 0.0 <= nu <= 0.5
    ensures 0.75 <= 1.0 - nu * nu <= 1.0
  {
    assert nu * nu <= 0.5 * nu by {
      assert nu * (0.5 - nu) >= 0.0;
    }
  }

  lemma ContactAreaPositive(p: ProcessedParams, m: MathLib)
    requires PowPositive(m) && p.height > 0.0 && p.weight > 0.0
    ensures ContactArea(p, m) > 0.0
  {
    var a := m.pow(p.weight, 0.425);
    var b := m.pow(p.height / 100.0, 0.725);
    assert a > 0.0 && b > 0.0;
    assert 0.007184 * a * b > 0.0;
    PostureTablesAgree(p.posture);
  }

  /** Division of positive reals is positive. */
  lemma QuotientPositive(a: real, b: real)
    requires a > 0.0 && b > 0.0
    ensures a / b > 0.0
  {
  }

  lemma ProductNonNegative(a: real, b: real)
    requires a >= 0.0 && b >= 0.0
    ensures a * b >= 0.0
  {
  }

  /** Every pressure of the first i rows is non-negative when the rim pressure is. */
  lemma {:induction false} GridZsNonNegative(p: ProcessedParams, m: MathLib, i: nat)
    requires FieldDefined(p, m) && (i == 0 || p.gridResolution > 0)
    requires SqrtSound(m) && EdgePressure(p, m) >= 0.0
    ensures forall k :: 0 <= k < |GridZs(p, m, i)| ==> GridZs(p, m, i)[k] >= 0.0
    decreases i
  {
    if i > 0 {
      GridZsNonNegative(p, m, i - 1);
      var n := p.gridResolution;
      forall j | 0 <= j < n
        ensures PressureAt(p, m, AxisCoord(i - 1, n), AxisCoord(j, n)) >= 0.0
      {
        PressureAtValue(p, m, AxisCoord(i - 1, n), AxisCoord(j, n));
      }
    }
  }

  /** For inputs in the schema's ranges no division of the field is by zero, and no pressure is negative. */
  lemma FieldNonNegative(p: ProcessedParams, m: MathLib)
    requires InSchemaRanges(p) && PowPositive(m) && SqrtSound(m)
    ensures FieldDefined(p, m)
    ensures EdgePressure(p, m) > 0.0
    ensures forall k :: 0 <= k < |Field(p, m).z| ==> Field(p, m).z[k] >= 0.0
  {
    ContactAreaPositive(p, m);
    PoissonDenominator(p.poissonRatio);
    PostureTablesAgree(p.posture);
    QuotientPositive(p.weight * 9.81, ContactArea(p, m));
    QuotientPositive(p.youngsModulus, 1.0 - p.poissonRatio * p.poissonRatio);
    var b := BasePressure(p, m) * Profile(p.posture).multiplier;
    assert b > 0.0;
    QuotientPositive(MaterialFactor(p), 1000000000.0);
    assert EdgePressure(p, m) > 0.0;
    GridZsNonNegative(p, m, Rows(p.gridResolution));
  }

  /**
   * With the same height and weight, walking has a smaller contact area and a
   * larger base pressure than lying.
   */
  lemma WalkingConcentratesPressure(walking: ProcessedParams, lying: ProcessedParams, m: MathLib)
    requires PowPositive(m) && walking.height > 0.0 && walking.weight > 0.0
    requires walking.posture == "walking" && lying.posture == "lying"
    requires lying.height == walking.height && lying.weight == walking.weight
    ensures 0.0 < ContactArea(walking, m) < ContactArea(lying, m)
    ensures BasePressure(walking, m) > BasePressure(lying, m)
  {
    ContactAreaPositive(walking, m);
    var bsa := BodySurfaceArea(walking.height, walking.weight, m);
    var a := ContactArea(walking, m);
    var b := ContactArea(lying, m);
    assert a == bsa * 0.05 && b == bsa * 0.35;
    var w := walking.weight * 9.81;
    assert w / a == 7.0 * (w / b) by {
      assert b == 7.0 * a;
    }
  }

  // ---------------------------------------------------------------------------
  // Plot modes and colour ranges

  /** `Math.min(0, ...vals)` */
  function MinWithZero(vals: seq<real>): (r: real)
    ensures r <= 0.0
    ensures forall k :: 0 <= k < |vals| ==> r <= vals[k]
    ensures r == 0.0 || r in vals
  {
    if vals == [] then 0.0
    else
      var rest := MinWithZero(vals[1..]);
      if vals[0] < rest then vals[0] else rest
  }

  /** `Math.max(...vals)`; `None` is the `-Infinity` of an empty argument list. */
  function MaxOf(vals: seq<real>): (r: Option<real>)
    ensures r.None? <==> vals == []
    ensures r.Some? ==> r.value in vals && forall k :: 0 <= k < |vals| ==> vals[k] <= r.value
  {
    if vals == [] then None
    else
      var rest := MaxOf(vals[1..]);
      if rest.None? || vals[0] > rest.value then Some(vals[0]) else rest
  }

  /** A colour range that always includes 0 and spans every value of the field. */
  predicate IsColorRange(vals: seq<real>, zmin: real, zmax: Option<real>)
  {
    && zmin <= 0.0
    && (forall k :: 0 <= k < |vals| ==> zmin <= vals[k])
    && (zmin == 0.0 || zmin in vals)
    && (zmax.None? <==> vals == [])
    && (zmax.Some? ==> zmax.value in vals && forall k :: 0 <= k < |vals| ==> vals[k] <= zmax.value)
  }

  /** The heatmap trace and the title of the layout; annotation texts are not modelled. */
  datatype Plot = Plot(
    x: seq<real>, y: seq<real>, z: seq<real>,
    colorScale: string, zmin: real, zmax: Option<real>, title: string)

  /** `generatePressureDistributionPlot`: the pressure field as it is. */
  function PressureDistributionPlot(f: PressureField, p: ProcessedParams): (r: Plot)
    ensures r.x == f.x && r.y == f.y && r.z == f.z && r.colorScale == p.colorScheme
    ensures IsColorRange(r.z, r.zmin, r.zmax)
    ensures r.title == "压力分布可视化 - " + DisplayName(p.posture)
  {
    Plot(f.x, f.y, f.z, p.colorScheme, MinWithZero(f.z), MaxOf(f.z), "压力分布可视化 - " + DisplayName(p.posture))
  }

  /** `Math.pow(v, 2)`; it is only ever applied to 0 here, where pow is exact. */
  function Square(v: real): real
  {
    v * v
  }

  /**
   * The first principal stress of the tensor with σxx = σyy = p(1+ν) and
   * σxy = pν. The two normal stresses are equal, so the result is
   * p(1+ν) + sqrt((pν)²).
   */
  function PrincipalStress(z: seq<real>, nu: real, m: MathLib): (r: seq<real>)
    ensures |r| == |z|
    ensures forall k :: 0 <= k < |z| ==> r[k] == PrincipalStressAt(z[k], nu, m)
  {
    seq(|z|, k requires 0 <= k < |z| => PrincipalStressAt(z[k], nu, m))
  }

  /**
   * One point of the stress arrays: σxx = σyy = p(1+ν), σxy = pν. The two
   * normal stresses are equal, so the first principal stress is p(1+ν) + sqrt((pν)²).
   */
  function PrincipalStressAt(pressure: real, nu: real, m: MathLib): (r: real)
    ensures r == pressure * (1.0 + nu) + m.sqrt(Square(pressure * nu))
  {
    var stressXX := pressure * (1.0 + nu);
    var stressYY := pressure * (1.0 + nu);
    var stressXY := pressure * nu;
    assert Square((stressXX - stressYY) / 2.0) + stressXY * stressXY == Square(stressXY);
    (stressXX + stressYY) / 2.0 + m.sqrt(Square((stressXX - stressYY) / 2.0) + stressXY * stressXY)
  }

  /** A square root that is exact on squares of non-negative numbers. */
  ghost predicate SqrtExact(m: MathLib)
  {
    forall a :: a >= 0.0 ==> m.sqrt(Square(a)) == a
  }

  /** With an exact square root, a non-negative pressure p gives principal stress p(1 + 2ν). */
  lemma PrincipalStressExactSqrt(z: seq<real>, nu: real, m: MathLib, k: int)
    requires SqrtExact(m)
    requires nu >= 0.0 && 0 <= k < |z| && z[k] >= 0.0
    ensures PrincipalStress(z, nu, m)[k] == z[k] * (1.0 + 2.0 * nu)
  {
    assert z[k] * nu >= 0.0;
    assert m.sqrt(Square(z[k] * nu)) == z[k] * nu;
  }

  /** `generateStressAnalysisPlot`: the principal stress over the same grid. */
  function StressAnalysisPlot(f: PressureField, p: ProcessedParams, m: MathLib): (r: Plot)
    ensures r.x == f.x && r.y == f.y && r.colorScale == p.colorScheme
    ensures |r.z| == |f.z|
    ensures forall k :: 0 <= k < |f.z| ==>
      r.z[k] == PrincipalStressAt(f.z[k], p.poissonRatio, m)
    ensures IsColorRange(r.z, r.zmin, r.zmax)
    ensures r.title == "应力分析 - " + DisplayName(p.posture)
  {
    var stress := PrincipalStress(f.z, p.poissonRatio, m);
    Plot(f.x, f.y, stress, p.colorScheme, MinWithZero(stress), MaxOf(stress), "应力分析 - " + DisplayName(p.posture))
  }

  /** Strain p/E in millimetres: (p / E) · 1000. */
  function DeformationOf(z: seq<real>, youngsModulus: real): (r: seq<real>)
    requires youngsModulus != 0.0
    ensures |r| == |z|
  {
    seq(|z|, k requires 0 <= k < |z| => (z[k] / youngsModulus) * 1000.0)
  }

  /**
   * For a positive modulus the deformation is zero exactly where the pressure
   * is zero, has the pressure's sign, and preserves the order of the points.
   */
  lemma DeformationFollowsPressure(z: seq<real>, youngsModulus: real, k: int, l: int)
    requires youngsModulus > 0.0 && 0 <= k < |z| && 0 <= l < |z|
    ensures var d := DeformationOf(z, youngsModulus);
      && (d[k] == 0.0 <==> z[k] == 0.0)
      && (d[k] > 0.0 <==> z[k] > 0.0)
      && (z[k] <= z[l] <==> d[k] <= d[l])
  {
    var d := DeformationOf(z, youngsModulus);
    var c := 1000.0 / youngsModulus;
    assert c * youngsModulus == 1000.0;
    assert c > 0.0;
    assert d[k] == z[k] * c && d[l] == z[l] * c;
    ScalingKeepsOrder(z[k], z[l], c);
    ScalingKeepsOrder(z[k], 0.0, c);
    ScalingKeepsOrder(0.0, z[k], c);
  }

  /** Multiplying by a positive constant keeps the order of two values. */
  lemma ScalingKeepsOrder(a: real, b: real, c: real)
    requires c > 0.0
    ensures a <= b <==> a * c <= b * c
  {
    assert b * c - a * c == (b - a) * c;
    if a > b {
      assert (a - b) * c > 0.0;
    }
  }

  /** `generateDeformationPlot`: the strain-based deformation over the same grid. */
  function DeformationPlot(f: PressureField, p: ProcessedParams): (r: Plot)
    requires p.youngsModulus != 0.0
    ensures r.x == f.x && r.y == f.y && r.colorScale == p.colorScheme
    ensures |r.z| == |f.z| && forall k :: 0 <= k < |f.z| ==> r.z[k] == f.z[k] / p.youngsModulus * 1000.0
    ensures IsColorRange(r.z, r.zmin, r.zmax)
    ensures r.title == "变形分析 - " + DisplayName(p.posture)
  {
    var deformation := DeformationOf(f.z, p.youngsModulus);
    Plot(f.x, f.y, deformation, p.colorScheme, MinWithZero(deformation), MaxOf(deformation),
         "变形分析 - " + DisplayName(p.posture))
  }

  // ---------------------------------------------------------------------------
  // Dispatch and output

  datatype PlotKind = PressureDistribution | StressAnalysis | Deformation

  /** The `switch` on `visualization_type`; anything unrecognised draws the pressure plot. */
  function KindOf(visualizationType: string): PlotKind
  {
    match visualizationType
    case "stress_analysis" => StressAnalysis
    case "deformation" => Deformation
    case _ => PressureDistribution
  }

  /** The chosen plot is a real-valued function of the request (the deformation also divides by E). */
  predicate PlotDefined(p: ProcessedParams, m: MathLib)
  {
    FieldDefined(p, m) && (KindOf(p.visualizationType) == Deformation ==> p.youngsModulus != 0.0)
  }

  /** The plot a processed request draws. */
  function PlotFor(p: ProcessedParams, m: MathLib): Plot
    requires PlotDefined(p, m)
  {
    var f := Field(p, m);
    match KindOf(p.visualizationType)
    case PressureDistribution => PressureDistributionPlot(f, p)
    case StressAnalysis => StressAnalysisPlot(f, p, m)
    case Deformation => DeformationPlot(f, p)
  }

  /** Each named type draws its own plot; every other string draws the pressure plot. */
  lemma DispatchByType(p: ProcessedParams, m: MathLib)
    requires PlotDefined(p, m)
    ensures p.visualizationType == "stress_analysis" ==> PlotFor(p, m) == StressAnalysisPlot(Field(p, m), p, m)
    ensures p.visualizationType == "deformation" ==> PlotFor(p, m) == DeformationPlot(Field(p, m), p)
    ensures p.visualizationType !in ["stress_analysis", "deformation"] ==>
      PlotFor(p, m) == PressureDistributionPlot(Field(p, m), p)
  {
  }

  /** Requests inside the schema's ranges always have a defined plot. */
  lemma SchemaRangesDefinePlot(p: ProcessedParams, m: MathLib)
    requires InSchemaRanges(p) && PowPositive(m)
    ensures PlotDefined(p, m)
  {
    ContactAreaPositive(p, m);
    PoissonDenominator(p.poissonRatio);
  }

  /** What the service needs from outside: configuration and the I/O it performs. */
  datatype Environment = Environment(
    s3Enabled: bool,                   // the S3 helper was configured and constructed
    render: Plot -> string,            // generatePlotHTML with the interactive config
    base64: string -> string,          // Buffer.from(html).toString('base64')
    upload: string -> Option<string>,  // S3 uploadFile: the URL, or None when it throws
    requestId: string)                 // Date.now().toString()

  function DataUrl(base64: string): string
  {
    "data:text/html;base64," + base64
  }

  /**
   * Where a page ends up: the uploaded URL when S3 is enabled and the upload
   * succeeds, otherwise an inline data URL, which never fails.
   */
  function PublishedHtmlUrl(env: Environment, html: string): (r: string)
    ensures env.s3Enabled && env.upload(html).Some? ==> r == env.upload(html).value
    ensures !(env.s3Enabled && env.upload(html).Some?) ==> r == DataUrl(env.base64(html))
    ensures !(env.s3Enabled && env.upload(html) == Some("")) ==> r != ""
  {
    if env.s3Enabled then
      match env.upload(html)
      case Some(url) => url
      case None => DataUrl(env.base64(html))
    else DataUrl(env.base64(html))
  }

  /** `generatePlotImage`: static images are not supported, so there is never an image. */
  function GeneratePlotImage(plot: Plot): (r: Option<string>)
    ensures r.None?
  {
    None
  }

  datatype VisualizationResult = VisualizationResult(
    requestId: string,
    status: string,
    visualizationType: string,
    imageUrl: Option<string>,
    htmlUrl: Option<string>,
    parameters: ProcessedParams,
    plotData: Option<Plot>)

  predicate ProducesPage(outputMode: string)
  {
    outputMode == "html" || outputMode == "both" || outputMode == "image"
  }

  /** `executeVisualization` */
  method ExecuteVisualization(params: VisualizationParams, m: MathLib, env: Environment)
    returns (r: VisualizationResult)
    requires PlotDefined(ApplyDefaults(params), m)
    ensures r.status == "completed" && r.requestId == env.requestId
    ensures r.parameters == ApplyDefaults(params) && r.visualizationType == r.parameters.visualizationType
    ensures r.imageUrl.None?
    ensures ProducesPage(r.parameters.outputMode) ==>
      r.htmlUrl == Some(PublishedHtmlUrl(env, env.render(PlotFor(r.parameters, m))))
    ensures !ProducesPage(r.parameters.outputMode) ==> r.htmlUrl.None?
    ensures r.plotData == (if params.debug then Some(PlotFor(r.parameters, m)) else None)
  {
    var processed := ApplyDefaults(params);
    var field := CalculatePressureDistribution(processed, m);
    var plot: Plot;
    if processed.visualizationType == "pressure_distribution" {
      plot := PressureDistributionPlot(field, processed);
    } else if processed.visualizationType == "stress_analysis" {
      plot := StressAnalysisPlot(field, processed, m);
    } else if processed.visualizationType == "deformation" {
      plot := DeformationPlot(field, processed);
    } else {
      plot := PressureDistributionPlot(field, processed);
    }

    var imageUrl: Option<string> := None;
    var htmlUrl: Option<string> := None;

    if processed.outputMode == "html" || processed.outputMode == "both" {
      var htmlContent := env.render(plot);
      htmlUrl := Some(PublishedHtmlUrl(env, htmlContent));
    }

    if processed.outputMode == "image" || processed.outputMode == "both" {
      imageUrl := GeneratePlotImage(plot);
      if imageUrl.None? || imageUrl == Some("") {
        // image-only requests fall back to the interactive page
        if processed.outputMode == "image" && (htmlUrl.None? || htmlUrl == Some("")) {
          var htmlContent := env.render(plot);
          htmlUrl := Some(PublishedHtmlUrl(env, htmlContent));
        }
      }
    }

    var plotData := if params.debug then Some(plot) else None;
    r := VisualizationResult(env.requestId, "completed", processed.visualizationType, imageUrl, htmlUrl, processed, plotData);
  }

  /**
   * The documented example request — E = 2e6 Pa, ν = 0.3, 175 cm, 70 kg,
   * sitting, a 50×50 grid, HTML output — completes with a non-empty page URL
   * and reports the pressure plot and its grid resolution.
   */
  method DefaultRequestScenario(m: MathLib, env: Environment) returns (r: VisualizationResult)
    requires PowPositive(m)
    ensures r.status == "completed"
    ensures r.visualizationType == "pressure_distribution" && r.parameters.gridResolution == 50
    ensures r.htmlUrl.Some? && r.imageUrl.None?
    ensures PlotDefined(r.parameters, m)
    ensures !(env.s3Enabled && env.upload(env.render(PlotFor(r.parameters, m))) == Some("")) ==> r.htmlUrl.value != ""
  {
    var params := VisualizationParams(
      2000000.0, 0.3, 175.0, 70.0, "sitting",
      Some("pressure_distribution"), Some(50), Some("viridis"), Some("html"), false);
    assert InSchemaRanges(ApplyDefaults(params));
    SchemaRangesDefinePlot(ApplyDefaults(params), m);
    r := ExecuteVisualization(params, m, env);
  }
}
