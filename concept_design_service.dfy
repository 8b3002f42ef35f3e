/**
 * The gateway to the concept-design backend: it cleans the workflow's inputs,
 * coerces numeric strings, repairs near-JSON parameter strings, keeps only the
 * keys the backend expects, and posts them to `<base>/api/v1/{model,transform,analyze}`
 * with a bearer token and a timeout.
 *
 * The configuration and the environment are a `Settings` value; `Number()` on a
 * string, `JSON.parse`, number formatting and the HTTP exchange itself are the
 * functions of an `Upstream` value, left open.
 */
module ConceptDesignService {
  import opened Js

  /** `config.conceptDesign` and the two environment variables it falls back to. */
  datatype Settings = Settings(
    baseUrl: Option<Value>,
    bearer: Option<Value>,
    timeout: Option<Value>,
    envBaseUrl: Option<string>,
    envBearer: Option<string>)

  /**
   * `toNumber` is `Number(s)` on a string, `None` when that is NaN or infinite;
   * `parseJson` is `JSON.parse`, `None` when it throws; `send` is the HTTP POST,
   * answering the response body or the error it throws.
   */
  datatype Upstream = Upstream(
    toNumber: string -> Option<real>,
    parseJson: string -> Option<Value>,
    fmt: real -> string,
    send: Request -> Result<Value, string>)

  /** What `post` hands to the HTTP client; a `None` timeout is NaN. */
  datatype Request = Request(url: string, data: map<string, Value>, headers: map<string, string>, timeoutMs: Option<real>)

  const BaseUrlMissing := "ConceptDesign baseUrl is not configured. Set conceptDesign.baseUrl or CONCEPT_DESIGN_BASE_URL"
  /** The thrown TypeError as `String(error)` writes it: its name, then its message. */
  const ReplaceNotAFunction := "TypeError: base.replace is not a function"

  /** A `process.env` entry, as a value. */
  function EnvValue(e: Option<string>): (r: Option<Value>)
    ensures r.Some? <==> e.Some?
  {
    if e.Some? then Some(Str(e.value)) else None
  }

  /** `getBaseUrl` */
  function BaseUrl(s: Settings): Result<string, string>
  {
    var base := Or(s.baseUrl, EnvValue(s.envBaseUrl));
    if !Truthy(base) then Err(BaseUrlMissing)
    else if base.value.Str? then Ok(StripTrailingSlash(base.value.s))
    else Err(ReplaceNotAFunction)
  }

  /**
   * The configured base wins over the environment whenever it is truthy; a
   * missing base is an error; exactly one trailing '/' is stripped.
   */
  lemma BaseUrlChoice(s: Settings)
    ensures Truthy(s.baseUrl) && s.baseUrl.value.Str? ==> BaseUrl(s) == Ok(StripTrailingSlash(s.baseUrl.value.s))
    ensures Truthy(s.baseUrl) && !s.baseUrl.value.Str? ==> BaseUrl(s) == Err(ReplaceNotAFunction)
    ensures !Truthy(s.baseUrl) && s.envBaseUrl.Some? && s.envBaseUrl.value != "" ==>
              BaseUrl(s) == Ok(StripTrailingSlash(s.envBaseUrl.value))
    ensures !Truthy(s.baseUrl) && (s.envBaseUrl.None? || s.envBaseUrl.value == "") ==> BaseUrl(s) == Err(BaseUrlMissing)
  {
  }

  /** Only one slash goes: a base ending in "//" keeps one of them. */
  lemma BaseUrlStripsOneSlash(s: Settings, stem: string)
    requires s.baseUrl == Some(Str(stem + "//"))
    ensures BaseUrl(s) == Ok(stem + "/")
  {
    assert (stem + "//")[..|stem + "//"| - 1] == stem + "/";
  }

  /** `Number(v)` for a value from the configuration; `None` is NaN. */
  function NumberOf(v: Value, up: Upstream): (r: Option<real>)
    ensures v.Num? ==> r == Some(v.n)
    ensures v.Null? ==> r == Some(0.0)
    ensures v.Obj? ==> r.None?
  {
    match v
    case Null => Some(0.0)
    case Bool(b) => Some(if b then 1.0 else 0.0)
    case Num(n) => Some(n)
    case Str(t) => up.toNumber(t)
    case Arr(_) => up.toNumber(ValueText(v, up.fmt))
    case Obj(_) => None
  }

  /** `getTimeoutMs`: the configured seconds, 900 when unset, times 1000. */
  function TimeoutMs(s: Settings, up: Upstream): Option<real>
  {
    var seconds := Coalesce(s.timeout, Some(Num(900.0)));
    match NumberOf(seconds.value, up)
    case Some(x) => Some(x * 1000.0)
    case None => None
  }

  /**
   * An unset or null timeout means 900 seconds; a number of seconds, zero
   * included (the fallback is `??`, not `||`), is scaled to milliseconds.
   */
  lemma TimeoutScales(s: Settings, up: Upstream)
    ensures Nullish(s.timeout) ==> TimeoutMs(s, up) == Some(900000.0)
    ensures s.timeout.Some? && s.timeout.value.Num? ==> TimeoutMs(s, up) == Some(s.timeout.value.n * 1000.0)
    ensures s.timeout == Some(Num(0.0)) ==> TimeoutMs(s, up) == Some(0.0)
  {
  }

  /** The token `buildHeaders` picks: api_key, then encryptedData, then the configured bearer, then the environment's. */
  function Bearer(credential: Option<Value>, s: Settings): Option<Value>
  {
    Or(Prop(credential, "api_key"), Or(Prop(credential, "encryptedData"), Or(s.bearer, EnvValue(s.envBearer))))
  }

  /** `buildHeaders` */
  function BuildHeaders(credential: Option<Value>, s: Settings, fmt: real -> string): (r: map<string, string>)
    ensures "Content-Type" in r && r["Content-Type"] == "application/json"
    ensures "Authorization" in r <==> Truthy(Bearer(credential, s))
    ensures "Authorization" in r ==> r["Authorization"] == "Bearer " + Text(Bearer(credential, s), fmt)
    ensures r.Keys <= {"Content-Type", "Authorization"}
  {
    var headers := map["Content-Type" := "application/json"];
    var bearer := Bearer(credential, s);
    if Truthy(bearer) then headers["Authorization" := "Bearer " + Text(bearer, fmt)] else headers
  }

  /** The first truthy of the four sources is the token; when none is truthy there is no Authorization header. */
  lemma BearerPriority(credential: Option<Value>, s: Settings)
    ensures Truthy(Prop(credential, "api_key")) ==> Bearer(credential, s) == Prop(credential, "api_key")
    ensures !Truthy(Prop(credential, "api_key")) && Truthy(Prop(credential, "encryptedData")) ==>
              Bearer(credential, s) == Prop(credential, "encryptedData")
    ensures !Truthy(Prop(credential, "api_key")) && !Truthy(Prop(credential, "encryptedData")) && Truthy(s.bearer) ==>
              Bearer(credential, s) == s.bearer
    ensures !Truthy(Prop(credential, "api_key")) && !Truthy(Prop(credential, "encryptedData")) && !Truthy(s.bearer) ==>
              Bearer(credential, s) == EnvValue(s.envBearer)
    ensures Truthy(Bearer(credential, s)) <==>
              Truthy(Prop(credential, "api_key")) || Truthy(Prop(credential, "encryptedData"))
              || Truthy(s.bearer) || Truthy(EnvValue(s.envBearer))
  {
  }

  /** The request `post(path, data, credential)` issues, or the error `getBaseUrl` throws first. */
  function Posted(path: string, data: map<string, Value>, credential: Option<Value>, s: Settings, up: Upstream): (r: Result<Request, string>)
    ensures r.Ok? <==> BaseUrl(s).Ok?
    ensures r.Err? ==> r.error == BaseUrl(s).error
    ensures r.Ok? ==> && r.value.url == BaseUrl(s).value + path
                      && r.value.data == data
                      && r.value.headers == BuildHeaders(credential, s, up.fmt)
                      && r.value.timeoutMs == TimeoutMs(s, up)
  {
    match BaseUrl(s)
    case Err(e) => Err(e)
    case Ok(base) => Ok(Request(base + path, data, BuildHeaders(credential, s, up.fmt), TimeoutMs(s, up)))
  }

  /** The response body of the POST, or the error it or `getBaseUrl` throws. */
  function Send(request: Result<Request, string>, up: Upstream): Result<Value, string>
  {
    match request
    case Err(e) => Err(e)
    case Ok(q) => up.send(q)
  }

  /** `s.replace(/'/g, '"')` */
  function ReplaceQuotes(s: string): (r: string)
    ensures |r| == |s|
    ensures forall i :: 0 <= i < |s| ==> r[i] == (if s[i] == '\'' then '"' else s[i])
  {
    seq(|s|, i requires 0 <= i < |s| => if s[i] == '\'' then '"' else s[i])
  }

  /** The lookahead `(?=\s*[}\]])`: after any white space comes a closing brace or bracket. */
  predicate ClosesAfterSpace(rest: string)
  {
    FirstNonSpace(rest) == Some('}') || FirstNonSpace(rest) == Some(']')
  }

  /** The first character of `rest` that is not white space (`\s`), if any. */
  function FirstNonSpace(rest: string): Option<char>
    decreases |rest|
  {
    if rest == [] then None
    else if IsSpace(rest[0]) then FirstNonSpace(rest[1..])
    else Some(rest[0])
  }

  /** `s.replace(/,(?=\s*[}\]])/g, '')`: the lookahead always reads the original text. */
  function StripTrailingCommas(s: string): (r: string)
    ensures |r| <= |s|
    decreases |s|
  {
    if s == [] then []
    else (if s[0] == ',' && ClosesAfterSpace(s[1..]) then [] else [s[0]]) + StripTrailingCommas(s[1..])
  }

  /** Index `i` of `s` is a comma the regex removes: white space and then `}` or `]` follow it. */
  predicate TrailingCommaAt(s: string, i: nat)
    requires i < |s|
  {
    s[i] == ',' && ClosesAfterSpace(s[i + 1..])
  }

  /** For every index of `s`, whether the regex removes the character there. */
  function CommaMask(s: string): (drop: seq<bool>)
    ensures |drop| == |s|
    ensures forall i :: 0 <= i < |s| ==> drop[i] == TrailingCommaAt(s, i)
  {
    seq(|s|, i requires 0 <= i < |s| => TrailingCommaAt(s, i))
  }

  /** The indices from `i` on whose character is not dropped, in increasing order. */
  function KeptFrom(drop: seq<bool>, i: nat): (k: seq<nat>)
    requires i <= |drop|
    ensures forall j :: 0 <= j < |k| ==> i <= k[j] < |drop|
    ensures forall j, l :: 0 <= j < l < |k| ==> k[j] < k[l]
    ensures forall n :: i <= n < |drop| ==> (n in k <==> !drop[n])
    decreases |drop| - i
  {
    if i == |drop| then []
    else (if drop[i] then [] else [i]) + KeptFrom(drop, i + 1)
  }

  /** The characters of `s` at the indices `k`, in that order. */
  function Gather(s: string, k: seq<nat>): (r: string)
    requires forall j :: 0 <= j < |k| ==> k[j] < |s|
    ensures |r| == |k| && forall j :: 0 <= j < |k| ==> r[j] == s[k[j]]
  {
    seq(|k|, j requires 0 <= j < |k| => s[k[j]])
  }

  /**
   * The comma removal deletes exactly the commas the lookahead accepts, each
   * judged on the original text, and keeps every other character in order:
   * character `j` of the result is the character of `s` at the `j`-th kept index.
   */
  lemma StripRemovesExactly(s: string)
    ensures var r := StripTrailingCommas(s); var k := KeptFrom(CommaMask(s), 0);
      |r| == |k| && forall j :: 0 <= j < |k| ==> r[j] == s[k[j]]
  {
    StripMatchesKept(s, CommaMask(s), 0);
    assert s[0..] == s;
  }

  lemma {:induction false} StripMatchesKept(s: string, drop: seq<bool>, i: nat)
    requires drop == CommaMask(s) && i <= |s|
    ensures StripTrailingCommas(s[i..]) == Gather(s, KeptFrom(drop, i))
    decreases |s| - i
  {
    if i < |s| {
      StripMatchesKept(s, drop, i + 1);
      var t := s[i..];
      assert t[0] == s[i] && t[1..] == s[i + 1..];
      assert drop[i] == (t[0] == ',' && ClosesAfterSpace(t[1..]));
      var krest := KeptFrom(drop, i + 1);
      if drop[i] {
        assert KeptFrom(drop, i) == krest;
      } else {
        assert KeptFrom(drop, i) == [i] + krest;
        GatherCons(s, i, krest);
      }
    } else {
      assert s[i..] == [];
    }
  }

  lemma GatherCons(s: string, i: nat, k: seq<nat>)
    requires i < |s| && forall j :: 0 <= j < |k| ==> k[j] < |s|
    ensures Gather(s, [i] + k) == [s[i]] + Gather(s, k)
  {
    var ik := [i] + k;
    var a, b := Gather(s, ik), [s[i]] + Gather(s, k);
    forall j | 0 <= j < |a| ensures a[j] == b[j] {
      if j > 0 {
        assert ik[j] == k[j - 1];
      }
    }
  }

  /** The repair tried on params text that `JSON.parse` rejected. */
  function Repair(s: string): string
  {
    StripTrailingCommas(ReplaceQuotes(s))
  }

  /** The characters of `s` other than commas. */
  function NonCommas(s: string): string
    decreases |s|
  {
    if s == [] then [] else (if s[0] == ',' then [] else [s[0]]) + NonCommas(s[1..])
  }

  lemma {:induction false} StripKeepsNonCommas(s: string)
    ensures NonCommas(StripTrailingCommas(s)) == NonCommas(s)
    decreases |s|
  {
    if s != [] {
      StripKeepsNonCommas(s[1..]);
      var rest := StripTrailingCommas(s[1..]);
      if s[0] == ',' && ClosesAfterSpace(s[1..]) {
        assert StripTrailingCommas(s) == rest;
        assert NonCommas(s) == NonCommas(s[1..]);
      } else {
        var t := [s[0]] + rest;
        assert StripTrailingCommas(s) == t;
        assert t[0] == s[0] && t[1..] == rest;
        assert NonCommas(t) == (if s[0] == ',' then [] else [s[0]]) + NonCommas(rest);
      }
    }
  }

  /** Text with no comma before a closing brace or bracket is left exactly as it is. */
  lemma {:induction false} StripWithoutTrailingCommas(s: string)
    requires forall i :: 0 <= i < |s| && s[i] == ',' ==> !ClosesAfterSpace(s[i + 1..])
    ensures StripTrailingCommas(s) == s
    decreases |s|
  {
    if s != [] {
      forall i | 0 <= i < |s[1..]| && s[1..][i] == ',' ensures !ClosesAfterSpace(s[1..][i + 1..]) {
        assert s[1..][i + 1..] == s[i + 2..];
      }
      StripWithoutTrailingCommas(s[1..]);
      assert !(s[0] == ',' && ClosesAfterSpace(s[1..]));
    }
  }

  /**
   * The repair removes every single quote, keeps every character that is not a
   * comma (quotes turned to double quotes), and drops only commas.
   */
  lemma RepairShape(s: string)
    ensures '\'' !in Repair(s)
    ensures NonCommas(Repair(s)) == NonCommas(ReplaceQuotes(s))
    ensures |Repair(s)| <= |s|
  {
    StripKeepsNonCommas(ReplaceQuotes(s));
    NoQuoteSurvives(ReplaceQuotes(s));
  }

  lemma {:induction false} NoQuoteSurvives(s: string)
    requires '\'' !in s
    ensures '\'' !in StripTrailingCommas(s)
    decreases |s|
  {
    if s != [] {
      assert '\'' !in s[1..] by {
        forall i | 0 <= i < |s[1..]| ensures s[1..][i] != '\'' {
          assert s[1..][i] == s[i + 1];
        }
      }
      NoQuoteSurvives(s[1..]);
    }
  }

  /**
   * Every comma the lookahead accepts on the original text goes, even one
   * that only precedes another such comma: ",,}" becomes ",}", which is again
   * a trailing comma, so one pass of the repair is not always enough.
   */
  lemma RepairIsOnePass()
    ensures StripTrailingCommas(",,}") == ",}"
    ensures StripTrailingCommas(",}") == "}"
  {
    assert !IsSpace(',') && !IsSpace('}');
    assert ",,}"[1..] == ",}" && ",}"[1..] == "}" && "}"[1..] == "";
    assert StripTrailingCommas("}") == "}";
    assert StripTrailingCommas(",}") == [] + StripTrailingCommas("}");
  }

  /**
   * The `params` text: parsed after trimming; if that fails, parsed after the
   * repair; if that fails too, the original, untrimmed string.
   */
  function ParseParams(raw: string, parseJson: string -> Option<Value>): (r: Value)
    ensures parseJson(Trim(raw)).Some? ==> r == parseJson(Trim(raw)).value
    ensures r == Str(raw) || parseJson(Trim(raw)) == Some(r) || parseJson(Repair(Trim(raw))) == Some(r)
  {
    var trimmed := Trim(raw);
    match parseJson(trimmed)
    case Some(v) => v
    case None =>
      match parseJson(Repair(trimmed))
      case Some(v) => v
      case None => Str(raw)
  }

  /** The repaired text is consulted only when the trimmed text does not parse, and nothing parses only when both fail. */
  lemma ParseParamsFallback(raw: string, parseJson: string -> Option<Value>)
    ensures parseJson(Trim(raw)).None? && parseJson(Repair(Trim(raw))).Some? ==>
              ParseParams(raw, parseJson) == parseJson(Repair(Trim(raw))).value
    ensures parseJson(Trim(raw)).None? && parseJson(Repair(Trim(raw))).None? ==> ParseParams(raw, parseJson) == Str(raw)
  {
  }

  /** `const { __advancedConfig, ...rest } = inputs || {}` */
  function Clean(inputs: Option<Value>): (r: map<string, Value>)
    ensures "__advancedConfig" !in r
    ensures inputs.Some? && inputs.value.Obj? ==> r == inputs.value.fields - {"__advancedConfig"}
    ensures !Truthy(inputs) ==> r == map[]
  {
    Spread(Or(inputs, Some(Obj(map[]))).value) - {"__advancedConfig"}
  }

  /** `Number(s)` as it reaches the backend: NaN and the infinities are serialised as null. */
  function NumberValue(s: string, up: Upstream): Value
  {
    match up.toNumber(s)
    case Some(x) => Num(x)
    case None => Null
  }

  /** `if (typeof v === 'string') v = Number(v)` */
  function Coerced(v: Value, up: Upstream): (r: Value)
    ensures !v.Str? ==> r == v
    ensures v.Str? ==> r.Num? || r.Null?
  {
    if v.Str? then NumberValue(v.s, up) else v
  }

  /** A `params` string is reparsed; anything else is kept. */
  function Reparsed(v: Value, up: Upstream): (r: Value)
    ensures !v.Str? ==> r == v
  {
    if v.Str? then ParseParams(v.s, up.parseJson) else v
  }

  /** The own keys of `m` among `keys`: a payload literal whose undefined members `JSON.stringify` omits. */
  function Pick(m: map<string, Value>, keys: set<string>): (r: map<string, Value>)
    ensures r.Keys == m.Keys * keys
    ensures forall k :: k in r ==> r[k] == m[k]
  {
    map k | k in m && k in keys :: m[k]
  }

  const ModelKeys: set<string> := {"it", "name", "modelid", "params"}
  const TransformKeys: set<string> := {"it", "name"}
  const AnalyzeKeys: set<string> := {"it", "filename", "force", "m_n"}

  /** `if (typeof m[k] === 'string') m[k] = Number(m[k])` */
  function CoerceKey(m: map<string, Value>, k: string, up: Upstream): (r: map<string, Value>)
    ensures r.Keys == m.Keys
    ensures forall j :: j in m ==> r[j] == if j == k then Coerced(m[j], up) else m[j]
  {
    if k in m && m[k].Str? then m[k := NumberValue(m[k].s, up)] else m
  }

  /** `if (typeof m.params === 'string') m.params = <parsed or repaired or kept>` */
  function ReparseParams(m: map<string, Value>, up: Upstream): (r: map<string, Value>)
    ensures r.Keys == m.Keys
    ensures forall j :: j in m ==> r[j] == if j == "params" then Reparsed(m[j], up) else m[j]
  {
    if "params" in m && m["params"].Str? then m["params" := ParseParams(m["params"].s, up.parseJson)] else m
  }

  /**
   * What a whitelisted key carries to the backend: the keys in `coerced`
   * converted from strings to numbers, `params` reparsed, the rest as given.
   */
  function Forwarded(k: string, v: Value, coerced: set<string>, up: Upstream): Value
  {
    if k in coerced then Coerced(v, up) else if k == "params" then Reparsed(v, up) else v
  }

  /** Two cleaned records that agree on every key of `keys`. */
  predicate AgreeOn(a: map<string, Value>, b: map<string, Value>, keys: set<string>)
  {
    forall k :: k in keys ==> (k in a <==> k in b) && (k in a ==> a[k] == b[k])
  }

  /** The body `model` builds from the cleaned inputs. */
  function ModelBody(c: map<string, Value>, up: Upstream): (r: map<string, Value>)
    ensures r.Keys == c.Keys * ModelKeys
    ensures forall k :: k in r ==> r[k] == Forwarded(k, c[k], {"it", "modelid"}, up)
  {
    Pick(ReparseParams(CoerceKey(CoerceKey(c, "it", up), "modelid", up), up), ModelKeys)
  }

  /** The body `transform` builds from the cleaned inputs. */
  function TransformBody(c: map<string, Value>, up: Upstream): (r: map<string, Value>)
    ensures r.Keys == c.Keys * TransformKeys
    ensures forall k :: k in r ==> r[k] == Forwarded(k, c[k], {"it"}, up)
  {
    Pick(CoerceKey(c, "it", up), TransformKeys)
  }

  /** The body `analyze` builds from the cleaned inputs. */
  function AnalyzeBody(c: map<string, Value>, up: Upstream): (r: map<string, Value>)
    ensures r.Keys == c.Keys * AnalyzeKeys
    ensures forall k :: k in r ==> r[k] == Forwarded(k, c[k], {"it", "force"}, up)
  {
    Pick(CoerceKey(CoerceKey(c, "it", up), "force", up), AnalyzeKeys)
  }

  /** The body `model` forwards to /api/v1/model. */
  function ModelPayload(inputs: Option<Value>, up: Upstream): (r: map<string, Value>)
    ensures r.Keys == Clean(inputs).Keys * ModelKeys
    ensures "name" in r ==> r["name"] == Clean(inputs)["name"]
    ensures "it" in r ==> r["it"] == Coerced(Clean(inputs)["it"], up)
    ensures "modelid" in r ==> r["modelid"] == Coerced(Clean(inputs)["modelid"], up)
    ensures "params" in r ==> r["params"] == Reparsed(Clean(inputs)["params"], up)
  {
    ModelBody(Clean(inputs), up)
  }

  /** The body `transform` forwards to /api/v1/transform. */
  function TransformPayload(inputs: Option<Value>, up: Upstream): (r: map<string, Value>)
    ensures r.Keys == Clean(inputs).Keys * TransformKeys
    ensures "name" in r ==> r["name"] == Clean(inputs)["name"]
    ensures "it" in r ==> r["it"] == Coerced(Clean(inputs)["it"], up)
  {
    TransformBody(Clean(inputs), up)
  }

  /** The body `analyze` forwards to /api/v1/analyze. */
  function AnalyzePayload(inputs: Option<Value>, up: Upstream): (r: map<string, Value>)
    ensures r.Keys == Clean(inputs).Keys * AnalyzeKeys
    ensures "filename" in r ==> r["filename"] == Clean(inputs)["filename"]
    ensures "m_n" in r ==> r["m_n"] == Clean(inputs)["m_n"]
    ensures "it" in r ==> r["it"] == Coerced(Clean(inputs)["it"], up)
    ensures "force" in r ==> r["force"] == Coerced(Clean(inputs)["force"], up)
  {
    AnalyzeBody(Clean(inputs), up)
  }

  /** A payload depends only on the whitelisted keys of the cleaned record. */
  lemma BodiesDependOnWhitelist(a: map<string, Value>, b: map<string, Value>, up: Upstream)
    ensures AgreeOn(a, b, ModelKeys) ==> ModelBody(a, up) == ModelBody(b, up)
    ensures AgreeOn(a, b, TransformKeys) ==> TransformBody(a, up) == TransformBody(b, up)
    ensures AgreeOn(a, b, AnalyzeKeys) ==> AnalyzeBody(a, up) == AnalyzeBody(b, up)
  {
    if AgreeOn(a, b, ModelKeys) {
      assert ModelBody(a, up).Keys == ModelBody(b, up).Keys;
    }
    if AgreeOn(a, b, TransformKeys) {
      assert TransformBody(a, up).Keys == TransformBody(b, up).Keys;
    }
    if AgreeOn(a, b, AnalyzeKeys) {
      assert AnalyzeBody(a, up).Keys == AnalyzeBody(b, up).Keys;
    }
  }

  /** `model`: clean, coerce `it` and `modelid`, reparse `params`, forward the four keys. */
  method Model(inputs: Option<Value>, credential: Option<Value>, s: Settings, up: Upstream)
    returns (r: Result<Value, string>)
    ensures r == Send(Posted("/api/v1/model", ModelPayload(inputs, up), credential, s, up), up)
  {
    var clean := Clean(inputs);
    if "it" in clean && clean["it"].Str? {
      clean := clean["it" := NumberValue(clean["it"].s, up)];
    }
    if "modelid" in clean && clean["modelid"].Str? {
      clean := clean["modelid" := NumberValue(clean["modelid"].s, up)];
    }
    if "params" in clean && clean["params"].Str? {
      clean := clean["params" := ParseParams(clean["params"].s, up.parseJson)];
    }
    var payload := Pick(clean, ModelKeys);
    r := Send(Posted("/api/v1/model", payload, credential, s, up), up);
  }

  /** `transform`: clean, coerce `it`, forward `it` and `name`. */
  method Transform(inputs: Option<Value>, credential: Option<Value>, s: Settings, up: Upstream)
    returns (r: Result<Value, string>)
    ensures r == Send(Posted("/api/v1/transform", TransformPayload(inputs, up), credential, s, up), up)
  {
    var clean := Clean(inputs);
    if "it" in clean && clean["it"].Str? {
      clean := clean["it" := NumberValue(clean["it"].s, up)];
    }
    var payload := Pick(clean, TransformKeys);
    r := Send(Posted("/api/v1/transform", payload, credential, s, up), up);
  }

  /** `analyze`: clean, coerce `it` and `force`, forward the four analysis keys. */
  method Analyze(inputs: Option<Value>, credential: Option<Value>, s: Settings, up: Upstream)
    returns (r: Result<Value, string>)
    ensures r == Send(Posted("/api/v1/analyze", AnalyzePayload(inputs, up), credential, s, up), up)
  {
    var clean := Clean(inputs);
    if "it" in clean && clean["it"].Str? {
      clean := clean["it" := NumberValue(clean["it"].s, up)];
    }
    if "force" in clean && clean["force"].Str? {
      clean := clean["force" := NumberValue(clean["force"].s, up)];
    }
    var payload := Pick(clean, AnalyzeKeys);
    r := Send(Posted("/api/v1/analyze", payload, credential, s, up), up);
  }

  /**
   * Nothing outside a whitelist reaches the backend: a key other than the
   * endpoint's own (`__advancedConfig` or any other) changes nothing in its
   * payload. For `analyze` that includes `params`.
   */
  lemma PayloadsIgnoreOtherKeys(f: map<string, Value>, k: string, v: Value, up: Upstream)
    ensures k !in ModelKeys ==> ModelPayload(Some(Obj(f[k := v])), up) == ModelPayload(Some(Obj(f)), up)
    ensures k !in TransformKeys ==> TransformPayload(Some(Obj(f[k := v])), up) == TransformPayload(Some(Obj(f)), up)
    ensures k !in AnalyzeKeys ==> AnalyzePayload(Some(Obj(f[k := v])), up) == AnalyzePayload(Some(Obj(f)), up)
  {
    var ca := Clean(Some(Obj(f[k := v])));
    var cb := Clean(Some(Obj(f)));
    CleanAgrees(f, k, v);
    BodiesDependOnWhitelist(ca, cb, up);
    assert ModelPayload(Some(Obj(f[k := v])), up) == ModelBody(ca, up);
    assert ModelPayload(Some(Obj(f)), up) == ModelBody(cb, up);
    assert TransformPayload(Some(Obj(f[k := v])), up) == TransformBody(ca, up);
    assert TransformPayload(Some(Obj(f)), up) == TransformBody(cb, up);
    assert AnalyzePayload(Some(Obj(f[k := v])), up) == AnalyzeBody(ca, up);
    assert AnalyzePayload(Some(Obj(f)), up) == AnalyzeBody(cb, up);
  }

  lemma CleanAgrees(f: map<string, Value>, k: string, v: Value)
    ensures k !in ModelKeys ==> AgreeOn(Clean(Some(Obj(f[k := v]))), Clean(Some(Obj(f))), ModelKeys)
    ensures k !in TransformKeys ==> AgreeOn(Clean(Some(Obj(f[k := v]))), Clean(Some(Obj(f))), TransformKeys)
    ensures k !in AnalyzeKeys ==> AgreeOn(Clean(Some(Obj(f[k := v]))), Clean(Some(Obj(f))), AnalyzeKeys)
  {
    var ca := Clean(Some(Obj(f[k := v])));
    var cb := Clean(Some(Obj(f)));
    assert ca == f[k := v] - {"__advancedConfig"};
    assert cb == f - {"__advancedConfig"};
  }
}
