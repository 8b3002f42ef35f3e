/**
 * The concept-design tool endpoints: `model`, `transform` and `analyze` take
 * their inputs from `body.inputs` or the body itself, fill in a default
 * parameter table when none is given, and hand over to the service;
 * `get_image` tries six candidate file names in turn and answers with the
 * first image found, its URL made absolute where that can be done.
 */
module ConceptDesignController {
  import opened Js
  import InitialParams
  import ConceptDesignService

  /** `body?.inputs ?? body ?? {}` */
  function ResolveInputs(body: Option<Value>): (r: Value)
    ensures r != Null
    ensures !Nullish(Prop(body, "inputs")) ==> r == body.value.fields["inputs"]
    ensures Nullish(Prop(body, "inputs")) && !Nullish(body) ==> r == body.value
    ensures Nullish(Prop(body, "inputs")) && Nullish(body) ==> r == Obj(map[])
  {
    Coalesce(Prop(body, "inputs"), Coalesce(body, Some(Obj(map[])))).value
  }

  /** `!p || (typeof p === 'object' && Object.keys(p).length === 0)` */
  predicate ParamsMissing(p: Option<Value>)
  {
    || !Truthy(p)
    || (p.value.Obj? && |p.value.fields| == 0)
    || (p.value.Arr? && |p.value.items| == 0)
  }

  /** `typeof v` for the primitives a property cannot be created on. */
  function TypeName(v: Value): string
  {
    match v
    case Str(_) => "string"
    case Num(_) => "number"
    case Bool(_) => "boolean"
    case _ => "object"
  }

  /**
   * The TypeError strict-mode code raises on `inputs.params = …` when `inputs` is
   * a primitive, as `String(error)` writes it: its name, then its message.
   */
  function CannotCreateParams(v: Value, fmt: real -> string): string
  {
    "TypeError: Cannot create property 'params' on " + TypeName(v) + " '" + ValueText(v, fmt) + "'"
  }

  /** The defaults `getDefaultParams(inputs.modelid ?? fallback)` picks. */
  function DefaultsFor(inputs: Value, fallback: real): map<string, Value>
  {
    InitialParams.DefaultParams(Coalesce(Prop(Some(inputs), "modelid"), Some(Num(fallback))).value)
  }

  /**
   * The inputs after the default-parameter step of `model` (fallback model 1)
   * and `analyze` (fallback model 0). An array keeps its elements and gains a
   * `params` property, so it reaches the service as an object.
   */
  function WithDefaults(inputs: Value, fallback: real, fmt: real -> string): (r: Result<Value, string>)
    ensures !ParamsMissing(Prop(Some(inputs), "params")) ==> r == Ok(inputs)
    ensures ParamsMissing(Prop(Some(inputs), "params")) ==> (r.Ok? <==> IsObject(inputs))
  {
    if !ParamsMissing(Prop(Some(inputs), "params")) then Ok(inputs)
    else
      var defaults := Obj(DefaultsFor(inputs, fallback));
      match inputs
      case Obj(f) => Ok(Obj(f["params" := defaults]))
      case Arr(items) => Ok(Obj(IndexMap(items)["params" := defaults]))
      case _ => Err(CannotCreateParams(inputs, fmt))
  }

  /**
   * Missing parameters become one of the three default tables, chosen by
   * `modelid ?? fallback`; every other property the service reads is kept.
   * Filled-in parameters are never missing, so the step is idempotent.
   */
  lemma WithDefaultsFills(inputs: Value, fallback: real, fmt: real -> string)
    requires IsObject(inputs)
    ensures var r := WithDefaults(inputs, fallback, fmt);
      && r.Ok? && r.value.Obj?
      && !ParamsMissing(Prop(Some(r.value), "params"))
      && (ParamsMissing(Prop(Some(inputs), "params")) ==>
            r.value.fields["params"] == Obj(DefaultsFor(inputs, fallback)))
      && (forall k :: k != "params" ==> Get(r.value.fields, k) == Get(Spread(inputs), k))
      && WithDefaults(r.value, fallback, fmt) == r
  {
    var r := WithDefaults(inputs, fallback, fmt);
    if ParamsMissing(Prop(Some(inputs), "params")) {
      var d := DefaultsFor(inputs, fallback);
      InitialParams.DefaultParamsNonEmpty(Coalesce(Prop(Some(inputs), "modelid"), Some(Num(fallback))).value);
      assert r == Ok(Obj(Spread(inputs)["params" := Obj(d)]));
      SetParamsKeeps(inputs, d, fallback, fmt);
    }
  }

  /** Setting a non-empty `params` table on an object or array: nothing else changes, and the step is done. */
  lemma SetParamsKeeps(inputs: Value, d: map<string, Value>, fallback: real, fmt: real -> string)
    requires IsObject(inputs) && |d| > 0
    ensures var r := Obj(Spread(inputs)["params" := Obj(d)]);
      && !ParamsMissing(Prop(Some(r), "params"))
      && (forall k :: k != "params" ==> Get(r.fields, k) == Get(Spread(inputs), k))
      && WithDefaults(r, fallback, fmt) == Ok(r)
  {
  }

  /**
   * `if (!inputs.params || …) inputs.params = getDefaultParams(inputs.modelid ?? fallback)`,
   * on a copy of `inputs`: an assignment to a primitive throws.
   */
  method FillDefaults(inputs: Value, fallback: real, fmt: real -> string) returns (r: Result<Value, string>)
    ensures r == WithDefaults(inputs, fallback, fmt)
  {
    r := Ok(inputs);
    if ParamsMissing(Prop(Some(inputs), "params")) {
      var defaults := Obj(InitialParams.DefaultParams(Coalesce(Prop(Some(inputs), "modelid"), Some(Num(fallback))).value));
      match inputs
      case Obj(f) =>
        r := Ok(Obj(f["params" := defaults]));
      case Arr(items) =>
        r := Ok(Obj(IndexMap(items)["params" := defaults]));
      case _ =>
        r := Err(CannotCreateParams(inputs, fmt));
    }
  }

  /** `model` */
  method Model(body: Option<Value>, s: ConceptDesignService.Settings, up: ConceptDesignService.Upstream)
    returns (r: Result<Value, string>)
    ensures match WithDefaults(ResolveInputs(body), 1.0, up.fmt)
      case Err(e) => r == Err(e)
      case Ok(inputs) =>
        r == ConceptDesignService.Send(
               ConceptDesignService.Posted("/api/v1/model", ConceptDesignService.ModelPayload(Some(inputs), up),
                                           Prop(body, "credential"), s, up), up)
  {
    var inputs := ResolveInputs(body);
    var credential := Prop(body, "credential");
    var filled := FillDefaults(inputs, 1.0, up.fmt);
    match filled
    case Err(e) =>
      r := Err(e);
    case Ok(withParams) =>
      r := ConceptDesignService.Model(Some(withParams), credential, s, up);
  }

  /** `transform` */
  method Transform(body: Option<Value>, s: ConceptDesignService.Settings, up: ConceptDesignService.Upstream)
    returns (r: Result<Value, string>)
    ensures r == ConceptDesignService.Send(
                   ConceptDesignService.Posted("/api/v1/transform",
                                               ConceptDesignService.TransformPayload(Some(ResolveInputs(body)), up),
                                               Prop(body, "credential"), s, up), up)
  {
    var inputs := ResolveInputs(body);
    var credential := Prop(body, "credential");
    r := ConceptDesignService.Transform(Some(inputs), credential, s, up);
  }

  /** `analyze` */
  method Analyze(body: Option<Value>, s: ConceptDesignService.Settings, up: ConceptDesignService.Upstream)
    returns (r: Result<Value, string>)
    ensures match WithDefaults(ResolveInputs(body), 0.0, up.fmt)
      case Err(e) => r == Err(e)
      case Ok(inputs) =>
        r == ConceptDesignService.Send(
               ConceptDesignService.Posted("/api/v1/analyze", ConceptDesignService.AnalyzePayload(Some(inputs), up),
                                           Prop(body, "credential"), s, up), up)
  {
    var inputs := ResolveInputs(body);
    var credential := Prop(body, "credential");
    var filled := FillDefaults(inputs, 0.0, up.fmt);
    match filled
    case Err(e) =>
      r := Err(e);
    case Ok(withParams) =>
      r := ConceptDesignService.Analyze(Some(withParams), credential, s, up);
  }

  /** For an object or an array, filling in is adding `params` to what a spread of it copies. */
  lemma WithDefaultsSpreads(inputs: Value, fallback: real, fmt: real -> string)
    requires IsObject(inputs) && ParamsMissing(Prop(Some(inputs), "params"))
    ensures WithDefaults(inputs, fallback, fmt) == Ok(Obj(Spread(inputs)["params" := Obj(DefaultsFor(inputs, fallback))]))
  {
    match inputs
    case Obj(f) =>
    case Arr(items) =>
  }

  lemma AnalyzeIgnoresParams(inputs: Value, d: Value, up: ConceptDesignService.Upstream)
    requires IsObject(inputs)
    ensures ConceptDesignService.AnalyzePayload(Some(Obj(Spread(inputs)["params" := d])), up)
         == ConceptDesignService.AnalyzePayload(Some(inputs), up)
  {
    var f := Spread(inputs);
    ConceptDesignService.PayloadsIgnoreOtherKeys(f, "params", d, up);
    assert ConceptDesignService.Clean(Some(Obj(f))) == ConceptDesignService.Clean(Some(inputs));
  }

  /**
   * The defaults `analyze` fills in never reach the backend, whose payload has
   * no `params`: for object or array inputs the forwarded body is the one the
   * inputs give without them; primitive inputs without params only fail.
   */
  lemma AnalyzeDefaultsNotForwarded(inputs: Value, up: ConceptDesignService.Upstream)
    requires IsObject(inputs)
    ensures WithDefaults(inputs, 0.0, up.fmt).Ok?
    ensures ConceptDesignService.AnalyzePayload(Some(WithDefaults(inputs, 0.0, up.fmt).value), up)
         == ConceptDesignService.AnalyzePayload(Some(inputs), up)
  {
    if ParamsMissing(Prop(Some(inputs), "params")) {
      WithDefaultsSpreads(inputs, 0.0, up.fmt);
      AnalyzeIgnoresParams(inputs, Obj(DefaultsFor(inputs, 0.0)), up);
    }
  }


  /**
   * `modelid` picks the defaults before the service coerces it: a string
   * "2" gets the multi-leg table of model 1, while the backend is told
   * model 2.
   */
  lemma StringModelIdGetsModel1Defaults(f: map<string, Value>, up: ConceptDesignService.Upstream)
    requires "params" !in f
    requires "modelid" in f && f["modelid"] == Str("2")
    requires up.toNumber("2") == Some(2.0)
    ensures var payload := ConceptDesignService.ModelPayload(Some(WithDefaults(Obj(f), 1.0, up.fmt).value), up);
      && payload["modelid"] == Num(2.0)
      && payload["params"] == Obj(InitialParams.Model1Params)
  {
    InitialParams.DefaultParamsSelects(Str("2"));
    var defaults := InitialParams.DefaultParams(Str("2"));
    assert DefaultsFor(Obj(f), 1.0) == defaults;
    var w := f["params" := Obj(defaults)];
    assert WithDefaults(Obj(f), 1.0, up.fmt) == Ok(Obj(w));
    var c := ConceptDesignService.Clean(Some(Obj(w)));
    assert c["params"] == Obj(defaults) && c["modelid"] == Str("2");
    assert ConceptDesignService.Coerced(Str("2"), up) == Num(2.0);
  }

  /** The request facts `getImageTool` reads: `req.secure` and three headers. */
  datatype HttpInfo = HttpInfo(secure: bool, forwardedProto: Option<string>, forwardedHost: Option<string>, host: Option<string>)

  /** `config.server.appUrl` and `config.server.port`. */
  datatype Server = Server(appUrl: Option<string>, port: Option<Value>)

  /** What `fetchImageUrl` answers: a URL and where it points ("s3" or "upstream"). */
  datatype FetchedImage = FetchedImage(url: string, source: string)

  /** The six file names `getImageTool` tries, newest naming scheme first. */
  function Candidates(inputs: Value, fmt: real -> string): (r: seq<string>)
  {
    var name := Text(Prop(Some(inputs), "name"), fmt);
    var it := Text(Prop(Some(inputs), "it"), fmt);
    var modelid := Text(Coalesce(Prop(Some(inputs), "modelid"), Some(Num(0.0))), fmt);
    var imageType := Text(Prop(Some(inputs), "imageType"), fmt);
    [ name + it + "_" + modelid + "_" + imageType + ".jpg",
      imageType + ".jpg",
      name + it + "_" + imageType + ".jpg",
      name + "_" + imageType + ".jpg",
      name + it + ".jpg",
      imageType + "_" + name + it + ".jpg" ]
  }

  predicate EndsWith(s: string, suffix: string)
  {
    |suffix| <= |s| && s[|s| - |suffix|..] == suffix
  }

  /**
   * Exactly six JPEG names; the first carries the model number (written 0 when
   * it is missing) between the name and the image type.
   */
  lemma CandidatesShape(inputs: Value, fmt: real -> string)
    ensures |Candidates(inputs, fmt)| == 6
    ensures forall i :: 0 <= i < 6 ==> EndsWith(Candidates(inputs, fmt)[i], ".jpg")
    ensures Candidates(inputs, fmt)[0] == Text(Prop(Some(inputs), "name"), fmt) + Text(Prop(Some(inputs), "it"), fmt)
                                          + "_" + Text(Coalesce(Prop(Some(inputs), "modelid"), Some(Num(0.0))), fmt)
                                          + "_" + Text(Prop(Some(inputs), "imageType"), fmt) + ".jpg"
    ensures Nullish(Prop(Some(inputs), "modelid")) ==>
              Candidates(inputs, fmt)[0] == Text(Prop(Some(inputs), "name"), fmt) + Text(Prop(Some(inputs), "it"), fmt)
                                            + "_0_" + Text(Prop(Some(inputs), "imageType"), fmt) + ".jpg"
  {
    var r := Candidates(inputs, fmt);
    forall i | 0 <= i < 6 ensures EndsWith(r[i], ".jpg") {
      var n := |r[i]|;
      assert r[i] == r[i][..n - 4] + ".jpg";
    }
  }

  /**
   * Only the first name depends on the model number: two requests that agree on
   * name, iteration and image type get the same last five names, and the same
   * first name exactly when their model numbers print the same.
   */
  lemma OnlyFirstCandidateNamesModel(a: Value, b: Value, fmt: real -> string)
    requires Prop(Some(a), "name") == Prop(Some(b), "name")
    requires Prop(Some(a), "it") == Prop(Some(b), "it")
    requires Prop(Some(a), "imageType") == Prop(Some(b), "imageType")
    ensures Candidates(a, fmt)[1..] == Candidates(b, fmt)[1..]
    ensures Candidates(a, fmt)[0] == Candidates(b, fmt)[0]
            <==> Text(Coalesce(Prop(Some(a), "modelid"), Some(Num(0.0))), fmt)
                 == Text(Coalesce(Prop(Some(b), "modelid"), Some(Num(0.0))), fmt)
  {
    var p := Text(Prop(Some(a), "name"), fmt) + Text(Prop(Some(a), "it"), fmt) + "_";
    var q := "_" + Text(Prop(Some(a), "imageType"), fmt) + ".jpg";
    var x := Text(Coalesce(Prop(Some(a), "modelid"), Some(Num(0.0))), fmt);
    var y := Text(Coalesce(Prop(Some(b), "modelid"), Some(Num(0.0))), fmt);
    assert Candidates(a, fmt)[0] == p + x + q;
    assert Candidates(b, fmt)[0] == p + y + q;
    if p + x + q == p + y + q {
      assert |x| == |y|;
      forall k | 0 <= k < |x| ensures x[k] == y[k] {
        assert x[k] == (p + x + q)[|p| + k];
        assert y[k] == (p + y + q)[|p| + k];
      }
    }
  }

  /** `http://localhost:${config.server?.port || 3000}`, the appUrl that counts as unset. */
  function DefaultAppUrl(server: Server, fmt: real -> string): string
  {
    "http://localhost:" + Text(Or(server.port, Some(Num(3000.0))), fmt)
  }

  /** The scheme inferred from the request. */
  function Protocol(req: HttpInfo): string
  {
    if req.secure || req.forwardedProto == Some("https") then "https" else "http"
  }

  /** `req.get('x-forwarded-host') || req.get('host')` */
  function RequestHost(req: HttpInfo): Option<string>
  {
    if req.forwardedHost.Some? && req.forwardedHost.value != "" then req.forwardedHost else req.host
  }

  /** The `imageUrl` answered for a fetched image. */
  function ImageUrl(img: FetchedImage, server: Server, req: HttpInfo, fmt: real -> string): string
  {
    if img.source != "upstream" then img.url
    else if server.appUrl.Some? && server.appUrl.value != "" && server.appUrl.value != DefaultAppUrl(server, fmt) then
      StripTrailingSlash(server.appUrl.value) + img.url
    else
      var host := RequestHost(req);
      if host.Some? && host.value != "" && !Contains(host.value, "localhost") then
        Protocol(req) + "://" + host.value + img.url
      else img.url
  }

  /**
   * The URL is always the fetched path with at most a prefix: an S3 URL is
   * kept; an upstream path gets the configured appUrl when that is set and
   * not the default, else scheme and host when the host is not a localhost
   * one, else stays relative.
   */
  lemma ImageUrlCases(img: FetchedImage, server: Server, req: HttpInfo, fmt: real -> string)
    ensures EndsWith(ImageUrl(img, server, req, fmt), img.url)
    ensures img.source != "upstream" ==> ImageUrl(img, server, req, fmt) == img.url
    ensures var app := server.appUrl;
      img.source == "upstream" && app.Some? && app.value != "" && app.value != DefaultAppUrl(server, fmt) ==>
        ImageUrl(img, server, req, fmt) == StripTrailingSlash(app.value) + img.url
    ensures var app := server.appUrl; var host := RequestHost(req);
      img.source == "upstream" && (app.None? || app.value == "" || app.value == DefaultAppUrl(server, fmt)) ==>
        ImageUrl(img, server, req, fmt)
          == if host.Some? && host.value != "" && !Contains(host.value, "localhost")
             then Protocol(req) + "://" + host.value + img.url
             else img.url
  {
    var r := ImageUrl(img, server, req, fmt);
    var p := r[..|r| - |img.url|];
    assert r == p + img.url;
  }

  /** The `let imageUrl` of the loop body, reassigned case by case. */
  method ComposeImageUrl(img: FetchedImage, server: Server, req: HttpInfo, fmt: real -> string) returns (imageUrl: string)
    ensures imageUrl == ImageUrl(img, server, req, fmt)
  {
    imageUrl := img.url;
    if img.source == "upstream" {
      var base := server.appUrl;
      if base.Some? && base.value != "" && base.value != DefaultAppUrl(server, fmt) {
        imageUrl := StripTrailingSlash(base.value) + img.url;
      } else {
        var protocol := Protocol(req);
        var host := RequestHost(req);
        if host.Some? && host.value != "" && !Contains(host.value, "localhost") {
          imageUrl := protocol + "://" + host.value + img.url;
        } else {
          imageUrl := img.url;
        }
      }
    }
  }

  /** The index of the first candidate that can be fetched. */
  function FirstFetched(names: seq<string>, fetch: string -> Result<FetchedImage, string>): (r: Option<nat>)
    ensures r.None? <==> forall j :: 0 <= j < |names| ==> fetch(names[j]).Err?
    ensures r.Some? ==> && r.value < |names| && fetch(names[r.value]).Ok?
                        && forall j :: 0 <= j < r.value ==> fetch(names[j]).Err?
    decreases |names|
  {
    if names == [] then None
    else if fetch(names[0]).Ok? then Some(0)
    else
      var rest := FirstFetched(names[1..], fetch);
      assert forall j :: 1 <= j < |names| ==> names[j] == names[1..][j - 1];
      if rest.Some? then Some(rest.value + 1) else None
  }

  function Found(imageType: Option<Value>, imageUrl: string, imageName: string, fmt: real -> string): map<string, Value>
  {
    map["status" := Str("success"), "message" := Str("成功获取 " + Text(imageType, fmt) + " 图像"),
        "imageUrl" := Str(imageUrl), "imageName" := Str(imageName)]
  }

  function NotFound(imageType: Option<Value>, names: seq<string>, fmt: real -> string): map<string, Value>
  {
    map["status" := Str("error"),
        "message" := Str("未找到 " + Text(imageType, fmt) + " 图像文件。尝试的文件名：" + Join(names, ", ")),
        "imageUrl" := Null]
  }

  /**
   * The `for … of` loop of `getImageTool`: fetch the names in order and stop
   * at the first success. `tried` lists the names fetched, so no name after
   * the first success is fetched.
   */
  method FindImage(names: seq<string>, server: Server, req: HttpInfo,
                   fetch: string -> Result<FetchedImage, string>, fmt: real -> string)
    returns (found: Option<(string, string)>, tried: seq<string>)
    ensures match FirstFetched(names, fetch)
      case Some(k) =>
        && tried == names[..k + 1]
        && found == Some((names[k], ImageUrl(fetch(names[k]).value, server, req, fmt)))
      case None =>
        && tried == names
        && found == None
  {
    tried := [];
    var i := 0;
    while i < |names|
      invariant 0 <= i <= |names|
      invariant tried == names[..i]
      invariant forall j :: 0 <= j < i ==> fetch(names[j]).Err?
    {
      var imageName := names[i];
      tried := tried + [imageName];
      var fetched := fetch(imageName);
      if fetched.Ok? {
        var imageUrl := ComposeImageUrl(fetched.value, server, req, fmt);
        found := Some((imageName, imageUrl));
        assert tried == names[..i + 1];
        return;
      }
      i := i + 1;
    }
    assert names[..i] == names;
    found := None;
  }

  /** `getImageTool`: the first of the six candidates that can be fetched, or an error listing all six. */
  method GetImageTool(body: Option<Value>, req: HttpInfo, server: Server,
                      fetch: string -> Result<FetchedImage, string>, fmt: real -> string)
    returns (response: map<string, Value>, tried: seq<string>)
    ensures var inputs := ResolveInputs(body);
      var names := Candidates(inputs, fmt);
      var imageType := Prop(Some(inputs), "imageType");
      match FirstFetched(names, fetch)
      case Some(k) =>
        && tried == names[..k + 1]
        && response == Found(imageType, ImageUrl(fetch(names[k]).value, server, req, fmt), names[k], fmt)
      case None =>
        && tried == names
        && response == NotFound(imageType, names, fmt)
  {
    var inputs := ResolveInputs(body);
    var imageType := Prop(Some(inputs), "imageType");
    var possibleNames := Candidates(inputs, fmt);
    var found;
    found, tried := FindImage(possibleNames, server, req, fetch, fmt);
    if found.Some? {
      response := Found(imageType, found.value.1, found.value.0, fmt);
    } else {
      response := NotFound(imageType, possibleNames, fmt);
    }
  }

  /** The not-found message lists the six names in order, separated by ", ". */
  lemma JoinSix(names: seq<string>)
    requires |names| == 6
    ensures Join(names, ", ") == names[0] + ", " + names[1] + ", " + names[2] + ", " + names[3] + ", " + names[4] + ", " + names[5]
  {
    assert Join(names[4..], ", ") == names[4] + ", " + names[5] by { assert names[4..][1..] == names[5..]; }
    assert Join(names[3..], ", ") == names[3] + ", " + Join(names[4..], ", ") by { assert names[3..][1..] == names[4..]; }
    assert Join(names[2..], ", ") == names[2] + ", " + Join(names[3..], ", ") by { assert names[2..][1..] == names[3..]; }
    assert Join(names[1..], ", ") == names[1] + ", " + Join(names[2..], ", ") by { assert names[1..][1..] == names[2..]; }
  }
}
