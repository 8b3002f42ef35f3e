/**
 * The HTTP entry point of the visualisation tool: hoist an `input` object to
 * the top of the request body, check the five required physical inputs in
 * order, call the service, and wrap its result as `code: 200` or any failure
 * as `code: 500`.
 *
 * The service call is a parameter: the body reaches `executeVisualization`
 * as it is, without passing the schema, so the model does not tie the two.
 */
module PlotlyController {
  import opened Js

  const RequiredParams: seq<string> := ["youngs_modulus", "poisson_ratio", "height", "weight", "posture"]

  /**
   * `{...body}`, or, when `body.input` is a truthy object, the rest of the
   * body with the own properties of `input` spread over it.
   */
  function HoistInput(body: map<string, Value>): map<string, Value>
  {
    var input := Get(body, "input");
    if Truthy(input) && IsObject(input.value) then (body - {"input"}) + Spread(input.value) else body
  }

  /** An object `input` overrides same-named top-level keys, keeps the others, and is itself removed. */
  lemma HoistInputMerges(body: map<string, Value>, k: string)
    requires "input" in body && body["input"].Obj?
    ensures var r := HoistInput(body); var input := body["input"].fields;
      && (k in input ==> k in r && r[k] == input[k])
      && (k !in input && k != "input" ==> (k in r <==> k in body) && (k in body ==> r[k] == body[k]))
      && (k !in input && k == "input" ==> k !in r)
  {
  }

  /** A falsy or non-object `input` leaves the body exactly as it is. */
  lemma HoistInputKeepsBody(body: map<string, Value>)
    requires !Truthy(Get(body, "input")) || !IsObject(body["input"])
    ensures HoistInput(body) == body
  {
  }

  /** The first of `names` that is `undefined` or `null` in `body`. */
  function FirstMissing(body: map<string, Value>, names: seq<string>): (r: Option<string>)
    ensures r.None? <==> forall i :: 0 <= i < |names| ==> !Nullish(Get(body, names[i]))
    ensures r.Some? ==> exists i :: && 0 <= i < |names| && names[i] == r.value
                                     && Nullish(Get(body, names[i]))
                                     && forall j :: 0 <= j < i ==> !Nullish(Get(body, names[j]))
  {
    if names == [] then None
    else if Nullish(Get(body, names[0])) then Some(names[0])
    else
      var rest := FirstMissing(body, names[1..]);
      assert forall i :: 1 <= i < |names| ==> names[i] == names[1..][i - 1];
      if rest.Some? then
        var i :| && 0 <= i < |names[1..]| && names[1..][i] == rest.value
                 && Nullish(Get(body, names[1..][i]))
                 && forall j :: 0 <= j < i ==> !Nullish(Get(body, names[1..][j]));
        assert names[i + 1] == rest.value;
        rest
      else rest
  }

  /** The field at `i` is missing and none before it is: it is the one reported. */
  lemma {:induction false} FirstMissingAt(body: map<string, Value>, names: seq<string>, i: nat)
    requires i < |names| && Nullish(Get(body, names[i]))
    requires forall j :: 0 <= j < i ==> !Nullish(Get(body, names[j]))
    ensures FirstMissing(body, names) == Some(names[i])
  {
    if i > 0 {
      assert names[1..][i - 1] == names[i];
      assert forall j :: 0 <= j < i - 1 ==> names[1..][j] == names[j + 1];
      FirstMissingAt(body, names[1..], i - 1);
    }
  }

  /** `{code: 200, ...result}`: the service's keys, over a code that the result may override. */
  function Success(result: map<string, Value>): map<string, Value>
  {
    map["code" := Num(200.0)] + result
  }

  /** The body of the `catch` block. `now` is `Date.now().toString()`. */
  function Failure(message: string, now: string): map<string, Value>
  {
    map["code" := Num(500.0), "error" := Str(message), "requestId" := Str(now), "status" := Str("failed")]
  }

  /** The message of the error thrown for a missing required field. */
  function MissingMessage(name: string): string
  {
    "缺少必需参数: " + name
  }

  /** `visualize` */
  method Visualize(body: map<string, Value>, execute: map<string, Value> -> Result<map<string, Value>, string>, now: string)
    returns (response: map<string, Value>)
    ensures var processed := HoistInput(body);
      match FirstMissing(processed, RequiredParams)
      case Some(name) => response == Failure(MissingMessage(name), now)
      case None =>
        match execute(processed)
        case Ok(result) => response == Success(result)
        case Err(message) => response == Failure(message, now)
  {
    var processedBody := body;
    var input := Get(body, "input");
    if Truthy(input) && IsObject(input.value) {
      processedBody := (body - {"input"}) + Spread(input.value);
    }
    assert processedBody == HoistInput(body);

    var i := 0;
    while i < |RequiredParams|
      invariant 0 <= i <= |RequiredParams|
      invariant forall j :: 0 <= j < i ==> !Nullish(Get(processedBody, RequiredParams[j]))
    {
      var param := RequiredParams[i];
      if Nullish(Get(processedBody, param)) {
        FirstMissingAt(processedBody, RequiredParams, i);
        response := Failure(MissingMessage(param), now);
        return;
      }
      i := i + 1;
    }

    match execute(processedBody)
    case Ok(result) =>
      response := Success(result);
    case Err(message) =>
      response := Failure(message, now);
  }

  /**
   * A required field that is absent or null makes the check report a missing
   * field no later than it in the fixed order, so `Visualize` answers with a
   * failure whatever the service would have answered.
   */
  lemma MissingFieldFails(body: map<string, Value>, i: nat)
    requires i < |RequiredParams|
    requires Nullish(Get(HoistInput(body), RequiredParams[i]))
    ensures var r := FirstMissing(HoistInput(body), RequiredParams);
      && r.Some?
      && (exists j :: 0 <= j <= i && RequiredParams[j] == r.value)
  {
  }

  /**
   * A successful call answers with code 200 and every key of the service's
   * result; a failing one answers with code 500, the message, and status "failed".
   */
  lemma ResponseShape(result: map<string, Value>, message: string, now: string)
    requires "code" !in result
    ensures Success(result)["code"] == Num(200.0)
    ensures forall k :: k in result ==> k in Success(result) && Success(result)[k] == result[k]
    ensures Success(result).Keys == result.Keys + {"code"}
    ensures Failure(message, now).Keys == {"code", "error", "requestId", "status"}
    ensures Failure(message, now)["code"] == Num(500.0) && Failure(message, now)["error"] == Str(message)
    ensures Failure(message, now)["status"] == Str("failed") && Failure(message, now)["requestId"] == Str(now)
  {
  }
}
