# Concept-design gateway and pressure visualiser, modelled in Dafny

This project models the request-handling core of a NestJS tool server. The
server exposes two groups of workflow tools.

- **Pressure visualisation** (`/plotly`). A request gives Young's modulus,
  Poisson's ratio, height, weight and posture. The controller hoists a nested
  `input` object and checks the five required fields. The service then applies
  the `||` defaults, computes a pressure field over an n×n grid on [-1,1]², and
  builds one of three plots from it: pressure, principal stress or
  deformation. Each plot has a colour range. A posture outside the eight
  known ones is not rejected by the service: it gets the sitting contact
  fraction with multiplier 1.0. The service then decides whether
  the response carries an uploaded page URL or an inline `data:` URL. A zod
  schema describes the request.
- **Concept design** (`/concept-design`). `model`, `transform` and `analyze`
  take their inputs from `body.inputs` or the body itself. `model` and
  `analyze` fill in a default parameter table (keyed by model number) when
  none is given. The service then cleans the inputs, coerces numeric strings,
  repairs near-JSON parameter text, keeps only the whitelisted keys, and POSTs
  them to `<base>/api/v1/...` with a bearer token and a timeout. `get_image`
  tries six candidate file names in order. It answers with the first image
  found, making its URL absolute when it can.

Modules, one per source file:

- `Js` (`js.dfy`): the JavaScript semantics the handlers rely on. This covers
  JSON values, truthiness, `??`/`||`, property reads, object spread,
  template-literal text, `trim`, `includes`, `join`, and the trailing-slash
  regex.
- `PlotlySchema` (`plotly_schema.dfy`): the request schema.
- `PlotlyService` (`plotly_service.dfy`): the field, the plots, the defaults
  and the output decision.
- `PlotlyController` (`plotly_controller.dfy`): `visualize`.
- `InitialParams` (`initial_params.dfy`): the three default tables and
  `getDefaultParams`.
- `ConceptDesignService` (`concept_design_service.dfy`): `getBaseUrl`,
  `getTimeoutMs`, `buildHeaders`, `post`, and the cleaning in
  `model`/`transform`/`analyze`.
- `ConceptDesignController` (`concept_design_controller.dfy`): default
  injection, the three forwarding handlers and `getImageTool`.

Some behaviour has no fixed definition in the model; it enters as function
parameters. This covers `Math.pow` and `Math.sqrt`, `Number()` on a string,
`JSON.parse`, number formatting, the HTML template, base64, the S3 upload, the
upstream HTTP call, `fetchImageUrl` and the clock. A lemma that needs one of
these to behave like the real function says so in its `requires`.

## Model

| member | source | states |
|---|---|---|
| PlotlySchema.ParseAcceptsExactly | src/common/schemas/plotly.ts:13-85 | parsing succeeds exactly when every one of the nine fields passes its rule, and otherwise reports each failing key and no other |
| PlotlySchema.ParsedRequestInRange | src/common/schemas/plotly.ts:16-83 | a parsed request has every field present and within its range or enum: E in [1e3,1e12], ν in [0,0.5], height in [100,250], weight in [20,300], posture from the eight, grid an integer in [10,100], and the three enums |
| PlotlySchema.ParsedDefaults | src/common/schemas/plotly.ts:55-83 | an absent optional key gets its default ('pressure_distribution', 50, 'viridis', 'html'), and a present one is kept |
| PlotlySchema.PassthroughUnknownKeys | src/common/schemas/plotly.ts:85 | a key the schema does not name comes out exactly as it went in |
| PlotlySchema.UnknownPostureRejected | src/common/schemas/plotly.ts:5-10 | a posture outside the eight values is a validation error on `posture` |
| PlotlySchema.NullOptionalRejected | src/common/schemas/plotly.ts:62-69 | `.optional()` admits an absent grid resolution but not `null` |
| PlotlyService.DefaultsReplaceFalsy | src/modules/plotly/plotly.service.ts:600-608 | `""`/`0`/absent type, grid, colour scheme and output mode become the defaults; any other value of each of the four is kept; the five required fields pass through unchanged; applying the defaults twice changes nothing |
| PlotlyService.PostureTablesAgree | src/modules/plotly/plotly.service.ts:65-101 | the posture switch recognises exactly the eight schema postures; the display lookup renames exactly those eight and the twelve keys an object literal inherits from `Object.prototype`; every fraction and multiplier is positive |
| PlotlyService.UnknownPostureFallback | src/modules/plotly/plotly.service.ts:98-100 | an unknown posture gets fraction 0.15 and multiplier 1.0, which is not the sitting multiplier; it is displayed under its own name, or, for an inherited key of the name table, as that property's text |
| PlotlyService.InheritedPostureTitles | src/modules/plotly/plotly.service.ts:500-511 | the lookup in the name table also finds inherited properties: "constructor" shows as "function Object() { [native code] }", "toString" as "function toString() { [native code] }", "__proto__" as "[object Object]" |
| PlotlyService.CalculatePressureDistribution | src/modules/plotly/plotly.service.ts:104-146 | the nested loop produces exactly the row-by-row grid `Field(p, m)` |
| PlotlyService.FieldShape | src/modules/plotly/plotly.service.ts:111-139 | x, y and z have length n·n (0 for n ≤ 0) |
| PlotlyService.FieldAtCell | src/modules/plotly/plotly.service.ts:111-139 | index i·n+j holds (x_i, y_j) and the pressure at that point |
| PlotlyService.AxisEndpoints | src/modules/plotly/plotly.service.ts:113-116 | the axis runs from -1 to 1 in equal steps of 2/(n-1) and stays within [-1,1] |
| PlotlyService.PressureAtValue | src/modules/plotly/plotly.service.ts:118-133 | outside the unit disk the pressure is 0; inside it lies between the edge pressure and 1.5 times it |
| PlotlyService.FieldValue | src/modules/plotly/plotly.service.ts:111-139 | the same bounds, cell by cell, for the computed field |
| PlotlyService.ContactAreaPositive | src/modules/plotly/plotly.service.ts:104-106 | with a positive power function and positive height and weight, the contact area is positive |
| PlotlyService.GridZsNonNegative | src/modules/plotly/plotly.service.ts:118-136 | every pressure in the grid is non-negative when the edge pressure is |
| PlotlyService.FieldNonNegative | src/modules/plotly/plotly.service.ts:104-139 | for parameters in the schema's ranges the field is defined, the edge pressure is positive and every pressure is non-negative |
| PlotlyService.WalkingConcentratesPressure | src/modules/plotly/plotly.service.ts:65-106 | for the same person, walking has a smaller contact area and a higher base pressure than lying |
| PlotlyService.MinWithZero | src/modules/plotly/plotly.service.ts:162 | zmin is at most 0 and at most every value, and is 0 or one of the values |
| PlotlyService.MaxOf | src/modules/plotly/plotly.service.ts:163 | zmax exists exactly for a non-empty series, is one of its values and is at least every value |
| PlotlyService.PressureDistributionPlot | src/modules/plotly/plotly.service.ts:149-190 | the pressure plot shows the field unchanged, in the requested colour scheme, with a valid colour range and the posture's display name in the title |
| PlotlyService.PrincipalStress | src/modules/plotly/plotly.service.ts:282-294 | one stress per pressure, each the larger principal stress (σxx + σyy)/2 + sqrt(((σxx − σyy)/2)² + σxy²) for σxx = σyy = p·(1+ν) and σxy = p·ν |
| PlotlyService.PrincipalStressAt | src/modules/plotly/plotly.service.ts:282-294 | since σxx = σyy, the principal stress is p·(1+ν) + sqrt((p·ν)²) |
| PlotlyService.PrincipalStressExactSqrt | src/modules/plotly/plotly.service.ts:282-294 | with an exact square root and p, ν ≥ 0, the principal stress is p·(1+2ν) |
| PlotlyService.StressAnalysisPlot | src/modules/plotly/plotly.service.ts:270-324 | the stress plot has the field's x and y, z equal to the principal stress point by point, a valid colour range and the stress title |
| PlotlyService.DeformationFollowsPressure | src/modules/plotly/plotly.service.ts:402-405 | deformation z/E·1000 keeps the order of the pressures and is 0 exactly where the pressure is |
| PlotlyService.DeformationPlot | src/modules/plotly/plotly.service.ts:390-434 | the deformation plot has z[k]/E·1000 at every point, a valid colour range and the deformation title |
| PlotlyService.DispatchByType | src/modules/plotly/plotly.service.ts:612-624 | 'stress_analysis' and 'deformation' select their plots, and any other type selects the pressure plot |
| PlotlyService.SchemaRangesDefinePlot | src/modules/plotly/plotly.service.ts:104-139 | every request within the schema's ranges avoids all the divisions by zero |
| PlotlyService.PublishedHtmlUrl | src/modules/plotly/plotly.service.ts:630-668 | the page URL is the uploaded URL when S3 is enabled and the upload succeeds, else `data:text/html;base64,` plus the encoded page |
| PlotlyService.GeneratePlotImage | src/modules/plotly/plotly.service.ts:520-523 | static image generation never yields an image |
| PlotlyService.ExecuteVisualization | src/modules/plotly/plotly.service.ts:573-766 | the result is 'completed' with the processed parameters; it has no image; the page URL is set for 'html', 'both' and 'image' and absent otherwise; plot data is present exactly for debug requests |
| PlotlyService.DefaultRequestScenario | src/modules/plotly/plotly.service.ts:573-766 | the documented example request completes as a 50×50 pressure plot with a page URL and no image |
| PlotlyController.HoistInputMerges | src/modules/plotly/plotly.controller.ts:159-169 | an object `input` overrides same-named top-level keys, keeps the others and is itself removed |
| PlotlyController.HoistInputKeepsBody | src/modules/plotly/plotly.controller.ts:159-162 | a falsy or non-object `input` leaves the body as it is |
| PlotlyController.FirstMissing | src/modules/plotly/plotly.controller.ts:172-186 | None exactly when every required field is neither undefined nor null; otherwise the first such field in list order |
| PlotlyController.FirstMissingAt | src/modules/plotly/plotly.controller.ts:172-186 | a field that is missing, with every field before it present, is the one the check reports |
| PlotlyController.Visualize | src/modules/plotly/plotly.controller.ts:156-204 | the first missing required field fails the request with its name; otherwise the service result is wrapped as success or as failure |
| PlotlyController.MissingFieldFails | src/modules/plotly/plotly.controller.ts:179-186 | any absent or null required field makes the check report a missing field at or before it in the fixed order |
| PlotlyController.ResponseShape | src/modules/plotly/plotly.controller.ts:191-202 | success is code 200 plus every key of the result; failure is exactly code 500, error, requestId and status 'failed' |
| InitialParams.DefaultParams | src/modules/concept-design/initial-params.ts:118-129 | the result is always one of the three tables |
| InitialParams.DefaultParamsSelects | src/modules/concept-design/initial-params.ts:118-129 | model 0 gives MODEL_0_PARAMS and model 2 gives MODEL_2_PARAMS, each exactly for that number; every other value (strings included) gives MODEL_1_PARAMS |
| InitialParams.CountsWithinMaxima | src/modules/concept-design/initial-params.ts:5-113 | beam_number 4 ≤ MAX_BEAMNUM 5, leg_number 3 ≤ MAX_LEGNUM 5 and leg_number 4 ≤ MAX_LEGNUM 4, each count a positive whole number, for whatever table is picked |
| InitialParams.DefaultParamsNonEmpty | src/modules/concept-design/initial-params.ts:5-113 | every picked table is non-empty and sets MAX_ANGLERADIANS to 90 |
| ConceptDesignService.BaseUrlChoice | src/modules/concept-design/concept-design.service.ts:9-15 | a truthy configured base wins over the environment; a missing base is the "not configured" error; a non-string base is a TypeError; one trailing '/' is stripped |
| ConceptDesignService.BaseUrlStripsOneSlash | src/modules/concept-design/concept-design.service.ts:14 | a base ending in "//" keeps one slash |
| ConceptDesignService.TimeoutScales | src/modules/concept-design/concept-design.service.ts:17-20 | an unset timeout is 900 000 ms, a number of seconds (0 included) is scaled by 1000 |
| ConceptDesignService.BuildHeaders | src/modules/concept-design/concept-design.service.ts:22-30 | Content-Type is always application/json; Authorization is "Bearer " plus the token, present exactly when a token is truthy; no other header |
| ConceptDesignService.BearerPriority | src/modules/concept-design/concept-design.service.ts:25 | the token is api_key, else encryptedData, else the configured bearer, else the environment's, the first truthy one |
| ConceptDesignService.Posted | src/modules/concept-design/concept-design.service.ts:32-45 | the request exists exactly when the base URL does; its URL is base + path and it carries the payload, the headers and the timeout |
| ConceptDesignService.ReplaceQuotes | src/modules/concept-design/concept-design.service.ts:64 | every `'` becomes `"` and every other character stays in place |
| ConceptDesignService.CommaMask | src/modules/concept-design/concept-design.service.ts:64 | marks index i exactly when `s[i]` is a comma followed, in the original text, by white space and then `}` or `]` |
| ConceptDesignService.KeptFrom | src/modules/concept-design/concept-design.service.ts:64 | the unmarked indices from i on, strictly increasing, and no others |
| ConceptDesignService.StripRemovesExactly | src/modules/concept-design/concept-design.service.ts:64 | the comma removal deletes exactly the marked commas: the result is as long as the list of kept indices and its j-th character is `s` at the j-th kept index |
| ConceptDesignService.StripKeepsNonCommas | src/modules/concept-design/concept-design.service.ts:64 | the trailing-comma removal keeps every character that is not a comma, in order |
| ConceptDesignService.StripWithoutTrailingCommas | src/modules/concept-design/concept-design.service.ts:64 | text with no comma before white space and a closing brace or bracket is unchanged |
| ConceptDesignService.RepairShape | src/modules/concept-design/concept-design.service.ts:64 | the repaired text has no `'`, keeps every non-comma character and is never longer |
| ConceptDesignService.RepairIsOnePass | src/modules/concept-design/concept-design.service.ts:64 | the lookahead reads the original text, so ",,}" becomes ",}", and one pass is not always enough |
| ConceptDesignService.ParseParams | src/modules/concept-design/concept-design.service.ts:57-70 | a string that parses after trimming gives that value; otherwise the repaired parse; otherwise the original untrimmed string |
| ConceptDesignService.ParseParamsFallback | src/modules/concept-design/concept-design.service.ts:59-69 | the repair is used only after the direct parse fails, and the original string is kept when both fail |
| ConceptDesignService.Clean | src/modules/concept-design/concept-design.service.ts:49-50 | `__advancedConfig` is dropped, an object's other keys are kept, and falsy inputs give an empty record |
| ConceptDesignService.Coerced | src/modules/concept-design/concept-design.service.ts:53-54 | only strings are converted, to a number or, for NaN, to null; every other value is kept |
| ConceptDesignService.ModelPayload | src/modules/concept-design/concept-design.service.ts:47-78 | exactly it, name, modelid and params of the cleaned inputs, with it and modelid coerced and params reparsed |
| ConceptDesignService.TransformPayload | src/modules/concept-design/concept-design.service.ts:84-88 | exactly it and name, with it coerced |
| ConceptDesignService.AnalyzePayload | src/modules/concept-design/concept-design.service.ts:93-98 | exactly it, filename, force and m_n, with it and force coerced |
| ConceptDesignService.BodiesDependOnWhitelist | src/modules/concept-design/concept-design.service.ts:73-98 | each payload depends only on its whitelisted keys |
| ConceptDesignService.PayloadsIgnoreOtherKeys | src/modules/concept-design/concept-design.service.ts:72-98 | adding any key outside an endpoint's whitelist, `__advancedConfig` included, leaves its payload unchanged |
| ConceptDesignService.Model | src/modules/concept-design/concept-design.service.ts:47-82 | the step-by-step cleaning posts exactly ModelPayload to /api/v1/model, or fails with the base-URL error |
| ConceptDesignService.Transform | src/modules/concept-design/concept-design.service.ts:84-91 | posts exactly TransformPayload to /api/v1/transform |
| ConceptDesignService.Analyze | src/modules/concept-design/concept-design.service.ts:93-101 | posts exactly AnalyzePayload to /api/v1/analyze |
| ConceptDesignController.ResolveInputs | src/modules/concept-design/concept-design.controller.ts:39 | `body.inputs` when it is not nullish, else the body, else `{}`; never null |
| ConceptDesignController.WithDefaults | src/modules/concept-design/concept-design.controller.ts:43-45 | params that are present and non-empty leave the inputs as they are; missing ones succeed exactly for objects and arrays |
| ConceptDesignController.WithDefaultsFills | src/modules/concept-design/concept-design.controller.ts:43-45 | missing params become the table for `modelid ?? fallback`; every other key is kept; a second fill changes nothing |
| ConceptDesignController.FillDefaults | src/modules/concept-design/concept-design.controller.ts:43-45 | the in-place assignment produces the WithDefaults result, or a TypeError on a primitive |
| ConceptDesignController.Model | src/modules/concept-design/concept-design.controller.ts:35-48 | defaults for model 1 are filled in and the result is what the service's `model` posts |
| ConceptDesignController.Transform | src/modules/concept-design/concept-design.controller.ts:64-68 | the resolved inputs go unchanged to the service's `transform` |
| ConceptDesignController.Analyze | src/modules/concept-design/concept-design.controller.ts:89-99 | defaults for model 0 are filled in and the result is what the service's `analyze` posts |
| ConceptDesignController.AnalyzeDefaultsNotForwarded | src/modules/concept-design/concept-design.controller.ts:94-96 | the defaults `analyze` fills in never reach the backend: for object and array inputs the payload is the same as without them |
| ConceptDesignController.StringModelIdGetsModel1Defaults | src/modules/concept-design/concept-design.controller.ts:43-45 | a string modelid "2" gets the model-1 table, while the backend is told model 2 |
| ConceptDesignController.CandidatesShape | src/modules/concept-design/concept-design.controller.ts:126-136 | six `.jpg` names; the first is name+it+"_"+(modelid ?? 0)+"_"+imageType |
| ConceptDesignController.OnlyFirstCandidateNamesModel | src/modules/concept-design/concept-design.controller.ts:126-136 | for requests agreeing on name, it and imageType, the last five names are the same, and the first names agree exactly when the model numbers print the same |
| ConceptDesignController.ImageUrlCases | src/modules/concept-design/concept-design.controller.ts:144-162 | the URL always ends with the fetched path; S3 URLs are kept; an upstream path gets the configured appUrl when that is set and not the localhost default, else protocol://host when the host is not localhost, else stays relative |
| ConceptDesignController.ComposeImageUrl | src/modules/concept-design/concept-design.controller.ts:144-162 | the reassigned `imageUrl` equals that composition |
| ConceptDesignController.FirstFetched | src/modules/concept-design/concept-design.controller.ts:138-174 | None exactly when every candidate fails; otherwise the first candidate that can be fetched |
| ConceptDesignController.FindImage | src/modules/concept-design/concept-design.controller.ts:138-174 | the loop fetches the names in order, stops at the first success and reports it with its URL; it fetches no later name |
| ConceptDesignController.GetImageTool | src/modules/concept-design/concept-design.controller.ts:121-182 | success carries the first fetchable candidate's name and URL; otherwise 'error' with imageUrl null, after all six were tried |
| ConceptDesignController.JoinSix | src/modules/concept-design/concept-design.controller.ts:179 | the error message lists the six names in order, separated by ", " |
| Js.TrimIsInfix | src/modules/concept-design/concept-design.service.ts:58 | `trim` removes white space from both ends only and leaves none there |

## Left out

- IEEE-754 arithmetic is not modelled: numbers are reals, and NaN and the
  infinities are not values. The source divides by zero without failing and
  produces NaN or Infinity. The model instead makes the divisors preconditions
  (`FieldDefined`, `PlotDefined`). These are a grid resolution other than 1,
  a non-zero contact area, 1 − ν² ≠ 0 and E ≠ 0.
  `PlotlyService.SchemaRangesDefinePlot` proves that every request within the
  schema's ranges meets them.
  The timeout conversion `Number(seconds) * 1000` is modelled through a
  numeric-conversion parameter that answers a real or `None` (NaN). It cannot
  express that a configured "Infinity" gives an infinite timeout.
- PlotlyService.ExecuteVisualization: requires `PlotDefined`. The source
  itself accepts a grid resolution of 1 or a zero modulus and returns NaN
  plots. The model does not say what those plots hold.
- PlotlyService.ExecuteVisualization: the plot builders spread the whole series
  into `Math.min(0, ...z)` and `Math.max(...z)`. V8 throws a RangeError when a
  spread passes more arguments than its stack holds, which a very large grid
  (a grid resolution of 1000 gives a million points) reaches; the service then
  rethrows and the request fails. Without the schema nothing bounds the grid
  resolution. The model has no such engine limit and promises 'completed'.
- PlotlyService.PressureAtValue: the disk test is proved for an ideal square
  root (`SqrtSound`). `Math.sqrt` may round a value just above 1 down to 1;
  that point is not covered.
- `Math.pow` and `Math.sqrt` are parameters. Only positivity (`PowPositive`)
  and the ideal square root are ever assumed about them.
- Number formatting in annotations (`toExponential`, `toFixed`) is not
  modelled, and neither are the annotation and layout objects.
- The HTML template, `JSON.stringify`, `JSON.parse` and base64 encoding are
  parameters, and their formats are not stated.
- The S3 helper's construction and configuration are not modelled; the model
  keeps only whether S3 is enabled. The upload, `fetchImageUrl` and the
  upstream HTTP call are parameters that may fail.
- The `getImage` stream-piping endpoint is not modelled; it only relays bytes.
- The catch path around image generation is unreachable, because
  `generatePlotImage` never throws. The service's outer catch only re-wraps
  messages; the controller receives the message through the service
  parameter.
- Logging, decorators, tool metadata, module wiring, the auth guard and config
  loading are not modelled. Neither are the four workflow controllers and
  their service, which hold only fixed workflow IDs.
- `Date.now()` request IDs and `Math.random()` file names are not modelled;
  request IDs are parameters.
- Key order is not modelled: records are maps. Inherited properties matter
  only in the display-name lookup, where the key comes from the request, and
  `PlotlyService.DisplayName` models them. Every other key the handlers read
  is a fixed name that `Object.prototype` does not define.
- PlotlyService.DisplayName: the text of an inherited built-in function is
  V8's rendering of native code. Other engines may print it differently.
- PlotlyService.ExecuteVisualization: `parameters` is the whole processed
  request. The source's object leaves out `visualization_type`, which the
  result carries one level up.
- PlotlyService.ExecuteVisualization: `image_url` is `null` after an image
  attempt and `undefined` when none was made. The model writes both as
  `None`.
- PlotlyService.CalculatePressureDistribution: the grid resolution is an
  integer. The schema guarantees that, but the service alone would also loop
  over a fractional bound, and that case is not modelled.
- ConceptDesignController.FillDefaults: `inputs.params` is assigned in place
  in the source, which also changes `body.inputs`. The model returns the
  updated inputs as a value. Nothing reads the body afterwards, so the
  aliasing is not modelled.
- ConceptDesignService.Coerced: `Number()` results that are NaN or infinite
  are modelled as they reach the backend, as null. The request object itself
  held NaN.
- PlotlyController.Visualize: the body reaches the service without passing
  the schema, because no validation pipe is visible in the source. The
  service call is a parameter.
- A grid resolution of 1 divides by zero in the grid normalisation; the
  model requires it to differ from 1.
