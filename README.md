# Churn prediction API client — a Dafny model

This project models the API client of the churn-prediction dashboard
(`frontend/lib/api.ts`): the `ChurnPredictionAPI` class with its base URL and
its five calls, `checkHealth`, `getModelInfo`, `getFeatureImportance`,
`predict` and `predictBatch`. Three parts are modelled:

- **The request each call issues.** A call sends one request to the client's
  base URL followed by a fixed path. The POST calls send a JSON body with a
  JSON content type. The base URL is the constructor's string argument, "" included.
  When the argument is omitted or `undefined`, it comes from
  `NEXT_PUBLIC_API_URL`, and an unset or empty setting gives
  `http://localhost:8000`.
- **The normalisation of `/model/info` responses.** Each canonical field is
  resolved from an ordered list of backend field names. `||` skips every
  falsy value (undefined, null, `""`, `0`, `false`). `??` skips only null and
  undefined, so a present `0` is kept.
- **The thrown messages.** Every failure is rethrown as
  `new Error(prefix + String(inner))`. A GET call reports a failing status as
  `HTTP error! status: N`. A POST call reads the error body and prefers a
  truthy `detail`.

Files and modules:

- `js_values.dfy` (module `JsValues`) holds the JavaScript semantics the
  client depends on. It covers decoded JSON values, truthiness and
  nullishness, property reads (a read on null throws a TypeError), ToString,
  `new Error(x)` and `Error.prototype.toString`.
- `model_info.dfy` (module `ModelInfoNormalisation`) holds the normaliser as
  written (`Normalise`). It also holds a table-driven reference: an ordered
  candidate list per field, resolved first-match-wins by `Pick`. A lemma
  proves that the two agree.
- `api_client.dfy` (module `PredictionApi`) holds the client, its requests,
  the five calls, and lemmas about their results and messages.

The network and `response.json()` are a parameter. `fetch` is a function
from the request a call issues to an `Outcome`: either `Rejected(error)`, or
`Responded(status, body)`, where the body is either the decoded JSON value or
the error `response.json()` rejects with. A call's result depends on `fetch`
only at the one request the call issues.

A POST call whose error body fails to decode does not let that failure
escape unwrapped. The outer `catch` (frontend/lib/api.ts:160-161 and
184-185) wraps it with the call's prefix, as it wraps every other failure
(`Predict`, `PredictBatch`).

## Model

| member | source | states |
|---|---|---|
| JsValues.OrCoalesceDiffer | frontend/lib/api.ts:110-118 | for distinct operands, logical or and `a ?? b` give different results exactly when `a` is falsy but not nullish (0, "", false) |
| JsValues.NatToDecimal | frontend/lib/api.ts:89 | `${status}` is a non-empty digit string with no leading zero |
| JsValues.DecimalRoundTrip | frontend/lib/api.ts:89 | reading the rendered status back gives the same number |
| JsValues.DecimalInjective | frontend/lib/api.ts:89 | distinct statuses render differently |
| JsValues.NumberTextDenotes | frontend/lib/api.ts:156 | a numeric `detail` prints canonically: "-" exactly for a negative number, a point exactly when the fraction is non-empty and never last, and between them the integer part and the fraction; the integer part is non-empty with no leading zero, the fraction has no trailing zero, and those printed digits, point moved `scale` places right, read back as the magnitude |
| JsValues.NewErrorString | frontend/lib/api.ts:93 | `${new Error(m)}` is "Error: " + m, or "Error" when m is empty |
| ModelInfoNormalisation.Normalise | frontend/lib/api.ts:106-120 | throws exactly when the decoded body is null or undefined; otherwise every field except `model_name` is defined |
| ModelInfoNormalisation.Pick | frontend/lib/api.ts:110-118 | the resolved value is accepted by the field's operator, or it is the field's default |
| ModelInfoNormalisation.PickFirstAccepted | frontend/lib/api.ts:110-118 | first match wins: the value at the first accepted candidate is the result |
| ModelInfoNormalisation.PickNoneAccepted | frontend/lib/api.ts:110-118 | when no candidate is accepted the result is the default, for the `??` metrics 0 as well |
| ModelInfoNormalisation.PickFallback | frontend/lib/api.ts:110-112 | for a rule whose default is not itself accepted (the logical-or fields), the default results only when no candidate is accepted |
| ModelInfoNormalisation.NormaliseMatchesTable | frontend/lib/api.ts:108-120 | the logical-or and `??` chains equal the candidate table: version ← model_version, model_type by truthiness; date ← last_trained, training_date by truthiness; samples by truthiness; metrics by presence; AUC ← roc_auc, auc_score by presence |
| ModelInfoNormalisation.ModelVersionPrecedence | frontend/lib/api.ts:110 | a truthy model_version wins; else a truthy model_type; else "" |
| ModelInfoNormalisation.EmptyModelVersionFallsThrough | frontend/lib/api.ts:110 | an empty-string model_version yields a non-empty model_type |
| ModelInfoNormalisation.TrainingDatePrecedence | frontend/lib/api.ts:111 | a truthy last_trained wins over training_date; else a truthy training_date; else "" |
| ModelInfoNormalisation.SamplesDefault | frontend/lib/api.ts:112 | total_samples_trained is the raw value when truthy, else 0 |
| ModelInfoNormalisation.MetricsKeepPresentValues | frontend/lib/api.ts:114-117 | accuracy, precision, recall and f1_score keep any non-nullish raw value, falsy ones included, else 0 |
| ModelInfoNormalisation.AucPrecedence | frontend/lib/api.ts:118 | a present roc_auc wins, even when 0; else a present auc_score; else 0 |
| ModelInfoNormalisation.AucExamples | frontend/lib/api.ts:118 | roc_auc 0.9 with auc_score 0.5 gives 0.9; only auc_score 0.7 gives 0.7; roc_auc 0 is kept; neither gives 0 |
| ModelInfoNormalisation.ModelNamePassThrough | frontend/lib/api.ts:109 | model_name is copied with no fallback |
| ModelInfoNormalisation.OnlyReadKeysMatter | frontend/lib/api.ts:108-120 | two non-null, non-undefined bodies that agree on the twelve field names read normalise identically |
| ModelInfoNormalisation.DashboardExample | frontend/lib/api.ts:108-120 | a body with name, accuracy, f1_score and roc_auc only gives "" version and date, 0 samples, precision and recall |
| PredictionApi.ApiBaseUrl | frontend/lib/api.ts:6 | a non-empty environment setting is the base URL; an unset or empty one gives http://localhost:8000 |
| PredictionApi.NewClient | frontend/lib/api.ts:78-80 | any string argument, "" included, is kept; an omitted or `undefined` argument takes the environment default |
| PredictionApi.RequestRoundTrip | frontend/lib/api.ts:85-176 | each call requests base URL + its own path; the method, headers, body and batch order determine the call back |
| PredictionApi.UrlsDistinct | frontend/lib/api.ts:87-170 | the five endpoints have five distinct URLs under any base URL |
| PredictionApi.HttpErrorTextInjective | frontend/lib/api.ts:89 | the status can be read back from "HTTP error! status: N" |
| PredictionApi.CheckHealth | frontend/lib/api.ts:85-95 | returns the decoded body unchanged exactly when the response is 2xx and decodes |
| PredictionApi.GetModelInfo | frontend/lib/api.ts:100-124 | returns exactly when the response is 2xx and decodes to a non-null value, and then returns its normalisation |
| PredictionApi.GetFeatureImportance | frontend/lib/api.ts:129-139 | returns the decoded body unchanged, order included, exactly when the response is 2xx and decodes |
| PredictionApi.Predict | frontend/lib/api.ts:144-163 | returns the decoded body unchanged exactly when the response is 2xx and decodes |
| PredictionApi.PredictBatch | frontend/lib/api.ts:168-187 | returns the decoded body unchanged exactly when the response is 2xx and decodes |
| PredictionApi.GetCallFailures | frontend/lib/api.ts:85-139 | GET calls: rejection and undecodable body wrap the inner error; any non-2xx status gives "prefix + Error: HTTP error! status: N" whatever the body; a null model-info body gives the wrapped TypeError |
| PredictionApi.PostCallFailures | frontend/lib/api.ts:144-187 | POST calls: a rejection and an undecodable 2xx body are wrapped; a non-2xx status always throws, with the error body's decode error, else the TypeError for a null body, else a truthy detail, else the generic status text, each after the prefix |
| PredictionApi.DetailPreferred | frontend/lib/api.ts:154-161 | a failing status with string detail "d" throws "Prediction failed: Error: d" |
| PredictionApi.ListDetailExample | frontend/lib/api.ts:178-185 | a detail that is a list of two objects prints as "[object Object],[object Object]" |
| PredictionApi.FailureNamesCall | frontend/lib/api.ts:93 | the five prefixes are prefix-free: a wrapped message parses back to its call and its inner error text |
| PredictionApi.ThrownMessagesParse | frontend/lib/api.ts:92-186 | every message any of the five calls throws parses back to that call |

## Left out

- `fetch`, `async`/`await`, `response.json()` and `process.env` are not modelled as I/O. The network and JSON decoding become the `fetch` parameter and its `Outcome`. The environment setting becomes an optional string.
- Request bodies are kept as the value passed to `JSON.stringify`; the serialised text is not modelled.
- Numbers are exact decimals, as written in the JSON text, not the doubles `JSON.parse` produces. Binary floating point rounding, and the exponent notation ToString uses at or above 1e21 and below 1e-6, are not modelled. This shows in four places:
  - a numeric `detail` in an error message prints every written digit;
  - a literal that underflows to 0 (such as `total_samples_trained: 1e-400`) is falsy in JavaScript and becomes 0, while the model keeps it as a non-zero value;
  - a normalised number keeps every written digit, where JavaScript keeps about 17 significant digits;
  - `Num` is not canonical: `Num(1, 1)` and `Num(10, 2)` are the same JavaScript number but different model values, so model equality (as in `OrCoalesceDiffer`'s `a != b`) is stricter than JavaScript's.
- Property reads model only the field names the client reads. None of them exists on `Object.prototype`, `String.prototype`, `Number.prototype`, `Boolean.prototype` or `Array.prototype`, so a read on a non-object value gives undefined.
- ToJsString renders every object as "[object Object]". A decoded object with its own `toString` key is not modelled: such a value is never callable, so converting it throws a TypeError, which the catch blocks (frontend/lib/api.ts:161 and 185) then wrap. This holds for such an object as the `detail` itself and as an element of a `detail` array, which `join` converts too.
- The TypeError text for a read on null is V8's wording; other engines word it differently.
- The exported singleton `api` (frontend/lib/api.ts:191) is not modelled. It is the constructor with its default argument, which `NewClient` covers.
- The success bodies of `checkHealth`, `getFeatureImportance`, `predict` and `predictBatch` are returned as decoded. The model states that they are unchanged and does not type them.
- The React components in `frontend/components/` are presentation and are not part of this model.
