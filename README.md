# autong-core orchestration, modelled in Dafny

autong-core is a Java test-automation framework. A test suite (YAML read as JSON) imports service
descriptions. Each service owns a transport client and named request templates. A test case is a
list of steps: each step merges its own request over a stored template, has the client resolve
it under a retry/validation aspect, and may capture response values into variables.

This project models the orchestration core of that framework and proves what it promises:

- `json.dfy`, `text.dfy`, `wrappers.dfy`: the Gson JSON tree (objects as ordered member lists),
  the string operations the core uses (`replaceAll("\\s+", "_")`, `split("\\s+")`,
  `toUpperCase`, `equalsIgnoreCase`), and `Result`/`Option` with Java exception kinds.
- `data_util.dfy`: `DataUtil.deepMerge` as a loop over the source keys, with a recursive call
  for nested objects, proved equal to a merge function. Also `extendData`'s `$extends`
  inheritance.
- `settings.dfy`: the `Settings` record and its builder defaults.
- `abstract_client.dfy`, `unirest_client.dfy`, `client_call.dfy`, `client_factory.dfy`: the
  shared client state and request composition; the Unirest client's merge, multipart body,
  method dispatch and response maps; which clients run under the retry aspect; and the
  type-to-client dispatch.
- `runnable_aspect.dfy`: `aroundMethodAop`'s do/while loop, proved equal to a closed-form
  specification (passes, trace of sleeps/calls/validations, outcome), with the retry-budget,
  first-success, delay and validation-gate theorems.
- `service_validator.dfy`, `service_factory.dfy`, `builder_service.dfy`: body normalisation and
  ordered JsonPath checks; the service registry; variable capture; and builder services with
  their mutable template maps.
- `test_runner.dfy`, `testng_runner.dfy`: the two step loops over the registry. Each is proved
  equal to a fold over the steps. The capture is proved to only add failures.
- `test_case.dfy`, `suite_parser.dfy`, `base_config.dfy`, `base_service.dfy`,
  `runnable_factory.dfy`, `legacy_service.dfy`: the TestNG test-case lifecycle and data
  provider, suite selection, the configure-once singleton, the builder state of
  `AbstractBaseService` and `service/Service`, and the memoised `Runnable` slot.

Objects whose fields the Java code updates in place (clients, services, the registry, the
variable cache, the test case's slots, the configuration and runner slots) are Dafny classes
with `modifies` clauses. Each state-changing method is proved against a function of the old
state. External libraries are parameters of the model: file reading, JsonPath, format sniffing
and the network. Where the Java code does something its authors evidently did not intend, the
model states the code as written and a corrected version side by side (see "## Findings").

## Model

| member | source | states |
|---|---|---|
| DataUtil.DeepMerge | src/main/java/org/autong/util/DataUtil.java:494-517 | A null source or target gives back the target unchanged; otherwise the result is the merge of the source into the target (`DeepMerged`). |
| DataUtil.MergeInto | src/main/java/org/autong/util/DataUtil.java:499-515 | The loop over the source keys, with the recursive call for nested objects, computes the merge fold. |
| DataUtil.MergeGet | src/main/java/org/autong/util/DataUtil.java:499-515 | A key the source lacks keeps the target's value; a source key gets the merge of the source value over the target's. |
| DataUtil.MergeRules | src/main/java/org/autong/util/DataUtil.java:501-513 | Key by key: a key missing from the target is copied; two arrays concatenate, target elements first, with no de-duplication; two objects merge recursively; otherwise the source value replaces the target's. |
| DataUtil.MergeKeys | src/main/java/org/autong/util/DataUtil.java:499-516 | The target's keys keep their positions at the front; the merged keys are exactly the keys of both sides. |
| DataUtil.MergeUnique | src/main/java/org/autong/util/DataUtil.java:499-516 | A target without duplicate keys stays without them. |
| DataUtil.MergeSelf | src/main/java/org/autong/util/DataUtil.java:494-517 | An array-free object merged into itself is unchanged. |
| DataUtil.MergeIdempotentWithoutArrays | src/main/java/org/autong/util/DataUtil.java:494-517 | Merging an array-free source a second time changes nothing. |
| DataUtil.MergeTwiceAppendsTwice | src/main/java/org/autong/util/DataUtil.java:505-506 | Merging a source whose value under a key is an array twice appends that array twice. |
| DataUtil.MergeNotIdempotentWithArrays | src/main/java/org/autong/util/DataUtil.java:505-506 | A concrete source with an array for which merging twice differs from merging once. |
| DataUtil.ExtendData | src/main/java/org/autong/util/DataUtil.java:763-785 | Without `$extends` the document comes back as is. Otherwise the base is loaded from the named path, and the child without `$extends` is merged over the base. A null base gives null; a failing load or a non-string path is the error. |
| DataUtil.ExtendedDocument | src/main/java/org/autong/util/DataUtil.java:780-781 | The extended document starts with the base's keys. `$extends` comes only from the base. Child keys are merged over the base, so child scalars win. Keys only the base has keep the base's values. |
| AbstractClient.IgnoresBaseHeaders | src/main/java/org/autong/service/AbstractClient.java:88 | A missing `ignoreBaseHeaders` reads as false; `true` reads as true. |
| AbstractClient.Client.constructor | src/main/java/org/autong/service/AbstractClient.java:36-39 | Stores the kind, baseline settings, default and base request, with the three per-call slots empty. |
| AbstractClient.Client.Create | src/main/java/org/autong/service/AbstractClient.java:36-39 | The base request is `mergeRequest(request)` computed while there is no base request: the request merged over the default request. A null request fails construction. |
| AbstractClient.Client.MergeRequestWith | src/main/java/org/autong/service/AbstractClient.java:80-94 | The composed request is `RequestMerge(baseRequest, source, target)`: the source merged over the base request (or over the target without one), after dropping `headers` when the source sets `ignoreBaseHeaders`. |
| AbstractClient.Client.MergeRequest | src/main/java/org/autong/service/queue/KafkaClient.java:60-62 | `mergeRequest(request)` is the two-argument merge with the client's default request as target. |
| AbstractClient.Client.Reset | src/main/java/org/autong/service/AbstractClient.java:46-50 | Clears the settings override, expected result and validator. The baseline and base request are constants. |
| AbstractClient.Client.WithSettings | src/main/java/org/autong/service/AbstractClient.java:54-57 | Sets only the override and returns the same client. |
| AbstractClient.Client.WithValidator | src/main/java/org/autong/service/AbstractClient.java:61-64 | Sets only the validator and returns the same client. |
| AbstractClient.Client.WithExpectedResult | src/main/java/org/autong/service/AbstractClient.java:68-71 | Sets only the expected result and returns the same client. |
| AbstractClient.RequestMergeNull | src/main/java/org/autong/service/AbstractClient.java:81-82 | A null source or target request throws, even when a base request exists. |
| AbstractClient.RequestMergeIgnoresTarget | src/main/java/org/autong/service/AbstractClient.java:84-86 | Once a base request exists, the target argument plays no part. |
| AbstractClient.RequestMergeKeys | src/main/java/org/autong/service/AbstractClient.java:81-93 | A key the source does not set comes from the base (or target); a source scalar wins. With `ignoreBaseHeaders`, `headers` comes from the source alone; without it, the source headers are merged over the base's. |
| UnirestClient.MergeRequest | src/main/java/org/autong/service/rest/UnirestClient.java:58-71 | Composes exactly as the shared composition, over the default REST request, or over the base request when there is one. |
| UnirestClient.MergeOverDefaults | src/main/java/org/autong/service/rest/UnirestClient.java:60-69 | Without a base request, every key the new request leaves out takes its default (`verifySsl` false), and the new request's scalars win. |
| UnirestClient.MethodNamed | src/main/java/org/autong/enums/HttpMethod.java:9-18 | A name that reads as a constant is that constant's name. |
| UnirestClient.MethodRoundTrip | src/main/java/org/autong/enums/HttpMethod.java:9-18 | A method written under `method` reads back as itself, and a method read back was written under its own name. |
| UnirestClient.RouteRules | src/main/java/org/autong/service/rest/UnirestClient.java:76-80 | A `multiPart` object always takes the multipart path, which accepts only POST, PUT and PATCH. Otherwise the request takes the plain path, which accepts exactly GET, POST, PUT, PATCH and DELETE. Any other method throws `Invalid method type <name>`, and a null method throws NullPointerException. |
| UnirestClient.MultipartMethods | src/main/java/org/autong/service/rest/UnirestClient.java:207-213 | On the multipart path, with headers present and the fields built, the method alone decides between the call and `UnirestConfigException`. |
| UnirestClient.BuildMultiPartBody | src/main/java/org/autong/service/rest/UnirestClient.java:182-194 | The nested loop fills the map exactly as the specification function `MultiPartBody` does. |
| UnirestClient.FilesFromLast | src/main/java/org/autong/service/rest/UnirestClient.java:185-188 | An array value leaves its key holding the last path; an empty array adds nothing. |
| UnirestClient.MultiPartFields | src/main/java/org/autong/service/rest/UnirestClient.java:184-192 | A scalar member becomes its text, an array member its last file path, an empty array no field; every field comes from a member. |
| UnirestClient.PutAllGet | src/main/java/org/autong/service/rest/UnirestClient.java:112-117 | After the puts, a key holds the value of the last pair with its name, or its old value when no pair names it. |
| UnirestClient.FirstValue | src/main/java/org/autong/service/rest/UnirestClient.java:109 | `getFirst` gives the value of the first header whose name matches ignoring case, and "" when none matches. |
| UnirestClient.ResponseHeaderValue | src/main/java/org/autong/service/rest/UnirestClient.java:112-133 | In the headers map, a name carried by a cookie shows the last cookie's value; otherwise the last header's; nothing else is in the map. |
| UnirestClient.PutPairs | src/main/java/org/autong/service/rest/UnirestClient.java:113-116 | The `forEach` of puts yields `PutAll`. |
| UnirestClient.BuildTextResponse | src/main/java/org/autong/service/rest/UnirestClient.java:101-136 | Status, status line, first `Content-Type`, body (else the parsing-error body) are copied. The headers map holds the headers and then the cookies. The attached cookies map is empty whenever the response has cookies. |
| UnirestClient.CookieLandsInHeaders | src/main/java/org/autong/service/rest/UnirestClient.java:127-133 | One cookie and no header: the cookie shows up as a header. |
| UnirestClient.BuildTextResponseIntended | src/main/java/org/autong/service/rest/UnirestClient.java:127-133 | Corrected: the headers map holds only the headers, and the cookies map holds the cookies. |
| UnirestClient.IntendedMaps | src/main/java/org/autong/service/rest/UnirestClient.java:112-133 | In the corrected maps a name is a header (or cookie) exactly when one carries it, with the last such value. |
| ClientCall.Resolve | src/main/java/org/autong/service/queue/KafkaClient.java:72-73 | An advised client (SOAP, Kafka) runs the retry aspect with the policy it held before the call, and its slots are cleared. Any other client makes one direct call and keeps its slots. |
| ClientCall.DirectIsSinglePass | src/main/java/org/autong/aspect/RunnableAspect.java:94-105 | A direct call ends as the aspect does around a non-client: one pass, its failure rethrown. |
| ClientFactory.TypeNamed | src/main/java/org/autong/service/ClientFactory.java:59-61 | A name that resolves is the constant's exact name. |
| ClientFactory.ValueOf | src/main/java/org/autong/service/ClientFactory.java:59-61 | `valueOf`: exact-name lookup; a null name throws NullPointerException, an unknown one IllegalArgumentException. |
| ClientFactory.ValueOfName | src/main/java/org/autong/enums/ClientType.java:9-21 | Every constant is found by its own name. |
| ClientFactory.DispatchRules | src/main/java/org/autong/service/ClientFactory.java:30-46 | REST and REST_RESTASSURED give the REST RestAssured client; REST_UNIREST gives Unirest; SOAP and SOAP_RESTASSURED give the SOAP client; DATABASE_ORACLE gives Oracle; QUEUE_KAFKA gives Kafka. Exactly Cassandra, MongoDB, Postgres, Tibco and Redis throw `NotImplementedException`. |
| ClientFactory.GetClient | src/main/java/org/autong/service/ClientFactory.java:28-48 | Fails exactly as the dispatch or the base-request merge fails. Otherwise it gives a new client of the dispatched class, with the given settings, the request merged over the class's default, and empty slots. |
| ClientFactory.GetClientByName | src/main/java/org/autong/service/ClientFactory.java:59-61 | An unknown or null name throws before any client is built; otherwise as `GetClient`. |
| RunnableAspect.WaitEvents | src/main/java/org/autong/aspect/RunnableAspect.java:205-232 | At most one sleep per pass. None without settings. The retry delay on a retry pass. On the first pass, the initial delay only when it is positive. |
| RunnableAspect.MaxPasses | src/main/java/org/autong/aspect/RunnableAspect.java:94-97 | The pass budget is at least one. |
| RunnableAspect.PassesFrom | src/main/java/org/autong/aspect/RunnableAspect.java:82-97 | The pass count stays within the budget, and the last pass succeeded or used up the budget. |
| RunnableAspect.Passes | src/main/java/org/autong/aspect/RunnableAspect.java:82-97 | Between one and the budget passes. |
| RunnableAspect.RunLoop | src/main/java/org/autong/aspect/RunnableAspect.java:78-105 | The do/while loop makes `Passes` passes, records `TraceOf` those passes, and ends with `OutcomeOf`. |
| RunnableAspect.OutcomeAfter | src/main/java/org/autong/aspect/RunnableAspect.java:101-105 | Given the last failure and the latest produced value, the outcome is the rethrow-or-return rule. |
| RunnableAspect.PassUnfolds | src/main/java/org/autong/aspect/RunnableAspect.java:82-97 | One pass extends the trace by its events, updates the latest value, and continues only after a failure within budget. |
| RunnableAspect.EffectiveSettings | src/main/java/org/autong/aspect/RunnableAspect.java:156-183 | No settings for a non-client; the per-call override when set; else the client's baseline. Fields are never mixed. |
| RunnableAspect.AroundMethod | src/main/java/org/autong/aspect/RunnableAspect.java:69-106 | The outcome and trace are those of the policy captured before the loop. The client's override, validator and expected result are cleared. |
| RunnableAspect.RetryBudget | src/main/java/org/autong/aspect/RunnableAspect.java:82-97 | With settings, retry on and `maxRetries` = n >= 0: at most n+1 passes, and exactly n+1 when every pass fails. |
| RunnableAspect.SinglePass | src/main/java/org/autong/aspect/RunnableAspect.java:94-95 | Without settings or with retry off, exactly one pass. |
| RunnableAspect.StopsAtFirstSuccess | src/main/java/org/autong/aspect/RunnableAspect.java:85-97 | If pass k is the first success within the budget, there are exactly k+1 passes and no final failure. |
| RunnableAspect.StopsFrom | src/main/java/org/autong/aspect/RunnableAspect.java:94-97 | Counted from pass i, the loop stops right after the first success. |
| RunnableAspect.EarlierPassesFailed | src/main/java/org/autong/aspect/RunnableAspect.java:94-97 | Every pass before the last one failed. |
| RunnableAspect.WaitTimesAppend | src/main/java/org/autong/aspect/RunnableAspect.java:205-208 | The sleeps of two traces put together are the sleeps of each, in order. |
| RunnableAspect.Repeat | src/main/java/org/autong/aspect/RunnableAspect.java:210-221 | k copies of a delay. |
| RunnableAspect.PassWaits | src/main/java/org/autong/aspect/RunnableAspect.java:205-232 | The sleep of pass i: the retry delay after the first pass, the positive initial delay on the first, none without settings. |
| RunnableAspect.NoWaits | src/main/java/org/autong/aspect/RunnableAspect.java:85-86 | Calls and validations are not sleeps. |
| RunnableAspect.TraceWaits | src/main/java/org/autong/aspect/RunnableAspect.java:205-232 | Over n passes: the initial delay once, when positive, then n-1 retry delays. `isRetry` is never reset. |
| RunnableAspect.InterruptedSleepIsRetried | src/main/java/org/autong/aspect/RunnableAspect.java:83-92 | An interrupted sleep fails the pass with the wrapped `InterruptedException`, and the loop goes on while the budget lasts. |
| RunnableAspect.ValidationGate | src/main/java/org/autong/aspect/RunnableAspect.java:143-154 | The validator is called only with settings, `enableValidator` set and a validator present. A null result is validated as `{}`, and a rejecting validator fails the pass. |
| RunnableAspect.OutcomeRules | src/main/java/org/autong/aspect/RunnableAspect.java:99-105 | A final failure is rethrown without settings or with `throwOnError`. Otherwise the latest value the work returned comes back, even one that failed validation. After a success, that pass's value comes back. |
| RunnableAspect.LastProducedIsLatest | src/main/java/org/autong/aspect/RunnableAspect.java:85 | `object` is the value of the latest pass whose work returned. |
| RunnableAspect.DefaultPolicy | src/main/java/org/autong/settings/Settings.java:15-20 | Under the default settings: at most three passes, no initial sleep, 1000 ms before each retry, final failure rethrown. |
| RunnableAspect.NoClientNoPolicy | src/main/java/org/autong/aspect/RunnableAspect.java:156-169 | A non-client target gets one pass, no sleep, no validation, its failure rethrown. |
| ServiceValidator.NormalizeBodyRules | src/main/java/org/autong/service/builder/ServiceValidator.java:34-41 | Only `body` changes and the key order stays. A JSON body becomes its parsed object, an XML body its conversion, any other body is kept. Without a body, nothing changes. |
| ServiceValidator.StepsOf | src/main/java/org/autong/service/builder/ServiceValidator.java:44-46 | Succeeds exactly when the expected result is non-null and `steps` is an array, and gives its elements. |
| ServiceValidator.CheckOne | src/main/java/org/autong/service/builder/ServiceValidator.java:47-48 | An expression passes exactly when it is a string whose read succeeds and selects a non-empty list. |
| ServiceValidator.CheckExpressions | src/main/java/org/autong/service/builder/ServiceValidator.java:46-49 | The loop stops at the first failing expression (`FirstFailure`). |
| ServiceValidator.CheckFromFirst | src/main/java/org/autong/service/builder/ServiceValidator.java:46-49 | The loop fails exactly when some expression fails, and then with the failure of the first such expression. |
| ServiceValidator.FirstFailureOfAppend | src/main/java/org/autong/service/builder/ServiceValidator.java:46-49 | After a failure, later expressions play no part; with no failure, the verdict is that of what follows. |
| ServiceValidator.CheckFromShift | src/main/java/org/autong/service/builder/ServiceValidator.java:46-49 | The loop from index i is the loop over the suffix. |
| ServiceValidator.ValidationPasses | src/main/java/org/autong/service/builder/ServiceValidator.java:31-50 | Validation passes exactly when the body normalises, `steps` is an array, and every expression selects a non-empty list of the normalised response. |
| ServiceValidator.Validate | src/main/java/org/autong/service/builder/ServiceValidator.java:31-50 | Throws `ValidationError`, and leaves the caller's `actual` with its body normalised in place. |
| ServiceFactory.FormatResponse | src/main/java/org/autong/service/builder/ServiceFactory.java:109-120 | The same body normalisation as the validator. |
| ServiceFactory.Validate | src/main/java/org/autong/service/builder/ServiceFactory.java:72-81 | Throws exactly what `ServiceValidator.validate` throws on the same input. |
| ServiceFactory.VarCache.constructor | src/main/java/org/autong/test/testng/TestRunner.java:96 | A test case's cache starts empty. |
| ServiceFactory.SetVars | src/main/java/org/autong/service/builder/ServiceFactory.java:91-100 | The cache gains the captured values over its old entries: each value is the `toJsonElement` of the JsonPath selection, so a selected string is parsed again. The failure is the capture's. A step without a `variables` object throws. |
| ServiceFactory.CaptureFromGet | src/main/java/org/autong/service/builder/ServiceFactory.java:96-99 | Each variable ends up holding `toJsonElement` of its path's value: a selected string is cached as Gson parses it, anything else as it was selected. |
| ServiceFactory.CaptureFromFirst | src/main/java/org/autong/service/builder/ServiceFactory.java:96-99 | The loop fails exactly when some variable's path, read or re-parse fails, and then with the first such variable's failure. |
| ServiceFactory.CaptureFromKeep | src/main/java/org/autong/service/builder/ServiceFactory.java:96-99 | A name no variable carries keeps its value. |
| ServiceFactory.CaptureRules | src/main/java/org/autong/service/builder/ServiceFactory.java:91-100 | The capture throws exactly when some variable fails: a path that is not a string, a read JsonPath rejects, or a selected string Gson cannot parse (`toJsonElement`). It throws the first such failure. A capture that does not throw writes exactly the step's variable names, each with `toJsonElement` of its path's value in the normalised response. |
| ServiceFactory.StringSelectionIsReparsed | src/main/java/org/autong/util/DataUtil.java:344-351 | A selected string that Gson rejects as a JSON document ends the capture with Gson's exception, although JsonPath found it. |
| ServiceFactory.RegisterLastWins | src/main/java/org/autong/service/builder/ServiceFactory.java:36-42 | A name is registered with the description of the last import carrying it. |
| ServiceFactory.RegisterKeep | src/main/java/org/autong/service/builder/ServiceFactory.java:36-42 | Imports with other names leave a name as it was. |
| ServiceFactory.LoadImport | src/main/java/org/autong/service/builder/ServiceFactory.java:37-41 | One import: it reads the path and builds the service before it reads the name. It fails exactly as `ImportOf` fails. |
| ServiceFactory.RegisterKeepsServices | src/main/java/org/autong/service/builder/ServiceFactory.java:41 | Registering a new service keeps every name holding a distinct, correctly built service. |
| ServiceFactory.Registry.constructor | src/main/java/org/autong/service/builder/ServiceFactory.java:22 | `serviceMap` starts unassigned (null), with nothing registered. |
| ServiceFactory.Registry.Get | src/main/java/org/autong/service/builder/ServiceFactory.java:52-54 | Before any `initialize` has assigned the map, throws NullPointerException. After it, the service registered under the name, or null. |
| ServiceFactory.Registry.Initialize | src/main/java/org/autong/service/builder/ServiceFactory.java:32-43 | A missing or malformed `$import` throws before the map is replaced, and an unassigned map stays unassigned. Otherwise the map is assigned afresh, and every name holds a new service built from the last description registered under it. A failing import stops the loop. |
| BuilderService.ApisLastWins | src/main/java/org/autong/service/builder/Service.java:43-47 | The api stored under a name is the last api carrying it. |
| BuilderService.ApisKeep | src/main/java/org/autong/service/builder/Service.java:43-47 | Apis with other names leave a name as it was. |
| BuilderService.Service.constructor | src/main/java/org/autong/service/builder/Service.java:38 | The request map starts empty. |
| BuilderService.Service.Create | src/main/java/org/autong/service/builder/Service.java:32-40 | Builds the client named by `client`, with default settings and the description as request, then the request map. It fails with the first failing step. |
| BuilderService.Service.InitializeServiceMap | src/main/java/org/autong/service/builder/Service.java:43-47 | The loop fills the map as `RequestMapOf`, or fails with its error. |
| BuilderService.Service.GetRequest | src/main/java/org/autong/service/builder/Service.java:57-59 | The stored template, or null for an unknown name. |
| BuilderService.Service.MergeTemplate | src/main/java/org/autong/service/builder/Service.java:71 | The caller's request is merged over the template. The stored template becomes the merged request. An unknown name merges over null and keeps nothing. |
| BuilderService.Service.Run | src/main/java/org/autong/service/builder/Service.java:70-77 | The template keeps the merge. The client then composes the request and resolves it, and the outcome is read back as a JSON object. An advised client that reaches `resolve` has its three per-call slots cleared. When the composition fails, or the client is not advised, the client is left unchanged. |
| BuilderService.ResponseObject | src/main/java/org/autong/service/builder/Service.java:72 | Succeeds exactly for a returned JSON object; a thrown exception passes through. |
| TestRunner.CaseName | src/main/java/org/autong/test/testng/TestRunner.java:81-84 | Succeeds exactly when `testcaseId` and `testcaseName` read as strings; the name holds no whitespace. |
| TestRunner.CaseNameRules | src/main/java/org/autong/test/TestRunner.java:79-82 | Apart from `_`, the name spells the id's and then the name's non-whitespace characters. It is `id__name` when neither has whitespace. |
| TestRunner.RequestOf | src/main/java/org/autong/test/TestRunner.java:99 | A missing `request` is null, an object is taken, anything else fails the cast. |
| TestRunner.TargetOf | src/main/java/org/autong/test/TestRunner.java:97-104 | A step that reads names a registered service. |
| TestRunner.TargetOfRules | src/main/java/org/autong/test/TestRunner.java:97-101 | A step reads exactly when it is an object whose request, `service` and `method` read and whose service is registered. The `getRequest(method)` argument is read before the null service is dereferenced, so a bad `method` is reported even for an unregistered service. An unregistered service throws only once `method` has read. |
| TestRunner.Resolved | src/main/java/org/autong/test/TestRunner.java:106-109 | What `resolve` returned, or what it threw. |
| TestRunner.CallOn | src/main/java/org/autong/test/TestRunner.java:103-109 | The call changes only the client's override, which only an advised client clears. A discarded request fails. |
| TestRunner.TouchedInFootprint | src/main/java/org/autong/test/TestRunner.java:103-104 | A step touches only registered objects. |
| TestRunner.CallOnClient | src/main/java/org/autong/test/TestRunner.java:106-109 | The outcome and override are `CallOn`'s. The validator is installed before `validation` is read. An advised client that reaches `resolve` leaves with the validator and expected result cleared. Otherwise the client keeps the validator and the step's `validation` (its old expected result when `validation` does not read). |
| TestRunner.StepOnService | src/main/java/org/autong/test/TestRunner.java:97-109 | One step on its service equals `StepOn` on the service's view. |
| TestRunner.CallOnTemplates | src/main/java/org/autong/test/TestRunner.java:106-109 | The call does not touch the templates. |
| TestRunner.StepSpecOn | src/main/java/org/autong/test/TestRunner.java:95-109 | A step whose target reads is the step on the named service. |
| TestRunner.RunStep | src/main/java/org/autong/test/TestRunner.java:95-110 | The loop body equals `StepSpec` on the registry's view. |
| TestRunner.Runner.constructor | src/main/java/org/autong/test/TestRunner.java:29 | No test name before a test case has set one. |
| TestRunner.Runner.BeforeMethod | src/main/java/org/autong/test/TestRunner.java:73-84 | The name is set only when the first parameter is a JSON object. A failed name read throws and keeps the old name. |
| TestRunner.Runner.Run | src/main/java/org/autong/test/TestRunner.java:93-111 | The loop equals `RunSpec`: steps in array order, stopping at the first that throws; the registry afterwards is the fold's. |
| TestRunner.AdvisedStepIsValidated | src/main/java/org/autong/test/TestRunner.java:106-109 | On an advised client with the validator enabled and failures rethrown, a returned response passed every expression of the step's `validation`. |
| TestRunner.StepFrame | src/main/java/org/autong/test/TestRunner.java:97-109 | A step leaves every other service as it was. The named service keeps its client's configuration. |
| TestRunner.StepKeepsMerge | src/main/java/org/autong/test/TestRunner.java:97-101 | The stored template afterwards is the step's request merged over the old template. A null merge keeps the templates and fails the step. |
| TestRunner.RunStopsAtFailure | src/main/java/org/autong/test/TestRunner.java:95-110 | Every step before the failing one returned, and no step after it ran. |
| TestngRunner.Run | src/main/java/org/autong/test/testng/TestRunner.java:95-118 | The loop with a new, empty cache equals the fold with capture, whose cached values are `toJsonElement` of the selections; the registry afterwards is the fold's. |
| TestngRunner.StepAndCapture | src/main/java/org/autong/test/testng/TestRunner.java:101-116 | The step as in the plain runner, then, when the step returned, `setVars` into the cache: selections re-parsed, the first failing variable ending the step. |
| TestngRunner.CaptureAfter | src/main/java/org/autong/test/testng/TestRunner.java:116 | The capture after a step that returned, re-parse failures included; a step that threw is passed on with the cache unchanged. |
| TestngRunner.StepReadsObject | src/main/java/org/autong/test/testng/TestRunner.java:101-105 | A step that returned was a JSON object. |
| TestngRunner.CaptureOnlyAddsFailures | src/main/java/org/autong/test/testng/TestRunner.java:96-117 | The cache is never read. A test case the TestNG runner passes, the plain runner passes with the same responses and registry. A test case the plain runner fails, the TestNG runner fails too. The capture it adds is the one with re-parsing. |
| TestCase.StringField | src/main/java/org/autong/test/testng/TestCase.java:133-135 | Gson's `String` field: a primitive gives its text; null or missing gives null; an array or object throws JsonSyntaxException. |
| TestCase.ObjectField | src/main/java/org/autong/test/testng/TestCase.java:133-135 | A missing member is null, an object is kept, anything else throws JsonSyntaxException. |
| TestCase.ToTestData | src/main/java/org/autong/test/testng/TestCase.java:133-135 | Null is a null test case; a non-object throws. |
| TestCase.ToTestDataList | src/main/java/org/autong/test/testng/TestCase.java:132-135 | Every element is converted, in order. The first element that cannot be converted fails the list. |
| TestCase.TestDataOfObject | src/main/java/org/autong/test/testng/TestCase.java:133-135 | An object with string id and name converts to that test case. |
| TestCase.Matches | src/main/java/org/autong/test/testng/TestCase.java:145 | A null test case or id throws NullPointerException. Otherwise the id matches ignoring case. |
| TestCase.FilterByIdMembers | src/main/java/org/autong/test/testng/TestCase.java:142-146 | The filter succeeds exactly when every test case and id is non-null. It then keeps exactly those whose id equals the property ignoring case. |
| TestCase.FilterByIdAppend | src/main/java/org/autong/test/testng/TestCase.java:142-146 | The filter keeps list order: filtering a concatenation is filtering each part in turn. |
| TestCase.NoArrayProvidesNothing | src/main/java/org/autong/test/testng/TestCase.java:130-131 | No array under the method's name gives no test cases. |
| TestCase.ProvidedFromArray | src/main/java/org/autong/test/testng/TestCase.java:137-146 | Without `testcaseId`, every test case in order. With it, exactly those whose id matches ignoring case. |
| TestCase.LoadedOnce | src/main/java/org/autong/test/testng/TestCase.java:52-57 | Once loaded, later calls return the cached data, whatever the resource now holds. |
| TestCase.Provider | src/main/java/org/autong/test/testng/TestCase.java:129-149 | A failed load passes through, and null suite data throws NullPointerException. Otherwise the result is `Provided`. |
| TestCase.MethodTestName | src/main/java/org/autong/test/testng/TestCase.java:106-111 | Succeeds exactly when id and name are non-null. The id is checked first. |
| TestCase.MethodTestNameRules | src/main/java/org/autong/test/testng/TestCase.java:106-111 | The name ends with `__` and the method's name, and holds no whitespace when the method name holds none. It is `id__name__method` when id and name have none. |
| TestCase.TestCase.constructor | src/main/java/org/autong/test/testng/TestCase.java:33-36 | All three slots start empty. |
| TestCase.TestCase.SetTestDataResourcePath | src/main/java/org/autong/test/testng/TestCase.java:43-45 | Sets only the path. |
| TestCase.TestCase.GetSuiteTestData | src/main/java/org/autong/test/testng/TestCase.java:52-57 | Reads only when the slot is empty and keeps what it read. A failed read leaves the slot as it was. |
| TestCase.TestCase.BeforeSuite | src/main/java/org/autong/test/testng/TestCase.java:67-69 | Configures from the system properties (`configure()`). |
| TestCase.TestCase.AfterSuite | src/main/java/org/autong/test/testng/TestCase.java:73-76 | Clears the data and the path and keeps the name. |
| TestCase.TestCase.BeforeClass | src/main/java/org/autong/test/testng/TestCase.java:80-85 | Without a path, throws `InvalidParameterException`. Otherwise it reads the data into the slot, or passes the read's failure on. |
| TestCase.TestCase.AfterClass | src/main/java/org/autong/test/testng/TestCase.java:89-91 | Clears only the data. |
| TestCase.TestCase.BeforeMethod | src/main/java/org/autong/test/testng/TestCase.java:100-113 | Sets the name only when the first parameter is a `TestData`. A null id or name throws and keeps the old name. |
| TestCase.TestCase.AfterMethod | src/main/java/org/autong/test/testng/TestCase.java:117-119 | Clears only the name. |
| TestCase.TestCase.DataProvider | src/main/java/org/autong/test/testng/TestCase.java:129-149 | The result is `Provider` over the lazily loaded data, and the slot is as after the load. |
| SuiteParser.FindFrom | src/main/java/org/autong/test/testng/SuiteParser.java:39-42 | A found index is the first suite named exactly so. Not found: every name read and differed. An unreadable name before a match throws. |
| SuiteParser.SelectsFirstMatch | src/main/java/org/autong/test/testng/SuiteParser.java:33-48 | A selected suite is the first carrying the wanted name, and the wanted name is the `suite` property when it is set. |
| SuiteParser.MissingSuiteThrows | src/main/java/org/autong/test/testng/SuiteParser.java:43-45 | No suite with the property's name: `Did not find suite - <name>`. |
| SuiteParser.NoPropertyPicksFirst | src/main/java/org/autong/test/testng/SuiteParser.java:34-42 | Without the property, a non-empty list whose first name reads selects the first suite. |
| SuiteParser.NoSuitesKeepsStream | src/main/java/org/autong/test/testng/SuiteParser.java:51 | Without a `suites` array the original stream is parsed. |
| BaseConfig.NewConfig | src/main/java/org/autong/config/BaseConfig.java:22-27 | The contexts are exactly "DEFAULT" plus the given ones. |
| BaseConfig.PropertyContextSet | src/main/java/org/autong/config/BaseConfig.java:37-43 | The `HashSet` filled from the split property is `PropertyContexts`. |
| BaseConfig.PropertyConfigNormalised | src/main/java/org/autong/config/BaseConfig.java:35-43 | The env is upper case and equals the property ignoring case. The contexts are exactly the upper-cased pieces of the property, none holding whitespace. |
| BaseConfig.JsonContextSet | src/main/java/org/autong/config/BaseConfig.java:60-68 | The loop over `context` is `JsonContexts`. |
| BaseConfig.ContextsFromRules | src/main/java/org/autong/config/BaseConfig.java:63-65 | The fold fails exactly when some element is not a string, and otherwise collects the upper-cased texts. |
| BaseConfig.JsonConfigRules | src/main/java/org/autong/config/BaseConfig.java:54-71 | A missing `env` is "DEFAULT"; a present one is upper-cased. A missing `context` is {"DEFAULT"}. A null document configures the defaults. |
| BaseConfig.JsonContextsOfStrings | src/main/java/org/autong/config/BaseConfig.java:62-65 | A `context` array of strings gives exactly their upper-cased texts. |
| BaseConfig.Configuration.constructor | src/main/java/org/autong/config/BaseConfig.java:20 | The slot starts empty. |
| BaseConfig.Configuration.Reconfigure | src/main/java/org/autong/config/BaseConfig.java:95-98 | Always replaces the slot with the new configuration and returns it. |
| BaseConfig.Configuration.Configure | src/main/java/org/autong/config/BaseConfig.java:80-85 | Once a configuration exists it is returned and the arguments are ignored; otherwise `reconfigure`. |
| BaseConfig.Configuration.ConfigureFromProperties | src/main/java/org/autong/config/BaseConfig.java:34-46 | `configure()` over the normalised properties. |
| BaseConfig.Configuration.ConfigureFromJson | src/main/java/org/autong/config/BaseConfig.java:54-71 | An unreadable member throws before the slot is looked at. Otherwise `configure` with the normalised env and contexts. |
| BaseService.BaseService.constructor | src/main/java/org/autong/service/base/AbstractBaseService.java:32-35 | Stores the settings with the three slots empty. |
| BaseService.BaseService.Reset | src/main/java/org/autong/service/base/AbstractBaseService.java:42-46 | Clears the three slots; `settings` is a constant. |
| BaseService.BaseService.WithSettings | src/main/java/org/autong/service/base/AbstractBaseService.java:50-53 | Sets only the override and returns itself. |
| BaseService.BaseService.WithValidator | src/main/java/org/autong/service/base/AbstractBaseService.java:57-60 | Sets only the validator and returns itself. |
| BaseService.BaseService.WithExpectedResult | src/main/java/org/autong/service/base/AbstractBaseService.java:64-67 | Sets only the expected result and returns itself. |
| RunnableFactory.RunnableFactory.constructor | src/main/java/org/autong/runner/RunnableFactory.java:12 | The slot starts empty. |
| RunnableFactory.RunnableFactory.Get | src/main/java/org/autong/runner/RunnableFactory.java:32-39 | A new instance over the given settings when the slot is empty or `newInstance` holds. Otherwise the held instance, whatever the settings. Never null. |
| RunnableFactory.RunnableFactory.GetDefault | src/main/java/org/autong/runner/RunnableFactory.java:21-23 | `get(default settings, false)`. |
| LegacyService.Service.constructor | src/main/java/org/autong/service/Service.java:35-39 | Stores the settings and the client with the three slots empty. |
| LegacyService.Service.Reset | src/main/java/org/autong/service/Service.java:46-50 | Clears the three slots. |
| LegacyService.Service.WithSettings | src/main/java/org/autong/service/Service.java:59-62 | Sets only the override and returns itself. |
| LegacyService.Service.WithValidator | src/main/java/org/autong/service/Service.java:71-74 | Sets only the validator and returns itself. |
| LegacyService.Service.WithExpectedResult | src/main/java/org/autong/service/Service.java:83-86 | Sets only the expected result and returns itself. |
| LegacyService.Service.MergeRequest | src/main/java/org/autong/service/Service.java:97-99 | Always null. |
| LegacyService.Service.Resolve | src/main/java/org/autong/service/Service.java:109-111 | The client's `resolve` on the same request. The wrapper's own slots are neither read nor changed. |
| Text.CollapseWhitespaceSound | src/main/java/org/autong/test/TestRunner.java:80-82 | `replaceAll("\\s+", "_")` leaves no whitespace and keeps every other character in order. |
| Text.CollapseWhitespaceIdentity | src/main/java/org/autong/test/TestRunner.java:80-82 | A string without whitespace is unchanged. |
| Text.TestNameSound | src/main/java/org/autong/test/TestRunner.java:80-82 | `id__name` with whitespace runs replaced: no whitespace, and the non-`_` characters spelled in order. |
| Text.ToUpperSound | src/main/java/org/autong/config/BaseConfig.java:36 | The upper-cased text has no lower-case letter, equals the input ignoring case, and keeps whitespace where it was. |
| Text.SplitSound | src/main/java/org/autong/config/BaseConfig.java:41 | The pieces of `split("\\s+")` hold no whitespace, none but the first is empty, and together they spell the non-whitespace characters. |

## Left out

- JSON aliasing: Gson objects are shared by reference, so `deepMerge` copies the source's
  arrays and objects into the target by reference, and later merges can change both. The model
  works on values. It covers the in-place update of each owner it names: the builder service's
  stored template, the validator's `actual`, and the variable cache. It does not cover a
  change showing through a second reference.
- Typed request conversions (`DataUtil.toObject`/`toJsonObject` between `Request` classes and
  JSON) are the identity on JSON objects. Field renaming, dropped unknown fields and default
  filling by Gson are not modelled, apart from each client's default request.
- JsonPath evaluation, `DataUtil.getDataType` sniffing, JSON/XML parsing and reading files
  (`DataUtil.read`, YAML) are parameters of the model. The `$extends` base load and the jar URL
  path rewriting in `extendData` are part of that load.
- The network half of every client, the Unirest instance setup (`createInstance`), the byte-array
  response builder and `resolveByteArrayResponse`/`resolveTextResponse` are left out. Transport
  answers are the model's environment.
- Sleeping and timing (`TimeUnit.sleep`, `StopWatch`) are recorded as `Wait` events. Logging,
  `LoggerUtil.reconfigure`, the step and loggable aspects and the report listeners are left out.
- Thread-local slots in `TestCase` and `RunnableFactory` are plain fields of one object
  (single thread).
- System properties (`env`, `context`, `suite`, `testcaseId`) are parameters.
- `runner/Runnable.run` is a one-line delegate and is not modelled. The runnable slot holds
  the `AbstractBaseService` state it inherits.
- `ServiceFactory.validate(Object)` is a cast plus `ServiceValidator.validate` and is not
  modelled separately.
- The plain test runner's `beforeClass` and `dataProvider` (read the suite, initialise the
  registry, hand out `testSuite`) are not modelled. They are file reading followed by
  `initialize`, which is modelled.
- LegacyService.Service.constructor: `service/Service` calls a one-argument
  `ClientFactory.getClient(clientType)` that the shown `ClientFactory` does not have. The
  client is a constructor parameter.
- ClientFactory: the switch names `QUEUE_TIBCO`, which the shown `ClientType` enum lacks.
  The model follows the switch. Its `default` branch (`InvalidParameterException`) cannot be
  reached, because every constant has a case.
- Exception messages that Gson, Java and JsonPath produce are shortened. The exception kind
  and the point at which it is thrown are modelled.
- TestCase.ToTestData: with several bad fields, the error reported follows the declared field
  order; Gson reports the first bad member in document order. A duplicate key takes its first
  value.
- TestCase.ObjectField: a `request`/`response` member holding JSON `null` is taken as not a
  `JsonObject` (an error). Gson's `JsonElement` adapter may instead produce `JsonNull` there, and
  then fail on the cast. Either way the conversion fails.
- ServiceFactory.ToJsonElement: Gson's `fromJson` of a text is a parameter (`Formats.fromJson`), so its
  leniency is not modelled. The Java `null` it gives for an empty text is cached as JSON null.
- TestRunner.Runner.Run, TestngRunner.Run: the runners read the registry's map as it stands. Before any
  `initialize`, Java's `ServiceFactory.get` throws NullPointerException as soon as the first step's
  service name is read. The model reports that step's `method` error, or the null-service
  NullPointerException. Either way the first step fails.
- ClientFactory.DispatchRules: the REST RestAssured client (`src/main/java/org/autong/service/rest/RestAssuredClient.java:30`)
  implements `Client` directly. It does not extend `AbstractClient` and has no (settings, request)
  constructor. The model still gives it the shared `AbstractClient` state, with the composition
  over the REST default request.
- Text.ToUpper: `toUpperCase` and `equalsIgnoreCase` are modelled on ASCII letters only.
- UnirestClient.MethodOf: Gson's enum adapter matches the exact constant name. A missing, null or
  unknown name reads as null.
- Numbers are integers. Java `int` settings are unbounded and never wrap.
- `Settings.timeout` values are carried as the builder defaults, but nothing in this core reads
  them.
- The multipart path of `resolve` (`Route`) stops before the request is sent, and the
  `Content-Type` header removal only checks that `headers` is not null.

## Findings

| source | as written | input that shows it | evidently intended | confidence | as-written member | corrected member |
|---|---|---|---|---|---|---|
| src/main/java/org/autong/service/rest/UnirestClient.java:127-133 | each cookie is put into the `headers` map, and the `cookies` map attached to the response stays empty | a response with one cookie `session=abc` and no headers: `headers` holds `session`, `cookies` is `{}` | the `cookies` map holds the cookies and `headers` only the headers | high that the code does this, medium that it is unintended; not executed | UnirestClient.BuildTextResponse, UnirestClient.CookieLandsInHeaders | UnirestClient.BuildTextResponseIntended, UnirestClient.IntendedMaps |
