# sleepy, modelled in Dafny

sleepy is a small Go library for declaring REST calls. You describe a call with
fluent builders: its method, handler, filters, input and output schema, and path
parameters. Calls are grouped into resources. At serve time, each request goes
through a fixed pipeline: decode the body, validate it against the schema's
`sleepy` struct tags, run the call's filters, run the handler, then marshal the
result.

This project models the schema engine and the request pipeline, and proves the
properties below.

- Schema engine:
  - The recursive tag introspector of `data_model.go`, with the path-based
    validator that checks payloads against the paths it recorded.
  - The flat, top-level validator of `call.go`.
- Pipeline and registration:
  - `Call.ServeHTTP` and the call builders.
  - Resource registration and the resource filter loop.
- `error.go` and `example/errors.go`: the library's error values and the example
  application's error values.
- `example/user.go`:
  - the example `User` schema and its `hasAuthFilter`;
  - `Generate`, which builds the user resource.

The two validators and the two `callDataModel` records are different versions of
the same code. Each source file is its own module, and they are not merged.

Modules (one per file):

- `Wrappers`: `Option`.
- `Strings`: Go's `strings.Split`, `Join`, counting and repetition.
- `Reflect`: replaces Go's `reflect`.
  - A `Type` is a `Leaf(kind)` or a `Struct(fields)`.
  - A `Field` carries its name, its `sleepy` tag value and its type.
  - A `Value` is a tree of the same shape.
  - The module defines zero values, the leaf-wise zero test, and path lookups (`FieldByIndex`).
- `DataModel` (`data_model.go`):
  - tag constants;
  - `callDataModel` as a class whose path lists the introspector appends to;
  - `identifyFieldTags`, `validateTagsIn` (as written, plus a corrected version), `isZero` and `inputVar`.
- `Calls` (`call.go`):
  - `Call` as a class with its builders;
  - the flat `validateTagsIn`;
  - `IsZeroOfUnderlyingType`;
  - `ServeHTTP`.

  `ServeHTTP` runs over abstract inputs: what the decoder, each filter, the
  handler and the encoder produced for the request. It returns a trace of events
  (validator log lines, filters called, handler called, error written, body
  written, result logged, panic). The trace is proved equal to a specification
  function, `Trace`, and the lemmas about `Trace` state what the pipeline
  guarantees.
- `Resources` (`resource.go`): `Resource` and a router that only records its
  registrations, with `NewResource`, `Route`, `construct` and the filter loop of
  `ServeHTTP`.
- `Errors` (`error.go`):
  - the `Error` struct, `ErrInternal` and `ErrBadRequest`;
  - the `1000 + iota` codes;
  - the struct's JSON wire form.
- `ExampleErrors` (`example/errors.go`): the example `Error` with its getters,
  the three fixed errors and `NewRequestError`.
- `ExampleUser` (`example/user.go`):
  - the `User` schema, `hasAuthFilter`, `getUser`, `createUser` and `Generate`;
  - lemmas that apply the introspector, both validators and the pipeline to
    `User`.

Where the code's own comments and the code disagree, this model follows the code:

- data_model.go:78 rejects a read-only path whose value is zero. The comment at
  data_model.go:76 and the message at data_model.go:79 say a read-only field must
  not be set, and call.go:114 rejects a non-zero value. See Findings.
- `sleepyWriteOnly` and `sleepyHidden` are declared (data_model.go:16-17), and
  `callDataModel` has `woFields` and `hiddenFields` (data_model.go:27-28). No
  shown code collects or reads them: `identifyFieldTags` ignores those tokens, and
  so does the model.
- The comment at resource.go:38 says a failing resource filter stops the request.
  The loop only logs the error and goes on, and resource.go:43 always reaches the
  router. The model does the same (`ResourceTraceDispatches`).
- The fatal message at call.go:137 talks about setting the method to GET, but the
  check at call.go:136 fires for every method once `Reads` has set `bodyIn`. The
  model does the same (`Call.Method`), with the message unchanged.

## Model

| member | source | states |
|---|---|---|
| Strings.Split | data_model.go:46 | the pieces of a tag: at least one, and none contain the separator |
| Strings.JoinSplit | data_model.go:46 | splitting a tag loses nothing: joining the pieces with the separator gives the tag back |
| Strings.SplitAt | call.go:97 | the first comma ends the first token; a comma-free tag is a single token (`SplitPlain`) |
| Strings.CountPositive | data_model.go:47-54 | a token occurs in a tag's token list at least once exactly when it is an element of it |
| Reflect.Zero | data_model.go:89 | `reflect.Zero(t)` is a value of type `t` |
| Reflect.ZeroLikeIff | data_model.go:88-90 | comparing a value with the zero of its own type is the same as every leaf holding its kind's zero |
| Reflect.ZeroOfTypeIff | call.go:123-125 | for a value of type `t`, equality with `reflect.Zero(t)` is the leaf-wise zero test |
| Reflect.FieldAt | data_model.go:72 | a field found by `FieldByIndex` has a non-empty path, and its type is the type found at that path |
| Reflect.TypeAtSnoc | data_model.go:39 | extending a struct's path by field index `i` reaches that field and its type |
| Reflect.ValueAtConforms | data_model.go:71 | a path that names a field of the type resolves in every value of that type, to a value of the field's type |
| DataModel.IsZero | data_model.go:88-90 | `isZero(x)` holds exactly when every leaf of `x` is zero |
| DataModel.CallDataModel.constructor | data_model.go:23-32 | a new model holds the given in and out types, and every path set and doc list is empty |
| DataModel.CallDataModel.IdentifyFieldTags | data_model.go:34-60 | panics where `bodyIn` is nil or `pos` does not resolve; at a non-struct it is fatal with "The kind at pos is not a struct" and records nothing; otherwise it appends exactly `Collect(type at pos, pos, "required")` to `requiredFields` and the `readonly` counterpart to `roFields`; the out type, `woFields`, `hiddenFields` and the docs never change |
| DataModel.CallDataModel.RecordSleepyTokens | data_model.go:47-54 | the path is appended once per `required` token and once per `readonly` token; every other token, `writeonly` and `hidden` included, is ignored |
| DataModel.CollectUpToBelow | data_model.go:50-57 | every recorded path lies strictly below the walk's `pos`, at a field index within range |
| DataModel.CollectMember | data_model.go:45-58 | a path is recorded exactly when it extends `pos` through struct-kind fields to a field whose tag lists the token, so tags are found at every depth and only there |
| DataModel.CollectPreOrdered | data_model.go:45-59 | recorded paths come in depth-first pre-order by declaration index: a field's own path before the paths inside it, and earlier fields first |
| DataModel.TaggedNamesField | data_model.go:72 | a tagged path names a field, and that field's tag lists the token |
| DataModel.RecordedPathsResolve | data_model.go:70-81 | every path recorded for a struct type names a field of it and resolves in every payload of that type, so the validator's lookups never panic |
| DataModel.FirstWhere | data_model.go:70-81 | the first path whose value has the wanted zeroness, with every earlier path not having it; `None` exactly when no path has it |
| DataModel.FirstWhereAt | data_model.go:71-72 | a path with the wanted zeroness, after only paths without it, is the first such path |
| DataModel.CallDataModel.ValidateTagsIn | data_model.go:65-83 | as written: the first zero required path is reported as missing, naming the field, and no read-only path is then examined; otherwise the first ZERO read-only path is reported as set; `nil` exactly when no recorded path holds a zero value |
| DataModel.CallDataModel.ValidateTagsInCorrected | data_model.go:76-81 | the corrected validator: required paths are checked first, as written; a read-only path is reported when its value is NOT zero; `nil` exactly when every required value is non-zero and every read-only value is zero |
| Calls.IsZeroOfUnderlyingType | call.go:123-125 | holds exactly when every leaf of the value is zero |
| Calls.FirstViolation | call.go:94-119 | the index of the first top-level field whose value breaks its tags, with all earlier fields clean; `None` exactly when every field is clean |
| Calls.FlatVerdictIff | call.go:94-120 | the flat validator accepts a payload exactly when no top-level field breaks its tags; otherwise its error is the violation of a field preceded only by clean fields |
| Calls.ScanTags | call.go:97-105 | the `required` flag is set exactly when the token list holds `required`, and the `readonly` flag exactly when it holds `readonly`; one "<name> is required" line is logged per `required` token |
| Calls.CheckField | call.go:97-117 | per field, the required-and-zero check comes before the readonly-and-non-zero check, and the error is that field's violation |
| Calls.FirstViolationAt | call.go:107-117 | a violating field after only clean fields is the first violation, and the scan stops after it |
| Calls.ValidateTagsIn | call.go:91-121 | call.go's `validateTagsIn` returns the flat verdict, which is the first violation in index order; the lines it logs are those of the fields it scanned, up to and including the violating one |
| Calls.LogEvents | call.go:101 | the validator's lines, in order, as trace events that call no filter, complete nothing and call no handler |
| Calls.FilterEventsViews | call.go:48-55 | `n` passing filters are called with indices `0..n-1`, in order, and call no handler and log nothing |
| Calls.FirstFailing | call.go:48-55 | the first filter that returned an error, all earlier ones clean; `None` exactly when every filter passed |
| Calls.FirstFailingAt | call.go:50 | a failure after only passing filters is the first failure |
| Calls.ApplyWritesFrame | call.go:42-55 | each filter deletes keys from the shared `CallData` and then adds or overwrites keys: a key no filter deleted is still there (so "body" survives unless a filter deletes it); a key no filter deleted or wrote keeps its value; the last filter's value for a key it wrote is the one that stays |
| Calls.HandlerTraceViews | call.go:58-81 | the handler stage calls no filter and logs exactly once, unless the handler is nil and it panics |
| Calls.AfterBodyViews | call.go:30-81 | after the body stage: the filters called, whether the handler ran or the call panicked, and exactly one completion unless it panicked |
| Calls.TraceViews | call.go:22-82 | filters run in registration order: none after a body error, otherwise up to and including the first that fails. The validator's lines come first. The handler runs exactly when neither the body nor a filter stopped the request and a handler is set. Every request that does not panic is logged exactly once |
| Calls.TraceEnds | call.go:30-81 | a request ends with the first error in stage order (decode or validation, then filters, then handler error, nil result, marshal failure) written and logged; otherwise with the JSON body under "Application/JSON" and a success log |
| Calls.TraceResponds | call.go:30-81 | the pipeline itself writes exactly one response (an error or the JSON body), never two, for every request that does not panic; a panicking one gets none from it |
| Calls.BodyFailureAlone | call.go:30-41 | a decode or validation failure is answered alone: after the validator's lines come only its error response and its log entry, so no filter and no handler runs |
| Calls.CheckBody | call.go:26-43 | the body is decoded and validated only when the call has an input type and the method is not GET; a decode failure is "Could not parse the request" with the decoder's cause; otherwise the flat verdict and its log lines |
| Calls.RunFilters | call.go:48-55 | the filter loop stops exactly when some filter fails; its events are each filter up to the first failure, then that failure's response and log; `CallData` gets the writes of the filters that ran |
| Calls.RunHandler | call.go:58-81 | a nil handler panics; after the handler the stage writes its error, or an internal error naming the operation for a nil result or an unmarshallable one, or the JSON result, and logs once |
| Calls.Call.constructor | resource.go:23 | a new call has the given path, the path as its operation name, no method, no handler, no filters and an empty model |
| Calls.Call.Method | call.go:135-141 | fatal whenever an input type is already set, whatever the method, and then the method is unchanged; otherwise the method is set; nothing else changes |
| Calls.Call.To | call.go:144-147 | sets the handler and nothing else |
| Calls.Call.Filter | call.go:150-153 | appends the filter at the end of the chain and changes nothing else |
| Calls.Call.PathParam | call.go:156-163 | appends one path variable documented as a required "string" with the given name and description |
| Calls.Call.Reads | call.go:166-179 | fatal with its own message for a GET call, or for a non-struct model; otherwise sets the input type; a GET call never gets a body schema (`Valid` is kept) |
| Calls.Call.Returns | call.go:182-185 | sets the output type and nothing else |
| Calls.Call.OperationName | call.go:188-191 | sets the operation name and nothing else |
| Calls.Call.ServeHTTP | call.go:22-82 | for a call that keeps the registration rule (`Valid`), the events are exactly `Trace` of this request's stage outcomes. After a body error `CallData` is untouched. Otherwise it holds the payload under "body" when the payload was decoded, plus the writes of the filters that ran; the pipeline writes no other key |
| Resources.Router.Handle | resource.go:50 | appends one registration with the path, method and call |
| Resources.RegistrationsAt | resource.go:48-52 | the `i`-th registration is call `i`, at base path plus the call's own path, with the call's method |
| Resources.AllFiltersRun | resource.go:34-40 | a filter error never stops the loop: every resource filter runs, in order |
| Resources.AllErrorsLogged | resource.go:37 | each filter error is logged once, in order, as "Resource Filter Error: " followed by Println's space and the error |
| Resources.ResourceTraceDispatches | resource.go:32-44 | all filters run and every error is logged. The router is reached after the filters, exactly once, even when a filter failed |
| Resources.Resource.constructor | resource.go:18-20 | `NewResource(p)` has path `p`, no calls, no filters and a fresh router with no routes |
| Resources.Resource.Route | resource.go:22-26 | appends exactly one new call, with path `p`, operation name `p` and no filters, and returns it; earlier calls and the resource's other fields are unchanged |
| Resources.Resource.Construct | resource.go:48-52 | registers every call once, in order, at `prefix + path + call.path` with the call's method |
| Resources.Resource.ServeHTTP | resource.go:32-44 | the events are exactly the resource trace of the filters' outcomes |
| Errors.IotaCode | error.go:31-32 | codes declared with `1000 + iota` are at least 1000 |
| Errors.CodesConsecutive | error.go:31-36 | `ERR_INTERNAL` through `ERR_MOD_RO_FIELD` are 1000..1003: consecutive and distinct |
| Errors.ErrInternal | error.go:23-25 | status 500, the given error text, no message, `ERR_INTERNAL` |
| Errors.ErrBadRequest | error.go:27-29 | status 422, and text, message and code passed through unchanged |
| Errors.FromWire | error.go:16-21 | an error read back from JSON has no status, because the status is not serialised |
| Errors.WireRoundTrip | error.go:16-21 | reading the wire form back recovers the `error`, `message` and `code` members; only the status is lost |
| Errors.WireOmitsHttpCode | error.go:17 | two errors serialise alike exactly when they agree on text, message and code, so the status never reaches the wire |
| ExampleErrors.Error.ErrorText | example/errors.go:8-10 | `Error()` returns the message, so it agrees with `Message()` |
| ExampleErrors.Error.Message | example/errors.go:12-14 | `Message()` returns the message |
| ExampleErrors.Error.StatusCode | example/errors.go:16-18 | `StatusCode()` returns the response code |
| ExampleErrors.Error.AsApiError | call.go:51 | the pipeline answers such an error with its `StatusCode()` and `Message()` |
| ExampleErrors.NewRequestError | example/errors.go:26-28 | status 400, with `m` as both the message and the error text |
| ExampleErrors.FixedStatuses | example/errors.go:20-24 | `ErrInternal`, `ErrLogin` and `ErrAuthorization` answer 500, 401 and 403, so no two are alike, and none equals a request error |
| ExampleUser.PasswordTagCounts | example/user.go:16 | `Password`'s tag `required,writeonly` contains `required` once and `readonly` never; its `writeonly` token counts for neither |
| ExampleUser.UserCounts | example/user.go:11-17 | how often each `User` field's tag names `required` and `readonly` |
| ExampleUser.UserRequiredPaths | example/user.go:11-17 | introspecting `User` records the required paths `[1],[2],[3],[4]`, in declaration order |
| ExampleUser.UserReadOnlyPaths | example/user.go:11-17 | introspecting `User` records the read-only path `[0]` (`Id`) only |
| ExampleUser.HasAuthFilter | example/user.go:50-56 | with no Authorization header it returns `ErrLogin`, deletes nothing and writes nothing; with one it writes the header under "auth" and returns nil |
| ExampleUser.HasAuthFilterData | example/user.go:50-56 | after the filter, `d` is unchanged without the header; with it, "auth" holds the header and every other key keeps its value |
| ExampleUser.GetUser | example/user.go:42-44 | `getUser` returns a result and no error |
| ExampleUser.CreateUser | example/user.go:46-48 | `createUser` returns a result and no error |
| ExampleUser.RouteGetUser | example/user.go:25-30 | the GET call `/{uid}`: handler `getUser` and operation `getUser`, no filters, no input type, output `User`, and the documented path variable `uid`; no builder is fatal; the resource's path, name, filters and router are unchanged |
| ExampleUser.RoutePostUser | example/user.go:32-38 | the POST call `""`: handler `createUser`, filters `[hasAuthFilter]`, reads and returns `User`; `Method` comes before `Reads`, so no builder is fatal; the resource's path, name, filters and router are unchanged |
| ExampleUser.Generate | example/user.go:23-40 | the resource "/users" with exactly those two calls, in that order, and no fatal builder; as `NewResource` left it, it has no name, no resource filters and a fresh router with no routes |
| ExampleUser.ServeUserResource | resource.go:32-44 | the user resource has no resource filters, so serving a request through it only hands it to the router |
| ExampleUser.NeedsLogin | example/user.go:51-53 | for a call whose only filter is `hasAuthFilter`, a request whose body stage passed or was skipped and that has no Authorization header calls filter 0, never runs the handler, is logged once, and ends with 401 "Please login." |
| ExampleUser.LoggedIn | example/user.go:54-55 | for such a request whose body stage passed or was skipped, with the header the filter passes, the handler runs, the call completes once, and it ends with the JSON result |
| ExampleUser.CreateUserNeedsLogin | example/user.go:32-38 | a `createUser` request whose `User` body passes decoding and validation, with no Authorization header, is refused with 401 before its handler |
| ExampleUser.CreateUserLoggedIn | example/user.go:32-38 | the same request with the header answers its handler's JSON |
| ExampleUser.CreateUserBadBody | example/user.go:37 | a `createUser` POST whose body cannot be decoded is answered with "Could not parse the request" before any filter, whatever its headers |
| ExampleUser.CreateUserAcceptsNewUser | example/user.go:37 | a `createUser` POST with the well-formed `User` body passes the body stage |
| ExampleUser.ReadOnlyInversionWitness | data_model.go:76-81 | with `User` introspected and a well-formed body that leaves `Id` empty, the as-written validator answers "Attempting to set read-only field: Id." and accepts the body that sets `Id`. The corrected validator accepts that body and rejects the one that sets `Id` |
| ExampleUser.FlatAcceptsNewUser | call.go:107-117 | call.go's validator accepts the same well-formed body |
| ExampleUser.FlatRejectsId | call.go:113-117 | call.go's validator rejects a body that sets `Id`, naming `Id` |

## Left out

- JSON decoding and marshalling are not modelled. The model takes what they produced as inputs, a `Decoding` and a `Marshalling`. A decoded payload is assumed to conform to the input type.
- `StructTag.Get("sleepy")` is not modelled. A `Field` carries the value of its `sleepy` key directly: `Password`'s is `required,writeonly` and its other keys are dropped.
- `reflect` is replaced by the `Type`/`Value` trees. Only string, int and bool leaves and structs exist, since Go's `==` on interfaces panics for slices and maps.
- `IsZero` and `IsZeroOfUnderlyingType` therefore cover leaf kinds and structs only.
- `append(pos, curPos)` in `identifyFieldTags` can share a backing array between sibling paths. The model uses immutable sequences, which is the evident intended meaning.
- `http.Error`, response headers and writes are events in a trace:
  - an error response is `ErrorWritten`;
  - the Content-Type and body are `BodyWritten`.
- The statuses of `newRequestError` and `newInternalError` are not part of the trace: those helpers and `logResult` are not part of this model. Their errors carry only the message and cause they are given. A filter's or handler's own error (`Raised`) carries its status into the trace.
- `log.Println` is a trace event. `log.Fatal` in a builder is a `Fatal(message)` result, and the builder then changes nothing more. `log.Fatal` in `identifyFieldTags` is a `Fatal` outcome. A Go panic (nil `bodyIn`, a bad `FieldByIndex`, a nil handler) is a `Panicked` outcome or event.
- Calls.TraceResponds: filters (call.go:49) and the handler (call.go:58) are given the `http.ResponseWriter` and may write to it themselves. Those writes are not modelled, so the lemma counts only the responses the pipeline writes.
- Handlers and filters are named by strings. What each returned for one request is an input of `ServeHTTP`: a `FilterRun` per filter, a `HandlerResult`.
- `Call.ServeHTTP` is split into stage methods (`CheckBody`, `RunFilters`, `RunHandler`) called in the source's order.
- Call.ServeHTTP and hasAuthFilter: Go's `CallData` map is shared by reference. The model threads it as a value: each filter's deletions and then its writes are applied in order (`ApplyWrites`), and `hasAuthFilter` returns what it does to the map instead of updating it in place. A filter that interleaves deleting and writing the same key, or reads the map while changing it, is reduced to "delete, then write". Aliasing of the map outside the call is not captured.
- `r.Header.Get` is an exact-key lookup. Header-name canonicalisation is not modelled.
- gorilla/mux is not modelled. The router only records its registrations (`Handle(...).Methods(m)`). Route matching is not modelled, so resource dispatch ends in a `Dispatched` event.
- Resource filters are named by their outcome only. `Resource.filters` is never populated by the shown code.
- Both validators assume every tagged field is exported. In Go, `Value.Interface()` panics on a field reached through an unexported struct field (data_model.go:71 and :78, call.go:108 and :114), while `identifyFieldTags` records such fields. The model has no exported flag, so it reports a missing or set field where Go panics.
- DataModel.CallDataModel.IdentifyFieldTags: an empty `pos` stands for both Go's `nil` and a non-nil empty slice. For a non-struct `bodyIn` these differ in Go: `nil` is fatal (data_model.go:42-43), while `FieldByIndex` on an empty slice panics (data_model.go:39). The model treats both as `nil`.
- Calls.Call.Reads: a Go `nil` argument is not modelled; the model is always a `Type`.
- The `fmt.Sprintf("getUser! - %s", "asdf")` result is written as the literal concatenation.
- api.go, sleepy.go, request.go, example/main.go and example/user-resource.go are not part of this model. They cover API wiring, type declarations, server start-up and a superseded copy of user.go.
- Write-only output sanitisation, `hidden` fields, query-parameter validation and CORS are not implemented by the shown code, so they are not modelled.
- Concurrency between simultaneous requests is not modelled.

## Findings

| source | as written | input that shows it | evidently intended | confidence | as-written member | corrected member |
|---|---|---|---|---|---|---|
| data_model.go:78 | the read-only loop reports a path when its value IS zero: `if isZero(...)`, with no negation | the `User` schema and a well-formed body with `Id` left `""` and every required field set: it is rejected with "Attempting to set read-only field: Id." Conversely, a body that does set `Id` passes | report a read-only path whose value is NOT zero, as the error message says and as call.go:114 does | high; not executed | DataModel.CallDataModel.ValidateTagsIn, ExampleUser.ReadOnlyInversionWitness | DataModel.CallDataModel.ValidateTagsInCorrected |
