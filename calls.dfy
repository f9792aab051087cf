/** call.go: one registered call, the fluent builders that configure it, the flat
    (top-level only) input validator, and `ServeHTTP`, the fixed sequence of stages a
    request goes through: decode, validate, call filters, handler, nil check, marshal.

    The request body decoder, the filters, the handler and the JSON encoder are not
    modelled; what each of them produced for one request is an input of `ServeHTTP`,
    and what the pipeline did with it is returned as a trace of events. */
module Calls {
  import opened Wrappers
  import opened Strings
  import opened Reflect

  /** Documentation of a path or query variable. */
  datatype InputVar = InputVar(typ: string, name: string, desc: string, required: bool)

  /** The input and output schemas of a call and its documented variables. */
  datatype CallDataModel = CallDataModel(
    bodyIn: Option<Type>,
    bodyOut: Option<Type>,
    pathVars: seq<InputVar>,
    queryVars: seq<InputVar>)

  /** An error as the pipeline handles it: `newRequestError(message, cause)`,
      `newInternalError(cause)`, or an error a filter or the handler returned with its
      own status and message. The status codes of the first two are set by code that is
      not part of this model. */
  datatype ApiError =
    | RequestError(message: string, cause: string)
    | InternalError(cause: string)
    | Raised(status: int, message: string)

  /** A value stored in the per-request `CallData` map. */
  datatype Datum = Body(payload: Value) | Text(s: string)

  type CallData = map<string, Datum>

  /** What the transport hands the pipeline: the HTTP method and the request headers. */
  datatype Request = Request(verb: string, headers: map<string, string>)

  /** `r.Header.Get(key)`: the header's value, `""` when absent. */
  function Header(r: Request, key: string): string
  {
    if key in r.headers then r.headers[key] else ""
  }

  /** What decoding the request body produced. */
  datatype Decoding = Decoded(payload: Value) | Undecodable(cause: string)

  /** What one filter did to the shared `CallData` (the keys it deleted, then the keys
      it wrote) and the error it returned. */
  datatype FilterRun = FilterRun(removes: set<string>, writes: CallData, err: Option<ApiError>)

  /** What the handler returned: a result (`None` for Go's nil) and an error. */
  datatype HandlerResult = HandlerResult(result: Option<Datum>, err: Option<ApiError>)

  /** What `json.Marshal` produced for the handler's result. */
  datatype Marshalling = Marshalled(json: string) | Unmarshallable

  /** What the pipeline does, in order. */
  datatype Event =
    | ValidatorLog(line: string)        // log.Println inside validateTagsIn
    | FilterCalled(index: nat)          // the filter at that registration index ran
    | HandlerCalled
    | ErrorWritten(err: ApiError)       // http.Error(w, err.Message(), err.StatusCode())
    | BodyWritten(contentType: string, json: string)
    | Completed(logged: Option<ApiError>)  // logResult(r, err)
    | Panicked                          // the handler was never set: calling it panics

  /** How a builder call ends: returning the call for chaining, or `log.Fatal`. */
  datatype Built = Chained | Fatal(message: string)

  const Get: string := "GET"
  const ContentType: string := "Application/JSON"
  const BodyKey: string := "body"
  const RequiredTag: string := "required"
  const ReadOnlyTag: string := "readonly"
  const ValidationCause: string := "Failed while validating tags for the payload."
  const ParseFailure: string := "Could not parse the request"

  /** `IsZeroOfUnderlyingType`: a value equals the zero value of its own type. */
  function IsZeroOfUnderlyingType(x: Value): (r: bool)
    ensures r <==> AllZero(x)
  {
    ZeroLikeIff(x);
    x == ZeroLike(x)
  }

  function MissingMessage(name: string): string
  {
    "Required field: " + name + " is missing."
  }

  function ReadOnlyMessage(name: string): string
  {
    "Attempting to set read-only field: " + name + "."
  }

  /** The error `validateTagsIn` reports for one top-level field, if any: a required
      field must not be zero, and this is checked before a read-only field, which must
      be zero. */
  function Violation(f: Field, v: Value): Option<ApiError>
  {
    if RequiredTag in SleepyTokens(f) && IsZeroOfUnderlyingType(v) then
      Some(RequestError(MissingMessage(f.name), ValidationCause))
    else if ReadOnlyTag in SleepyTokens(f) && !IsZeroOfUnderlyingType(v) then
      Some(RequestError(ReadOnlyMessage(f.name), ValidationCause))
    else None
  }

  /** The first top-level field that violates its tags. */
  function FirstViolation(fields: seq<Field>, items: seq<Value>): (k: Option<nat>)
    requires |fields| == |items|
    ensures k.Some? ==> k.value < |fields| && Violation(fields[k.value], items[k.value]).Some?
    ensures k.Some? ==> forall j :: 0 <= j < k.value ==> Violation(fields[j], items[j]).None?
    ensures k.None? <==> forall j :: 0 <= j < |fields| ==> Violation(fields[j], items[j]).None?
  {
    if fields == [] then None
    else if Violation(fields[0], items[0]).Some? then Some(0)
    else
      assert forall j :: 1 <= j < |fields| ==> fields[1..][j - 1] == fields[j] && items[1..][j - 1] == items[j];
      match FirstViolation(fields[1..], items[1..])
      case None => None
      case Some(k) => Some(k + 1)
  }

  /** The lines `validateTagsIn` logs while scanning the first `n` fields: one
      "<name> is required" per `required` token. */
  function RequiredLog(fields: seq<Field>, n: nat): seq<string>
    requires n <= |fields|
  {
    if n == 0 then []
    else RequiredLog(fields, n - 1)
         + Repeat(fields[n - 1].name + " is required", Count(SleepyTokens(fields[n - 1]), RequiredTag))
  }

  /** A record with one item per field of the struct type `t`: all the flat validator
      relies on about a decoded payload. */
  predicate Shaped(payload: Value, t: Type)
  {
    t.Struct? && payload.Record? && |payload.items| == |t.fields|
  }

  /** The verdict of the flat validator on a payload of struct type `t`. */
  function FlatVerdict(t: Type, payload: Value): Option<ApiError>
    requires Shaped(payload, t)
  {
    match FirstViolation(t.fields, payload.items)
    case Some(k) => Violation(t.fields[k], payload.items[k])
    case None => None
  }

  /** The flat validator accepts a payload exactly when no top-level field breaks its
      tags; otherwise it reports the first field that does. */
  lemma FlatVerdictIff(t: Type, payload: Value)
    requires Shaped(payload, t)
    ensures FlatVerdict(t, payload).None? <==>
      forall i :: 0 <= i < |t.fields| ==> Violation(t.fields[i], payload.items[i]).None?
    ensures FlatVerdict(t, payload).Some? ==>
      exists k :: 0 <= k < |t.fields| && FlatVerdict(t, payload) == Violation(t.fields[k], payload.items[k]) &&
        forall j :: 0 <= j < k ==> Violation(t.fields[j], payload.items[j]).None?
  {
    match FirstViolation(t.fields, payload.items)
    case Some(k) =>
    case None =>
  }

  /** The inner `range tags` loop of `validateTagsIn`: sets the two flags and logs one
      line per `required` token. */
  method ScanTags(name: string, tags: seq<string>) returns (isRequired: bool, isReadOnly: bool, lines: seq<string>)
    ensures isRequired <==> RequiredTag in tags
    ensures isReadOnly <==> ReadOnlyTag in tags
    ensures lines == Repeat(name + " is required", Count(tags, RequiredTag))
  {
    isRequired, isReadOnly, lines := false, false, [];
    var k := 0;
    while k < |tags|
      invariant 0 <= k <= |tags|
      invariant isRequired <==> RequiredTag in tags[..k]
      invariant isReadOnly <==> ReadOnlyTag in tags[..k]
      invariant lines == Repeat(name + " is required", Count(tags[..k], RequiredTag))
    {
      assert tags[..k + 1] == tags[..k] + [tags[k]];
      assert tags[..k + 1][..k] == tags[..k];
      if tags[k] == RequiredTag {
        isRequired := true;
        lines := lines + [name + " is required"];
      } else if tags[k] == ReadOnlyTag {
        isReadOnly := true;
      }
      k := k + 1;
    }
    assert tags[..k] == tags;
  }

  /** The number of fields the flat validator scans: up to and including the first
      violation. */
  function Scanned(fields: seq<Field>, items: seq<Value>): (n: nat)
    requires |fields| == |items|
    ensures n <= |fields|
  {
    match FirstViolation(fields, items)
    case Some(k) => k + 1
    case None => |fields|
  }

  /** A violation after only clean fields is the first one, and the scan stops there. */
  lemma FirstViolationAt(fields: seq<Field>, items: seq<Value>, i: nat)
    requires |fields| == |items| && i < |fields|
    requires forall j :: 0 <= j < i ==> Violation(fields[j], items[j]).None?
    requires Violation(fields[i], items[i]).Some?
    ensures FirstViolation(fields, items) == Some(i)
    ensures Scanned(fields, items) == i + 1
  {
    assert FirstViolation(fields, items).Some?;
  }

  /** A clean field extends the clean prefix by one. */
  lemma CleanPrefix(fields: seq<Field>, items: seq<Value>, i: nat)
    requires |fields| == |items| && i < |fields|
    requires forall j :: 0 <= j < i ==> Violation(fields[j], items[j]).None?
    requires Violation(fields[i], items[i]).None?
    ensures forall j :: 0 <= j < i + 1 ==> Violation(fields[j], items[j]).None?
  {
  }

  /** With no violation the scan covers every field. */
  lemma NoViolation(fields: seq<Field>, items: seq<Value>)
    requires |fields| == |items|
    requires forall j :: 0 <= j < |fields| ==> Violation(fields[j], items[j]).None?
    ensures FirstViolation(fields, items) == None
    ensures Scanned(fields, items) == |fields|
  {
  }

  /** call.go's `validateTagsIn`: the top-level fields in index order, for each the
      required check before the read-only check, the first violation returned. */
  method ValidateTagsIn(model: CallDataModel, payload: Value) returns (err: Option<ApiError>, lines: seq<string>)
    requires model.bodyIn.Some? && Shaped(payload, model.bodyIn.value)
    ensures err == FlatVerdict(model.bodyIn.value, payload)
    ensures lines == RequiredLog(model.bodyIn.value.fields, Scanned(model.bodyIn.value.fields, payload.items))
  {
    var fields := model.bodyIn.value.fields;
    var items := payload.items;
    lines := [];
    var i := 0;
    while i < |fields|
      invariant 0 <= i <= |fields|
      invariant forall j :: 0 <= j < i ==> Violation(fields[j], items[j]).None?
      invariant lines == RequiredLog(fields, i)
    {
      var fieldErr, fieldLines := CheckField(fields[i], items[i]);
      lines := lines + fieldLines;
      if fieldErr.Some? {
        FirstViolationAt(fields, items, i);
        return fieldErr, lines;
      }
      CleanPrefix(fields, items, i);
      i := i + 1;
    }
    NoViolation(fields, items);
    err := None;
  }

  /** One iteration of `validateTagsIn`'s field loop: scan the tags, then the required
      check before the read-only check. */
  method CheckField(f: Field, v: Value) returns (err: Option<ApiError>, lines: seq<string>)
    ensures err == Violation(f, v)
    ensures lines == Repeat(f.name + " is required", Count(SleepyTokens(f), RequiredTag))
  {
    var isRequired, isReadOnly;
    isRequired, isReadOnly, lines := ScanTags(f.name, SleepyTokens(f));
    if isRequired && IsZeroOfUnderlyingType(v) {
      return Some(RequestError(MissingMessage(f.name), ValidationCause)), lines;
    }
    if isReadOnly && !IsZeroOfUnderlyingType(v) {
      return Some(RequestError(ReadOnlyMessage(f.name), ValidationCause)), lines;
    }
    err := None;
  }

  /** Respond with `err` and log it: what every failing stage does before returning. */
  function Fail(err: ApiError): seq<Event>
  {
    [ErrorWritten(err), Completed(Some(err))]
  }

  /** The registration indices of the filters that ran, in the order they ran. */
  function FilterCalls(events: seq<Event>): seq<nat>
  {
    if events == [] then []
    else FilterCalls(events[..|events| - 1])
         + (match events[|events| - 1] case FilterCalled(i) => [i] case _ => [])
  }

  /** How many times `logResult` was called. */
  function Completions(events: seq<Event>): nat
  {
    if events == [] then 0
    else Completions(events[..|events| - 1]) + (if events[|events| - 1].Completed? then 1 else 0)
  }

  /** The lines the validator logged. */
  function ValidatorLines(events: seq<Event>): seq<string>
  {
    if events == [] then []
    else ValidatorLines(events[..|events| - 1])
         + (match events[|events| - 1] case ValidatorLog(line) => [line] case _ => [])
  }

  /** The first three views of a trace distribute over concatenation. */
  lemma {:induction false} TraceAppend(a: seq<Event>, b: seq<Event>)
    ensures FilterCalls(a + b) == FilterCalls(a) + FilterCalls(b)
    ensures Completions(a + b) == Completions(a) + Completions(b)
    ensures ValidatorLines(a + b) == ValidatorLines(a) + ValidatorLines(b)
    decreases |b|
  {
    if b != [] {
      var init := b[..|b| - 1];
      assert (a + b)[..|a + b| - 1] == a + init;
      assert (a + b)[|a + b| - 1] == b[|b| - 1];
      TraceAppend(a, init);
    } else {
      assert a + b == a;
    }
  }

  /** The trace of the validator's log lines. */
  function LogEvents(lines: seq<string>): (events: seq<Event>)
    ensures |events| == |lines|
    ensures FilterCalls(events) == [] && Completions(events) == 0 && HandlerCalled !in events
    ensures Panicked !in events
    ensures ValidatorLines(events) == lines
  {
    if lines == [] then []
    else
      var init := LogEvents(lines[..|lines| - 1]);
      assert (init + [ValidatorLog(lines[|lines| - 1])])[..|init|] == init;
      assert lines[..|lines| - 1] + [lines[|lines| - 1]] == lines;
      init + [ValidatorLog(lines[|lines| - 1])]
  }

  /** `0, 1, ..., n - 1`. */
  function Indices(n: nat): (r: seq<nat>)
    ensures |r| == n && forall i :: 0 <= i < n ==> r[i] == i
  {
    if n == 0 then [] else Indices(n - 1) + [n - 1]
  }

  /** The trace of the first `n` filters running without error. */
  function FilterEvents(n: nat): (events: seq<Event>)
    ensures |events| == n
  {
    if n == 0 then [] else FilterEvents(n - 1) + [FilterCalled(n - 1)]
  }

  /** Filters that pass call no handler, log nothing and complete nothing. */
  lemma {:induction false} FilterEventsViews(n: nat)
    ensures var events := FilterEvents(n);
      FilterCalls(events) == Indices(n) &&
      Completions(events) == 0 && ValidatorLines(events) == [] &&
      HandlerCalled !in events && Panicked !in events
  {
    if n > 0 {
      FilterEventsViews(n - 1);
      TraceAppend(FilterEvents(n - 1), [FilterCalled(n - 1)]);
      assert [FilterCalled(n - 1)][..0] == [];
    }
  }

  /** The index of the first filter that returned an error. */
  function FirstFailing(runs: seq<FilterRun>): (k: Option<nat>)
    ensures k.Some? ==> k.value < |runs| && runs[k.value].err.Some?
    ensures k.Some? ==> forall j :: 0 <= j < k.value ==> runs[j].err.None?
    ensures k.None? <==> forall j :: 0 <= j < |runs| ==> runs[j].err.None?
  {
    if runs == [] then None
    else if runs[0].err.Some? then Some(0)
    else
      match FirstFailing(runs[1..])
      case None => None
      case Some(k) => Some(k + 1)
  }

  /** A failure after only clean filters is the first one. */
  lemma FirstFailingAt(runs: seq<FilterRun>, i: nat)
    requires i < |runs| && runs[i].err.Some?
    requires forall j :: 0 <= j < i ==> runs[j].err.None?
    ensures FirstFailing(runs) == Some(i)
  {
    assert FirstFailing(runs).Some?;
  }

  /** `CallData` after the first `n` filters ran, each deleting and then adding or
      overwriting its keys. */
  function ApplyWrites(d: CallData, runs: seq<FilterRun>, n: nat): CallData
    requires n <= |runs|
  {
    if n == 0 then d else (ApplyWrites(d, runs, n - 1) - runs[n - 1].removes) + runs[n - 1].writes
  }

  /** A key no filter deleted is still there; a key no filter deleted or wrote keeps its
      value; the last filter to write a key decides its value. */
  lemma {:induction false} ApplyWritesFrame(d: CallData, runs: seq<FilterRun>, n: nat, key: string)
    requires n <= |runs|
    ensures key in d && (forall j :: 0 <= j < n ==> key !in runs[j].removes) ==>
      key in ApplyWrites(d, runs, n)
    ensures (forall j :: 0 <= j < n ==> key !in runs[j].writes && key !in runs[j].removes) ==>
      (key in ApplyWrites(d, runs, n) <==> key in d) &&
      (key in d ==> ApplyWrites(d, runs, n)[key] == d[key])
    ensures n > 0 && key in runs[n - 1].writes ==>
      key in ApplyWrites(d, runs, n) && ApplyWrites(d, runs, n)[key] == runs[n - 1].writes[key]
  {
    if n > 0 {
      ApplyWritesFrame(d, runs, n - 1, key);
    }
  }

  /** Whether the body is decoded and validated at all. */
  predicate BodyChecked(model: CallDataModel, r: Request)
  {
    model.bodyIn.Some? && r.verb != Get
  }

  /** The error the decode and validate stages stop the request with, if any. */
  function BodyVerdict(model: CallDataModel, r: Request, decoding: Decoding): Option<ApiError>
    requires model.bodyIn.Some? ==> model.bodyIn.value.Struct?
    requires model.bodyIn.Some? && decoding.Decoded? ==> Shaped(decoding.payload, model.bodyIn.value)
  {
    if !BodyChecked(model, r) then None
    else match decoding
      case Undecodable(cause) => Some(RequestError(ParseFailure, cause))
      case Decoded(payload) => FlatVerdict(model.bodyIn.value, payload)
  }

  /** The lines the validator logs for this request. */
  function BodyLog(model: CallDataModel, r: Request, decoding: Decoding): seq<string>
    requires model.bodyIn.Some? ==> model.bodyIn.value.Struct?
    requires model.bodyIn.Some? && decoding.Decoded? ==> Shaped(decoding.payload, model.bodyIn.value)
  {
    if !BodyChecked(model, r) || decoding.Undecodable? then []
    else
      RequiredLog(model.bodyIn.value.fields, Scanned(model.bodyIn.value.fields, decoding.payload.items))
  }

  /** `CallData` as the filters first see it: with the payload under "body" when it
      was decoded and validated. */
  function WithBody(d: CallData, model: CallDataModel, r: Request, decoding: Decoding): CallData
  {
    if BodyChecked(model, r) && decoding.Decoded? then d[BodyKey := Body(decoding.payload)] else d
  }

  /** The number of filters that run: none after a body error, otherwise up to and
      including the first that fails. */
  function FiltersRun(bodyErr: Option<ApiError>, runs: seq<FilterRun>): nat
  {
    if bodyErr.Some? then 0
    else match FirstFailing(runs)
      case Some(k) => k + 1
      case None => |runs|
  }

  /** The error the handler stage ends with, for a handler that ran. */
  function HandlerVerdict(operationName: string, handled: HandlerResult, marshalling: Marshalling): Option<ApiError>
  {
    if handled.err.Some? then handled.err
    else if handled.result.None? then
      Some(InternalError("Call handler for " + operationName + " did not return a response or an error."))
    else if marshalling.Unmarshallable? then
      Some(InternalError("Response from call handler for " + operationName + " could not be parsed to JSON."))
    else None
  }

  /** An error response calls no filter, logs no validator line and completes once. */
  lemma FailViews(e: ApiError)
    ensures FilterCalls(Fail(e)) == [] && ValidatorLines(Fail(e)) == [] && Completions(Fail(e)) == 1
  {
    var first := [ErrorWritten(e)];
    assert first[..0] == [];
    assert [Completed(Some(e))][..0] == [];
    TraceAppend(first, [Completed(Some(e))]);
  }

  /** What happens from the handler call on, for a request that reached it. */
  function HandlerTrace(handler: Option<string>, operationName: string, handled: HandlerResult,
                        marshalling: Marshalling): seq<Event>
  {
    if handler.None? then [Panicked]
    else
      [HandlerCalled] +
      match HandlerVerdict(operationName, handled, marshalling)
      case Some(e) => Fail(e)
      case None => [BodyWritten(ContentType, marshalling.json), Completed(None)]
  }

  /** The handler stage logs nothing from the validator and calls no filter; it completes
      once unless it panics. */
  lemma HandlerTraceViews(handler: Option<string>, operationName: string, handled: HandlerResult,
                          marshalling: Marshalling)
    ensures var h := HandlerTrace(handler, operationName, handled, marshalling);
      FilterCalls(h) == [] && ValidatorLines(h) == [] &&
      Completions(h) == (if handler.None? then 0 else 1)
  {
    var h := HandlerTrace(handler, operationName, handled, marshalling);
    if handler.None? {
      assert h[..0] == [];
    } else {
      var tail := h[1..];
      assert h == [HandlerCalled] + tail;
      TraceAppend([HandlerCalled], tail);
      assert [HandlerCalled][..0] == [];
      assert tail[..1][..0] == [];
      assert tail[..1] + [tail[1]] == tail;
    }
  }

  /** What the filter loop does: every filter up to and including the first that fails,
      then that failure's response. */
  function FilterStage(runs: seq<FilterRun>): seq<Event>
  {
    match FirstFailing(runs)
    case Some(k) => FilterEvents(k + 1) + Fail(runs[k].err.value)
    case None => FilterEvents(|runs|)
  }

  /** What happens after the body stage, given the error it ended with. */
  function AfterBody(bodyErr: Option<ApiError>, runs: seq<FilterRun>, handler: Option<string>,
                     operationName: string, handled: HandlerResult, marshalling: Marshalling): seq<Event>
  {
    match bodyErr
    case Some(e) => Fail(e)
    case None =>
      if FirstFailing(runs).Some? then FilterStage(runs)
      else FilterStage(runs) + HandlerTrace(handler, operationName, handled, marshalling)
  }

  /** Everything `ServeHTTP` does for one request, in order, given the lines the
      validator logged and the error the body stage ended with. */
  function Trace(lines: seq<string>, bodyErr: Option<ApiError>, runs: seq<FilterRun>,
                 handler: Option<string>, operationName: string, handled: HandlerResult,
                 marshalling: Marshalling): seq<Event>
  {
    LogEvents(lines) + AfterBody(bodyErr, runs, handler, operationName, handled, marshalling)
  }

  /** A filter at index `k` failing after `k` clean ones. */
  lemma FilterFailureViews(k: nat, e: ApiError)
    ensures var t := FilterEvents(k + 1) + Fail(e);
      FilterCalls(t) == Indices(k + 1) && ValidatorLines(t) == [] &&
      HandlerCalled !in t && Panicked !in t && Completions(t) == 1
  {
    TraceAppend(FilterEvents(k + 1), Fail(e));
    FilterEventsViews(k + 1);
    FailViews(e);
  }

  /** Every filter passed and the handler stage ran. */
  lemma ReachedViews(n: nat, h: seq<Event>, handlerSet: bool)
    requires FilterCalls(h) == [] && ValidatorLines(h) == []
    requires Completions(h) == (if handlerSet then 1 else 0)
    ensures var t := FilterEvents(n) + h;
      FilterCalls(t) == Indices(n) && ValidatorLines(t) == [] &&
      (HandlerCalled in t <==> HandlerCalled in h) && (Panicked in t <==> Panicked in h) &&
      Completions(t) == (if handlerSet then 1 else 0)
  {
    TraceAppend(FilterEvents(n), h);
    FilterEventsViews(n);
  }

  /** What can be observed of the events after the body stage. */
  predicate AfterBodyObserved(t: seq<Event>, bodyErr: Option<ApiError>, runs: seq<FilterRun>, handler: Option<string>)
  {
    var reached := bodyErr.None? && FirstFailing(runs).None?;
    FilterCalls(t) == Indices(FiltersRun(bodyErr, runs)) && ValidatorLines(t) == [] &&
    (HandlerCalled in t <==> reached && handler.Some?) &&
    (Panicked in t <==> reached && handler.None?) &&
    Completions(t) == (if Panicked in t then 0 else 1)
  }

  lemma AfterFilterFailure(runs: seq<FilterRun>, handler: Option<string>,
                           operationName: string, handled: HandlerResult, marshalling: Marshalling)
    requires FirstFailing(runs).Some?
    ensures AfterBodyObserved(AfterBody(None, runs, handler, operationName, handled, marshalling), None, runs, handler)
  {
    var k := FirstFailing(runs).value;
    FilterFailureViews(k, runs[k].err.value);
  }

  lemma AfterHandler(runs: seq<FilterRun>, handler: Option<string>,
                     operationName: string, handled: HandlerResult, marshalling: Marshalling)
    requires FirstFailing(runs).None?
    ensures AfterBodyObserved(AfterBody(None, runs, handler, operationName, handled, marshalling), None, runs, handler)
  {
    var h := HandlerTrace(handler, operationName, handled, marshalling);
    HandlerTraceViews(handler, operationName, handled, marshalling);
    assert HandlerCalled in h <==> handler.Some?;
    assert Panicked in h <==> handler.None?;
    ReachedViews(|runs|, h, handler.Some?);
  }

  lemma AfterBodyViews(bodyErr: Option<ApiError>, runs: seq<FilterRun>, handler: Option<string>,
                       operationName: string, handled: HandlerResult, marshalling: Marshalling)
    ensures AfterBodyObserved(AfterBody(bodyErr, runs, handler, operationName, handled, marshalling), bodyErr, runs, handler)
  {
    match bodyErr
    case Some(e) =>
      FailViews(e);
    case None =>
      if FirstFailing(runs).Some? {
        AfterFilterFailure(runs, handler, operationName, handled, marshalling);
      } else {
        AfterHandler(runs, handler, operationName, handled, marshalling);
      }
  }

  /** Filters run in registration order: none after a body error, otherwise each up to
      and including the first that fails. The validator's lines are logged before
      anything else. The handler runs exactly when neither the body stage nor a filter
      stopped the request and a handler was set; when none was set, the request panics
      instead. Every request that does not panic is logged exactly once. */
  lemma TraceViews(lines: seq<string>, bodyErr: Option<ApiError>, runs: seq<FilterRun>,
                   handler: Option<string>, operationName: string, handled: HandlerResult,
                   marshalling: Marshalling)
    ensures var t := Trace(lines, bodyErr, runs, handler, operationName, handled, marshalling);
      var reached := bodyErr.None? && FirstFailing(runs).None?;
      FilterCalls(t) == Indices(FiltersRun(bodyErr, runs)) &&
      ValidatorLines(t) == lines && t[..|lines|] == LogEvents(lines) &&
      (HandlerCalled in t <==> reached && handler.Some?) &&
      (Panicked in t <==> reached && handler.None?) &&
      Completions(t) == (if Panicked in t then 0 else 1)
  {
    var rest := AfterBody(bodyErr, runs, handler, operationName, handled, marshalling);
    AfterBodyViews(bodyErr, runs, handler, operationName, handled, marshalling);
    LogPrefixViews(lines, rest);
  }

  /** The validator's lines in front of a trace change only its logged lines. */
  lemma LogPrefixViews(lines: seq<string>, rest: seq<Event>)
    ensures var t := LogEvents(lines) + rest;
      FilterCalls(t) == FilterCalls(rest) && ValidatorLines(t) == lines + ValidatorLines(rest) &&
      t[..|lines|] == LogEvents(lines) &&
      (HandlerCalled in t <==> HandlerCalled in rest) && (Panicked in t <==> Panicked in rest) &&
      Completions(t) == Completions(rest)
  {
    var log := LogEvents(lines);
    TraceAppend(log, rest);
    assert (log + rest)[..|log|] == log;
  }

  /** How the response ends: the first error of the body stage, the filters and the
      handler stage, in that order, is written and logged; otherwise the JSON result is
      written and a success is logged. */
  lemma TraceEnds(lines: seq<string>, bodyErr: Option<ApiError>, runs: seq<FilterRun>,
                  handler: Option<string>, operationName: string, handled: HandlerResult,
                  marshalling: Marshalling)
    ensures var t := Trace(lines, bodyErr, runs, handler, operationName, handled, marshalling);
      var verdict :=
        if bodyErr.Some? then bodyErr
        else if FirstFailing(runs).Some? then runs[FirstFailing(runs).value].err
        else HandlerVerdict(operationName, handled, marshalling);
      handler.Some? || bodyErr.Some? || FirstFailing(runs).Some? ==>
        |t| >= 2 &&
        t[|t| - 2..] == (if verdict.Some? then Fail(verdict.value)
                         else [BodyWritten(ContentType, marshalling.json), Completed(None)])
  {
    if bodyErr.Some? {
      EndsWith(LogEvents(lines), [], Fail(bodyErr.value));
    } else if FirstFailing(runs).Some? {
      EndsAtFilter(lines, runs, handler, operationName, handled, marshalling);
    } else if handler.Some? {
      EndsAtHandler(lines, runs, handler, operationName, handled, marshalling);
    }
  }

  lemma EndsAtFilter(lines: seq<string>, runs: seq<FilterRun>,
                     handler: Option<string>, operationName: string, handled: HandlerResult,
                     marshalling: Marshalling)
    requires FirstFailing(runs).Some?
    ensures var t := Trace(lines, None, runs, handler, operationName, handled, marshalling);
      |t| >= 2 && t[|t| - 2..] == Fail(runs[FirstFailing(runs).value].err.value)
  {
    var k := FirstFailing(runs).value;
    EndsWith(LogEvents(lines), FilterEvents(k + 1), Fail(runs[k].err.value));
  }

  lemma EndsAtHandler(lines: seq<string>, runs: seq<FilterRun>,
                      handler: Option<string>, operationName: string, handled: HandlerResult,
                      marshalling: Marshalling)
    requires FirstFailing(runs).None? && handler.Some?
    ensures var t := Trace(lines, None, runs, handler, operationName, handled, marshalling);
      var verdict := HandlerVerdict(operationName, handled, marshalling);
      |t| >= 2 &&
      t[|t| - 2..] == (if verdict.Some? then Fail(verdict.value)
                       else [BodyWritten(ContentType, marshalling.json), Completed(None)])
  {
    var h := HandlerTrace(handler, operationName, handled, marshalling);
    var tail := h[1..];
    assert h == [HandlerCalled] + tail;
    EndsWith(LogEvents(lines), FilterEvents(|runs|), h);
  }

  /** The last two events of `a + (b + c)` are those of `c`, when it has two. */
  lemma EndsWith(a: seq<Event>, b: seq<Event>, c: seq<Event>)
    requires |c| >= 2
    ensures var t := a + (b + c); |t| >= 2 && t[|t| - 2..] == c[|c| - 2..]
  {
    var t := a + (b + c);
    assert t[|t| - 2] == c[|c| - 2] && t[|t| - 1] == c[|c| - 1];
  }

  /** How many responses were written: error responses and JSON bodies. */
  function Responses(events: seq<Event>): nat
  {
    if events == [] then 0
    else Responses(events[..|events| - 1])
         + (if events[|events| - 1].ErrorWritten? || events[|events| - 1].BodyWritten? then 1 else 0)
  }

  lemma {:induction false} ResponsesAppend(a: seq<Event>, b: seq<Event>)
    ensures Responses(a + b) == Responses(a) + Responses(b)
    decreases |b|
  {
    if b != [] {
      var init := b[..|b| - 1];
      assert (a + b)[..|a + b| - 1] == a + init;
      assert (a + b)[|a + b| - 1] == b[|b| - 1];
      ResponsesAppend(a, init);
    } else {
      assert a + b == a;
    }
  }

  /** The responses of a two-event tail: one when the first event writes one. */
  lemma ResponsesPair(x: Event, y: Event)
    requires !y.ErrorWritten? && !y.BodyWritten?
    ensures Responses([x, y]) == (if x.ErrorWritten? || x.BodyWritten? then 1 else 0)
  {
    assert [x, y][..1] == [x];
    assert [x][..0] == [];
    assert Responses([x]) == (if x.ErrorWritten? || x.BodyWritten? then 1 else 0);
  }

  /** The validator's lines and passing filters write no response. */
  lemma {:induction false} SilentPrefix(lines: seq<string>, n: nat)
    ensures Responses(LogEvents(lines)) == 0 && Responses(FilterEvents(n)) == 0
    decreases |lines| + n
  {
    if lines != [] {
      var init := lines[..|lines| - 1];
      SilentPrefix(init, 0);
      ResponsesAppend(LogEvents(init), [ValidatorLog(lines[|lines| - 1])]);
      assert [ValidatorLog(lines[|lines| - 1])][..0] == [];
    }
    if n > 0 {
      SilentPrefix([], n - 1);
      ResponsesAppend(FilterEvents(n - 1), [FilterCalled(n - 1)]);
      assert [FilterCalled(n - 1)][..0] == [];
    }
  }

  /** The handler stage writes exactly one response, unless the handler is nil and the
      call panics. */
  lemma HandlerResponds(handler: Option<string>, operationName: string, handled: HandlerResult,
                        marshalling: Marshalling)
    ensures Responses(HandlerTrace(handler, operationName, handled, marshalling)) ==
      (if handler.None? then 0 else 1)
  {
    var h := HandlerTrace(handler, operationName, handled, marshalling);
    if handler.None? {
      assert h[..0] == [];
    } else {
      var tail := h[1..];
      assert h == [HandlerCalled] + tail;
      ResponsesAppend([HandlerCalled], tail);
      assert [HandlerCalled][..0] == [];
      ResponsesPair(tail[0], tail[1]);
      assert tail == [tail[0], tail[1]];
    }
  }

  /** After the body stage exactly one response is written, unless the request
      reached a nil handler. */
  lemma AfterBodyResponds(bodyErr: Option<ApiError>, runs: seq<FilterRun>, handler: Option<string>,
                          operationName: string, handled: HandlerResult, marshalling: Marshalling)
    ensures Responses(AfterBody(bodyErr, runs, handler, operationName, handled, marshalling)) ==
      (if bodyErr.None? && FirstFailing(runs).None? && handler.None? then 0 else 1)
  {
    match bodyErr
    case Some(e) =>
      ResponsesPair(ErrorWritten(e), Completed(Some(e)));
    case None =>
      match FirstFailing(runs)
      case Some(k) =>
        var e := runs[k].err.value;
        SilentPrefix([], k + 1);
        ResponsesAppend(FilterEvents(k + 1), Fail(e));
        ResponsesPair(ErrorWritten(e), Completed(Some(e)));
      case None =>
        SilentPrefix([], |runs|);
        ResponsesAppend(FilterEvents(|runs|), HandlerTrace(handler, operationName, handled, marshalling));
        HandlerResponds(handler, operationName, handled, marshalling);
  }

  /** Every request that does not panic writes exactly one response: a decode or
      validation failure, a failing filter, a handler error or the JSON result, and
      never two of them. */
  lemma TraceResponds(lines: seq<string>, bodyErr: Option<ApiError>, runs: seq<FilterRun>,
                      handler: Option<string>, operationName: string, handled: HandlerResult,
                      marshalling: Marshalling)
    ensures var t := Trace(lines, bodyErr, runs, handler, operationName, handled, marshalling);
      Responses(t) == (if Panicked in t then 0 else 1)
  {
    var rest := AfterBody(bodyErr, runs, handler, operationName, handled, marshalling);
    SilentPrefix(lines, 0);
    ResponsesAppend(LogEvents(lines), rest);
    AfterBodyResponds(bodyErr, runs, handler, operationName, handled, marshalling);
    TraceViews(lines, bodyErr, runs, handler, operationName, handled, marshalling);
  }

  /** A body that fails to decode or validate is answered alone: after the validator's
      lines, only its error response and its log entry. */
  lemma BodyFailureAlone(lines: seq<string>, e: ApiError, runs: seq<FilterRun>,
                         handler: Option<string>, operationName: string, handled: HandlerResult,
                         marshalling: Marshalling)
    ensures var t := Trace(lines, Some(e), runs, handler, operationName, handled, marshalling);
      t[|lines|..] == [ErrorWritten(e), Completed(Some(e))] &&
      forall i :: 0 <= i < |lines| ==> t[i] == ValidatorLog(lines[i])
  {
    var t := Trace(lines, Some(e), runs, handler, operationName, handled, marshalling);
    LogLines(lines);
    assert t == LogEvents(lines) + Fail(e);
  }

  /** The validator's events are its lines, one each, in order. */
  lemma {:induction false} LogLines(lines: seq<string>)
    ensures forall i :: 0 <= i < |lines| ==> LogEvents(lines)[i] == ValidatorLog(lines[i])
  {
    if lines != [] {
      LogLines(lines[..|lines| - 1]);
    }
  }

  /** The first stage of `ServeHTTP`: decode the body into the input model and
      validate it, when the call has one and the request is not a GET. */
  method CheckBody(model: CallDataModel, r: Request, decoding: Decoding)
    returns (bodyErr: Option<ApiError>, lines: seq<string>)
    requires model.bodyIn.Some? ==> model.bodyIn.value.Struct?
    requires model.bodyIn.Some? && decoding.Decoded? ==> Conforms(decoding.payload, model.bodyIn.value)
    ensures model.bodyIn.Some? && decoding.Decoded? ==> Shaped(decoding.payload, model.bodyIn.value)
    ensures bodyErr == BodyVerdict(model, r, decoding) && lines == BodyLog(model, r, decoding)
  {
    if model.bodyIn.Some? && decoding.Decoded? {
      assert Shaped(decoding.payload, model.bodyIn.value);
    }
    if model.bodyIn.Some? && r.verb != Get {
      match decoding
      case Undecodable(cause) =>
        return Some(RequestError(ParseFailure, cause)), [];
      case Decoded(payload) =>
        bodyErr, lines := ValidateTagsIn(model, payload);
        return;
    }
    return None, [];
  }

  /** The filter loop of `ServeHTTP`: each filter in registration order, stopping at the
      first that returns an error, which is then written and logged. */
  method RunFilters(runs: seq<FilterRun>, start: CallData) returns (events: seq<Event>, data: CallData, stopped: bool)
    ensures stopped <==> FirstFailing(runs).Some?
    ensures events == FilterStage(runs)
    ensures data == ApplyWrites(start, runs, FiltersRun(None, runs))
  {
    events, data := [], start;
    var i := 0;
    while i < |runs|
      invariant 0 <= i <= |runs|
      invariant forall j :: 0 <= j < i ==> runs[j].err.None?
      invariant events == FilterEvents(i)
      invariant data == ApplyWrites(start, runs, i)
    {
      events := events + [FilterCalled(i)];
      data := (data - runs[i].removes) + runs[i].writes;
      if runs[i].err.Some? {
        FirstFailingAt(runs, i);
        assert FiltersRun(None, runs) == i + 1;
        events := events + Fail(runs[i].err.value);
        return events, data, true;
      }
      i := i + 1;
    }
    assert FirstFailing(runs).None?;
    stopped := false;
  }

  /** The handler stage of `ServeHTTP`: call the handler (a nil one panics), then write
      its error, an internal error for a nil result or an unmarshallable one, or the JSON
      result. */
  method RunHandler(handler: Option<string>, operationName: string, handled: HandlerResult,
                    marshalling: Marshalling) returns (events: seq<Event>)
    ensures events == HandlerTrace(handler, operationName, handled, marshalling)
  {
    if handler.None? {
      return [Panicked];
    }
    events := [HandlerCalled];
    if handled.err.Some? {
      events := events + Fail(handled.err.value);
    } else if handled.result.None? {
      events := events + Fail(InternalError("Call handler for " + operationName + " did not return a response or an error."));
    } else {
      match marshalling
      case Unmarshallable =>
        events := events + Fail(InternalError("Response from call handler for " + operationName + " could not be parsed to JSON."));
      case Marshalled(jb) =>
        events := events + [BodyWritten(ContentType, jb), Completed(None)];
    }
  }

  class Call {
    var path: string
    var httpMethod: string
    var operationName: string
    var handler: Option<string>
    var filters: seq<string>
    var model: CallDataModel

    /** The registration-time rule: a call with a request body schema is never a GET,
        and its schema is a struct. */
    ghost predicate Valid()
      reads this
    {
      model.bodyIn.Some? ==> model.bodyIn.value.Struct? && httpMethod != Get
    }

    /** `&Call{path: path, operationName: path, filters: make([]Filter, 0)}`. */
    constructor (path: string)
      ensures Valid()
      ensures this.path == path && operationName == path && httpMethod == ""
      ensures handler == None && filters == []
      ensures model == CallDataModel(None, None, [], [])
    {
      this.path := path;
      httpMethod := "";
      operationName := path;
      handler := None;
      filters := [];
      model := CallDataModel(None, None, [], []);
    }

    /** Sets the method; fatal once a request body has been declared, whatever the method. */
    method Method(m: string) returns (b: Built)
      requires Valid()
      modifies this
      ensures Valid()
      ensures old(model.bodyIn).Some? ==>
        b == Fatal("Cannot set method of call to GET since Reads() was set. GET calls do not have a body.")
        && httpMethod == old(httpMethod)
      ensures old(model.bodyIn).None? ==> b == Chained && httpMethod == m
      ensures path == old(path) && operationName == old(operationName) && handler == old(handler)
      ensures filters == old(filters) && model == old(model)
    {
      if model.bodyIn.Some? {
        return Fatal("Cannot set method of call to GET since Reads() was set. GET calls do not have a body.");
      }
      httpMethod := m;
      return Chained;
    }

    method To(fn: string) returns (b: Built)
      requires Valid()
      modifies this
      ensures Valid() && b == Chained && handler == Some(fn)
      ensures path == old(path) && httpMethod == old(httpMethod) && operationName == old(operationName)
      ensures filters == old(filters) && model == old(model)
    {
      handler := Some(fn);
      return Chained;
    }

    /** Appends a filter at the end of the chain. */
    method Filter(f: string) returns (b: Built)
      requires Valid()
      modifies this
      ensures Valid() && b == Chained && filters == old(filters) + [f]
      ensures path == old(path) && httpMethod == old(httpMethod) && operationName == old(operationName)
      ensures handler == old(handler) && model == old(model)
    {
      filters := filters + [f];
      return Chained;
    }

    /** Documents a path variable: always a required string. */
    method PathParam(name: string, desc: string) returns (b: Built)
      requires Valid()
      modifies this
      ensures Valid() && b == Chained
      ensures model == old(model).(pathVars := old(model).pathVars + [InputVar("string", name, desc, true)])
      ensures path == old(path) && httpMethod == old(httpMethod) && operationName == old(operationName)
      ensures handler == old(handler) && filters == old(filters)
    {
      model := model.(pathVars := model.pathVars + [InputVar("string", name, desc, true)]);
      return Chained;
    }

    /** Declares the request body schema; fatal for a GET call or a non-struct model. */
    method Reads(m: Type) returns (b: Built)
      requires Valid()
      modifies this
      ensures Valid()
      ensures old(httpMethod) == Get ==>
        b == Fatal("A GET call can not use Reads() because the GET method does not have a request body.")
      ensures old(httpMethod) != Get && !m.Struct? ==>
        b == Fatal("The model given to Reads() must be of kind 'Struct'")
      ensures b.Chained? <==> old(httpMethod) != Get && m.Struct?
      ensures b.Chained? ==> model == old(model).(bodyIn := Some(m))
      ensures b.Fatal? ==> model == old(model)
      ensures path == old(path) && httpMethod == old(httpMethod) && operationName == old(operationName)
      ensures handler == old(handler) && filters == old(filters)
    {
      if httpMethod == Get {
        return Fatal("A GET call can not use Reads() because the GET method does not have a request body.");
      }
      if !m.Struct? {
        return Fatal("The model given to Reads() must be of kind 'Struct'");
      }
      model := model.(bodyIn := Some(m));
      return Chained;
    }

    method Returns(m: Type) returns (b: Built)
      requires Valid()
      modifies this
      ensures Valid() && b == Chained && model == old(model).(bodyOut := Some(m))
      ensures path == old(path) && httpMethod == old(httpMethod) && operationName == old(operationName)
      ensures handler == old(handler) && filters == old(filters)
    {
      model := model.(bodyOut := Some(m));
      return Chained;
    }

    method OperationName(name: string) returns (b: Built)
      requires Valid()
      modifies this
      ensures Valid() && b == Chained && operationName == name
      ensures path == old(path) && httpMethod == old(httpMethod) && handler == old(handler)
      ensures filters == old(filters) && model == old(model)
    {
      operationName := name;
      return Chained;
    }

    /** Serves one request. `decoding`, `runs` (one per registered filter), `handled`
        and `marshalling` are what the decoder, the filters, the handler and the encoder
        produce for this request; `d` is the fresh `CallData`. Returns what happened, in
        order, and `CallData` as the handler saw it. */
    method ServeHTTP(r: Request, d: CallData, decoding: Decoding, runs: seq<FilterRun>,
                     handled: HandlerResult, marshalling: Marshalling)
      returns (events: seq<Event>, data: CallData)
      requires Valid()
      requires model.bodyIn.Some? && decoding.Decoded? ==> Conforms(decoding.payload, model.bodyIn.value)
      requires |runs| == |filters|
      ensures model.bodyIn.Some? && decoding.Decoded? ==> Shaped(decoding.payload, model.bodyIn.value)
      ensures events == Trace(BodyLog(model, r, decoding), BodyVerdict(model, r, decoding), runs,
                              handler, operationName, handled, marshalling)
      ensures BodyVerdict(model, r, decoding).Some? ==> data == d
      ensures BodyVerdict(model, r, decoding).None? ==>
        data == ApplyWrites(WithBody(d, model, r, decoding), runs, FiltersRun(None, runs))
    {
      var bodyErr, lines := CheckBody(model, r, decoding);
      var log := LogEvents(lines);
      if bodyErr.Some? {
        return log + Fail(bodyErr.value), d;
      }
      var filterEvents, stopped;
      filterEvents, data, stopped := RunFilters(runs, WithBody(d, model, r, decoding));
      if stopped {
        return log + filterEvents, data;
      }
      var handlerEvents := RunHandler(handler, operationName, handled, marshalling);
      events := log + (filterEvents + handlerEvents);
    }
  }
}
