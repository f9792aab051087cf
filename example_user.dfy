/** example/user.go: the `User` input schema, the `hasAuthFilter` filter, the two
    handlers and `Generate`, which registers the user resource's two calls. */
module ExampleUser {
  import opened Wrappers
  import opened Strings
  import opened Reflect
  import DataModel
  import Calls
  import Resources
  import ExampleErrors

  /** `User`: each field with the value of its `sleepy` tag key (`Password`'s is
      `required,writeonly`). */
  const UserType: Type := Struct([
    Field("Id", "readonly", Leaf(StringKind)),
    Field("FirstName", "required", Leaf(StringKind)),
    Field("LastName", "required", Leaf(StringKind)),
    Field("Email", "required", Leaf(StringKind)),
    Field("Password", "required" + [','] + "writeonly", Leaf(StringKind))])

  /** The `readonly` tag names `readonly` once and `required` never. */
  lemma ReadOnlyTagCounts()
    ensures Count(Split("readonly", ','), DataModel.SleepyRequired) == 0
    ensures Count(Split("readonly", ','), DataModel.SleepyReadOnly) == 1
  {
    SplitPlain("readonly", ',');
    assert "readonly"[2] != "required"[2];
    CountSingle("readonly", DataModel.SleepyRequired);
    CountSingle("readonly", DataModel.SleepyReadOnly);
  }

  /** The `required` tag names `required` once and `readonly` never. */
  lemma RequiredTagCounts()
    ensures Count(Split("required", ','), DataModel.SleepyRequired) == 1
    ensures Count(Split("required", ','), DataModel.SleepyReadOnly) == 0
  {
    SplitPlain("required", ',');
    assert "readonly"[2] != "required"[2];
    CountSingle("required", DataModel.SleepyRequired);
    CountSingle("required", DataModel.SleepyReadOnly);
  }

  /** `Password`'s tag names `required` once and `readonly` never; its `writeonly`
      token counts for neither. */
  lemma PasswordTagCounts()
    ensures Count(Split("required" + [','] + "writeonly", ','), DataModel.SleepyRequired) == 1
    ensures Count(Split("required" + [','] + "writeonly", ','), DataModel.SleepyReadOnly) == 0
  {
    TwoTokens("required", "writeonly", ',');
    CountPair("required", "writeonly", DataModel.SleepyRequired);
    CountPair("required", "writeonly", DataModel.SleepyReadOnly);
    assert "writeonly"[0] != "required"[0] && "writeonly"[0] != "readonly"[0];
    assert "readonly"[2] != "required"[2];
  }

  /** Two separator-free tokens joined by the separator split back into both. */
  lemma TwoTokens(a: string, b: string, sep: char)
    requires sep !in a && sep !in b
    ensures Split(a + [sep] + b, sep) == [a, b]
  {
    SplitPlain(b, sep);
    SplitAt(a, b, sep);
  }

  lemma CountPair(a: string, b: string, token: string)
    ensures Count([a, b], token) == (if a == token then 1 else 0) + (if b == token then 1 else 0)
  {
    assert [a, b][..1] == [a];
    CountSingle(a, token);
  }

  /** One step of introspection over a leaf field. */
  lemma LeafStep(t: Type, n: nat, token: string, c: nat)
    requires t.Struct? && 0 < n <= |t.fields| && t.fields[n - 1].typ.Leaf?
    requires Count(SleepyTokens(t.fields[n - 1]), token) == c
    ensures DataModel.CollectUpTo(t, n, [], token) ==
      DataModel.CollectUpTo(t, n - 1, [], token) + Repeat([n - 1], c)
  {
    assert [] + [n - 1] == [n - 1];
  }

  /** Introspecting a struct of five leaf fields records, for each field in order, its
      own path once per occurrence of the token in its tag. */
  lemma FiveLeaves(t: Type, token: string, c0: nat, c1: nat, c2: nat, c3: nat, c4: nat)
    requires t.Struct? && |t.fields| == 5
    requires t.fields[0].typ.Leaf? && t.fields[1].typ.Leaf? && t.fields[2].typ.Leaf?
    requires t.fields[3].typ.Leaf? && t.fields[4].typ.Leaf?
    requires Count(SleepyTokens(t.fields[0]), token) == c0
    requires Count(SleepyTokens(t.fields[1]), token) == c1
    requires Count(SleepyTokens(t.fields[2]), token) == c2
    requires Count(SleepyTokens(t.fields[3]), token) == c3
    requires Count(SleepyTokens(t.fields[4]), token) == c4
    ensures DataModel.Collect(t, [], token) ==
      Repeat([0], c0) + Repeat([1], c1) + Repeat([2], c2) + Repeat([3], c3) + Repeat([4], c4)
  {
    LeafStep(t, 1, token, c0);
    LeafStep(t, 2, token, c1);
    LeafStep(t, 3, token, c2);
    LeafStep(t, 4, token, c3);
    LeafStep(t, 5, token, c4);
    assert DataModel.CollectUpTo(t, 1, [], token) == Repeat([0], c0);
  }

  lemma CountSingle(x: string, token: string)
    ensures Count([x], token) == if x == token then 1 else 0
  {
    assert [x][..0] == [];
  }

  /** How often each field's tag names `required` and `readonly`. */
  lemma UserCounts()
    ensures Count(SleepyTokens(UserType.fields[0]), DataModel.SleepyRequired) == 0
    ensures Count(SleepyTokens(UserType.fields[0]), DataModel.SleepyReadOnly) == 1
    ensures Count(SleepyTokens(UserType.fields[1]), DataModel.SleepyRequired) == 1
    ensures Count(SleepyTokens(UserType.fields[1]), DataModel.SleepyReadOnly) == 0
    ensures Count(SleepyTokens(UserType.fields[2]), DataModel.SleepyRequired) == 1
    ensures Count(SleepyTokens(UserType.fields[2]), DataModel.SleepyReadOnly) == 0
    ensures Count(SleepyTokens(UserType.fields[3]), DataModel.SleepyRequired) == 1
    ensures Count(SleepyTokens(UserType.fields[3]), DataModel.SleepyReadOnly) == 0
    ensures Count(SleepyTokens(UserType.fields[4]), DataModel.SleepyRequired) == 1
    ensures Count(SleepyTokens(UserType.fields[4]), DataModel.SleepyReadOnly) == 0
  {
    ReadOnlyTagCounts();
    RequiredTagCounts();
    PasswordTagCounts();
  }

  /** Introspecting `User` for `required` finds `FirstName`, `LastName`, `Email` and
      `Password`, in declaration order; `Password`'s `writeonly` token adds nothing. */
  lemma UserRequiredPaths()
    ensures DataModel.Collect(UserType, [], DataModel.SleepyRequired) == [[1], [2], [3], [4]]
  {
    UserCounts();
    FiveLeaves(UserType, DataModel.SleepyRequired, 0, 1, 1, 1, 1);
    OneOrNone([0], 0);
    OneOrNone([1], 1);
    OneOrNone([2], 1);
    OneOrNone([3], 1);
    OneOrNone([4], 1);
    Four([1], [2], [3], [4]);
  }

  lemma Four(a: seq<int>, b: seq<int>, c: seq<int>, d: seq<int>)
    ensures [] + [a] + [b] + [c] + [d] == [a, b, c, d]
  {
  }

  /** Introspecting `User` for `readonly` finds only `Id`. */
  lemma UserReadOnlyPaths()
    ensures DataModel.Collect(UserType, [], DataModel.SleepyReadOnly) == [[0]]
  {
    UserCounts();
    FiveLeaves(UserType, DataModel.SleepyReadOnly, 1, 0, 0, 0, 0);
    OneOrNone([0], 1);
    OneOrNone([1], 0);
    OneOrNone([2], 0);
    OneOrNone([3], 0);
    OneOrNone([4], 0);
    assert [[0]] + [] + [] + [] + [] == [[0]];
  }

  lemma OneOrNone(p: seq<int>, c: nat)
    requires c <= 1
    ensures Repeat(p, c) == if c == 1 then [p] else []
  {
    if c == 1 {
      assert Repeat(p, 1) == Repeat(p, 0) + [p];
    }
  }

  const AuthorizationHeader: string := "Authorization"
  const AuthKey: string := "auth"

  /** `hasAuthFilter`: without an Authorization header it answers `ErrLogin` and writes
      nothing; with one it stores the header under "auth" and lets the request pass. */
  function HasAuthFilter(r: Calls.Request): (run: Calls.FilterRun)
    ensures Calls.Header(r, AuthorizationHeader) == "" ==>
      run.err == Some(ExampleErrors.ErrLogin.AsApiError()) && run.removes == {} && run.writes == map[]
    ensures Calls.Header(r, AuthorizationHeader) != "" ==>
      run.err == None && run.removes == {} && run.writes == map[AuthKey := Calls.Text(Calls.Header(r, AuthorizationHeader))]
  {
    if Calls.Header(r, AuthorizationHeader) == "" then
      Calls.FilterRun({}, map[], Some(ExampleErrors.ErrLogin.AsApiError()))
    else
      Calls.FilterRun({}, map[AuthKey := Calls.Text(Calls.Header(r, AuthorizationHeader))], None)
  }

  /** What the filter does to the call data: nothing without the header; with it, "auth"
      holds the header and every other key keeps its value. */
  lemma HasAuthFilterData(r: Calls.Request, d: Calls.CallData)
    ensures var after := Calls.ApplyWrites(d, [HasAuthFilter(r)], 1);
      (Calls.Header(r, AuthorizationHeader) == "" ==> after == d) &&
      (Calls.Header(r, AuthorizationHeader) != "" ==>
        after == d[AuthKey := Calls.Text(Calls.Header(r, AuthorizationHeader))] &&
        forall k :: k in d && k != AuthKey ==> k in after && after[k] == d[k])
  {
    var after := Calls.ApplyWrites(d, [HasAuthFilter(r)], 1);
    assert Calls.ApplyWrites(d, [HasAuthFilter(r)], 0) == d;
    assert d - {} == d;
    if Calls.Header(r, AuthorizationHeader) == "" {
      assert after == d;
    }
  }

  /** `getUser`: always the same text and no error. */
  function GetUser(): (h: Calls.HandlerResult)
    ensures h.err.None? && h.result.Some?
  {
    Calls.HandlerResult(Some(Calls.Text("getUser! - " + "asdf")), None)
  }

  /** `createUser`: always the same text and no error. */
  function CreateUser(): (h: Calls.HandlerResult)
    ensures h.err.None? && h.result.Some?
  {
    Calls.HandlerResult(Some(Calls.Text("Create User!")), None)
  }

  /** Records the message of a builder that ends in `log.Fatal`. */
  function Fatals(b: seq<Calls.Built>): (msgs: seq<string>)
    ensures (forall i :: 0 <= i < |b| ==> b[i].Chained?) ==> msgs == []
  {
    if b == [] then []
    else Fatals(b[..|b| - 1]) + (match b[|b| - 1] case Fatal(m) => [m] case Chained => [])
  }

  /** The GET call of `Generate`: `/{uid}`, answered by `getUser`, documenting its
      path variable. */
  method RouteGetUser(res: Resources.Resource) returns (get: Calls.Call, fatals: seq<string>)
    modifies res
    ensures fresh(get) && res.calls == old(res.calls) + [get] && res.path == old(res.path)
    ensures res.name == old(res.name) && res.filters == old(res.filters) && res.router == old(res.router)
    ensures fatals == []
    ensures get.path == "/{uid}" && get.httpMethod == "GET" &&
      get.handler == Some("getUser") && get.operationName == "getUser" && get.filters == [] &&
      get.model == Calls.CallDataModel(None, Some(UserType),
        [Calls.InputVar("string", "uid", "ID of the user to search for.", true)], []) &&
      get.Valid()
  {
    get := res.Route("/{uid}");
    var b0 := get.Method("GET");
    var b1 := get.To("getUser");
    var b2 := get.OperationName("getUser");
    var b3 := get.PathParam("uid", "ID of the user to search for.");
    var b4 := get.Returns(UserType);
    fatals := Fatals([b0, b1, b2, b3, b4]);
  }

  /** The POST call of `Generate`: the collection path itself, answered by `createUser`
      behind `hasAuthFilter`, reading a `User`. */
  method RoutePostUser(res: Resources.Resource) returns (post: Calls.Call, fatals: seq<string>)
    modifies res
    ensures fresh(post) && res.calls == old(res.calls) + [post] && res.path == old(res.path)
    ensures res.name == old(res.name) && res.filters == old(res.filters) && res.router == old(res.router)
    ensures fatals == []
    ensures post.path == "" && post.httpMethod == "POST" &&
      post.handler == Some("createUser") && post.operationName == "createUser" &&
      post.filters == ["hasAuthFilter"] &&
      post.model == CreateUserModel &&
      post.Valid()
  {
    post := res.Route("");
    var b0 := post.Method("POST");
    var b1 := post.To("createUser");
    var b2 := post.Filter("hasAuthFilter");
    var b3 := post.OperationName("createUser");
    var b4 := post.Reads(UserType);
    var b5 := post.Returns(UserType);
    fatals := Fatals([b0, b1, b2, b3, b4, b5]);
  }

  /** `Generate`: the user resource at "/users" with its two calls, configured by the
      builders in the order written. None of the builders is fatal: the GET call never
      reads a body, and the POST call sets its method before `Reads`. */
  method Generate() returns (res: Resources.Resource, fatals: seq<string>)
    ensures fresh(res) && res.path == "/users" && |res.calls| == 2
    ensures res.name == "" && res.filters == [] && fresh(res.router) && res.router.routes == []
    ensures fatals == []
    ensures var get := res.calls[0];
      fresh(get) && get.path == "/{uid}" && get.httpMethod == "GET" &&
      get.handler == Some("getUser") && get.operationName == "getUser" && get.filters == [] &&
      get.model == Calls.CallDataModel(None, Some(UserType),
        [Calls.InputVar("string", "uid", "ID of the user to search for.", true)], []) &&
      get.Valid()
    ensures var post := res.calls[1];
      fresh(post) && post.path == "" && post.httpMethod == "POST" &&
      post.handler == Some("createUser") && post.operationName == "createUser" &&
      post.filters == ["hasAuthFilter"] &&
      post.model == CreateUserModel &&
      post.Valid()
  {
    res := new Resources.Resource("/users");
    var get, getFatals := RouteGetUser(res);
    var post, postFatals := RoutePostUser(res);
    fatals := getFatals + postFatals;
  }

  /** The user resource has no resource filters, so every request goes straight to its
      router. */
  method ServeUserResource() returns (events: seq<Resources.ResourceEvent>)
    ensures events == [Resources.Dispatched]
  {
    var res, fatals := Generate();
    events := res.ServeHTTP([]);
    assert Resources.FilterTrace([], 0) == [];
  }

  /** A request without an Authorization header to a call whose only filter is
      `hasAuthFilter`: the filter runs and answers 401 "Please login."; the handler never
      runs. */
  lemma NeedsLogin(lines: seq<string>, r: Calls.Request, handler: Option<string>, op: string,
                   h: Calls.HandlerResult, marshalling: Calls.Marshalling)
    requires Calls.Header(r, AuthorizationHeader) == ""
    ensures var t := Calls.Trace(lines, None, [HasAuthFilter(r)], handler, op, h, marshalling);
      Calls.FilterCalls(t) == [0] && Calls.HandlerCalled !in t && Calls.Completions(t) == 1 &&
      t[|t| - 2..] == Calls.Fail(Calls.Raised(401, "Please login."))
  {
    var runs := [HasAuthFilter(r)];
    Calls.FirstFailingAt(runs, 0);
    Calls.TraceViews(lines, None, runs, handler, op, h, marshalling);
    Calls.TraceEnds(lines, None, runs, handler, op, h, marshalling);
    assert Calls.Indices(1) == [0];
  }

  /** The same request with the header reaches a handler that answers without error,
      and the handler's result is written as JSON. */
  lemma LoggedIn(lines: seq<string>, r: Calls.Request, op: string, h: Calls.HandlerResult, json: string)
    requires Calls.Header(r, AuthorizationHeader) != ""
    requires h.err.None? && h.result.Some?
    ensures var t := Calls.Trace(lines, None, [HasAuthFilter(r)], Some(op), op, h, Calls.Marshalled(json));
      Calls.FilterCalls(t) == [0] && Calls.HandlerCalled in t && Calls.Completions(t) == 1 &&
      t[|t| - 2..] == [Calls.BodyWritten(Calls.ContentType, json), Calls.Completed(None)]
  {
    var runs := [HasAuthFilter(r)];
    assert Calls.FirstFailing(runs) == None;
    assert Calls.HandlerVerdict(op, h, Calls.Marshalled(json)) == None;
    Calls.TraceViews(lines, None, runs, Some(op), op, h, Calls.Marshalled(json));
    Calls.TraceEnds(lines, None, runs, Some(op), op, h, Calls.Marshalled(json));
    assert Calls.Indices(1) == [0];
  }

  /** The model of the `createUser` call: it reads and returns a `User`. */
  const CreateUserModel: Calls.CallDataModel := Calls.CallDataModel(Some(UserType), Some(UserType), [], [])

  /** A `createUser` request without an Authorization header whose body passes decoding
      and validation (or, for a GET, is not read) is refused with 401 before the handler
      runs. */
  lemma CreateUserNeedsLogin(r: Calls.Request, decoding: Calls.Decoding, marshalling: Calls.Marshalling)
    requires Calls.Header(r, AuthorizationHeader) == ""
    requires decoding.Decoded? ==> Calls.Shaped(decoding.payload, UserType)
    requires Calls.BodyVerdict(CreateUserModel, r, decoding).None?
    ensures var t := Calls.Trace(Calls.BodyLog(CreateUserModel, r, decoding),
                                 Calls.BodyVerdict(CreateUserModel, r, decoding),
                                 [HasAuthFilter(r)], Some("createUser"), "createUser",
                                 CreateUser(), marshalling);
      Calls.FilterCalls(t) == [0] && Calls.HandlerCalled !in t && Calls.Completions(t) == 1 &&
      t[|t| - 2..] == Calls.Fail(Calls.Raised(401, "Please login."))
  {
    var lines := Calls.BodyLog(CreateUserModel, r, decoding);
    assert Calls.BodyVerdict(CreateUserModel, r, decoding) == None;
    NeedsLogin(lines, r, Some("createUser"), "createUser", CreateUser(), marshalling);
  }

  /** The same request with the header reaches the handler, whose text is written as
      the JSON result. */
  lemma CreateUserLoggedIn(r: Calls.Request, decoding: Calls.Decoding, json: string)
    requires Calls.Header(r, AuthorizationHeader) != ""
    requires decoding.Decoded? ==> Calls.Shaped(decoding.payload, UserType)
    requires Calls.BodyVerdict(CreateUserModel, r, decoding).None?
    ensures var t := Calls.Trace(Calls.BodyLog(CreateUserModel, r, decoding),
                                 Calls.BodyVerdict(CreateUserModel, r, decoding),
                                 [HasAuthFilter(r)], Some("createUser"), "createUser",
                                 CreateUser(), Calls.Marshalled(json));
      Calls.FilterCalls(t) == [0] && Calls.HandlerCalled in t && Calls.Completions(t) == 1 &&
      t[|t| - 2..] == [Calls.BodyWritten(Calls.ContentType, json), Calls.Completed(None)]
  {
    var lines := Calls.BodyLog(CreateUserModel, r, decoding);
    assert Calls.BodyVerdict(CreateUserModel, r, decoding) == None;
    var h := CreateUser();
    assert h.err.None? && h.result.Some?;
    LoggedIn(lines, r, "createUser", h, json);
  }

  /** A `createUser` POST whose body cannot be decoded is answered with the parse error
      before any filter runs, with or without the Authorization header. */
  lemma CreateUserBadBody(r: Calls.Request, cause: string, marshalling: Calls.Marshalling)
    requires r.verb != Calls.Get
    ensures Calls.BodyVerdict(CreateUserModel, r, Calls.Undecodable(cause)) ==
      Some(Calls.RequestError(Calls.ParseFailure, cause))
    ensures var t := Calls.Trace(Calls.BodyLog(CreateUserModel, r, Calls.Undecodable(cause)),
                                 Calls.BodyVerdict(CreateUserModel, r, Calls.Undecodable(cause)),
                                 [HasAuthFilter(r)], Some("createUser"), "createUser",
                                 CreateUser(), marshalling);
      t == Calls.Fail(Calls.RequestError(Calls.ParseFailure, cause)) && Calls.FilterCalls(t) == []
  {
    Calls.FailViews(Calls.RequestError(Calls.ParseFailure, cause));
  }

  /** A `createUser` POST carrying the well-formed body passes the body stage, so the
      two lemmas above apply to it. */
  lemma CreateUserAcceptsNewUser(r: Calls.Request)
    requires r.verb != Calls.Get
    ensures Calls.Shaped(NewUser, UserType)
    ensures Calls.BodyVerdict(CreateUserModel, r, Calls.Decoded(NewUser)) == None
  {
    FlatAcceptsNewUser();
  }

  /** A well-formed `createUser` body: `Id` left empty, as a read-only field must be,
      and every required field given. */
  const NewUser: Value := Record([Str(""), Str("Ada"), Str("Lovelace"), Str("ada@example.org"), Str("secret")])

  /** The same body with the read-only `Id` set by the client. */
  const NewUserWithId: Value := Record([Str("42"), Str("Ada"), Str("Lovelace"), Str("ada@example.org"), Str("secret")])

  lemma NewUserConforms()
    ensures Conforms(NewUser, UserType) && Conforms(NewUserWithId, UserType)
  {
  }

  /** What each required and read-only path of `User` holds in the well-formed body. */
  lemma NewUserZeroes()
    ensures DataModel.Resolves(NewUser, [[1], [2], [3], [4]]) && DataModel.Resolves(NewUser, [[0]])
    ensures DataModel.FirstWhere(NewUser, [[1], [2], [3], [4]], true) == None
    ensures DataModel.FirstWhere(NewUser, [[0]], true) == Some(0)
    ensures DataModel.FirstWhere(NewUser, [[0]], false) == None
  {
    assert DataModel.At(NewUser, [0]) == Str("");
    assert DataModel.At(NewUser, [1]) == Str("Ada");
    assert DataModel.At(NewUser, [2]) == Str("Lovelace");
    assert DataModel.At(NewUser, [3]) == Str("ada@example.org");
    assert DataModel.At(NewUser, [4]) == Str("secret");
  }

  /** The same for the body that sets `Id`. */
  lemma NewUserWithIdZeroes()
    ensures DataModel.Resolves(NewUserWithId, [[1], [2], [3], [4]]) && DataModel.Resolves(NewUserWithId, [[0]])
    ensures DataModel.FirstWhere(NewUserWithId, [[1], [2], [3], [4]], true) == None
    ensures DataModel.FirstWhere(NewUserWithId, [[0]], false) == Some(0)
    ensures DataModel.FirstWhere(NewUserWithId, [[0]], true) == None
  {
    assert DataModel.At(NewUserWithId, [0]) == Str("42");
    assert DataModel.At(NewUserWithId, [1]) == Str("Ada");
    assert DataModel.At(NewUserWithId, [2]) == Str("Lovelace");
    assert DataModel.At(NewUserWithId, [3]) == Str("ada@example.org");
    assert DataModel.At(NewUserWithId, [4]) == Str("secret");
  }

  /** Every recorded path of `User` names one of its fields; the read-only one is `Id`. */
  lemma UserPathsNameFields()
    ensures DataModel.NamesFields(UserType, [[1], [2], [3], [4]])
    ensures DataModel.NamesFields(UserType, [[0]])
    ensures FieldAt(UserType, [0]) == Some(UserType.fields[0]) && UserType.fields[0].name == "Id"
  {
    assert FieldAt(UserType, [1]).Some? && FieldAt(UserType, [2]).Some?;
    assert FieldAt(UserType, [3]).Some? && FieldAt(UserType, [4]).Some?;
  }

  /** data_model.go's validator, introspected from `User`, rejects the well-formed body
      as setting the read-only `Id` and accepts the body that does set it; the corrected
      validator accepts the first and rejects the second. */
  method ReadOnlyInversionWitness() returns (asWritten: Option<DataModel.RequestError>,
                                             corrected: Option<DataModel.RequestError>,
                                             correctedWithId: Option<DataModel.RequestError>,
                                             asWrittenWithId: Option<DataModel.RequestError>)
    ensures asWritten == Some(DataModel.ReadOnlySetError("Id"))
    ensures asWrittenWithId == None
    ensures corrected == None
    ensures correctedWithId == Some(DataModel.ReadOnlySetError("Id"))
  {
    var m := new DataModel.CallDataModel(Some(UserType), Some(UserType));
    assert m.TypeAtPos([]) == Some(UserType);
    var outcome := m.IdentifyFieldTags([]);
    UserRequiredPaths();
    UserReadOnlyPaths();
    assert m.requiredFields == [[1], [2], [3], [4]] && m.roFields == [[0]];
    NewUserZeroes();
    NewUserWithIdZeroes();
    UserPathsNameFields();
    asWritten := m.ValidateTagsIn(NewUser);
    corrected := m.ValidateTagsInCorrected(NewUser);
    correctedWithId := m.ValidateTagsInCorrected(NewUserWithId);
    asWrittenWithId := m.ValidateTagsIn(NewUserWithId);
  }

  /** Which of `required` and `readonly` each field of `User` carries. */
  lemma UserTagMembership()
    ensures Calls.RequiredTag !in SleepyTokens(UserType.fields[0])
    ensures Calls.ReadOnlyTag in SleepyTokens(UserType.fields[0])
    ensures Calls.RequiredTag in SleepyTokens(UserType.fields[1])
    ensures Calls.ReadOnlyTag !in SleepyTokens(UserType.fields[1])
    ensures Calls.RequiredTag in SleepyTokens(UserType.fields[2])
    ensures Calls.ReadOnlyTag !in SleepyTokens(UserType.fields[2])
    ensures Calls.RequiredTag in SleepyTokens(UserType.fields[3])
    ensures Calls.ReadOnlyTag !in SleepyTokens(UserType.fields[3])
    ensures Calls.RequiredTag in SleepyTokens(UserType.fields[4])
    ensures Calls.ReadOnlyTag !in SleepyTokens(UserType.fields[4])
  {
    UserCounts();
    var fs := UserType.fields;
    CountPositive(SleepyTokens(fs[0]), Calls.RequiredTag);
    CountPositive(SleepyTokens(fs[0]), Calls.ReadOnlyTag);
    CountPositive(SleepyTokens(fs[1]), Calls.RequiredTag);
    CountPositive(SleepyTokens(fs[1]), Calls.ReadOnlyTag);
    CountPositive(SleepyTokens(fs[2]), Calls.RequiredTag);
    CountPositive(SleepyTokens(fs[2]), Calls.ReadOnlyTag);
    CountPositive(SleepyTokens(fs[3]), Calls.RequiredTag);
    CountPositive(SleepyTokens(fs[3]), Calls.ReadOnlyTag);
    CountPositive(SleepyTokens(fs[4]), Calls.RequiredTag);
    CountPositive(SleepyTokens(fs[4]), Calls.ReadOnlyTag);
  }

  /** Five clean fields leave nothing for the flat validator to report. */
  lemma NoViolationIn5(fields: seq<Field>, items: seq<Value>)
    requires |fields| == 5 && |items| == 5
    requires Calls.Violation(fields[0], items[0]).None? && Calls.Violation(fields[1], items[1]).None?
    requires Calls.Violation(fields[2], items[2]).None? && Calls.Violation(fields[3], items[3]).None?
    requires Calls.Violation(fields[4], items[4]).None?
    ensures Calls.FirstViolation(fields, items).None?
  {
    forall j | 0 <= j < 5 ensures Calls.Violation(fields[j], items[j]).None? {
      if j == 0 {} else if j == 1 {} else if j == 2 {} else if j == 3 {} else {}
    }
  }

  /** Only `Id` is empty in the well-formed body. */
  lemma NewUserZeroness()
    ensures Calls.IsZeroOfUnderlyingType(NewUser.items[0])
    ensures !Calls.IsZeroOfUnderlyingType(NewUser.items[1]) && !Calls.IsZeroOfUnderlyingType(NewUser.items[2])
    ensures !Calls.IsZeroOfUnderlyingType(NewUser.items[3]) && !Calls.IsZeroOfUnderlyingType(NewUser.items[4])
  {
  }

  /** A field whose value agrees with its tags is not reported. */
  lemma CleanField(f: Field, v: Value)
    requires Calls.RequiredTag in SleepyTokens(f) ==> !Calls.IsZeroOfUnderlyingType(v)
    requires Calls.ReadOnlyTag in SleepyTokens(f) ==> Calls.IsZeroOfUnderlyingType(v)
    ensures Calls.Violation(f, v).None?
  {
  }

  /** call.go's flat validator accepts the well-formed body. */
  lemma FlatAcceptsNewUser()
    ensures Calls.Shaped(NewUser, UserType)
    ensures Calls.FlatVerdict(UserType, NewUser) == None
  {
    UserTagMembership();
    NewUserZeroness();
    var fs, items := UserType.fields, NewUser.items;
    CleanField(fs[0], items[0]);
    CleanField(fs[1], items[1]);
    CleanField(fs[2], items[2]);
    CleanField(fs[3], items[3]);
    CleanField(fs[4], items[4]);
    NoViolationIn5(fs, items);
  }

  /** call.go's flat validator rejects a body that sets `Id`, naming the field. */
  lemma FlatRejectsId()
    ensures Calls.Shaped(NewUserWithId, UserType)
    ensures Calls.FlatVerdict(UserType, NewUserWithId) ==
      Some(Calls.RequestError(Calls.ReadOnlyMessage("Id"), Calls.ValidationCause))
  {
    UserTagMembership();
    var fs := UserType.fields;
    var withId := NewUserWithId.items;
    assert !Calls.IsZeroOfUnderlyingType(withId[0]);
    assert fs[0].name == "Id";
    assert Calls.Violation(fs[0], withId[0]) ==
      Some(Calls.RequestError(Calls.ReadOnlyMessage("Id"), Calls.ValidationCause));
    Calls.FirstViolationAt(fs, withId, 0);
  }
}
