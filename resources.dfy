/** resource.go: a resource groups calls under a base path, registers them with its
    router, and runs its own filters in front of the router for every request.

    The router is reduced to the list of registrations it receives; matching a request
    against them is not modelled, so serving ends in a `Dispatched` event. */
module Resources {
  import opened Wrappers
  import Calls

  /** One `router.Handle(path, call).Methods(method)`. */
  datatype Registration = Registration(path: string, verb: string, handler: Calls.Call)

  class Router {
    var routes: seq<Registration>

    /** `mux.NewRouter()`: nothing registered yet. */
    constructor ()
      ensures routes == []
    {
      routes := [];
    }

    method Handle(path: string, verb: string, handler: Calls.Call)
      modifies this
      ensures routes == old(routes) + [Registration(path, verb, handler)]
    {
      routes := routes + [Registration(path, verb, handler)];
    }
  }

  /** What serving a request through a resource does, in order. */
  datatype ResourceEvent =
    | FilterCalled(index: nat)      // the resource filter at that index ran
    | FilterErrorLogged(line: string)
    | Dispatched                    // handed to the router

  /** The line `log.Println("Resource Filter Error: ", err)` writes: `Println` puts a
      space between its two operands. */
  function ErrorLine(err: string): (line: string)
    ensures line == "Resource Filter Error:  " + err
  {
    "Resource Filter Error: " + " " + err
  }

  /** The registrations `construct` makes for `calls` under the base path `base`. */
  function Registrations(base: string, calls: seq<Calls.Call>): (regs: seq<Registration>)
    reads calls
    ensures |regs| == |calls|
  {
    if calls == [] then []
    else
      var c := calls[|calls| - 1];
      Registrations(base, calls[..|calls| - 1]) + [Registration(base + c.path, c.httpMethod, c)]
  }

  /** Each call is registered exactly once, in order, at the base path followed by its
      own path and with its own method. */
  lemma {:induction false} RegistrationsAt(base: string, calls: seq<Calls.Call>, i: nat)
    requires i < |calls|
    ensures Registrations(base, calls)[i] ==
      Registration(base + calls[i].path, calls[i].httpMethod, calls[i])
    decreases |calls|
  {
    if i < |calls| - 1 {
      var init := calls[..|calls| - 1];
      RegistrationsAt(base, init, i);
      assert init[i] == calls[i];
    }
  }

  /** The events of the first `n` resource filters. */
  function FilterTrace(outcomes: seq<Option<string>>, n: nat): (events: seq<ResourceEvent>)
    requires n <= |outcomes|
    ensures Dispatched !in events
  {
    if n == 0 then []
    else
      FilterTrace(outcomes, n - 1) + [FilterCalled(n - 1)] + Outcome(outcomes[n - 1])
  }

  /** What follows a filter's call: the logged error, if it returned one. */
  function Outcome(o: Option<string>): (events: seq<ResourceEvent>)
    ensures Dispatched !in events
  {
    match o
    case Some(err) => [FilterErrorLogged(ErrorLine(err))]
    case None => []
  }

  /** The line logged for one filter's outcome, if any. */
  function OutcomeLine(o: Option<string>): seq<string>
  {
    match o
    case Some(err) => [ErrorLine(err)]
    case None => []
  }

  /** Everything `ServeHTTP` does, given what each resource filter returned. */
  function ResourceTrace(outcomes: seq<Option<string>>): seq<ResourceEvent>
  {
    FilterTrace(outcomes, |outcomes|) + [Dispatched]
  }

  /** The indices of the filters that ran, in order. */
  function Ran(events: seq<ResourceEvent>): seq<nat>
  {
    if events == [] then []
    else Ran(events[..|events| - 1])
         + (match events[|events| - 1] case FilterCalled(i) => [i] case _ => [])
  }

  /** The lines logged. */
  function Logged(events: seq<ResourceEvent>): seq<string>
  {
    if events == [] then []
    else Logged(events[..|events| - 1])
         + (match events[|events| - 1] case FilterErrorLogged(line) => [line] case _ => [])
  }

  /** The lines the given filter errors produce, in order. */
  function ErrorLines(outcomes: seq<Option<string>>): seq<string>
  {
    if outcomes == [] then []
    else ErrorLines(outcomes[..|outcomes| - 1]) + OutcomeLine(outcomes[|outcomes| - 1])
  }

  lemma {:induction false} ViewsAppend(a: seq<ResourceEvent>, b: seq<ResourceEvent>)
    ensures Ran(a + b) == Ran(a) + Ran(b) && Logged(a + b) == Logged(a) + Logged(b)
    decreases |b|
  {
    if b == [] {
      assert a + b == a;
    } else {
      var init := b[..|b| - 1];
      assert (a + b)[..|a + b| - 1] == a + init;
      assert (a + b)[|a + b| - 1] == b[|b| - 1];
      ViewsAppend(a, init);
    }
  }

  lemma Singles(e: ResourceEvent)
    ensures Ran([e]) == (match e case FilterCalled(i) => [i] case _ => [])
    ensures Logged([e]) == (match e case FilterErrorLogged(line) => [line] case _ => [])
  {
    assert [e][..0] == [];
  }

  /** An outcome adds no filter call and logs its own line. */
  lemma OutcomeViews(o: Option<string>)
    ensures Ran(Outcome(o)) == [] && Logged(Outcome(o)) == OutcomeLine(o)
  {
    if o.Some? {
      Singles(Outcome(o)[0]);
    }
  }

  /** One more filter adds its own index to the filters that ran. */
  lemma RanStep(outcomes: seq<Option<string>>, n: nat)
    requires 0 < n <= |outcomes|
    ensures Ran(FilterTrace(outcomes, n)) == Ran(FilterTrace(outcomes, n - 1)) + [n - 1]
  {
    var earlier := FilterTrace(outcomes, n - 1);
    var prev := earlier + [FilterCalled(n - 1)];
    var out := Outcome(outcomes[n - 1]);
    assert FilterTrace(outcomes, n) == prev + out;
    ViewsAppend(prev, out);
    ViewsAppend(earlier, [FilterCalled(n - 1)]);
    Singles(FilterCalled(n - 1));
    OutcomeViews(outcomes[n - 1]);
    assert Ran(prev + out) == Ran(earlier) + [n - 1] + [];
  }

  /** One more filter adds the line of its own error, if any, to the log. */
  lemma LoggedStep(outcomes: seq<Option<string>>, n: nat)
    requires 0 < n <= |outcomes|
    ensures Logged(FilterTrace(outcomes, n)) == Logged(FilterTrace(outcomes, n - 1)) + OutcomeLine(outcomes[n - 1])
  {
    var prev := FilterTrace(outcomes, n - 1) + [FilterCalled(n - 1)];
    ViewsAppend(prev, Outcome(outcomes[n - 1]));
    ViewsAppend(FilterTrace(outcomes, n - 1), [FilterCalled(n - 1)]);
    Singles(FilterCalled(n - 1));
    OutcomeViews(outcomes[n - 1]);
  }

  /** A filter's error never stops the others: every filter runs, in order. */
  lemma {:induction false} AllFiltersRun(outcomes: seq<Option<string>>, n: nat)
    requires n <= |outcomes|
    ensures Ran(FilterTrace(outcomes, n)) == Calls.Indices(n)
  {
    if n > 0 {
      AllFiltersRun(outcomes, n - 1);
      RanStep(outcomes, n);
    }
  }

  /** Each error a filter returns is logged, once and in order. */
  lemma {:induction false} AllErrorsLogged(outcomes: seq<Option<string>>, n: nat)
    requires n <= |outcomes|
    ensures Logged(FilterTrace(outcomes, n)) == ErrorLines(outcomes[..n])
  {
    if n > 0 {
      AllErrorsLogged(outcomes, n - 1);
      LoggedStep(outcomes, n);
      assert outcomes[..n][..n - 1] == outcomes[..n - 1];
    }
  }

  /** The whole trace: all filters ran, every error logged, and the router reached last
      and once. */
  lemma ResourceTraceDispatches(outcomes: seq<Option<string>>)
    ensures var t := ResourceTrace(outcomes);
      Ran(t) == Calls.Indices(|outcomes|) && Logged(t) == ErrorLines(outcomes) &&
      t[|t| - 1] == Dispatched && Dispatched !in t[..|t| - 1]
  {
    var t := ResourceTrace(outcomes);
    var filters := FilterTrace(outcomes, |outcomes|);
    AllFiltersRun(outcomes, |outcomes|);
    AllErrorsLogged(outcomes, |outcomes|);
    ViewsAppend(filters, [Dispatched]);
    Singles(Dispatched);
    assert outcomes[..|outcomes|] == outcomes;
    assert t[..|t| - 1] == filters;
  }

  class Resource {
    var path: string
    var name: string
    var calls: seq<Calls.Call>
    var filters: seq<string>
    var router: Router

    /** `NewResource(path)`: the given path, no calls, no filters, a new router. */
    constructor (path: string)
      ensures this.path == path && name == "" && calls == [] && filters == []
      ensures fresh(router) && router.routes == []
    {
      this.path := path;
      name := "";
      calls := [];
      filters := [];
      router := new Router();
    }

    /** Appends one new call for the given path and returns it for configuration. */
    method Route(p: string) returns (c: Calls.Call)
      modifies this
      ensures fresh(c) && calls == old(calls) + [c]
      ensures c.path == p && c.operationName == p && c.filters == []
      ensures c.httpMethod == "" && c.handler == None && c.model == Calls.CallDataModel(None, None, [], [])
      ensures c.Valid()
      ensures path == old(path) && name == old(name) && filters == old(filters) && router == old(router)
    {
      c := new Calls.Call(p);
      calls := calls + [c];
    }

    /** Registers every call with the router at `pathPrefix + path + call.path`, in order. */
    method Construct(pathPrefix: string)
      modifies router
      ensures router.routes == old(router.routes) + Registrations(pathPrefix + path, calls)
    {
      var i := 0;
      while i < |calls|
        invariant 0 <= i <= |calls|
        invariant router.routes == old(router.routes) + Registrations(pathPrefix + path, calls[..i])
      {
        var call := calls[i];
        assert calls[..i + 1][..i] == calls[..i];
        router.Handle(pathPrefix + path + call.path, call.httpMethod, call);
        i := i + 1;
      }
      assert calls[..i] == calls;
    }

    /** Runs every resource filter in order, logging an error without stopping, then
        hands the request to the router. `outcomes` is what each filter returned. */
    method ServeHTTP(outcomes: seq<Option<string>>) returns (events: seq<ResourceEvent>)
      requires |outcomes| == |filters|
      ensures events == ResourceTrace(outcomes)
    {
      events := [];
      var i := 0;
      while i < |filters|
        invariant 0 <= i <= |filters|
        invariant events == FilterTrace(outcomes, i)
      {
        events := events + [FilterCalled(i)];
        if outcomes[i].Some? {
          events := events + [FilterErrorLogged(ErrorLine(outcomes[i].value))];
        }
        i := i + 1;
      }
      events := events + [Dispatched];
    }
  }
}
