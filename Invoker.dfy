/**
 * Registration of a function's endpoints as routes and the handling of one
 * request on a route: build the event, resolve the function's handler
 * (lazily, once per function, through a cell all of its routes share),
 * call it, and turn its callback into the HTTP response.
 */
module Invoker {
  import opened Wrappers
  import opened JsValues
  import opened RoutePaths
  import opened HandlerRefs
  import opened MappingLanguage
  import opened EventBuilder

  /** One endpoint of a function declaration. */
  datatype Endpoint = Endpoint(path: string, verb: string, templates: Option<map<string, Template>>)

  /** A function declaration of the project. */
  datatype FunctionDecl = FunctionDecl(
    name: string,
    runtime: string,
    handler: string,
    fullPath: string,
    endpoints: seq<Endpoint>)

  /** What `handlers[fun.handler]` records: the directory, the parsed reference, the declaration. */
  datatype HandlerEntry = HandlerEntry(directory: string, reference: HandlerRef, definition: FunctionDecl)

  /**
   * The value `require(handlerPath)[handlerParts[1]]` yields: a function
   * (identified by a number) or any other value, `undefined` included.
   */
  datatype Export = Fn(id: nat) | Data(v: Value)

  /** How a called handler finishes: its callback's `(err, result)`, no callback at all, or a throw. */
  datatype Completion = Callback(err: Value, result: Value) | NoCallback | Threw(error: Value)

  /** The request's promise: resolved, rejected, or never settled. */
  datatype Outcome = Resolved(value: Value) | Rejected(error: Value) | Pending

  /** What is written back: the result as body, a bare status code, or nothing yet. */
  datatype Response = Body(value: Value) | StatusOnly(code: int) | NoResponse

  /** Calling a handler: its number and the event give its completion. */
  type HandlerRun = (nat, Event) -> Completion

  const NodeRuntime := "nodejs"
  const NotAFunction := Str("TypeError: handler is not a function")

  /**
   * Whether `if (!handler)` skips the lookup: a function is always truthy, the
   * initial `undefined` never is, and a non-function export by JavaScript's rules.
   */
  predicate ExportTruthy(h: Export): (b: bool)
    ensures h.Fn? ==> b
    ensures h == Data(Undefined) ==> !b
    ensures h.Data? ==> (b <==> Truthy(h.v))
  {
    h.Fn? || Truthy(h.v)
  }

  /**
   * The callback `function(err, result)`: a truthy `err` rejects with it,
   * otherwise the result resolves; a throw rejects; no call leaves it pending.
   */
  function Settle(c: Completion): (o: Outcome)
    ensures o.Pending? <==> c.NoCallback?
    ensures c.Callback? && Truthy(c.err) ==> o == Rejected(c.err)
    ensures c.Callback? && !Truthy(c.err) ==> o == Resolved(c.result)
    ensures c.Threw? ==> o == Rejected(c.error)
  {
    match c
    case Callback(err, result) => if Truthy(err) then Rejected(err) else Resolved(result)
    case NoCallback => Pending
    case Threw(e) => Rejected(e)
  }

  /** `handler(event, callback)`; calling a value that is not a function throws a `TypeError`. */
  function Invoke(h: Export, event: Event, run: HandlerRun): (o: Outcome)
    ensures h.Data? ==> o == Rejected(NotAFunction)
    ensures h.Fn? ==> o == Settle(run(h.id, event))
  {
    match h
    case Fn(id) => Settle(run(id, event))
    case Data(_) => Rejected(NotAFunction)
  }

  /** `res.send(r)` on resolution, `res.sendStatus(500)` on rejection. */
  function Respond(o: Outcome): (r: Response)
    ensures r.StatusOnly? <==> o.Rejected?
    ensures r.StatusOnly? ==> r.code == 500
    ensures o.Resolved? ==> r == Body(o.value)
    ensures o.Pending? ==> r == NoResponse
  {
    match o
    case Resolved(v) => Body(v)
    case Rejected(_) => StatusOnly(500)
    case Pending => NoResponse
  }

  /** A callback with a truthy error answers 500 whatever the result; one without answers the result. */
  lemma CallbackResponse(err: Value, result: Value)
    ensures Truthy(err) ==> Respond(Settle(Callback(err, result))) == StatusOnly(500)
    ensures !Truthy(err) ==> Respond(Settle(Callback(err, result))) == Body(result)
  {
  }

  /** The `handler` variable of one function, shared by the routes of all its endpoints. */
  class HandlerCell {
    var handler: Export
    /** How many times the handler has been looked up. */
    ghost var resolutions: nat

    constructor ()
      ensures handler == Data(Undefined) && resolutions == 0
    {
      handler := Data(Undefined);
      resolutions := 0;
    }
  }

  /**
   * One registered endpoint: the prefix it was registered under, the
   * endpoint, and its function's cell. The router verb and path follow from
   * the first two.
   */
  class Route {
    const prefix: string
    const endpoint: Endpoint
    const cell: HandlerCell
    /** `endpoint.method.toLocaleLowerCase()`: the router method it is registered with. */
    const verb: string := RouteMethod(endpoint.verb)
    /** The router path it is registered at. */
    const path: string := MatchablePath(prefix, endpoint.path)

    constructor (endpoint: Endpoint, prefix: string, cell: HandlerCell)
      ensures this.endpoint == endpoint && this.prefix == prefix && this.cell == cell
    {
      this.endpoint := endpoint;
      this.prefix := prefix;
      this.cell := cell;
    }

    /**
     * One request on this route. `resolution` is what looking the handler up
     * would give now; it is used only when the cell holds no truthy handler.
     */
    method Serve(req: Request, query: JsonPathQuery, parse: TemplateParser,
                 resolution: Result<Export, Value>, run: HandlerRun)
      returns (outcome: Outcome, response: Response)
      modifies cell
      ensures response == Respond(outcome)
      ensures BuildEvent(endpoint.templates, req, query, parse).Failure? ==>
        && outcome == Rejected(BuildEvent(endpoint.templates, req, query, parse).error)
        && cell.handler == old(cell.handler) && cell.resolutions == old(cell.resolutions)
      ensures BuildEvent(endpoint.templates, req, query, parse).Success? && ExportTruthy(old(cell.handler)) ==>
        && cell.handler == old(cell.handler) && cell.resolutions == old(cell.resolutions)
        && outcome == Invoke(cell.handler, BuildEvent(endpoint.templates, req, query, parse).value, run)
      ensures BuildEvent(endpoint.templates, req, query, parse).Success? && !ExportTruthy(old(cell.handler)) ==>
        && cell.resolutions == old(cell.resolutions) + 1
        && (resolution.Failure? ==> cell.handler == old(cell.handler) && outcome == Rejected(resolution.error))
        && (resolution.Success? ==>
              && cell.handler == resolution.value
              && outcome == Invoke(resolution.value, BuildEvent(endpoint.templates, req, query, parse).value, run))
    {
      var event: Event;
      match JsonTemplate(endpoint.templates) {
        case None =>
          var merged := MergeFallback(req);
          if merged.Failure? {
            outcome := Rejected(merged.error);
            response := Respond(outcome);
            return;
          }
          event := merged.value;
        case Some(Fields(pairs)) =>
          event := BuildExplicit(req, query, pairs);
        case Some(Text(source)) =>
          var parsed := parse(QuoteJsonCalls(source));
          if parsed.None? {
            outcome := Rejected(TemplateSyntaxError);
            response := Respond(outcome);
            return;
          }
          event := BuildExplicit(req, query, parsed.value);
      }
      if !ExportTruthy(cell.handler) {
        cell.resolutions := cell.resolutions + 1;
        if resolution.Failure? {
          outcome := Rejected(resolution.error);
          response := Respond(outcome);
          return;
        }
        cell.handler := resolution.value;
      }
      outcome := Invoke(cell.handler, event, run);
      response := Respond(outcome);
    }
  }

  /**
   * Once one route of a function has resolved its handler, a request on any
   * other route of that function uses the same handler and does not look
   * it up again, whatever a lookup would give.
   */
  method SharedHandlerReuse(a: Route, b: Route, req: Request, query: JsonPathQuery, parse: TemplateParser,
                            id: nat, lookupError: Value, run: HandlerRun)
    returns (second: Outcome)
    requires a.cell == b.cell && !ExportTruthy(a.cell.handler)
    requires BuildEvent(a.endpoint.templates, req, query, parse).Success?
    requires BuildEvent(b.endpoint.templates, req, query, parse).Success?
    modifies a.cell
    ensures a.cell.handler == Fn(id) && a.cell.resolutions == old(a.cell.resolutions) + 1
    ensures second == Settle(run(id, BuildEvent(b.endpoint.templates, req, query, parse).value))
  {
    var first, _ := a.Serve(req, query, parse, Success(Fn(id)), run);
    var response;
    second, response := b.Serve(req, query, parse, Failure(lookupError), run);
  }

  /** A failed lookup rejects the request and leaves the cell empty, so the next request looks up again. */
  method RetryAfterFailedLookup(r: Route, req: Request, query: JsonPathQuery, parse: TemplateParser,
                                lookupError: Value, id: nat, run: HandlerRun)
    returns (first: Outcome, firstResponse: Response, second: Outcome)
    requires !ExportTruthy(r.cell.handler)
    requires BuildEvent(r.endpoint.templates, req, query, parse).Success?
    modifies r.cell
    ensures first == Rejected(lookupError) && firstResponse == StatusOnly(500)
    ensures second == Settle(run(id, BuildEvent(r.endpoint.templates, req, query, parse).value))
    ensures r.cell.handler == Fn(id) && r.cell.resolutions == old(r.cell.resolutions) + 2
  {
    first, firstResponse := r.Serve(req, query, parse, Failure(lookupError), run);
    var secondResponse;
    second, secondResponse := r.Serve(req, query, parse, Success(Fn(id)), run);
  }

  /** Router verb, router path and endpoint of a route. */
  function Summary(r: Route): (string, string, Endpoint) {
    (r.verb, r.path, r.endpoint)
  }

  function Summaries(routes: seq<Route>): (s: seq<(string, string, Endpoint)>)
    ensures |s| == |routes| && forall i :: 0 <= i < |routes| ==> s[i] == Summary(routes[i])
  {
    seq(|routes|, i requires 0 <= i < |routes| => Summary(routes[i]))
  }

  /** The endpoints of a list of routes, in order. */
  function Endpoints(routes: seq<Route>): (s: seq<Endpoint>)
    ensures |s| == |routes| && forall i :: 0 <= i < |routes| ==> s[i] == routes[i].endpoint
  {
    seq(|routes|, i requires 0 <= i < |routes| => routes[i].endpoint)
  }

  lemma EndpointsAppend(a: seq<Route>, b: seq<Route>)
    ensures Endpoints(a + b) == Endpoints(a) + Endpoints(b)
  {
  }

  /** A sequence extending `before`, viewed from `start`, is `before`'s tail followed by the extension. */
  lemma AppendedTail<T>(before: seq<T>, after: seq<T>, start: nat)
    requires start <= |before| <= |after| && after[..|before|] == before
    ensures after[start..] == before[start..] + after[|before|..]
  {
    assert after == before + after[|before|..];
  }

  /** The route an endpoint registers under a prefix. */
  function EndpointRoute(prefix: string, endpoint: Endpoint): (string, string, Endpoint) {
    (RouteMethod(endpoint.verb), MatchablePath(prefix, endpoint.path), endpoint)
  }

  /** The route of an endpoint under `prefix`, as a function value. */
  function RouteUnder(prefix: string): Endpoint -> (string, string, Endpoint) {
    endpoint => EndpointRoute(prefix, endpoint)
  }

  /** `xs.map(f)`. */
  function Mapped<A, B>(f: A -> B, xs: seq<A>): (ys: seq<B>)
    ensures |ys| == |xs| && forall i :: 0 <= i < |xs| ==> ys[i] == f(xs[i])
  {
    seq(|xs|, i requires 0 <= i < |xs| => f(xs[i]))
  }

  lemma MappedAppend<A, B>(f: A -> B, a: seq<A>, b: seq<A>)
    ensures Mapped(f, a + b) == Mapped(f, a) + Mapped(f, b)
  {
  }

  /** The routes a list of endpoints registers under a prefix, in order. */
  function EndpointRoutes(prefix: string, endpoints: seq<Endpoint>): (s: seq<(string, string, Endpoint)>)
    ensures |s| == |endpoints| && forall i :: 0 <= i < |s| ==> s[i] == EndpointRoute(prefix, endpoints[i])
  {
    Mapped(RouteUnder(prefix), endpoints)
  }

  /** Routes registered under one prefix carry the verb and path their endpoints call for. */
  lemma RegisteredRoutes(routes: seq<Route>, prefix: string)
    requires forall i :: 0 <= i < |routes| ==> routes[i].prefix == prefix
    ensures Summaries(routes) == EndpointRoutes(prefix, Endpoints(routes))
  {
  }

  /** The endpoints a declaration registers: all of them for a `nodejs` function, none otherwise. */
  function FunctionEndpoints(fun: FunctionDecl): seq<Endpoint> {
    if fun.runtime == NodeRuntime then fun.endpoints else []
  }

  /** The routes a function declaration registers: one per endpoint, for `nodejs` functions only. */
  function FunctionRoutes(prefix: string, fun: FunctionDecl): (s: seq<(string, string, Endpoint)>)
    ensures fun.runtime != NodeRuntime ==> s == []
    ensures fun.runtime == NodeRuntime ==>
      |s| == |fun.endpoints| && forall i :: 0 <= i < |s| ==> s[i] == EndpointRoute(prefix, fun.endpoints[i])
  {
    EndpointRoutes(prefix, FunctionEndpoints(fun))
  }

  /** The endpoints of all declarations, in order. */
  function AllEndpoints(functions: seq<FunctionDecl>): seq<Endpoint>
    decreases |functions|
  {
    if |functions| == 0 then []
    else AllEndpoints(functions[..|functions| - 1]) + FunctionEndpoints(functions[|functions| - 1])
  }

  /** The routes of all declarations, in order. */
  function AllRoutes(prefix: string, functions: seq<FunctionDecl>): seq<(string, string, Endpoint)>
    decreases |functions|
  {
    if |functions| == 0 then []
    else AllRoutes(prefix, functions[..|functions| - 1]) + FunctionRoutes(prefix, functions[|functions| - 1])
  }

  /** The routes of all declarations are the routes of all their endpoints. */
  lemma {:induction false} AllRoutesOfEndpoints(prefix: string, functions: seq<FunctionDecl>)
    ensures AllRoutes(prefix, functions) == EndpointRoutes(prefix, AllEndpoints(functions))
    decreases |functions|
  {
    if |functions| > 0 {
      var init, last := functions[..|functions| - 1], functions[|functions| - 1];
      AllRoutesOfEndpoints(prefix, init);
      MappedAppend(RouteUnder(prefix), AllEndpoints(init), FunctionEndpoints(last));
    }
  }

  /**
   * The entry `handlers[fun.handler]` gets: the function's directory, the
   * module file (a plain `.js` name) and export its handler string names, and
   * the declaration itself.
   */
  function EntryOf(fun: FunctionDecl): (r: HandlerEntry)
    ensures r.definition == fun && r.directory == fun.fullPath
    ensures r.reference == ParseHandler(fun.handler)
    ensures |r.reference.file| >= 3 && r.reference.file[|r.reference.file| - 3..] == ".js"
    ensures '/' !in r.reference.file[..|r.reference.file| - 3]
  {
    HandlerEntry(fun.fullPath, ParseHandler(fun.handler), fun)
  }

  /** The `handlers` table after registering `functions` in order: later declarations win. */
  function Registry(functions: seq<FunctionDecl>): (m: map<string, HandlerEntry>)
    ensures forall k :: k in m <==> exists i :: 0 <= i < |functions| && functions[i].runtime == NodeRuntime && functions[i].handler == k
    decreases |functions|
  {
    if |functions| == 0 then map[]
    else
      var earlier := Registry(functions[..|functions| - 1]);
      var fun := functions[|functions| - 1];
      assert forall i :: 0 <= i < |functions| - 1 ==> functions[..|functions| - 1][i] == functions[i];
      if fun.runtime == NodeRuntime then earlier[fun.handler := EntryOf(fun)] else earlier
  }

  /**
   * The function that registered `k` last: under `handlers[k] = ...` in
   * declaration order, its entry is the one that stays.
   */
  predicate LastRegistrant(functions: seq<FunctionDecl>, k: string, i: int) {
    0 <= i < |functions| && functions[i].runtime == NodeRuntime && functions[i].handler == k &&
    forall j :: i < j < |functions| ==> !(functions[j].runtime == NodeRuntime && functions[j].handler == k)
  }

  /** A later declaration that does not register `k` leaves its last registrant in place. */
  lemma LastRegistrantExtend(functions: seq<FunctionDecl>, k: string, i: int)
    requires |functions| > 0 && LastRegistrant(functions[..|functions| - 1], k, i)
    requires !(functions[|functions| - 1].runtime == NodeRuntime && functions[|functions| - 1].handler == k)
    ensures LastRegistrant(functions, k, i)
  {
    var init := functions[..|functions| - 1];
    assert forall j :: 0 <= j < |init| ==> init[j] == functions[j];
  }

  /** A last declaration that registers `k` sets its entry. */
  lemma RegistryLast(functions: seq<FunctionDecl>, k: string)
    requires |functions| > 0
    requires functions[|functions| - 1].runtime == NodeRuntime && functions[|functions| - 1].handler == k
    ensures k in Registry(functions) && Registry(functions)[k] == EntryOf(functions[|functions| - 1])
  {
  }

  /** A last declaration that does not register `k` leaves `k`'s entry as it was. */
  lemma RegistryOther(functions: seq<FunctionDecl>, init: seq<FunctionDecl>, k: string)
    requires |functions| > 0 && init == functions[..|functions| - 1]
    requires !(functions[|functions| - 1].runtime == NodeRuntime && functions[|functions| - 1].handler == k)
    ensures k in Registry(functions) <==> k in Registry(init)
    ensures k in Registry(init) ==> Registry(functions)[k] == Registry(init)[k]
  {
  }

  /** Each handler key holds the entry of the last `nodejs` declaration that names it. */
  lemma {:induction false} RegistryValue(functions: seq<FunctionDecl>, k: string)
    requires k in Registry(functions)
    ensures exists i :: LastRegistrant(functions, k, i) && Registry(functions)[k] == EntryOf(functions[i])
    decreases |functions|
  {
    assert |functions| > 0;
    var n := |functions| - 1;
    var init, fun := functions[..n], functions[n];
    if fun.runtime == NodeRuntime && fun.handler == k {
      RegistryLast(functions, k);
      assert LastRegistrant(functions, k, n);
    } else {
      RegistryOther(functions, init, k);
      RegistryValue(init, k);
      var i :| LastRegistrant(init, k, i) && Registry(init)[k] == EntryOf(init[i]);
      LastRegistrantExtend(functions, k, i);
      assert init[i] == functions[i];
      assert Registry(functions)[k] == EntryOf(functions[i]);
    }
  }

  /** `fun.endpoints.forEach`: one new route per endpoint, in order, all under `prefix` and on `cell`. */
  method AddRoutes(prefix: string, endpoints: seq<Endpoint>, cell: HandlerCell) returns (added: seq<Route>)
    ensures Endpoints(added) == endpoints
    ensures forall i :: 0 <= i < |added| ==> added[i].prefix == prefix && added[i].cell == cell
  {
    added := [];
    for i := 0 to |endpoints|
      invariant |added| == i
      invariant forall j :: 0 <= j < i ==> added[j].endpoint == endpoints[j]
      invariant forall j :: 0 <= j < i ==> added[j].prefix == prefix && added[j].cell == cell
    {
      var route := new Route(endpoints[i], prefix, cell);
      added := added + [route];
    }
  }

  /** The handler cells of `routes`, in order. */
  function Cells(routes: seq<Route>): (s: seq<HandlerCell>)
    ensures |s| == |routes| && forall i :: 0 <= i < |routes| ==> s[i] == routes[i].cell
  {
    seq(|routes|, i requires 0 <= i < |routes| => routes[i].cell)
  }

  lemma CellsAppend(a: seq<Route>, b: seq<Route>)
    ensures Cells(a + b) == Cells(a) + Cells(b)
  {
  }

  /** `k` copies of `n`. */
  function Repeat(n: nat, k: nat): (s: seq<nat>)
    ensures |s| == k && forall i :: 0 <= i < k ==> s[i] == n
  {
    seq(k, _ => n)
  }

  /**
   * For each route `AllEndpoints(functions)` yields, the position of the
   * declaration it comes from.
   */
  function Owners(functions: seq<FunctionDecl>): (o: seq<nat>)
    ensures |o| == |AllEndpoints(functions)|
    ensures forall i :: 0 <= i < |o| ==> o[i] < |functions|
    decreases |functions|
  {
    if |functions| == 0 then []
    else
      var n := |functions| - 1;
      Owners(functions[..n]) + Repeat(n, |FunctionEndpoints(functions[n])|)
  }

  /** Two routes share a handler cell exactly when they have the same owner. */
  predicate SharedBy(cells: seq<HandlerCell>, owners: seq<nat>) {
    |cells| == |owners| &&
    forall i, j :: 0 <= i < |cells| && 0 <= j < |cells| ==> (cells[i] == cells[j] <==> owners[i] == owners[j])
  }

  /** Appending one new owner's routes, all on one cell no earlier route uses, keeps the sharing exact. */
  lemma SharedStep(cells: seq<HandlerCell>, owners: seq<nat>, added: seq<HandlerCell>, n: nat)
    requires SharedBy(cells, owners)
    requires forall i :: 0 <= i < |owners| ==> owners[i] < n
    requires forall i, j :: 0 <= i < |added| && 0 <= j < |added| ==> added[i] == added[j]
    requires forall i, j :: 0 <= i < |cells| && 0 <= j < |added| ==> cells[i] != added[j]
    ensures SharedBy(cells + added, owners + Repeat(n, |added|))
  {
    var c, o := cells + added, owners + Repeat(n, |added|);
    forall i, j | 0 <= i < |c| && 0 <= j < |c|
      ensures c[i] == c[j] <==> o[i] == o[j]
    {
      if i < |cells| && j >= |cells| {
        assert c[i] == cells[i] && c[j] == added[j - |cells|] && o[i] < n == o[j];
      } else if i >= |cells| && j < |cells| {
        assert c[j] == cells[j] && c[i] == added[i - |cells|] && o[j] < n == o[i];
      }
    }
  }

  /** Registering one more declaration updates the handler table as `Registry` says. */
  lemma RegistryStep(functions: seq<FunctionDecl>, n: nat)
    requires n < |functions|
    ensures functions[n].runtime == NodeRuntime ==>
      Registry(functions[..n + 1]) == Registry(functions[..n])[functions[n].handler := EntryOf(functions[n])]
    ensures functions[n].runtime != NodeRuntime ==> Registry(functions[..n + 1]) == Registry(functions[..n])
  {
    assert functions[..n + 1][..n] == functions[..n];
  }

  /**
   * The routes one more declaration appends, one per endpoint on one cell no
   * earlier route uses, extend the endpoints and the exact cell sharing of
   * the routes registered so far.
   */
  lemma RoutesStep(functions: seq<FunctionDecl>, n: nat, before: seq<Route>, after: seq<Route>, start: nat)
    requires n < |functions|
    requires start <= |before| <= |after| && after[..|before|] == before
    requires Endpoints(before[start..]) == AllEndpoints(functions[..n])
    requires SharedBy(Cells(before[start..]), Owners(functions[..n]))
    requires Endpoints(after[|before|..]) == FunctionEndpoints(functions[n])
    requires forall i, j :: |before| <= i < |after| && |before| <= j < |after| ==> after[i].cell == after[j].cell
    requires forall i, j :: 0 <= j < |before| <= i < |after| ==> after[i].cell != after[j].cell
    ensures Endpoints(after[start..]) == AllEndpoints(functions[..n + 1])
    ensures SharedBy(Cells(after[start..]), Owners(functions[..n + 1]))
  {
    var old_, new_ := before[start..], after[|before|..];
    assert functions[..n + 1][..n] == functions[..n];
    assert functions[..n + 1][n] == functions[n];
    AppendedTail(before, after, start);
    EndpointsAppend(old_, new_);
    CellsAppend(old_, new_);
    SharedStep(Cells(old_), Owners(functions[..n]), Cells(new_), n);
  }

  /** The plugin's state: the prefix option, the handler table and the registered routes. */
  class Gateway {
    var prefix: Option<string>
    var handlers: map<string, HandlerEntry>
    var routes: seq<Route>

    constructor (prefix: Option<string>)
      ensures this.prefix == prefix && handlers == map[] && routes == []
    {
      this.prefix := prefix;
      handlers := map[];
      routes := [];
    }

    /** The prefix option rewritten in place: defaulted to `""`, then given a trailing `/`. */
    method NormalizePrefix()
      modifies this
      ensures prefix == Some(NormalPrefix(old(prefix)))
      ensures handlers == old(handlers) && routes == old(routes)
    {
      if prefix.None? || prefix.value == "" {
        prefix := Some("");
      }
      var p := prefix.value;
      if |p| > 0 && p[|p| - 1] != '/' {
        prefix := Some(p + "/");
      }
    }

    /**
     * The body of `functions.forEach`: a `nodejs` function records its
     * handler entry and gets one route per endpoint, all sharing one new,
     * empty handler cell.
     */
    method RegisterFunction(fun: FunctionDecl)
      requires prefix.Some?
      modifies this
      ensures prefix == old(prefix)
      ensures fun.runtime == NodeRuntime ==> handlers == old(handlers)[fun.handler := EntryOf(fun)]
      ensures fun.runtime != NodeRuntime ==> handlers == old(handlers)
      ensures |routes| >= |old(routes)| && routes[..|old(routes)|] == old(routes)
      ensures Endpoints(routes[|old(routes)|..]) == FunctionEndpoints(fun)
      ensures forall i :: |old(routes)| <= i < |routes| ==> routes[i].prefix == prefix.value
      ensures forall i, j :: |old(routes)| <= i < |routes| && |old(routes)| <= j < |routes| ==>
        routes[i].cell == routes[j].cell
      ensures forall i :: |old(routes)| <= i < |routes| ==>
        fresh(routes[i].cell) && routes[i].cell.handler == Data(Undefined) && routes[i].cell.resolutions == 0
      ensures forall i, j :: 0 <= j < |old(routes)| <= i < |routes| ==> routes[i].cell != routes[j].cell
    {
      if fun.runtime != NodeRuntime {
        assert routes[|routes|..] == [];
        return;
      }
      handlers := handlers[fun.handler := EntryOf(fun)];
      var cell := new HandlerCell();
      var added := AddRoutes(prefix.value, fun.endpoints, cell);
      routes := routes + added;
      assert routes[|old(routes)|..] == added;
    }

    /** `_registerLambdas`: reset the handler table and register every declaration in order. */
    method RegisterLambdas(functions: seq<FunctionDecl>)
      requires prefix.Some?
      modifies this
      ensures prefix == old(prefix)
      ensures handlers == Registry(functions)
      ensures |routes| >= |old(routes)| && routes[..|old(routes)|] == old(routes)
      ensures Endpoints(routes[|old(routes)|..]) == AllEndpoints(functions)
      ensures forall i :: |old(routes)| <= i < |routes| ==>
        routes[i].prefix == prefix.value && fresh(routes[i].cell) &&
        routes[i].cell.handler == Data(Undefined) && routes[i].cell.resolutions == 0
      ensures SharedBy(Cells(routes[|old(routes)|..]), Owners(functions))
    {
      handlers := map[];
      var start := |routes|;
      for n := 0 to |functions|
        invariant prefix == old(prefix)
        invariant handlers == Registry(functions[..n])
        invariant |routes| >= start && routes[..start] == old(routes)
        invariant Endpoints(routes[start..]) == AllEndpoints(functions[..n])
        invariant forall i :: start <= i < |routes| ==>
          routes[i].prefix == prefix.value && fresh(routes[i].cell) &&
          routes[i].cell.handler == Data(Undefined) && routes[i].cell.resolutions == 0
        invariant SharedBy(Cells(routes[start..]), Owners(functions[..n]))
      {
        var before := routes;
        RegisterFunction(functions[n]);
        RegistryStep(functions, n);
        RoutesStep(functions, n, before, routes, start);
        forall i | start <= i < |routes|
          ensures routes[i].prefix == prefix.value && fresh(routes[i].cell)
          ensures routes[i].cell.handler == Data(Undefined) && routes[i].cell.resolutions == 0
        {
          if i < |before| {
            assert routes[i] == before[i];
          }
        }
      }
      assert functions[..|functions|] == functions;
    }
  }
}
