/**
 * Construction of the event a function is invoked with: either through the
 * endpoint's `application/json` mapping template, field by field, or, when
 * there is none, by merging the body, the path parameters and the query.
 */
module EventBuilder {
  import opened Wrappers
  import opened JsValues
  import opened Strings
  import opened MappingLanguage

  /** The event object handed to the function. */
  type Event = map<string, Value>

  /**
   * An endpoint's request template for one content type: JSON text still to
   * be parsed, or an already parsed object of field names and mapping
   * expressions, in the object's key order.
   */
  datatype Template = Text(source: string) | Fields(pairs: seq<(string, string)>)

  /** `JSON.parse` of a template's text: its fields in order, or `None` when it throws. */
  type TemplateParser = string -> Option<seq<(string, string)>>

  const JsonContentType := "application/json"

  const TemplateSyntaxError := Str("SyntaxError: template is not valid JSON")

  /** A template string is truthy when non-empty; a template object always is. */
  predicate TemplateTruthy(t: Template) {
    t.Fields? || t.source != ""
  }

  /**
   * `endpoint.requestTemplates && endpoint.requestTemplates['application/json']`:
   * the template that switches on explicit mapping, if any.
   */
  function JsonTemplate(templates: Option<map<string, Template>>): (t: Option<Template>)
    ensures t.Some? <==>
      templates.Some? && JsonContentType in templates.value && TemplateTruthy(templates.value[JsonContentType])
    ensures t.Some? ==> t.value == templates.value[JsonContentType]
  {
    if templates.Some? && JsonContentType in templates.value && TemplateTruthy(templates.value[JsonContentType])
    then Some(templates.value[JsonContentType])
    else None
  }

  // ---------------------------------------------------------------- fallback

  /**
   * The fallback event: the own fields of the body, then of the path
   * parameters, then of the query, later sources overwriting earlier ones.
   */
  function FallbackEvent(req: Request): (event: Event)
    ensures event.Keys == OwnFields(req.body).Keys + req.params.Keys + req.query.Keys
    ensures forall k :: k in req.query ==> event[k] == req.query[k]
    ensures forall k :: k in req.params && k !in req.query ==> event[k] == req.params[k]
    ensures forall k :: k in OwnFields(req.body) && k !in req.params && k !in req.query ==>
      event[k] == OwnFields(req.body)[k]
  {
    OwnFields(req.body) + req.params + req.query
  }

  /** The method every copying loop calls on its source object. */
  const HasOwnProperty := "hasOwnProperty"

  /**
   * What `source.hasOwnProperty(prop)` throws when the source has an own
   * field of that name: the field's value, not the inherited method, is called.
   */
  const ShadowedMethodError := Str("TypeError: hasOwnProperty is not a function")

  /**
   * One `for (prop in source) if (source.hasOwnProperty(prop)) event[prop] = source[prop]`
   * loop. Keys of an object are distinct, so the visiting order does not
   * affect the result; a source with an own `hasOwnProperty` field throws
   * on the first visit.
   */
  method CopyFields(event: Event, source: map<string, Value>) returns (r: Result<Event, Value>)
    ensures r.Failure? <==> HasOwnProperty in source
    ensures r.Failure? ==> r.error == ShadowedMethodError
    ensures r.Success? ==> r.value.Keys == event.Keys + source.Keys
    ensures r.Success? ==> forall k :: k in source ==> r.value[k] == source[k]
    ensures r.Success? ==> forall k :: k in event && k !in source ==> r.value[k] == event[k]
  {
    var acc := event;
    var todo := source.Keys;
    while todo != {}
      invariant todo <= source.Keys
      invariant HasOwnProperty in source ==> todo == source.Keys
      invariant acc.Keys == event.Keys + (source.Keys - todo)
      invariant forall k :: k in source && k !in todo ==> acc[k] == source[k]
      invariant forall k :: k in event && k !in source ==> acc[k] == event[k]
      invariant forall k :: k in event && k in todo ==> acc[k] == event[k]
      decreases todo
    {
      var prop :| prop in todo;
      if HasOwnProperty in source {
        return Failure(ShadowedMethodError);
      }
      acc := acc[prop := source[prop]];
      todo := todo - {prop};
    }
    r := Success(acc);
  }

  /** Some source of the fallback event hides `hasOwnProperty` behind an own field. */
  predicate Shadowed(req: Request) {
    HasOwnProperty in OwnFields(req.body) || HasOwnProperty in req.params || HasOwnProperty in req.query
  }

  /** Only an object body can hide `hasOwnProperty`: array and string indices are digits. */
  lemma ShadowedBody(req: Request)
    ensures HasOwnProperty in OwnFields(req.body) <==> req.body.Obj? && HasOwnProperty in req.body.fields
  {
    forall n: nat
      ensures IndexKey(n) != HasOwnProperty
    {
      IndexKeyNotMethodName(n);
    }
  }

  lemma IndexKeyNotMethodName(n: nat)
    ensures IndexKey(n) != HasOwnProperty
  {
    assert '0' <= IndexKey(n)[0] <= '9';
    assert HasOwnProperty[0] == 'h';
  }

  /**
   * The result of the fallback branch: the merged event, or the error the
   * first copying loop over a source that hides `hasOwnProperty` throws.
   */
  function Fallback(req: Request): (r: Result<Event, Value>)
    ensures r.Failure? <==> Shadowed(req)
    ensures r.Failure? ==> r.error == ShadowedMethodError
    ensures r.Success? ==> r.value == FallbackEvent(req)
  {
    if Shadowed(req) then Failure(ShadowedMethodError) else Success(FallbackEvent(req))
  }

  /** The three copying loops of the fallback branch. */
  method MergeFallback(req: Request) returns (r: Result<Event, Value>)
    ensures r == Fallback(req)
  {
    var body := OwnFields(req.body);
    FallbackFromBody(req, body);
    r := CopySources(body, req.params, req.query);
  }

  /** The fallback result in terms of the body's own fields. */
  lemma FallbackFromBody(req: Request, body: map<string, Value>)
    requires body == OwnFields(req.body)
    ensures Fallback(req) == MergedSources(body, req.params, req.query)
  {
  }

  /** Body, path parameters and query merged in this order, unless one hides `hasOwnProperty`. */
  function MergedSources(body: map<string, Value>, params: map<string, Value>, query: map<string, Value>): Result<Event, Value> {
    if HasOwnProperty in body || HasOwnProperty in params || HasOwnProperty in query
    then Failure(ShadowedMethodError)
    else Success(body + params + query)
  }

  /** The three copying loops, over the body's own fields, the path parameters and the query. */
  method CopySources(body: map<string, Value>, params: map<string, Value>, query: map<string, Value>)
    returns (r: Result<Event, Value>)
    ensures r == MergedSources(body, params, query)
  {
    var fromBody := CopyFields(map[], body);
    if fromBody.Failure? {
      return fromBody;
    }
    CopiedOverrides(map[], body, fromBody.value);
    var fromParams := CopyFields(fromBody.value, params);
    if fromParams.Failure? {
      return fromParams;
    }
    CopiedOverrides(fromBody.value, params, fromParams.value);
    r := CopyFields(fromParams.value, query);
    if r.Success? {
      CopiedOverrides(fromParams.value, query, r.value);
      assert fromBody.value == body;
    }
  }

  /** A copy with the keys and values `CopyFields` promises is `event` overridden by `source`. */
  lemma CopiedOverrides(event: Event, source: map<string, Value>, r: Event)
    requires r.Keys == event.Keys + source.Keys
    requires forall k :: k in source ==> r[k] == source[k]
    requires forall k :: k in event && k !in source ==> r[k] == event[k]
    ensures r == event + source
  {
  }

  // ---------------------------------------------------------------- explicit

  /**
   * What one template field contributes: the value of its expression when
   * evaluation succeeds with a truthy value; nothing when it is falsy or throws.
   */
  function Stored(req: Request, query: JsonPathQuery, expr: string): (v: Option<Value>)
    ensures v.Some? ==> Truthy(v.value)
    ensures v.Some? <==> ProcessMapping(req, query, expr).Success? && Truthy(ProcessMapping(req, query, expr).value)
  {
    match ProcessMapping(req, query, expr)
    case Success(v) => if Truthy(v) then Some(v) else None
    case Failure(_) => None
  }

  /** The event after the mapping loop has visited `pairs` in order. */
  function ExplicitEvent(req: Request, query: JsonPathQuery, pairs: seq<(string, string)>): (event: Event)
    ensures forall k :: k in event ==> Truthy(event[k])
    decreases |pairs|
  {
    if |pairs| == 0 then map[]
    else ApplyField(req, query, ExplicitEvent(req, query, pairs[..|pairs| - 1]), pairs[|pairs| - 1])
  }

  /** One iteration of the mapping loop: field `pair` stores its value, if any, under its name. */
  function ApplyField(req: Request, query: JsonPathQuery, event: Event, pair: (string, string)): (r: Event)
    ensures Stored(req, query, pair.1).None? ==> r == event
    ensures Stored(req, query, pair.1).Some? ==> pair.0 in r && r[pair.0] == Stored(req, query, pair.1).value
    ensures forall k :: k != pair.0 ==> (k in r <==> k in event) && (k in r ==> r[k] == event[k])
  {
    match Stored(req, query, pair.1)
    case Some(v) => event[pair.0 := v]
    case None => event
  }

  lemma ExplicitEventSnoc(req: Request, query: JsonPathQuery, init: seq<(string, string)>, pair: (string, string))
    ensures ExplicitEvent(req, query, init + [pair]) == ApplyField(req, query, ExplicitEvent(req, query, init), pair)
  {
    assert (init + [pair])[..|init|] == init;
  }

  /** The `for (mappingKey in map)` loop with its `try`/`catch`. */
  method BuildExplicit(req: Request, query: JsonPathQuery, pairs: seq<(string, string)>) returns (event: Event)
    ensures event == ExplicitEvent(req, query, pairs)
  {
    event := map[];
    for i := 0 to |pairs|
      invariant event == ExplicitEvent(req, query, pairs[..i])
    {
      var (mappingKey, mappingValue) := pairs[i];
      var mappingResult := ProcessMapping(req, query, mappingValue);
      if mappingResult.Success? && Truthy(mappingResult.value) {
        event := event[mappingKey := mappingResult.value];
      }
      assert pairs[..i + 1][..i] == pairs[..i];
    }
    assert pairs[..|pairs|] == pairs;
  }

  /** Field `pair` of a template writes key `k`. */
  predicate Writes(req: Request, query: JsonPathQuery, pair: (string, string), k: string) {
    pair.0 == k && Stored(req, query, pair.1).Some?
  }

  /** How the last field of a template affects key `k` of the explicit event. */
  lemma ExplicitEventLast(req: Request, query: JsonPathQuery, pairs: seq<(string, string)>, k: string)
    requires |pairs| > 0
    ensures var event, earlier := ExplicitEvent(req, query, pairs), ExplicitEvent(req, query, pairs[..|pairs| - 1]);
      var last := pairs[|pairs| - 1];
      && (Writes(req, query, last, k) ==> k in event && Some(event[k]) == Stored(req, query, last.1))
      && (!Writes(req, query, last, k) ==> (k in event <==> k in earlier) && (k in event ==> event[k] == earlier[k]))
  {
  }

  /** A key is in the explicit event exactly when some field of that name stores a value. */
  lemma {:induction false} ExplicitEventHas(req: Request, query: JsonPathQuery, pairs: seq<(string, string)>, k: string)
    ensures k in ExplicitEvent(req, query, pairs) <==> exists i :: 0 <= i < |pairs| && Writes(req, query, pairs[i], k)
    decreases |pairs|
  {
    if |pairs| > 0 {
      var init := pairs[..|pairs| - 1];
      ExplicitEventHas(req, query, init, k);
      ExplicitEventLast(req, query, pairs, k);
      assert forall i :: 0 <= i < |init| ==> init[i] == pairs[i];
    }
  }

  /** Field `i` is the last field of `pairs` that writes key `k`. */
  predicate LastWriter(req: Request, query: JsonPathQuery, pairs: seq<(string, string)>, k: string, i: int) {
    && 0 <= i < |pairs|
    && Writes(req, query, pairs[i], k)
    && forall j :: i < j < |pairs| ==> !Writes(req, query, pairs[j], k)
  }

  lemma LastWriterExtend(req: Request, query: JsonPathQuery, pairs: seq<(string, string)>, k: string, i: int)
    requires |pairs| > 0 && !Writes(req, query, pairs[|pairs| - 1], k)
    requires LastWriter(req, query, pairs[..|pairs| - 1], k, i)
    ensures LastWriter(req, query, pairs, k, i) && pairs[i] == pairs[..|pairs| - 1][i]
  {
    var init := pairs[..|pairs| - 1];
    forall j | i < j < |pairs| ensures !Writes(req, query, pairs[j], k) {
      if j < |init| { assert pairs[j] == init[j]; }
    }
  }

  /** The value of a key in the explicit event is the one stored by the last field writing it. */
  lemma {:induction false} ExplicitEventValue(req: Request, query: JsonPathQuery, pairs: seq<(string, string)>, k: string)
    requires k in ExplicitEvent(req, query, pairs)
    ensures exists i :: LastWriter(req, query, pairs, k, i) && Stored(req, query, pairs[i].1) == Some(ExplicitEvent(req, query, pairs)[k])
    decreases |pairs|
  {
    var last := |pairs| - 1;
    ExplicitEventLast(req, query, pairs, k);
    if Writes(req, query, pairs[last], k) {
      assert LastWriter(req, query, pairs, k, last);
    } else {
      var init := pairs[..last];
      ExplicitEventValue(req, query, init, k);
      var i :| LastWriter(req, query, init, k, i) && Stored(req, query, init[i].1) == Some(ExplicitEvent(req, query, init)[k]);
      LastWriterExtend(req, query, pairs, k, i);
    }
  }

  /** Only template field names can appear in the explicit event. */
  lemma ExplicitEventOnlyTemplateKeys(req: Request, query: JsonPathQuery, pairs: seq<(string, string)>)
    ensures forall k :: k in ExplicitEvent(req, query, pairs) ==> exists i :: 0 <= i < |pairs| && pairs[i].0 == k
  {
    forall k | k in ExplicitEvent(req, query, pairs) ensures exists i :: 0 <= i < |pairs| && pairs[i].0 == k {
      ExplicitEventHas(req, query, pairs, k);
    }
  }

  /**
   * A field that stores nothing (its expression throws, yields a falsy value
   * or does not mention `$input.`) can be dropped: the fields after it are
   * processed as if it were not there.
   */
  lemma {:induction false} ExplicitEventSkips(req: Request, query: JsonPathQuery,
                                              before: seq<(string, string)>, skipped: (string, string),
                                              after: seq<(string, string)>)
    requires Stored(req, query, skipped.1).None?
    ensures ExplicitEvent(req, query, before + [skipped] + after) == ExplicitEvent(req, query, before + after)
    decreases |after|
  {
    if |after| == 0 {
      assert before + [skipped] + after == before + [skipped];
      assert before + after == before;
      ExplicitEventSnoc(req, query, before, skipped);
    } else {
      var init, last := after[..|after| - 1], after[|after| - 1];
      ExplicitEventSkips(req, query, before, skipped, init);
      assert before + [skipped] + after == (before + [skipped] + init) + [last];
      assert before + after == (before + init) + [last];
      ExplicitEventSnoc(req, query, before + [skipped] + init, last);
      ExplicitEventSnoc(req, query, before + init, last);
    }
  }

  /** A field whose expression does not mention `$input.` stores nothing. */
  lemma NonInputStoresNothing(req: Request, query: JsonPathQuery, expr: string)
    requires !Contains(expr, InputMarker)
    ensures Stored(req, query, expr).None?
  {
  }

  /** A `$input.path(...)` field never stores anything: the call always throws. */
  lemma PathStoresNothing(req: Request, query: JsonPathQuery, arg: string)
    ensures Stored(req, query, Render(Path(arg))).None?
  {
    ClassifyPath(arg);
  }

  // ---------------------------------------------------------------- both modes

  /**
   * The event the route handler builds for a request, or the error thrown
   * while building it: a template text that is not valid JSON, or a
   * fallback source that hides `hasOwnProperty`.
   */
  function BuildEvent(templates: Option<map<string, Template>>, req: Request,
                      query: JsonPathQuery, parse: TemplateParser): (r: Result<Event, Value>)
    ensures JsonTemplate(templates).None? ==> r == Fallback(req)
    ensures JsonTemplate(templates).Some? && JsonTemplate(templates).value.Fields? ==>
      r == Success(ExplicitEvent(req, query, JsonTemplate(templates).value.pairs))
    ensures JsonTemplate(templates).Some? && JsonTemplate(templates).value.Text? ==>
      && (parse(QuoteJsonCalls(JsonTemplate(templates).value.source)).None? ==> r == Failure(TemplateSyntaxError))
      && (parse(QuoteJsonCalls(JsonTemplate(templates).value.source)).Some? ==>
            r == Success(ExplicitEvent(req, query, parse(QuoteJsonCalls(JsonTemplate(templates).value.source)).value)))
    ensures r.Failure? <==>
      || (JsonTemplate(templates).None? && Shadowed(req))
      || (&& JsonTemplate(templates).Some?
          && JsonTemplate(templates).value.Text?
          && parse(QuoteJsonCalls(JsonTemplate(templates).value.source)).None?)
    ensures r.Success? && JsonTemplate(templates).Some? ==> forall k :: k in r.value ==> Truthy(r.value[k])
  {
    match JsonTemplate(templates)
    case None => Fallback(req)
    case Some(Fields(pairs)) => Success(ExplicitEvent(req, query, pairs))
    case Some(Text(source)) =>
      match parse(QuoteJsonCalls(source))
      case None => Failure(TemplateSyntaxError)
      case Some(pairs) => Success(ExplicitEvent(req, query, pairs))
  }

  /**
   * A field `$input.params('name')` stores the parameter's value (path
   * parameter, else query parameter, else header) when it is truthy.
   */
  lemma ParamsFieldStores(req: Request, query: JsonPathQuery, name: string)
    requires '\'' !in name
    ensures Truthy(InputParams(req, Some(name))) ==>
      Stored(req, query, Render(Params(Some(name)))) == Some(InputParams(req, Some(name)))
    ensures !Truthy(InputParams(req, Some(name))) ==> Stored(req, query, Render(Params(Some(name)))).None?
  {
    ProcessMappingRender(req, query, Params(Some(name)));
  }

  /** A field `$input.json('path')` stores the first JSONPath match in the body when it is truthy. */
  lemma JsonFieldStores(req: Request, query: JsonPathQuery, path: string)
    requires '\'' !in path
    ensures Truthy(InputJson(req, query, path)) ==>
      Stored(req, query, Render(Json(path))) == Some(InputJson(req, query, path))
    ensures !Truthy(InputJson(req, query, path)) ==> Stored(req, query, Render(Json(path))).None?
  {
    ProcessMappingRender(req, query, Json(path));
  }

  /**
   * A template `{"userId": "$input.params('id')"}` on a request whose path
   * parameter `id` is 42 gives the event `{"userId": 42}`.
   */
  lemma UserIdExample(query: JsonPathQuery, parse: TemplateParser)
    ensures BuildEvent(Some(map[JsonContentType := Fields([("userId", "$input.params('id')")])]),
                       Request(Undefined, map["id" := Num(42)], map[], map[]), query, parse)
      == Success(map["userId" := Num(42)])
  {
    var req := Request(Undefined, map["id" := Num(42)], map[], map[]);
    var pairs := [("userId", "$input.params('id')")];
    assert Render(Params(Some("id"))) == "$input.params('id')";
    ParamsFieldStores(req, query, "id");
    assert pairs[..0] == [];
  }
}
