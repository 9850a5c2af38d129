/**
 * The request-mapping mini-language of an endpoint's `application/json`
 * template: the `Input` object bound to `$input` (`params`, `json`,
 * `path`), the expressions a template field may hold, and the quoting of
 * `$input.json(...)` calls in a template written as text.
 */
module MappingLanguage {
  import opened Wrappers
  import opened JsValues
  import opened Strings

  /** What the route handler reads from an incoming request. */
  datatype Request = Request(
    body: Value,
    params: map<string, Value>,
    query: map<string, Value>,
    headers: map<string, Value>)

  /** A JSONPath query over a body: all matches, in document order. */
  type JsonPathQuery = (string, Value) -> seq<Value>

  /** The forms a mapping expression can take. */
  datatype Expr =
    | Params(name: Option<string>)   // $input.params() or $input.params('name')
    | Json(path: string)             // $input.json('path')
    | Path(arg: string)              // $input.path(...)
    | NotInput                       // no `$input.` anywhere in the text
    | Unsupported(text: string)      // mentions `$input.` in some other way

  const InputMarker := "$input."
  const ParamsCall := "$input.params("
  const JsonCall := "$input.json("
  const PathCall := "$input.path("

  const PathUnimplemented := Str("path input mapping method has not been implemented")
  const UnsupportedExpression := Str("unsupported mapping expression")

  /** The snapshot `params()` returns: path parameters under both `headers` and `path`. */
  function ParamsSnapshot(req: Request): (r: Value)
    ensures r.Obj? && r.fields.Keys == {"headers", "querystring", "path"}
    ensures r.fields["headers"] == r.fields["path"] == Obj(req.params)
    ensures r.fields["querystring"] == Obj(req.query)
  {
    Obj(map["headers" := Obj(req.params), "querystring" := Obj(req.query), "path" := Obj(req.params)])
  }

  /**
   * `Input.params(param)`: with a truthy name, the first truthy value among
   * the path parameter, the query parameter and the header of that name
   * (the header's value when none is truthy); otherwise the snapshot.
   */
  function InputParams(req: Request, name: Option<string>): (r: Value)
    ensures name.None? || name.value == "" ==> r == ParamsSnapshot(req)
    ensures name.Some? && name.value != "" ==>
      var p, q, h := Lookup(req.params, name.value), Lookup(req.query, name.value), Lookup(req.headers, name.value);
      && (Truthy(r) <==> Truthy(p) || Truthy(q) || Truthy(h))
      && (Truthy(p) ==> r == p)
      && (!Truthy(p) && Truthy(q) ==> r == q)
      && (!Truthy(p) && !Truthy(q) ==> r == h)
  {
    if name.Some? && name.value != "" then
      var n := name.value;
      var vs := [Lookup(req.params, n), Lookup(req.query, n), Lookup(req.headers, n)];
      var r := FirstTruthy(vs);
      assert (exists i :: 0 <= i < 3 && Truthy(vs[i])) <==> Truthy(vs[0]) || Truthy(vs[1]) || Truthy(vs[2]);
      r
    else ParamsSnapshot(req)
  }

  /** `Input.json(path)`: the first JSONPath match in the body, `undefined` when nothing matches. */
  function InputJson(req: Request, query: JsonPathQuery, path: string): (r: Value)
    ensures |query(path, req.body)| == 0 ==> r == Undefined
    ensures |query(path, req.body)| > 0 ==> r == query(path, req.body)[0]
  {
    var matches := query(path, req.body);
    if |matches| > 0 then matches[0] else Undefined
  }

  /** Evaluation of an expression against the request; `Failure` is a thrown error. */
  function Evaluate(req: Request, query: JsonPathQuery, e: Expr): (r: Result<Value, Value>)
    ensures r.Failure? <==> e.Path? || e.Unsupported?
    ensures e.Path? ==> r == Failure(PathUnimplemented)
    ensures e.NotInput? ==> r == Success(Null)
    ensures e.Params? ==> r == Success(InputParams(req, e.name))
    ensures e.Json? ==> r == Success(InputJson(req, query, e.path))
  {
    match e
    case Params(name) => Success(InputParams(req, name))
    case Json(path) => Success(InputJson(req, query, path))
    case Path(_) => Failure(PathUnimplemented)
    case NotInput => Success(Null)
    case Unsupported(_) => Failure(UnsupportedExpression)
  }

  /**
   * The argument of `head` + quoted string + `)`: the text between a pair of
   * matching single or double quotes that holds no such quote itself.
   */
  function QuotedArgument(text: string, head: string): (arg: Option<string>)
    ensures arg.Some? ==> StartsWith(text, head) && |text| == |head| + |arg.value| + 3
  {
    if |text| >= |head| + 3 && StartsWith(text, head) && text[|text| - 1] == ')' then
      var q := text[|head|];
      var inner := text[|head| + 1..|text| - 2];
      if (q == '\'' || q == '"') && text[|text| - 2] == q && q !in inner then Some(inner) else None
    else None
  }

  /** Recognise the form of a mapping expression's text. */
  function Classify(text: string): (e: Expr)
    ensures e.NotInput? <==> !Contains(text, InputMarker)
    ensures e.Unsupported? ==> e.text == text
  {
    if !Contains(text, InputMarker) then NotInput
    else if text == ParamsCall + ")" then Params(None)
    else match QuotedArgument(text, ParamsCall)
      case Some(name) => Params(Some(name))
      case None =>
        match QuotedArgument(text, JsonCall)
        case Some(path) => Json(path)
        case None =>
          if |text| > |PathCall| && StartsWith(text, PathCall) && text[|text| - 1] == ')'
          then Path(text[|PathCall|..|text| - 1])
          else Unsupported(text)
  }

  /** The canonical text of an expression; every form but `Unsupported` has one. */
  function Render(e: Expr): string
    requires !e.Unsupported?
  {
    match e
    case Params(None) => ParamsCall + ")"
    case Params(Some(name)) => ParamsCall + "'" + name + "')"
    case Json(path) => JsonCall + "'" + path + "')"
    case Path(arg) => PathCall + arg + ")"
    case NotInput => "null"
  }

  /** An expression whose quoted argument, if any, holds no single quote. */
  predicate Renderable(e: Expr) {
    match e
    case Params(Some(name)) => '\'' !in name
    case Json(path) => '\'' !in path
    case Unsupported(_) => false
    case _ => true
  }

  lemma StartsWithContains(s: string, p: string)
    requires StartsWith(s, p)
    ensures Contains(s, p)
  {
  }

  lemma ClassifyParamsNone()
    ensures Classify(Render(Params(None))) == Params(None)
  {
    StartsWithContains(Render(Params(None)), InputMarker);
  }

  lemma ClassifyParamsSome(name: string)
    requires '\'' !in name
    ensures Classify(Render(Params(Some(name)))) == Params(Some(name))
  {
    var text := Render(Params(Some(name)));
    StartsWithContains(text, InputMarker);
    assert text[|ParamsCall| + 1..|text| - 2] == name;
  }

  lemma ClassifyJson(path: string)
    requires '\'' !in path
    ensures Classify(Render(Json(path))) == Json(path)
  {
    var text := Render(Json(path));
    StartsWithContains(text, InputMarker);
    assert text[7] == 'j';
    assert !StartsWith(text, ParamsCall);
    assert text[|JsonCall| + 1..|text| - 2] == path;
  }

  lemma ClassifyPath(arg: string)
    ensures Classify(Render(Path(arg))) == Path(arg)
  {
    var text := Render(Path(arg));
    StartsWithContains(text, InputMarker);
    assert text[7] == 'p' && text[9] == 't';
    assert !StartsWith(text, ParamsCall);
    assert !StartsWith(text, JsonCall);
    assert text[|PathCall|..|text| - 1] == arg;
  }

  /** Classifying the canonical text of an expression gives the expression back. */
  lemma ClassifyRender(e: Expr)
    requires Renderable(e)
    ensures Classify(Render(e)) == e
  {
    match e
    case Params(None) => ClassifyParamsNone();
    case Params(Some(name)) => ClassifyParamsSome(name);
    case Json(path) => ClassifyJson(path);
    case Path(arg) => ClassifyPath(arg);
    case NotInput =>
      var text := Render(e);
      assert !Contains(text[1..], InputMarker) by {
        assert !Contains(text[2..], InputMarker) by {
          assert !Contains(text[3..], InputMarker);
        }
      }
  }

  /**
   * `_processMapping(req, mapping)`: an expression mentioning `$input.` is
   * evaluated, any other yields `null`.
   */
  function ProcessMapping(req: Request, query: JsonPathQuery, text: string): (r: Result<Value, Value>)
    ensures !Contains(text, InputMarker) ==> r == Success(Null)
  {
    Evaluate(req, query, Classify(text))
  }

  /** A template field holding the canonical text of an expression evaluates that expression. */
  lemma ProcessMappingRender(req: Request, query: JsonPathQuery, e: Expr)
    requires Renderable(e)
    ensures ProcessMapping(req, query, Render(e)) == Evaluate(req, query, e)
  {
    ClassifyRender(e);
  }

  /** Whether `c` ends a line, so that the regular-expression `.` does not match it. */
  predicate IsLineTerminator(c: char) {
    c == '\n' || c == '\r' || c == '\U{2028}' || c == '\U{2029}'
  }

  /**
   * Index of the first `)` at or after `from`, provided no line terminator
   * comes before it: where the lazy `.+?\)` of the quoting pattern stops.
   */
  function CloseParen(s: string, from: nat): (j: Option<nat>)
    requires from <= |s|
    ensures j.Some? ==> from <= j.value < |s| && s[j.value] == ')'
    ensures j.Some? ==> forall k :: from <= k < j.value ==> s[k] != ')' && !IsLineTerminator(s[k])
    decreases |s| - from
  {
    if from == |s| then None
    else if s[from] == ')' then Some(from)
    else if IsLineTerminator(s[from]) then None
    else CloseParen(s, from + 1)
  }

  /**
   * Length of the match of `/\$input.json\(.+?\)/` at the start of `s`, if
   * it matches there: `$input`, any character but a line terminator,
   * `json(`, at least one more character, up to the first `)`.
   */
  function JsonCallMatch(s: string): (n: Option<nat>)
    ensures n.Some? ==>
      && |s| >= 14 && s[..6] == "$input" && !IsLineTerminator(s[6]) && s[7..12] == "json("
      && !IsLineTerminator(s[12])
    ensures n.Some? ==> 14 <= n.value <= |s| && s[n.value - 1] == ')'
    ensures n.Some? ==> forall k :: 13 <= k < n.value - 1 ==> s[k] != ')' && !IsLineTerminator(s[k])
  {
    if |s| >= 14 && s[..6] == "$input" && !IsLineTerminator(s[6]) && s[7..12] == "json("
      && !IsLineTerminator(s[12])
    then
      match CloseParen(s, 13)
      case Some(j) => Some(j + 1)
      case None => None
    else None
  }

  /**
   * `map.replace(/\$input.json\(.+?\)/g, '"$&"')`: every match wrapped in
   * double quotes, left to right. Quoting only inserts double quotes.
   */
  function QuoteJsonCalls(s: string): (r: string)
    ensures |r| >= |s|
    ensures DropQuotes(r) == DropQuotes(s)
    decreases |s|
  {
    if |s| == 0 then ""
    else match JsonCallMatch(s)
      case Some(n) =>
        var rest := QuoteJsonCalls(s[n..]);
        QuotedMatchDrops(s, n, rest);
        "\"" + s[..n] + "\"" + rest
      case None =>
        var rest := QuoteJsonCalls(s[1..]);
        CopiedCharDrops(s, rest);
        [s[0]] + rest
  }

  /** How many matches of the quoting pattern `QuoteJsonCalls` wraps, left to right. */
  function MatchCount(s: string): nat
    decreases |s|
  {
    if |s| == 0 then 0
    else match JsonCallMatch(s)
      case Some(n) => 1 + MatchCount(s[n..])
      case None => MatchCount(s[1..])
  }

  /** Quoting lengthens the template by exactly a pair of quotes per match. */
  lemma {:induction false} QuoteJsonCallsLength(s: string)
    ensures |QuoteJsonCalls(s)| == |s| + 2 * MatchCount(s)
    decreases |s|
  {
    if |s| > 0 {
      match JsonCallMatch(s)
      case Some(n) =>
        QuoteJsonCallsLength(s[n..]);
        assert |s| == n + |s[n..]|;
      case None =>
        QuoteJsonCallsLength(s[1..]);
    }
  }

  /** `s` with every double quote removed. */
  function DropQuotes(s: string): (r: string)
    ensures '"' !in r
    decreases |s|
  {
    if |s| == 0 then ""
    else (if s[0] == '"' then "" else [s[0]]) + DropQuotes(s[1..])
  }

  lemma {:induction false} DropQuotesAppend(a: string, b: string)
    ensures DropQuotes(a + b) == DropQuotes(a) + DropQuotes(b)
    decreases |a|
  {
    if |a| > 0 {
      assert (a + b)[0] == a[0] && (a + b)[1..] == a[1..] + b;
      DropQuotesAppend(a[1..], b);
      var h := if a[0] == '"' then "" else [a[0]];
      calc {
        DropQuotes(a + b);
        h + DropQuotes(a[1..] + b);
        h + (DropQuotes(a[1..]) + DropQuotes(b));
        (h + DropQuotes(a[1..])) + DropQuotes(b);
        DropQuotes(a) + DropQuotes(b);
      }
    } else {
      assert a + b == b;
    }
  }

  lemma DropQuotesWrapped(m: string, rest: string)
    ensures DropQuotes("\"" + m + "\"" + rest) == DropQuotes(m) + DropQuotes(rest)
  {
    var q := "\"";
    assert DropQuotes(q) == [] by {
      assert q[1..] == [];
    }
    var a, b := q + m, q + m + q;
    DropQuotesAppend(b, rest);
    DropQuotesAppend(a, q);
    DropQuotesAppend(q, m);
    assert DropQuotes(a) == DropQuotes(m);
    assert DropQuotes(b) == DropQuotes(m);
  }

  lemma QuotedMatchDrops(s: string, n: nat, rest: string)
    requires n <= |s| && DropQuotes(rest) == DropQuotes(s[n..])
    ensures DropQuotes("\"" + s[..n] + "\"" + rest) == DropQuotes(s)
  {
    var head, tail := s[..n], s[n..];
    assert s == head + tail;
    DropQuotesWrapped(head, rest);
    DropQuotesAppend(head, tail);
  }

  lemma CopiedCharDrops(s: string, rest: string)
    requires |s| > 0 && DropQuotes(rest) == DropQuotes(s[1..])
    ensures DropQuotes([s[0]] + rest) == DropQuotes(s)
  {
    DropQuotesAppend([s[0]], rest);
    DropQuotesAppend([s[0]], s[1..]);
    assert [s[0]] + s[1..] == s;
  }

  /** A template without `$` is left as it is. */
  lemma {:induction false} QuoteJsonCallsNoDollar(s: string)
    requires '$' !in s
    ensures QuoteJsonCalls(s) == s
    decreases |s|
  {
    if |s| > 0 {
      assert JsonCallMatch(s) == None by {
        if |s| >= 14 { assert s[..6][0] == s[0] != '$'; }
      }
      assert '$' !in s[1..];
      QuoteJsonCallsNoDollar(s[1..]);
      assert [s[0]] + s[1..] == s;
    }
  }

  lemma {:induction false} CloseParenFinds(s: string, from: nat, j: nat)
    requires from <= j < |s| && s[j] == ')'
    requires forall k :: from <= k < j ==> s[k] != ')' && !IsLineTerminator(s[k])
    ensures CloseParen(s, from) == Some(j)
    decreases j - from
  {
    if from < j {
      CloseParenFinds(s, from + 1, j);
    }
  }

  /** The quoting pattern matches a template that starts with a one-line `$input.json(arg)` call up to its `)`. */
  lemma JsonCallMatchAt(s: string, arg: string)
    requires |arg| >= 1 && ')' !in arg
    requires forall i :: 0 <= i < |arg| ==> !IsLineTerminator(arg[i])
    requires |s| >= |arg| + 13 && s[..|arg| + 13] == JsonCall + arg + ")"
    ensures JsonCallMatch(s) == Some(|arg| + 13)
  {
    var call := JsonCall + arg + ")";
    assert forall k :: 0 <= k < |call| ==> s[k] == call[k];
    assert s[..6] == "$input" && s[7..12] == "json(" && s[12] == arg[0];
    forall k | 13 <= k < |arg| + 12 ensures s[k] != ')' && !IsLineTerminator(s[k]) {
      assert s[k] == arg[k - 12];
    }
    CloseParenFinds(s, 13, |arg| + 12);
  }

  /** Text without `$` in front of the template is copied as it is; quoting goes on after it. */
  lemma {:induction false} QuoteAfterPlainText(text: string, rest: string)
    requires '$' !in text
    ensures QuoteJsonCalls(text + rest) == text + QuoteJsonCalls(rest)
    decreases |text|
  {
    var s := text + rest;
    if |text| > 0 {
      assert JsonCallMatch(s) == None by {
        if |s| >= 14 { assert s[..6][0] == text[0] != '$'; }
      }
      assert s[1..] == text[1..] + rest;
      QuoteAfterPlainText(text[1..], rest);
      assert [text[0]] + text[1..] == text;
      ConcatAssociative([text[0]], text[1..], QuoteJsonCalls(rest));
    } else {
      assert s == rest;
    }
  }

  /**
   * A one-line `$input.json(arg)` call, with `arg` free of `)`, after text
   * without `$`, is wrapped in quotes, and quoting goes on after its `)`.
   */
  lemma QuoteEmbeddedJsonCall(text: string, arg: string, rest: string)
    requires '$' !in text
    requires |arg| >= 1 && ')' !in arg
    requires forall i :: 0 <= i < |arg| ==> !IsLineTerminator(arg[i])
    ensures QuoteJsonCalls(text + (JsonCall + arg + ")") + rest)
      == text + "\"" + (JsonCall + arg + ")") + "\"" + QuoteJsonCalls(rest)
  {
    var call := JsonCall + arg + ")";
    var s := call + rest;
    ConcatAssociative(text, call, rest);
    QuoteAfterPlainText(text, s);
    JsonCallMatchFollowed(arg, rest);
    QuoteLeadingCall(call, rest);
    ConcatRegroup(text, "\"", call, QuoteJsonCalls(rest));
  }

  lemma ConcatAssociative(a: string, b: string, c: string)
    ensures a + b + c == a + (b + c)
  {
  }

  lemma ConcatRegroup(a: string, q: string, b: string, c: string)
    ensures a + (q + b + q + c) == a + q + b + q + c
  {
  }

  /** The quoting pattern matches a one-line `$input.json(arg)` call up to its `)`, whatever follows. */
  lemma JsonCallMatchFollowed(arg: string, rest: string)
    requires |arg| >= 1 && ')' !in arg
    requires forall i :: 0 <= i < |arg| ==> !IsLineTerminator(arg[i])
    ensures JsonCallMatch(JsonCall + arg + ")" + rest) == Some(|arg| + 13)
  {
    var call := JsonCall + arg + ")";
    var s := call + rest;
    assert s[..|call|] == call;
    JsonCallMatchAt(s, arg);
  }

  /** A call the quoting pattern matches whole, followed by more text, is wrapped, and quoting goes on after it. */
  lemma QuoteLeadingCall(call: string, rest: string)
    requires JsonCallMatch(call + rest) == Some(|call|)
    ensures QuoteJsonCalls(call + rest) == "\"" + call + "\"" + QuoteJsonCalls(rest)
  {
    var s := call + rest;
    QuoteLeadingMatch(s, |call|);
    assert s[..|call|] == call && s[|call|..] == rest;
  }

  /** A match at the start of the template is wrapped, and quoting goes on after it. */
  lemma QuoteLeadingMatch(s: string, n: nat)
    requires JsonCallMatch(s) == Some(n)
    ensures QuoteJsonCalls(s) == "\"" + s[..n] + "\"" + QuoteJsonCalls(s[n..])
  {
  }

  /** A template that is one match of the quoting pattern is wrapped whole. */
  lemma QuoteWholeMatch(s: string)
    requires JsonCallMatch(s) == Some(|s|)
    ensures QuoteJsonCalls(s) == "\"" + s + "\""
  {
    QuoteLeadingMatch(s, |s|);
    assert s[..|s|] == s && s[|s|..] == "";
  }

  /** A single `$input.json(arg)` call, with `arg` on one line and free of `)`, is wrapped in quotes. */
  lemma QuoteSingleJsonCall(arg: string)
    requires |arg| >= 1 && ')' !in arg
    requires forall i :: 0 <= i < |arg| ==> !IsLineTerminator(arg[i])
    ensures QuoteJsonCalls(JsonCall + arg + ")") == "\"" + (JsonCall + arg + ")") + "\""
  {
    JsonCallMatchWhole(arg);
    QuoteWholeCall(arg);
  }

  /** The quoting pattern matches the whole of a single one-line `$input.json(arg)` call. */
  lemma JsonCallMatchWhole(arg: string)
    requires |arg| >= 1 && ')' !in arg
    requires forall i :: 0 <= i < |arg| ==> !IsLineTerminator(arg[i])
    ensures JsonCallMatch(JsonCall + arg + ")") == Some(|arg| + 13)
  {
    var call := JsonCall + arg + ")";
    assert call[..|call|] == call;
    JsonCallMatchAt(call, arg);
  }

  lemma QuoteWholeCall(arg: string)
    requires JsonCallMatch(JsonCall + arg + ")") == Some(|arg| + 13)
    ensures QuoteJsonCalls(JsonCall + arg + ")") == "\"" + (JsonCall + arg + ")") + "\""
  {
    var call := JsonCall + arg + ")";
    assert |call| == |arg| + 13;
    QuoteWholeMatch(call);
  }
}
