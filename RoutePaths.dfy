/**
 * Translation of an endpoint's gateway-style path (`users/{id}`) into the
 * path pattern the HTTP router matches (`/users/:id`), and the HTTP verb
 * into the router's lower-case registration name.
 */
module RoutePaths {
  import opened Wrappers
  import opened Strings

  /**
   * The URL prefix option after start-up normalisation: a missing or empty
   * prefix becomes `""`, and a non-empty one ends with exactly the `/` it
   * already had or one appended `/`.
   */
  function NormalPrefix(prefix: Option<string>): (r: string)
    ensures prefix.None? || prefix.value == "" ==> r == ""
    ensures prefix.Some? && prefix.value != "" ==>
      && |r| >= 1 && r[|r| - 1] == '/'
      && StartsWith(r, prefix.value)
      && |r| <= |prefix.value| + 1
    ensures prefix.Some? && prefix.value != "" && prefix.value[|prefix.value| - 1] == '/' ==> r == prefix.value
    ensures prefix.Some? && prefix.value != "" && prefix.value[|prefix.value| - 1] != '/' ==> r == prefix.value + "/"
  {
    var p := if prefix.None? then "" else prefix.value;
    if |p| > 0 && p[|p| - 1] != '/' then p + "/" else p
  }

  /** Normalising a normalised prefix changes nothing. */
  lemma NormalPrefixIdempotent(prefix: Option<string>)
    ensures NormalPrefix(Some(NormalPrefix(prefix))) == NormalPrefix(prefix)
  {
  }

  /** `cfPath` after its first character is forced to `/`; the empty path becomes `"/"`. */
  function LeadingSlash(path: string): (r: string)
    ensures |r| >= 1 && r[0] == '/'
    ensures |path| >= 1 && path[0] == '/' ==> r == path
    ensures r == path || r == "/" + path
  {
    if |path| == 0 || path[0] != '/' then "/" + path else path
  }

  /**
   * The trailing-slash loop as the source writes it: `substr(length - 1)`
   * keeps only the last character, so a path longer than one character that
   * ends in `/` collapses to `"/"`.
   */
  function Collapsed(path: string): (r: string)
    ensures |r| <= 1 || r[|r| - 1] != '/'
    ensures |path| > 1 && path[|path| - 1] == '/' ==> r == "/"
    ensures !(|path| > 1 && path[|path| - 1] == '/') ==> r == path
  {
    if |path| > 1 && path[|path| - 1] == '/' then "/" else path
  }

  /** The loop of `Collapsed`, statement for statement. */
  method CollapseTrailingSlash(path: string) returns (r: string)
    ensures r == Collapsed(path)
  {
    r := path;
    while |r| > 1 && r[|r| - 1] == '/'
      invariant r == path || (r == "/" && |path| > 1 && path[|path| - 1] == '/')
      decreases |r|
    {
      r := r[|r| - 1..];
    }
  }

  /** Whether every character of `s` is `/`. */
  predicate AllSlashes(s: string) {
    forall i :: 0 <= i < |s| ==> s[i] == '/'
  }

  /**
   * The evidently intended trailing-slash loop: remove trailing `/`s one by
   * one, but never the leading one. The result is the input without its
   * run of trailing slashes.
   */
  function Stripped(path: string): (r: string)
    ensures |r| <= 1 || r[|r| - 1] != '/'
    ensures |path| >= 1 ==> |r| >= 1
    ensures StartsWith(path, r) && AllSlashes(path[|r|..])
    decreases |path|
  {
    if |path| > 1 && path[|path| - 1] == '/' then Stripped(path[..|path| - 1]) else path
  }

  /** The corrected loop: drop one trailing `/` per iteration. */
  method StripTrailingSlashes(path: string) returns (r: string)
    ensures r == Stripped(path)
  {
    r := path;
    while |r| > 1 && r[|r| - 1] == '/'
      invariant Stripped(r) == Stripped(path)
      decreases |r|
    {
      r := r[..|r| - 1];
    }
  }

  /** Stripping is idempotent. */
  lemma StrippedIdempotent(path: string)
    ensures Stripped(Stripped(path)) == Stripped(path)
  {
  }

  /**
   * The defect of the source's loop: on a path that ends in `/` and holds
   * any other character, the source yields `"/"`, while stripping keeps the
   * path.
   */
  lemma CollapseDiscardsPath(path: string, k: nat)
    requires |path| > 1 && path[|path| - 1] == '/'
    requires k < |path| && path[k] != '/'
    ensures Collapsed(path) == "/"
    ensures Stripped(path) != "/" && Stripped(path)[k] == path[k]
  {
    var r := Stripped(path);
    assert path[..|r|] == r;
  }

  /** One path segment: `{name}` becomes the router parameter `:name`, anything else is kept. */
  function RewriteSegment(part: string): (r: string)
    ensures |part| >= 2 && part[0] == '{' && part[|part| - 1] == '}' ==> r == ":" + part[1..|part| - 1]
    ensures !(|part| >= 2 && part[0] == '{' && part[|part| - 1] == '}') ==> r == part
  {
    if |part| > 0 && part[0] == '{' && part[|part| - 1] == '}' then ":" + part[1..|part| - 1]
    else part
  }

  /** Rewriting keeps segments free of `/` and keeps non-empty segments non-empty. */
  lemma RewriteSegmentShape(part: string)
    requires '/' !in part
    ensures '/' !in RewriteSegment(part)
    ensures |RewriteSegment(part)| >= 1 <==> |part| >= 1
    ensures |part| >= 1 && part[|part| - 1] != '/' ==> RewriteSegment(part)[|RewriteSegment(part)| - 1] != '/'
  {
    if |part| >= 2 && part[0] == '{' && part[|part| - 1] == '}' {
      var inner := part[1..|part| - 1];
      assert forall c :: c in inner ==> c in part;
    }
  }

  /** `cfPathParts.map(...)`: every segment rewritten, the count kept. */
  function RewriteSegments(parts: seq<string>): (r: seq<string>)
    ensures |r| == |parts|
    ensures forall i :: 0 <= i < |parts| ==> r[i] == RewriteSegment(parts[i])
  {
    seq(|parts|, i requires 0 <= i < |parts| => RewriteSegment(parts[i]))
  }

  /** The slash-normalised path of an endpoint under a (normalised) prefix, with the corrected loop. */
  function NormalisedPath(prefix: string, endpointPath: string): string {
    Stripped(LeadingSlash(prefix + endpointPath))
  }

  /** The normalised path starts with `/` and is `"/"` or does not end in `/`. */
  lemma NormalisedShape(prefix: string, endpointPath: string)
    ensures var p := NormalisedPath(prefix, endpointPath);
      |p| >= 1 && p[0] == '/' && (p == "/" || p[|p| - 1] != '/')
  {
    var q := LeadingSlash(prefix + endpointPath);
    var p := Stripped(q);
    assert p[0] == q[..|p|][0];
    if |p| == 1 {
      assert p == "/";
    }
  }

  /**
   * The router path of an endpoint: the normalised path with its `{name}`
   * segments rewritten. It starts with `/` and is `"/"` or has no trailing `/`.
   */
  function MatchablePath(prefix: string, endpointPath: string): (r: string)
    ensures |r| >= 1 && r[0] == '/'
    ensures r == "/" || r[|r| - 1] != '/'
  {
    NormalisedShape(prefix, endpointPath);
    TranslateShape(NormalisedPath(prefix, endpointPath));
    Translate(NormalisedPath(prefix, endpointPath))
  }

  /**
   * The router path exactly as the source computes it, with the collapsing
   * loop. It has the same leading and trailing shape.
   */
  function MatchablePathAsWritten(prefix: string, endpointPath: string): (r: string)
    ensures |r| >= 1 && r[0] == '/'
    ensures r == "/" || r[|r| - 1] != '/'
  {
    var p := Collapsed(LeadingSlash(prefix + endpointPath));
    TranslateShape(p);
    Translate(p)
  }

  /** A path starting with `/` that is `"/"` or has no trailing `/` translates to one of the same shape. */
  lemma TranslateShape(p: string)
    requires |p| >= 1 && p[0] == '/' && (p == "/" || p[|p| - 1] != '/')
    ensures |Translate(p)| >= 1 && Translate(p)[0] == '/'
    ensures Translate(p) == "/" || Translate(p)[|Translate(p)| - 1] != '/'
  {
    TranslateLeading(p);
    if p == "/" {
      TranslateRoot();
    } else {
      TranslateTrailing(p);
    }
  }

  /** `endpoint.method.toLocaleLowerCase()`: the router's registration name for the verb. */
  function RouteMethod(verb: string): (r: string)
    ensures |r| == |verb| && forall i :: 0 <= i < |r| ==> !('A' <= r[i] <= 'Z')
    ensures forall i :: 0 <= i < |verb| && !('A' <= verb[i] <= 'Z') ==> r[i] == verb[i]
    ensures forall i :: 0 <= i < |verb| && 'A' <= verb[i] <= 'Z' ==> r[i] as int == verb[i] as int + 32
  {
    LowerAscii(verb)
  }

  /**
   * Segment-wise translation of a path: split on `/`, rewrite every segment,
   * join again. The result splits back into exactly the rewritten segments.
   */
  function Translate(path: string): (r: string)
    ensures Split(r, '/') == RewriteSegments(Split(path, '/'))
  {
    RewrittenSeparatorFree(path);
    SplitJoin(RewriteSegments(Split(path, '/')), '/');
    Join(RewriteSegments(Split(path, '/')), '/')
  }

  /** Rewritten segments of a split path are still free of `/`. */
  lemma RewrittenSeparatorFree(path: string)
    ensures forall i :: 0 <= i < |Split(path, '/')| ==> '/' !in RewriteSegments(Split(path, '/'))[i]
  {
    var parts := Split(path, '/');
    forall i | 0 <= i < |parts| ensures '/' !in RewriteSegments(parts)[i] {
      RewriteSegmentShape(parts[i]);
    }
  }

  /** A path starting with `/` translates to one starting with `/`. */
  lemma TranslateLeading(path: string)
    requires |path| >= 1 && path[0] == '/'
    ensures |Translate(path)| >= 1 && Translate(path)[0] == '/'
  {
    SplitFirst(path, '/');
    SplitMany(path, '/');
    JoinLeading(RewriteSegments(Split(path, '/')), '/');
  }

  /** A path not ending in `/` translates to one not ending in `/`. */
  lemma TranslateTrailing(path: string)
    requires |path| >= 1 && path[0] == '/' && path[|path| - 1] != '/'
    ensures |Translate(path)| >= 1 && Translate(path)[|Translate(path)| - 1] != '/'
  {
    SplitMany(path, '/');
    SplitLast(path, '/');
    RewrittenJoinEnd(Split(path, '/'));
  }

  /** Rewriting and joining segments whose last one ends in a character other than `/` ends in that character's rewrite. */
  lemma RewrittenJoinEnd(parts: seq<string>)
    requires |parts| >= 2
    requires '/' !in parts[|parts| - 1] && parts[|parts| - 1] != ""
    requires parts[|parts| - 1][|parts[|parts| - 1]| - 1] != '/'
    ensures |Join(RewriteSegments(parts), '/')| >= 1
    ensures Join(RewriteSegments(parts), '/')[|Join(RewriteSegments(parts), '/')| - 1] != '/'
  {
    var rw := RewriteSegments(parts);
    var part := parts[|parts| - 1];
    RewriteSegmentShape(part);
    assert rw[|rw| - 1] == RewriteSegment(part);
    JoinEnd(rw, '/');
  }

  /** The root path translates to itself. */
  lemma TranslateRoot()
    ensures Translate("/") == "/"
  {
    assert "/" == "" + ['/'] + "";
    SplitAround("", '/', "");
    assert Split("/", '/') == ["", ""];
  }

  /** The router path splits back into exactly the rewritten segments of the normalised path. */
  lemma MatchablePathShape(prefix: string, endpointPath: string)
    ensures Split(MatchablePath(prefix, endpointPath), '/') == RewriteSegments(Split(NormalisedPath(prefix, endpointPath), '/'))
  {
  }

  /**
   * Where the source's loop and the corrected one part ways: when the
   * prefixed path is `/` or does not end in `/`, both register the same
   * route; otherwise the source registers `/`.
   */
  lemma MatchablePathAgreement(prefix: string, endpointPath: string)
    ensures var q := LeadingSlash(prefix + endpointPath);
      && (|q| <= 1 || q[|q| - 1] != '/' ==> MatchablePathAsWritten(prefix, endpointPath) == MatchablePath(prefix, endpointPath))
      && (|q| > 1 && q[|q| - 1] == '/' ==> MatchablePathAsWritten(prefix, endpointPath) == "/")
  {
    var q := LeadingSlash(prefix + endpointPath);
    if |q| > 1 && q[|q| - 1] == '/' {
      TranslateRoot();
    } else {
      assert Stripped(q) == q;
    }
  }

  /** A path without braces translates to itself. */
  lemma TranslateWithoutBraces(path: string)
    requires '{' !in path
    ensures Translate(path) == path
  {
    var parts := Split(path, '/');
    forall i | 0 <= i < |parts| ensures RewriteSegments(parts)[i] == parts[i] {
      if |parts[i]| > 0 {
        assert parts[i][0] in parts[i];
      }
    }
    assert RewriteSegments(parts) == parts;
    JoinSplit(path, '/');
  }

  /**
   * With prefix `api/` and endpoint path `users/`, the source registers the
   * route at `/`, while the corrected translation registers `/api/users`.
   */
  lemma PrefixedTrailingSlashExample()
    ensures MatchablePathAsWritten("api/", "users/") == "/"
    ensures MatchablePath("api/", "users/") == "/api/users"
  {
    var p := "/api/users/";
    assert LeadingSlash("api/" + "users/") == p;
    assert Collapsed(p) == "/";
    TranslateRoot();
    var q := "/api/users";
    assert p[..|p| - 1] == q;
    assert Stripped(p) == q;
    assert '{' !in q;
    TranslateWithoutBraces(q);
  }
}
