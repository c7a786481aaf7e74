/**
 * The route collector of the Postman collection generator
 * (pkg/postman/collector.go): routes read off the HTTP router become one
 * `RouteInfo` per method, with path parameters and auth heuristics derived
 * from the path template; routes are grouped by the first path segment.
 */
module PostmanCollector {

  import opened Wrappers
  import opened Strings
  import opened Grouping

  /** What the collector records about one method of one route. */
  datatype RouteInfo = RouteInfo(httpMethod: string, path: string, name: string, pathParams: seq<string>,
                                 requiresAuth: bool, requiresAdmin: bool, description: string)

  /**
   * A route as the router's walk presents it: its path template and its
   * methods, each `None` where the router reports an error, and its name.
   */
  datatype MuxRoute = MuxRoute(pathTemplate: Option<string>, methods: Option<seq<string>>, name: string)

  const Braces: set<char> := {'{', '}'}

  // ------------------------------------------------------------ path parameters

  /** A segment written `{name}`. */
  predicate IsParamSegment(part: string) {
    HasPrefix(part, "{") && HasSuffix(part, "}")
  }

  /** The parameters of the segments, in order: each `{...}` segment with its braces trimmed. */
  function ParamsOf(parts: seq<string>): seq<string>
    decreases |parts|
  {
    if parts == [] then []
    else
      var last := parts[|parts| - 1];
      ParamsOf(parts[..|parts| - 1]) + (if IsParamSegment(last) then [Trim(last, Braces)] else [])
  }

  /** `extractPathParams`: the loop over the `/`-separated segments. */
  method ExtractPathParams(path: string) returns (params: seq<string>)
    ensures params == ParamsOf(Split(path, '/'))
  {
    params := [];
    var parts := Split(path, '/');
    var i := 0;
    while i < |parts|
      invariant 0 <= i <= |parts|
      invariant params == ParamsOf(parts[..i])
    {
      var part := parts[i];
      if HasPrefix(part, "{") && HasSuffix(part, "}") {
        params := params + [Trim(part, Braces)];
      }
      assert parts[..i + 1][..i] == parts[..i];
      i := i + 1;
    }
    assert parts[..i] == parts;
  }

  /** The parameters of consecutive segment lists come in segment order. */
  lemma {:induction false} ParamsOfAppend(a: seq<string>, b: seq<string>)
    ensures ParamsOf(a + b) == ParamsOf(a) + ParamsOf(b)
    decreases |b|
  {
    if b == [] {
      assert a + b == a;
    } else {
      var front := b[..|b| - 1];
      assert (a + b)[..|a + b| - 1] == a + front;
      assert (a + b)[|a + b| - 1] == b[|b| - 1];
      ParamsOfAppend(a, front);
    }
  }

  /** Every parameter comes from a `{...}` segment. */
  lemma {:induction false} ParamsOfSound(parts: seq<string>, p: string)
    requires p in ParamsOf(parts)
    ensures exists k :: 0 <= k < |parts| && IsParamSegment(parts[k]) && Trim(parts[k], Braces) == p
    decreases |parts|
  {
    var front := parts[..|parts| - 1];
    if p in ParamsOf(front) {
      ParamsOfSound(front, p);
      var k :| 0 <= k < |front| && IsParamSegment(front[k]) && Trim(front[k], Braces) == p;
      assert parts[k] == front[k];
    } else {
      assert IsParamSegment(parts[|parts| - 1]) && Trim(parts[|parts| - 1], Braces) == p;
    }
  }

  /** Every `{...}` segment gives its parameter. */
  lemma {:induction false} ParamsOfComplete(parts: seq<string>, k: int)
    requires 0 <= k < |parts| && IsParamSegment(parts[k])
    ensures Trim(parts[k], Braces) in ParamsOf(parts)
    decreases |parts|
  {
    var front := parts[..|parts| - 1];
    var last := parts[|parts| - 1];
    var tail := if IsParamSegment(last) then [Trim(last, Braces)] else [];
    var p := Trim(parts[k], Braces);
    assert ParamsOf(parts) == ParamsOf(front) + tail;
    if k < |front| {
      assert front[k] == parts[k];
      ParamsOfComplete(front, k);
      var i :| 0 <= i < |ParamsOf(front)| && ParamsOf(front)[i] == p;
      assert ParamsOf(parts)[i] == p;
    } else {
      assert last == parts[k];
      assert ParamsOf(parts)[|ParamsOf(front)|] == p;
    }
  }

  /** A parameter is exactly the trimmed name of some `{...}` segment. */
  lemma ParamsOfIff(parts: seq<string>, p: string)
    ensures p in ParamsOf(parts) <==> exists k :: 0 <= k < |parts| && IsParamSegment(parts[k]) && Trim(parts[k], Braces) == p
  {
    if p in ParamsOf(parts) {
      ParamsOfSound(parts, p);
    }
    if exists k :: 0 <= k < |parts| && IsParamSegment(parts[k]) && Trim(parts[k], Braces) == p {
      var k :| 0 <= k < |parts| && IsParamSegment(parts[k]) && Trim(parts[k], Braces) == p;
      ParamsOfComplete(parts, k);
    }
  }

  /** No parameter contains a `/`. */
  lemma ParamsHaveNoSlash(path: string, p: string)
    requires p in ParamsOf(Split(path, '/'))
    ensures '/' !in p
  {
    var parts := Split(path, '/');
    ParamsOfIff(parts, p);
    var k :| 0 <= k < |parts| && IsParamSegment(parts[k]) && Trim(parts[k], Braces) == p;
    SplitPiecesFree(path, '/');
    assert parts[k] in parts;
    if '/' in p {
      TrimKeepsChars(parts[k], Braces, '/');
    }
  }

  // ------------------------------------------------------------ auth heuristics

  /** `sub` occurs at some index of `path`. */
  ghost predicate OccursSomewhere(path: string, sub: string) {
    exists i :: OccursAt(path, sub, i)
  }

  /** The path concerns users, roles or permissions. */
  predicate MentionsAccounts(path: string) {
    Contains(path, "/user") || Contains(path, "/role") || Contains(path, "/permission")
  }

  /**
   * `detectAuthMiddleware`: auth routes are open; account routes need a token.
   * In terms of occurrences: no `/auth/` anywhere in the path, and `/user`,
   * `/role` or `/permission` somewhere.
   */
  function DetectAuth(path: string): (r: bool)
    ensures r <==> !OccursSomewhere(path, "/auth/")
                   && (OccursSomewhere(path, "/user") || OccursSomewhere(path, "/role") || OccursSomewhere(path, "/permission"))
  {
    ContainsIff(path, "/auth/");
    ContainsIff(path, "/user");
    ContainsIff(path, "/role");
    ContainsIff(path, "/permission");
    if Contains(path, "/auth/") then false else MentionsAccounts(path)
  }

  /** A method that changes data. */
  predicate IsWriteMethod(m: string) {
    m == "POST" || m == "PUT" || m == "PATCH" || m == "DELETE"
  }

  /** The admin heuristic's answer: some method writes and the path concerns accounts. */
  predicate RequiresAdmin(path: string, methods: seq<string>) {
    MentionsAccounts(path) && exists i :: 0 <= i < |methods| && IsWriteMethod(methods[i])
  }

  /** `detectAdminMiddleware`: the loop over the route's methods, returning at the first write method on an account path. */
  method DetectAdmin(path: string, methods: seq<string>) returns (admin: bool)
    ensures admin == RequiresAdmin(path, methods)
  {
    var i := 0;
    while i < |methods|
      invariant 0 <= i <= |methods|
      invariant forall k :: 0 <= k < i ==> !(IsWriteMethod(methods[k]) && MentionsAccounts(path))
    {
      var m := methods[i];
      if m == "POST" || m == "PUT" || m == "PATCH" || m == "DELETE" {
        if Contains(path, "/user") || Contains(path, "/role") || Contains(path, "/permission") {
          return true;
        }
      }
      i := i + 1;
    }
    return false;
  }

  /** Outside `/auth/`, an admin route is also an authenticated one; inside, none is authenticated. */
  lemma AdminImpliesAuth(path: string, methods: seq<string>)
    ensures RequiresAdmin(path, methods) && !Contains(path, "/auth/") ==> DetectAuth(path)
    ensures Contains(path, "/auth/") ==> !DetectAuth(path)
    ensures !MentionsAccounts(path) ==> !DetectAuth(path) && !RequiresAdmin(path, methods)
  {
  }

  /** Read-only routes never need an admin, whatever the path. */
  lemma ReadOnlyNotAdmin(path: string, methods: seq<string>)
    requires forall i :: 0 <= i < |methods| ==> methods[i] == "GET"
    ensures !RequiresAdmin(path, methods)
  {
  }

  // ------------------------------------------------------------ collecting and grouping

  /** The infos for one route: none when the router reports an error, else one per method. */
  function InfosOf(route: MuxRoute): (r: seq<RouteInfo>)
    ensures route.pathTemplate.None? || route.methods.None? ==> r == []
    ensures route.pathTemplate.Some? && route.methods.Some? ==>
              var path := route.pathTemplate.value;
              var methods := route.methods.value;
              && |r| == |methods|
              && forall i :: 0 <= i < |r| ==>
                   r[i] == RouteInfo(methods[i], path, route.name, ParamsOf(Split(path, '/')),
                                     DetectAuth(path), RequiresAdmin(path, methods), "")
  {
    match (route.pathTemplate, route.methods)
    case (Some(path), Some(methods)) =>
      seq(|methods|, i requires 0 <= i < |methods| =>
        RouteInfo(methods[i], path, route.name, ParamsOf(Split(path, '/')),
                  DetectAuth(path), RequiresAdmin(path, methods), ""))
    case _ => []
  }

  /** The infos of the routes in walk order. */
  function AllInfos(router: seq<MuxRoute>): seq<RouteInfo>
    decreases |router|
  {
    if router == [] then [] else AllInfos(router[..|router| - 1]) + InfosOf(router[|router| - 1])
  }

  /** Appending in two steps is appending the joined tail. */
  lemma ConcatAssoc<T>(a: seq<T>, b: seq<T>, c: seq<T>)
    ensures (a + b) + c == a + (b + c)
  {
  }

  /** One more route walked adds that route's infos. */
  lemma AllInfosStep(router: seq<MuxRoute>, k: int)
    requires 0 <= k < |router|
    ensures AllInfos(router[..k + 1]) == AllInfos(router[..k]) + InfosOf(router[k])
  {
    assert router[..k + 1][..k] == router[..k];
  }

  /** How many methods the usable routes have. */
  function MethodCount(router: seq<MuxRoute>): nat
    decreases |router|
  {
    if router == [] then 0
    else
      var last := router[|router| - 1];
      MethodCount(router[..|router| - 1])
        + (if last.pathTemplate.Some? && last.methods.Some? then |last.methods.value| else 0)
  }

  /** One info per method of each route whose template and methods are known. */
  lemma {:induction false} AllInfosCount(router: seq<MuxRoute>)
    ensures |AllInfos(router)| == MethodCount(router)
    decreases |router|
  {
    if router != [] {
      AllInfosCount(router[..|router| - 1]);
    }
  }

  /** The first segment of a path once its surrounding slashes are trimmed. */
  function PrefixOf(route: RouteInfo): string {
    ExtractPrefix(route.path)
  }

  function Itself(route: RouteInfo): RouteInfo {
    route
  }

  /**
   * `extractPrefix`: the first `/`-segment of the trimmed path, which is the
   * whole trimmed path or a piece a `/` follows. `Split` always yields a
   * piece, so the `root` fallback is never taken.
   */
  function ExtractPrefix(path: string): (r: string)
    ensures '/' !in r
    ensures var t := Trim(path, {'/'}); t == r || HasPrefix(t, r + "/")
  {
    var parts := Split(Trim(path, {'/'}), '/');
    FirstPiece(Trim(path, {'/'}));
    if |parts| > 0 then parts[0] else "root"
  }

  /** The first piece of a split is free of the separator and ends the string or a separator follows it. */
  lemma FirstPiece(t: string)
    ensures var first := Split(t, '/')[0]; '/' !in first && (t == first || HasPrefix(t, first + "/"))
  {
    var parts := Split(t, '/');
    SplitPiecesFree(t, '/');
    assert parts[0] in parts;
    JoinSplit(t, '/');
    if |parts| > 1 {
      assert t == parts[0] + ['/'] + Join(parts[1..], '/');
      assert t[..|parts[0]| + 1] == parts[0] + "/";
    }
  }

  /** The bare root path has the empty prefix. */
  lemma RootPathPrefix()
    ensures ExtractPrefix("/") == ""
    ensures ExtractPrefix("") == ""
  {
    assert TrimLeft("/", {'/'}) == "";
    assert Split("", '/') == [""];
  }

  class RouteCollector {
    var routes: seq<RouteInfo>

    /** `NewRouteCollector`. */
    constructor()
      ensures routes == []
    {
      routes := [];
    }

    /** The walk callback for one route: one info per method, appended in method order. */
    method CollectRoute(route: MuxRoute)
      modifies this
      ensures routes == old(routes) + InfosOf(route)
    {
      if route.pathTemplate.None? || route.methods.None? {
        assert InfosOf(route) == [];
        assert routes + [] == routes;
        return;
      }
      var path := route.pathTemplate.value;
      var methods := route.methods.value;
      ghost var before := routes;
      var i := 0;
      while i < |methods|
        invariant 0 <= i <= |methods|
        invariant routes == before + InfosOf(route)[..i]
      {
        var params := ExtractPathParams(path);
        var admin := DetectAdmin(path, methods);
        var info := RouteInfo(methods[i], path, route.name, params, DetectAuth(path), admin, "");
        assert InfosOf(route)[..i + 1] == InfosOf(route)[..i] + [info];
        routes := routes + [info];
        i := i + 1;
      }
      assert InfosOf(route)[..i] == InfosOf(route);
    }

    /** `CollectRoutes`: walks the router, appending to the collected routes and returning them all. */
    method CollectRoutes(router: seq<MuxRoute>) returns (collected: seq<RouteInfo>)
      modifies this
      ensures routes == old(routes) + AllInfos(router)
      ensures collected == routes
    {
      ghost var before := routes;
      var k := 0;
      while k < |router|
        invariant 0 <= k <= |router|
        invariant routes == before + AllInfos(router[..k])
      {
        CollectRoute(router[k]);
        AllInfosStep(router, k);
        ConcatAssoc(before, AllInfos(router[..k]), InfosOf(router[k]));
        k := k + 1;
      }
      assert router[..k] == router;
      collected := routes;
    }

    /** `GroupByPrefix`: each collected route appended under its prefix. */
    method GroupByPrefix() returns (grouped: map<string, seq<RouteInfo>>)
      ensures grouped == GroupedBy(routes, PrefixOf, Itself)
    {
      grouped := GroupBy(routes, PrefixOf, Itself);
    }
  }

  /** Every route sits in the group of its prefix, in collection order, and nowhere else. */
  lemma GroupsPartitionRoutes(routes: seq<RouteInfo>, prefix: string, route: RouteInfo)
    ensures var m := GroupedBy(routes, PrefixOf, Itself);
            && (prefix in m ==> m[prefix] == ValuesUnder(routes, PrefixOf, Itself, prefix))
            && (route in routes ==> PrefixOf(route) in m && route in m[PrefixOf(route)])
            && (prefix in m && route in m[prefix] ==> route in routes && PrefixOf(route) == prefix)
            && Total(m, KeyOrder(routes, PrefixOf)) == |routes|
  {
    var m := GroupedBy(routes, PrefixOf, Itself);
    if prefix in m {
      GroupedInOrder(routes, PrefixOf, Itself, prefix);
      ValuesUnderIff(routes, PrefixOf, Itself, prefix, route);
    }
    if route in routes {
      var i :| 0 <= i < |routes| && routes[i] == route;
      GroupedKeys(routes, PrefixOf, Itself, PrefixOf(route));
      GroupedInOrder(routes, PrefixOf, Itself, PrefixOf(route));
      ValuesUnderIff(routes, PrefixOf, Itself, PrefixOf(route), route);
    }
    GroupedTotal(routes, PrefixOf, Itself);
  }

  /** `GenerateName`: the route's own name, else the method and the path made readable. */
  function GenerateName(route: RouteInfo): (r: string)
    ensures route.name != "" ==> r == route.name
    ensures route.name == "" ==>
              && HasPrefix(r, route.httpMethod + " ")
              && '/' !in r[|route.httpMethod| + 1..]
              && '{' !in r[|route.httpMethod| + 1..]
              && '}' !in r[|route.httpMethod| + 1..]
  {
    if route.name != "" then route.name
    else
      var t := Trim(route.path, {'/'});
      var spaced := ReplaceAll(t, "/", " ");
      var colons := ReplaceAll(spaced, "{", ":");
      var readable := ReplaceAll(colons, "}", "");
      ReadableHasNoSeparators(t);
      var r := route.httpMethod + " " + readable;
      assert r[..|route.httpMethod| + 1] == route.httpMethod + " ";
      assert r[|route.httpMethod| + 1..] == readable;
      r
  }

  /** The readable path keeps no `/`, `{` or `}`. */
  lemma ReadableHasNoSeparators(t: string)
    ensures var readable := ReplaceAll(ReplaceAll(ReplaceAll(t, "/", " "), "{", ":"), "}", "");
            '/' !in readable && '{' !in readable && '}' !in readable
  {
    var spaced := ReplaceAll(t, "/", " ");
    var colons := ReplaceAll(spaced, "{", ":");
    var readable := ReplaceAll(colons, "}", "");
    assert "/" == ['/'] && " " == [' '] && "{" == ['{'] && ":" == [':'] && "}" == ['}'];
    ReplaceCharByChar(t, '/', ' ');
    ReplaceCharByChar(spaced, '{', ':');
    ReplaceCharByNothing(colons, '}');
    assert '/' !in spaced by {
      forall k | 0 <= k < |spaced| ensures spaced[k] != '/' { }
    }
    assert '{' !in colons by {
      forall k | 0 <= k < |colons| ensures colons[k] != '{' { }
    }
    ReplaceAllChars(spaced, "{", ":", '/');
    ReplaceAllChars(colons, "}", "", '/');
    ReplaceAllChars(colons, "}", "", '{');
  }

  /** How the readable name shows one character of the trimmed path. */
  function ReadableChar(c: char): char {
    if c == '/' then ' ' else if c == '{' then ':' else c
  }

  /** Two texts of one length that agree on where `x` stands hold equally many `x`. */
  lemma {:induction false} CountCharAligned(a: string, b: string, x: char)
    requires |a| == |b| && forall k :: 0 <= k < |a| ==> (a[k] == x <==> b[k] == x)
    ensures CountChar(a, x) == CountChar(b, x)
    decreases |a|
  {
    if a != [] {
      CountCharAligned(a[1..], b[1..], x);
    }
  }

  /** The first two replacements map the trimmed path character by character. */
  lemma SpacedColonsPointwise(t: string)
    ensures var colons := ReplaceAll(ReplaceAll(t, "/", " "), "{", ":");
            && |colons| == |t|
            && forall k :: 0 <= k < |t| ==> colons[k] == ReadableChar(t[k])
  {
    var spaced := ReplaceAll(t, "/", " ");
    assert "/" == ['/'] && " " == [' '] && "{" == ['{'] && ":" == [':'];
    ReplaceCharByChar(t, '/', ' ');
    ReplaceCharByChar(spaced, '{', ':');
  }

  /** The trimmed path mapped character by character with `ReadableChar`. */
  function MapReadable(t: string): (r: string)
    ensures |r| == |t| && forall k :: 0 <= k < |t| ==> r[k] == ReadableChar(t[k])
  {
    seq(|t|, k requires 0 <= k < |t| => ReadableChar(t[k]))
  }

  /** The readable path: the trimmed path mapped character by character, less its `}`s. */
  lemma ReadableText(t: string)
    ensures var readable := ReplaceAll(ReplaceAll(ReplaceAll(t, "/", " "), "{", ":"), "}", "");
            && readable == Drop(MapReadable(t), '}')
            && |readable| == |t| - CountChar(t, '}')
            && ('}' !in t ==> && |readable| == |t|
                              && forall k :: 0 <= k < |t| ==> readable[k] == ReadableChar(t[k]))
  {
    var colons := ReplaceAll(ReplaceAll(t, "/", " "), "{", ":");
    var readable := ReplaceAll(colons, "}", "");
    assert "}" == ['}'];
    ReplaceCharByNothing(colons, '}');
    SpacedColonsPointwise(t);
    assert colons == MapReadable(t);
    ReplaceCharByNothingIsDrop(colons, '}');
    CountCharAligned(t, colons, '}');
    if '}' !in t {
      assert '}' !in colons;
      ReplaceAllUntouched(colons, "}", "");
    }
  }

  /**
   * The generated name in full: "METHOD " and then the trimmed path mapped
   * character by character with every `}` dropped, so its length is the path's less the `}`s; a path without `}`
   * is shown character by character, `/` as a space and `{` as `:`.
   */
  lemma GenerateNameText(route: RouteInfo)
    requires route.name == ""
    ensures var m := route.httpMethod;
            var t := Trim(route.path, {'/'});
            var r := GenerateName(route);
            && r == m + " " + Drop(MapReadable(t), '}')
            && |r| == |m| + 1 + |t| - CountChar(t, '}')
            && ('}' !in t ==> && |r| == |m| + 1 + |t|
                              && forall k :: 0 <= k < |t| ==> r[|m| + 1 + k] == ReadableChar(t[k]))
  {
    var t := Trim(route.path, {'/'});
    var readable := ReplaceAll(ReplaceAll(ReplaceAll(t, "/", " "), "{", ":"), "}", "");
    assert GenerateName(route) == route.httpMethod + " " + readable;
    ReadableText(t);
  }
}
