/**
 * Building a Postman collection (format v2.1.0) from the collected routes
 * (pkg/postman/generator.go): one folder per route prefix, one request per
 * route, with headers, a URL whose path parameters become Postman variables,
 * a sample body for methods that send one, and a token-saving test script on
 * the login route. The reflection-based body generator is a function the
 * generator is given; JSON output and files are outside the model.
 */
module PostmanGenerator {

  import opened Wrappers
  import opened Strings
  import opened Grouping
  import opened PostmanCollector

  const Schema := "https://schema.getpostman.com/json/collection/v2.1.0/collection.json"

  /** The generator's settings; `generateBody` stands for the struct-driven body generator. */
  datatype Generator = Generator(baseUrl: string, collectionName: string, description: string,
                                 version: string, generateBody: RouteInfo -> string)

  datatype Header = Header(key: string, value: string, description: string)
  datatype Query = Query(key: string, value: string, description: string, disabled: bool)
  datatype Variable = Variable(key: string, value: string, description: string)
  datatype Url = Url(raw: string, protocol: string, host: seq<string>, path: seq<string>,
                     query: seq<Query>, variable: seq<Variable>)
  /** A raw body and the language of its `options.raw`. */
  datatype Body = Body(mode: string, raw: string, language: string)
  datatype AuthKeyValue = AuthKeyValue(key: string, value: string, kind: string)
  datatype Auth = Auth(kind: string, bearer: seq<AuthKeyValue>)
  datatype Script = Script(kind: string, exec: seq<string>)
  datatype Event = Event(listen: string, script: Script)
  datatype Request = Request(httpMethod: string, header: seq<Header>, body: Option<Body>, url: Url,
                             auth: Option<Auth>, description: string)
  /** A folder (with `items`) or a request (with `request`). */
  datatype Item = Item(name: string, description: string, items: seq<Item>, request: Option<Request>,
                       events: seq<Event>)
  datatype Info = Info(name: string, description: string, schema: string, version: string)
  datatype Collection = Collection(info: Info, items: seq<Item>, auth: Option<Auth>)

  /** `NewGenerator`: the fixed description and version. */
  function NewGenerator(baseUrl: string, collectionName: string, generateBody: RouteInfo -> string): (g: Generator)
    ensures g.baseUrl == baseUrl && g.collectionName == collectionName && g.generateBody == generateBody
    ensures g.description == "Auto-generated API collection" && g.version == "1.0.0"
  {
    Generator(baseUrl, collectionName, "Auto-generated API collection", "1.0.0", generateBody)
  }

  // ---------------------------------------------------------------- headers

  const ContentTypeHeader := Header("Content-Type", "application/json", "")
  const AuthorizationHeader := Header("Authorization", "Bearer {{token}}", "JWT authentication token")

  /** `createHeaders`: JSON content type first, then the bearer token when the route needs one. */
  function CreateHeaders(route: RouteInfo): (r: seq<Header>)
    ensures |r| >= 1 && r[0] == ContentTypeHeader
    ensures AuthorizationHeader in r <==> route.requiresAuth
    ensures |r| == (if route.requiresAuth then 2 else 1)
  {
    if route.requiresAuth then [ContentTypeHeader, AuthorizationHeader] else [ContentTypeHeader]
  }

  // -------------------------------------------------------------------- URL

  /** `{p}`, how the router writes a path parameter. */
  function Placeholder(p: string): string {
    "{" + p + "}"
  }

  /** `:{{p}}`, how Postman writes it. */
  function PostmanVariable(p: string): string {
    ":{{" + p + "}}"
  }

  /** The path after each parameter's placeholder has been replaced, parameter by parameter. */
  function SubstituteParams(path: string, params: seq<string>): string
    decreases |params|
  {
    if params == [] then path
    else
      var p := params[|params| - 1];
      ReplaceAll(SubstituteParams(path, params[..|params| - 1]), Placeholder(p), PostmanVariable(p))
  }

  /** The parts that are not empty, in order. */
  function NonEmptyParts(parts: seq<string>): (r: seq<string>)
    ensures forall i :: 0 <= i < |r| ==> r[i] != ""
    decreases |parts|
  {
    if parts == [] then []
    else
      var last := parts[|parts| - 1];
      NonEmptyParts(parts[..|parts| - 1]) + (if last != "" then [last] else [])
  }

  function VariableFor(p: string): Variable {
    Variable(p, "<" + p + ">", "The " + p + " identifier")
  }

  /** The page and page-size hints of the article listing, both switched off. */
  const PaginationQueries := [
    Query("page", "1", "Page number (default: 1)", true),
    Query("pageSize", "10", "Number of items per page (default: 10, max: 100)", true)
  ]

  predicate IsArticleListing(route: RouteInfo) {
    route.httpMethod == "GET" && route.path == "/article"
  }

  /** The URL `createURL` builds. */
  function UrlOf(route: RouteInfo): Url {
    var path := SubstituteParams(route.path, route.pathParams);
    Url("{{baseUrl}}" + path, "http", ["{{baseUrl}}"], NonEmptyParts(Split(Trim(path, {'/'}), '/')),
        if IsArticleListing(route) then PaginationQueries else [],
        seq(|route.pathParams|, i requires 0 <= i < |route.pathParams| => VariableFor(route.pathParams[i])))
  }

  /** The placeholder loop of `createURL`. */
  method SubstitutePath(path: string, params: seq<string>) returns (r: string)
    ensures r == SubstituteParams(path, params)
  {
    r := path;
    var i := 0;
    while i < |params|
      invariant 0 <= i <= |params|
      invariant r == SubstituteParams(path, params[..i])
    {
      r := ReplaceAll(r, Placeholder(params[i]), PostmanVariable(params[i]));
      assert params[..i + 1][..i] == params[..i];
      i := i + 1;
    }
    assert params[..i] == params;
  }

  /** The segment loop of `createURL`. */
  method KeepNonEmpty(parts: seq<string>) returns (r: seq<string>)
    ensures r == NonEmptyParts(parts)
  {
    r := [];
    var i := 0;
    while i < |parts|
      invariant 0 <= i <= |parts|
      invariant r == NonEmptyParts(parts[..i])
    {
      if parts[i] != "" {
        r := r + [parts[i]];
      }
      assert parts[..i + 1][..i] == parts[..i];
      i := i + 1;
    }
    assert parts[..i] == parts;
  }

  /** The variables loop of `createURL`: one variable per parameter, in order. */
  method PathVariables(params: seq<string>) returns (vars: seq<Variable>)
    ensures vars == seq(|params|, k requires 0 <= k < |params| => VariableFor(params[k]))
  {
    vars := [];
    var i := 0;
    while i < |params|
      invariant 0 <= i <= |params|
      invariant |vars| == i
      invariant forall k :: 0 <= k < i ==> vars[k] == VariableFor(params[k])
    {
      var param := params[i];
      vars := vars + [Variable(param, "<" + param + ">", "The " + param + " identifier")];
      i := i + 1;
    }
  }

  /** `createURL`: the substituted path, its segments, the variables, and the article listing's hints. */
  method CreateUrl(route: RouteInfo) returns (url: Url)
    ensures url == UrlOf(route)
  {
    var path := SubstitutePath(route.path, route.pathParams);
    var pathParts := KeepNonEmpty(Split(Trim(path, {'/'}), '/'));
    url := Url("{{baseUrl}}" + path, "http", ["{{baseUrl}}"], pathParts, [], []);
    var vars := PathVariables(route.pathParams);
    url := url.(variable := vars);
    if route.httpMethod == "GET" && route.path == "/article" {
      url := url.(query := url.query + [Query("page", "1", "Page number (default: 1)", true)]);
      url := url.(query := url.query + [Query("pageSize", "10", "Number of items per page (default: 10, max: 100)", true)]);
      assert url.query == PaginationQueries;
    }
  }

  /** Segments are kept in order exactly when they are not empty. */
  lemma {:induction false} NonEmptyPartsIff(parts: seq<string>, x: string)
    ensures x in NonEmptyParts(parts) <==> x in parts && x != ""
    decreases |parts|
  {
    if parts != [] {
      var front := parts[..|parts| - 1];
      NonEmptyPartsIff(front, x);
      assert parts == front + [parts[|parts| - 1]];
    }
  }

  /**
   * The URL's shape: the raw address is the base-URL variable before the
   * substituted path, each parameter has its variable in order, and only
   * the article listing carries the pagination hints.
   */
  lemma UrlShape(route: RouteInfo)
    ensures var url := UrlOf(route);
            && url.raw == "{{baseUrl}}" + SubstituteParams(route.path, route.pathParams)
            && |url.variable| == |route.pathParams|
            && (forall i :: 0 <= i < |url.variable| ==>
                  url.variable[i].key == route.pathParams[i]
                  && url.variable[i].value == "<" + route.pathParams[i] + ">")
            && (url.query != [] <==> IsArticleListing(route))
            && (url.query != [] ==> forall q :: q in url.query ==> q.disabled)
  {
  }

  /** The URL's segments are the non-empty `/`-pieces of the substituted path, none holding a `/`. */
  lemma UrlSegments(route: RouteInfo, x: string)
    ensures var url := UrlOf(route);
            var path := SubstituteParams(route.path, route.pathParams);
            && (forall i :: 0 <= i < |url.path| ==> url.path[i] != "" && '/' !in url.path[i])
            && (x in url.path <==> x in Split(Trim(path, {'/'}), '/') && x != "")
  {
    var path := SubstituteParams(route.path, route.pathParams);
    var parts := Split(Trim(path, {'/'}), '/');
    SplitPiecesFree(Trim(path, {'/'}), '/');
    forall y | y in NonEmptyParts(parts) ensures '/' !in y {
      NonEmptyPartsIff(parts, y);
    }
    NonEmptyPartsIff(parts, x);
  }

  /** Every `{p}` becomes `:{{p}}`: the single placeholder of a one-parameter path is rewritten in place. */
  lemma SubstituteOne(a: string, p: string, b: string)
    requires '{' !in a && '{' !in b
    ensures SubstituteParams(a + Placeholder(p) + b, [p]) == a + PostmanVariable(p) + b
  {
    var pat := Placeholder(p);
    var rep := PostmanVariable(p);
    assert [p][..0] == [];
    assert pat[0] == '{';
    assert a + pat + b == a + (pat + b);
    ReplaceAllPlainPrefix(a, pat + b, pat, rep);
    ReplaceAllAtFront(pat, b, rep);
    ReplaceAllUntouched(b, pat, rep);
  }

  // ------------------------------------------------------------------ bodies

  const DefaultBody := "{\n  \"key\": \"value\"\n}"
  /** The all-zero UUID the sample bodies use for every identifier. */
  const NilUuid := "00000000-0000-0000-0000-000000000000"
  const RolePermissionBody :=
    "{\n  \"roleId\": \"" + NilUuid + "\",\n  \"sectionId\": \"" + NilUuid + "\",\n  \"permissionId\": \"" + NilUuid + "\"\n}"
  const UserRoleBody := "{\n  \"roleId\": \"" + NilUuid + "\"\n}"
  const RssFeedBody := "{\n  \"rssFeedUrl\": \"https://example.com/feed.xml\"\n}"
  const EmptyObjectBody := "{}"

  predicate AssignsPermission(route: RouteInfo) {
    Contains(route.path, "/role") && Contains(route.path, "/permissions") && route.httpMethod == "POST"
  }

  predicate AssignsUserRole(route: RouteInfo) {
    Contains(route.path, "/user") && Contains(route.path, "/role")
  }

  predicate AddsRssFeed(route: RouteInfo) {
    Contains(route.path, "/article/rss")
  }

  predicate IngestsSource(route: RouteInfo) {
    Contains(route.path, "/source") && Contains(route.path, "/ingest")
  }

  /**
   * `createFallbackBody`: the first special case that applies, else the
   * default. Each special body is chosen exactly when its case applies and no
   * earlier one does.
   */
  function FallbackBody(route: RouteInfo): (r: string)
    ensures r == RolePermissionBody <==> AssignsPermission(route)
    ensures r == UserRoleBody <==> !AssignsPermission(route) && AssignsUserRole(route)
    ensures r == RssFeedBody <==> !AssignsPermission(route) && !AssignsUserRole(route) && AddsRssFeed(route)
    ensures r == EmptyObjectBody <==> !AssignsPermission(route) && !AssignsUserRole(route)
                                      && !AddsRssFeed(route) && IngestsSource(route)
    ensures r == DefaultBody <==> !AssignsPermission(route) && !AssignsUserRole(route)
                                  && !AddsRssFeed(route) && !IngestsSource(route)
  {
    assert |EmptyObjectBody| == 2 && |DefaultBody| == 20 && |UserRoleBody| == 54;
    assert |RssFeedBody| == 50 && |RolePermissionBody| == 167;
    if AssignsPermission(route) then RolePermissionBody
    else if AssignsUserRole(route) then UserRoleBody
    else if AddsRssFeed(route) then RssFeedBody
    else if IngestsSource(route) then EmptyObjectBody
    else DefaultBody
  }

  /**
   * `createBody`: raw JSON; the generated body is kept unless it is the
   * default, which the fallback replaces, so the default survives only when
   * no special case applies.
   */
  function CreateBody(g: Generator, route: RouteInfo): (b: Body)
    ensures b.mode == "raw" && b.language == "json"
    ensures g.generateBody(route) != DefaultBody ==> b.raw == g.generateBody(route)
    ensures g.generateBody(route) == DefaultBody ==> b.raw == FallbackBody(route)
    ensures b.raw == DefaultBody <==>
              g.generateBody(route) == DefaultBody && !AssignsPermission(route) && !AssignsUserRole(route)
              && !AddsRssFeed(route) && !IngestsSource(route)
  {
    var generated := g.generateBody(route);
    Body("raw", if generated == DefaultBody then FallbackBody(route) else generated, "json")
  }

  // ---------------------------------------------------------------- requests

  const NoAuth := Auth("noauth", [])

  /** The test script saving the access token of a login response. */
  const SaveTokenEvent := Event("test", Script("text/javascript", [
    "// Save token to environment variable",
    "var jsonData = pm.response.json();",
    "if (jsonData.accessToken) {",
    "    pm.environment.set('token', jsonData.accessToken);",
    "    console.log('Access token saved to environment');",
    "}"
  ]))

  predicate SendsBody(m: string) {
    m == "POST" || m == "PUT" || m == "PATCH"
  }

  predicate IsLogin(route: RouteInfo) {
    route.httpMethod == "POST" && Contains(route.path, "/auth/login")
  }

  /** The item `createRequest` builds. */
  function RequestItem(g: Generator, route: RouteInfo): Item {
    var request := Request(route.httpMethod, CreateHeaders(route),
                           if SendsBody(route.httpMethod) then Some(CreateBody(g, route)) else None,
                           UrlOf(route), if route.requiresAuth then None else Some(NoAuth), route.description);
    Item(GenerateName(route), "", [], Some(request), if IsLogin(route) then [SaveTokenEvent] else [])
  }

  /** `createRequest`: the request with its optional body and auth override, and the login script. */
  method CreateRequest(g: Generator, route: RouteInfo) returns (item: Item)
    ensures item == RequestItem(g, route)
  {
    var url := CreateUrl(route);
    var request := Request(route.httpMethod, CreateHeaders(route), None, url, None, route.description);
    if route.httpMethod == "POST" || route.httpMethod == "PUT" || route.httpMethod == "PATCH" {
      request := request.(body := Some(CreateBody(g, route)));
    }
    if !route.requiresAuth {
      request := request.(auth := Some(Auth("noauth", [])));
    }
    item := Item(GenerateName(route), "", [], Some(request), []);
    if route.httpMethod == "POST" && Contains(route.path, "/auth/login") {
      item := item.(events := [SaveTokenEvent]);
    }
  }

  /**
   * What a request item promises: a body exactly for POST, PUT and PATCH; the
   * `noauth` override exactly when the route needs no authentication (the
   * collection's bearer token applies otherwise); the token script exactly on
   * a POST to a login path.
   */
  lemma RequestShape(g: Generator, route: RouteInfo)
    ensures var item := RequestItem(g, route);
            && item.request.Some?
            && item.name == GenerateName(route)
            && (item.request.value.body.Some? <==> SendsBody(route.httpMethod))
            && (item.request.value.body.Some? ==> item.request.value.body.value == CreateBody(g, route))
            && (item.request.value.auth == Some(NoAuth) <==> !route.requiresAuth)
            && (item.request.value.auth.Some? ==> item.request.value.auth.value.kind == "noauth")
            && (item.events != [] <==> route.httpMethod == "POST" && Contains(route.path, "/auth/login"))
            && (item.events != [] ==> item.events == [SaveTokenEvent])
            && item.request.value.header[0] == ContentTypeHeader
            && (AuthorizationHeader in item.request.value.header <==> route.requiresAuth)
  {
  }

  // ----------------------------------------------------------------- folders

  /**
   * `strings.Title` on ASCII: a letter is upper-cased when it starts the
   * string or follows a separator, anything but a letter, digit or `_`.
   */
  predicate IsSeparator(c: char) {
    if c as int < 0x80 then
      !(('a' <= c <= 'z') || ('A' <= c <= 'Z') || ('0' <= c <= '9') || c == '_')
    else c in Whitespace
  }

  function Title(s: string): (r: string)
    ensures |r| == |s|
    ensures forall k :: 0 <= k < |s| && (k == 0 || IsSeparator(s[k - 1])) ==> r[k] == UpperChar(s[k])
  {
    seq(|s|, k requires 0 <= k < |s| => if k == 0 || IsSeparator(s[k - 1]) then UpperChar(s[k]) else s[k])
  }

  /** Title-casing changes only letter case, and only at the start of words. */
  lemma TitleChangesOnlyCase(s: string)
    ensures ToLower(Title(s)) == ToLower(s)
    ensures forall k :: 0 < k < |s| && !IsSeparator(s[k - 1]) ==> Title(s)[k] == s[k]
  {
    var r := Title(s);
    forall k | 0 <= k < |s| ensures LowerChar(r[k]) == LowerChar(s[k]) {
      UpperThenLower(s[k]);
    }
    assert ToLower(r) == ToLower(s);
    forall k | 0 < k < |s| && !IsSeparator(s[k - 1]) ensures r[k] == s[k] {
    }
  }

  /** A lower-case letter at a word start becomes the capital that lowers back to it. */
  lemma UpperCapitalises(c: char)
    requires 'a' <= c <= 'z'
    ensures 'A' <= UpperChar(c) <= 'Z' && LowerChar(UpperChar(c)) == c
  {
  }

  /** A folder prefix gets its capital: "article" becomes "Article". */
  lemma TitleOfPrefix()
    ensures Title("article") == "Article"
  {
    var r := Title("article");
    assert r[0] == UpperChar('a') == 'A';
    forall k | 1 <= k < 7 ensures r[k] == "article"[k] {
      assert !IsSeparator("article"[k - 1]);
    }
  }

  /** Every word of a spaced name gets its capital: "user roles" becomes "User Roles". */
  lemma TitleOfWords()
    ensures Title("user roles") == "User Roles"
  {
    var s := "user roles";
    var r := Title(s);
    assert r[0] == 'U' && r[5] == 'R' by { assert IsSeparator(s[4]); }
    forall k | 0 <= k < 10 && k != 0 && k != 5 ensures r[k] == "User Roles"[k] {
      assert !IsSeparator(s[k - 1]);
    }
  }

  lemma UpperThenLower(c: char)
    ensures LowerChar(UpperChar(c)) == LowerChar(c)
  {
  }

  function FolderDescription(prefix: string): string {
    "Endpoints for " + prefix + " management"
  }

  /** `createRequest` as a function value, for the folder's loop. */
  function RequestFor(g: Generator): RouteInfo -> Item {
    route => RequestItem(g, route)
  }

  /** The folder `createFolder` builds: one request item per route, in route order. */
  function FolderOf(g: Generator, prefix: string, routes: seq<RouteInfo>): Item {
    Item(Title(prefix), FolderDescription(prefix), Mapped(routes, RequestFor(g)), None, [])
  }

  /** `createFolder`: the folder named after the prefix, with the routes' request items. */
  method CreateFolder(g: Generator, prefix: string, routes: seq<RouteInfo>) returns (folder: Item)
    ensures folder == FolderOf(g, prefix, routes)
  {
    var items: seq<Item> := [];
    var i := 0;
    while i < |routes|
      invariant 0 <= i <= |routes|
      invariant items == Mapped(routes[..i], RequestFor(g))
    {
      var item := CreateRequest(g, routes[i]);
      MappedSnoc(routes, RequestFor(g), i);
      items := items + [item];
      i := i + 1;
    }
    assert routes[..i] == routes;
    folder := Item(Title(prefix), "Endpoints for " + prefix + " management", items, None, []);
  }

  /** A folder is no request, and holds one request item per route, in route order. */
  lemma FolderItems(g: Generator, prefix: string, routes: seq<RouteInfo>)
    ensures var folder := FolderOf(g, prefix, routes);
            && folder.request.None? && folder.name == Title(prefix)
            && |folder.items| == |routes|
            && forall i :: 0 <= i < |routes| ==> folder.items[i] == RequestItem(g, routes[i])
  {
    forall i | 0 <= i < |routes|
      ensures Mapped(routes, RequestFor(g))[i] == RequestItem(g, routes[i])
    {
      MappedAt(routes, RequestFor(g), i);
    }
  }

  /** The routes under a prefix; like a Go map lookup, none for a prefix that is not a key. */
  function RoutesUnder(grouped: map<string, seq<RouteInfo>>, prefix: string): seq<RouteInfo> {
    if prefix in grouped then grouped[prefix] else []
  }

  /** `createFolder` on the routes under each prefix, as a function value for the collection's loop. */
  function FolderFor(g: Generator, grouped: map<string, seq<RouteInfo>>): string -> Item {
    prefix => FolderOf(g, prefix, RoutesUnder(grouped, prefix))
  }

  // -------------------------------------------------------------- collection

  const CollectionAuth := Auth("bearer", [AuthKeyValue("token", "{{token}}", "string")])

  /**
   * The loop of `Generate` over the grouped routes: one folder per prefix,
   * in the order the `range` over the map visits the prefixes.
   */
  method CreateFolders(g: Generator, grouped: map<string, seq<RouteInfo>>, order: seq<string>) returns (items: seq<Item>)
    requires forall p :: p in order ==> p in grouped
    ensures |items| == |order|
    ensures items == Mapped(order, FolderFor(g, grouped))
  {
    items := [];
    for i := 0 to |order|
      invariant items == Mapped(order[..i], FolderFor(g, grouped))
    {
      var folder := CreateFolder(g, order[i], grouped[order[i]]);
      MappedSnoc(order, FolderFor(g, grouped), i);
      items := items + [folder];
    }
    assert order[..|order|] == order;
  }

  /**
   * `Generate`: collect and group the routes, then one folder per prefix,
   * in the order the map's `range` visited them, reported as `order`. The
   * error result is always nil and is not modelled.
   */
  method Generate(g: Generator, router: seq<MuxRoute>) returns (collection: Collection, order: seq<string>)
    ensures collection.info == Info(g.collectionName, g.description, Schema, g.version)
    ensures collection.auth == Some(CollectionAuth)
    ensures var grouped := GroupedBy(AllInfos(router), PrefixOf, Itself);
            && |collection.items| == |order|
            && (forall i, j :: 0 <= i < j < |order| ==> order[i] != order[j])
            && (forall p :: p in order <==> p in grouped)
            && collection.items == Mapped(order, FolderFor(g, grouped))
  {
    var collector := new RouteCollector();
    var _ := collector.CollectRoutes(router);
    var grouped := collector.GroupByPrefix();
    assert [] + AllInfos(router) == AllInfos(router);
    order := RangeOrder(grouped);
    var items := CreateFolders(g, grouped, order);
    collection := Collection(Info(g.collectionName, g.description, Schema, g.version), items, Some(CollectionAuth));
  }
}
