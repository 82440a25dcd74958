/**
 * The OpenAPI 3.1 document synthesiser (`generateOpenAPISpec`) and the
 * module-level stores it reads: the five method sets of `Routes`, the
 * `Metadata` overrides and the `Components` schemas, gathered in `Registry`.
 */
module OpenApi {
  import opened Wrappers
  import opened Strings
  import opened OperationId
  import opened Canonical

  /** An opaque JSON payload (a schema, a response, ...): passed through unchanged. */
  datatype Json =
    | Null
    | Bool(b: bool)
    | Num(n: int)
    | Str(s: string)
    | Arr(items: seq<Json>)
    | Obj(members: map<string, Json>)

  /**
   * The top-level fields of a JSON object by name. Spreading `o` over `d`
   * (`{...d, ...o}`) is the map union `d + o`: the fields of `o` win.
   */
  type Fields = map<string, Json>

  datatype Method = Get | Put | Post | Delete | Patch {
    /** The key of the method in `Routes` and in a path item. */
    function Name(): string {
      match this
      case Get => "get"
      case Put => "put"
      case Post => "post"
      case Delete => "delete"
      case Patch => "patch"
    }
  }

  /** The contents of the five sets of `Routes`, each in insertion order. */
  datatype Routes = Routes(get: seq<Pattern>, put: seq<Pattern>, post: seq<Pattern>,
                           delete: seq<Pattern>, patch: seq<Pattern>)
  {
    function Of(m: Method): seq<Pattern> {
      match m
      case Get => get
      case Put => put
      case Post => post
      case Delete => delete
      case Patch => patch
    }

    /** The same routes with the set of `m` replaced by `items`. */
    function Replace(m: Method, items: seq<Pattern>): (r: Routes)
      ensures r.Of(m) == items
      ensures forall n :: n != m ==> r.Of(n) == Of(n)
    {
      match m
      case Get => this.(get := items)
      case Put => this.(put := items)
      case Post => this.(post := items)
      case Delete => this.(delete := items)
      case Patch => this.(patch := items)
    }

    /** `Object.values(Routes).map(it => Array.from(it.values())).flat()`. */
    function All(): (r: seq<Pattern>)
      ensures forall p :: p in r <==> exists m :: p in Of(m)
    {
      var r := get + put + post + delete + patch;
      assert forall p :: p in r ==> p in Of(Get) || p in Of(Put) || p in Of(Post) || p in Of(Delete) || p in Of(Patch);
      r
    }
  }

  const NoRoutes := Routes([], [], [], [], [])

  // ------------------------------------------------------------ header

  datatype License = MIT | Apache2

  datatype LicenseObject = LicenseObject(identifier: string, name: string, url: string)

  /** The `license` option: a `License` enum member or a license object. */
  datatype LicenseOption = Known(license: License) | Given(given: LicenseObject)

  /** `LicenseMap`. */
  function LicenseMap(l: License): (r: LicenseObject)
    ensures l == MIT ==>
      r.identifier == "MIT" && r.name == "MIT License" && r.url == "https://opensource.org/licenses/MIT"
    ensures l == Apache2 ==>
      r.identifier == "Apache-2.0" && r.name == "Apache License 2.0" &&
      r.url == "https://www.apache.org/licenses/LICENSE-2.0"
  {
    match l
    case MIT => LicenseObject("MIT", "MIT License", "https://opensource.org/licenses/MIT")
    case Apache2 => LicenseObject("Apache-2.0", "Apache License 2.0", "https://www.apache.org/licenses/LICENSE-2.0")
  }

  datatype Server = Server(url: string, description: string, variables: Fields)

  /** A `Partial<ServerObject>`: `None` is a field the caller left out. */
  datatype PartialServer = PartialServer(url: Option<string>, description: Option<string>, variables: Option<Fields>)

  const DefaultServer := Server("https://example.one/api", "Example server", map[])

  /** `{ url: ..., description: ..., variables: {}, ...item }`. */
  function Overlay(item: PartialServer): (r: Server)
    ensures item.url.Some? ==> r.url == item.url.value
    ensures item.url.None? ==> r.url == DefaultServer.url
    ensures item.description.Some? ==> r.description == item.description.value
    ensures item.description.None? ==> r.description == DefaultServer.description
    ensures item.variables.Some? ==> r.variables == item.variables.value
    ensures item.variables.None? ==> r.variables == DefaultServer.variables
  {
    Server(item.url.GetOr(DefaultServer.url), item.description.GetOr(DefaultServer.description),
           item.variables.GetOr(DefaultServer.variables))
  }

  /**
   * `(options.servers ?? [{}]).map(...)`: one default server when none are
   * given, otherwise each given partial over the default, in order.
   */
  function Servers(supplied: Option<seq<PartialServer>>): (r: seq<Server>)
    ensures supplied.None? ==> r == [DefaultServer]
    ensures supplied.Some? ==> |r| == |supplied.value|
    ensures supplied.Some? ==> forall i :: 0 <= i < |r| ==> r[i] == Overlay(supplied.value[i])
  {
    match supplied
    case None => [Overlay(PartialServer(None, None, None))]
    case Some(items) => MapOverlay(items)
  }

  function MapOverlay(items: seq<PartialServer>): (r: seq<Server>)
    ensures |r| == |items| && forall i :: 0 <= i < |r| ==> r[i] == Overlay(items[i])
  {
    if items == [] then [] else [Overlay(items[0])] + MapOverlay(items[1..])
  }

  /** The recognised fields of the options argument; `None` is an absent field. */
  datatype Options = Options(title: Option<string>, version: Option<string>,
                             license: Option<LicenseOption>, servers: Option<seq<PartialServer>>)

  const NoOptions := Options(None, None, None, None)

  datatype Info = Info(title: string, version: string, license: Option<LicenseObject>)

  /**
   * The `info` object: title and version default to "Example API" and
   * "1.0.0"; an enum license goes through `LicenseMap`, a license object
   * passes unchanged, and an absent one stays absent.
   */
  function InfoOf(options: Options): (r: Info)
    ensures r.title == if options.title.Some? then options.title.value else "Example API"
    ensures r.version == if options.version.Some? then options.version.value else "1.0.0"
    ensures options.license.None? ==> r.license.None?
    ensures options.license.Some? && options.license.value.Known? ==>
      r.license == Some(LicenseMap(options.license.value.license))
    ensures options.license.Some? && options.license.value.Given? ==>
      r.license == Some(options.license.value.given)
  {
    var license :=
      match options.license
      case None => None
      case Some(Known(l)) => Some(LicenseMap(l))
      case Some(Given(o)) => Some(o);
    Info(options.title.GetOr("Example API"), options.version.GetOr("1.0.0"), license)
  }

  datatype SecurityScheme = SecurityScheme(kind: string, scheme: string, bearerFormat: string)

  /** The fixed `jwtAuth` scheme: HTTP bearer tokens in JWT format. */
  const JwtAuth := SecurityScheme("http", "bearer", "JWT")

  datatype Components = Components(schemas: map<string, Json>, securitySchemes: map<string, SecurityScheme>)

  // ------------------------------------------------------------ paths

  /** A path item: one operation per method present. */
  type PathItem = map<Method, Fields>

  datatype PathEntry = PathEntry(path: string, item: PathItem)

  datatype Document = Document(openapi: string, servers: seq<Server>, components: Components,
                               info: Info, paths: seq<PathEntry>)

  /** `{ operationId: m + pathToString(path), responses: {}, security: [] }`. */
  function DefaultOperation(m: Method, path: string, pascal: string -> string): Fields {
    map["operationId" := Str(m.Name() + PathToString(pascal, path)),
        "responses" := Obj(map[]),
        "security" := Arr([])]
  }

  /** `Metadata.get(found)`, where a missing entry spreads as nothing. */
  function OverrideFor(metadata: map<Pattern, Fields>, found: Pattern): Fields {
    if found in metadata then metadata[found] else map[]
  }

  /**
   * The operation for method `m` on `path`, `found` being the pattern the
   * lookup returned: the default with the override of `found` spread over it,
   * field by field at the top level.
   */
  function Operation(metadata: map<Pattern, Fields>, m: Method, path: string, found: Pattern,
                     pascal: string -> string): Fields
  {
    DefaultOperation(m, path, pascal) + OverrideFor(metadata, found)
  }

  /** One `if (xPattern) { obj.x = {...} }` step of the `paths` callback, for method `m`. */
  function WithOperation(item: PathItem, routes: Routes, metadata: map<Pattern, Fields>, m: Method,
                         path: string, pascal: string -> string): PathItem
  {
    match FirstWithPathname(routes.Of(m), path)
    case None => item
    case Some(found) => item[m := Operation(metadata, m, path, found, pascal)]
  }

  /**
   * A step for method `step` adds the operation for `step` when `hasInSet`
   * finds `path` in its set, and leaves every other method as it was.
   */
  lemma WithOperationFields(item: PathItem, routes: Routes, metadata: map<Pattern, Fields>, step: Method,
                            m: Method, path: string, pascal: string -> string)
    ensures var r := WithOperation(item, routes, metadata, step, path, pascal);
      var found := FirstWithPathname(routes.Of(step), path);
      var added := m == step && found.Some?;
      (m in r <==> m in item || added) &&
      (m in r ==> r[m] == if added then Operation(metadata, m, path, found.value, pascal) else item[m])
  {
  }

  /** The path item built for `path`: the five steps, in the order get, put, post, delete, patch. */
  function PathItemOf(routes: Routes, metadata: map<Pattern, Fields>, path: string,
                      pascal: string -> string): PathItem
  {
    var empty: PathItem := map[];
    var withGet := WithOperation(empty, routes, metadata, Get, path, pascal);
    var withPut := WithOperation(withGet, routes, metadata, Put, path, pascal);
    var withPost := WithOperation(withPut, routes, metadata, Post, path, pascal);
    var withDelete := WithOperation(withPost, routes, metadata, Delete, path, pascal);
    WithOperation(withDelete, routes, metadata, Patch, path, pascal)
  }

  /**
   * A path item has a field for `m` exactly when `hasInSet` finds `path` in
   * the set of `m`, and that field is the operation for the pattern found.
   */
  lemma PathItemFields(routes: Routes, metadata: map<Pattern, Fields>, path: string,
                       pascal: string -> string, m: Method)
    ensures var item := PathItemOf(routes, metadata, path, pascal);
      var found := FirstWithPathname(routes.Of(m), path);
      (m in item <==> found.Some?) &&
      (m in item ==> item[m] == Operation(metadata, m, path, found.value, pascal))
  {
    var empty: PathItem := map[];
    var withGet := WithOperation(empty, routes, metadata, Get, path, pascal);
    var withPut := WithOperation(withGet, routes, metadata, Put, path, pascal);
    var withPost := WithOperation(withPut, routes, metadata, Post, path, pascal);
    var withDelete := WithOperation(withPost, routes, metadata, Delete, path, pascal);
    var item := WithOperation(withDelete, routes, metadata, Patch, path, pascal);
    assert item == PathItemOf(routes, metadata, path, pascal);
    WithOperationFields(empty, routes, metadata, Get, m, path, pascal);
    WithOperationFields(withGet, routes, metadata, Put, m, path, pascal);
    WithOperationFields(withPut, routes, metadata, Post, m, path, pascal);
    WithOperationFields(withPost, routes, metadata, Delete, m, path, pascal);
    WithOperationFields(withDelete, routes, metadata, Patch, m, path, pascal);
    match m
    case Get =>
    case Put =>
    case Post =>
    case Delete =>
    case Patch =>
  }

  /** `Object.fromEntries(paths.map(path => [path, item]))`, in order. */
  function PathEntries(routes: Routes, metadata: map<Pattern, Fields>, paths: seq<string>,
                       pascal: string -> string): (r: seq<PathEntry>)
    ensures |r| == |paths|
    ensures forall k :: 0 <= k < |r| ==>
      r[k] == PathEntry(paths[k], PathItemOf(routes, metadata, paths[k], pascal))
  {
    if paths == [] then []
    else
      var last := paths[|paths| - 1];
      PathEntries(routes, metadata, paths[..|paths| - 1], pascal) +
        [PathEntry(last, PathItemOf(routes, metadata, last, pascal))]
  }

  /** The `paths` object: one entry per unique path, in the order of `getUniquePaths`. */
  function Paths(routes: Routes, metadata: map<Pattern, Fields>, pascal: string -> string): seq<PathEntry> {
    PathEntries(routes, metadata, UniquePaths(routes.All()), pascal)
  }

  /** The document `generateOpenAPISpec(options)` returns for the given stores. */
  function Generate(routes: Routes, metadata: map<Pattern, Fields>, schemas: map<string, Json>,
                    options: Options, pascal: string -> string): (r: Document)
    ensures r.openapi == "3.1.0"
    ensures r.info == InfoOf(options) && r.servers == Servers(options.servers)
    ensures r.components.schemas == schemas && r.components.securitySchemes == map["jwtAuth" := JwtAuth]
    ensures var unique := UniquePaths(routes.All());
      |r.paths| == |unique| &&
      forall k :: 0 <= k < |r.paths| ==>
        r.paths[k].path == unique[k] && r.paths[k].item == PathItemOf(routes, metadata, unique[k], pascal)
  {
    Document("3.1.0",
             Servers(options.servers),
             Components(schemas, map["jwtAuth" := JwtAuth]),
             InfoOf(options),
             Paths(routes, metadata, pascal))
  }

  // ------------------------------------------------------------ properties

  /** A path is registered for `m` when some pattern in the set of `m` has it. */
  predicate Registered(routes: Routes, m: Method, path: string) {
    exists p :: p in routes.Of(m) && p.pathname == path
  }

  /** `path` is a key of the `paths` object. */
  predicate HasKey(paths: seq<PathEntry>, path: string) {
    exists k :: 0 <= k < |paths| && paths[k].path == path
  }

  /** A pathname is among the unique paths exactly when some method registers it. */
  lemma UniqueIffRegistered(routes: Routes, t: string)
    ensures t in UniquePaths(routes.All()) <==> exists m :: Registered(routes, m, t)
  {
    UniquePathsSpec(routes.All());
    if t in UniquePaths(routes.All()) {
      var p :| p in routes.All() && p.pathname == t;
      var m :| p in routes.Of(m);
      assert Registered(routes, m, t);
    } else {
      forall m ensures !Registered(routes, m, t) {
        forall p | p in routes.Of(m) ensures p.pathname != t {
          assert p in routes.All();
        }
      }
    }
  }

  /**
   * The `paths` keys are exactly the unique paths, in order, so they are
   * strictly ascending and free of duplicates.
   */
  lemma PathKeys(routes: Routes, metadata: map<Pattern, Fields>, pascal: string -> string)
    ensures var paths := Paths(routes, metadata, pascal);
      var u := UniquePaths(routes.All());
      |paths| == |u| &&
      (forall k :: 0 <= k < |u| ==> paths[k].path == u[k]) &&
      (forall i, j :: 0 <= i < j < |paths| ==> Below(paths[i].path, paths[j].path))
  {
    UniquePathsSpec(routes.All());
  }

  /**
   * Synthesis neither invents nor loses a template: a template is a key of
   * `paths` exactly when some method registers it.
   */
  lemma KeysAreRegistered(routes: Routes, metadata: map<Pattern, Fields>, pascal: string -> string, t: string)
    ensures HasKey(Paths(routes, metadata, pascal), t) <==> exists m :: Registered(routes, m, t)
  {
    var u := UniquePaths(routes.All());
    var paths := Paths(routes, metadata, pascal);
    assert |paths| == |u| && forall k :: 0 <= k < |u| ==> paths[k].path == u[k];
    UniqueIffRegistered(routes, t);
    if t in u {
      var k :| 0 <= k < |u| && u[k] == t;
      assert paths[k].path == t;
    }
    if HasKey(paths, t) {
      var k :| 0 <= k < |paths| && paths[k].path == t;
      assert u[k] == t;
    }
  }

  /**
   * A path item has a field for method `m` exactly when its template is
   * registered under `m`: no unregistered method appears and none is lost.
   */
  lemma MethodPresence(routes: Routes, metadata: map<Pattern, Fields>, pascal: string -> string)
    ensures var paths := Paths(routes, metadata, pascal);
      forall k, m :: 0 <= k < |paths| ==>
        (m in paths[k].item <==> Registered(routes, m, paths[k].path))
  {
    var paths := Paths(routes, metadata, pascal);
    forall k, m | 0 <= k < |paths|
      ensures m in paths[k].item <==> Registered(routes, m, paths[k].path)
    {
      PathItemFields(routes, metadata, paths[k].path, pascal, m);
    }
  }

  /** The path item for `path` in `paths` has a field for `m`. */
  predicate HasOperation(paths: seq<PathEntry>, path: string, m: Method) {
    exists k :: 0 <= k < |paths| && paths[k].path == path && m in paths[k].item
  }

  /**
   * Round trip: scanning `paths` for present method fields recovers exactly
   * the registered (method, pathname) pairs.
   */
  lemma RoundTrip(routes: Routes, metadata: map<Pattern, Fields>, pascal: string -> string,
                  m: Method, t: string)
    ensures HasOperation(Paths(routes, metadata, pascal), t, m) <==> Registered(routes, m, t)
  {
    var paths := Paths(routes, metadata, pascal);
    if HasOperation(paths, t, m) {
      var k :| 0 <= k < |paths| && paths[k].path == t && m in paths[k].item;
      PathItemFields(routes, metadata, t, pascal, m);
    }
    if Registered(routes, m, t) {
      KeysAreRegistered(routes, metadata, pascal, t);
      var k :| 0 <= k < |paths| && paths[k].path == t;
      PathItemFields(routes, metadata, t, pascal, m);
      assert m in paths[k].item;
    }
  }

  /**
   * The operation for `m` on `path` with `found` the pattern `hasInSet`
   * returned: `operationId`, `responses` and `security` are always present and
   * each takes the value the override of `found` gives it, if any, and the
   * default otherwise. The derived operation id starts with the method name,
   * so it is never empty. Every top-level field of the override reaches the
   * operation unchanged, and the operation has no field besides those and the
   * three defaults.
   */
  lemma OperationFields(metadata: map<Pattern, Fields>, m: Method, path: string, found: Pattern,
                        pascal: string -> string)
    ensures var op := Operation(metadata, m, path, found, pascal);
      var o := OverrideFor(metadata, found);
      var id := m.Name() + PathToString(pascal, path);
      "operationId" in op && "responses" in op && "security" in op &&
      op["operationId"] == (if "operationId" in o then o["operationId"] else Str(id)) &&
      op["responses"] == (if "responses" in o then o["responses"] else Obj(map[])) &&
      op["security"] == (if "security" in o then o["security"] else Arr([])) &&
      |id| > 0 && id[..|m.Name()|] == m.Name() &&
      (forall k :: k in o ==> k in op && op[k] == o[k]) &&
      (forall k :: k in op <==> k in o || k == "operationId" || k == "responses" || k == "security")
  {
  }

  /**
   * Called with no options, the document has the default title and version,
   * no license and the single default server.
   */
  lemma DefaultHeader(routes: Routes, metadata: map<Pattern, Fields>, schemas: map<string, Json>,
                      pascal: string -> string)
    ensures var d := Generate(routes, metadata, schemas, NoOptions, pascal);
      d.openapi == "3.1.0" &&
      d.info == Info("Example API", "1.0.0", None) &&
      d.servers == [Server("https://example.one/api", "Example server", map[])] &&
      d.components.schemas == schemas &&
      d.components.securitySchemes == map["jwtAuth" := SecurityScheme("http", "bearer", "JWT")]
  {
  }

  /** With no registered routes the document has no paths. */
  lemma NoRoutesNoPaths(metadata: map<Pattern, Fields>, pascal: string -> string)
    ensures Paths(NoRoutes, metadata, pascal) == []
  {
  }

  // ------------------------------------------------------------ the stores

  /**
   * The module-level state: `Routes`, `Metadata` and `Components`.
   * Registration changes it; generating a document only reads it.
   */
  class Registry {
    var routes: Routes
    var metadata: map<Pattern, Fields>
    var components: map<string, Json>

    /** Each method set holds a pattern at most once. */
    ghost predicate Valid()
      reads this
    {
      forall m, i, j :: 0 <= i < j < |routes.Of(m)| ==> routes.Of(m)[i] != routes.Of(m)[j]
    }

    constructor ()
      ensures Valid()
      ensures routes == NoRoutes && metadata == map[] && components == map[]
    {
      routes := NoRoutes;
      metadata := map[];
      components := map[];
    }

    /**
     * `Routes[m].add(p)`: appends `p` to the set of `m` unless it is there
     * already, in which case nothing changes.
     */
    method Add(m: Method, p: Pattern)
      requires Valid()
      modifies this
      ensures Valid()
      ensures p in old(routes.Of(m)) ==> routes == old(routes)
      ensures p !in old(routes.Of(m)) ==> routes == old(routes).Replace(m, old(routes.Of(m)) + [p])
      ensures metadata == old(metadata) && components == old(components)
    {
      if p !in routes.Of(m) {
        routes := routes.Replace(m, routes.Of(m) + [p]);
      }
    }

    /** `Metadata.set(p, o)`. */
    method SetMetadata(p: Pattern, o: Fields)
      requires Valid()
      modifies this
      ensures Valid()
      ensures metadata == old(metadata)[p := o]
      ensures routes == old(routes) && components == old(components)
    {
      metadata := metadata[p := o];
    }

    /** `Components.set(name, schema)`. */
    method SetComponent(name: string, schema: Json)
      requires Valid()
      modifies this
      ensures Valid()
      ensures components == old(components)[name := schema]
      ensures routes == old(routes) && metadata == old(metadata)
    {
      components := components[name := schema];
    }

    /**
     * `const xPattern = hasInSet(Routes.x, pattern); if (xPattern) { obj.x = {...} }`
     * for method `m`.
     */
    method AddOperation(item: PathItem, m: Method, path: string, pascal: string -> string)
      returns (r: PathItem)
      ensures r == WithOperation(item, routes, metadata, m, path, pascal)
    {
      var found := HasInSet(routes.Of(m), path);
      r := item;
      if found.Some? {
        r := r[m := Operation(metadata, m, path, found.value, pascal)];
      }
    }

    /**
     * The body of the `paths` callback: a path item holding an operation for
     * each method whose set `hasInSet` finds `path` in.
     */
    method BuildPathItem(path: string, pascal: string -> string) returns (item: PathItem)
      ensures item == PathItemOf(routes, metadata, path, pascal)
    {
      item := map[];
      item := AddOperation(item, Get, path, pascal);
      item := AddOperation(item, Put, path, pascal);
      item := AddOperation(item, Post, path, pascal);
      item := AddOperation(item, Delete, path, pascal);
      item := AddOperation(item, Patch, path, pascal);
    }

    /**
     * `generateOpenAPISpec(options)`: one path item per unique path, in
     * order, around the servers, components and info of the header.
     */
    method GenerateOpenAPISpec(options: Options, pascal: string -> string) returns (doc: Document)
      ensures doc == Generate(routes, metadata, components, options, pascal)
    {
      var paths := UniquePaths(routes.All());
      var entries: seq<PathEntry> := [];
      for i := 0 to |paths|
        invariant entries == PathEntries(routes, metadata, paths[..i], pascal)
      {
        var item := BuildPathItem(paths[i], pascal);
        assert paths[..i + 1][..i] == paths[..i];
        entries := entries + [PathEntry(paths[i], item)];
      }
      assert paths[..|paths|] == paths;
      doc := Document("3.1.0",
                      Servers(options.servers),
                      Components(components, map["jwtAuth" := JwtAuth]),
                      InfoOf(options),
                      entries);
    }
  }
}
