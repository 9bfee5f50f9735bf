/**
 * The formatter manager: a registry of the four output formats, the OpenAPI 3.0.0 document
 * builder, the Markdown builder, and `format`, which runs the selected formatters and
 * writes one file per format. The file system is an output: `Format` returns the writes it
 * performs instead of performing them.
 */
module Formatting {
  import opened Wrappers
  import opened Text
  import opened Dict
  import opened Model
  import opened FormatRules

  datatype Info = Info(title: string, description: string, version: string)

  /** The options the formatters read; an absent field is `undefined`. */
  datatype Options = Options(title: Option<string>, description: Option<string>,
                             version: Option<string>, out: Option<string>)

  /** Destructuring defaults: each applies only when the field is `undefined`. */
  function InfoOf(options: Options): Info {
    Info(options.title.GetOr("API Documentation"),
         options.description.GetOr("Auto-generated API documentation"),
         options.version.GetOr("1.0.0"))
  }

  /** The OpenAPI 3.0.0 document: `paths` and `components.schemas`. */
  datatype SwaggerDoc = SwaggerDoc(openapi: string, info: Info,
                                   paths: Dict<Dict<Operation>>, schemas: Dict<Schema>)

  /** The schemas of every DTO, in `Object.keys` order. */
  function SchemasOfDtos(dtos: Dict<Dto>): Dict<Schema> {
    SchemasOf(ObjectKeys(dtos.order), dtos)
  }

  /** The document `formatSwagger` builds. */
  function DocumentOf(data: ScanResult, options: Options): SwaggerDoc {
    SwaggerDoc("3.0.0", InfoOf(options), PathsOf(data.routes, data.dtos), SchemasOfDtos(data.dtos))
  }

  /** The Markdown `formatMarkdown` builds. */
  function MarkdownText(data: ScanResult, options: Options): string {
    MarkdownOf(data.routes, options.title.GetOr("API Documentation"),
               options.description.GetOr("Auto-generated API documentation"))
  }

  /** The registered formatters. */
  datatype FormatKind = Swagger | Markdown | OpenAPI | Json

  /** The key each formatter is registered under. */
  function Name(f: FormatKind): string {
    match f
    case Swagger => "swagger"
    case Markdown => "markdown"
    case OpenAPI => "openapi"
    case Json => "json"
  }

  /** The registered keys, in registration order. */
  const FormatNames: seq<string> := ["swagger", "markdown", "openapi", "json"]

  /** The registry after `registerFormatters`. */
  function Registry(): (d: Dict<FormatKind>)
    ensures d.Valid()
  {
    SetValid(Empty<FormatKind>().Set("swagger", Swagger), "markdown", Markdown);
    SetValid(Empty<FormatKind>().Set("swagger", Swagger).Set("markdown", Markdown), "openapi", OpenAPI);
    Empty<FormatKind>().Set("swagger", Swagger).Set("markdown", Markdown).Set("openapi", OpenAPI).Set("json", Json)
  }

  /** `format === 'all' || format === name`: the formatter when the key selects it. */
  function Pick(format: string, f: FormatKind): seq<FormatKind> {
    if format == "all" || format == Name(f) then [f] else []
  }

  /** The formatters `format` runs for the requested key, in the order of its four tests. */
  function Selected(format: string): seq<FormatKind> {
    Pick(format, Swagger) + Pick(format, Markdown) + Pick(format, OpenAPI) + Pick(format, Json)
  }

  /** The file each formatter's output is written to. */
  function FileName(f: FormatKind): string {
    match f
    case Swagger => "swagger.json"
    case Markdown => "api-documentation.md"
    case OpenAPI => "openapi.json"
    case Json => "api-data.json"
  }

  /** `options.out || './api-docs'`. */
  function OutDir(options: Options): string {
    if options.out.Some? && options.out.value != "" then options.out.value else "./api-docs"
  }

  /** A file inside a directory: the pair `path.join(dir, file)` is built from. */
  datatype Target = Target(dir: string, file: string)

  /** Where a formatter's output goes. */
  function OutputPath(options: Options, f: FormatKind): Target {
    Target(OutDir(options), FileName(f))
  }

  /** What is written to a formatter's file: a document (serialised as JSON), the Markdown
      text, or the scan data itself (serialised as JSON). */
  datatype Output = Document(doc: SwaggerDoc) | Text(text: string) | Data(data: ScanResult)

  function OutputOf(f: FormatKind, data: ScanResult, options: Options): Output {
    match f
    case Swagger => Document(DocumentOf(data, options))
    case Markdown => Text(MarkdownText(data, options))
    case OpenAPI => Document(DocumentOf(data, options))
    case Json => Data(data)
  }

  /** The writes for the given formatters, in order: each output to its file. */
  function Writes(fs: seq<FormatKind>, data: ScanResult, options: Options): (w: seq<(Target, Output)>)
    ensures |w| == |fs|
    ensures forall i :: 0 <= i < |fs| ==> w[i].0 == OutputPath(options, fs[i])
    decreases |fs|
  {
    if fs == [] then []
    else
      var last := fs[|fs| - 1];
      Writes(fs[..|fs| - 1], data, options) + [(OutputPath(options, last), OutputOf(last, data, options))]
  }

  /** The `results` object: each formatter's file path under its key. */
  function ResultPaths(fs: seq<FormatKind>, options: Options): (d: Dict<Target>)
    ensures forall f :: f in fs ==> d.Has(Name(f)) && d.Get(Name(f)) == OutputPath(options, f)
    decreases |fs|
  {
    if fs == [] then Empty()
    else
      var last := fs[|fs| - 1];
      assert fs == fs[..|fs| - 1] + [last];
      ResultPaths(fs[..|fs| - 1], options).Set(Name(last), OutputPath(options, last))
  }

  class FormatterManager {
    var formatters: Dict<FormatKind>

    ghost predicate Valid()
      reads this
    {
      formatters == Registry()
    }

    constructor ()
      ensures Valid()
    {
      formatters := Empty();
      new;
      RegisterFormatters();
    }

    /** `registerFormatters`: `swagger`, `markdown`, `openapi`, `json`. */
    method RegisterFormatters()
      modifies this`formatters
      ensures formatters == old(formatters).Set("swagger", Swagger).Set("markdown", Markdown)
                              .Set("openapi", OpenAPI).Set("json", Json)
    {
      formatters := formatters.Set("swagger", Swagger);
      formatters := formatters.Set("markdown", Markdown);
      formatters := formatters.Set("openapi", OpenAPI);
      formatters := formatters.Set("json", Json);
    }

    /** `listAvailableFormats`: the keys in registration order. */
    function ListAvailableFormats(): (names: seq<string>)
      reads this
      requires Valid()
      ensures names == FormatNames
    {
      formatters.order
    }

    /** `formatSwagger`: one operation per route under its path and lower-cased method, and
        one schema per DTO. */
    method FormatSwagger(data: ScanResult, options: Options) returns (doc: SwaggerDoc)
      ensures doc == DocumentOf(data, options)
    {
      var paths: Dict<Dict<Operation>> := Empty();
      for i := 0 to |data.routes|
        invariant paths.Valid()
        invariant paths == PathsOf(data.routes[..i], data.dtos)
      {
        assert data.routes[..i + 1][..i] == data.routes[..i];
        paths := AddRoute(paths, data.routes[i], data.dtos);
      }
      assert data.routes[..|data.routes|] == data.routes;
      var schemas := Schemas(data.dtos);
      doc := SwaggerDoc("3.0.0", InfoOf(options), paths, schemas);
    }

    /** `formatOpenAPI`: the same document. */
    method FormatOpenAPI(data: ScanResult, options: Options) returns (doc: SwaggerDoc)
      ensures doc == DocumentOf(data, options)
    {
      doc := FormatSwagger(data, options);
    }

    /** `formatMarkdown`: the header, then one section per controller in `Object.keys`
        order, each listing its routes' blocks in input order. */
    method FormatMarkdown(data: ScanResult, options: Options) returns (md: string)
      ensures md == MarkdownText(data, options)
    {
      var title := options.title.GetOr("API Documentation");
      var description := options.description.GetOr("Auto-generated API documentation");
      md := "# " + title + "\n\n";
      md := md + (description + "\n\n");
      var groups := GroupByController(data.routes);
      GroupKeys(groups);
      md := AppendGroups(md, ObjectKeys(groups.order), groups);
    }

    /** `format`: runs the formatters the key selects (`all` selects every one), in
        registration order, and writes each result to its file under the output directory. */
    method Format(data: ScanResult, format: string, options: Options)
      returns (results: Dict<Target>, writes: seq<(Target, Output)>)
      ensures writes == Writes(Selected(format), data, options)
      ensures results == ResultPaths(Selected(format), options)
    {
      results := Empty();
      writes := [];
      results, writes := Select(format, Swagger, data, options, [], results, writes);
      assert [] + Pick(format, Swagger) == Pick(format, Swagger);
      results, writes := Select(format, Markdown, data, options, Pick(format, Swagger), results, writes);
      results, writes := Select(format, OpenAPI, data, options,
                                Pick(format, Swagger) + Pick(format, Markdown), results, writes);
      results, writes := Select(format, Json, data, options,
                                Pick(format, Swagger) + Pick(format, Markdown) + Pick(format, OpenAPI), results, writes);
    }

    /** `if (format === 'all' || format === name) { ... }`: one formatter, when the key
        selects it. */
    method Select(format: string, f: FormatKind, data: ScanResult, options: Options, ghost done: seq<FormatKind>,
                  results: Dict<Target>, writes: seq<(Target, Output)>)
      returns (results': Dict<Target>, writes': seq<(Target, Output)>)
      requires writes == Writes(done, data, options) && results == ResultPaths(done, options)
      ensures writes' == Writes(done + Pick(format, f), data, options)
      ensures results' == ResultPaths(done + Pick(format, f), options)
    {
      if format == "all" || format == Name(f) {
        OutputStep(done, f, data, options);
        results', writes' := Emit(f, data, options, results, writes);
      } else {
        assert done + Pick(format, f) == done;
        results', writes' := results, writes;
      }
    }

    /** One branch of `format`: runs the formatter, writes its output to its file under the
        output directory, and records the path under the formatter's key. */
    method Emit(f: FormatKind, data: ScanResult, options: Options, results: Dict<Target>, writes: seq<(Target, Output)>)
      returns (results': Dict<Target>, writes': seq<(Target, Output)>)
      ensures writes' == writes + [(OutputPath(options, f), OutputOf(f, data, options))]
      ensures results' == results.Set(Name(f), OutputPath(options, f))
    {
      var outDir := OutDir(options);
      var output: Output;
      var filePath: Target;
      match f {
        case Swagger =>
          var swaggerDoc := FormatSwagger(data, options);
          output, filePath := Document(swaggerDoc), Target(outDir, "swagger.json");
        case Markdown =>
          var markdown := FormatMarkdown(data, options);
          output, filePath := Text(markdown), Target(outDir, "api-documentation.md");
        case OpenAPI =>
          var openapiDoc := FormatOpenAPI(data, options);
          output, filePath := Document(openapiDoc), Target(outDir, "openapi.json");
        case Json =>
          output, filePath := Data(data), Target(outDir, "api-data.json");
      }
      writes' := writes + [(filePath, output)];
      results' := results.Set(Name(f), filePath);
    }
  }

  /** Writing one more format extends the writes and the results by its entry. */
  lemma OutputStep(done: seq<FormatKind>, f: FormatKind, data: ScanResult, options: Options)
    ensures Writes(done + [f], data, options) == Writes(done, data, options) + [(OutputPath(options, f), OutputOf(f, data, options))]
    ensures ResultPaths(done + [f], options) == ResultPaths(done, options).Set(Name(f), OutputPath(options, f))
  {
    assert (done + [f])[..|done|] == done;
  }

  /** `paths[path] ||= {}; paths[path][method] = operation`. */
  method AddRoute(paths: Dict<Dict<Operation>>, route: Route, dtos: Dict<Dto>)
    returns (paths': Dict<Dict<Operation>>)
    requires paths.Valid()
    ensures paths'.Valid()
    ensures paths' == AddOperation(paths, route, dtos)
  {
    paths' := paths;
    if !paths'.Has(route.path) {
      SetValid(paths', route.path, Empty());
      paths' := paths'.Set(route.path, Empty());
    }
    assert paths'.Get(route.path) == PathItem(paths, route.path);
    var operation := BuildOperation(route, dtos);
    var item := paths'.Get(route.path).Set(Lower(route.httpMethod), operation);
    SetValid(paths', route.path, item);
    SetTwice(paths, route.path, Empty(), item);
    paths' := paths'.Set(route.path, item);
  }

  /** The operation object of one route. */
  method BuildOperation(route: Route, dtos: Dict<Dto>) returns (op: Operation)
    ensures op == OperationOf(route, dtos)
  {
    var parameters: seq<OperationParameter> := [];
    var requestBody: Option<RequestBody> := None;
    if route.parameters.Some? {
      var ps := route.parameters.value;
      requestBody := BuildRequestBody(route, dtos);
      parameters := AppendEntries(parameters, ps.query, "query");
      parameters := AppendEntries(parameters, ps.params, "path");
      parameters := AppendEntries(parameters, ps.headers, "header");
      assert [] + Entries(ps.query, "query") == Entries(ps.query, "query");
    }
    var controller := if route.controller.Some? && route.controller.value != "" then route.controller.value else "default";
    var described := if route.controller.Some? && route.controller.value != "" then route.controller.value else "unknown controller";
    op := Operation([controller], route.httpMethod + " " + route.path, "Endpoint from " + described,
                    parameters, requestBody, map["200" := OkResponse]);
  }

  /** The request body of a route with parameters. */
  method BuildRequestBody(route: Route, dtos: Dict<Dto>) returns (requestBody: Option<RequestBody>)
    requires route.parameters.Some?
    ensures requestBody == RequestBodyOf(route, dtos)
  {
    requestBody := None;
    if route.httpMethod == "POST" || route.httpMethod == "PUT" || route.httpMethod == "PATCH" {
      var possibleDtoName := FindMatchingDTO(route, dtos);
      if possibleDtoName.Some? && dtos.Has(possibleDtoName.value) {
        requestBody := Some(RequestBody(true, "application/json",
                                        SchemaRef("#/components/schemas/" + possibleDtoName.value)));
      } else {
        requestBody := Some(RequestBody(true, "application/json", InlineObject("Request body")));
      }
    }
  }

  /** Pushes one entry per parameter of a list. */
  method AppendEntries(acc: seq<OperationParameter>, ps: seq<NamedParam>, location: string)
    returns (out: seq<OperationParameter>)
    ensures out == acc + Entries(ps, location)
  {
    out := acc;
    assert acc + Entries(ps[..0], location) == acc;
    for i := 0 to |ps|
      invariant out == acc + Entries(ps[..i], location)
    {
      var p := ps[i];
      var entry := OperationParameter(p.name, location, p.required, MapTypeToSwagger(p.typeName),
                                      p.name + " " + location + " parameter");
      assert ps[..i + 1][..i] == ps[..i];
      AppendAfter(acc, Entries(ps[..i], location), [entry], Entries(ps[..i + 1], location));
      out := out + [entry];
    }
    assert ps[..|ps|] == ps;
  }

  /** `components.schemas`: one schema per DTO, in `Object.keys` order. */
  method Schemas(dtos: Dict<Dto>) returns (schemas: Dict<Schema>)
    ensures schemas == SchemasOfDtos(dtos)
  {
    schemas := SchemasFor(ObjectKeys(dtos.order), dtos);
  }

  /** The schemas of the named DTOs, in order; a name without a DTO is skipped. */
  method SchemasFor(names: seq<string>, dtos: Dict<Dto>) returns (schemas: Dict<Schema>)
    ensures schemas == SchemasOf(names, dtos)
  {
    schemas := Empty();
    for i := 0 to |names|
      invariant schemas == SchemasOf(names[..i], dtos)
    {
      assert names[..i + 1][..i] == names[..i];
      var dtoName := names[i];
      if dtos.Has(dtoName) {
        var schema := BuildSchema(dtos.Get(dtoName));
        schemas := schemas.Set(dtoName, schema);
      }
    }
    assert names[..|names|] == names;
  }

  /** The schema of one DTO: its properties object and its required names. */
  method BuildSchema(dto: Dto) returns (schema: Schema)
    ensures schema == SchemaOf(dto)
  {
    var properties: Dict<SchemaProperty> := Empty();
    var required: seq<string> := [];
    for i := 0 to |dto.properties|
      invariant properties == PropertiesObject(dto.properties[..i])
      invariant required == RequiredNames(dto.properties[..i])
    {
      PrefixStep(dto.properties, i);
      properties, required := AddPropertyEntry(properties, required, dto.properties[i]);
    }
    assert dto.properties[..|dto.properties|] == dto.properties;
    schema := Schema("object", properties, if |required| > 0 then Some(required) else None);
  }

  /** One more property folds into both the properties object and the required names. */
  lemma PrefixStep(props: seq<DtoProperty>, i: nat)
    requires i < |props|
    ensures PropertiesObject(props[..i + 1]) == AddProperty(PropertiesObject(props[..i]), props[i])
    ensures RequiredNames(props[..i + 1]) ==
            RequiredNames(props[..i]) + (if props[i].required then [props[i].name] else [])
  {
    assert props[..i + 1][..i] == props[..i];
  }

  /** One property: its entry in the properties object, and its name in `required` when it
      is required. */
  method AddPropertyEntry(properties: Dict<SchemaProperty>, required: seq<string>, prop: DtoProperty)
    returns (properties': Dict<SchemaProperty>, required': seq<string>)
    requires properties.Valid()
    ensures properties' == AddProperty(properties, prop)
    ensures required' == required + (if prop.required then [prop.name] else [])
  {
    properties' := properties.Set(prop.name, SchemaProperty(MapTypeToSwagger(prop.typeName),
                                                             prop.name + " property", prop.required));
    if prop.required {
      required' := required + [prop.name];
    } else {
      required' := required;
      assert required + [] == required;
    }
  }

  /** `routesByController`: the routes pushed onto their controller's list. */
  method GroupByController(routes: seq<Route>) returns (groups: Dict<seq<Route>>)
    ensures groups == GroupRoutes(routes)
  {
    groups := Empty();
    for i := 0 to |routes|
      invariant groups == GroupRoutes(routes[..i])
    {
      assert routes[..i + 1][..i] == routes[..i];
      groups := PushRoute(groups, routes[i]);
    }
    assert routes[..|routes|] == routes;
  }

  /** `routesByController[controller] ||= []; routesByController[controller].push(route)`. */
  method PushRoute(groups: Dict<seq<Route>>, route: Route) returns (groups': Dict<seq<Route>>)
    requires groups.Valid()
    ensures groups' == AddToGroup(groups, route)
  {
    var controller := if route.controller.Some? && route.controller.value != "" then route.controller.value else "default";
    groups' := groups;
    if !groups'.Has(controller) {
      groups' := groups'.Set(controller, []);
    }
    groups' := groups'.Set(controller, groups'.Get(controller) + [route]);
  }

  /** The sections of the given controllers, in order. */
  method AppendGroups(md: string, controllers: seq<string>, groups: Dict<seq<Route>>) returns (out: string)
    requires forall k :: 0 <= k < |controllers| ==> groups.Has(controllers[k])
    ensures out == md + GroupsText(controllers, groups)
  {
    out := md;
    assert out == md + GroupsText(controllers[..0], groups);
    for i := 0 to |controllers|
      invariant out == md + GroupsText(controllers[..i], groups)
    {
      var controller := controllers[i];
      GroupsTextStep(controllers, groups, i);
      AppendAfter(md, GroupsText(controllers[..i], groups), GroupText(controller, groups.Get(controller)),
                  GroupsText(controllers[..i + 1], groups));
      out := AppendGroup(out, controller, groups.Get(controller));
    }
    assert controllers[..|controllers|] == controllers;
  }

  /** The blocks of the given routes, in order. */
  method AppendRoutes(md: string, routes: seq<Route>) returns (out: string)
    ensures out == md + RoutesText(routes)
  {
    out := md;
    assert out == md + RoutesText(routes[..0]);
    for j := 0 to |routes|
      invariant out == md + RoutesText(routes[..j])
    {
      RoutesTextStep(routes, j);
      AppendAfter(md, RoutesText(routes[..j]), RouteBlock(routes[j]), RoutesText(routes[..j + 1]));
      out := AppendRouteBlock(out, routes[j]);
    }
    assert routes[..|routes|] == routes;
  }

  /** One more route appends its block. */
  lemma RoutesTextStep(routes: seq<Route>, j: nat)
    requires j < |routes|
    ensures RoutesText(routes[..j + 1]) == RoutesText(routes[..j]) + RouteBlock(routes[j])
  {
    assert routes[..j + 1][..j] == routes[..j];
  }

  /** One more controller appends its section. */
  lemma GroupsTextStep(controllers: seq<string>, groups: Dict<seq<Route>>, i: nat)
    requires forall k :: 0 <= k < |controllers| ==> groups.Has(controllers[k])
    requires i < |controllers|
    ensures GroupsText(controllers[..i + 1], groups) ==
            GroupsText(controllers[..i], groups) + GroupText(controllers[i], groups.Get(controllers[i]))
  {
    assert controllers[..i + 1][..i] == controllers[..i];
  }

  /** One controller section: its heading, then its routes' blocks. */
  method AppendGroup(md: string, controller: string, routes: seq<Route>) returns (out: string)
    ensures out == md + GroupText(controller, routes)
  {
    var heading := "## " + controller + "\n\n";
    out := AppendRoutes(md + heading, routes);
    AppendAfter(md, heading, RoutesText(routes), GroupText(controller, routes));
  }

  /** The block of one route. */
  method AppendRouteBlock(md: string, route: Route) returns (out: string)
    ensures out == md + RouteBlock(route)
  {
    var head := "### " + route.httpMethod + " " + route.path + "\n\n";
    var controllerLine := "**Controller:** " + Interpolated(route.controller) + "\n";
    out := md + head;
    out := out + controllerLine;
    AppendAfter(md, head, controllerLine, head + controllerLine);
    ghost var written := head + controllerLine;
    if route.file != "" {
      var fileLine := "**File:** " + route.file + "\n";
      AppendAfter(md, written, fileLine, written + fileLine);
      out := out + fileLine;
    } else {
      assert out == md + (written + "");
    }
    written := written + FileLine(route);
    AppendAfter(md, written, "\n", written + "\n");
    out := out + "\n";
    written := written + "\n";
    var withParameters := AppendParameters(out, route.parameters);
    AppendAfter(md, written, ParametersSection(route.parameters), written + ParametersSection(route.parameters));
    written := written + ParametersSection(route.parameters);
    out := withParameters + "---\n\n";
    AppendAfter(md, written, "---\n\n", written + "---\n\n");
  }

  /** The parameter sections of one route. */
  method AppendParameters(md: string, parameters: Option<Parameters>) returns (out: string)
    ensures out == md + ParametersSection(parameters)
  {
    out := md;
    if parameters.Some? {
      var p := parameters.value;
      var body := BodySection(p.body);
      var query := ListSection("**Query Parameters:**\n", p.query);
      var path := ListSection("**Path Parameters:**\n", p.params);
      var headers := ListSection("**Headers:**\n", p.headers);
      out := AppendBody(out, p.body);
      out := AppendList(out, "**Query Parameters:**\n", p.query);
      AppendAfter(md, body, query, body + query);
      out := AppendList(out, "**Path Parameters:**\n", p.params);
      AppendAfter(md, body + query, path, body + query + path);
      out := AppendList(out, "**Headers:**\n", p.headers);
      AppendAfter(md, body + query + path, headers, body + query + path + headers);
    } else {
      assert out == md + "";
    }
  }

  /** The request-body section. */
  method AppendBody(md: string, body: Option<BodyParam>) returns (out: string)
    ensures out == md + BodySection(body)
  {
    out := md;
    if body.Some? {
      var title := "**Request Body:**\n";
      var typeLine := "- Type: " + body.value.typeName + "\n";
      out := out + title;
      out := out + typeLine;
      AppendAfter(md, title, typeLine, title + typeLine);
      out := out + "\n";
      AppendAfter(md, title + typeLine, "\n", title + typeLine + "\n");
    } else {
      assert out == md + "";
    }
  }

  /** A titled parameter list, when non-empty. */
  method AppendList(md: string, title: string, ps: seq<NamedParam>) returns (out: string)
    ensures out == md + ListSection(title, ps)
  {
    out := md;
    if |ps| > 0 {
      out := out + title;
      assert out == md + title + Lines(ps[..0]);
      for i := 0 to |ps|
        invariant out == md + title + Lines(ps[..i])
      {
        assert ps[..i + 1][..i] == ps[..i];
        var p := ps[i];
        var line := "- `" + p.name + "` (" + p.typeName + ")" + (if p.required then " - required" else "") + "\n";
        AppendAfter(md + title, Lines(ps[..i]), line, Lines(ps[..i + 1]));
        out := out + line;
      }
      assert ps[..|ps|] == ps;
      AppendAfter(md, title, Lines(ps), title + Lines(ps));
      out := out + "\n";
      AppendAfter(md, title + Lines(ps), "\n", title + Lines(ps) + "\n");
    } else {
      assert out == md + "";
    }
  }

  // ---------------------------------------------------------------------------------------
  // Properties of the document

  /** The document is OpenAPI 3.0.0, lists exactly the routes' paths and exactly the DTOs'
      schemas, and its `info` takes each option or, when it is undefined, its default. */
  lemma DocumentContents(data: ScanResult, options: Options)
    requires data.dtos.Valid()
    ensures forall p :: DocumentOf(data, options).paths.Has(p) <==>
              exists i :: 0 <= i < |data.routes| && data.routes[i].path == p
    ensures forall n :: DocumentOf(data, options).schemas.Has(n) <==> data.dtos.Has(n)
    ensures forall n :: data.dtos.Has(n) ==> DocumentOf(data, options).schemas.Get(n) == SchemaOf(data.dtos.Get(n))
    ensures DocumentOf(data, options).openapi == "3.0.0"
    ensures var info := DocumentOf(data, options).info;
      (options.title.Some? ==> info.title == options.title.value) &&
      (options.title.None? ==> info.title == "API Documentation") &&
      (options.description.Some? ==> info.description == options.description.value) &&
      (options.description.None? ==> info.description == "Auto-generated API documentation") &&
      (options.version.Some? ==> info.version == options.version.value) &&
      (options.version.None? ==> info.version == "1.0.0")
  {
    forall p ensures DocumentOf(data, options).paths.Has(p) <==>
                     exists i :: 0 <= i < |data.routes| && data.routes[i].path == p {
      PathsOfPaths(data.routes, data.dtos, p);
    }
    SchemasCoverDtos(data.dtos);
  }

  /** Every stored operation is the operation of some route. */
  lemma {:induction false} StoredOperations(routes: seq<Route>, dtos: Dict<Dto>, path: string, key: string)
    requires PathsOf(routes, dtos).Has(path) && PathsOf(routes, dtos).Get(path).Has(key)
    ensures exists i :: 0 <= i < |routes| &&
              PathsOf(routes, dtos).Get(path).Get(key) == OperationOf(routes[i], dtos)
    decreases |routes|
  {
    var init := routes[..|routes| - 1];
    var last := routes[|routes| - 1];
    if last.path == path && Lower(last.httpMethod) == key {
      assert PathsOf(routes, dtos).Get(path).Get(key) == OperationOf(routes[|routes| - 1], dtos);
    } else {
      AddOperationSlots(PathsOf(init, dtos), last, dtos, path, key);
      StoredOperations(init, dtos, path, key);
      var i :| 0 <= i < |init| && PathsOf(init, dtos).Get(path).Get(key) == OperationOf(init[i], dtos);
      assert routes[i] == init[i];
    }
  }

  /** No dangling reference: every `$ref` in a request body names a schema of the same
      document. */
  lemma RefsResolve(data: ScanResult, options: Options, path: string, key: string)
    requires data.dtos.Valid()
    requires DocumentOf(data, options).paths.Has(path)
    requires DocumentOf(data, options).paths.Get(path).Has(key)
    requires DocumentOf(data, options).paths.Get(path).Get(key).requestBody.Some?
    requires DocumentOf(data, options).paths.Get(path).Get(key).requestBody.value.schema.SchemaRef?
    ensures exists name :: DocumentOf(data, options).schemas.Has(name) &&
              DocumentOf(data, options).paths.Get(path).Get(key).requestBody.value.schema.ref ==
                "#/components/schemas/" + name
  {
    StoredOperations(data.routes, data.dtos, path, key);
    var i :| 0 <= i < |data.routes| &&
      DocumentOf(data, options).paths.Get(path).Get(key) == OperationOf(data.routes[i], data.dtos);
    var name := FindMatchingDTO(data.routes[i], data.dtos).value;
    SchemasCoverDtos(data.dtos);
    assert DocumentOf(data, options).schemas.Has(name);
  }

  /** `format` runs each formatter exactly when the key is `all` or names it, in
      registration order, and none for any other key. */
  lemma FormatSelection(format: string)
    ensures forall f :: f in Selected(format) <==> format == "all" || format == Name(f)
    ensures format == "all" ==> Selected(format) == [Swagger, Markdown, OpenAPI, Json]
    ensures format !in FormatNames && format != "all" ==> Selected(format) == []
    ensures |Selected(format)| <= 1 || format == "all"
  {
    forall f ensures f in Selected(format) <==> format == "all" || format == Name(f) {
      match f {
        case Swagger =>
        case Markdown =>
        case OpenAPI =>
        case Json =>
      }
    }
  }

  /** The keys of the given formatters, in order. */
  function Names(fs: seq<FormatKind>): (names: seq<string>)
    ensures |names| == |fs|
    ensures forall i :: 0 <= i < |fs| ==> names[i] == Name(fs[i])
    decreases |fs|
  {
    if fs == [] then [] else Names(fs[..|fs| - 1]) + [Name(fs[|fs| - 1])]
  }

  /** The results hold exactly the keys of the formatters run, in the order they ran. */
  lemma {:induction false} ResultPathsKeys(fs: seq<FormatKind>, options: Options)
    requires forall i, j :: 0 <= i < j < |fs| ==> fs[i] != fs[j]
    ensures ResultPaths(fs, options).order == Names(fs)
    decreases |fs|
  {
    if fs != [] {
      var init := fs[..|fs| - 1];
      var last := fs[|fs| - 1];
      ResultPathsKeys(init, options);
      NamesDistinct(init, last);
    }
  }

  /** A formatter not among `fs` has a key not among theirs. */
  lemma NamesDistinct(fs: seq<FormatKind>, f: FormatKind)
    requires f !in fs
    ensures Name(f) !in Names(fs)
  {
    forall i | 0 <= i < |fs| ensures Names(fs)[i] != Name(f) {
      assert fs[i] != f;
    }
  }

  /** The Swagger and OpenAPI outputs are the same document. */
  lemma SwaggerIsOpenAPI(data: ScanResult, options: Options)
    ensures OutputOf(Swagger, data, options) == OutputOf(OpenAPI, data, options)
    ensures OutputOf(Swagger, data, options).Document?
  {
  }
}
