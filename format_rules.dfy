/**
 * What the formatter computes, as functions: the type map, the DTO matching rules, the
 * operation built for one route, the `paths` and `components.schemas` objects of the
 * OpenAPI 3.0.0 document (the Paths, Operation and Parameter Objects of section 4.7 of the
 * OpenAPI Specification 3.0.0), and the Markdown text grouped by controller.
 */
module FormatRules {
  import opened Wrappers
  import opened Text
  import opened Dict
  import opened Model

  // ---------------------------------------------------------------------------------------
  // Type mapping

  /** `mapTypeToSwagger`: a falsy type is `string`; otherwise the first of the substring
      tests on the lower-cased type that holds; the custom-type test and the fallback both
      answer `string`. */
  function MapTypeToSwagger(t: string): (r: string)
    ensures r in SwaggerTypes
    ensures t == "" ==> r == "string"
  {
    if t == "" then "string"
    else
      var lower := Lower(t);
      if Contains(lower, "string") then "string"
      else if Contains(lower, "number") then "number"
      else if Contains(lower, "boolean") then "boolean"
      else if Contains(lower, "date") then "string"
      else if Contains(lower, "[]") || Contains(lower, "array") then "array"
      else if Contains(lower, "dto") || Contains(lower, "enum") || Contains(lower, "method") then "string"
      else "string"
  }

  const SwaggerTypes: seq<string> := ["string", "number", "boolean", "array"]

  /** The same tests as an ordered table of (substring, answer) rules. */
  const TypeRules: seq<(string, string)> := [
    ("string", "string"), ("number", "number"), ("boolean", "boolean"),
    ("date", "string"), ("[]", "array"), ("array", "array")]

  /** The answer of the first rule whose substring occurs in `s`, else `fallback`. */
  function FirstRule(rules: seq<(string, string)>, s: string, fallback: string): string
    decreases |rules|
  {
    if rules == [] then fallback
    else if Contains(s, rules[0].0) then rules[0].1
    else FirstRule(rules[1..], s, fallback)
  }

  /** The if-chain is the first-match table, the custom-type test changing nothing. */
  lemma MapTypeIsFirstRule(t: string)
    requires t != ""
    ensures MapTypeToSwagger(t) == FirstRule(TypeRules, Lower(t), "string")
  {
    var s := Lower(t);
    var rs := TypeRules;
    assert rs[1..][1..][1..][1..] == [("[]", "array"), ("array", "array")];
    assert FirstRule(rs, s, "string") ==
      if Contains(s, "string") then "string"
      else FirstRule(rs[1..], s, "string");
  }

  /** An occurrence at the start is an occurrence. */
  lemma ContainsAtStart(s: string, p: string)
    requires p <= s
    ensures Contains(s, p)
  {
    assert StartsAt(s, 0, p);
    ContainsWitness(s, p);
  }

  /** Precedence: an element type wins over the array marker. */
  lemma MapTypeElementFirst()
    ensures MapTypeToSwagger("string[]") == "string"
    ensures MapTypeToSwagger("number[]") == "number"
  {
    assert Lower("string[]") == "string[]";
    ContainsAtStart("string[]", "string");
    assert Lower("number[]") == "number[]";
    ContainsAtStart("number[]", "number");
  }

  /** A `Date` is a string. */
  lemma MapTypeDate()
    ensures MapTypeToSwagger("Date") == "string"
  {
    assert Lower("Date") == "date";
    ContainsAtStart("date", "date");
  }

  /** `array` is answered exactly when an array marker occurs and none of the element
      tests before it holds. */
  lemma MapTypeArray(t: string)
    ensures MapTypeToSwagger(t) == "array" <==>
      t != "" &&
      !Contains(Lower(t), "string") && !Contains(Lower(t), "number") &&
      !Contains(Lower(t), "boolean") && !Contains(Lower(t), "date") &&
      (Contains(Lower(t), "[]") || Contains(Lower(t), "array"))
  {
  }

  // ---------------------------------------------------------------------------------------
  // DTO matching

  /** Path substring rules, tried first and in this order. */
  const PathRules: seq<(string, string)> := [
    ("request", "RequestPickupDTO"), ("booking", "BookingPickupDTO"),
    ("confirm", "ConfirmPickupDTO"), ("cancel", "CancelPickupDTO"),
    ("tiktok", "TikTokRequestPickupDTO"), ("lazada", "LazadaRequestPickupDTO")]

  /** Controller-name rules, tried after every path rule. */
  const ControllerRules: seq<(string, string)> := [
    ("partner", "RequestPickupDTO"), ("tiktok", "TikTokRequestPickupDTO")]

  /** `route.controller || ''`. */
  function ControllerText(r: Route): string {
    if r.controller.Some? then r.controller.value else ""
  }

  /** `findMatchingDTO`: the DTO of the first path rule whose substring is in the lower-cased
      path and whose DTO exists, then of the first controller rule naming the controller
      whose DTO exists; else `null`. */
  function FindMatchingDTO(route: Route, dtos: Dict<Dto>): (r: Option<string>)
    ensures r.Some? ==> dtos.Has(r.value)
  {
    var routePath := Lower(route.path);
    var controller := ControllerText(route);
    if Contains(routePath, "request") && dtos.Has("RequestPickupDTO") then Some("RequestPickupDTO")
    else if Contains(routePath, "booking") && dtos.Has("BookingPickupDTO") then Some("BookingPickupDTO")
    else if Contains(routePath, "confirm") && dtos.Has("ConfirmPickupDTO") then Some("ConfirmPickupDTO")
    else if Contains(routePath, "cancel") && dtos.Has("CancelPickupDTO") then Some("CancelPickupDTO")
    else if Contains(routePath, "tiktok") && dtos.Has("TikTokRequestPickupDTO") then Some("TikTokRequestPickupDTO")
    else if Contains(routePath, "lazada") && dtos.Has("LazadaRequestPickupDTO") then Some("LazadaRequestPickupDTO")
    else if controller == "partner" && dtos.Has("RequestPickupDTO") then Some("RequestPickupDTO")
    else if controller == "tiktok" && dtos.Has("TikTokRequestPickupDTO") then Some("TikTokRequestPickupDTO")
    else None
  }

  /** The DTO of the first path rule from index `i` on whose substring occurs in the
      lower-cased path and whose DTO exists. */
  function FirstPathRule(lowerPath: string, dtos: Dict<Dto>, i: nat): (r: Option<string>)
    requires i <= |PathRules|
    ensures r.Some? ==> dtos.Has(r.value)
    ensures r.None? <==>
      forall k :: i <= k < |PathRules| ==> !(Contains(lowerPath, PathRules[k].0) && dtos.Has(PathRules[k].1))
    ensures r.Some? ==> exists k :: (i <= k < |PathRules| && PathRules[k].1 == r.value &&
      Contains(lowerPath, PathRules[k].0) &&
      forall m :: i <= m < k ==> !(Contains(lowerPath, PathRules[m].0) && dtos.Has(PathRules[m].1)))
    decreases |PathRules| - i
  {
    if i == |PathRules| then None
    else if Contains(lowerPath, PathRules[i].0) && dtos.Has(PathRules[i].1) then Some(PathRules[i].1)
    else FirstPathRule(lowerPath, dtos, i + 1)
  }

  /** The DTO of the first controller rule from index `i` on that names the controller and
      whose DTO exists. */
  function FirstControllerRule(controller: string, dtos: Dict<Dto>, i: nat): (r: Option<string>)
    requires i <= |ControllerRules|
    ensures r.Some? ==> dtos.Has(r.value)
    ensures r.None? <==>
      forall k :: i <= k < |ControllerRules| ==> !(controller == ControllerRules[k].0 && dtos.Has(ControllerRules[k].1))
    decreases |ControllerRules| - i
  {
    if i == |ControllerRules| then None
    else if controller == ControllerRules[i].0 && dtos.Has(ControllerRules[i].1) then Some(ControllerRules[i].1)
    else FirstControllerRule(controller, dtos, i + 1)
  }

  /** The if-chain is the path rules, then the controller rules, each a first-match table. */
  lemma FindMatchingDTOIsRules(route: Route, dtos: Dict<Dto>)
    ensures FindMatchingDTO(route, dtos) ==
      var onPath := FirstPathRule(Lower(route.path), dtos, 0);
      if onPath.Some? then onPath else FirstControllerRule(ControllerText(route), dtos, 0)
  {
    var lp := Lower(route.path);
    PathRulesUnfold(lp, dtos);
    assert FirstControllerRule(ControllerText(route), dtos, 0) ==
      if ControllerText(route) == "partner" && dtos.Has("RequestPickupDTO") then Some("RequestPickupDTO")
      else if ControllerText(route) == "tiktok" && dtos.Has("TikTokRequestPickupDTO") then Some("TikTokRequestPickupDTO")
      else None;
  }

  lemma PathRulesUnfold(lp: string, dtos: Dict<Dto>)
    ensures FirstPathRule(lp, dtos, 0) ==
      if Contains(lp, "request") && dtos.Has("RequestPickupDTO") then Some("RequestPickupDTO")
      else if Contains(lp, "booking") && dtos.Has("BookingPickupDTO") then Some("BookingPickupDTO")
      else if Contains(lp, "confirm") && dtos.Has("ConfirmPickupDTO") then Some("ConfirmPickupDTO")
      else if Contains(lp, "cancel") && dtos.Has("CancelPickupDTO") then Some("CancelPickupDTO")
      else if Contains(lp, "tiktok") && dtos.Has("TikTokRequestPickupDTO") then Some("TikTokRequestPickupDTO")
      else if Contains(lp, "lazada") && dtos.Has("LazadaRequestPickupDTO") then Some("LazadaRequestPickupDTO")
      else None
  {
    assert FirstPathRule(lp, dtos, 4) ==
      if Contains(lp, "tiktok") && dtos.Has("TikTokRequestPickupDTO") then Some("TikTokRequestPickupDTO")
      else if Contains(lp, "lazada") && dtos.Has("LazadaRequestPickupDTO") then Some("LazadaRequestPickupDTO")
      else None;
    assert FirstPathRule(lp, dtos, 2) ==
      if Contains(lp, "confirm") && dtos.Has("ConfirmPickupDTO") then Some("ConfirmPickupDTO")
      else if Contains(lp, "cancel") && dtos.Has("CancelPickupDTO") then Some("CancelPickupDTO")
      else FirstPathRule(lp, dtos, 4);
  }

  /** A path rule wins over a controller rule: a `partner` route on a booking path with
      both DTOs present gets the booking DTO. */
  lemma PathRuleBeforeController(route: Route, dtos: Dict<Dto>)
    requires route.path == "/booking" && route.controller == Some("partner")
    requires dtos.Has("RequestPickupDTO") && dtos.Has("BookingPickupDTO")
    ensures FindMatchingDTO(route, dtos) == Some("BookingPickupDTO")
  {
    assert Lower(route.path) == "/booking";
    assert "booking" <= "/booking"[1..];
    assert StartsAt("/booking", 1, "booking");
    ContainsWitness("/booking", "booking");
    assert !StartsAt("/booking", 0, "request") by { assert "/booking"[0..][0] == '/'; }
    assert !StartsAt("/booking", 1, "request") by { assert "/booking"[1..][0] == 'b'; }
    assert !ContainsFrom("/booking", "request", 2);
  }

  /** Without any DTO (the universal scanner's result), nothing matches. */
  lemma NoDtosNoMatch(route: Route)
    ensures FindMatchingDTO(route, Empty()) == None
  {
  }

  // ---------------------------------------------------------------------------------------
  // Operations and paths

  /** One entry of an operation's `parameters`; `location` is the `in` field. */
  datatype OperationParameter = OperationParameter(name: string, location: string, required: bool,
                                                   schemaType: string, description: string)

  /** The schema of a request body: a reference to a component schema, or an inline object. */
  datatype BodySchema = SchemaRef(ref: string) | InlineObject(description: string)

  datatype RequestBody = RequestBody(required: bool, mediaType: string, schema: BodySchema)

  /** The single response of every operation. */
  datatype Response = Response(description: string, mediaType: string, schemaType: string, schemaDescription: string)

  const OkResponse := Response("Successful operation", "application/json", "object", "Response data")

  datatype Operation = Operation(tags: seq<string>, summary: string, description: string,
                                 parameters: seq<OperationParameter>, requestBody: Option<RequestBody>,
                                 responses: map<string, Response>)

  /** `route.controller || 'default'`. */
  function ControllerTag(r: Route): string {
    if r.controller.Some? && r.controller.value != "" then r.controller.value else "default"
  }

  /** The parameter entry pushed for a query, path or header parameter. */
  function ParameterEntry(p: NamedParam, location: string): OperationParameter {
    OperationParameter(p.name, location, p.required, MapTypeToSwagger(p.typeName),
                       p.name + " " + location + " parameter")
  }

  /** The entries of one parameter list: one per parameter, in order. */
  function Entries(ps: seq<NamedParam>, location: string): (r: seq<OperationParameter>)
    ensures |r| == |ps|
    ensures forall i :: 0 <= i < |ps| ==> r[i] == ParameterEntry(ps[i], location)
    decreases |ps|
  {
    if ps == [] then []
    else Entries(ps[..|ps| - 1], location) + [ParameterEntry(ps[|ps| - 1], location)]
  }

  const BodyMethods: seq<string> := ["POST", "PUT", "PATCH"]

  /** The request body: only for a route with parameters whose method is exactly `POST`,
      `PUT` or `PATCH`; always required; a reference to the matched DTO's schema exactly when
      a DTO matches, else an inline object. */
  function RequestBodyOf(route: Route, dtos: Dict<Dto>): (b: Option<RequestBody>)
    ensures b.Some? <==> route.parameters.Some? && route.httpMethod in BodyMethods
    ensures b.Some? ==> b.value.required && b.value.mediaType == "application/json"
    ensures b.Some? ==> (b.value.schema.SchemaRef? <==> FindMatchingDTO(route, dtos).Some?)
    ensures b.Some? && b.value.schema.SchemaRef? ==>
              b.value.schema.ref == "#/components/schemas/" + FindMatchingDTO(route, dtos).value
  {
    if route.parameters.Some? && route.httpMethod in BodyMethods then
      var name := FindMatchingDTO(route, dtos);
      if name.Some? && dtos.Has(name.value) then
        Some(RequestBody(true, "application/json", SchemaRef("#/components/schemas/" + name.value)))
      else
        Some(RequestBody(true, "application/json", InlineObject("Request body")))
    else None
  }

  /** The `parameters` array: the query entries, then the path entries, then the header
      entries; empty for a route without parameters. */
  function ParametersOf(route: Route): seq<OperationParameter> {
    if route.parameters.Some? then
      var ps := route.parameters.value;
      Entries(ps.query, "query") + Entries(ps.params, "path") + Entries(ps.headers, "header")
    else []
  }

  /** One entry per parameter: query entries first, then path, then header, each list in
      its own order. */
  lemma ParametersOrder(route: Route)
    ensures route.parameters.None? ==> ParametersOf(route) == []
    ensures route.parameters.Some? ==>
              var ps := route.parameters.value;
              var r := ParametersOf(route);
              var q, p := |ps.query|, |ps.params|;
              |r| == q + p + |ps.headers| &&
              (forall i :: 0 <= i < q ==> r[i] == ParameterEntry(ps.query[i], "query")) &&
              (forall i :: 0 <= i < p ==> r[q + i] == ParameterEntry(ps.params[i], "path")) &&
              (forall i :: 0 <= i < |ps.headers| ==> r[q + p + i] == ParameterEntry(ps.headers[i], "header"))
  {
  }

  /** The operation object built for one route: tagged with its controller, with a single
      `200` response. */
  function OperationOf(route: Route, dtos: Dict<Dto>): (op: Operation)
    ensures op.tags == [ControllerTag(route)]
    ensures op.responses.Keys == {"200"} && op.responses["200"] == OkResponse
  {
    Operation([ControllerTag(route)], route.httpMethod + " " + route.path,
              "Endpoint from " + (if route.controller.Some? && route.controller.value != ""
                                  then route.controller.value else "unknown controller"),
              ParametersOf(route), RequestBodyOf(route, dtos), map["200" := OkResponse])
  }

  /** A lower-case method never equals `POST`, `PUT` or `PATCH`, so routes of the
      pattern-table parser never get a request body. */
  lemma LowerCaseMethodNoBody(route: Route, dtos: Dict<Dto>)
    requires route.httpMethod in ["get", "post", "put", "delete", "patch"]
    ensures OperationOf(route, dtos).requestBody.None?
  {
  }

  /** The path item under a path, empty when the path has none yet. */
  function PathItem(paths: Dict<Dict<Operation>>, path: string): Dict<Operation> {
    if paths.Has(path) then paths.Get(path) else Empty()
  }

  /** `paths[path][method.toLowerCase()] = operation`. */
  function AddOperation(paths: Dict<Dict<Operation>>, route: Route, dtos: Dict<Dto>): Dict<Dict<Operation>> {
    paths.Set(route.path, PathItem(paths, route.path).Set(Lower(route.httpMethod), OperationOf(route, dtos)))
  }

  /** The `paths` object after every route, in order. */
  function PathsOf(routes: seq<Route>, dtos: Dict<Dto>): Dict<Dict<Operation>>
    decreases |routes|
  {
    if routes == [] then Empty()
    else AddOperation(PathsOf(routes[..|routes| - 1], dtos), routes[|routes| - 1], dtos)
  }

  /** Route `i` and route `j` are stored under the same path and method key. */
  predicate SameSlot(a: Route, b: Route) {
    a.path == b.path && Lower(a.httpMethod) == Lower(b.httpMethod)
  }

  /** One route adds its path, and its method key under that path, and nothing else. */
  lemma AddOperationSlots(paths: Dict<Dict<Operation>>, route: Route, dtos: Dict<Dto>, path: string, key: string)
    ensures AddOperation(paths, route, dtos).Has(path) <==> paths.Has(path) || route.path == path
    ensures (AddOperation(paths, route, dtos).Has(path) && AddOperation(paths, route, dtos).Get(path).Has(key)) <==>
              (paths.Has(path) && paths.Get(path).Has(key)) || (route.path == path && Lower(route.httpMethod) == key)
  {
  }

  /** The document has a path exactly when some route has it. */
  lemma {:induction false} PathsOfPaths(routes: seq<Route>, dtos: Dict<Dto>, path: string)
    ensures PathsOf(routes, dtos).Has(path) <==> exists i :: 0 <= i < |routes| && routes[i].path == path
    decreases |routes|
  {
    if routes != [] {
      var init := routes[..|routes| - 1];
      PathsOfPaths(init, dtos, path);
      AddOperationSlots(PathsOf(init, dtos), routes[|routes| - 1], dtos, path, "");
      if exists i :: 0 <= i < |routes| && routes[i].path == path {
        var i :| 0 <= i < |routes| && routes[i].path == path;
        if i < |init| { assert init[i] == routes[i]; }
      }
      if exists i :: 0 <= i < |init| && init[i].path == path {
        var i :| 0 <= i < |init| && init[i].path == path;
        assert routes[i] == init[i];
      }
    }
  }

  /** The document has an operation under a path and method key exactly when some route has
      that path and that lower-cased method. */
  lemma {:induction false} PathsOfSlots(routes: seq<Route>, dtos: Dict<Dto>, path: string, key: string)
    ensures (PathsOf(routes, dtos).Has(path) && PathsOf(routes, dtos).Get(path).Has(key)) <==>
              exists i :: 0 <= i < |routes| && routes[i].path == path && Lower(routes[i].httpMethod) == key
    decreases |routes|
  {
    if routes != [] {
      var init := routes[..|routes| - 1];
      PathsOfSlots(init, dtos, path, key);
      AddOperationSlots(PathsOf(init, dtos), routes[|routes| - 1], dtos, path, key);
      if exists i :: 0 <= i < |routes| && routes[i].path == path && Lower(routes[i].httpMethod) == key {
        var i :| 0 <= i < |routes| && routes[i].path == path && Lower(routes[i].httpMethod) == key;
        if i < |init| { assert init[i] == routes[i]; }
      }
      if exists i :: 0 <= i < |init| && init[i].path == path && Lower(init[i].httpMethod) == key {
        var i :| 0 <= i < |init| && init[i].path == path && Lower(init[i].httpMethod) == key;
        assert routes[i] == init[i];
      }
    }
  }

  /** A later route with the same path and lower-cased method overwrites an earlier one:
      the operation stored is that of the last route for the slot. */
  lemma {:induction false} LastRouteWins(routes: seq<Route>, dtos: Dict<Dto>, i: nat)
    requires i < |routes|
    requires forall j :: i < j < |routes| ==> !SameSlot(routes[j], routes[i])
    ensures PathsOf(routes, dtos).Has(routes[i].path)
    ensures PathsOf(routes, dtos).Get(routes[i].path).Has(Lower(routes[i].httpMethod))
    ensures PathsOf(routes, dtos).Get(routes[i].path).Get(Lower(routes[i].httpMethod)) == OperationOf(routes[i], dtos)
    decreases |routes|
  {
    var init := routes[..|routes| - 1];
    if i < |routes| - 1 {
      assert init[i] == routes[i];
      forall j | i < j < |init| ensures !SameSlot(init[j], init[i]) {
        assert init[j] == routes[j];
      }
      LastRouteWins(init, dtos, i);
    }
  }

  // ---------------------------------------------------------------------------------------
  // Schemas

  /** A schema property; `required` stands for the `required: true` field, present only for
      a required property. */
  datatype SchemaProperty = SchemaProperty(schemaType: string, description: string, required: bool)

  /** A component schema; `required` is omitted (`None`) when no property is required. */
  datatype Schema = Schema(schemaType: string, properties: Dict<SchemaProperty>, required: Option<seq<string>>)

  function PropertySchema(p: DtoProperty): SchemaProperty {
    SchemaProperty(MapTypeToSwagger(p.typeName), p.name + " property", p.required)
  }

  /** The `properties` object: one key per property name; a repeated name keeps its first
      position and takes the later property's entry. */
  function PropertiesObject(props: seq<DtoProperty>): (d: Dict<SchemaProperty>)
    ensures d.Valid()
    decreases |props|
  {
    if props == [] then Empty()
    else AddProperty(PropertiesObject(props[..|props| - 1]), props[|props| - 1])
  }

  /** `properties[prop.name] = ...`. */
  function AddProperty(properties: Dict<SchemaProperty>, p: DtoProperty): (d: Dict<SchemaProperty>)
    requires properties.Valid()
    ensures d.Valid()
  {
    SetValid(properties, p.name, PropertySchema(p));
    properties.Set(p.name, PropertySchema(p))
  }

  /** The names of the required properties, in order, repeats included. */
  function RequiredNames(props: seq<DtoProperty>): (names: seq<string>)
    ensures |names| <= |props|
    decreases |props|
  {
    if props == [] then []
    else
      var p := props[|props| - 1];
      RequiredNames(props[..|props| - 1]) + (if p.required then [p.name] else [])
  }

  /** The schema of a DTO. */
  function SchemaOf(dto: Dto): Schema {
    var required := RequiredNames(dto.properties);
    Schema("object", PropertiesObject(dto.properties), if |required| > 0 then Some(required) else None)
  }

  /** A name is listed as required exactly when some property of that name is required. */
  lemma {:induction false} RequiredNamesMembers(props: seq<DtoProperty>)
    ensures forall n :: n in RequiredNames(props) <==>
              exists i :: 0 <= i < |props| && props[i].required && props[i].name == n
    decreases |props|
  {
    if props != [] {
      var init := props[..|props| - 1];
      RequiredNamesMembers(init);
      forall n ensures n in RequiredNames(props) <==>
                       exists i :: 0 <= i < |props| && props[i].required && props[i].name == n
      {
        if n in RequiredNames(init) {
          var i :| 0 <= i < |init| && init[i].required && init[i].name == n;
          assert props[i] == init[i];
        }
        if exists i :: 0 <= i < |props| && props[i].required && props[i].name == n {
          var i :| 0 <= i < |props| && props[i].required && props[i].name == n;
          if i < |init| { assert init[i] == props[i]; }
        }
      }
    }
  }

  /** Required names of joined property lists are joined: repeats are kept, order is kept. */
  lemma {:induction false} RequiredNamesAppend(a: seq<DtoProperty>, b: seq<DtoProperty>)
    ensures RequiredNames(a + b) == RequiredNames(a) + RequiredNames(b)
    decreases |b|
  {
    if b == [] {
      assert a + b == a;
    } else {
      var b' := b[..|b| - 1];
      var p := b[|b| - 1];
      assert (a + b)[..|a + b| - 1] == a + b';
      assert (a + b)[|a + b| - 1] == p;
      RequiredNamesAppend(a, b');
      var tail := if p.required then [p.name] else [];
      AppendAfter(RequiredNames(a), RequiredNames(b'), tail, RequiredNames(b));
    }
  }

  /** The schema's `required` array is omitted exactly when no property is required, and
      otherwise lists the required names. */
  lemma SchemaRequired(dto: Dto)
    ensures SchemaOf(dto).required.Some? <==> exists i :: 0 <= i < |dto.properties| && dto.properties[i].required
    ensures SchemaOf(dto).required.Some? ==> SchemaOf(dto).required.value == RequiredNames(dto.properties)
  {
    var names := RequiredNames(dto.properties);
    RequiredNamesMembers(dto.properties);
    if names != [] {
      assert names[0] in names;
    }
    if exists i :: 0 <= i < |dto.properties| && dto.properties[i].required {
      var i :| 0 <= i < |dto.properties| && dto.properties[i].required;
      assert dto.properties[i].name in names;
    }
  }

  /** Every property name is a key, and the entry is that of the last property with the
      name. */
  lemma {:induction false} LastPropertyWins(props: seq<DtoProperty>, i: nat)
    requires i < |props|
    requires forall j :: i < j < |props| ==> props[j].name != props[i].name
    ensures PropertiesObject(props).Has(props[i].name)
    ensures PropertiesObject(props).Get(props[i].name) == PropertySchema(props[i])
    decreases |props|
  {
    var init := props[..|props| - 1];
    if i < |props| - 1 {
      assert init[i] == props[i];
      forall j | i < j < |init| ensures init[j].name != init[i].name {
        assert init[j] == props[j];
      }
      LastPropertyWins(init, i);
    }
  }

  /** The `components.schemas` object after the DTO names, in order; a name without a DTO
      is skipped. */
  function SchemasOf(names: seq<string>, dtos: Dict<Dto>): Dict<Schema>
    decreases |names|
  {
    if names == [] then Empty()
    else
      var name := names[|names| - 1];
      var prev := SchemasOf(names[..|names| - 1], dtos);
      if dtos.Has(name) then prev.Set(name, SchemaOf(dtos.Get(name))) else prev
  }

  /** Every listed name with a DTO has its schema, stored under its name, and nothing else
      has one. */
  lemma {:induction false} SchemasOfEntries(names: seq<string>, dtos: Dict<Dto>)
    ensures forall n :: SchemasOf(names, dtos).Has(n) <==> n in names && dtos.Has(n)
    ensures forall n :: n in names && dtos.Has(n) ==> SchemasOf(names, dtos).Get(n) == SchemaOf(dtos.Get(n))
    decreases |names|
  {
    if names != [] {
      var init := names[..|names| - 1];
      SchemasOfEntries(init, dtos);
      assert names == init + [names[|names| - 1]];
    }
  }

  /** `Object.keys` lists exactly the names of the key list. */
  lemma ObjectKeysMembers(order: seq<string>)
    ensures forall n :: n in ObjectKeys(order) <==> n in order
  {
    ObjectKeysPermutation(order);
    forall n ensures n in ObjectKeys(order) <==> n in order {
      assert n in ObjectKeys(order) <==> n in multiset(ObjectKeys(order));
      assert n in order <==> n in multiset(order);
    }
  }

  /** Over the keys of a well-formed DTO map, in `Object.keys` order, every DTO gets its
      schema and only DTOs get one. */
  lemma SchemasCoverDtos(dtos: Dict<Dto>)
    requires dtos.Valid()
    ensures forall n :: SchemasOf(ObjectKeys(dtos.order), dtos).Has(n) <==> dtos.Has(n)
    ensures forall n :: dtos.Has(n) ==> SchemasOf(ObjectKeys(dtos.order), dtos).Get(n) == SchemaOf(dtos.Get(n))
  {
    ObjectKeysMembers(dtos.order);
    SchemasOfEntries(ObjectKeys(dtos.order), dtos);
  }

  // ---------------------------------------------------------------------------------------
  // Markdown

  /** A value interpolated into a template string: `undefined` when absent. */
  function Interpolated(o: Option<string>): string {
    if o.Some? then o.value else "undefined"
  }

  /** One line of a parameter list. */
  function ParamLine(p: NamedParam): string {
    "- `" + p.name + "` (" + p.typeName + ")" + (if p.required then " - required" else "") + "\n"
  }

  function Lines(ps: seq<NamedParam>): string
    decreases |ps|
  {
    if ps == [] then "" else Lines(ps[..|ps| - 1]) + ParamLine(ps[|ps| - 1])
  }

  /** A titled parameter list, printed only when the list is non-empty. */
  function ListSection(title: string, ps: seq<NamedParam>): (s: string)
    ensures ps == [] <==> s == ""
  {
    if ps == [] then "" else title + Lines(ps) + "\n"
  }

  /** The request-body section (a body record carries no schema, so no property list). */
  function BodySection(body: Option<BodyParam>): string {
    if body.Some? then "**Request Body:**\n" + ("- Type: " + body.value.typeName + "\n") + "\n" else ""
  }

  function ParametersSection(parameters: Option<Parameters>): string {
    if parameters.None? then ""
    else
      var p := parameters.value;
      BodySection(p.body) + ListSection("**Query Parameters:**\n", p.query) +
      ListSection("**Path Parameters:**\n", p.params) + ListSection("**Headers:**\n", p.headers)
  }

  function HeadLine(r: Route): string {
    "### " + r.httpMethod + " " + r.path + "\n\n"
  }

  function ControllerLine(r: Route): string {
    "**Controller:** " + Interpolated(r.controller) + "\n"
  }

  /** `if (route.file)`: a file line only for a non-empty file name. */
  function FileLine(r: Route): string {
    if r.file != "" then "**File:** " + r.file + "\n" else ""
  }

  /** The block of one route: heading, controller, file, a blank line, the parameter
      sections, and the closing rule. */
  function RouteBlock(r: Route): string {
    HeadLine(r) + ControllerLine(r) + FileLine(r) + "\n" + ParametersSection(r.parameters) + "---\n\n"
  }

  /** A block opens with the route's heading and closes with the horizontal rule. */
  lemma RouteBlockFrame(r: Route)
    ensures |RouteBlock(r)| >= |HeadLine(r)| + 5
    ensures RouteBlock(r)[..|HeadLine(r)|] == HeadLine(r)
    ensures RouteBlock(r)[|RouteBlock(r)| - 5..] == "---\n\n"
  {
    var head, c, f, p := HeadLine(r), ControllerLine(r), FileLine(r), ParametersSection(r.parameters);
    var tail := "---\n\n";
    AppendAfter(head, c, f, c + f);
    AppendAfter(head, c + f, "\n", c + f + "\n");
    AppendAfter(head, c + f + "\n", p, c + f + "\n" + p);
    var middle := c + f + "\n" + p;
    assert RouteBlock(r) == head + middle + tail;
    AppendAfter(head, middle, tail, middle + tail);
    assert RouteBlock(r) == head + (middle + tail);
    assert (head + (middle + tail))[..|head|] == head;
    assert (head + middle + tail)[|head + middle|..] == tail;
  }

  function RoutesText(rs: seq<Route>): string
    decreases |rs|
  {
    if rs == [] then "" else RoutesText(rs[..|rs| - 1]) + RouteBlock(rs[|rs| - 1])
  }

  /** The routes grouped by `controller || 'default'`, groups in first-seen order. */
  function GroupRoutes(rs: seq<Route>): (g: Dict<seq<Route>>)
    ensures g.Valid()
    decreases |rs|
  {
    if rs == [] then Empty() else AddToGroup(GroupRoutes(rs[..|rs| - 1]), rs[|rs| - 1])
  }

  /** Pushes a route onto its group, creating the group when it has none. */
  function AddToGroup(groups: Dict<seq<Route>>, r: Route): (g: Dict<seq<Route>>)
    requires groups.Valid()
    ensures g.Valid()
  {
    var tag := ControllerTag(r);
    var group := if groups.Has(tag) then groups.Get(tag) else [];
    SetValid(groups, tag, group + [r]);
    groups.Set(tag, group + [r])
  }

  /** The routes with a given tag, in input order. */
  function WithTag(rs: seq<Route>, tag: string): seq<Route>
    decreases |rs|
  {
    if rs == [] then []
    else WithTag(rs[..|rs| - 1], tag) + (if ControllerTag(rs[|rs| - 1]) == tag then [rs[|rs| - 1]] else [])
  }

  /** `keys` lists the distinct values of `tags`, each before every later key's first
      occurrence. */
  ghost predicate FirstSeenOrder(keys: seq<string>, tags: seq<string>) {
    (forall i, j :: 0 <= i < j < |keys| ==> keys[i] != keys[j]) &&
    (forall k :: k in keys <==> k in tags) &&
    (forall i, j, b :: 0 <= i < j < |keys| && 0 <= b < |tags| && tags[b] == keys[j] ==>
       exists a :: 0 <= a < b && tags[a] == keys[i])
  }

  function Tags(rs: seq<Route>): (tags: seq<string>)
    ensures |tags| == |rs|
    ensures forall i :: 0 <= i < |rs| ==> tags[i] == ControllerTag(rs[i])
    decreases |rs|
  {
    if rs == [] then [] else Tags(rs[..|rs| - 1]) + [ControllerTag(rs[|rs| - 1])]
  }

  /** Each group holds exactly the routes of its tag in input order, there is a group for
      every tag and no other, and groups are ordered by first appearance. */
  lemma {:induction false} GroupRoutesProperties(rs: seq<Route>)
    ensures forall tag :: GroupRoutes(rs).Has(tag) <==> tag in Tags(rs)
    ensures forall tag :: GroupRoutes(rs).Has(tag) ==> GroupRoutes(rs).Get(tag) == WithTag(rs, tag)
    ensures FirstSeenOrder(GroupRoutes(rs).order, Tags(rs))
    decreases |rs|
  {
    if rs != [] {
      var init := rs[..|rs| - 1];
      var r := rs[|rs| - 1];
      var t := ControllerTag(r);
      GroupRoutesProperties(init);
      var prev := GroupRoutes(init);
      var g := GroupRoutes(rs);
      var tags := Tags(rs);
      assert tags == Tags(init) + [t];
      forall tag | g.Has(tag) ensures g.Get(tag) == WithTag(rs, tag) {
        if tag != t {
          assert WithTag(rs, tag) == WithTag(init, tag) + [];
        } else if !prev.Has(t) {
          assert t !in Tags(init);
          WithTagAbsent(init, t);
        }
      }
      FirstSeenStep(prev.order, Tags(init), t);
    }
  }

  /** A tag that occurs nowhere selects nothing. */
  lemma {:induction false} WithTagAbsent(rs: seq<Route>, tag: string)
    requires tag !in Tags(rs)
    ensures WithTag(rs, tag) == []
    decreases |rs|
  {
    if rs != [] {
      var init := rs[..|rs| - 1];
      assert Tags(rs) == Tags(init) + [ControllerTag(rs[|rs| - 1])];
      WithTagAbsent(init, tag);
    }
  }

  /** Appending one tag keeps the first-seen order, adding the tag at the end when new. */
  lemma FirstSeenStep(keys: seq<string>, tags: seq<string>, t: string)
    requires FirstSeenOrder(keys, tags)
    ensures FirstSeenOrder(if t in keys then keys else keys + [t], tags + [t])
  {
    var keys' := if t in keys then keys else keys + [t];
    var tags' := tags + [t];
    forall k ensures k in keys' <==> k in tags' {
      assert k in tags' <==> k in tags || k == t;
    }
    forall i, j | 0 <= i < j < |keys'| ensures keys'[i] != keys'[j] {
      if j == |keys| {
        assert keys'[i] == keys[i] && keys[i] in keys;
      }
    }
    forall i, j, b | 0 <= i < j < |keys'| && 0 <= b < |tags'| && tags'[b] == keys'[j]
      ensures exists a :: 0 <= a < b && tags'[a] == keys'[i]
    {
      assert keys'[i] == keys[i];
      if b < |tags| {
        assert tags'[b] == tags[b];
        assert j < |keys|;
        assert keys'[j] == keys[j];
        var a :| 0 <= a < b && tags[a] == keys[i];
        assert tags'[a] == tags[a];
      } else {
        assert keys[i] in tags;
        var a :| 0 <= a < |tags| && tags[a] == keys[i];
        assert tags'[a] == tags[a];
      }
    }
    assert forall i, j :: 0 <= i < j < |keys'| ==> keys'[i] != keys'[j];
    assert forall k :: k in keys' <==> k in tags';
    assert FirstSeenOrder(keys', tags');
  }

  /** The text of the groups, in the given key order. */
  function GroupsText(keys: seq<string>, groups: Dict<seq<Route>>): string
    requires forall k :: 0 <= k < |keys| ==> groups.Has(keys[k])
    decreases |keys|
  {
    if keys == [] then ""
    else
      var key := keys[|keys| - 1];
      GroupsText(keys[..|keys| - 1], groups) + GroupText(key, groups.Get(key))
  }

  function GroupText(key: string, rs: seq<Route>): string {
    "## " + key + "\n\n" + RoutesText(rs)
  }

  function Header(title: string, description: string): string {
    "# " + title + "\n\n" + (description + "\n\n")
  }

  /** The Markdown document: the header, then the groups in `Object.keys` order. */
  function MarkdownOf(routes: seq<Route>, title: string, description: string): string {
    var groups := GroupRoutes(routes);
    GroupKeys(groups);
    Header(title, description) + GroupsText(ObjectKeys(groups.order), groups)
  }

  /** Every key `Object.keys` lists is a group of the grouping. */
  lemma GroupKeys(groups: Dict<seq<Route>>)
    requires groups.Valid()
    ensures forall k :: 0 <= k < |ObjectKeys(groups.order)| ==> groups.Has(ObjectKeys(groups.order)[k])
  {
    ObjectKeysPermutation(groups.order);
    forall k | 0 <= k < |ObjectKeys(groups.order)| ensures groups.Has(ObjectKeys(groups.order)[k]) {
      var key := ObjectKeys(groups.order)[k];
      assert key in multiset(ObjectKeys(groups.order));
      assert key in multiset(groups.order);
    }
  }

  /** When no tag is an array index (identifiers, `default`), the sections follow the
      first appearance of their controllers. */
  lemma SectionsInFirstSeenOrder(routes: seq<Route>)
    requires forall i :: 0 <= i < |routes| ==> !IsArrayIndex(ControllerTag(routes[i]))
    ensures ObjectKeys(GroupRoutes(routes).order) == GroupRoutes(routes).order
    ensures FirstSeenOrder(GroupRoutes(routes).order, Tags(routes))
  {
    var g := GroupRoutes(routes);
    GroupRoutesProperties(routes);
    forall i | 0 <= i < |g.order| ensures !IsArrayIndex(g.order[i]) {
      assert g.order[i] in Tags(routes);
    }
    ObjectKeysInsertionOrder(g.order);
  }
}
