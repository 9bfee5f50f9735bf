/**
 * The annotation-aware NestJS scanner as the object it is: three collections that its
 * scanning methods fill in place, a `while (exec)` loop per decorator pattern, and the
 * final de-duplication by `method:path`. Each method is proved to compute exactly what the
 * functions of `NestRules` describe, and the properties are proved about those functions.
 */
module EnhancedNestJS {
  import opened Wrappers
  import opened Text
  import opened Regex
  import opened Dict
  import opened NodePath
  import opened Dedup
  import opened Model
  import opened NestRules

  class EnhancedNestJSScanner {
    var routes: seq<Route>
    var controllers: map<string, ControllerEntry>
    var dtos: Dict<Dto>

    /** The DTO map is well formed, each entry is stored under its own class name, and the
        names are identifiers. */
    ghost predicate Valid()
      reads this
    {
      dtos.Valid() && NamedByKey(dtos) && IdentifierKeys(dtos)
    }

    constructor ()
      ensures Valid()
      ensures routes == [] && controllers == map[] && dtos == Empty()
    {
      routes := [];
      controllers := map[];
      dtos := Empty();
    }

    /** `scanControllers`: every readable controller file (re)defines the entry under its
        basename, with its first `@Controller('…')` argument as base path. */
    method ScanControllers(files: seq<SourceFile>, fs: FileSystem)
      modifies this`controllers
      ensures controllers == ControllersAfter(old(controllers), files, fs)
    {
      var i := 0;
      while i < |files|
        invariant 0 <= i <= |files|
        invariant controllers == ControllersAfter(old(controllers), files[..i], fs)
      {
        var file := files[i];
        if file.path in fs {
          var content := fs[file.path];
          var controllerName := Basename(file.path, ".controller.ts");
          var basePath := BasePath(content);
          controllers := controllers[controllerName := ControllerEntry(file.relative, basePath, content)];
        }
        assert files[..i + 1][..i] == files[..i];
        i := i + 1;
      }
      assert files[..i] == files;
    }

    /** The handler after a decorator: for each of the two signature patterns in turn, the
        first match whose name passes the `@` guard. */
    static method FindHandler(afterDecorator: string) returns (h: Option<Match>)
      ensures h == Handler(afterDecorator)
    {
      var methodPatterns := [PromiseSignature, PlainSignature];
      HandlerChoice(afterDecorator);
      h := None;
      var i := 0;
      while i < |methodPatterns|
        invariant 0 <= i <= |methodPatterns|
        invariant i >= 1 ==> First(PromiseSignature, afterDecorator).None?
        invariant i >= 2 ==> First(PlainSignature, afterDecorator).None?
      {
        var pattern := methodPatterns[i];
        assert pattern == if i == 0 then PromiseSignature else PlainSignature;
        var methodMatch := FirstFrom(pattern, afterDecorator, 0);
        if methodMatch.Some? {
          var m := methodMatch.value;
          assert SignatureAt(afterDecorator, m.start, i == 0) == Some(Attempt(m.end, m.groups));
          var methodName := m.groups[0];
          IdentifierHasNoAt(methodName);
          if |methodName| > 0 && '@' !in methodName {
            h := methodMatch;
            return;
          }
        }
        i := i + 1;
      }
    }

    /** `parseMethodParameters`: the first `@Body()` binding, then every `@Query`, `@Param` and
        `@Headers` binding in source order. */
    static method ParseMethodParameters(paramString: string) returns (params: Parameters)
      ensures params == ParametersOf(paramString)
    {
      var body: Option<BodyParam> := None;
      var bodyMatch := First(BodyBinding, paramString);
      if bodyMatch.Some? {
        PatternGroups();
        FirstFromGroups(BodyBinding, paramString, 0, 2);
        var cleanType := Trim(ReplaceFirst(PromiseType, bodyMatch.value.groups[1], ""));
        body := Some(BodyParam(bodyMatch.value.groups[0], cleanType, true));
      }
      var query := CollectKeyed("Query", paramString, false);
      var pathParams := CollectKeyed("Param", paramString, true);
      var headers := CollectKeyed("Headers", paramString, false);
      params := Parameters(body, query, pathParams, headers);
    }

    /** One `for (const match of paramString.matchAll(…))` loop: an entry per match. */
    static method CollectKeyed(decorator: string, paramString: string, required: bool) returns (list: seq<NamedParam>)
      ensures list == Keyed(decorator, paramString, required)
    {
      var matches := All(KeyedBinding(decorator), paramString);
      KeyedMatchesShape(decorator, paramString, 0);
      list := [];
      for i := 0 to |matches|
        invariant list == NamedFrom(matches[..i], required)
      {
        var m := matches[i];
        NamedFromStep(matches, i, required);
        list := list + [NamedParam(m.groups[0], m.groups[1], Trim(m.groups[2]), required)];
      }
      assert matches[..|matches|] == matches;
    }

    /** The `while (exec)` loop of one verb over one controller file: a route for every
        decorator match that a handler signature follows. */
    method ScanVerb(verb: string, content: string, controllerName: string, controller: ControllerEntry)
      modifies this`routes
      ensures routes == old(routes) + VerbRoutes(verb, content, controllerName, controller)
    {
      var methodRegex := VerbDecorator(verb);
      var from: nat := 0;
      var next := FirstFrom(methodRegex, content, from);
      ghost var done: seq<Match> := [];
      VerbMatchesShape(verb, content, 0);
      while next.Some?
        invariant next == FirstFrom(methodRegex, content, from)
        invariant done + AllFrom(methodRegex, content, from) == All(methodRegex, content)
        invariant DecoratorMatches(done, content)
        invariant routes == old(routes) + RoutesFromMatches(verb, done, content, controllerName, controller)
        decreases |content| + 1 - from
      {
        var m := next.value;
        ExecStep(methodRegex, content, from, done);
        assert DecoratorMatches(done + [m], content);
        PushDecoratorRoute(verb, m, content, controllerName, controller);
        RoutesFromMatchesStep(verb, done, m, content, controllerName, controller);
        AppendAfter(old(routes), RoutesFromMatches(verb, done, content, controllerName, controller),
                    OptionSeq(DecoratorRoute(verb, m, content, controllerName, controller)),
                    RoutesFromMatches(verb, done + [m], content, controllerName, controller));
        done := done + [m];
        from := m.end;
        next := FirstFrom(methodRegex, content, from);
      }
      ExecDone(methodRegex, content, from, done);
    }

    /** The body of one `exec` iteration: the route for decorator match `m`, pushed only
        when a handler signature follows the decorator. */
    method PushDecoratorRoute(verb: string, m: Match, content: string, controllerName: string, controller: ControllerEntry)
      requires m.end <= |content| && |m.groups| == 1
      modifies this`routes
      ensures routes == old(routes) + OptionSeq(DecoratorRoute(verb, m, content, controllerName, controller))
    {
      var routePath := m.groups[0];
      var handler := FindHandler(content[m.end..]);
      if handler.Some? {
        var methodName := handler.value.groups[0];
        var fullPath := Slashes(Join(controller.basePath, routePath));
        var params := ParseMethodParameters(handler.value.groups[1]);
        routes := routes + [Route(Upper(verb), if fullPath == "" then "/" else fullPath,
                                  Some(controllerName), controller.file, Some(methodName),
                                  Some(params), None)];
      }
    }

    /** The eight verbs in order over one controller file with a controller entry. */
    method ScanFile(file: SourceFile, fs: FileSystem)
      modifies this`routes
      ensures routes == old(routes) + FileRoutes(file, fs, controllers)
    {
      if file.path in fs {
        var content := fs[file.path];
        var controllerName := Basename(file.path, ".controller.ts");
        if controllerName in controllers {
          var controller := controllers[controllerName];
          var j := 0;
          while j < |HttpMethods|
            invariant 0 <= j <= |HttpMethods|
            invariant routes == old(routes) + VerbsRoutes(HttpMethods[..j], content, controllerName, controller)
          {
            ScanVerb(HttpMethods[j], content, controllerName, controller);
            VerbsRoutesStep(HttpMethods, j, content, controllerName, controller);
            AppendAfter(old(routes), VerbsRoutes(HttpMethods[..j], content, controllerName, controller),
                        VerbRoutes(HttpMethods[j], content, controllerName, controller),
                        VerbsRoutes(HttpMethods[..j + 1], content, controllerName, controller));
            j := j + 1;
          }
          assert HttpMethods[..j] == HttpMethods;
        }
      }
    }

    /** `scanRoutes`: the controller files in order. */
    method ScanRoutes(files: seq<SourceFile>, fs: FileSystem)
      modifies this`routes
      ensures routes == old(routes) + RoutesOfFiles(files, fs, controllers)
    {
      var i := 0;
      while i < |files|
        invariant 0 <= i <= |files|
        invariant routes == old(routes) + RoutesOfFiles(files[..i], fs, controllers)
      {
        ScanFile(files[i], fs);
        RoutesOfFilesStep(files, i, fs, controllers);
        AppendAfter(old(routes), RoutesOfFiles(files[..i], fs, controllers), FileRoutes(files[i], fs, controllers),
                    RoutesOfFiles(files[..i + 1], fs, controllers));
        i := i + 1;
      }
      assert files[..i] == files;
    }

    /** `parseDTOProperties`: one property per decorated-property match, in order. */
    static method ParseDTOProperties(content: string) returns (properties: seq<DtoProperty>)
      ensures properties == PropertiesOf(content)
    {
      var propertyPattern := DecoratedProperty;
      properties := [];
      var from: nat := 0;
      var next := FirstFrom(propertyPattern, content, from);
      ghost var done: seq<Match> := [];
      PatternGroups();
      while next.Some?
        invariant next == FirstFrom(propertyPattern, content, from)
        invariant done + AllFrom(propertyPattern, content, from) == All(propertyPattern, content)
        invariant PropertyMatches(done)
        invariant properties == PropertiesFrom(done)
        decreases |content| + 1 - from
      {
        var m := next.value;
        ExecStep(propertyPattern, content, from, done);
        FirstFromGroups(propertyPattern, content, from, 3);
        var decorator, propertyName, propertyType := m.groups[0], m.groups[1], m.groups[2];
        var isRequired := IsRequiredDecorator(decorator);
        var isOptional := IsOptionalDecorator(decorator);
        var cleanType := CleanPropertyType(propertyType);
        PropertiesFromStep(done, m);
        properties := properties + [DtoProperty(propertyName, cleanType, isRequired, isOptional, decorator)];
        done := done + [m];
        from := m.end;
        next := FirstFrom(propertyPattern, content, from);
      }
      ExecDone(propertyPattern, content, from, done);
    }

    /** `scanDTOs`: every exported class of a readable DTO file is stored with the file's
        whole property list, replacing an earlier entry of the same name. */
    method ScanDTOs(files: seq<SourceFile>, fs: FileSystem)
      requires Valid()
      modifies this`dtos
      ensures Valid()
      ensures dtos == DtosAfter(old(dtos), files, fs)
    {
      var i := 0;
      while i < |files|
        invariant 0 <= i <= |files|
        invariant dtos == DtosAfter(old(dtos), files[..i], fs)
      {
        ScanDTOFile(files[i], fs);
        DtosAfterPrefix(old(dtos), files, i, fs);
        i := i + 1;
      }
      assert files[..i] == files;
      DtosAfterValid(old(dtos), files, fs);
      DtosAfterKeys(old(dtos), files, fs);
    }

    /** One DTO file of `scanDTOs`: each exported class name, in order, gets an entry. */
    method ScanDTOFile(file: SourceFile, fs: FileSystem)
      modifies this`dtos
      ensures dtos == DtoStep(old(dtos), file, fs)
    {
      if file.path in fs {
        var content := fs[file.path];
        var classNames := ClassNames(content);
        for k := 0 to |classNames|
          invariant dtos == ClassesStep(old(dtos), classNames[..k], file.relative, PropertiesOf(content))
        {
          var className := classNames[k];
          var properties := ParseDTOProperties(content);
          ClassesStepPrefix(old(dtos), classNames, k, file.relative, PropertiesOf(content));
          dtos := dtos.Set(className, Dto(className, file.relative, properties));
        }
        assert classNames[..|classNames|] == classNames;
      }
    }

    /** `removeDuplicates`: the `filter` with a `seen` set of `method:path` keys. */
    static method RemoveDuplicates(rs: seq<Route>) returns (unique: seq<Route>)
      ensures unique == Unique(rs, MethodPathKey, {})
    {
      var seen: set<string> := {};
      unique := [];
      var i := 0;
      while i < |rs|
        invariant 0 <= i <= |rs|
        invariant unique + Unique(rs[i..], MethodPathKey, seen) == Unique(rs, MethodPathKey, {})
      {
        var key := rs[i].httpMethod + ":" + rs[i].path;
        assert rs[i..][1..] == rs[i + 1..];
        if key !in seen {
          seen := seen + {key};
          unique := unique + [rs[i]];
        }
        i := i + 1;
      }
    }

    /** The `for … of this.dtos.entries()` copy into a plain object: the same entries, set
        in the map's order. */
    static method ToObject(d: Dict<Dto>) returns (obj: Dict<Dto>)
      requires d.Valid()
      ensures obj == d
    {
      obj := Empty();
      for i := 0 to |d.order|
        invariant obj.order == d.order[..i]
        invariant obj.values == map k | k in d.order[..i] :: d.values[k]
      {
        var key := d.order[i];
        assert key !in d.order[..i];
        obj := obj.Set(key, d.values[key]);
        assert d.order[..i + 1] == d.order[..i] + [key];
      }
      assert d.order[..|d.order|] == d.order;
    }

    /** `scan`: controllers, routes and DTOs from the given files, then the de-duplicated
        routes; the DTO object lists its classes in the order they were first stored. */
    method Scan(controllerFiles: seq<SourceFile>, dtoFiles: seq<SourceFile>, fs: FileSystem) returns (result: ScanResult)
      requires Valid()
      modifies this
      ensures Valid()
      ensures controllers == ControllersAfter(old(controllers), controllerFiles, fs)
      ensures routes == Unique(old(routes) + RoutesOfFiles(controllerFiles, fs, controllers), MethodPathKey, {})
      ensures dtos == DtosAfter(old(dtos), dtoFiles, fs)
      ensures result == ScanResult(routes, dtos)
      ensures ObjectKeys(result.dtos.order) == dtos.order
    {
      ScanControllers(controllerFiles, fs);
      ScanRoutes(controllerFiles, fs);
      ScanDTOs(dtoFiles, fs);
      routes := RemoveDuplicates(routes);
      var dtosObject := ToObject(dtos);
      IdentifierKeysObjectOrder(dtos);
      result := ScanResult(routes, dtosObject);
    }
  }

  /** `removeDuplicates` keeps exactly the first route of each `method:path`, in input order;
      its keys are distinct, and running it again changes nothing. */
  lemma RemoveDuplicatesProperties(rs: seq<Route>)
    ensures var u := Unique(rs, MethodPathKey, {});
      IsSubsequence(u, rs) && |u| <= |rs| &&
      (forall i, j :: 0 <= i < j < |u| ==> MethodPathKey(u[i]) != MethodPathKey(u[j])) &&
      (forall i :: 0 <= i < |rs| && FirstOfKey(rs, MethodPathKey, {}, i) ==> rs[i] in u) &&
      (forall r :: r in rs ==> exists r' :: r' in u && MethodPathKey(r') == MethodPathKey(r)) &&
      (exists idx :: FirstSeen(u, rs, MethodPathKey, {}, idx)) &&
      Unique(u, MethodPathKey, {}) == u
  {
    UniqueIsSubsequence(rs, MethodPathKey, {});
    UniqueKeysDistinct(rs, MethodPathKey, {});
    UniqueKeepsFirst(rs, MethodPathKey, {});
    UniqueCoversKeys(rs, MethodPathKey, {});
    UniqueIdempotent(rs, MethodPathKey);
  }
}
