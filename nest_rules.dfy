/**
 * What the annotation-aware NestJS scanner extracts, stated as functions of the file
 * contents: the controller base path, one route per verb decorator that is followed by a
 * handler signature, the decorated handler parameters, the DTO classes and their
 * properties, and the string key that de-duplicates routes. The scanner class in
 * `EnhancedNestJSScanner` computes the same things with loops over the files and matches.
 */
module NestRules {
  import opened Wrappers
  import opened Text
  import opened Regex
  import opened Dict
  import opened NodePath
  import opened Model

  /** The verbs whose decorators are searched for, in search order. */
  const HttpMethods: seq<string> := ["Get", "Post", "Put", "Delete", "Patch", "Options", "Head", "All"]

  const RequiredDecorators: seq<string> := [
    "MandatoryString", "MandatoryNumber", "MandatoryBoolean", "MandatoryDate",
    "MandatoryArray", "MandatoryObject", "MandatoryNested", "MandatoryEnum",
    "ApiProperty", "IsString", "IsNumber", "IsBoolean", "IsDate", "IsArray", "IsObject"]

  const OptionalDecorators: seq<string> := [
    "OptionalString", "OptionalNumber", "OptionalBoolean", "OptionalDate",
    "OptionalArray", "OptionalObject", "OptionalNested", "OptionalEnum",
    "ApiPropertyOptional", "IsOptional"]

  /** The controller map's entry for one controller file. */
  datatype ControllerEntry = ControllerEntry(file: string, basePath: string, content: string)

  /** `path.basename(file, '.controller.ts')`. */
  function ControllerName(f: SourceFile): string {
    Basename(f.path, ".controller.ts")
  }

  // ---------------------------------------------------------------------------------------
  // Controllers

  /** The argument of the first `@Controller('…')`, or "" when there is none. */
  function BasePath(content: string): (b: string)
    ensures First(ControllerDecorator, content).None? ==> b == ""
    ensures First(ControllerDecorator, content).Some? ==>
              StartsAt(content, First(ControllerDecorator, content).value.start + 13, b)
  {
    match First(ControllerDecorator, content)
    case Some(m) =>
      assert ControllerAt(content, m.start) == Some(Attempt(m.end, m.groups));
      m.groups[0]
    case None => ""
  }

  /** One controller file: a readable file (re)defines the entry under its name. */
  function ControllerStep(ctrls: map<string, ControllerEntry>, f: SourceFile, fs: FileSystem): map<string, ControllerEntry> {
    if f.path !in fs then ctrls
    else ctrls[ControllerName(f) := ControllerEntry(f.relative, BasePath(fs[f.path]), fs[f.path])]
  }

  /** The controller map after visiting `files` in order. */
  function ControllersAfter(ctrls: map<string, ControllerEntry>, files: seq<SourceFile>, fs: FileSystem): map<string, ControllerEntry>
    decreases |files|
  {
    if files == [] then ctrls
    else ControllerStep(ControllersAfter(ctrls, files[..|files| - 1], fs), files[|files| - 1], fs)
  }

  /** `f` is a readable controller file whose basename is `name`. */
  predicate Defines(f: SourceFile, fs: FileSystem, name: string) {
    f.path in fs && ControllerName(f) == name
  }

  function EntryOf(f: SourceFile, fs: FileSystem): ControllerEntry
    requires f.path in fs
  {
    ControllerEntry(f.relative, BasePath(fs[f.path]), fs[f.path])
  }

  /** The entry under a name comes from the LAST readable file with that basename: two
      controller files with the same basename share the later one's base path and file. */
  lemma {:induction false} ControllersAfterLast(ctrls: map<string, ControllerEntry>, files: seq<SourceFile>, fs: FileSystem, name: string, i: nat)
    requires i < |files| && Defines(files[i], fs, name)
    requires forall j :: i < j < |files| ==> !Defines(files[j], fs, name)
    ensures name in ControllersAfter(ctrls, files, fs)
    ensures ControllersAfter(ctrls, files, fs)[name] == EntryOf(files[i], fs)
    decreases |files|
  {
    var prefix := files[..|files| - 1];
    var f := files[|files| - 1];
    if i < |files| - 1 {
      forall j | i < j < |prefix| ensures !Defines(prefix[j], fs, name) {
        assert prefix[j] == files[j];
      }
      ControllersAfterLast(ctrls, prefix, fs, name, i);
      assert !Defines(f, fs, name);
    }
  }

  /** A name that no readable file has keeps its old entry (or stays absent). */
  lemma {:induction false} ControllersAfterOther(ctrls: map<string, ControllerEntry>, files: seq<SourceFile>, fs: FileSystem, name: string)
    requires forall j :: 0 <= j < |files| ==> !Defines(files[j], fs, name)
    ensures name in ControllersAfter(ctrls, files, fs) <==> name in ctrls
    ensures name in ctrls ==> ControllersAfter(ctrls, files, fs)[name] == ctrls[name]
    decreases |files|
  {
    if files != [] {
      var prefix := files[..|files| - 1];
      forall j | 0 <= j < |prefix| ensures !Defines(prefix[j], fs, name) {
        assert prefix[j] == files[j];
      }
      ControllersAfterOther(ctrls, prefix, fs, name);
      assert !Defines(files[|files| - 1], fs, name);
    }
  }

  // ---------------------------------------------------------------------------------------
  // Routes

  /** The handler after a decorator: the first `name(…): Promise<…>` signature, else the
      first `name(…): T` signature. Groups: handler name, parameter text. */
  function Handler(after: string): (h: Option<Match>)
    ensures h.Some? ==> |h.value.groups| >= 2 && IsIdentifier(h.value.groups[0]) && ')' !in h.value.groups[1]
  {
    PatternGroups();
    FirstFromGroups(PromiseSignature, after, 0, 2);
    PatternGroups();
    FirstFromGroups(PlainSignature, after, 0, 3);
    match First(PromiseSignature, after)
    case Some(m) =>
      assert SignatureAt(after, m.start, true) == Some(Attempt(m.end, m.groups));
      Some(m)
    case None =>
      match First(PlainSignature, after)
      case Some(m) =>
        assert SignatureAt(after, m.start, false) == Some(Attempt(m.end, m.groups));
        Some(m)
      case None => None
  }

  /** The Promise-typed signature is preferred; the general one is the fallback. */
  lemma HandlerChoice(after: string)
    ensures First(PromiseSignature, after).Some? ==> Handler(after) == First(PromiseSignature, after)
    ensures First(PromiseSignature, after).None? ==> Handler(after) == First(PlainSignature, after)
  {
  }

  /** `path.join(basePath, routePath).replace(/\\/g, '/') || '/'`. */
  function RoutePath(basePath: string, routePath: string): string {
    var fullPath := Slashes(Join(basePath, routePath));
    if fullPath == "" then "/" else fullPath
  }

  /** The route for one verb-decorator match, if a handler signature follows it. */
  function DecoratorRoute(verb: string, m: Match, content: string, name: string, ctrl: ControllerEntry): Option<Route>
    requires m.end <= |content| && |m.groups| == 1
  {
    match Handler(content[m.end..])
    case None => None
    case Some(h) =>
      Some(Route(Upper(verb), RoutePath(ctrl.basePath, m.groups[0]), Some(name), ctrl.file,
                 Some(h.groups[0]), Some(ParametersOf(h.groups[1])), None))
  }

  predicate DecoratorMatches(ms: seq<Match>, content: string) {
    forall k :: 0 <= k < |ms| ==> ms[k].end <= |content| && |ms[k].groups| == 1
  }

  lemma VerbMatchesShape(verb: string, content: string, from: nat)
    ensures DecoratorMatches(AllFrom(VerbDecorator(verb), content, from), content)
  {
    PatternGroups();
    AllFromGroups(VerbDecorator(verb), content, from, 1);
  }

  function OptionSeq<T>(o: Option<T>): seq<T> {
    match o
    case Some(x) => [x]
    case None => []
  }

  /** The routes pushed for the decorator matches `ms`, in match order. */
  function RoutesFromMatches(verb: string, ms: seq<Match>, content: string, name: string, ctrl: ControllerEntry): seq<Route>
    requires DecoratorMatches(ms, content)
    decreases |ms|
  {
    if ms == [] then []
    else
      RoutesFromMatches(verb, ms[..|ms| - 1], content, name, ctrl) +
      OptionSeq(DecoratorRoute(verb, ms[|ms| - 1], content, name, ctrl))
  }

  lemma RoutesFromMatchesStep(verb: string, done: seq<Match>, m: Match, content: string, name: string, ctrl: ControllerEntry)
    requires DecoratorMatches(done, content) && m.end <= |content| && |m.groups| == 1
    ensures DecoratorMatches(done + [m], content)
    ensures RoutesFromMatches(verb, done + [m], content, name, ctrl) ==
      RoutesFromMatches(verb, done, content, name, ctrl) + OptionSeq(DecoratorRoute(verb, m, content, name, ctrl))
  {
    assert (done + [m])[..|done|] == done;
  }

  /** The routes one verb contributes for one controller file. */
  function VerbRoutes(verb: string, content: string, name: string, ctrl: ControllerEntry): seq<Route> {
    VerbMatchesShape(verb, content, 0);
    RoutesFromMatches(verb, All(VerbDecorator(verb), content), content, name, ctrl)
  }

  /** The routes the verbs `verbs` contribute, verb by verb. */
  function VerbsRoutes(verbs: seq<string>, content: string, name: string, ctrl: ControllerEntry): seq<Route>
    decreases |verbs|
  {
    if verbs == [] then []
    else VerbsRoutes(verbs[..|verbs| - 1], content, name, ctrl) + VerbRoutes(verbs[|verbs| - 1], content, name, ctrl)
  }

  /** The routes of one controller file: none when it cannot be read or has no entry. */
  function FileRoutes(f: SourceFile, fs: FileSystem, ctrls: map<string, ControllerEntry>): seq<Route> {
    if f.path !in fs || ControllerName(f) !in ctrls then []
    else VerbsRoutes(HttpMethods, fs[f.path], ControllerName(f), ctrls[ControllerName(f)])
  }

  lemma VerbsRoutesStep(verbs: seq<string>, j: nat, content: string, name: string, ctrl: ControllerEntry)
    requires j < |verbs|
    ensures VerbsRoutes(verbs[..j + 1], content, name, ctrl) ==
      VerbsRoutes(verbs[..j], content, name, ctrl) + VerbRoutes(verbs[j], content, name, ctrl)
  {
    assert verbs[..j + 1][..j] == verbs[..j];
  }

  function RoutesOfFiles(files: seq<SourceFile>, fs: FileSystem, ctrls: map<string, ControllerEntry>): seq<Route>
    decreases |files|
  {
    if files == [] then []
    else RoutesOfFiles(files[..|files| - 1], fs, ctrls) + FileRoutes(files[|files| - 1], fs, ctrls)
  }

  /** An identifier holds no `@`, so the source's `!methodName.includes('@')` guard always
      passes and the first signature match is the one used. */
  lemma IdentifierHasNoAt(name: string)
    requires IsIdentifier(name)
    ensures |name| > 0 && '@' !in name
  {
    forall k | 0 <= k < |name| ensures name[k] != '@' {
      assert k == 0 || IsIdentChar(name[k]);
    }
  }

  /** The joined route path is never empty, so the `|| '/'` fallback never applies. */
  lemma RoutePathJoined(basePath: string, routePath: string)
    ensures RoutePath(basePath, routePath) == Slashes(Join(basePath, routePath))
    ensures RoutePath(basePath, routePath) != ""
    ensures RoutePath("", "") == "."
  {
  }

  /** A decorator match gives a route exactly when a handler signature follows it; that route
      has the upper-cased verb, the joined path, the handler's name, the controller's file,
      and empty parameters, because the captured parameter text never holds a `)`. */
  lemma DecoratorRouteShape(verb: string, m: Match, content: string, name: string, ctrl: ControllerEntry)
    requires m.end <= |content| && |m.groups| == 1
    ensures var r := DecoratorRoute(verb, m, content, name, ctrl);
      (r.Some? <==> Handler(content[m.end..]).Some?) &&
      (r.Some? ==>
        r.value.httpMethod == Upper(verb) &&
        r.value.path == Slashes(Join(ctrl.basePath, m.groups[0])) && r.value.path != "" &&
        r.value.controller == Some(name) && r.value.file == ctrl.file &&
        r.value.methodName == Some(Handler(content[m.end..]).value.groups[0]) &&
        IsIdentifier(r.value.methodName.value) && '@' !in r.value.methodName.value &&
        r.value.parameters == Some(NoParameters) && r.value.framework.None?)
  {
    var h := Handler(content[m.end..]);
    if h.Some? {
      ParametersWithoutParen(h.value.groups[1]);
      IdentifierHasNoAt(h.value.groups[0]);
      RoutePathJoined(ctrl.basePath, m.groups[0]);
    }
  }

  /** What every route of a verb's matches carries. */
  predicate VerbRoute(r: Route, verb: string, name: string, ctrl: ControllerEntry) {
    r.httpMethod == Upper(verb) && r.path != "" && r.controller == Some(name) &&
    r.file == ctrl.file && r.methodName.Some? && IsIdentifier(r.methodName.value) &&
    r.parameters == Some(NoParameters)
  }

  /** The route comes from one of `verbs`. */
  predicate FromSomeVerb(r: Route, verbs: seq<string>, name: string, ctrl: ControllerEntry) {
    exists v :: v in verbs && VerbRoute(r, v, name, ctrl)
  }

  /** Each decorator occurrence yields at most one route, and each route has the verb's
      upper-cased name, a non-empty path and empty parameters. */
  lemma {:induction false} RoutesFromMatchesShape(verb: string, ms: seq<Match>, content: string, name: string, ctrl: ControllerEntry)
    requires DecoratorMatches(ms, content)
    ensures |RoutesFromMatches(verb, ms, content, name, ctrl)| <= |ms|
    ensures forall k :: 0 <= k < |RoutesFromMatches(verb, ms, content, name, ctrl)| ==>
      VerbRoute(RoutesFromMatches(verb, ms, content, name, ctrl)[k], verb, name, ctrl)
    decreases |ms|
  {
    if ms != [] {
      RoutesFromMatchesShape(verb, ms[..|ms| - 1], content, name, ctrl);
      DecoratorRouteShape(verb, ms[|ms| - 1], content, name, ctrl);
    }
  }

  lemma VerbRoutesShape(verb: string, content: string, name: string, ctrl: ControllerEntry)
    ensures forall k :: 0 <= k < |VerbRoutes(verb, content, name, ctrl)| ==>
      VerbRoute(VerbRoutes(verb, content, name, ctrl)[k], verb, name, ctrl)
  {
    VerbMatchesShape(verb, content, 0);
    RoutesFromMatchesShape(verb, All(VerbDecorator(verb), content), content, name, ctrl);
  }

  /** Every route of `rs` comes from one of `verbs`. */
  predicate AllFromVerbs(rs: seq<Route>, verbs: seq<string>, name: string, ctrl: ControllerEntry) {
    forall k :: 0 <= k < |rs| ==> FromSomeVerb(rs[k], verbs, name, ctrl)
  }

  lemma AllFromVerbsAppend(before: seq<Route>, prefix: seq<string>, last: seq<Route>, v: string,
                           verbs: seq<string>, name: string, ctrl: ControllerEntry)
    requires AllFromVerbs(before, prefix, name, ctrl)
    requires forall k :: 0 <= k < |last| ==> VerbRoute(last[k], v, name, ctrl)
    requires v in verbs && forall x :: x in prefix ==> x in verbs
    ensures AllFromVerbs(before + last, verbs, name, ctrl)
  {
    var rs := before + last;
    forall k | 0 <= k < |rs|
      ensures FromSomeVerb(rs[k], verbs, name, ctrl)
    {
      if k < |before| {
        assert FromSomeVerb(before[k], prefix, name, ctrl);
        var v' :| v' in prefix && VerbRoute(before[k], v', name, ctrl);
        assert v' in verbs && rs[k] == before[k];
      } else {
        assert rs[k] == last[k - |before|];
        assert VerbRoute(rs[k], v, name, ctrl);
      }
    }
  }

  /** Every route of a controller file comes from one of the given verbs. */
  lemma {:induction false} VerbsRoutesShape(verbs: seq<string>, content: string, name: string, ctrl: ControllerEntry)
    ensures AllFromVerbs(VerbsRoutes(verbs, content, name, ctrl), verbs, name, ctrl)
    decreases |verbs|
  {
    if verbs != [] {
      var prefix := verbs[..|verbs| - 1];
      var v := verbs[|verbs| - 1];
      var before := VerbsRoutes(prefix, content, name, ctrl);
      var last := VerbRoutes(v, content, name, ctrl);
      assert VerbsRoutes(verbs, content, name, ctrl) == before + last;
      forall x | x in prefix ensures x in verbs {
        var j :| 0 <= j < |prefix| && prefix[j] == x;
        assert verbs[j] == x;
      }
      VerbsRoutesShape(prefix, content, name, ctrl);
      VerbRoutesShape(v, content, name, ctrl);
      AllFromVerbsAppend(before, prefix, last, v, verbs, name, ctrl);
    }
  }

  /** The annotation scanner's methods are the eight verbs, upper-cased. */
  lemma FileRoutesMethods(f: SourceFile, fs: FileSystem, ctrls: map<string, ControllerEntry>)
    ensures f.path in fs && ControllerName(f) in ctrls ==>
      AllFromVerbs(FileRoutes(f, fs, ctrls), HttpMethods, ControllerName(f), ctrls[ControllerName(f)])
    ensures f.path !in fs || ControllerName(f) !in ctrls ==> FileRoutes(f, fs, ctrls) == []
  {
    if f.path in fs && ControllerName(f) in ctrls {
      VerbsRoutesShape(HttpMethods, fs[f.path], ControllerName(f), ctrls[ControllerName(f)]);
    }
  }

  /** A bare `@Get()` (any verb with an empty argument list) never matches: the decorator
      pattern needs a quote right after the `(`. */
  lemma BareDecoratorNoMatch(verb: string, s: string, i: nat)
    requires StartsAt(s, i, "@" + verb + "()")
    ensures MatchAt(VerbDecorator(verb), s, i).None?
  {
    StartsAtChar(s, i, "@" + verb + "()", |verb| + 2);
  }

  lemma RoutesOfFilesStep(files: seq<SourceFile>, i: nat, fs: FileSystem, ctrls: map<string, ControllerEntry>)
    requires i < |files|
    ensures RoutesOfFiles(files[..i + 1], fs, ctrls) == RoutesOfFiles(files[..i], fs, ctrls) + FileRoutes(files[i], fs, ctrls)
  {
    assert files[..i + 1][..i] == files[..i];
  }

  // ---------------------------------------------------------------------------------------
  // Decorated handler parameters

  predicate BindingMatches(ms: seq<Match>) {
    forall k :: 0 <= k < |ms| ==> |ms[k].groups| == 3
  }

  lemma KeyedMatchesShape(decorator: string, s: string, from: nat)
    ensures BindingMatches(AllFrom(KeyedBinding(decorator), s, from))
  {
    PatternGroups();
    AllFromGroups(KeyedBinding(decorator), s, from, 3);
  }

  /** The first `@Body() name: Type`, its type with the first `Promise<…>` cut out and trimmed. */
  function BodyOf(p: string): Option<BodyParam> {
    PatternGroups();
    FirstFromGroups(BodyBinding, p, 0, 2);
    match First(BodyBinding, p)
    case Some(m) =>
      Some(BodyParam(m.groups[0], Trim(ReplaceFirst(PromiseType, m.groups[1], "")), true))
    case None => None
  }

  /** One entry per `@Query`/`@Param`/`@Headers` match: key, variable, trimmed type. */
  function NamedFrom(ms: seq<Match>, required: bool): (r: seq<NamedParam>)
    requires BindingMatches(ms)
    ensures |r| == |ms|
    decreases |ms|
  {
    if ms == [] then []
    else
      var m := ms[|ms| - 1];
      NamedFrom(ms[..|ms| - 1], required) + [NamedParam(m.groups[0], m.groups[1], Trim(m.groups[2]), required)]
  }

  lemma NamedFromStep(ms: seq<Match>, i: nat, required: bool)
    requires BindingMatches(ms) && i < |ms|
    ensures BindingMatches(ms[..i]) && BindingMatches(ms[..i + 1])
    ensures NamedFrom(ms[..i + 1], required) ==
      NamedFrom(ms[..i], required) + [NamedParam(ms[i].groups[0], ms[i].groups[1], Trim(ms[i].groups[2]), required)]
  {
    assert ms[..i + 1][..i] == ms[..i];
  }

  function Keyed(decorator: string, p: string, required: bool): seq<NamedParam> {
    KeyedMatchesShape(decorator, p, 0);
    NamedFrom(All(KeyedBinding(decorator), p), required)
  }

  /** `parseMethodParameters(p)`. */
  function ParametersOf(p: string): Parameters {
    Parameters(BodyOf(p), Keyed("Query", p, false), Keyed("Param", p, true), Keyed("Headers", p, false))
  }

  lemma {:induction false} NamedFromFields(ms: seq<Match>, required: bool)
    requires BindingMatches(ms)
    ensures forall k :: 0 <= k < |ms| ==>
      NamedFrom(ms, required)[k] == NamedParam(ms[k].groups[0], ms[k].groups[1], Trim(ms[k].groups[2]), required)
    decreases |ms|
  {
    if ms != [] {
      NamedFromFields(ms[..|ms| - 1], required);
    }
  }

  /** One entry per match of the keyed pattern, in source order, each with the list's
      `required` flag. */
  lemma KeyedShape(decorator: string, p: string, required: bool)
    ensures |Keyed(decorator, p, required)| == |All(KeyedBinding(decorator), p)|
    ensures forall k :: 0 <= k < |Keyed(decorator, p, required)| ==>
      Keyed(decorator, p, required)[k].required == required &&
      Keyed(decorator, p, required)[k].name == All(KeyedBinding(decorator), p)[k].groups[0]
  {
    KeyedMatchesShape(decorator, p, 0);
    NamedFromFields(All(KeyedBinding(decorator), p), required);
  }

  /** At most one body, the first `@Body()` match, always required; query and header
      entries are optional and path entries required, each list in source order. */
  lemma ParametersOfShape(p: string)
    ensures var r := ParametersOf(p);
      (r.body.Some? <==> First(BodyBinding, p).Some?) &&
      (r.body.Some? ==> r.body.value.required && r.body.value.name == First(BodyBinding, p).value.groups[0]) &&
      r.query == Keyed("Query", p, false) && r.params == Keyed("Param", p, true) &&
      r.headers == Keyed("Headers", p, false)
    ensures var r := ParametersOf(p);
      (forall k :: 0 <= k < |r.query| ==> !r.query[k].required) &&
      (forall k :: 0 <= k < |r.params| ==> r.params[k].required) &&
      (forall k :: 0 <= k < |r.headers| ==> !r.headers[k].required)
  {
    KeyedShape("Query", p, false);
    KeyedShape("Param", p, true);
    KeyedShape("Headers", p, false);
  }

  /** Every decorator pattern needs a `)` in the text it matches. */
  lemma NoParenNoKeyed(decorator: string, p: string, from: nat)
    ensures FirstFrom(KeyedBinding(decorator), p, from).Some? ==> ')' in p
  {
    if FirstFrom(KeyedBinding(decorator), p, from).Some? {
      var m := FirstFrom(KeyedBinding(decorator), p, from).value;
      assert MatchAt(KeyedBinding(decorator), p, m.start) == Some(Attempt(m.end, m.groups));
      var k :| m.start <= k < m.end && p[k] == ')';
    }
  }

  /** `@Body()` holds a `)`. */
  lemma NoParenNoBody(p: string)
    ensures First(BodyBinding, p).Some? ==> ')' in p
  {
    if First(BodyBinding, p).Some? {
      var m := First(BodyBinding, p).value;
      assert BodyAt(p, m.start) == Some(Attempt(m.end, m.groups));
      StartsAtChar(p, m.start, "@Body()", 6);
    }
  }

  /** Text without `)` yields no body and empty lists. */
  lemma ParametersWithoutParen(p: string)
    requires ')' !in p
    ensures ParametersOf(p) == NoParameters
  {
    NoParenNoBody(p);
    NoParenNoKeyed("Query", p, 0);
    NoParenNoKeyed("Param", p, 0);
    NoParenNoKeyed("Headers", p, 0);
  }

  // ---------------------------------------------------------------------------------------
  // DTOs

  predicate IsRequiredDecorator(decorator: string) { decorator in RequiredDecorators }

  predicate IsOptionalDecorator(decorator: string) { decorator in OptionalDecorators }

  /** `typeString.replace(/\|/g, ' | ').replace(/\[\]/g, '[]').replace(/<[^>]*>/g, '').trim()`. */
  function CleanPropertyType(t: string): string {
    Trim(ReplaceAll(AngleGroup, ReplaceAll(EmptyBrackets, ReplaceAll(Bar, t, " | "), "[]"), ""))
  }

  /** No `<` is followed, anywhere later, by a `>`. */
  predicate NoAnglePair(s: string) {
    forall i, j :: 0 <= i < j < |s| && s[i] == '<' ==> s[j] != '>'
  }

  /** Removing every `<[^>]*>` leaves no `<` with a `>` after it. */
  lemma {:induction false} AngleGroupsRemoved(s: string, from: nat)
    requires from <= |s|
    ensures NoAnglePair(ReplaceAllFrom(AngleGroup, s, from, ""))
    decreases |s| - from
  {
    FirstFromLeftmost(AngleGroup, s, from);
    match FirstFrom(AngleGroup, s, from)
    case None =>
      var r := s[from..];
      forall i, j | 0 <= i < j < |r| && r[i] == '<' ensures r[j] != '>' {
        assert MatchAt(AngleGroup, s, from + i).None?;
        assert r[j] == s[from + j];
      }
    case Some(m) =>
      var seg := s[from..m.start];
      var rest := ReplaceAllFrom(AngleGroup, s, m.end, "");
      AngleGroupsRemoved(s, m.end);
      assert MatchAt(AngleGroup, s, m.start) == Some(Attempt(m.end, m.groups));
      assert s[m.end - 1] == '>';
      forall i | 0 <= i < |seg| ensures seg[i] != '<' {
        assert MatchAt(AngleGroup, s, from + i).None?;
        assert from + i < m.end - 1 < |s|;
      }
      var r := seg + "" + rest;
      assert forall i :: 0 <= i < |seg| ==> r[i] == seg[i];
      forall i, j | 0 <= i < j < |r| && r[i] == '<' ensures r[j] != '>' {
        assert r[i] == rest[i - |seg|] && r[j] == rest[j - |seg|];
      }
  }

  /** A substring of a string without `<…>` pairs has none either. */
  lemma NoAnglePairSlice(s: string, a: nat, b: nat)
    requires a <= b <= |s| && NoAnglePair(s)
    ensures NoAnglePair(s[a..b])
  {
    var r := s[a..b];
    forall i, j | 0 <= i < j < |r| && r[i] == '<' ensures r[j] != '>' {
      assert r[i] == s[a + i] && r[j] == s[a + j];
    }
  }

  /** A cleaned type has no blank at either end and no `<` followed later by `>`. */
  lemma CleanPropertyTypeShape(t: string)
    ensures var r := CleanPropertyType(t);
      (|r| > 0 ==> !IsSpace(r[0]) && !IsSpace(r[|r| - 1])) && NoAnglePair(r)
  {
    var u := ReplaceAll(AngleGroup, ReplaceAll(EmptyBrackets, ReplaceAll(Bar, t, " | "), "[]"), "");
    AngleGroupsRemoved(ReplaceAll(EmptyBrackets, ReplaceAll(Bar, t, " | "), "[]"), 0);
    var a, b :| 0 <= a <= b <= |u| && Trim(u) == u[a..b];
    NoAnglePairSlice(u, a, b);
  }

  /** `.replace(/\[\]/g, '[]')` gives back the string it was given. */
  lemma {:induction false} EmptyBracketsUnchanged(s: string, from: nat)
    requires from <= |s|
    ensures ReplaceAllFrom(EmptyBrackets, s, from, "[]") == s[from..]
    decreases |s| - from
  {
    match FirstFrom(EmptyBrackets, s, from)
    case None =>
    case Some(m) =>
      EmptyBracketsUnchanged(s, m.end);
      assert MatchAt(EmptyBrackets, s, m.start) == Some(Attempt(m.end, m.groups));
      assert s[m.start..m.end] == "[]";
      assert s[from..] == s[from..m.start] + s[m.start..m.end] + s[m.end..];
  }

  /** Text without `<` has no `<…>` group to remove. */
  lemma NoAngleUnchanged(s: string)
    requires '<' !in s
    ensures ReplaceAll(AngleGroup, s, "") == s
  {
    forall k | 0 <= k ensures MatchAt(AngleGroup, s, k).None? {
      if k < |s| {
        assert s[k] in s;
      }
    }
    assert FirstFrom(AngleGroup, s, 0).None?;
  }

  /** `trim` leaves a string alone that has no blank at either end. */
  lemma TrimUnchanged(s: string)
    requires |s| > 0 && !IsSpace(s[0]) && !IsSpace(s[|s| - 1])
    ensures Trim(s) == s
  {
  }

  lemma BarsWidenedOnce()
    ensures ReplaceAll(Bar, "a|b", " | ") == "a | b"
  {
    var s := "a|b";
    assert MatchAt(Bar, s, 0).None? && MatchAt(Bar, s, 1).Some?;
    assert FirstFrom(Bar, s, 0) == Some(Match(1, 2, []));
    assert FirstFrom(Bar, s, 2).None? by {
      assert MatchAt(Bar, s, 2).None? && MatchAt(Bar, s, 3).None? && FirstFrom(Bar, s, 4).None?;
    }
    assert ReplaceAllFrom(Bar, s, 2, " | ") == "b";
  }

  lemma BarsWidenedTwice()
    ensures ReplaceAll(Bar, "a | b", " | ") == "a  |  b"
  {
    var t := "a | b";
    assert MatchAt(Bar, t, 0).None? && MatchAt(Bar, t, 1).None? && MatchAt(Bar, t, 2).Some?;
    assert FirstFrom(Bar, t, 0) == Some(Match(2, 3, []));
    assert FirstFrom(Bar, t, 3).None? by {
      assert MatchAt(Bar, t, 3).None? && MatchAt(Bar, t, 4).None? && MatchAt(Bar, t, 5).None?;
      assert FirstFrom(Bar, t, 6).None?;
    }
    assert ReplaceAllFrom(Bar, t, 3, " | ") == " b";
  }

  /** Cleaning a type that has no `[]`, no `<` and no blank at either end after the `|`
      widening is just that widening. */
  lemma CleanPlain(t: string)
    requires var w := ReplaceAll(Bar, t, " | ");
      '<' !in w && |w| > 0 && !IsSpace(w[0]) && !IsSpace(w[|w| - 1])
    ensures CleanPropertyType(t) == ReplaceAll(Bar, t, " | ")
  {
    var w := ReplaceAll(Bar, t, " | ");
    EmptyBracketsUnchanged(w, 0);
    assert w[0..] == w;
    NoAngleUnchanged(w);
    TrimUnchanged(w);
  }

  /** `a|b` is cleaned to `a | b`, and cleaning that again widens the blanks: the function is
      not idempotent on union types. */
  lemma CleanUnionNotIdempotent()
    ensures CleanPropertyType("a|b") == "a | b"
    ensures CleanPropertyType("a | b") == "a  |  b"
    ensures CleanPropertyType(CleanPropertyType("a|b")) != CleanPropertyType("a|b")
  {
    BarsWidenedOnce();
    BarsWidenedTwice();
    CleanPlain("a|b");
    CleanPlain("a | b");
  }

  predicate PropertyMatches(ms: seq<Match>) {
    forall k :: 0 <= k < |ms| ==> |ms[k].groups| == 3
  }

  lemma PropertyMatchesShape(content: string, from: nat)
    ensures PropertyMatches(AllFrom(DecoratedProperty, content, from))
  {
    PatternGroups();
    AllFromGroups(DecoratedProperty, content, from, 3);
  }

  /** A property belongs to the decorator right above it: between that decorator's `)` and
      the property name there is only blank space holding a line feed, so of stacked
      decorators only the nearest one is reported. */
  lemma PropertyNearestDecorator(s: string, i: nat)
    ensures DecoratedPropertyAt(s, i).Some? ==>
      var g := DecoratedPropertyAt(s, i).value.groups;
      s[i] == '@' && StartsAt(s, i + 1, g[0]) &&
      exists c, w :: i < c < w < |s| && s[c] == ')' && '\n' in s[c + 1..w] &&
        (forall k :: c < k < w ==> IsSpace(s[k])) && StartsAt(s, w, g[1])
  {
    if DecoratedPropertyAt(s, i).Some? {
      var r := DecoratedPropertyAt(s, i).value;
      var c :| i < c < |s| && s[c] == ')' && PropertyLineAt(s, c) == Some((r.end, r.groups[1], r.groups[2]));
      var w := SkipSpaces(s, c + 1);
      assert i < c < w < |s| && StartsAt(s, w, r.groups[1]);
    }
  }

  /** The two decorator lists share no name, so a property is never both required and
      optional; a decorator in neither list gives neither flag. */
  lemma DecoratorListsDisjoint(decorator: string)
    ensures !(IsRequiredDecorator(decorator) && IsOptionalDecorator(decorator))
  {
  }

  /** The property record for one match: decorator, name, raw type. */
  function PropertyOf(m: Match): (p: DtoProperty)
    requires |m.groups| == 3
    ensures p.name == m.groups[1] && p.decorator == m.groups[0]
    ensures p.required <==> m.groups[0] in RequiredDecorators
    ensures p.optional <==> m.groups[0] in OptionalDecorators
    ensures !(p.required && p.optional)
  {
    DecoratorListsDisjoint(m.groups[0]);
    var decorator := m.groups[0];
    DtoProperty(m.groups[1], CleanPropertyType(m.groups[2]),
                IsRequiredDecorator(decorator), IsOptionalDecorator(decorator), decorator)
  }

  function PropertiesFrom(ms: seq<Match>): (r: seq<DtoProperty>)
    requires PropertyMatches(ms)
    ensures |r| == |ms|
    decreases |ms|
  {
    if ms == [] then [] else PropertiesFrom(ms[..|ms| - 1]) + [PropertyOf(ms[|ms| - 1])]
  }

  lemma PropertiesFromStep(done: seq<Match>, m: Match)
    requires PropertyMatches(done) && |m.groups| == 3
    ensures PropertyMatches(done + [m])
    ensures PropertiesFrom(done + [m]) == PropertiesFrom(done) + [PropertyOf(m)]
  {
    assert (done + [m])[..|done|] == done;
  }

  /** `parseDTOProperties(content)`: one property per decorated-property match. */
  function PropertiesOf(content: string): seq<DtoProperty> {
    PropertyMatchesShape(content, 0);
    PropertiesFrom(All(DecoratedProperty, content))
  }

  /** The exported class names of a file, in order. */
  function ClassNames(content: string): (r: seq<string>)
    ensures forall k :: 0 <= k < |r| ==> IsIdentifier(r[k])
  {
    var ms := All(ExportClass, content);
    assert forall k :: 0 <= k < |ms| ==> ExportClassAt(content, ms[k].start) == Some(Attempt(ms[k].end, ms[k].groups)) by {
      forall k | 0 <= k < |ms| ensures ExportClassAt(content, ms[k].start) == Some(Attempt(ms[k].end, ms[k].groups)) {
        assert MatchAt(ExportClass, content, ms[k].start) == Some(Attempt(ms[k].end, ms[k].groups));
      }
    }
    ClassNamesFrom(ms, content)
  }

  function ClassNamesFrom(ms: seq<Match>, content: string): (r: seq<string>)
    requires forall k :: 0 <= k < |ms| ==> ExportClassAt(content, ms[k].start) == Some(Attempt(ms[k].end, ms[k].groups))
    ensures |r| == |ms|
    ensures forall k :: 0 <= k < |r| ==> IsIdentifier(r[k])
    decreases |ms|
  {
    if ms == [] then []
    else
      var m := ms[|ms| - 1];
      assert ExportClassAt(content, ms[|ms| - 1].start) == Some(Attempt(m.end, m.groups));
      ClassNamesFrom(ms[..|ms| - 1], content) + [m.groups[0]]
  }

  /** The classes of one file, each stored with the file's whole property list. */
  function ClassesStep(d: Dict<Dto>, classes: seq<string>, file: string, props: seq<DtoProperty>): Dict<Dto>
    decreases |classes|
  {
    if classes == [] then d
    else
      var c := classes[|classes| - 1];
      ClassesStep(d, classes[..|classes| - 1], file, props).Set(c, Dto(c, file, props))
  }

  function DtoStep(d: Dict<Dto>, f: SourceFile, fs: FileSystem): Dict<Dto> {
    if f.path !in fs then d
    else ClassesStep(d, ClassNames(fs[f.path]), f.relative, PropertiesOf(fs[f.path]))
  }

  /** The DTO map after visiting `files` in order. */
  function DtosAfter(d: Dict<Dto>, files: seq<SourceFile>, fs: FileSystem): Dict<Dto>
    decreases |files|
  {
    if files == [] then d
    else DtoStep(DtosAfter(d, files[..|files| - 1], fs), files[|files| - 1], fs)
  }

  lemma ClassesStepPrefix(d: Dict<Dto>, classes: seq<string>, k: nat, file: string, props: seq<DtoProperty>)
    requires k < |classes|
    ensures ClassesStep(d, classes[..k + 1], file, props) ==
      ClassesStep(d, classes[..k], file, props).Set(classes[k], Dto(classes[k], file, props))
  {
    assert classes[..k + 1][..k] == classes[..k];
  }

  lemma DtosAfterPrefix(d: Dict<Dto>, files: seq<SourceFile>, i: nat, fs: FileSystem)
    requires i < |files|
    ensures DtosAfter(d, files[..i + 1], fs) == DtoStep(DtosAfter(d, files[..i], fs), files[i], fs)
  {
    assert files[..i + 1][..i] == files[..i];
  }

  /** Each entry is stored under its own class name. */
  predicate NamedByKey(d: Dict<Dto>) {
    forall k :: k in d.values ==> d.values[k].name == k
  }

  lemma {:induction false} ClassesStepValid(d: Dict<Dto>, classes: seq<string>, file: string, props: seq<DtoProperty>)
    requires d.Valid() && NamedByKey(d)
    ensures ClassesStep(d, classes, file, props).Valid() && NamedByKey(ClassesStep(d, classes, file, props))
    decreases |classes|
  {
    if classes != [] {
      var c := classes[|classes| - 1];
      ClassesStepValid(d, classes[..|classes| - 1], file, props);
      SetValid(ClassesStep(d, classes[..|classes| - 1], file, props), c, Dto(c, file, props));
    }
  }

  lemma {:induction false} ClassesStepStores(d: Dict<Dto>, classes: seq<string>, file: string, props: seq<DtoProperty>)
    ensures forall k :: 0 <= k < |classes| ==>
      classes[k] in ClassesStep(d, classes, file, props).values &&
      ClassesStep(d, classes, file, props).values[classes[k]] == Dto(classes[k], file, props)
    decreases |classes|
  {
    if classes != [] {
      var prefix := classes[..|classes| - 1];
      ClassesStepStores(d, prefix, file, props);
      forall k | 0 <= k < |prefix| ensures prefix[k] == classes[k] { }
    }
  }

  lemma {:induction false} ClassesStepOthers(d: Dict<Dto>, classes: seq<string>, file: string, props: seq<DtoProperty>, key: string)
    requires key !in classes
    ensures key in ClassesStep(d, classes, file, props).values <==> key in d.values
    ensures key in d.values ==> ClassesStep(d, classes, file, props).values[key] == d.values[key]
    decreases |classes|
  {
    if classes != [] {
      var prefix := classes[..|classes| - 1];
      forall x | x in prefix ensures x in classes {
        var k :| 0 <= k < |prefix| && prefix[k] == x;
        assert classes[k] == x;
      }
      ClassesStepOthers(d, prefix, file, props, key);
    }
  }

  /** A file's classes all get that file's property list; other entries are untouched. */
  lemma ClassesStepFileWide(d: Dict<Dto>, classes: seq<string>, file: string, props: seq<DtoProperty>)
    requires d.Valid() && NamedByKey(d)
    ensures var r := ClassesStep(d, classes, file, props);
      r.Valid() && NamedByKey(r) &&
      (forall c :: c in classes ==> r.Has(c) && r.Get(c) == Dto(c, file, props)) &&
      (forall k :: k !in classes ==> (r.Has(k) <==> d.Has(k)) && (d.Has(k) ==> r.Get(k) == d.Get(k)))
  {
    ClassesStepValid(d, classes, file, props);
    ClassesStepStores(d, classes, file, props);
    forall k | k !in classes
      ensures var r := ClassesStep(d, classes, file, props);
        (r.Has(k) <==> d.Has(k)) && (d.Has(k) ==> r.Get(k) == d.Get(k))
    {
      ClassesStepOthers(d, classes, file, props, k);
    }
  }

  /** One DTO file: every class it declares now maps to that file with its file-wide
      property list (a class name seen before is replaced, not merged). */
  lemma DtoStepReplaces(d: Dict<Dto>, f: SourceFile, fs: FileSystem)
    requires d.Valid() && NamedByKey(d)
    requires f.path in fs
    ensures var r := DtoStep(d, f, fs);
      r.Valid() && NamedByKey(r) &&
      forall c :: c in ClassNames(fs[f.path]) ==>
        r.Has(c) && r.Get(c) == Dto(c, f.relative, PropertiesOf(fs[f.path]))
  {
    ClassesStepFileWide(d, ClassNames(fs[f.path]), f.relative, PropertiesOf(fs[f.path]));
  }

  lemma {:induction false} DtosAfterValid(d: Dict<Dto>, files: seq<SourceFile>, fs: FileSystem)
    requires d.Valid() && NamedByKey(d)
    ensures DtosAfter(d, files, fs).Valid() && NamedByKey(DtosAfter(d, files, fs))
    decreases |files|
  {
    if files != [] {
      var prefix := files[..|files| - 1];
      DtosAfterValid(d, prefix, fs);
      var f := files[|files| - 1];
      if f.path in fs {
        DtoStepReplaces(DtosAfter(d, prefix, fs), f, fs);
      }
    }
  }

  /** `f` is a readable DTO file that exports a class named `c`. */
  predicate Declares(f: SourceFile, fs: FileSystem, c: string) {
    f.path in fs && c in ClassNames(fs[f.path])
  }

  /** The entry for a class name comes from the LAST readable file exporting that name: a
      later class with the same name replaces the earlier one, with its own file's list. */
  lemma {:induction false} DtosAfterLast(d: Dict<Dto>, files: seq<SourceFile>, fs: FileSystem, c: string, i: nat)
    requires d.Valid() && NamedByKey(d)
    requires i < |files| && Declares(files[i], fs, c)
    requires forall j :: i < j < |files| ==> !Declares(files[j], fs, c)
    ensures DtosAfter(d, files, fs).Has(c)
    ensures DtosAfter(d, files, fs).Get(c) == Dto(c, files[i].relative, PropertiesOf(fs[files[i].path]))
    decreases |files|
  {
    var prefix := files[..|files| - 1];
    var f := files[|files| - 1];
    DtosAfterValid(d, prefix, fs);
    var before := DtosAfter(d, prefix, fs);
    if i < |files| - 1 {
      forall j | i < j < |prefix| ensures !Declares(prefix[j], fs, c) {
        assert prefix[j] == files[j];
      }
      DtosAfterLast(d, prefix, fs, c, i);
      assert !Declares(f, fs, c);
      if f.path in fs {
        ClassesStepOthers(before, ClassNames(fs[f.path]), f.relative, PropertiesOf(fs[f.path]), c);
      }
    } else {
      DtoStepReplaces(before, f, fs);
    }
  }

  /** Every key of the dictionary is an identifier. */
  predicate IdentifierKeys(d: Dict<Dto>) {
    forall k :: 0 <= k < |d.order| ==> IsIdentifier(d.order[k])
  }

  lemma {:induction false} ClassesStepKeys(d: Dict<Dto>, classes: seq<string>, file: string, props: seq<DtoProperty>)
    requires IdentifierKeys(d)
    requires forall k :: 0 <= k < |classes| ==> IsIdentifier(classes[k])
    ensures IdentifierKeys(ClassesStep(d, classes, file, props))
    decreases |classes|
  {
    if classes != [] {
      ClassesStepKeys(d, classes[..|classes| - 1], file, props);
    }
  }

  /** The DTO dictionary is keyed by exported class names only, so its keys are identifiers. */
  lemma {:induction false} DtosAfterKeys(d: Dict<Dto>, files: seq<SourceFile>, fs: FileSystem)
    requires IdentifierKeys(d)
    ensures IdentifierKeys(DtosAfter(d, files, fs))
    decreases |files|
  {
    if files != [] {
      var prefix := files[..|files| - 1];
      var f := files[|files| - 1];
      DtosAfterKeys(d, prefix, fs);
      if f.path in fs {
        ClassesStepKeys(DtosAfter(d, prefix, fs), ClassNames(fs[f.path]), f.relative, PropertiesOf(fs[f.path]));
      }
    }
  }

  /** A plain object built from the DTO map lists its keys in the map's insertion order:
      no class name is an array index. */
  lemma IdentifierKeysObjectOrder(d: Dict<Dto>)
    requires IdentifierKeys(d)
    ensures ObjectKeys(d.order) == d.order
  {
    forall k | 0 <= k < |d.order| ensures !IsArrayIndex(d.order[k]) {
      IdentifierNotIndex(d.order[k]);
    }
    ObjectKeysInsertionOrder(d.order);
  }

  // ---------------------------------------------------------------------------------------
  // De-duplication

  /** `${route.method}:${route.path}`. */
  function MethodPathKey(r: Route): string {
    r.httpMethod + ":" + r.path
  }
}
