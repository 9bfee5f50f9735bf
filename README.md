# DockuGen core, modelled in Dafny

DockuGen reads the source files of a Node.js project and produces API documentation. It
has three stages.

1. **Route and DTO records.** The annotation-aware NestJS scanner reads controller base paths, verb decorators, handler signatures, decorated parameters, DTO classes and their decorated properties. The universal scanner instead runs a fixed table of five call-site patterns over every script file.
2. **Scanner choice.** The scanner manager picks a scanner for a framework key and normalises what it returns to `{ routes, dtos }`. The framework detector looks up the framework in an ordered table of dependency packages, with keyword fallbacks.
3. **Output.** The formatter manager turns the records into an OpenAPI 3.0.0 document (`paths` and `components.schemas`, shaped after section 4.7 of the OpenAPI Specification 3.0.0) and a Markdown document grouped by controller.

## Layout

Each core file is one module:

- `EnhancedNestJS`, over `NestRules`.
- `RouteParsing`.
- `UniversalScanning`.
- `ScannerManagement`.
- `FrameworkDetection`.
- `Formatting`, over `FormatRules`.

Where the source updates instance fields, it is a class with `modifies` clauses: `EnhancedNestJSScanner`, `RouteParser`, `SimpleScanner`, `ScannerManager` and `FormatterManager`. Every `while (exec)`, `forEach` and `+=` loop is a method with loop invariants. Each such method is proved equal to a specification function, and the properties are proved about those functions as lemmas.

Shared modules:

- `Wrappers`: `Option`.
- `Text`: JavaScript's `\s`, `includes`, `trim`, ASCII case mapping.
- `Regex`: each fixed regular expression of the core, written as a dedicated matcher. `exec`, `match`, `matchAll` and `replace` are searches over it.
- `Dict`: an insertion-ordered dictionary standing for `Map` and plain objects, with the `Object.keys` order.
- `NodePath`: POSIX `path.join`, `path.normalize`, `path.basename`.
- `Dedup`: first-wins de-duplication by a string key.
- `Model`: the route, parameter and DTO records.

The outside world is passed in as data:

- the file system (a map from path to content; a missing path cannot be read);
- glob answers (sequences of files);
- the parsed `package.json`;
- `process.cwd()`.

## Model

| member | source | states |
|---|---|---|
| NodePath.Join | src/scanners/enhanced-nestjs-scanner.js:136 | `path.join` never returns the empty string; two empty arguments give `.` |
| NodePath.Normalize | src/scanners/enhanced-nestjs-scanner.js:136 | normalisation never yields the empty string |
| NodePath.NormalizeClean | src/scanners/enhanced-nestjs-scanner.js:136 | after normalisation no segment is empty or `.`, and an absolute path keeps no `..` |
| NodePath.JoinSegments | src/scanners/enhanced-nestjs-scanner.js:136 | a base path `/a` joined with a route argument `/b` gives `/a/b` (e.g. `/pets` + `/:id` = `/pets/:id`): the doubled separator collapses |
| NodePath.JoinEmpty | src/scanners/enhanced-nestjs-scanner.js:136 | joining `''` and `''` gives `.`, and `''` with `/` gives `/` |
| NodePath.Basename | src/scanners/enhanced-nestjs-scanner.js:72 | the last path segment with `ext` cut from its end exactly when the segment ends with `ext` and is longer than it, else the whole segment; never holds `/` |
| Text.Trim | src/scanners/enhanced-nestjs-scanner.js:308-314 | `trim` gives a slice of the input with no `\s` character at either end, and everything cut before and after it is `\s`: the maximal such slice |
| Text.Lower | src/route-parser.js:36 | `toLowerCase` keeps the length and maps each character on its own |
| Text.Upper | src/scanners/enhanced-nestjs-scanner.js:142 | `toUpperCase` keeps the length and maps each character on its own |
| Text.Slashes | src/scanners/enhanced-nestjs-scanner.js:136 | `.replace(/\\/g, '/')` turns every backslash into `/` and changes nothing else |
| Text.ContainsWitness | src/route-parser.js:83-97 | `includes` holds exactly when the needle occurs at some position |
| Dict.Set | src/formatters/formatter-manager.js:141 | setting a key stores the value; a new key goes to the end of the key order, an existing key keeps its place |
| Dict.SetValid | src/formatters/formatter-manager.js:141 | setting a key keeps every other key's value and position |
| Dict.ObjectKeysPermutation | src/formatters/formatter-manager.js:197 | `Object.keys` lists every inserted key once: a permutation of the insertion order |
| Dict.ObjectKeysOrder | src/formatters/formatter-manager.js:197 | `Object.keys` lists the array-index keys first, in ascending numeric order, then the other keys in insertion order |
| Dict.ObjectKeysInsertionOrder | src/formatters/formatter-manager.js:197 | without array-index keys, `Object.keys` is the insertion order |
| Dict.IdentifierNotIndex | src/formatters/formatter-manager.js:147 | a key that starts like an identifier is never an array index |
| Dedup.UniqueIsSubsequence | src/scanners/universal-scanner.js:132-142 | the `seen`-set filter gives a subsequence of its input, so the output is no longer than the input |
| Dedup.UniqueKeysDistinct | src/scanners/universal-scanner.js:132-142 | the filter's output has pairwise distinct keys |
| Dedup.UniqueKeepsFirst | src/scanners/universal-scanner.js:132-142 | an element is kept exactly when it is the first element with its key; the output is those first occurrences, position by position, in increasing input position |
| Dedup.UniqueCoversKeys | src/scanners/universal-scanner.js:132-142 | every key of the input is the key of some kept element |
| Dedup.UniqueOfDistinct | src/scanners/universal-scanner.js:132-142 | input whose keys are already distinct passes through unchanged |
| Dedup.UniqueIdempotent | src/scanners/enhanced-nestjs-scanner.js:321-331 | de-duplicating twice is the same as de-duplicating once |
| Regex.QuotedAt | src/route-parser.js:10-20 | a quoted argument gives a run of non-quote characters that starts right after the opening quote (non-empty when required) |
| Regex.ControllerAt | src/scanners/enhanced-nestjs-scanner.js:75 | a `@Controller('…')` match lies inside the text and has one capture |
| Regex.VerbDecoratorAt | src/scanners/enhanced-nestjs-scanner.js:109 | a verb-decorator match starts with `@<verb>(` followed by a `'` or `"` (no backtick), and has one capture |
| Regex.ReturnAnnotationAt | src/scanners/enhanced-nestjs-scanner.js:120-125 | a return annotation ends after the `)`; it adds no capture in the `Promise<…>` form and one in the general form |
| Regex.SignatureRest | src/scanners/enhanced-nestjs-scanner.js:120-125 | a handler signature captures an identifier and a parameter text without `)` |
| Regex.SignatureAt | src/scanners/enhanced-nestjs-scanner.js:120-125 | with the optional `async`, a handler signature captures an identifier and a parameter text without `)` |
| Regex.BindingAt | src/scanners/enhanced-nestjs-scanner.js:174 | a binding captures an identifier name and a type that starts like an identifier |
| Regex.BodyAt | src/scanners/enhanced-nestjs-scanner.js:174 | a `@Body()` match starts with `@Body()` and has two captures |
| Regex.KeyedAt | src/scanners/enhanced-nestjs-scanner.js:187 | a `@Query`/`@Param`/`@Headers` match starts with `@<name>(`, has three captures, and holds a `)` |
| Regex.ExportClassAt | src/scanners/enhanced-nestjs-scanner.js:240 | an `export class` match captures one identifier |
| Regex.PropertyLineAt | src/scanners/enhanced-nestjs-scanner.js:265 | after a decorator's `)`, the blank run up to the property name holds a line feed and the name is an identifier |
| Regex.DecoratorAt | src/scanners/enhanced-nestjs-scanner.js:265 | `@(\w+)\s*\([^)]*\)` captures an identifier after `@` and ends at a `)` |
| Regex.DecoratedPropertyAt | src/scanners/enhanced-nestjs-scanner.js:265 | a property match captures the decorator name, the property name and its type, its property line following the decorator's `)` |
| Regex.CallAltAt | src/route-parser.js:10-20 | the verb alternation captures a verb of its list and a non-empty, quote-free path |
| Regex.CallSiteAt | src/route-parser.js:10-20 | a call-site match captures a verb of its list and a non-empty, quote-free path |
| Regex.PlaceholderAt | src/route-parser.js:105 | a `:([^/]+)` match captures the non-empty, slash-free text after a `:` up to the next `/` or the end |
| Regex.AngleGroupAt | src/scanners/enhanced-nestjs-scanner.js:312 | `<[^>]*>` matches exactly where a `<` has a later `>`, and ends at the first such `>` |
| Regex.FirstFrom | src/route-parser.js:35 | `exec` finds a match at or after `lastIndex` at which the pattern succeeds |
| Regex.FirstFromLeftmost | src/route-parser.js:35 | the match `exec` finds is the leftmost one, and when it finds none the pattern succeeds nowhere later |
| Regex.AllFrom | src/route-parser.js:35-45 | the matches a `while (exec)` loop visits succeed where they start and do not overlap, in text order |
| Regex.PatternGroups | src/route-parser.js:10-20 | every pattern reports the number of capture groups of its literal |
| RouteParsing.DetectFrameworkFromContent | src/route-parser.js:83-97 | the label is one of `nestjs`, `express`, `fastify`, `koa`, `unknown` |
| RouteParsing.FirstMarkedIsFirstHit | src/route-parser.js:83-97 | an ordered marker search answers the first entry with a marker present, or `unknown` when none has one |
| RouteParsing.DetectFrameworkFirstHit | src/route-parser.js:83-97 | content sniffing is the first-hit search over nestjs, express, fastify, koa, in that order |
| RouteParsing.FastifyCallsImplyName | src/route-parser.js:90 | `fastify.get`/`fastify.post` imply `fastify`, so those two tests never decide |
| RouteParsing.CallMatchesShape | src/route-parser.js:10-20 | every table match has a verb of its alternation and a non-empty, quote-free path |
| RouteParsing.RoutesOfMatches | src/route-parser.js:35-45 | one route per match |
| RouteParsing.RoutesOfMatchesIndex | src/route-parser.js:35-45 | the k-th route comes from the k-th match |
| RouteParsing.ParseRoutesInTableOrder | src/route-parser.js:30-49 | the output is the five entries' routes in table order, and the `router.` entry appears twice |
| RouteParsing.RouterRoutesTwice | src/route-parser.js:8-21 | every `router.<verb>('…')` route is emitted at least twice |
| RouteParsing.LowerVerb | src/route-parser.js:36 | lower-casing any verb of either alternation gives one of get, post, put, delete, patch |
| RouteParsing.ParseRoutesEmitted | src/route-parser.js:33-46 | every route has a lower-case method of the five, a non-empty quote-free path (the `'get'`/`'/'` defaults are unreachable), the file, and the one content label |
| RouteParsing.NoEmptyArgumentDecorator | src/route-parser.js:20 | `@Get()` and `@Get('')` (any decorator verb) are not matched |
| RouteParsing.PlaceholdersBoundedByColons | src/route-parser.js:104-114 | there are never more placeholder matches than `:` characters |
| RouteParsing.PlaceholderMatchName | src/route-parser.js:105 | each match captures the text after a `:` up to the next `/` |
| RouteParsing.PlaceholderNamesShape | src/route-parser.js:104-114 | every name is non-empty, slash-free text after a `:`, and the count is at most the number of `:` |
| RouteParsing.IsValidPath | src/route-parser.js:121-123 | valid exactly for a non-empty string starting with `/` |
| RouteParsing.ParseNextJSRoutes | src/route-parser.js:73-76 | always no routes |
| RouteParsing.RouteParser.constructor | src/route-parser.js:7-22 | the parser holds the five-entry pattern table |
| RouteParsing.RouteParser.ParseRoutes | src/route-parser.js:30-49 | the routes of all five entries' `exec` loops, entry after entry |
| RouteParsing.RouteParser.ExecPattern | src/route-parser.js:34-45 | one entry's `exec` loop pushes the route of every match, in text order |
| RouteParsing.RouteParser.ParseFile | src/route-parser.js:57-66 | the routes of the file's text, or none when it cannot be read; the framework argument plays no part |
| RouteParsing.RouteParser.ParseParameters | src/route-parser.js:104-114 | the `exec` loop collects each placeholder name in order |
| NestRules.BasePath | src/scanners/enhanced-nestjs-scanner.js:75-76 | the base path is the first `@Controller('…')` argument, or `''` when there is none |
| NestRules.ControllersAfterLast | src/scanners/enhanced-nestjs-scanner.js:60-87 | a controller name's entry comes from the last readable file with that basename |
| NestRules.ControllersAfterOther | src/scanners/enhanced-nestjs-scanner.js:60-87 | a name no readable file has keeps its old entry, or stays absent |
| NestRules.Handler | src/scanners/enhanced-nestjs-scanner.js:120-156 | a handler match captures an identifier and a parameter text without `)` |
| NestRules.HandlerChoice | src/scanners/enhanced-nestjs-scanner.js:127-156 | the first `Promise<…>` signature match is used, else the first general signature match |
| NestRules.VerbMatchesShape | src/scanners/enhanced-nestjs-scanner.js:109-113 | every decorator match lies inside the text with one capture |
| NestRules.IdentifierHasNoAt | src/scanners/enhanced-nestjs-scanner.js:135 | a handler name is non-empty and has no `@`, so the guard always passes |
| NestRules.RoutePathJoined | src/scanners/enhanced-nestjs-scanner.js:136-143 | the route path is the joined path with slashes normalised; it is never empty, so `\|\| '/'` never applies (`''` + `''` gives `.`) |
| NestRules.DecoratorRouteShape | src/scanners/enhanced-nestjs-scanner.js:116-156 | a decorator gives a route exactly when a handler follows it. That route has the upper-cased verb, the joined path, the handler name, the controller's file and empty parameters |
| NestRules.RoutesFromMatchesShape | src/scanners/enhanced-nestjs-scanner.js:112-156 | each decorator occurrence yields at most one route, with the verb upper-cased, a non-empty path and empty parameters |
| NestRules.VerbRoutesShape | src/scanners/enhanced-nestjs-scanner.js:107-157 | every route of one verb has that verb's shape |
| NestRules.FileRoutesMethods | src/scanners/enhanced-nestjs-scanner.js:96-158 | a controller file's routes all come from the eight verbs. An unreadable file or a name without an entry gives none |
| NestRules.BareDecoratorNoMatch | src/scanners/enhanced-nestjs-scanner.js:109 | a bare `@Get()` (any verb) never matches |
| NestRules.NamedFrom | src/scanners/enhanced-nestjs-scanner.js:188-196 | one entry per match |
| NestRules.NamedFromFields | src/scanners/enhanced-nestjs-scanner.js:188-196 | entry k holds match k's key, variable, trimmed type and the list's flag |
| NestRules.KeyedShape | src/scanners/enhanced-nestjs-scanner.js:186-220 | one entry per keyed match, in source order, each with the list's `required` flag |
| NestRules.ParametersOfShape | src/scanners/enhanced-nestjs-scanner.js:165-223 | at most one body, the first `@Body()` match, always required. Query and header entries are optional, path entries required, each list in source order |
| NestRules.NoParenNoKeyed | src/scanners/enhanced-nestjs-scanner.js:187 | a keyed decorator match needs a `)` in the text |
| NestRules.NoParenNoBody | src/scanners/enhanced-nestjs-scanner.js:174 | a `@Body()` match needs a `)` in the text |
| NestRules.ParametersWithoutParen | src/scanners/enhanced-nestjs-scanner.js:165-223 | parameter text without `)` (all that `([^)]*)` can capture) yields no body and empty lists |
| NestRules.AngleGroupsRemoved | src/scanners/enhanced-nestjs-scanner.js:312 | removing every `<[^>]*>` leaves no `<` followed later by `>` |
| NestRules.CleanPropertyTypeShape | src/scanners/enhanced-nestjs-scanner.js:308-314 | a cleaned type has no blank at either end and no `<` followed later by `>` |
| NestRules.EmptyBracketsUnchanged | src/scanners/enhanced-nestjs-scanner.js:311 | replacing `[]` by `[]` changes nothing |
| NestRules.NoAngleUnchanged | src/scanners/enhanced-nestjs-scanner.js:312 | text without `<` has nothing removed |
| NestRules.TrimUnchanged | src/scanners/enhanced-nestjs-scanner.js:313 | `trim` leaves text without blanks at its ends alone |
| NestRules.CleanPlain | src/scanners/enhanced-nestjs-scanner.js:308-314 | for a type without `<` or outer blanks, cleaning is only the `\|` widening |
| NestRules.CleanUnionNotIdempotent | src/scanners/enhanced-nestjs-scanner.js:308-314 | cleaning `a\|b` twice differs from cleaning it once |
| NestRules.PropertyNearestDecorator | src/scanners/enhanced-nestjs-scanner.js:265 | a property belongs to the decorator right above it: only blank space holding a line feed lies between that decorator's `)` and the name |
| NestRules.DecoratorListsDisjoint | src/scanners/enhanced-nestjs-scanner.js:290-306 | no decorator is both required and optional |
| NestRules.PropertyOf | src/scanners/enhanced-nestjs-scanner.js:269-284 | `required` means the decorator is in the 15-name list, and `optional` that it is in the 10-name list. The two are never both true |
| NestRules.PropertiesFrom | src/scanners/enhanced-nestjs-scanner.js:268-285 | one property per match |
| NestRules.ClassNames | src/scanners/enhanced-nestjs-scanner.js:240-243 | every exported class name is an identifier |
| NestRules.ClassesStepFileWide | src/scanners/enhanced-nestjs-scanner.js:242-254 | all classes of one file get that file's whole property list; other entries are untouched |
| NestRules.DtoStepReplaces | src/scanners/enhanced-nestjs-scanner.js:234-254 | after one DTO file every class it declares maps to that file and its list; an earlier entry is replaced, not merged |
| NestRules.DtosAfterValid | src/scanners/enhanced-nestjs-scanner.js:225-259 | the DTO map stays well formed, each entry under its own class name |
| NestRules.DtosAfterLast | src/scanners/enhanced-nestjs-scanner.js:225-259 | a class name's entry comes from the last readable file exporting it |
| NestRules.DtosAfterKeys | src/scanners/enhanced-nestjs-scanner.js:240-249 | every DTO key is an identifier |
| NestRules.IdentifierKeysObjectOrder | src/scanners/enhanced-nestjs-scanner.js:37-41 | the plain object lists the DTOs in the map's insertion order |
| EnhancedNestJS.EnhancedNestJSScanner.constructor | src/scanners/enhanced-nestjs-scanner.js:6-12 | no routes, no controllers, no DTOs |
| EnhancedNestJS.EnhancedNestJSScanner.ScanControllers | src/scanners/enhanced-nestjs-scanner.js:60-87 | every readable controller file (re)defines the entry under its basename, in file order |
| EnhancedNestJS.EnhancedNestJSScanner.FindHandler | src/scanners/enhanced-nestjs-scanner.js:120-156 | the two signature patterns' loops with the `@` guard find the handler of the specification |
| EnhancedNestJS.EnhancedNestJSScanner.ParseMethodParameters | src/scanners/enhanced-nestjs-scanner.js:165-223 | the first `@Body()` binding, then every `@Query`, `@Param`, `@Headers` binding |
| EnhancedNestJS.EnhancedNestJSScanner.CollectKeyed | src/scanners/enhanced-nestjs-scanner.js:186-196 | one `matchAll` loop pushes an entry per match |
| EnhancedNestJS.EnhancedNestJSScanner.ScanVerb | src/scanners/enhanced-nestjs-scanner.js:107-157 | one verb's `exec` loop appends the routes of its decorator matches |
| EnhancedNestJS.EnhancedNestJSScanner.PushDecoratorRoute | src/scanners/enhanced-nestjs-scanner.js:113-156 | one decorator match pushes its route only when a handler follows it |
| EnhancedNestJS.EnhancedNestJSScanner.ScanFile | src/scanners/enhanced-nestjs-scanner.js:96-161 | the eight verbs in order over one readable controller file with an entry |
| EnhancedNestJS.EnhancedNestJSScanner.ScanRoutes | src/scanners/enhanced-nestjs-scanner.js:89-163 | the routes of the controller files, file after file, appended to `routes` |
| EnhancedNestJS.EnhancedNestJSScanner.ParseDTOProperties | src/scanners/enhanced-nestjs-scanner.js:261-288 | one property per decorated-property match, in order |
| EnhancedNestJS.EnhancedNestJSScanner.ScanDTOs | src/scanners/enhanced-nestjs-scanner.js:225-259 | the DTO map after every readable DTO file, kept well formed |
| EnhancedNestJS.EnhancedNestJSScanner.ScanDTOFile | src/scanners/enhanced-nestjs-scanner.js:234-258 | each exported class of one file gets an entry |
| EnhancedNestJS.EnhancedNestJSScanner.RemoveDuplicates | src/scanners/enhanced-nestjs-scanner.js:321-331 | the `filter` with a `seen` set computes first-wins de-duplication by `method:path` |
| EnhancedNestJS.EnhancedNestJSScanner.ToObject | src/scanners/enhanced-nestjs-scanner.js:37-41 | copying the map's entries into an object gives the same entries in the same order |
| EnhancedNestJS.EnhancedNestJSScanner.Scan | src/scanners/enhanced-nestjs-scanner.js:14-47 | controllers, then routes, then DTOs, then de-duplicated routes. The DTO object's `Object.keys` order is the insertion order |
| EnhancedNestJS.RemoveDuplicatesProperties | src/scanners/enhanced-nestjs-scanner.js:321-331 | the output is the first route of each `method:path`, in the order of their input positions; keys are distinct, every key is covered, and a second pass changes nothing |
| UniversalScanning.Concat | src/scanners/universal-scanner.js:80-96 | a file is in the concatenation exactly when some glob answer has it |
| UniversalScanning.SimpleScanner.constructor | src/scanners/universal-scanner.js:8-12 | no routes, no project root, a parser holding the pattern table |
| UniversalScanning.SimpleScanner.Scan | src/scanners/universal-scanner.js:14-47 | records the project root and returns the de-duplicated routes of the file list, parsed with the detected framework |
| UniversalScanning.SimpleScanner.ScanRoutes | src/scanners/universal-scanner.js:70-130 | appends the routes of the de-duplicated file list, file by file |
| UniversalScanning.SimpleScanner.RemoveDuplicates | src/scanners/universal-scanner.js:132-142 | the `filter` with a `seen` set computes first-wins de-duplication by `method:path:file` |
| UniversalScanning.RemoveDuplicatesProperties | src/scanners/universal-scanner.js:132-142 | the output is the first route of each `method:path:file`, in the order of their input positions; it is a subsequence with distinct keys, covers every key, and a second pass changes nothing |
| UniversalScanning.KeySeparatesFiles | src/scanners/universal-scanner.js:135 | for one method and path, two keys are equal exactly when the files are |
| UniversalScanning.SameEndpointTwoFiles | src/scanners/universal-scanner.js:132-142 | the same method and path in two files survive as two routes |
| UniversalScanning.SameEndpointPairKept | src/scanners/universal-scanner.js:132-142 | two routes differing only in file are both kept, in order |
| UniversalScanning.KeyAmbiguous | src/scanners/universal-scanner.js:135 | a `:` inside a path or file name can make two different routes share a key, and the later one is dropped |
| UniversalScanning.FileListProperties | src/scanners/universal-scanner.js:80-109 | the file list is the first occurrence of each candidate, in the order of their positions in the concatenated glob answers; nothing else is listed and nothing twice |
| UniversalScanning.RootFilesWhenSrcDirDiffers | src/scanners/universal-scanner.js:98-106 | the root's `*.js` files are scanned when the source directory is not the project root |
| UniversalScanning.FilesRoutesAppend | src/scanners/universal-scanner.js:114-129 | routes accumulate file by file in file-list order |
| UniversalScanning.NextjsNoRoutes | src/scanners/universal-scanner.js:119-120 | under `nextjs` no file contributes a route |
| UniversalScanning.UnreadableFileSkipped | src/scanners/universal-scanner.js:114-129 | an unreadable file contributes nothing, and the files after it still contribute |
| UniversalScanning.FrameworkIgnored | src/scanners/universal-scanner.js:121-123 | apart from `nextjs`, the framework does not change what a file gives |
| UniversalScanning.FilesRoutesEmitted | src/scanners/universal-scanner.js:114-129 | every collected route comes from a listed, readable file and has the pattern-table route shape |
| FrameworkDetection.MergedDependencies | src/detectors/framework-detector.js:79-84 | the merged keys are the union of the four groups' keys |
| FrameworkDetection.FirstFramework | src/detectors/framework-detector.js:87-93 | an answer is the label of a table entry with packages |
| FrameworkDetection.DetectCustomFramework | src/detectors/framework-detector.js:104-129 | the chain start/dev/serve scripts → `custom-server`, `api`/`server` → `api-server`, `micro` → `microservice`, `fullstack`/`full-stack` → `fullstack`, else `generic`: each label exactly when its test holds and no earlier one does |
| FrameworkDetection.MicroserviceHasMicro | src/detectors/framework-detector.js:120 | text holding `microservice` holds `micro` |
| FrameworkDetection.Detect | src/detectors/framework-detector.js:71-102 | a missing or unreadable manifest gives `generic` |
| FrameworkDetection.FirstFrameworkIsFirstHit | src/detectors/framework-detector.js:87-93 | the search answers an entry with a present package while no earlier entry has one, and nothing exactly when no entry has one |
| FrameworkDetection.MergeOrder | src/detectors/framework-detector.js:79-89 | a package is present when the last group listing it gives a truthy value; a later falsy value hides an earlier truthy one |
| FrameworkDetection.ExpressWins | src/detectors/framework-detector.js:87-93 | `express` present means `express` is detected, whatever else is present |
| FrameworkDetection.FirstHitAt | src/detectors/framework-detector.js:87-93 | an entry with a present package is answered exactly when no earlier entry has one |
| FrameworkDetection.NestjsOnlyAlone | src/detectors/framework-detector.js:87-93 | with `@nestjs/core` present, `nestjs` is detected exactly when none of the five earlier frameworks is present |
| FrameworkDetection.NestjsCoreAlone | src/detectors/framework-detector.js:87-93 | a project whose only dependency is `@nestjs/core` is detected as `nestjs` |
| FrameworkDetection.TableLabels | src/detectors/framework-detector.js:6-68 | no table label is a scanner key, and `generic` has no packages |
| FrameworkDetection.GenericNotFromTable | src/detectors/framework-detector.js:67 | the table search never answers `generic` |
| FrameworkDetection.DetectNeverScannerKey | src/detectors/framework-detector.js:71-129 | detection never answers `universal` or `nestjs-enhanced` |
| FrameworkDetection.CustomIgnoresCase | src/detectors/framework-detector.js:114 | the keyword tests ignore the letter case of name and description |
| FrameworkDetection.GetFrameworkInfo | src/detectors/framework-detector.js:131-177 | the entry of a known key, else the generic entry |
| FrameworkDetection.InfoKeys | src/detectors/framework-detector.js:132-177 | exactly seven keys have an entry; `hapi` and `custom-server` get the generic one |
| ScannerManagement.ScannerName | src/scanners/scanner-manager.js:119 | the reported scanner is `SimpleScanner` or `EnhancedNestJSScanner` |
| ScannerManagement.ProjectDir | src/scanners/scanner-manager.js:93 | a non-empty project path is used as given |
| ScannerManagement.Registry | src/scanners/scanner-manager.js:12-21 | the registry is well formed |
| ScannerManagement.Normalize | src/scanners/scanner-manager.js:97-115 | an array is wrapped with an empty DTO map; a missing field is filled and a present one kept |
| ScannerManagement.ScannerManager.constructor | src/scanners/scanner-manager.js:6-10 | the registry holds the two scanners |
| ScannerManagement.ScannerManager.RegisterScanners | src/scanners/scanner-manager.js:12-21 | registers `universal`, then `nestjs-enhanced` |
| ScannerManagement.ScannerManager.GetScanner | src/scanners/scanner-manager.js:27-53 | the registered scanner for the key (detected in the working directory for `auto`), else the universal scanner |
| ScannerManagement.ScannerManager.ListAvailableScanners | src/scanners/scanner-manager.js:55-57 | `universal`, `nestjs-enhanced` |
| ScannerManagement.ScannerManager.GetScannerInfo | src/scanners/scanner-manager.js:59-70 | `null` exactly for an unregistered key, else the default description and no capabilities |
| ScannerManagement.ScannerManager.Scan | src/scanners/scanner-manager.js:72-123 | the selected scanner's normalised result. The reported framework is the argument, or for `auto` the framework detected on the project directory |
| ScannerManagement.RunUniversal | src/scanners/scanner-manager.js:86-94 | a fresh universal scanner returns a bare routes array |
| ScannerManagement.RunEnhanced | src/scanners/scanner-manager.js:86-94 | a fresh annotation scanner returns an object with both fields |
| ScannerManagement.RegistryExact | src/scanners/scanner-manager.js:12-21 | the registry holds exactly `universal` and `nestjs-enhanced` |
| ScannerManagement.FallbackUniversal | src/scanners/scanner-manager.js:37-42 | any other explicit key selects the universal scanner |
| ScannerManagement.AutoSelectsUniversal | src/scanners/scanner-manager.js:31-42 | `auto` always selects the universal scanner |
| ScannerManagement.EnhancedOnlyByName | src/scanners/scanner-manager.js:27-53 | only the key `nestjs-enhanced` selects the annotation scanner |
| ScannerManagement.AutoReportsProjectFramework | src/scanners/scanner-manager.js:118 | the reported framework is detected on the project path, selection on the working directory, so the two can differ |
| ScannerManagement.NormalizeKeepsComplete | src/scanners/scanner-manager.js:107-115 | a complete object is kept as it is; an array and an object with only routes normalise alike |
| FormatRules.MapTypeToSwagger | src/formatters/formatter-manager.js:262-283 | total, with the answer in {string, number, boolean, array}; a falsy type gives `string` |
| FormatRules.MapTypeIsFirstRule | src/formatters/formatter-manager.js:265-282 | the if-chain is a first-match table over the lower-cased type |
| FormatRules.MapTypeElementFirst | src/formatters/formatter-manager.js:268-274 | `string[]` maps to `string`, `number[]` to `number` |
| FormatRules.MapTypeDate | src/formatters/formatter-manager.js:271 | `Date` maps to `string` |
| FormatRules.MapTypeArray | src/formatters/formatter-manager.js:268-274 | `array` exactly when an array marker occurs and no element test before it holds |
| FormatRules.FindMatchingDTO | src/formatters/formatter-manager.js:328-364 | any answer is a key present in the DTOs |
| FormatRules.FirstPathRule | src/formatters/formatter-manager.js:336-353 | the first path rule whose substring occurs and whose DTO exists, or nothing exactly when no rule applies |
| FormatRules.FirstControllerRule | src/formatters/formatter-manager.js:356-361 | the first controller rule that applies, or nothing exactly when none does |
| FormatRules.FindMatchingDTOIsRules | src/formatters/formatter-manager.js:328-364 | the path rules, then the controller rules, else `null` |
| FormatRules.PathRulesUnfold | src/formatters/formatter-manager.js:336-353 | the path rules in their order: request, booking, confirm, cancel, tiktok, lazada |
| FormatRules.PathRuleBeforeController | src/formatters/formatter-manager.js:336-361 | a path rule wins over a controller rule |
| FormatRules.NoDtosNoMatch | src/formatters/formatter-manager.js:336-363 | without DTOs nothing matches |
| FormatRules.Entries | src/formatters/formatter-manager.js:98-110 | one entry per parameter, in order |
| FormatRules.RequestBodyOf | src/formatters/formatter-manager.js:65-96 | a body only for a route with parameters and method exactly POST, PUT or PATCH. It is always required, and is a `$ref` to the matched DTO exactly when one matches |
| FormatRules.ParametersOrder | src/formatters/formatter-manager.js:98-138 | query entries, then path, then header, each in source order, `in` and `required` set per list |
| FormatRules.OperationOf | src/formatters/formatter-manager.js:45-63 | tags `[controller \|\| 'default']` and exactly one response, `200` |
| FormatRules.LowerCaseMethodNoBody | src/formatters/formatter-manager.js:67 | routes with lower-case methods never get a request body |
| FormatRules.AddOperationSlots | src/formatters/formatter-manager.js:39-141 | one route adds its path and its lower-cased method under it, nothing else |
| FormatRules.PathsOfPaths | src/formatters/formatter-manager.js:37-143 | the document has a path exactly when some route has it |
| FormatRules.PathsOfSlots | src/formatters/formatter-manager.js:37-143 | a path and method slot exists exactly when some route has that path and lower-cased method |
| FormatRules.LastRouteWins | src/formatters/formatter-manager.js:141 | the last route for a slot is the operation stored there |
| FormatRules.PropertiesObject | src/formatters/formatter-manager.js:154-160 | the properties object is well formed |
| FormatRules.AddProperty | src/formatters/formatter-manager.js:155-159 | adding a property keeps the object well formed |
| FormatRules.RequiredNames | src/formatters/formatter-manager.js:161-163 | no more required names than properties |
| FormatRules.RequiredNamesMembers | src/formatters/formatter-manager.js:152-164 | a name is required exactly when some property of that name is required |
| FormatRules.RequiredNamesAppend | src/formatters/formatter-manager.js:161-163 | required names keep order and repeats |
| FormatRules.SchemaRequired | src/formatters/formatter-manager.js:166-170 | `required` is omitted exactly when no property is required, and otherwise lists the required names |
| FormatRules.LastPropertyWins | src/formatters/formatter-manager.js:155 | every property name is a key, holding the last such property's entry |
| FormatRules.SchemasOfEntries | src/formatters/formatter-manager.js:147-172 | a name has a schema exactly when it is listed and has a DTO, and the schema is that DTO's |
| FormatRules.ObjectKeysMembers | src/formatters/formatter-manager.js:147 | `Object.keys` lists exactly the inserted names |
| FormatRules.SchemasCoverDtos | src/formatters/formatter-manager.js:146-173 | every DTO gets its schema, and only DTOs get one |
| FormatRules.ListSection | src/formatters/formatter-manager.js:221-243 | a parameter section is printed exactly when its list is non-empty |
| FormatRules.RouteBlockFrame | src/formatters/formatter-manager.js:200-246 | a route block opens with its heading and ends with `---` |
| FormatRules.GroupRoutes | src/formatters/formatter-manager.js:188-195 | the grouping is well formed |
| FormatRules.AddToGroup | src/formatters/formatter-manager.js:190-194 | pushing a route keeps the grouping well formed |
| FormatRules.Tags | src/formatters/formatter-manager.js:190 | each route's group key is `controller \|\| 'default'` |
| FormatRules.GroupRoutesProperties | src/formatters/formatter-manager.js:188-195 | each group holds exactly its routes in input order, one group per key, groups in first-seen order |
| FormatRules.GroupKeys | src/formatters/formatter-manager.js:197 | every key `Object.keys` lists is a group |
| FormatRules.SectionsInFirstSeenOrder | src/formatters/formatter-manager.js:197 | without array-index names, sections follow the controllers' first appearance |
| Formatting.Registry | src/formatters/formatter-manager.js:10-15 | the formatter registry is well formed |
| Formatting.Writes | src/formatters/formatter-manager.js:285-326 | one write per formatter run, each to that formatter's file |
| Formatting.ResultPaths | src/formatters/formatter-manager.js:285-326 | each formatter run has its file path under its key |
| Formatting.FormatterManager.constructor | src/formatters/formatter-manager.js:5-8 | the registry holds the four formatters |
| Formatting.FormatterManager.RegisterFormatters | src/formatters/formatter-manager.js:10-15 | registers swagger, markdown, openapi, json |
| Formatting.FormatterManager.ListAvailableFormats | src/formatters/formatter-manager.js:366-368 | the four keys in registration order |
| Formatting.FormatterManager.FormatSwagger | src/formatters/formatter-manager.js:17-176 | the route and DTO loops build the document of the specification |
| Formatting.FormatterManager.FormatOpenAPI | src/formatters/formatter-manager.js:254-256 | the same document as `formatSwagger` |
| Formatting.FormatterManager.FormatMarkdown | src/formatters/formatter-manager.js:178-252 | the `+=` loops build the header, then one section per controller in `Object.keys` order |
| Formatting.FormatterManager.Format | src/formatters/formatter-manager.js:285-326 | the selected formatters' writes and result paths, in registration order |
| Formatting.FormatterManager.Select | src/formatters/formatter-manager.js:293-323 | one `format === 'all' \|\| format === name` test runs its formatter when the key selects it |
| Formatting.FormatterManager.Emit | src/formatters/formatter-manager.js:293-299 | one branch writes its output and records its path |
| Formatting.AddRoute | src/formatters/formatter-manager.js:38-142 | `paths[path] \|\|= {}` then storing the operation under the lower-cased method |
| Formatting.BuildOperation | src/formatters/formatter-manager.js:45-139 | builds the operation of one route |
| Formatting.BuildRequestBody | src/formatters/formatter-manager.js:67-96 | the request body of a route with parameters |
| Formatting.AppendEntries | src/formatters/formatter-manager.js:98-110 | pushes one entry per parameter |
| Formatting.Schemas | src/formatters/formatter-manager.js:146-173 | one schema per DTO in `Object.keys` order |
| Formatting.SchemasFor | src/formatters/formatter-manager.js:147-172 | the schemas of the named DTOs, a name without a DTO skipped |
| Formatting.BuildSchema | src/formatters/formatter-manager.js:148-171 | the `forEach` builds the properties object and the required names |
| Formatting.AddPropertyEntry | src/formatters/formatter-manager.js:154-164 | one property's entry, and its name when required |
| Formatting.GroupByController | src/formatters/formatter-manager.js:188-195 | groups the routes by controller |
| Formatting.PushRoute | src/formatters/formatter-manager.js:190-194 | `\|\|= []` then push |
| Formatting.AppendGroups | src/formatters/formatter-manager.js:197-248 | appends the controllers' sections in order |
| Formatting.AppendRoutes | src/formatters/formatter-manager.js:200-247 | appends the routes' blocks in order |
| Formatting.AppendGroup | src/formatters/formatter-manager.js:197-248 | one section: its heading, then its routes' blocks |
| Formatting.AppendRouteBlock | src/formatters/formatter-manager.js:200-246 | one route's block |
| Formatting.AppendParameters | src/formatters/formatter-manager.js:207-244 | the body and parameter-list sections of one route |
| Formatting.AppendBody | src/formatters/formatter-manager.js:208-219 | the request-body section |
| Formatting.AppendList | src/formatters/formatter-manager.js:221-227 | a titled list when non-empty |
| Formatting.DocumentContents | src/formatters/formatter-manager.js:17-176 | the document is `3.0.0` and lists exactly the routes' paths and exactly the DTOs' schemas. Each `info` field is its option or, when undefined, its default |
| Formatting.StoredOperations | src/formatters/formatter-manager.js:37-143 | every stored operation is some route's operation |
| Formatting.RefsResolve | src/formatters/formatter-manager.js:69-81 | every `$ref` names a schema of the same document |
| Formatting.FormatSelection | src/formatters/formatter-manager.js:293-323 | a formatter runs exactly when the key is `all` or its name; an unknown key runs none |
| Formatting.ResultPathsKeys | src/formatters/formatter-manager.js:286-325 | the results hold exactly the run formatters' keys, in run order |
| Formatting.SwaggerIsOpenAPI | src/formatters/formatter-manager.js:254-256 | the Swagger and OpenAPI outputs are the same document |

## Left out

- **File system and globbing.** Reading files, `glob.sync`, `existsSync`/`statSync`/`mkdirSync` and `findSrcDir` in both scanners are replaced by inputs: a map from path to content, the glob answers, and the source directory.
- **Precomputed paths.** `path.relative` of scanned files arrives precomputed in each `SourceFile`. `path.basename` is modelled (`NodePath.Basename`); the DTO scan's `dtoName` is computed but never used, so it is left out.
- **Writing files.** `format` returns its writes (path, output) instead of performing them.
- NodePath.Basename: does not model Node's `basename(p, p) == ''` (the model answers `p`) nor its skipping of trailing separators, because scanned file paths end in a file name, never in the suffix alone or a `/`.
- **Output paths.** The file path under the output directory is a (directory, file name) pair, not `path.join` of it.
- **`formatJSON`.** It is `JSON.stringify`; the model's output is the scan data itself, and no JSON serialisation is modelled.
- **`process.cwd()`.** It is a parameter (`Environment.cwd`). The annotation scanner's `projectRoot` only feeds `path.relative`, which is precomputed.
- **Reading `package.json`.** Reading and `JSON.parse` are replaced by the `Manifest` outcome.
- **Dependency values.** Only their truthiness is kept.
- **Non-object groups.** A dependency group or `scripts` that is not an object is not modelled.
- **Console output and flags.** Console output, the `debug`/`watch` flags and the `options` object echoed in the scan report are left out; they carry no behaviour.
- **Other entry points.** `main.js`, `index.js` and `generateDocs` in the universal scanner are left out. `generateDocs` is I/O through the formatter.
- **`scanParameters`.** It is left out because its body is empty.
- **Regular-expression state.** It is not modelled. Every `while (exec)` loop runs until `exec` fails, which resets `lastIndex`, so no state carries over between calls.
- **`Object.prototype` keys.** Keys such as `constructor` or `__proto__` are treated as ordinary dictionary keys.
- **`Map` DTOs.** The universal scanner's `dtos` is a `Map` in the source, and `Object.keys` sees it as empty. It is modelled as an empty dictionary.
- **Enhanced scan options.** The annotation scanner's `scan` ignores `projectPath`. The model gives it no such argument, and it runs on the controller and DTO files it is handed.
- **`route.line` and `body.schema`.** The Markdown block's `**Line:**` line is never produced: no scanner sets `route.line`. Likewise no scanner puts `schema` on a body parameter, so the body's property list is never printed.
- **DTOs without properties.** `if (dto && dto.properties)` is always true for DTOs from the scanner, whose property list is always an array (possibly empty). A DTO without properties is not modelled.
- **Option defaults.** They apply only to `undefined` fields (`Option.None`). A present empty string is kept as given, as in the source.
- **Ignored `try`/`catch` blocks.** They are modelled only where they matter (unreadable files). The per-file `catch` of the universal scanner cannot fire, because `parseFile` already catches read errors.
- **Case mapping.** `toLowerCase`/`toUpperCase` are modelled on ASCII letters only.
- **`path.join` of empty arguments.** `path.join('', '')` gives `.` (Node's behaviour), not `/`. The `|| '/'` fallback therefore never applies (`NestRules.RoutePathJoined`).
- **Key order of `paths` and `properties`.** These two objects are modelled in insertion order. `JSON.stringify` would list an array-index key first, as in a route path `0` from `@Get('0')` under an empty base path; only the schema and Markdown section lists use the `Object.keys` order.
- Text.Lower: maps ASCII letters only, because the verbs, keywords and type names it is applied to are ASCII.
- FormatRules.FindMatchingDTO: the `!dtos || !route` guard is not modelled, because the caller always passes both.
