/**
 * The records that travel between the scanners and the formatter: routes with their
 * decorated parameters, DTO classes with their properties, and the scan result.
 * JavaScript's `null`/`undefined` fields are `Option`s.
 */
module Model {
  import opened Wrappers
  import opened Dict

  /** `{ name, type, required }` built for an `@Body()` parameter. */
  datatype BodyParam = BodyParam(name: string, typeName: string, required: bool)

  /** `{ name, paramName, type, required }` built for `@Query`, `@Param` and `@Headers`. */
  datatype NamedParam = NamedParam(name: string, paramName: string, typeName: string, required: bool)

  /** `{ body, query, params, headers }`; `body` is `null` when absent. */
  datatype Parameters = Parameters(body: Option<BodyParam>, query: seq<NamedParam>,
                                   params: seq<NamedParam>, headers: seq<NamedParam>)

  const NoParameters := Parameters(None, [], [], [])

  /** A route record (`httpMethod` is the record's `method` field). The annotation scanner fills `controller`, `methodName` and
      `parameters`; the pattern-table parser fills `framework`; absent fields are `None`. */
  datatype Route = Route(
    httpMethod: string,
    path: string,
    controller: Option<string>,
    file: string,
    methodName: Option<string>,
    parameters: Option<Parameters>,
    framework: Option<string>)

  /** One DTO property: `required`/`optional` come from the decorator above it. */
  datatype DtoProperty = DtoProperty(name: string, typeName: string, required: bool,
                                     optional: bool, decorator: string)

  datatype Dto = Dto(name: string, file: string, properties: seq<DtoProperty>)

  /** The readable files: path to content. A path that is missing cannot be read. */
  type FileSystem = map<string, string>

  /** A file found by a glob: its absolute path and its path relative to the project root. */
  datatype SourceFile = SourceFile(path: string, relative: string)

  /** `{ routes, dtos }` as the orchestrator hands it to the formatter. */
  datatype ScanResult = ScanResult(routes: seq<Route>, dtos: Dict<Dto>)

  /** Appending `part` to a sequence that extends `prev` by `before` extends `prev` by
      `before + part`. */
  lemma AppendAfter<T>(prev: seq<T>, before: seq<T>, part: seq<T>, whole: seq<T>)
    requires whole == before + part
    ensures prev + before + part == prev + whole
  {
  }
}
