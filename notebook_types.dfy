/** The in-memory notebook the renderer receives: the parsed `.ipynb` JSON,
    reduced to the fields the renderer reads. */
module NotebookTypes {
  import opened Wrappers

  /** A JSON value as it appears in a cell's `metadata`. Numbers are kept as
      exact reals (no NaN, no -0). */
  datatype Json =
    | JNull
    | JBool(b: bool)
    | JNumber(n: real)
    | JString(s: string)
    | JArray(items: seq<Json>)
    | JObject(fields: map<string, Json>)

  /** JavaScript truthiness of a JSON value: null, false, 0 and "" are falsy,
      every other value (including an empty array or object) is truthy. */
  predicate Truthy(v: Json)
  {
    match v
    case JNull => false
    case JBool(b) => b
    case JNumber(n) => n != 0.0
    case JString(s) => s != ""
    case JArray(_) => true
    case JObject(_) => true
  }

  /** `obj.name` used as a condition: a missing property reads as `undefined`,
      which is falsy. */
  predicate FieldTruthy(obj: map<string, Json>, name: string)
  {
    name in obj && Truthy(obj[name])
  }

  /** nbformat's "multiline string": either one string or a list of fragments. */
  datatype MultilineString = Str(s: string) | Lines(lines: seq<string>)

  /** One entry of an output's `data` bundle: a MIME type and its payload.
      A bundle is kept as a sequence so that `Object.keys` order is kept. */
  type MimeBundle = seq<(string, MultilineString)>

  /** An output record of a code cell. Which fields matter depends on
      `outputType`: `name` and `text` for "stream", `data` for
      "execute_result" and "display_data" (`executionCount` for the former),
      `ename`, `evalue` and `traceback` for "error". */
  datatype Output = Output(
    outputType: string,
    name: string,
    text: MultilineString,
    data: MimeBundle,
    executionCount: Option<int>,
    ename: string,
    evalue: string,
    traceback: seq<string>)

  /** A cell record. `executionCount` and `outputs` are present on code cells
      only; a markdown cell carries them empty. */
  datatype Cell = Cell(
    cellType: string,
    id: Option<string>,
    metadata: map<string, Json>,
    source: seq<string>,
    executionCount: Option<int>,
    outputs: seq<Output>)

  /** A whole notebook. The renderer only logs the format version and ignores
      the notebook metadata. */
  datatype Notebook = Notebook(
    metadata: map<string, Json>,
    nbformat: int,
    nbformatMinor: int,
    cells: seq<Cell>)
}
