/** The notebook renderer: turns the cells of a notebook into an ordered tree
    of display blocks, choosing a renderer for each cell, each output and each
    MIME representation through three string-keyed tables. */
module NotebookRenderer {
  import opened Wrappers
  import opened Text
  import opened NotebookTypes

  /** The React key of a cell's block: its id, or else its position. */
  datatype Key = IdKey(id: string) | IndexKey(index: nat)

  /** What the renderer produces. Fixed captions ("Source:", "Output:") and
      line breaks are presentation and are not kept. */
  datatype Block =
    | CellTypeLabel(cellType: string)             // `{cell_type}!`
    | ExecutionCountLabel(count: Option<int>)     // `Execution Count: {execution_count}`
    | OutputNameLabel(name: string)               // `Output Name: {name}`
    | OutputTypeLabel(outputType: string)         // `Output Type: {output_type}`
    | SourceCode(text: string)                    // `<pre><code>`
    | Sample(text: string)                        // `<pre><samp>`
    | Html(markup: string)                        // markup handed to the HTML-to-React converter
    | Image(base64: string)                       // a PNG given by its base64 text
    | Markdown(text: string)                      // text handed to the Markdown formatter
    | Placeholder(message: string)                // a cell shown as a fixed message
    | ErrorIndicator(text: string)                // the fixed mark of an error output
    | Divider                                     // `<hr />`
    | Nothing                                     // `null`: an output with no renderer
    | OutputGroup(children: seq<Block>)           // the `<div>` of one output
    | CellGroup(key: Key, children: seq<Block>)   // the keyed `<div>` around one cell

  /** Why rendering throws. An unknown cell or MIME type makes the element
      type `undefined`, which React refuses; an HTML payload stored as one
      string has no `join` method. */
  datatype RenderError =
    | UnknownCellType(cellType: string)
    | UnknownMimeType(mimeType: string)
    | HtmlPayloadNotArray

  const ScrolledMessage: string := "Scrolled Cell Not Implemented"
  const CollapsedMessage: string := "Collapsed Cell Not Implemented"
  const ErrorText: string := "ERROR LUL"

  // ---------------------------------------------------------------------------
  // The three dispatch tables
  // ---------------------------------------------------------------------------

  datatype CellRenderer = CodeRenderer | MarkdownRenderer
  datatype OutputRenderer = StreamRenderer | ExecuteResultRenderer | DisplayDataRenderer | ErrorRenderer
  datatype DataRenderer = HtmlRenderer | PlainTextRenderer | PngRenderer

  const CellRendererTypes: map<string, CellRenderer> :=
    map["code" := CodeRenderer, "markdown" := MarkdownRenderer]

  const OutputRendererTypes: map<string, OutputRenderer> :=
    map["stream" := StreamRenderer,
        "execute_result" := ExecuteResultRenderer,
        "display_data" := DisplayDataRenderer,
        "error" := ErrorRenderer]

  const DataRendererTypes: map<string, DataRenderer> :=
    map["text/html" := HtmlRenderer, "text/plain" := PlainTextRenderer, "image/png" := PngRenderer]

  /** Reading `table[tag]`: `undefined` when the tag is not a key. */
  function Lookup<V>(table: map<string, V>, tag: string): (r: Option<V>)
    ensures r.Some? <==> tag in table
    ensures r.Some? ==> r.value == table[tag]
  {
    if tag in table then Some(table[tag]) else None
  }

  // ---------------------------------------------------------------------------
  // Rendering a list: `xs.map(render)` followed by React rendering every child
  // ---------------------------------------------------------------------------

  /** Renders every element with its position, in order; the whole list fails
      as soon as one element fails. */
  function RenderEach<A, B, E>(xs: seq<A>, render: (A, nat) -> Result<B, E>): (r: Result<seq<B>, E>)
    ensures r.Ok? <==> forall i :: 0 <= i < |xs| ==> render(xs[i], i).Ok?
    ensures r.Ok? ==> |r.value| == |xs|
    ensures r.Ok? ==> forall i :: 0 <= i < |xs| ==> r.value[i] == render(xs[i], i).value
    ensures r.Err? ==> exists i :: 0 <= i < |xs| && render(xs[i], i) == Err(r.error)
    decreases |xs|
  {
    if |xs| == 0 then Ok([])
    else
      var n := |xs| - 1;
      match RenderEach(xs[..n], render)
      case Err(e) => Err(e)
      case Ok(front) =>
        match render(xs[n], n)
        case Err(e) => Err(e)
        case Ok(last) => Ok(front + [last])
  }

  // ---------------------------------------------------------------------------
  // MIME representations
  // ---------------------------------------------------------------------------

  /** The text React shows for a payload placed as children: a string as it
      is, an array of strings as its elements in order with nothing between. */
  function ChildText(data: MultilineString): (s: string)
    ensures data.Str? ==> s == data.s
    ensures data.Lines? ==> s == Concat(data.lines) && |s| == TotalLength(data.lines)
  {
    match data
    case Str(s) => s
    case Lines(lines) => Concat(lines)
  }

  /** RenderOutputHTML: the payload's fragments joined; a payload stored as a
      single string throws, since a string has no `join`. No sanitisation. */
  function RenderOutputHtml(data: MultilineString): (r: Result<Block, RenderError>)
    ensures r.Ok? <==> data.Lines?
    ensures r.Err? ==> r.error == HtmlPayloadNotArray
    ensures r.Ok? ==> r.value == Html(Concat(data.lines)) && |r.value.markup| == TotalLength(data.lines)
  {
    match data
    case Lines(lines) => Ok(Html(Concat(lines)))
    case Str(_) => Err(HtmlPayloadNotArray)
  }

  /** RenderOutputPlainText: the payload as preformatted sample text. */
  function RenderOutputPlainText(data: MultilineString): (b: Block)
    ensures b == Sample(ChildText(data))
    ensures data.Str? ==> b.text == data.s
    ensures data.Lines? ==> |b.text| == TotalLength(data.lines)
  {
    Sample(ChildText(data))
  }

  /** RenderOutputPNG: the payload interpolated into a `data:` URL. A list of
      fragments is interpolated with commas between them. */
  function RenderOutputPng(data: MultilineString): (b: Block)
    ensures b.Image?
    ensures data.Str? ==> b.base64 == data.s
    ensures data.Lines? ==> b == Image(CommaJoin(data.lines))
    ensures data.Lines? && |data.lines| > 0 ==> |b.base64| == TotalLength(data.lines) + |data.lines| - 1
  {
    match data
    case Str(s) => Image(s)
    case Lines(lines) => Image(CommaJoin(lines))
  }

  /** `<DataRenderer data={data[key]} />` with `DataRenderer = DataRendererTypes[key]`:
      an unregistered MIME type throws. */
  function RenderData(mimeType: string, payload: MultilineString): (r: Result<Block, RenderError>)
    ensures mimeType !in {"text/html", "text/plain", "image/png"} ==> r == Err(UnknownMimeType(mimeType))
    ensures r.Ok? <==> mimeType in {"text/html", "text/plain", "image/png"} && (mimeType == "text/html" ==> payload.Lines?)
    ensures mimeType == "text/html" ==> r == RenderOutputHtml(payload)
    ensures mimeType == "text/html" && payload.Str? ==> r == Err(HtmlPayloadNotArray)
    ensures mimeType == "text/plain" ==> r == Ok(RenderOutputPlainText(payload))
    ensures mimeType == "image/png" ==> r == Ok(RenderOutputPng(payload))
    ensures r.Ok? ==> (mimeType == "text/html" <==> r.value.Html?)
    ensures r.Ok? ==> (mimeType == "text/plain" <==> r.value.Sample?)
    ensures r.Ok? ==> (mimeType == "image/png" <==> r.value.Image?)
  {
    match Lookup<DataRenderer>(DataRendererTypes, mimeType)
    case None => Err(UnknownMimeType(mimeType))
    case Some(HtmlRenderer) => RenderOutputHtml(payload)
    case Some(PlainTextRenderer) => Ok(RenderOutputPlainText(payload))
    case Some(PngRenderer) => Ok(RenderOutputPng(payload))
  }

  /** `Object.keys(data).map(...)`: one unit per MIME representation, in key
      order, all of them; there is no choice of a preferred representation. */
  function RenderDataUnits(data: MimeBundle): (r: Result<seq<Block>, RenderError>)
    ensures r.Ok? <==> forall i :: 0 <= i < |data| ==> RenderData(data[i].0, data[i].1).Ok?
    ensures r.Ok? ==> |r.value| == |data|
    ensures r.Ok? ==> forall i :: 0 <= i < |data| ==> r.value[i] == RenderData(data[i].0, data[i].1).value
  {
    RenderEach(data, (entry: (string, MultilineString), _: nat) => RenderData(entry.0, entry.1))
  }

  // ---------------------------------------------------------------------------
  // Outputs
  // ---------------------------------------------------------------------------

  /** RenderOutputError: a fixed mark, whatever the error's name, value and traceback. */
  function RenderOutputError(output: Output): (b: Block)
    ensures b == ErrorIndicator(ErrorText)
  {
    ErrorIndicator(ErrorText)
  }

  /** RenderOutputStream: the stream's name, the output type, then the text. */
  function RenderOutputStream(output: Output): (b: Block)
    ensures b.OutputGroup? && |b.children| == 3
    ensures b.children[0] == OutputNameLabel(output.name)
    ensures b.children[1] == OutputTypeLabel(output.outputType)
    ensures b.children[2] == Sample(ChildText(output.text))
    ensures output.text.Str? ==> b.children[2].text == output.text.s
    ensures output.text.Lines? ==> |b.children[2].text| == TotalLength(output.text.lines)
  {
    OutputGroup([OutputNameLabel(output.name), OutputTypeLabel(output.outputType), Sample(ChildText(output.text))])
  }

  /** RenderOutputExecuteResult: two labels, then one unit per MIME representation. */
  function RenderOutputExecuteResult(output: Output): (r: Result<Block, RenderError>)
    ensures r.Ok? <==> RenderDataUnits(output.data).Ok?
    ensures r.Ok? ==> r.value.OutputGroup? && |r.value.children| == 2 + |output.data|
    ensures r.Ok? ==> r.value.children[0] == ExecutionCountLabel(output.executionCount)
    ensures r.Ok? ==> r.value.children[1] == OutputTypeLabel(output.outputType)
    ensures r.Ok? ==> r.value.children[2..] == RenderDataUnits(output.data).value
  {
    match RenderDataUnits(output.data)
    case Err(e) => Err(e)
    case Ok(units) =>
      Ok(OutputGroup([ExecutionCountLabel(output.executionCount), OutputTypeLabel(output.outputType)] + units))
  }

  /** RenderOutputDisplayData: one unit per MIME representation and no labels. */
  function RenderOutputDisplayData(output: Output): (r: Result<Block, RenderError>)
    ensures r.Ok? <==> RenderDataUnits(output.data).Ok?
    ensures r.Ok? ==> r.value.OutputGroup? && r.value.children == RenderDataUnits(output.data).value
  {
    match RenderDataUnits(output.data)
    case Err(e) => Err(e)
    case Ok(units) => Ok(OutputGroup(units))
  }

  /** One entry of RenderOutputs: the registered renderer for the output's
      type, or `null` when there is none. Only MIME bundles can throw. */
  function RenderOutput(output: Output): (r: Result<Block, RenderError>)
    ensures output.outputType !in {"stream", "execute_result", "display_data", "error"} ==> r == Ok(Nothing)
    ensures r == Ok(Nothing) ==> output.outputType !in {"stream", "execute_result", "display_data", "error"}
    ensures r.Err? ==> output.outputType in {"execute_result", "display_data"}
    ensures output.outputType == "error" ==> r == Ok(ErrorIndicator(ErrorText))
    ensures output.outputType == "stream" ==> r == Ok(RenderOutputStream(output))
    ensures output.outputType == "execute_result" ==> r == RenderOutputExecuteResult(output)
    ensures output.outputType == "display_data" ==> r == RenderOutputDisplayData(output)
  {
    match Lookup<OutputRenderer>(OutputRendererTypes, output.outputType)
    case None => Ok(Nothing)
    case Some(StreamRenderer) => Ok(RenderOutputStream(output))
    case Some(ExecuteResultRenderer) => RenderOutputExecuteResult(output)
    case Some(DisplayDataRenderer) => RenderOutputDisplayData(output)
    case Some(ErrorRenderer) => Ok(RenderOutputError(output))
  }

  /** RenderOutputs: nothing for no outputs (`null` and an empty list render
      alike), otherwise one entry per output in order. */
  function RenderOutputs(outputs: seq<Output>): (r: Result<seq<Block>, RenderError>)
    ensures outputs == [] ==> r == Ok([])
    ensures r.Ok? <==> forall i :: 0 <= i < |outputs| ==> RenderOutput(outputs[i]).Ok?
    ensures r.Ok? ==> |r.value| == |outputs|
    ensures r.Ok? ==> forall i :: 0 <= i < |outputs| ==> r.value[i] == RenderOutput(outputs[i]).value
    ensures r.Ok? ==> forall i :: 0 <= i < |outputs| ==>
      (r.value[i] == Nothing <==> outputs[i].outputType !in {"stream", "execute_result", "display_data", "error"})
  {
    if |outputs| == 0 then Ok([])
    else RenderEach(outputs, (output: Output, _: nat) => RenderOutput(output))
  }

  // ---------------------------------------------------------------------------
  // Cells
  // ---------------------------------------------------------------------------

  /** RenderSource: the source fragments joined, as a code block. */
  function RenderSource(source: seq<string>): (b: Block)
    ensures b == SourceCode(Concat(source))
    ensures |b.text| == TotalLength(source)
  {
    SourceCode(Concat(source))
  }

  /** RenderCode: a scrolled cell, and otherwise a collapsed one, is shown as
      a fixed message; any other code cell as its type, its execution count,
      its source and its outputs, in that order. */
  function RenderCode(cell: Cell): (r: Result<seq<Block>, RenderError>)
    ensures FieldTruthy(cell.metadata, "scrolled") ==> r == Ok([Placeholder(ScrolledMessage)])
    ensures !FieldTruthy(cell.metadata, "scrolled") && FieldTruthy(cell.metadata, "collapsed") ==>
      r == Ok([Placeholder(CollapsedMessage)])
    ensures !FieldTruthy(cell.metadata, "scrolled") && !FieldTruthy(cell.metadata, "collapsed") ==>
      (r.Ok? <==> RenderOutputs(cell.outputs).Ok?)
    ensures !FieldTruthy(cell.metadata, "scrolled") && !FieldTruthy(cell.metadata, "collapsed") && r.Ok? ==>
      && |r.value| == 3 + |cell.outputs|
      && r.value[0] == CellTypeLabel(cell.cellType)
      && r.value[1] == ExecutionCountLabel(cell.executionCount)
      && r.value[2] == RenderSource(cell.source)
      && r.value[3..] == RenderOutputs(cell.outputs).value
  {
    if FieldTruthy(cell.metadata, "scrolled") then Ok([Placeholder(ScrolledMessage)])
    else if FieldTruthy(cell.metadata, "collapsed") then Ok([Placeholder(CollapsedMessage)])
    else
      match RenderOutputs(cell.outputs)
      case Err(e) => Err(e)
      case Ok(entries) =>
        Ok([CellTypeLabel(cell.cellType), ExecutionCountLabel(cell.executionCount), RenderSource(cell.source)] + entries)
  }

  /** RenderMarkdown: the cell type, then the joined source handed to the
      Markdown formatter. */
  function RenderMarkdown(cell: Cell): (r: seq<Block>)
    ensures |r| == 2 && r[0] == CellTypeLabel(cell.cellType)
    ensures r[1] == Markdown(Concat(cell.source)) && |r[1].text| == TotalLength(cell.source)
  {
    [CellTypeLabel(cell.cellType), Markdown(Concat(cell.source))]
  }

  /** `<Renderer {...cell} />` with `Renderer = CellRendererTypes[cell.cell_type]`:
      an unregistered cell type throws. */
  function RenderCell(cell: Cell): (r: Result<seq<Block>, RenderError>)
    ensures cell.cellType !in {"code", "markdown"} ==> r == Err(UnknownCellType(cell.cellType))
    ensures cell.cellType == "code" ==> r == RenderCode(cell)
    ensures cell.cellType == "markdown" ==> r == Ok(RenderMarkdown(cell))
  {
    match Lookup<CellRenderer>(CellRendererTypes, cell.cellType)
    case None => Err(UnknownCellType(cell.cellType))
    case Some(CodeRenderer) => RenderCode(cell)
    case Some(MarkdownRenderer) => Ok(RenderMarkdown(cell))
  }

  /** `cellJSON.id ? cellJSON.id : cell_idx`: a missing or empty id is falsy. */
  function CellKey(cell: Cell, index: nat): (k: Key)
    ensures k.IdKey? <==> cell.id.Some? && cell.id.value != ""
    ensures k.IdKey? ==> k.id == cell.id.value
    ensures k.IndexKey? ==> k.index == index
  {
    if cell.id.Some? && cell.id.value != "" then IdKey(cell.id.value) else IndexKey(index)
  }

  /** The keyed block of one cell: its rendering followed by a divider. */
  function RenderCellBlock(cell: Cell, index: nat): (r: Result<Block, RenderError>)
    ensures r.Ok? <==> RenderCell(cell).Ok?
    ensures r.Err? ==> RenderCell(cell) == Err(r.error)
    ensures r.Ok? ==> r.value == CellGroup(CellKey(cell, index), RenderCell(cell).value + [Divider])
  {
    match RenderCell(cell)
    case Err(e) => Err(e)
    case Ok(body) => Ok(CellGroup(CellKey(cell, index), body + [Divider]))
  }

  /** RenderNotebook: one keyed block per cell, in the cells' order, each
      ending with a divider; it fails exactly when some cell fails. */
  function RenderNotebook(notebook: Notebook): (r: Result<seq<Block>, RenderError>)
    ensures r.Ok? <==> forall i :: 0 <= i < |notebook.cells| ==> RenderCell(notebook.cells[i]).Ok?
    ensures r.Ok? ==> |r.value| == |notebook.cells|
    ensures r.Ok? ==> forall i :: 0 <= i < |notebook.cells| ==>
      r.value[i] == CellGroup(CellKey(notebook.cells[i], i), RenderCell(notebook.cells[i]).value + [Divider])
    ensures r.Err? ==> exists i :: 0 <= i < |notebook.cells| && RenderCell(notebook.cells[i]) == Err(r.error)
  {
    RenderEach(notebook.cells, RenderCellBlock)
  }

  // ---------------------------------------------------------------------------
  // When rendering throws
  // ---------------------------------------------------------------------------

  /** An output can be shown when, if it carries a MIME bundle that is
      rendered, every representation has a registered type and every HTML
      payload is a list of fragments. */
  ghost predicate OutputRenderable(output: Output)
  {
    output.outputType in {"execute_result", "display_data"} ==>
      forall entry | entry in output.data ::
        entry.0 in {"text/html", "text/plain", "image/png"} && (entry.0 == "text/html" ==> entry.1.Lines?)
  }

  /** A cell can be shown when its type is registered and, if it is a code
      cell whose outputs are rendered, every output can be shown. */
  ghost predicate CellRenderable(cell: Cell)
  {
    && cell.cellType in {"code", "markdown"}
    && (cell.cellType == "code" && !FieldTruthy(cell.metadata, "scrolled") && !FieldTruthy(cell.metadata, "collapsed") ==>
          forall output | output in cell.outputs :: OutputRenderable(output))
  }

  /** Exactly the outputs described by OutputRenderable render without throwing. */
  lemma RenderOutputSucceedsIff(output: Output)
    ensures RenderOutput(output).Ok? <==> OutputRenderable(output)
  {
  }

  /** Exactly the cells described by CellRenderable render without throwing. */
  lemma RenderCellSucceedsIff(cell: Cell)
    ensures RenderCell(cell).Ok? <==> CellRenderable(cell)
  {
    if cell.cellType == "code" && !FieldTruthy(cell.metadata, "scrolled") && !FieldTruthy(cell.metadata, "collapsed") {
      forall i | 0 <= i < |cell.outputs| {
        RenderOutputSucceedsIff(cell.outputs[i]);
      }
      if !RenderCell(cell).Ok? {
        var i :| 0 <= i < |cell.outputs| && !RenderOutput(cell.outputs[i]).Ok?;
        assert cell.outputs[i] in cell.outputs;
      }
    }
  }

  /** A notebook renders without throwing exactly when every cell can be
      shown: an unknown cell type, or an unknown MIME type or a single-string
      HTML payload in an output that is rendered, makes the whole render fail. */
  lemma RenderNotebookSucceedsIff(notebook: Notebook)
    ensures RenderNotebook(notebook).Ok? <==> forall cell | cell in notebook.cells :: CellRenderable(cell)
  {
    forall i | 0 <= i < |notebook.cells| {
      RenderCellSucceedsIff(notebook.cells[i]);
    }
    if !RenderNotebook(notebook).Ok? {
      var i :| 0 <= i < |notebook.cells| && !RenderCell(notebook.cells[i]).Ok?;
      assert notebook.cells[i] in notebook.cells;
    }
  }

  /** A scrolled or collapsed code cell shows only its message, so even
      outputs that cannot be rendered do not make it fail. */
  lemma HiddenCellIgnoresContent(cell: Cell, other: Cell)
    requires cell.cellType == other.cellType == "code"
    requires cell.metadata == other.metadata
    requires FieldTruthy(cell.metadata, "scrolled") || FieldTruthy(cell.metadata, "collapsed")
    ensures RenderCell(cell) == RenderCell(other)
    ensures RenderCell(cell).Ok? && |RenderCell(cell).value| == 1 && RenderCell(cell).value[0].Placeholder?
  {
  }

  // ---------------------------------------------------------------------------
  // Worked examples
  // ---------------------------------------------------------------------------

  /** A stream output shows its name, its type and its text. */
  lemma StreamExample()
    ensures RenderOutput(Output("stream", "stdout", Str("hello\n"), [], None, "", "", [])).value
         == OutputGroup([OutputNameLabel("stdout"), OutputTypeLabel("stream"), Sample("hello\n")])
  {
  }

  /** Both representations of a two-entry bundle are shown, in key order. */
  lemma BothRepresentationsExample()
    ensures RenderOutput(Output("display_data", "", Str(""), [("text/plain", Str("42")), ("text/html", Lines(["<b>", "42</b>"]))], None, "", "", []))
         == Ok(OutputGroup([Sample("42"), Html("<b>42</b>")]))
  {
    var data := [("text/plain", Str("42")), ("text/html", Lines(["<b>", "42</b>"]))];
    assert Concat(["<b>", "42</b>"]) == "<b>42</b>" by {
      assert Concat(["42</b>"]) == "42</b>";
    }
    assert RenderData(data[0].0, data[0].1) == Ok(Sample("42"));
    assert RenderData(data[1].0, data[1].1) == Ok(Html("<b>42</b>"));
    assert RenderDataUnits(data).value == [Sample("42"), Html("<b>42</b>")];
  }

  /** An HTML payload stored as one string, valid in the notebook format,
      makes the whole notebook fail to render. */
  lemma HtmlStringPayloadExample()
    ensures RenderNotebook(Notebook(map[], 4, 5, [
              Cell("code", Some("a1"), map[], ["x"], Some(1),
                   [Output("execute_result", "", Str(""), [("text/html", Str("<b>x</b>"))], Some(1), "", "", [])])]))
         == Err(HtmlPayloadNotArray)
  {
  }

  /** A raw cell has no registered renderer: the whole notebook fails rather
      than skipping the cell. */
  lemma RawCellExample()
    ensures RenderNotebook(Notebook(map[], 4, 5, [Cell("raw", None, map[], ["text"], None, [])])) == Err(UnknownCellType("raw"))
  {
  }
}
