# Notebook renderer and notebook listing pagination

This project models the Jupyter-notebook renderer of a personal blog site
(`lib/renderNotebook.js`) and the pagination computed for the notebook
listing page (`pages/notebooks.js`), and proves properties of both in Dafny.

The renderer receives a parsed `.ipynb` notebook and builds an ordered tree
of display blocks. It picks a renderer through three string-keyed tables:
cell type to cell renderer, output type to output renderer, and MIME type to
data renderer. Each table is a Dafny `map` constant. A read from a table is
an `Option`. The three lookups behave differently in the code:

- An unknown **output type** is guarded. That output shows as `null`
  (the `Nothing` block).
- An unknown **cell type** or **MIME type** is not guarded. The element type
  becomes `undefined` and React throws, so the whole notebook fails to render.
  The model returns `Err(UnknownCellType(..))` or `Err(UnknownMimeType(..))`,
  and `RenderNotebook` passes that error up.
- An HTML payload stored as a single string throws as well, because a string
  has no `join` method. The notebook format allows this form. The model
  returns `Err(HtmlPayloadNotArray)`.

`NotebookRenderer.RenderNotebookSucceedsIff` states exactly when a notebook
renders. A forward-compatible design would skip unknown cell and MIME types
silently and would sanitise HTML. The code does neither, and the model
follows the code: it fails instead of skipping, and it does not sanitise.

Modules:

- `Wrappers` (`wrappers.dfy`): `Option`, `Result`.
- `Text` (`text.dfy`): `join('')` (`Concat`), array-to-string interpolation
  (`CommaJoin`), and lemmas that joining adds and drops no characters.
- `NotebookTypes` (`notebook_types.dfy`): notebooks, cells and outputs, plus
  JSON metadata with JavaScript truthiness. An output's `data` bundle is a
  sequence of pairs, so `Object.keys` order is kept.
- `NotebookRenderer` (`render_notebook.dfy`): the dispatch tables, every
  renderer, and the lemmas.
- `NotebooksPage` (`notebooks_page.dfy`): `POSTS_PER_PAGE`, the first-page
  slice, and the page count.

## Model

| member | source | states |
|---|---|---|
| `Text.Concat` | lib/renderNotebook.js:97 | joining fragments with `''` gives a text whose length is the sum of the fragment lengths |
| `Text.CommaJoin` | lib/renderNotebook.js:72 | interpolating a list of fragments gives a text whose length is the total of the fragments plus one per gap between them; an empty list gives the empty text |
| `Text.CommaJoinAppend` | lib/renderNotebook.js:72 | interpolating two non-empty lists gives the first text, one comma, then the second text, so exactly one comma sits between consecutive fragments |
| `Text.ConcatAppend` | lib/renderNotebook.js:97 | joining two lists of fragments gives the first text followed by the second, so no separator is added |
| `Text.FragmentInPlace` | lib/renderNotebook.js:136 | each source fragment appears unchanged in the joined text, right after the characters of the fragments before it |
| `NotebookRenderer.RenderEach` | lib/renderNotebook.js:108-113 | mapping and rendering a list gives one result per element, in order, built with that element's position; it fails exactly when some element fails, with that element's error |
| `NotebookRenderer.ChildText` | lib/renderNotebook.js:87 | a string payload shows as itself; a list payload shows as the in-order join of its fragments, with nothing between them |
| `NotebookRenderer.RenderOutputHtml` | lib/renderNotebook.js:53-57 | HTML renders exactly when the payload is a list of fragments, as the in-order join of those fragments with no sanitisation; a single-string payload throws |
| `NotebookRenderer.RenderOutputPlainText` | lib/renderNotebook.js:58-65 | plain text shows as preformatted sample text whose content is exactly the text React shows for the payload (the string, or the fragments joined in order) |
| `NotebookRenderer.RenderOutputPng` | lib/renderNotebook.js:66-78 | a PNG shows as an image of its base64 text: a string payload as it is, a list payload as its fragments with a comma between each pair |
| `NotebookRenderer.RenderData` | lib/renderNotebook.js:32-36 | a MIME representation renders exactly when its type is text/html, text/plain or image/png (and an HTML payload is a list); each of the three types gives exactly its own renderer's result for the payload; a single-string HTML payload throws, and any other type throws as unknown |
| `NotebookRenderer.RenderDataUnits` | lib/renderNotebook.js:40-43 | a bundle with N keys gives exactly N units, one per key, in key order, with no preferred-type choice; it fails exactly when some representation fails |
| `NotebookRenderer.RenderOutputError` | lib/renderNotebook.js:20-22 | an error output always shows the same fixed mark, whatever its name, value and traceback |
| `NotebookRenderer.RenderOutputStream` | lib/renderNotebook.js:80-92 | a stream output shows its name label, its type label, then its text as React shows it (the string, or the fragments joined in order), in that order |
| `NotebookRenderer.RenderOutputExecuteResult` | lib/renderNotebook.js:38-51 | an execute_result shows the execution-count label and the output-type label, then its data units; it has exactly two more children than keys |
| `NotebookRenderer.RenderOutputDisplayData` | lib/renderNotebook.js:24-30 | a display_data output shows its data units and nothing else |
| `NotebookRenderer.RenderOutput` | lib/renderNotebook.js:111-112 | an output is `null` exactly when its type is not stream, execute_result, display_data or error; only the two MIME-bundle types can throw; each known type goes to its own renderer |
| `NotebookRenderer.RenderOutputs` | lib/renderNotebook.js:102-114 | no outputs render as nothing; otherwise one entry per output, in order, and an entry is `null` exactly when the type is unknown |
| `NotebookRenderer.RenderSource` | lib/renderNotebook.js:94-100 | the source shows as one code block whose text is the in-order join of its fragments, with nothing added |
| `NotebookRenderer.RenderCode` | lib/renderNotebook.js:115-129 | a scrolled code cell shows only the scrolled message (flags are tested with JavaScript truthiness, so "auto" sets them and false, 0 and "" do not); a collapsed one that is not scrolled shows only the collapsed message; any other code cell shows, in order, its type, its execution count, its source, then one entry per output, and it fails exactly when its outputs fail |
| `NotebookRenderer.RenderMarkdown` | lib/renderNotebook.js:131-140 | a markdown cell shows its type, then the in-order join of its source fragments handed to the Markdown formatter |
| `NotebookRenderer.RenderCell` | lib/renderNotebook.js:145-149 | code and markdown cells go to their renderers; any other cell type throws instead of being skipped |
| `NotebookRenderer.CellKey` | lib/renderNotebook.js:148 | a cell's key is its id when the id is present and non-empty, and otherwise its position |
| `NotebookRenderer.RenderCellBlock` | lib/renderNotebook.js:147-151 | a cell's block carries the cell's key and holds the cell's rendering followed by a divider; it fails exactly when the cell fails |
| `NotebookRenderer.RenderNotebook` | lib/renderNotebook.js:142-154 | exactly one block per cell, in the cells' stored order, each keyed and ending with a divider (the last one too); the render fails exactly when some cell fails, with that cell's error |
| `NotebookRenderer.RenderOutputSucceedsIff` | lib/renderNotebook.js:108-113 | an output renders exactly when every representation of a rendered MIME bundle has a registered type and every HTML payload is a list |
| `NotebookRenderer.RenderCellSucceedsIff` | lib/renderNotebook.js:115-140 | a cell renders exactly when its type is registered and, for a code cell that is neither scrolled nor collapsed, every output renders |
| `NotebookRenderer.RenderNotebookSucceedsIff` | lib/renderNotebook.js:144-153 | a notebook renders exactly when every one of its cells can be rendered |
| `NotebookRenderer.HiddenCellIgnoresContent` | lib/renderNotebook.js:117-119 | a scrolled or collapsed code cell renders the same single placeholder whatever its source, outputs and execution count |
| `NotebookRenderer.StreamExample` | lib/renderNotebook.js:80-92 | the stdout stream "hello\n" shows as the stdout label, the stream label and the text |
| `NotebookRenderer.BothRepresentationsExample` | lib/renderNotebook.js:24-30 | a bundle with text/plain and text/html shows both representations, in key order |
| `NotebookRenderer.HtmlStringPayloadExample` | lib/renderNotebook.js:56 | a single-string HTML payload makes the whole notebook fail |
| `NotebookRenderer.RawCellExample` | lib/renderNotebook.js:145 | a raw cell makes the whole notebook fail instead of being skipped |
| `NotebooksPage.Ceil` | pages/notebooks.js:15 | `Math.ceil` gives the least integer not below its argument |
| `NotebooksPage.Slice` | pages/notebooks.js:12 | `slice` clamps both ends to the length, gives the elements from the start onward, and is empty when start is not before end |
| `NotebooksPage.TotalPages` | pages/notebooks.js:15 | the page count holds all posts at five per page, and one page fewer would not |
| `NotebooksPage.TotalPagesIsCeilingDivision` | pages/notebooks.js:15 | the page count equals the integer ceiling division `(n + 4) / 5` |
| `NotebooksPage.TotalPagesIsLeast` | pages/notebooks.js:15 | no smaller page count holds all the posts |
| `NotebooksPage.GetStaticProps` | pages/notebooks.js:9-18 | the first page is all the posts when there are at most five, and otherwise the first five; the current page is 1; the page count is the ceiling of n/5 and is 0 exactly for no posts; the posts are returned unchanged |

## Left out

- Logging of the format version and of each cell's key (`console.log`): side effects only.
- The HTML-to-React conversion (`htmr`): a foreign library. Its input is kept as the `Html` block's markup.
- The Markdown formatter and its plugins (GFM, math, KaTeX): an external formatter. Its input is kept as the `Markdown` block's text.
- The `next/image` element, its `data:image/png;base64,` prefix, alt text and sizing: presentation. Only the interpolated payload is kept. Base64 is never checked.
- Fixed captions ("Source:", "Output:", "Output Text:") and line breaks: presentation. The labels that carry data are kept as blocks. A code cell's inner `<div>` is flattened into its cell block.
- The keys on output entries and MIME units: each is the element's position in its list, so it is implicit in the sequence.
- React compares keys as strings, so an id `"3"` and position 3 would collide. The model keeps the two kinds of key apart.
- Which error is reported when a notebook has several failing parts: the model reports the first in document order. React may report a different one, depending on when it creates each child.
- Inherited `Object.prototype` names used as tags (for example `"constructor"`): the source would find a function there. The model treats them as unknown tags.
- Integer-like keys in a `data` bundle, which `Object.keys` would list first: such a key is never a registered MIME type, so the render fails either way. Bundle keys are assumed distinct, as in a JSON object.
- A `source` stored as one string instead of a list: the source would throw in `join`. The model takes `source` as a list of fragments.
- Output `metadata` and notebook `metadata`: passed around but never read by the renderer.
- NaN and -0 in metadata numbers, and JavaScript floating point in `Math.ceil(n / 5)`: the model uses exact reals. The two agree for any list shorter than 2^53.
- Loading the posts (`getAllNotebookMetadata`, async): file-system I/O. The posts are a parameter.
- The page components (`Blog`, `LayoutWrapper`, `SVGWrapper`), the `NotebookRenderer` wrapper with its `useMemo`, and the dynamic `require` of a layout by name: UI layout, a React hook, and a foreign call.
