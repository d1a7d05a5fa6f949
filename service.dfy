/** What the HTTP handlers of both back-ends share: reading and checking the request, the
    model call's possible replies, what executing generated code can lead to, and the
    `{plot, error}` result of a run. */
module Service {
  import opened TextOps
  import opened Frames

  const EmptyQueryError := "Query cannot be empty."
  const DefaultDataset := "us_deaths"
  const InvalidDatasetPrefix := "Invalid dataset key: "
  const ApiErrorPrefix := "OpenRouter API error: "

  /** A JSON body field: missing, `null`, or a string. */
  datatype Field = Absent | Null | Text(s: string)

  datatype Request = Request(query: Field, dataset: Field)

  /** `not request.json.get("query", "")`: a missing, null or empty query. */
  predicate BlankQuery(f: Field) {
    f.Absent? || f.Null? || f == Text("")
  }

  /** The key `DATASETS.get` is called with; `None` stands for Python's `None`. */
  function DatasetKey(f: Field): (k: Option<string>)
    ensures f.Absent? ==> k == Some(DefaultDataset)
    ensures k.None? <==> f.Null?
    ensures f.Text? ==> k == Some(f.s)
  {
    match f
    case Absent => Some(DefaultDataset)
    case Null => None
    case Text(s) => Some(s)
  }

  /** Python's `str` of the key in the error message. */
  function KeyText(k: Option<string>): string {
    match k
    case None => "None"
    case Some(s) => s
  }

  /** The outcome of checking a request against the loaded datasets. */
  datatype Checked = Rejected(message: string) | Accepted(query: string, key: string, table: Table)

  /** The checks at the top of each handler: an empty query is rejected first, then a key
      that names no loaded dataset; otherwise the query, key and table go on. */
  function Validate(req: Request, datasets: map<string, Table>): (r: Checked)
    ensures r == Rejected(EmptyQueryError) <==> BlankQuery(req.query)
    ensures r.Accepted? <==>
      !BlankQuery(req.query) && DatasetKey(req.dataset).Some? && DatasetKey(req.dataset).value in datasets
    ensures r.Accepted? ==>
      req.query == Text(r.query) && r.query != "" && Some(r.key) == DatasetKey(req.dataset)
      && r.key in datasets && r.table == datasets[r.key]
    ensures r.Rejected? && !BlankQuery(req.query) ==>
      r.message == InvalidDatasetPrefix + KeyText(DatasetKey(req.dataset))
  {
    if BlankQuery(req.query) then Rejected(EmptyQueryError)
    else
      var k := DatasetKey(req.dataset);
      if k.Some? && k.value in datasets then Accepted(req.query.s, k.value, datasets[k.value])
      else
        var message := InvalidDatasetPrefix + KeyText(k);
        assert message[0] != EmptyQueryError[0];
        Rejected(message)
  }

  /** `', '.join(df.columns.tolist())`. */
  function ColumnsList(columns: seq<string>): string {
    Join(columns, ", ")
  }

  /** A column list of comma-free names reads back as the columns, in order. */
  lemma ColumnsListReadsBack(columns: seq<string>)
    requires |columns| > 0 && forall k :: 0 <= k < |columns| ==> ',' !in columns[k]
    ensures SplitOnSeparator(ColumnsList(columns), ", ") == columns
  {
    JoinSplitRoundTrip(columns);
  }

  /** A text between double quotes. */
  function Quoted(text: string): string {
    "\"" + text + "\""
  }

  /** Whatever surrounds them, a spliced quoted query and a spliced key show up in the text. */
  lemma SplicedShape(head: string, query: string, mid: string, key: string, tail: string)
    ensures Contains(head + Quoted(query) + mid + key + tail, Quoted(query))
    ensures Contains(head + Quoted(query) + mid + key + tail, key)
  {
    ContainsInfix(head, Quoted(query), mid + key + tail);
    assert head + Quoted(query) + mid + key + tail == head + Quoted(query) + (mid + key + tail);
    ContainsInfix(head + Quoted(query) + mid, key, tail);
  }

  /** What the chat-completions call can give back: the reply text, a non-200 response's
      body, or a reply whose JSON lacks the expected fields (an exception's type name and
      text). */
  datatype Reply = Answer(content: string) | ApiError(body: string) | Malformed(exception: string, detail: string)

  /** The message of the handlers' catch-all: `f"{type(e).__name__}: {str(e)}"`. */
  function ServerError(exception: string, detail: string): string {
    exception + ": " + detail
  }

  /** A chart as the JSON-safe dictionary of a figure: one produced by the generated code
      (opaque), or the per-date trend line the back-end draws itself. */
  datatype Chart = Rendered(figure: string) | Trend(points: map<int, int>, y: string, title: string)

  /** What `fig` may be bound to: a figure, or an object whose `to_dict` fails with a message. */
  datatype FigValue = Figure(chart: Chart) | NotFigure(error: string)

  /** Running generated code: it raises with a message, or finishes with `fig` bound or not. */
  datatype ExecOutcome = Raised(message: string) | Finished(fig: Option<FigValue>)

  /** The `{"plot": ..., "error": ...}` result of a run. */
  datatype PlotResult = PlotResult(plot: Option<Chart>, error: Option<string>)

  /** Exactly one of the two fields is set. */
  predicate OneOf(r: PlotResult) {
    r.plot.Some? != r.error.Some?
  }

  /** Converting the bound figure: a figure becomes the plot, anything else the error `str(e)`. */
  function FromFigure(v: FigValue): (r: PlotResult)
    ensures OneOf(r)
    ensures r.plot.Some? <==> v.Figure?
    ensures v.Figure? ==> r == PlotResult(Some(v.chart), None)
    ensures v.NotFigure? ==> r == PlotResult(None, Some(v.error))
  {
    match v
    case Figure(c) => PlotResult(Some(c), None)
    case NotFigure(e) => PlotResult(None, Some(e))
  }

  /** What `/query` answers: a rejection with its status, or the extracted code with the run's
      result. */
  datatype QueryResponse =
    | QueryRejected(status: int, message: string)
    | Visualization(code: string, visualization: Option<Chart>, error: Option<string>)
}
