/** The first back-end's `/query` and `/summary` handlers: validation, the prompts, the code
    repairs with the Deaths and Cases rules, the fallback trend chart when the generated code
    binds no figure, and the assembly of the summary text. */
module App1 {
  import opened TextOps
  import opened Frames
  import opened Conversion
  import opened Repairs
  import opened Extraction
  import opened Service

  // The visualisation prompt, split where the quoted query and the dataset key are spliced in.
  const VizPromptHead := "\nYou are a Python data visualization expert using Plotly and Pandas.\n\n\U{1F4DD} A user asked: "
  const VizPromptAfterQuery := "\n\nYou are working with a Pandas DataFrame named df loaded from a COVID-19 dataset: "
  const VizPromptAfterKey := ".\n\nThe available datasets are:\n\n---\n\n\U{1F539} **Dataset: global_deaths**\n- Columns: \'Country/Region\', \'Province/State\', \'Lat\', \'Long\', \'Date\', \'Deaths\', \'Daily_Deaths\'\n- Use Daily_Deaths for daily death queries (e.g., \"deaths in India on April 21, 2021\")\n- Use Deaths for cumulative totals (e.g., \"total deaths in Italy until May 2021\")\n- Filter by: \'Country/Region\', optionally \'Province/State\'\n- Use: px.bar() for single-day, px.line() for trends\n\n---\n\n\U{1F539} **Dataset: us_deaths**\n- Columns: \'Admin2\', \'Province_State\', \'Country_Region\', \'Date\', \'Deaths\', \'Daily_Deaths\'\n- Use Daily_Deaths for daily trends or per-date queries\n- Use Deaths only for cumulative totals if the user asks for total deaths\n- Filter by: \'Province_State\' or \'Admin2\'\n- Use: px.bar() for single-day or comparison, px.line() for time series\n\n---\n\n\U{1F539} **Dataset: global_cases**\n- Columns: \'Country/Region\', \'Province/State\', \'Lat\', \'Long\', \'Date\', \'Cases\', \'Daily_Cases\'\n- Use Daily_Cases for daily new cases or trends\n- Use Cases for cumulative totals\n- Filter by: \'Country/Region\' and optionally \'Province/State\'\n- Use: px.line() for trends, px.bar() for one-time comparisons\n\n---\n\n\U{1F539} **Dataset: us_cases**\n- Columns: \'Admin2\', \'Province_State\', \'Country_Region\', \'Date\', \'Cases\', \'Daily_Cases\'\n- Use Daily_Cases for trends or day-specific queries\n- Use Cases if the user asks for total or cumulative cases\n- Filter by: \'Province_State\' or \'Admin2\'\n- Use: px.bar() for daily comparisons, px.line() for time series\n\n---\n\n\U{1F4C5} Date Handling (All Datasets):\n- Always convert using: df[\'Date\'] = pd.to_datetime(df[\'Date\'])\n- For exact date: df[\'Date\'] == pd.to_datetime(\'YYYY-MM-DD\')\n- For month/year: use .dt.month and .dt.year\n\n\U{1F4CA} Aggregation Tips:\n- Use groupby(\'Date\') or groupby(\'Province_State\') as needed\n- Always use .reset_index() after groupby\n\n\U{1F5BC}\U{FE0F} Output Format:\n- Only return Python code in triple backticks\n- Assign your chart to a variable called fig\n- DO NOT use markdown, print(), or return fig\n\nExample output format:\n\npython\nfig = px.line(...)\nfig.update_layout(title=\"...\")\nYour task is to understand the dataset type from "
  const VizPromptTail := " and generate an appropriate Plotly chart using only available column names. "

  // The summary prompt, split where the quoted query and the column list are spliced in.
  const SummaryPromptHead := "\nYou are a Python data analyst.\n\n### User Query:\n"
  const SummaryPromptAfterQuery := "\n\nYou are working with a Pandas DataFrame `df` with columns:\n"
  const SummaryPromptTail := "\n\n---\n\n### Task:\n- Understand the query and calculate ONLY what\'s requested:\n   - For total deaths or cases \U{279C} assign to `total`\n   - For max daily \U{279C} assign to `max_daily`\n   - For peak date \U{279C} assign to `peak_date`\n- If not asked, DO NOT calculate unnecessary values.\n- If data is missing, assign \"Data not available\".\n- If the dataset is related to deaths always use Daily_Deaths column to give output or to make sum or to get deaths between to dates\nOnly return Python code inside triple backticks. No explanations.\n\n### Example:\n\nQuery: \"Total deaths in India\"\npython\nfiltered_df = df[df[\'Country/Region\'] == \'India\']\ntotal = filtered_df[\'Daily_Deaths\'].sum()\n\nQuery: \"Max daily deaths in USA\"\npython\nfiltered_df = df[df[\'Country/Region\'] == \'USA\']\nmax_daily = filtered_df[\'Daily_Deaths\'].max()\n\n\nIf unclear:\ntotal = \"Data not available\"\n"

  /** The `/query` prompt: the quoted query and twice the dataset key (the column list is
      computed but not used). */
  function VizPrompt(query: string, key: string): string {
    VizPromptHead + Quoted(query) + VizPromptAfterQuery + key + (VizPromptAfterKey + key + VizPromptTail)
  }

  /** The `/query` prompt quotes the user's query and names the dataset. */
  lemma VizPromptMentions(query: string, key: string)
    ensures Contains(VizPrompt(query, key), Quoted(query))
    ensures Contains(VizPrompt(query, key), key)
  {
    SplicedShape(VizPromptHead, query, VizPromptAfterQuery, key, VizPromptAfterKey + key + VizPromptTail);
  }

  /** The `/summary` prompt: the quoted query, then the column list. */
  function SummaryPrompt(query: string, columns: seq<string>): string {
    SummaryPromptHead + Quoted(query) + SummaryPromptAfterQuery + ColumnsList(columns) + SummaryPromptTail
  }

  /** The `/summary` prompt quotes the user's query and lists the columns in order. */
  lemma SummaryPromptMentions(query: string, columns: seq<string>)
    ensures Contains(SummaryPrompt(query, columns), Quoted(query))
    ensures Contains(SummaryPrompt(query, columns), ColumnsList(columns))
  {
    SplicedShape(SummaryPromptHead, query, SummaryPromptAfterQuery, ColumnsList(columns), SummaryPromptTail);
  }

  /** The Deaths rules fire only without a `Deaths` column and with a `Daily_Deaths` one. */
  predicate DeathsFix(columns: seq<string>) {
    "Deaths" !in columns && "Daily_Deaths" in columns
  }

  /** The Cases rules fire only without a `Cases` column and with a `Daily_Cases` one. */
  predicate CasesFix(columns: seq<string>) {
    "Cases" !in columns && "Daily_Cases" in columns
  }

  /** The code the first back-end executes: the four column rules in order, then the
      grouped-sum rule. */
  function Fixed(code: string, columns: seq<string>): string {
    var c1 := Rewrite(code, DeathsFix(columns), DeathsSingle, DailyDeathsSingle);
    var c2 := Rewrite(c1, DeathsFix(columns), DeathsDouble, DailyDeathsDouble);
    var c3 := Rewrite(c2, CasesFix(columns), CasesSingle, DailyCasesSingle);
    var c4 := Rewrite(c3, CasesFix(columns), CasesDouble, DailyCasesDouble);
    GroupbyRule(c4)
  }

  /** After the repairs, a rule that could fire has left none of its pattern behind. */
  lemma FixedClears(code: string, columns: seq<string>)
    ensures DeathsFix(columns) ==>
      !Contains(Fixed(code, columns), DeathsSingle) && !Contains(Fixed(code, columns), DeathsDouble)
    ensures CasesFix(columns) ==>
      !Contains(Fixed(code, columns), CasesSingle) && !Contains(Fixed(code, columns), CasesDouble)
  {
    ColumnPatternsSeparated();
    var d, c := DeathsFix(columns), CasesFix(columns);
    var c1 := Rewrite(code, d, DeathsSingle, DailyDeathsSingle);
    var c2 := Rewrite(c1, d, DeathsDouble, DailyDeathsDouble);
    var c3 := Rewrite(c2, c, CasesSingle, DailyCasesSingle);
    var c4 := Rewrite(c3, c, CasesDouble, DailyCasesDouble);
    if d {
      RewriteClears(code, DeathsSingle, DailyDeathsSingle);
      RewriteKeepsAbsent(c1, d, DeathsDouble, DailyDeathsDouble, DeathsSingle);
      RewriteKeepsAbsent(c2, c, CasesSingle, DailyCasesSingle, DeathsSingle);
      RewriteKeepsAbsent(c3, c, CasesDouble, DailyCasesDouble, DeathsSingle);
      GroupbyKeepsAbsent(c4, DeathsSingle);
      RewriteClears(c1, DeathsDouble, DailyDeathsDouble);
      RewriteKeepsAbsent(c2, c, CasesSingle, DailyCasesSingle, DeathsDouble);
      RewriteKeepsAbsent(c3, c, CasesDouble, DailyCasesDouble, DeathsDouble);
      GroupbyKeepsAbsent(c4, DeathsDouble);
    }
    if c {
      RewriteClears(c2, CasesSingle, DailyCasesSingle);
      RewriteKeepsAbsent(c3, c, CasesDouble, DailyCasesDouble, CasesSingle);
      GroupbyKeepsAbsent(c4, CasesSingle);
      RewriteClears(c3, CasesDouble, DailyCasesDouble);
      GroupbyKeepsAbsent(c4, CasesDouble);
    }
  }

  /** A rule whose pattern is absent, or whose guard fails, changes nothing. */
  lemma RewriteStays(code: string, enabled: bool, p: string, q: string)
    requires |p| > 0 && (enabled ==> !Contains(code, p))
    ensures Rewrite(code, enabled, p, q) == code
  {
  }

  /** Repairing repaired code changes nothing. */
  lemma FixedIdempotent(code: string, columns: seq<string>)
    ensures Fixed(Fixed(code, columns), columns) == Fixed(code, columns)
  {
    var x := Fixed(code, columns);
    var d, c := DeathsFix(columns), CasesFix(columns);
    FixedClears(code, columns);
    RewriteStays(x, d, DeathsSingle, DailyDeathsSingle);
    RewriteStays(x, d, DeathsDouble, DailyDeathsDouble);
    RewriteStays(x, c, CasesSingle, DailyCasesSingle);
    RewriteStays(x, c, CasesDouble, DailyCasesDouble);
    var c1 := Rewrite(code, d, DeathsSingle, DailyDeathsSingle);
    var c2 := Rewrite(c1, d, DeathsDouble, DailyDeathsDouble);
    var c3 := Rewrite(c2, c, CasesSingle, DailyCasesSingle);
    var c4 := Rewrite(c3, c, CasesDouble, DailyCasesDouble);
    GroupbyRuleIdempotent(c4);
  }

  /** Columns with neither guard satisfied are left to the grouped-sum rule alone. */
  lemma FixedWithoutGuards(code: string, columns: seq<string>)
    requires !DeathsFix(columns) && !CasesFix(columns)
    ensures Fixed(code, columns) == GroupbyRule(code)
    ensures !Contains(code, GroupbyCall) ==> Fixed(code, columns) == code
  {
    GroupbyRuleSpec(code);
  }

  /** The candidate y-columns of the fallback chart, most preferred first. */
  const FallbackCandidates := ["Daily_Deaths", "Daily_Cases", "Deaths", "Cases"]

  const NoFallbackError := "No valid y-axis column found for fallback chart."

  /** The first of `candidates` that is a column. */
  function FirstPresent(candidates: seq<string>, columns: seq<string>): (r: Option<string>)
    ensures r.Some? ==> r.value in columns
  {
    if candidates == [] then None
    else if candidates[0] in columns then Some(candidates[0])
    else FirstPresent(candidates[1..], columns)
  }

  function FallbackColumn(columns: seq<string>): Option<string> {
    FirstPresent(FallbackCandidates, columns)
  }

  lemma {:induction false} FirstPresentSpec(candidates: seq<string>, columns: seq<string>)
    ensures FirstPresent(candidates, columns).None? <==> forall k :: 0 <= k < |candidates| ==> candidates[k] !in columns
    ensures FirstPresent(candidates, columns).Some? ==>
      exists i :: (0 <= i < |candidates| && candidates[i] == FirstPresent(candidates, columns).value
                   && forall j :: 0 <= j < i ==> candidates[j] !in columns)
  {
    if candidates != [] && candidates[0] !in columns {
      var tail := candidates[1..];
      FirstPresentSpec(tail, columns);
      if FirstPresent(tail, columns).Some? {
        var i :| 0 <= i < |tail| && tail[i] == FirstPresent(tail, columns).value
          && forall j :: 0 <= j < i ==> tail[j] !in columns;
        assert candidates[i + 1] == tail[i];
        assert forall j :: 1 <= j < i + 1 ==> candidates[j] == tail[j - 1];
      }
      assert forall k :: 1 <= k < |candidates| ==> candidates[k] == tail[k - 1];
    }
  }

  /** The fallback column is the most preferred candidate present, and there is none exactly
      when no candidate is a column. */
  lemma FallbackPriority(columns: seq<string>)
    ensures FallbackColumn(columns).None? <==>
      "Daily_Deaths" !in columns && "Daily_Cases" !in columns && "Deaths" !in columns && "Cases" !in columns
    ensures FallbackColumn(columns).Some? ==> FallbackColumn(columns).value in columns
    ensures FallbackColumn(columns).Some? ==>
      exists i :: (0 <= i < 4 && FallbackCandidates[i] == FallbackColumn(columns).value
                   && forall j :: 0 <= j < i ==> FallbackCandidates[j] !in columns)
  {
    FirstPresentSpec(FallbackCandidates, columns);
    assert FallbackCandidates[0] == "Daily_Deaths" && FallbackCandidates[1] == "Daily_Cases";
    assert FallbackCandidates[2] == "Deaths" && FallbackCandidates[3] == "Cases";
  }

  lemma FirstPresentStep(candidates: seq<string>, columns: seq<string>)
    requires candidates != []
    ensures FirstPresent(candidates, columns) ==
      if candidates[0] in columns then Some(candidates[0]) else FirstPresent(candidates[1..], columns)
  {
  }

  /** The `if`/`elif` chain assigning `fallback_y`. */
  method ChooseFallbackColumn(columns: seq<string>) returns (y: Option<string>)
    ensures y == FallbackColumn(columns)
  {
    y := None;
    if "Daily_Deaths" in columns {
      y := Some("Daily_Deaths");
    } else if "Daily_Cases" in columns {
      y := Some("Daily_Cases");
    } else if "Deaths" in columns {
      y := Some("Deaths");
    } else if "Cases" in columns {
      y := Some("Cases");
    }
    var c := FallbackCandidates;
    assert c[1..] == ["Daily_Cases", "Deaths", "Cases"] && c[1..][1..] == ["Deaths", "Cases"];
    assert c[1..][1..][1..] == ["Cases"] && c[1..][1..][1..][1..] == [];
    FirstPresentStep(c, columns);
    FirstPresentStep(c[1..], columns);
    FirstPresentStep(c[1..][1..], columns);
    FirstPresentStep(c[1..][1..][1..], columns);
  }

  /** The repairs as the handler applies them, one guarded replacement after another. */
  method RepairCode(code: string, columns: seq<string>) returns (current: string)
    ensures current == Fixed(code, columns)
  {
    current := code;
    if Contains(current, DeathsSingle) && "Deaths" !in columns && "Daily_Deaths" in columns {
      current := ReplaceAll(current, DeathsSingle, DailyDeathsSingle);
    }
    if Contains(current, DeathsDouble) && "Deaths" !in columns && "Daily_Deaths" in columns {
      current := ReplaceAll(current, DeathsDouble, DailyDeathsDouble);
    }
    if Contains(current, CasesSingle) && "Cases" !in columns && "Daily_Cases" in columns {
      current := ReplaceAll(current, CasesSingle, DailyCasesSingle);
    }
    if Contains(current, CasesDouble) && "Cases" !in columns && "Daily_Cases" in columns {
      current := ReplaceAll(current, CasesDouble, DailyCasesDouble);
    }
    if Contains(current, GroupbyCall) && !Contains(current, ResetIndex) {
      current := ReplaceAll(ReplaceAll(current, GroupbyMethod, GroupbyMethod), GroupedSum, GroupedSumReset);
    }
  }

  /** The result when the code binds no figure: a trend of the per-date sums of the preferred
      column; the lookup error `'Date'` without a date column; or the fixed error when no
      candidate column exists. */
  function Fallback(df: Table): (r: PlotResult)
    ensures OneOf(r)
    ensures FallbackColumn(df.columns).None? ==> r == PlotResult(None, Some(NoFallbackError))
    ensures FallbackColumn(df.columns).Some? && "Date" !in df.columns ==> r == PlotResult(None, Some("'Date'"))
    ensures r.plot.Some? <==> FallbackColumn(df.columns).Some? && "Date" in df.columns
    ensures r.plot.Some? ==> var y := FallbackColumn(df.columns).value;
      r.plot.value.Trend? && r.plot.value.y == y && r.plot.value.title == "Trend of " + y + " Over Time"
      && r.plot.value.points.Keys == KeysOf(df.rows, "Date")
      && forall d :: d in r.plot.value.points ==> r.plot.value.points[d] == SumWhere(df.rows, "Date", d, y)
  {
    match FallbackColumn(df.columns)
    case None => PlotResult(None, Some(NoFallbackError))
    case Some(y) =>
      if "Date" in df.columns then
        FirstPresentSpec(FallbackCandidates, df.columns);
        GroupSumSpec(df.rows, "Date", y);
        PlotResult(Some(Trend(GroupSum(df.rows, "Date", y), y, "Trend of " + y + " Over Time")), None)
      else
        PlotResult(None, Some("'Date'"))
  }

  /** `run_code_and_return_plot`: repair the code, execute it on a copy of the table, then
      turn the bound figure into the plot, fall back to the trend chart when none is bound,
      and report any exception's message as the error. */
  method RunCodeAndReturnPlot(code: string, df: Table, exec: (string, DataFrame) -> ExecOutcome)
    returns (result: PlotResult)
    ensures OneOf(result)
    ensures var outcome := exec(Fixed(code, df.columns), Raw(df));
      && (outcome.Raised? ==> result == PlotResult(None, Some(outcome.message)))
      && (outcome.Finished? && outcome.fig.Some? ==> result == FromFigure(outcome.fig.value))
      && (outcome == Finished(None) ==> result == Fallback(df))
  {
    var columns := df.columns;
    var current := RepairCode(code, columns);
    var outcome := exec(current, Raw(df));
    match outcome {
      case Raised(message) =>
        result := PlotResult(None, Some(message));
      case Finished(Some(fig)) =>
        result := FromFigure(fig);
      case Finished(None) =>
        var y := ChooseFallbackColumn(columns);
        if y.Some? {
          if "Date" in columns {
            var sums := GroupSum(df.rows, "Date", y.value);
            result := PlotResult(Some(Trend(sums, y.value, "Trend of " + y.value + " Over Time")), None);
          } else {
            result := PlotResult(None, Some("'Date'"));
          }
        } else {
          result := PlotResult(None, Some(NoFallbackError));
        }
    }
  }

  /** `/query`: validate, ask the model, extract and run the code, and answer with the code,
      the plot and the error. */
  method HandleQuery(req: Request, datasets: map<string, Table>, llm: string -> Reply,
                     exec: (string, DataFrame) -> ExecOutcome)
    returns (resp: QueryResponse)
    ensures Validate(req, datasets).Rejected? ==> resp == QueryRejected(400, Validate(req, datasets).message)
    ensures Validate(req, datasets).Accepted? ==>
      var checked := Validate(req, datasets);
      var reply := llm(VizPrompt(checked.query, checked.key));
      && (reply.ApiError? ==> resp == QueryRejected(500, ApiErrorPrefix + reply.body))
      && (reply.Malformed? ==> resp == QueryRejected(500, ServerError(reply.exception, reply.detail)))
      && (reply.Answer? ==>
            && resp.Visualization?
            && resp.code == ExtractCode(reply.content)
            && resp.visualization.Some? != resp.error.Some?
            && var outcome := exec(Fixed(resp.code, checked.table.columns), Raw(checked.table));
               && (outcome.Raised? ==> PlotResult(resp.visualization, resp.error) == PlotResult(None, Some(outcome.message)))
               && (outcome.Finished? && outcome.fig.Some? ==>
                     PlotResult(resp.visualization, resp.error) == FromFigure(outcome.fig.value))
               && (outcome == Finished(None) ==> PlotResult(resp.visualization, resp.error) == Fallback(checked.table)))
  {
    var checked := Validate(req, datasets);
    if checked.Rejected? {
      resp := QueryRejected(400, checked.message);
      return;
    }
    var prompt := VizPrompt(checked.query, checked.key);
    var reply := llm(prompt);
    match reply {
      case ApiError(body) =>
        resp := QueryRejected(500, ApiErrorPrefix + body);
      case Malformed(exception, detail) =>
        resp := QueryRejected(500, ServerError(exception, detail));
      case Answer(content) =>
        var code := ExtractCode(content);
        var result := RunCodeAndReturnPlot(code, checked.table, exec);
        resp := Visualization(code, result.plot, result.error);
    }
  }

  /** The summary names the generated code may bind, each to any value. */
  datatype Bindings = Bindings(total: Option<Value>, maxDaily: Option<Value>, peakDate: Option<Value>)

  /** Running the summary code: it raises, or finishes with some of the names bound. */
  datatype SummaryOutcome = SummaryRaised(message: string) | SummaryDone(bound: Bindings)

  datatype SummaryResponse = SummaryRejected(status: int, message: string) | Summary(summary: string)

  const NoDataText := "Data not available"
  const ExecErrorPrefix := "Code execution error: "

  /** The labels in output order, paired with what each name is bound to. */
  function Entries(b: Bindings): seq<(string, Option<Value>)> {
    [("Total", b.total), ("Max Daily", b.maxDaily), ("Peak Date", b.peakDate)]
  }

  /** How an f-string shows the hook's result: its own text for a text, Python's rendering of
      a list or float (a parameter here) otherwise. */
  function Display(v: Value, show: Safe -> string): string {
    var safe := SafeConvert(v);
    if safe.SafeText? then safe.text else show(safe)
  }

  /** One `label: value` line per bound entry, in the order of the entries. */
  function LabelledLines(entries: seq<(string, Option<Value>)>, show: Safe -> string): seq<string> {
    if entries == [] then []
    else
      var entry := entries[0];
      (if entry.1.Some? then [entry.0 + ": " + Display(entry.1.value, show)] else [])
      + LabelledLines(entries[1..], show)
  }

  /** The bound entries' labels, in order. */
  function BoundLabels(entries: seq<(string, Option<Value>)>): seq<string> {
    if entries == [] then []
    else (if entries[0].1.Some? then [entries[0].0] else []) + BoundLabels(entries[1..])
  }

  /** One line per bound name, each starting with that name's label, in the fixed order. */
  lemma {:induction false} LabelledLinesShape(entries: seq<(string, Option<Value>)>, show: Safe -> string)
    ensures |LabelledLines(entries, show)| == |BoundLabels(entries)|
    ensures forall k :: 0 <= k < |BoundLabels(entries)| ==>
      StartsWith(LabelledLines(entries, show)[k], BoundLabels(entries)[k] + ": ")
  {
    if entries != [] {
      LabelledLinesShape(entries[1..], show);
      var entry := entries[0];
      if entry.1.Some? {
        var line := entry.0 + ": " + Display(entry.1.value, show);
        assert line[..|entry.0 + ": "|] == entry.0 + ": ";
      }
    }
  }

  lemma LabelledLinesStep(entries: seq<(string, Option<Value>)>, show: Safe -> string)
    requires entries != []
    ensures LabelledLines(entries, show) ==
      (if entries[0].1.Some? then [entries[0].0 + ": " + Display(entries[0].1.value, show)] else [])
      + LabelledLines(entries[1..], show)
    ensures BoundLabels(entries) ==
      (if entries[0].1.Some? then [entries[0].0] else []) + BoundLabels(entries[1..])
  {
  }

  /** Both list functions, unrolled over the three entries. */
  lemma EntriesUnfold(b: Bindings, show: Safe -> string)
    ensures var e := Entries(b);
      && LabelledLines(e, show) ==
           (if b.total.Some? then ["Total: " + Display(b.total.value, show)] else [])
           + (if b.maxDaily.Some? then ["Max Daily: " + Display(b.maxDaily.value, show)] else [])
           + (if b.peakDate.Some? then ["Peak Date: " + Display(b.peakDate.value, show)] else [])
      && BoundLabels(e) ==
           (if b.total.Some? then ["Total"] else []) + (if b.maxDaily.Some? then ["Max Daily"] else [])
           + (if b.peakDate.Some? then ["Peak Date"] else [])
  {
    var e := Entries(b);
    assert e[1..] == [e[1], e[2]] && e[1..][1..] == [e[2]] && e[1..][1..][1..] == [];
    LabelledLinesStep(e, show);
    LabelledLinesStep(e[1..], show);
    LabelledLinesStep(e[1..][1..], show);
    var l1 := if b.total.Some? then ["Total: " + Display(b.total.value, show)] else [];
    var l2 := if b.maxDaily.Some? then ["Max Daily: " + Display(b.maxDaily.value, show)] else [];
    var l3 := if b.peakDate.Some? then ["Peak Date: " + Display(b.peakDate.value, show)] else [];
    assert "Total" + ": " == "Total: " && "Max Daily" + ": " == "Max Daily: ";
    assert "Peak Date" + ": " == "Peak Date: ";
    assert LabelledLines(e[1..][1..], show) == l3 + [];
    assert LabelledLines(e, show) == l1 + (l2 + (l3 + []));
  }

  /** The labels of the bound names are exactly Total, Max Daily, Peak Date, in that order,
      skipping each unbound one. */
  lemma BoundLabelsOrder(b: Bindings)
    ensures BoundLabels(Entries(b)) ==
      (if b.total.Some? then ["Total"] else []) + (if b.maxDaily.Some? then ["Max Daily"] else [])
      + (if b.peakDate.Some? then ["Peak Date"] else [])
  {
    EntriesUnfold(b, (_: Safe) => "");
  }

  /** The response lines built by repeated `append`, one per bound name. */
  method BuildSummaryLines(b: Bindings, show: Safe -> string) returns (lines: seq<string>)
    ensures lines == LabelledLines(Entries(b), show)
  {
    lines := [];
    if b.total.Some? {
      lines := lines + ["Total: " + Display(b.total.value, show)];
    }
    if b.maxDaily.Some? {
      lines := lines + ["Max Daily: " + Display(b.maxDaily.value, show)];
    }
    if b.peakDate.Some? {
      lines := lines + ["Peak Date: " + Display(b.peakDate.value, show)];
    }
    EntriesUnfold(b, show);
  }

  /** The summary text: the lines joined by line breaks, or the sentinel, stripped. */
  function SummaryText(b: Bindings, show: Safe -> string): string {
    var lines := LabelledLines(Entries(b), show);
    Strip(if lines == [] then NoDataText else Join(lines, "\n"))
  }

  lemma SentinelStrips()
    ensures Strip(NoDataText) == NoDataText
  {
    assert !IsSpace(NoDataText[0]) && !IsSpace(NoDataText[|NoDataText| - 1]);
  }

  /** Lines whose first opens with a word (no space at its ends) strip to text opening with it. */
  lemma JoinedOpensWith(lines: seq<string>, head: string)
    requires |lines| > 0 && StartsWith(lines[0], head)
    requires |head| > 0 && !IsSpace(head[0]) && !IsSpace(head[|head| - 1])
    ensures StartsWith(Strip(Join(lines, "\n")), head)
  {
    var rest := JoinFirst(lines, "\n");
    var tail := lines[0][|head|..];
    assert lines[0] == head + tail;
    assert Join(lines, "\n") == head + (tail + rest);
    StripKeepsPrefix(head, tail + rest);
  }

  /** With a name bound, the summary opens with the label of the first bound name and a colon. */
  lemma SummaryOpensWithLabel(b: Bindings, show: Safe -> string)
    requires BoundLabels(Entries(b)) != []
    ensures StartsWith(SummaryText(b, show), BoundLabels(Entries(b))[0] + ":")
  {
    var e := Entries(b);
    var lines := LabelledLines(e, show);
    LabelledLinesShape(e, show);
    BoundLabelsOrder(b);
    var first := BoundLabels(e)[0];
    assert first == "Total" || first == "Max Daily" || first == "Peak Date";
    var head := first + ":";
    assert head[0] == first[0] && head[|head| - 1] == ':';
    assert first + ": " == head + " ";
    StartsWithShorter(lines[0], head, " ");
    JoinedOpensWith(lines, head);
  }

  /** The summary is the sentinel exactly when no name is bound; otherwise it opens with the
      label of the first bound name. */
  lemma SummaryTextSpec(b: Bindings, show: Safe -> string)
    ensures SummaryText(b, show) == NoDataText <==> b.total.None? && b.maxDaily.None? && b.peakDate.None?
    ensures b.total.Some? ==> StartsWith(SummaryText(b, show), "Total:")
    ensures b.total.None? && b.maxDaily.Some? ==> StartsWith(SummaryText(b, show), "Max Daily:")
    ensures b.total.None? && b.maxDaily.None? && b.peakDate.Some? ==> StartsWith(SummaryText(b, show), "Peak Date:")
  {
    var e := Entries(b);
    LabelledLinesShape(e, show);
    BoundLabelsOrder(b);
    if BoundLabels(e) == [] {
      SentinelStrips();
    } else {
      SummaryOpensWithLabel(b, show);
      var text := SummaryText(b, show);
      var head := BoundLabels(e)[0] + ":";
      assert head[0] in "TMP";
      assert text[0] == text[..|head|][0] == head[0];
      assert text[0] != NoDataText[0];
    }
  }

  /** `/summary`: validate, ask the model, extract and run the code, and build the summary
      from the names it bound. */
  method HandleSummary(req: Request, datasets: map<string, Table>, llm: string -> Reply,
                       exec: (string, DataFrame) -> SummaryOutcome, show: Safe -> string)
    returns (resp: SummaryResponse)
    ensures Validate(req, datasets).Rejected? ==> resp == SummaryRejected(400, Validate(req, datasets).message)
    ensures Validate(req, datasets).Accepted? ==>
      var checked := Validate(req, datasets);
      var reply := llm(SummaryPrompt(checked.query, checked.table.columns));
      && (reply.ApiError? ==> resp == SummaryRejected(500, ApiErrorPrefix + reply.body))
      && (reply.Malformed? ==> resp == SummaryRejected(500, ServerError(reply.exception, reply.detail)))
      && (reply.Answer? ==>
            var outcome := exec(ExtractCode(reply.content), Raw(checked.table));
            && (outcome.SummaryRaised? ==> resp == SummaryRejected(500, ExecErrorPrefix + outcome.message))
            && (outcome.SummaryDone? ==> resp == Summary(SummaryText(outcome.bound, show))))
  {
    var checked := Validate(req, datasets);
    if checked.Rejected? {
      resp := SummaryRejected(400, checked.message);
      return;
    }
    var prompt := SummaryPrompt(checked.query, checked.table.columns);
    var reply := llm(prompt);
    match reply {
      case ApiError(body) =>
        resp := SummaryRejected(500, ApiErrorPrefix + body);
      case Malformed(exception, detail) =>
        resp := SummaryRejected(500, ServerError(exception, detail));
      case Answer(content) =>
        var code := ExtractCode(content);
        var outcome := exec(code, Raw(checked.table));
        match outcome {
          case SummaryRaised(message) =>
            resp := SummaryRejected(500, ExecErrorPrefix + message);
          case SummaryDone(bound) =>
            var lines := BuildSummaryLines(bound, show);
            var text := if lines == [] then NoDataText else Join(lines, "\n");
            resp := Summary(Strip(text));
        }
    }
  }
}
