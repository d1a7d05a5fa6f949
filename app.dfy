/** The second back-end's `/query` handler: validation, the prompt with the column list, the
    Deaths-only code repairs, the whole-code override when the code has no `groupby`, and no
    fallback chart. */
module App {
  import opened TextOps
  import opened Frames
  import opened Repairs
  import opened Extraction
  import opened Service

  // The prompt, split where the quoted query and the column list are spliced in.
  const PromptHead := "\nYou are a Python data visualization expert using Plotly.\n\n\U{1F4DD} A user asked: "
  const PromptAfterQuery := "\n\nYou are working with a Pandas DataFrame named `df`.\n\n\U{26A0}\U{FE0F} You MUST only use the following column names exactly as provided:\n"
  const PromptTail := "\n\nDo NOT assume or rename any columns (e.g., don\U{2019}t convert \'Country/Region\' to \'Country_Region\').\nIf you use a wrong column name, the code will fail.\n\nUse these names exactly as-is in any filtering, grouping, or plotting.\n\nInstructions:\n- Always convert \'Date\' using df[\'Date\'] = pd.to_datetime(df[\'Date\'])\n- Prefer filtering locations in this order: \'Admin2\' (county), \'Province_State\' (state), \'Country/Region\' (country)\n- If a specific date is mentioned, filter using: df[\'Date\'] == pd.to_datetime(\'YYYY-MM-DD\')\n- After filtering, group by \'Date\' using: df.groupby(\'Date\')[\'Cases\' or \'Deaths\'].sum().reset_index()\n- Add a column \'Label\' or \'Region\' if comparing multiple locations\n\n\U{1F4CA} Chart Type Rules:\n- If the query filters to a **single day**, use `px.bar(...)` for a single bar\n- If the query includes **multiple dates**, use `px.line(...)` to show trends\n\n\U{1F5BC}\U{FE0F} Visualization:\n- Always assign the chart to a variable called `fig`\n- Set a clear title using fig.update_layout(title=...)\n- Do not use `print()` or markdown \U{2014} only return valid Python code inside triple backticks\n- DO NOT use `return fig`\n- Just assign the chart to a variable named `fig`\n- My environment will handle retrieving and rendering `fig`\n"

  /** The `/query` prompt: the quoted query, then the column list. */
  function QueryPrompt(query: string, columns: seq<string>): string {
    PromptHead + Quoted(query) + PromptAfterQuery + ColumnsList(columns) + PromptTail
  }

  /** The prompt quotes the user's query and lists the table's columns in order. */
  lemma QueryPromptMentions(query: string, columns: seq<string>)
    ensures Contains(QueryPrompt(query, columns), Quoted(query))
    ensures Contains(QueryPrompt(query, columns), ColumnsList(columns))
  {
    SplicedShape(PromptHead, query, PromptAfterQuery, ColumnsList(columns), PromptTail);
  }

  /** The Deaths rules fire whenever `Deaths` is not a column, whether or not `Daily_Deaths` is. */
  predicate DeathsMissing(columns: seq<string>) {
    "Deaths" !in columns
  }

  /** The code after the two Deaths rules and the grouped-sum rule. */
  function FixedCode(code: string, columns: seq<string>): string {
    var c1 := Rewrite(code, DeathsMissing(columns), DeathsSingle, DailyDeathsSingle);
    var c2 := Rewrite(c1, DeathsMissing(columns), DeathsDouble, DailyDeathsDouble);
    GroupbyRule(c2)
  }

  /** Without a `Deaths` column, no `y='Deaths'` or `y="Deaths"` survives the repairs; with
      one, only the grouped-sum rule applies. */
  lemma FixedCodeClears(code: string, columns: seq<string>)
    ensures DeathsMissing(columns) ==>
      !Contains(FixedCode(code, columns), DeathsSingle) && !Contains(FixedCode(code, columns), DeathsDouble)
    ensures !DeathsMissing(columns) ==> FixedCode(code, columns) == GroupbyRule(code)
  {
    ColumnPatternsSeparated();
    var d := DeathsMissing(columns);
    var c1 := Rewrite(code, d, DeathsSingle, DailyDeathsSingle);
    var c2 := Rewrite(c1, d, DeathsDouble, DailyDeathsDouble);
    if d {
      RewriteClears(code, DeathsSingle, DailyDeathsSingle);
      RewriteKeepsAbsent(c1, d, DeathsDouble, DailyDeathsDouble, DeathsSingle);
      GroupbyKeepsAbsent(c2, DeathsSingle);
      RewriteClears(c1, DeathsDouble, DailyDeathsDouble);
      GroupbyKeepsAbsent(c2, DeathsDouble);
    }
  }

  /** Repairing repaired code changes nothing. */
  lemma FixedCodeIdempotent(code: string, columns: seq<string>)
    ensures FixedCode(FixedCode(code, columns), columns) == FixedCode(code, columns)
  {
    var x := FixedCode(code, columns);
    var d := DeathsMissing(columns);
    FixedCodeClears(code, columns);
    var c1 := Rewrite(code, d, DeathsSingle, DailyDeathsSingle);
    var c2 := Rewrite(c1, d, DeathsDouble, DailyDeathsDouble);
    assert Rewrite(x, d, DeathsSingle, DailyDeathsSingle) == x;
    assert Rewrite(x, d, DeathsDouble, DailyDeathsDouble) == x;
    GroupbyRuleIdempotent(c2);
  }

  const GroupbyWord := "groupby"
  // The override line `fig = px.line(df, x='Date', y='Daily_Deaths', title='Total Daily Deaths
  // Over Time')`, cut where its proofs need it: around its `y=` argument, and after the last `y`.
  const OverrideHead := "fig = px.line(df, x='Date', "
  const OverrideTitleStart := ", title='Total Dail"
  const OverrideTitleEnd := "y Deaths Over Time')"
  const OverrideCode := OverrideHead + DailyDeathsSingle + OverrideTitleStart + OverrideTitleEnd
  const NoFigureError := "No figure named 'fig' was generated."

  /** The override replaces repaired code that never mentions `groupby`, on tables with a
      `Daily_Deaths` column. */
  predicate TakesOverride(code: string, columns: seq<string>) {
    !Contains(FixedCode(code, columns), GroupbyWord) && "Daily_Deaths" in columns
  }

  /** The code that is finally executed. */
  function ExecutedCode(code: string, columns: seq<string>): string {
    if TakesOverride(code, columns) then OverrideCode else FixedCode(code, columns)
  }

  /** The override line names `Daily_Deaths`, never `Deaths`, as its `y` column. */
  lemma OverrideLacksDeaths()
    ensures !Contains(OverrideCode, DeathsSingle) && !Contains(OverrideCode, DeathsDouble)
  {
    OverrideLacksSingle();
    OverrideLacksDouble();
  }

  /** A text separated from `q`, whose first character is missing from `a` and `t1` and whose
      second is missing from `t2`, does not occur in `a + q + t1 + t2`. */
  lemma NoneAroundReplacement(a: string, q: string, t1: string, t2: string, r: string)
    requires |r| > 1 && Separated(r, q)
    requires r[0] !in a && r[0] !in t1 && r[1] !in t2
    ensures !Contains(a + q + t1 + t2, r)
  {
    MissingCharNotContained(t2, r, 1);
    NoneAfterPrefix(t1, t2, r);
    NoneAfterReplacement(q, t1 + t2, r);
    NoneAfterPrefix(a, q + (t1 + t2), r);
    assert a + q + t1 + t2 == a + (q + (t1 + t2));
  }

  lemma OverrideLacksSingle()
    ensures !Contains(OverrideCode, DeathsSingle)
  {
    assert Separated(DeathsSingle, DailyDeathsSingle) by { ColumnPatternsSeparated(); }
    assert DeathsSingle[0] == 'y' && DeathsSingle[1] == '=';
    assert 'y' !in OverrideHead && 'y' !in OverrideTitleStart && '=' !in OverrideTitleEnd;
    NoneAroundReplacement(OverrideHead, DailyDeathsSingle, OverrideTitleStart, OverrideTitleEnd, DeathsSingle);
  }

  lemma OverrideLacksDouble()
    ensures !Contains(OverrideCode, DeathsDouble)
  {
    assert '"' !in OverrideHead && '"' !in DailyDeathsSingle;
    assert '"' !in OverrideTitleStart && '"' !in OverrideTitleEnd;
    assert DeathsDouble[2] == '"' && '"' !in OverrideCode;
    MissingCharNotContained(OverrideCode, DeathsDouble, 2);
  }

  /** The override line goes through the repairs unchanged and without gaining a `groupby`, so
      it is overridden by itself. */
  lemma OverrideIsStable(columns: seq<string>)
    requires "Daily_Deaths" in columns
    ensures FixedCode(OverrideCode, columns) == OverrideCode
    ensures TakesOverride(OverrideCode, columns)
    ensures ExecutedCode(OverrideCode, columns) == OverrideCode
  {
    OverrideLacksDeaths();
    var d := DeathsMissing(columns);
    assert Rewrite(OverrideCode, d, DeathsSingle, DailyDeathsSingle) == OverrideCode;
    assert Rewrite(OverrideCode, d, DeathsDouble, DailyDeathsDouble) == OverrideCode;
    assert 'b' !in OverrideCode;
    assert GroupbyCall[5] == 'b' && GroupbyWord[5] == 'b';
    MissingCharNotContained(OverrideCode, GroupbyCall, 5);
    GroupbyRuleSpec(OverrideCode);
    MissingCharNotContained(OverrideCode, GroupbyWord, 5);
  }

  /** Taking the whole repair-and-override step twice is taking it once. */
  lemma ExecutedCodeIdempotent(code: string, columns: seq<string>)
    ensures ExecutedCode(ExecutedCode(code, columns), columns) == ExecutedCode(code, columns)
  {
    if TakesOverride(code, columns) {
      OverrideIsStable(columns);
    } else {
      FixedCodeIdempotent(code, columns);
    }
  }

  /** The repairs as the handler applies them, one guarded replacement after another. */
  method RepairCode(code: string, columns: seq<string>) returns (current: string)
    ensures current == FixedCode(code, columns)
  {
    current := code;
    if Contains(current, DeathsSingle) && "Deaths" !in columns {
      current := ReplaceAll(current, DeathsSingle, DailyDeathsSingle);
    }
    if Contains(current, DeathsDouble) && "Deaths" !in columns {
      current := ReplaceAll(current, DeathsDouble, DailyDeathsDouble);
    }
    if Contains(current, GroupbyCall) && !Contains(current, ResetIndex) {
      current := ReplaceAll(ReplaceAll(current, GroupbyMethod, GroupbyMethod), GroupedSum, GroupedSumReset);
    }
  }

  /** What a run reports once the code has been executed: the exception's message, the
      missing-figure error, or the converted figure. */
  function FromOutcome(outcome: ExecOutcome): (r: PlotResult)
    ensures OneOf(r)
    ensures outcome.Raised? ==> r == PlotResult(None, Some(outcome.message))
    ensures outcome == Finished(None) ==> r == PlotResult(None, Some(NoFigureError))
    ensures r.plot.Some? <==> outcome.Finished? && outcome.fig.Some? && outcome.fig.value.Figure?
    ensures outcome.Finished? && outcome.fig.Some? ==> r == FromFigure(outcome.fig.value)
    ensures outcome.Finished? && outcome.fig.Some? && outcome.fig.value.Figure? ==>
      r == PlotResult(Some(outcome.fig.value.chart), None)
    ensures outcome.Finished? && outcome.fig.Some? && outcome.fig.value.NotFigure? ==>
      r == PlotResult(None, Some(outcome.fig.value.error))
  {
    match outcome
    case Raised(message) => PlotResult(None, Some(message))
    case Finished(None) => PlotResult(None, Some(NoFigureError))
    case Finished(Some(v)) => FromFigure(v)
  }

  /** `run_code_and_return_plot`: repair the code; when the override applies, replace the
      table by its per-date `Daily_Deaths` sums (failing with `'Date'` without a date column)
      and the code by the override line; execute; report. */
  method RunCodeAndReturnPlot(code: string, df: Table, exec: (string, DataFrame) -> ExecOutcome)
    returns (result: PlotResult)
    ensures OneOf(result)
    ensures !TakesOverride(code, df.columns) ==>
      result == FromOutcome(exec(FixedCode(code, df.columns), Raw(df)))
    ensures TakesOverride(code, df.columns) && "Date" !in df.columns ==>
      result == PlotResult(None, Some("'Date'"))
    ensures TakesOverride(code, df.columns) && "Date" in df.columns ==>
      result == FromOutcome(exec(OverrideCode, DateSums("Daily_Deaths", GroupSum(df.rows, "Date", "Daily_Deaths"))))
    ensures "Daily_Deaths" !in df.columns ==>
      result == FromOutcome(exec(FixedCode(code, df.columns), Raw(df)))
  {
    var columns := df.columns;
    var current := RepairCode(code, columns);
    var frame := Raw(df);
    if !Contains(current, GroupbyWord) && "Daily_Deaths" in columns {
      if "Date" !in columns {
        result := PlotResult(None, Some("'Date'"));
        return;
      }
      frame := DateSums("Daily_Deaths", GroupSum(df.rows, "Date", "Daily_Deaths"));
      current := OverrideCode;
    }
    var outcome := exec(current, frame);
    match outcome {
      case Raised(message) =>
        result := PlotResult(None, Some(message));
      case Finished(None) =>
        result := PlotResult(None, Some(NoFigureError));
      case Finished(Some(fig)) =>
        result := FromFigure(fig);
    }
  }

  /** `/query`: validate, ask the model, extract and run the code, and answer with the code,
      the plot and the error. */
  method HandleQuery(req: Request, datasets: map<string, Table>, llm: string -> Reply,
                     exec: (string, DataFrame) -> ExecOutcome)
    returns (resp: QueryResponse)
    ensures Validate(req, datasets).Rejected? ==> resp == QueryRejected(400, Validate(req, datasets).message)
    ensures Validate(req, datasets).Accepted? ==>
      var checked := Validate(req, datasets);
      var reply := llm(QueryPrompt(checked.query, checked.table.columns));
      && (reply.ApiError? ==> resp == QueryRejected(500, ApiErrorPrefix + reply.body))
      && (reply.Malformed? ==> resp == QueryRejected(500, ServerError(reply.exception, reply.detail)))
      && (reply.Answer? ==>
            && resp.Visualization?
            && resp.code == ExtractCode(reply.content)
            && resp.visualization.Some? != resp.error.Some?
            && var columns := checked.table.columns;
               && (!TakesOverride(resp.code, columns) ==>
                     PlotResult(resp.visualization, resp.error)
                       == FromOutcome(exec(FixedCode(resp.code, columns), Raw(checked.table))))
               && (TakesOverride(resp.code, columns) && "Date" !in columns ==>
                     PlotResult(resp.visualization, resp.error) == PlotResult(None, Some("'Date'")))
               && (TakesOverride(resp.code, columns) && "Date" in columns ==>
                     PlotResult(resp.visualization, resp.error)
                       == FromOutcome(exec(OverrideCode, DateSums("Daily_Deaths", GroupSum(checked.table.rows, "Date", "Daily_Deaths"))))))
  {
    var checked := Validate(req, datasets);
    if checked.Rejected? {
      resp := QueryRejected(400, checked.message);
      return;
    }
    var prompt := QueryPrompt(checked.query, checked.table.columns);
    var reply := llm(prompt);
    match reply {
      case ApiError(body) =>
        resp := QueryRejected(500, ApiErrorPrefix + body);
      case Malformed(exception, detail) =>
        resp := QueryRejected(500, ServerError(exception, detail));
      case Answer(content) =>
        var code := ExtractCode(content);
        var result := RunCodeAndReturnPlot(code, checked.table, exec);
        resp := Visualization(code, result.plot, result.error);
    }
  }
}
