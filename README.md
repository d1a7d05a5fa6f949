# CoVizzz back-end core in Dafny

This project models the code-generation pipeline of the two Flask back-ends of CoVizzz,
`src/backend/app1.py` and `src/backend/app.py`. Each route takes a natural-language question
about a COVID-19 dataset and asks a language model for pandas/Plotly code. It then extracts
the code from the free-text reply, repairs common mistakes in it, executes it on a copy of the
table, and answers with a chart (or, for `/summary`, a few labelled numbers).

The modules follow the pipeline:

- `TextOps` (`text.dfy`) holds the Python string operations the pipeline relies on: `str.strip`,
  `in`, `str.replace`, `str.startswith`, `splitlines` and `join`.
- `Extraction` (`extraction.dfy`) is `extract_code_from_llm_response`. It models the regular
  expression search for a fenced block exactly: leftmost match, the optional `python` tag
  preferred, a lazy group. When nothing matches, it models the narration filter.
- `Conversion` (`conversion.dfy`) is the `safe_convert` hook given to the JSON encoder.
- `Frames` (`frames.dfy`) is the part of a pandas table that is used: columns, rows, and the
  per-date sum `groupby('Date')[col].sum()`.
- `Repairs` (`repairs.dfy`) holds the guarded find-and-replace rules both back-ends apply to
  generated code: wrong `y=` column references, and `.reset_index()` after a grouped sum.
- `Service` (`service.dfy`) covers what both handlers share:
  - request validation;
  - the model call's possible replies;
  - the outcome of executing code;
  - the `{plot, error}` result.
- `App1` (`app1.dfy`) is the first back-end: four column rules, the fallback trend chart when
  the code binds no `fig`, and the `/summary` route.
- `App` (`app.dfy`) is the second back-end: two Deaths rules, and a whole-code override when
  the repaired code never mentions `groupby`.

The language model and `exec` are parameters of the handlers: functions from a prompt to a
reply, and from code and a table to an outcome. Every promise is proved for every reply and
for every run that finishes or raises an `Exception`. The pipeline's repair steps are written as methods that apply one guarded
replacement after another, as the source does. Each such method is proved equal to a
specification function, and the properties are proved about that function.

Behaviours worth noting:

- Narration filter: each line is filtered on its own by a list comprehension. Filtering does
  not stop at the first narration line.
- Fallback chart: only `app1.py` has one.
  - It needs a `Date` column. Without one, the lookup fails and the error is `'Date'`.
  - A reply without a fenced block whose every line is narration extracts to the empty
    string. That code binds nothing, so the fallback applies when a candidate column and a
    `Date` column exist.
  - Any other line of an unfenced reply is kept. A line of prose such as "Sure, the plot is
    below." is executed as it stands, and the run reports the resulting error.
- `app.py`: the Deaths rules do not check that `Daily_Deaths` exists. On a table with a
  `Daily_Deaths` column, the override replaces any repaired code that lacks the word
  `groupby`, whatever the query asked for.
- Error field: the `error` of a run is `str(e)`, which can be the empty string. The plot and
  error fields are still never both set and never both unset (`OneOf`).
- `/summary`: the generated code is executed without the repairs.

## Model

| member | source | states |
|---|---|---|
| TextOps.StripShape | src/backend/app1.py:51-52 | `strip()` removes exactly a run of whitespace from each end: the result is a slice of the input that is empty or starts and ends with a non-space character |
| TextOps.StripEmptyIff | src/backend/app1.py:52 | the stripped text is empty exactly when the input is whitespace only |
| TextOps.StripKeepsPrefix | src/backend/app1.py:365-368 | text that begins with a word without surrounding spaces still begins with that word after stripping, whatever follows |
| TextOps.FindFrom | src/backend/app1.py:49 | the search reports the first occurrence at or after the start position, and `None` only when there is none |
| TextOps.ContainsIff | src/backend/app1.py:76 | Python's `p in s` holds exactly when `p` occurs at some position of `s` |
| TextOps.ReplaceFirst | src/backend/app1.py:77 | `replace` copies the text before the first occurrence, puts the replacement in its place and goes on after it |
| TextOps.ReplaceAbsent | src/backend/app1.py:87 | replacing a pattern that does not occur leaves the text unchanged |
| TextOps.ReplaceSelf | src/backend/app1.py:87 | replacing `.groupby(` by itself leaves the text unchanged |
| TextOps.ReplaceIntroduces | src/backend/app1.py:77 | when the pattern occurs, its replacement occurs in the result |
| TextOps.ReplaceCreatesNone | src/backend/app1.py:76-83 | a replace-all leaves no occurrence of a text separated from the replacement (in particular none of the pattern itself) |
| TextOps.SplitLinesJoin | src/backend/app1.py:52-54 | the lines of a text without a trailing break rejoin to the text, and none of them holds a break |
| TextOps.JoinSplitRoundTrip | src/backend/app1.py:147 | a `', '`-joined list of comma-free names splits back into the same names in order |
| Extraction.FencedSpan | src/backend/app1.py:49 | a span it reports is a match of the fenced-block pattern: a fence, an optional `python` tag, any text, a fence |
| Extraction.FencedSpanIsSearch | src/backend/app1.py:49-51 | there is no span exactly when the pattern matches nowhere; otherwise the span is the match a backtracking search prefers (leftmost, tagged first, shortest group) |
| Extraction.ChosenSpan | src/backend/app1.py:49-51 | a match with no fence before it, no fence inside its group and (untagged) no tag after its fence is the one reported |
| Extraction.ExtractTaggedBlock | src/backend/app1.py:48-51 | prose around one ```` ```python ```` block extracts to the stripped block, whenever neither the prose nor the block holds a fence or ends in a backtick that runs on into the next fence (inline code in the prose is allowed) |
| Extraction.NoFenceBeforeFence | src/backend/app1.py:49 | no fence starts in a stretch followed by a fence when that stretch plus two backticks holds none |
| Extraction.ExtractUntaggedBlock | src/backend/app1.py:48-51 | prose around one untagged fenced block extracts to the stripped block under the same conditions, whenever the block does not open with `python` |
| Extraction.ExtractBlank | src/backend/app1.py:48-54 | an empty or whitespace-only reply extracts to the empty string |
| Extraction.FilterSelects | src/backend/app1.py:53 | the comprehension keeps exactly the lines not flagged, at increasing positions, each unchanged |
| Extraction.NarrationOnlyExtractsEmpty | src/backend/app1.py:52-54 | a reply without a fenced block whose every line is narration extracts to the empty string |
| Extraction.ProseLineKept | src/backend/app1.py:52-54 | a one-line reply without a fenced block that is not narration is executed as it stands, stripped |
| Extraction.UnfencedExtraction | src/backend/app1.py:52-54 | without a match, the result is the non-narration lines of the stripped reply, in order, joined by line breaks; those lines rejoin to the stripped reply |
| Conversion.Digits | src/backend/app1.py:64 | decimal digits of a natural number: non-empty, all digits, no leading zero (a `0` only as the whole text of zero) |
| Conversion.DigitsRoundTrip | src/backend/app1.py:64 | the digits of `n` read back as `n` |
| Conversion.DecimalRoundTrip | src/backend/app1.py:64 | `str` of any integer, sign included, reads back as the same integer |
| Conversion.ScalarItem | src/backend/app1.py:59 | `tolist()` turns a numpy integer or float into the Python number of the same value and keeps any other scalar; no numpy scalar is left |
| Conversion.ArrayItem | src/backend/app1.py:59 | an array's `tolist()` turns each nested array into a nested list of the same length, element by element, and leaves no numpy scalar at any depth |
| Conversion.SafeConvert | src/backend/app1.py:57-64 | arrays and series become Python lists of their elements in order, with numpy numbers as Python numbers of the same value and nested arrays as nested lists, and no numpy scalar left; timestamps their ISO text, numpy integers and floats a float of the same value, every other value its `str` text (for a Python `int`, canonical decimal text, with no leading zero and no `-0`, reading back as it) |
| Frames.GroupSumSpec | src/backend/app1.py:111 | the per-date sums hold one entry per date that occurs, and each entry is the column's sum over the rows of that date |
| Repairs.RewriteClears | src/backend/app1.py:76-83 | an enabled column rule leaves no occurrence of its pattern; when the pattern occurs, the replacement occurs, standing where the first occurrence was |
| Repairs.RewriteAtFirst | src/backend/app1.py:76-83 | the text before the first occurrence is kept, the replacement stands where that occurrence was, and the rest is rewritten by the same rule |
| Repairs.RewriteKeepsAbsent | src/backend/app1.py:76-83 | a column rule never creates a pattern separated from its replacement |
| Repairs.ColumnPatternsSeparated | src/backend/app1.py:76-83 | each column pattern is separated from its own replacement, from the replacements of the rules applied after it, and from `).sum().reset_index()`, so no rule recreates an earlier pattern |
| Repairs.GroupbyRuleSpec | src/backend/app1.py:86-87 | the grouped-sum rule fires exactly with `groupby(` present and `reset_index` absent, and then turns every `).sum()` into `).sum().reset_index()`; otherwise the code is unchanged |
| Repairs.GroupbyRuleResets | src/backend/app1.py:86-87 | after firing on code with `).sum()`, the code holds `reset_index` |
| Repairs.GroupbyRuleIdempotent | src/backend/app1.py:86-87 | applying the grouped-sum rule twice is applying it once |
| Repairs.GroupbyKeepsAbsent | src/backend/app1.py:86-87 | the grouped-sum rule creates no column pattern |
| Service.DatasetKey | src/backend/app1.py:135 | a missing `dataset` defaults to `us_deaths`; a string one is the key itself; a `null` one gives no key |
| Service.Validate | src/backend/app1.py:134-142 | an empty, missing or null query is rejected with "Query cannot be empty."; otherwise a key naming no dataset is rejected with "Invalid dataset key: " and the key; otherwise the query, key and table are accepted |
| Service.ColumnsListReadsBack | src/backend/app1.py:147 | the column list names the table's columns in order |
| Service.FromFigure | src/backend/app1.py:117-124 | a figure becomes the plot (its own chart) with no error; an object whose conversion fails gives that error and no plot |
| App1.VizPromptMentions | src/backend/app1.py:150-216 | the `/query` prompt contains the quoted query and the dataset key |
| App1.SummaryPromptMentions | src/backend/app1.py:279-318 | the `/summary` prompt contains the quoted query and the column list |
| App1.RepairCode | src/backend/app1.py:76-87 | the guarded replacements, applied in order, compute the repaired code |
| App1.FixedClears | src/backend/app1.py:76-87 | after the repairs, a column rule whose guard holds has left none of its pattern |
| App1.FixedIdempotent | src/backend/app1.py:76-87 | repairing repaired code changes nothing |
| App1.FixedWithoutGuards | src/backend/app1.py:76-87 | with no column guard satisfied only the grouped-sum rule acts, and code without `groupby(` is executed as extracted |
| App1.FirstPresent | src/backend/app1.py:100-108 | the chosen candidate is a column of the table |
| App1.FirstPresentSpec | src/backend/app1.py:100-108 | nothing is chosen exactly when no candidate is a column; otherwise the choice is the first candidate that is one |
| App1.FallbackPriority | src/backend/app1.py:100-108 | the fallback column is the first of Daily_Deaths, Daily_Cases, Deaths, Cases present, and there is none exactly when none of the four is a column |
| App1.ChooseFallbackColumn | src/backend/app1.py:100-108 | the `if`/`elif` chain picks the fallback column |
| App1.Fallback | src/backend/app1.py:96-114 | the fallback gives a plot exactly when a candidate column and a `Date` column exist: a trend of the column's per-date sums titled "Trend of … Over Time"; with a candidate but no `Date` column the error is `'Date'`; with no candidate it is the no-column error |
| App1.RunCodeAndReturnPlot | src/backend/app1.py:66-124 | exactly one of plot and error is set; an exception gives its message, a bound figure its conversion, no figure the fallback |
| App1.HandleQuery | src/backend/app1.py:129-261 | rejected requests answer 400 with the validation message; an API error or a malformed reply answers 500; otherwise the answer carries the extracted code and the run's plot or error for every outcome of executing the repaired code |
| App1.LabelledLinesShape | src/backend/app1.py:351-363 | one line per bound name, each starting with that name's label and `": "` |
| App1.EntriesUnfold | src/backend/app1.py:351-363 | the summary lines are the Total, Max Daily and Peak Date lines of the bound names, in that order |
| App1.BoundLabelsOrder | src/backend/app1.py:351-363 | the labels are Total, Max Daily, Peak Date in that order, each unbound one skipped |
| App1.BuildSummaryLines | src/backend/app1.py:351-363 | the appends build exactly the labelled lines |
| App1.SentinelStrips | src/backend/app1.py:365-368 | stripping leaves "Data not available" unchanged |
| App1.JoinedOpensWith | src/backend/app1.py:365-368 | the stripped, joined lines open with the first line's leading word |
| App1.SummaryOpensWithLabel | src/backend/app1.py:351-368 | with a name bound, the summary opens with the first bound label and a colon |
| App1.SummaryTextSpec | src/backend/app1.py:351-368 | the summary is "Data not available" exactly when no name is bound; otherwise it opens with "Total:", "Max Daily:" or "Peak Date:", the first bound in that order |
| App1.HandleSummary | src/backend/app1.py:264-374 | rejected requests answer 400; an API error or malformed reply answers 500; an exception in the code answers 500 with "Code execution error: " and its message; otherwise the summary text of the bound names |
| App.QueryPromptMentions | src/backend/app.py:120-156 | the prompt contains the quoted query and the column list |
| App.RepairCode | src/backend/app.py:76-83 | the guarded replacements, applied in order, compute the repaired code |
| App.FixedCodeClears | src/backend/app.py:76-83 | without a `Deaths` column no `y='Deaths'` or `y="Deaths"` survives; with one, only the grouped-sum rule acts |
| App.FixedCodeIdempotent | src/backend/app.py:76-83 | repairing repaired code changes nothing |
| App.OverrideLacksDeaths | src/backend/app.py:76-90 | the override line holds neither `y='Deaths'` nor `y="Deaths"` |
| App.OverrideIsStable | src/backend/app.py:86-90 | the override line survives the repairs unchanged and is overridden by itself |
| App.ExecutedCodeIdempotent | src/backend/app.py:76-90 | repair-then-override applied twice is applied once |
| App.FromOutcome | src/backend/app.py:92-101 | exactly one of plot and error is set; an exception gives its message, no `fig` the fixed "No figure named 'fig' was generated." error, a bound `fig` its conversion: a figure its chart, an object whose conversion fails that error |
| App.RunCodeAndReturnPlot | src/backend/app.py:66-101 | without the override the repaired code runs on the table; with it the override line runs on the per-date Daily_Deaths sums, or the error is `'Date'` when there is no date column; exactly one of plot and error is set |
| App.HandleQuery | src/backend/app.py:105-200 | rejected requests answer 400; an API error or malformed reply answers 500; otherwise the answer carries the extracted code and the run's result in each of the three override cases |

## Left out

- Executing generated code and building Plotly figures: `exec` and `fig.to_dict()` are
  parameters. A figure is an opaque value, apart from the fallback trend, which is modelled
  by its points, column and title.
- The JSON round trip of a figure (`json.dumps(..., default=safe_convert)` then `json.loads`)
  is out of scope. Only the hook itself is modelled.
- Conversion.SafeConvert: array and series dtypes are not modelled. Each element is converted
  by its own kind, so an object-dtype array, whose `tolist()` keeps numpy scalars as they
  are, and a `datetime64` array, whose `tolist()` gives integers, are not distinguished.
- Conversion.SafeConvert: `str` of a Python `int` is total here. CPython refuses to convert an
  integer of more than 4300 digits (a limit set by `sys.set_int_max_str_digits` or
  `PYTHONINTMAXSTRDIGITS`) and raises `ValueError`, which makes `/summary` answer 500.
- Exceptions outside `Exception`: generated code that calls `exit()` or `sys.exit()`, or is
  interrupted, raises `SystemExit` or `KeyboardInterrupt`. The handlers' `except Exception`
  clauses do not catch these, so no `{plot, error}` answer and no summary is sent. Runs
  are modelled as finishing or raising an `Exception`.
- HTTP, Flask and the model call:
  - The request to OpenRouter (URL, headers, model name, temperature, API key) is the `llm`
    parameter.
  - A reply whose JSON lacks `choices[0].message.content` is the `Malformed` reply.
  - Other exceptions reaching the catch-all handlers (network failures, a body that is not
    JSON) are not modelled.
- Request bodies:
  - Only absent, `null` and string fields are modelled.
  - A non-string query or dataset (a number or a list) is not.
  - A missing JSON body (`request.json` being `None`) is not.
- Logging (`print`, `traceback.print_exc`) is out of scope.
- Loading the CSV files (`load_datasets`, `DATASETS`) is out of scope: handlers receive the
  loaded tables as a map.
- `pd.to_datetime(..., errors='coerce')` is out of scope. Dates are opaque integer keys, and
  unparseable dates, which become `NaT` and are dropped by `groupby`, are not represented.
- Both handlers coerce the `Date` column of the shared table in place. `app1.py` coerces it
  again in the fallback, and `app.py` before its override. Tables are values here, so that
  aliasing is not captured.
- The row order of a grouped sum (pandas sorts by date) is out of scope. Per-date sums are a
  map.
- Numbers:
  - Cells are integers.
  - `float(np.int64)` is exact here, while Python rounds integers beyond 2^53.
  - How an f-string shows a list or a float is the `show` parameter.
- Text:
  - `str.strip` removes ASCII whitespace only; Unicode spaces are not modelled.
  - `splitlines` splits on `\n` only; `\r`, `\r\n` and the other Unicode line boundaries are
    not modelled.
- The `user_query` parameter of `app1.py`'s `run_code_and_return_plot` is never used, so it
  is dropped.
- The prompts are kept as text but checked only for what is spliced into them. The wording of
  the instructions is not checked.
- `src/backend/app2.py`, `src/backend/ice10.py` and the React front-end are not part of this
  model.
