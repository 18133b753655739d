# Talk with your File / dataset query bot: a Dafny model

The repository holds two small scripts around a large-language-model API.

* `talk_with_csv.py` is a Streamlit page. It takes an uploaded CSV file and a question, and asks a pandas dataframe agent to answer in one of four JSON shapes (`answer`, `bar`, `line`, `table`). It repairs the reply's quoting by turning every `'` into `"`, decodes it, and renders it. A decoded `error` key, a failed parse, a malformed chart or table, and any exception that escapes are each reported on the page.
* `dataset_querybot_using_openai_api.py` is a command-line loop. The first 100 rows of a dataset become a JSON string once. Each question typed in is then sent to a chat-completion API inside a fixed prompt, until the user types `bye` or `tata` in any case.

The model covers the logic between the library calls. Decoded JSON values are None, booleans, integers, strings, lists and dicts; floats are not modelled. The agent, the chat API, the JSON parser, the table constructor of pandas and the dataset-to-JSON conversion are function-typed parameters.

| file | module | what it holds |
|---|---|---|
| `wrappers.dfy` | `Wrappers` | `Option`, `Result` |
| `json.dfy` | `Json` | decoded JSON values; the Python exceptions involved; `d[key]`, `v[i]`, `for x in v`, hashability, `str()` of scalars |
| `reply.dfy` | `Reply` | `normalize_response`, `decode_response` |
| `render.dfy` | `Render` | `write_answer` as a pure function from a decoded dict to render calls plus an escaped exception; the positional transposition of the chart branches |
| `talk_with_csv.dfy` | `TalkWithCsv` | the prompt of `ask_agent`, `csv_tool`, the Submit handler, and the page as a class whose methods append render calls |
| `query_bot.dfy` | `QueryBot` | the prompt of `query_data`, the 100-row cap, and the input loop as a method proved against a recursive function |

How the model behaves, where a reader might expect otherwise:

* The table branch passes `data` and `columns` to `pd.DataFrame` unchanged. No numeric coercion happens.
* Rows longer than `columns` are cut short silently in the chart branches.
* Only `ValueError` and `IndexError` are caught in the chart branches, and only `ValueError` in the table branch. A missing key (`KeyError`), or a flat `data` list of numbers (`TypeError`), escapes `write_answer`. That flat list is exactly the shape the prompt's own bar and line examples show. The failure skips the remaining branches and is shown by the outer `st.error` handler (`Render.ChartFlatData`, `Render.DispatchOrder`).
* With an empty `columns` list, `data` is never read. The failure is then the `IndexError` of `columns[0]`, which the branch catches (`Render.ChartMissingData`).
* Only the file is checked before the agent is built. An empty query is sent as it is.

## Model

| member | source | states |
|---|---|---|
| `Reply.Normalize` | talk_with_csv.py:82 | the result has the input's length; every `'` becomes `"`, every other character is unchanged, and no `'` remains |
| `Reply.NormalizeIdempotent` | talk_with_csv.py:82 | normalizing twice gives the same as normalizing once |
| `Reply.NormalizeFixedPoint` | talk_with_csv.py:82 | a reply is unchanged by normalization exactly when it holds no `'` |
| `Reply.NormalizeAppend` | talk_with_csv.py:82 | normalization distributes over concatenation |
| `Reply.NormalizeDictReply` | talk_with_csv.py:82 | `{'k': 'v'}` becomes `{"k": "v"}` when k and v hold no quote (so `{'answer': 'hi'}` becomes `{"answer": "hi"}`) |
| `Reply.InvalidReply` | talk_with_csv.py:101 | the failure object is a dict whose `error` is the fixed invalid-format message |
| `Reply.Decode` | talk_with_csv.py:95-101 | a reply that parses decodes to the parsed value unchanged; one that does not decodes to exactly `{"error": "Invalid response format. Please ensure the model outputs valid JSON."}`; the decoder never raises |
| `Reply.DecodeFailureIsErrorOnly` | talk_with_csv.py:98-101 | after a failed parse the decoded dict has the `error` key with the fixed message and no other key |
| `Json.Lookup` | talk_with_csv.py:110-111 | `key in d` holds exactly when some member has that key; `d[key]` is the value of the last such member, the binding json.loads keeps |
| `Json.Subscript` | talk_with_csv.py:118-121 | `payload[key]` succeeds exactly on a dict holding the key and then returns the value `key in d` finds (the last binding); it raises KeyError on a dict without the key and TypeError on any other value |
| `Json.At` | talk_with_csv.py:121 | `x[i]` succeeds exactly on a list or string with more than i elements, giving element i or the i-th character as a string; it raises IndexError on a shorter list or string, KeyError(i) on a dict (JSON keys are strings) and TypeError on None, bool and int |
| `Json.KeysOrder` | talk_with_csv.py:121-122 | the keys of any prefix of a dict document come first, in the same order, among the keys of the whole: iteration follows first occurrence, and a repeated key keeps its first position |
| `Json.Iterate` | talk_with_csv.py:121-122 | `for x in v` raises TypeError exactly on None, bool and int; on a list it visits the items in order, on a string its one-character strings, on a dict its distinct keys in first-occurrence order |
| `Json.NatToString` | talk_with_csv.py:111 | the decimal digits of n, without leading zeros, denote n; so `{"error": 404}` shows "Error: 404" |
| `Render.ErrorLine` | talk_with_csv.py:111 | the error line for a string value is `"Error: "` followed by the value |
| `Render.ColumnOf` | talk_with_csv.py:121 | `[x[i] for x in rows]` succeeds exactly when every row can be indexed at i, and then holds `rows[k][i]` at position k; otherwise it raises the error of the first row that cannot be indexed |
| `Render.Columns` | talk_with_csv.py:120-123 | the comprehension yields one series per listed name, named in order from position i on; a missing `data` raises its KeyError or TypeError as soon as there is a column to fill |
| `Render.SetIndex` | talk_with_csv.py:124 | `set_index(key)` fails with KeyError exactly when no column has that name; otherwise the index is the first column named key and the remaining columns are the others in their order |
| `Render.ChartData` | talk_with_csv.py:120-124 | `columns` is read first, and its error escapes before anything else; a built frame is indexed by the series named `columns[0]` and keeps one series fewer than there are column names |
| `Render.Handle` | talk_with_csv.py:126-127 | the `try`/`except` of a branch (also lines 138-139 and 146-147): success renders the call; a caught exception renders the branch failure; any other exception is raised past the branch, unchanged |
| `Render.TableData` | talk_with_csv.py:144 | `data["data"]` is evaluated before `data["columns"]`, so without both keys the error is KeyError("data"); with both the table is what `pd.DataFrame` returns or raises |
| `Render.ColumnOfLists` | talk_with_csv.py:121 | over list rows, column j fails, with IndexError, exactly when some row has no position j; otherwise it is element j of every row in row order |
| `Render.ColumnsOfListsFail` | talk_with_csv.py:120-123 | over list rows and hashable names, the comprehension from a position i before the end of `columns` fails exactly when some row is shorter than `columns`, and then with IndexError |
| `Render.ColumnsOfListsValue` | talk_with_csv.py:120-123 | over list rows at least as long as `columns`, the comprehension from position i on is the tail of the reference transposition |
| `Render.ColumnsOfLists` | talk_with_csv.py:120-123 | over list rows and hashable names, the dict comprehension fails, with IndexError, exactly when some row is shorter than `columns`; otherwise it equals the reference transposition |
| `Render.ChartTransposition` | talk_with_csv.py:120-126 | a chart payload with list rows fails, with IndexError, exactly when `columns` is empty or some row is shorter than `columns` (longer rows are cut); otherwise the index is column 0 and series j holds element j of every row |
| `Render.ChartMissingColumns` | talk_with_csv.py:120-127 | a chart payload without `columns` raises KeyError, which the branch does not catch |
| `Render.ChartMissingData` | talk_with_csv.py:120-127 | without `data`, a non-empty `columns` raises KeyError; an empty `columns` raises the caught IndexError of `columns[0]` |
| `Render.ChartFlatData` | talk_with_csv.py:120-127 | a flat `data` list of numbers raises TypeError, which neither chart branch catches |
| `Render.AnswerStep` | talk_with_csv.py:114-115 | the answer branch never raises; when `answer` is present it writes exactly `st.write` of that value, otherwise nothing |
| `Render.ChartStep` | talk_with_csv.py:117-139 | without its key a chart branch renders nothing; with it, exactly the chart of kind `bar`/`line` over the index and series the frame has, or, when building the frame raises, the branch failure for a ValueError or IndexError and otherwise that exception raised unchanged |
| `Render.TableStep` | talk_with_csv.py:141-147 | without `table` the branch renders nothing; with it, exactly the table `pd.DataFrame` built, or, when reading the keys or building the table raises, the table failure for a ValueError and otherwise that exception raised unchanged |
| `Render.ExampleFrame` | talk_with_csv.py:120-124 | the example's frame is indexed by Category = A, B and holds the one series Count = [5, 3] |
| `Render.BarExample` | talk_with_csv.py:117-125 | `{"bar": {"columns": ["Category","Count"], "data": [["A",5],["B",3]]}}` draws the series Count = [5, 3] over the index A, B |
| `Render.BranchShape` | talk_with_csv.py:114-147 | each branch renders one call of its own kind when its key is present and nothing when it is absent; the answer branch never raises |
| `Render.BranchesShaped` | talk_with_csv.py:114-147 | the four branches together satisfy the shape RunOrder needs |
| `Render.RunOrder` | talk_with_csv.py:114-147 | running branches in sequence keeps their order; without an escape every present branch renders; an escape comes from some branch, after which no later branch runs |
| `Render.Dispatch` | talk_with_csv.py:103-147 | `write_answer` never calls `st.error` itself, and an exception escapes it only when there is no `error` key and is never a ValueError |
| `Render.DispatchOrder` | talk_with_csv.py:114-147 | with no `error` key, outputs come in the order answer, bar, line, table, at most one each; with no escape a branch renders exactly when its key is present, even after a caught failure elsewhere; an escaped exception comes from a present chart or table branch t, all earlier branches rendered, and nothing after t ran |
| `Render.RunContents` | talk_with_csv.py:114-147 | steps that all render show all their calls in order; when step t is the first to raise, the run shows the calls of the steps before it, ends with t's exception, and runs nothing after it |
| `Render.DispatchContents` | talk_with_csv.py:103-147 | with no `error` key, the page shows exactly the four branches' own calls in order (answer, bar, line, table) when none raises, and otherwise the calls of the branches before the first one to raise, with that branch's exception escaping |
| `Render.DispatchError` | talk_with_csv.py:110-112 | an `error` key yields exactly one output, the error line of its value, and returns, whatever other keys exist |
| `Render.DispatchNoKeys` | talk_with_csv.py:110-147 | a dict with none of the five keys renders nothing |
| `Render.TableFailureKeepsAnswer` | talk_with_csv.py:141-147 | a table rejected with ValueError renders a table failure after the sibling answer, and nothing escapes |
| `TalkWithCsv.CsvTool` | talk_with_csv.py:10-16 | no file gives exactly `ValueError("No file uploaded.")`; a file gives an agent over that file |
| `TalkWithCsv.PromptParts` | talk_with_csv.py:29-58 | the prompt is the fixed instruction text followed by the query verbatim, so it ends with the query |
| `TalkWithCsv.PromptInjective` | talk_with_csv.py:29-58 | two prompts are equal exactly when their queries are |
| `TalkWithCsv.AskAgent` | talk_with_csv.py:18-69 | the agent is run on the prompt; its reply comes back normalized and free of `'`, and its error comes back unchanged |
| `TalkWithCsv.Submit` | talk_with_csv.py:159-173 | with no file the page shows exactly the "No file uploaded." alert; when the agent run or model call fails, exactly the alert of that exception and nothing else; at most one alert is shown, and it comes after every render call |
| `TalkWithCsv.SubmitWithoutFile` | talk_with_csv.py:159-173 | with no file the page shows only the "No file uploaded." alert, whatever the agent would do |
| `TalkWithCsv.SubmitUnparsedReply` | talk_with_csv.py:159-173 | a reply that does not parse renders exactly one line, "Error: " and the invalid-format message, and no answer, chart or table |
| `TalkWithCsv.SubmitAnswerOnly` | talk_with_csv.py:159-173 | a quote-free reply that parses to `{"answer": v}` renders exactly one call, the text v |
| `TalkWithCsv.SubmitAnswered` | talk_with_csv.py:159-173 | after the agent replies, the page shows what `write_answer` rendered, then an alert for any exception that escaped it |
| `TalkWithCsv.Page.Perform` | talk_with_csv.py:114-147 | one branch appends its render calls to the page, or appends nothing and reports its exception |
| `TalkWithCsv.Page.PerformAll` | talk_with_csv.py:114-147 | the branches run in order and the first that raises ends the method; the page grows by exactly the sequenced outcome |
| `TalkWithCsv.Page.WriteAnswer` | talk_with_csv.py:103-147 | the page grows by exactly the render calls of the dispatch function, and the escaped exception is returned |
| `TalkWithCsv.Page.SubmitQuery` | talk_with_csv.py:159-173 | pressing Submit appends exactly the calls of the Submit function |
| `QueryBot.QueryPrompt` | dataset_querybot_using_openai_api.py:46 | the prompt is the fixed preamble, the data, `"\nQuestion: "` and the question, in that order, so it starts with the preamble and ends with the question |
| `QueryBot.QueryPromptInjective` | dataset_querybot_using_openai_api.py:46 | for the same data, two prompts are equal exactly when their questions are |
| `QueryBot.QueryRequest` | dataset_querybot_using_openai_api.py:45-57 | each request carries the fixed system message, the prompt and the given model |
| `QueryBot.LimitRows` | dataset_querybot_using_openai_api.py:59 | at most 100 rows are kept, all of them when there are no more than 100, and they are the first rows in order |
| `QueryBot.Lower` | dataset_querybot_using_openai_api.py:76 | lower-casing keeps the length and maps each character on its own |
| `QueryBot.IsExit` | dataset_querybot_using_openai_api.py:76 | only a three- or four-character line can exit |
| `QueryBot.ExitIgnoresCase` | dataset_querybot_using_openai_api.py:76 | a line exits exactly when it spells `bye` or `tata` with each letter in either case |
| `QueryBot.ExitExamples` | dataset_querybot_using_openai_api.py:76-78 | "BYE", "Tata", "bye" and "TATA" exit; "bye ", "bye!", "by" and "" do not |
| `QueryBot.Converse` | dataset_querybot_using_openai_api.py:74-82 | the loop always prints the input prompt first; it sends at most one request per line, and ends at end of input only after sending every line |
| `QueryBot.FirstExit` | dataset_querybot_using_openai_api.py:74-78 | the position of the first exit line, with no exit line before it |
| `QueryBot.ConverseSent` | dataset_querybot_using_openai_api.py:74-82 | the requests sent are for the lines before the first exit line, in input order, each with its line as the question |
| `QueryBot.ConverseEnds` | dataset_querybot_using_openai_api.py:74-78 | unless a call fails, every line before the exit line is sent, and the loop says goodbye exactly when it reaches an exit line |
| `QueryBot.ConverseFailure` | dataset_querybot_using_openai_api.py:79-82 | the loop stops on a failed call exactly when the last request sent failed, and every earlier call succeeded |
| `QueryBot.ConverseRequests` | dataset_querybot_using_openai_api.py:74-82 | one request per line before the first exit line, in order, each with that line as question and the same data; goodbye exactly when an exit line is reached; the loop stops early only on a failed API call, which is the last request sent |
| `QueryBot.ConverseWithWorkingApi` | dataset_querybot_using_openai_api.py:74-82 | when every call succeeds, exactly one request is sent per question before the exit line |
| `QueryBot.ConverseLengths` | dataset_querybot_using_openai_api.py:74-82 | each question prints two lines, the exit line prints the prompt and the farewell as the last line, end of input a final prompt, and a failed call the prompt only |
| `QueryBot.ConversePrompts` | dataset_querybot_using_openai_api.py:75 | every even output line is the input prompt |
| `QueryBot.ConverseOutput` | dataset_querybot_using_openai_api.py:74-82 | every even output is the input prompt; each question adds the prompt and one line, the exit line adds the prompt and the farewell as the last output, end of input adds a final prompt |
| `QueryBot.ConverseResponses` | dataset_querybot_using_openai_api.py:81-82 | the line after the k-th input prompt is "Response: " followed by the API's reply to the k-th request |
| `QueryBot.SessionRound` | dataset_querybot_using_openai_api.py:74-82 | one round of the loop: the prompt, then end of input, farewell, a failed call, or a response followed by the rounds of the remaining lines |
| `QueryBot.Session` | dataset_querybot_using_openai_api.py:74-82 | the `while True` loop produces exactly the transcript of the recursive loop function |
| `QueryBot.Script` | dataset_querybot_using_openai_api.py:58-82 | the data is computed once from the first 100 rows, and every request embeds that same data with its own question |

## Left out

- Streamlit itself: page configuration, title, uploader, text area and button. Render calls are values appended to a log, with no UI state. The text of `st.write` for a list or dict value, which is Python's repr, is not modelled: `Render.ErrorLine` gives the line only for scalar values.
- The LangChain agent (`create_pandas_dataframe_agent`, `agent.run`) is the parameter `run`. The OpenAI client is the parameter `api`. Both are external network services.
- `pd.read_csv` and the construction of the agent: `TalkWithCsv.CsvTool` never fails when a file is uploaded. Their failures, like failures of the agent run, would reach the same `st.error` handler.
- `testing_queustion` and its one-off call (dataset_querybot_using_openai_api.py:25-39), `df.head(5)`, the Colab path, dotenv, `temperature` and `max_tokens`: all network calls, display or configuration.
- `json.loads` is an uninterpreted parser. Decoded values that are not dicts are excluded by the `ObjectParser` precondition of the Submit handler, because Python's `in` on a list or string is a membership or substring test, not a key lookup. Parser failures other than JSONDecodeError, such as deep-nesting recursion errors, are not modelled.
- `pd.DataFrame(data, columns=...)` in the table branch is the opaque parameter `frame`, because padding and shape checks are pandas' own. The chart branches assume that `pd.DataFrame` and `st.bar_chart`/`st.line_chart` raise nothing on a dict of equal-length lists.
- Render.ChartTransposition: duplicate column names are not collapsed as the comprehension's dict collapses them (the later column wins there, and `1` and `true` are the same key). The model keeps one series per listed name.
- Exception messages (`str(e)` in "Couldn't create …: {e}" and "An error occurred: {e}") are kept as the exception kind, plus the message for ValueError.
- The debug prints (talk_with_csv.py:67, 99-100) and the traceback Python prints when `input` hits end of file or the API raises. The loop is modelled as stopping there.
- `DataFrame.to_json(orient='records')` is the parameter `toJson`. JSON formatting is pandas' own.
- Floats: `json.loads` also returns floats (numbers with a fraction or exponent, `NaN`, `Infinity`), and `Json` has no case for them, so a chart or table with values such as 2.5 is not representable. On a float, `x[i]` and `for x in` would raise TypeError as on an int; `str()` of a float is not modelled.
- A chat reply whose content is None, which would print "Response: None".
- QueryBot.Lower: lower-cases ASCII letters only. No other character lower-cases to the letters of `bye` or `tata`, so `QueryBot.IsExit` agrees with Python's check on every input.
