/**
 * The Streamlit front end: the instruction prompt sent to the dataframe
 * agent (`ask_agent`), the uploaded-file guard (`csv_tool`), the Submit
 * handler with its catch-all, and the page as a log of render calls.
 */
module TalkWithCsv {
  import opened Wrappers
  import opened Json
  import opened Reply
  import opened Render

  /** The uploaded CSV file; its contents only matter to the agent. */
  datatype Upload = Upload(name: string)

  /** The pandas dataframe agent built over an uploaded file. */
  datatype Agent = PandasAgent(file: Upload)

  /** `agent.run(prompt)`: the agent's raw reply, or the error the agent or the model API raises. */
  type AgentRun = (Agent, string) -> Result<string, PyError>

  /** The instructions that precede every query, exactly as the triple-quoted literal of `ask_agent` spells them. */
  const Template: string :=
    "\n"
    + "        Let's decode the way to respond to the queries. The responses depend on the type of information requested in the query. \n"
    + "\n"
    + "        1. If the query requires a table, format your answer like this:\n"
    + "           {\"table\": {\"columns\": [\"column1\", \"column2\", ...], \"data\": [[value1, value2, ...], [value1, value2, ...], ...]}}\n"
    + "\n"
    + "        2. For a bar chart, respond like this:\n"
    + "           {\"bar\": {\"columns\": [\"A\", \"B\", \"C\", ...], \"data\": [25, 24, 10, ...]}}\n"
    + "\n"
    + "        3. If a line chart is more appropriate, your reply should look like this:\n"
    + "           {\"line\": {\"columns\": [\"A\", \"B\", \"C\", ...], \"data\": [25, 24, 10, ...]}}\n"
    + "\n"
    + "        Note: We only accommodate two types of charts: \"bar\" and \"line\".\n"
    + "\n"
    + "        4. For a plain question that doesn't need a chart or table, your response should be:\n"
    + "           {\"answer\": \"Your answer goes here\"}\n"
    + "\n"
    + "        For example:\n"
    + "           {\"answer\": \"The Product with the highest Orders is '15143Exfo'\"}\n"
    + "\n"
    + "        5. If the answer is not known or available, respond with:\n"
    + "           {\"answer\": \"I do not know.\"}\n"
    + "\n"
    + "        Return all output as a valid JSON string. Use double quotes around all strings (e.g., {\"columns\": [\"Products\", \"Orders\"], \"data\": [[\"51993Masc\", 191], [\"49631Foun\", 152]]}). Do not use single quotes.\n"
    + "\n"
    + "       Now, respond **ONLY** with a valid JSON string, without any additional text or formatting. Here's the query for you to work on: \n"
    + "        "

  /** The error `csv_tool` raises when no file was uploaded, before it reads anything. */
  const NoFile := ValueError("No file uploaded.")

  /** `csv_tool(filename)`: no file is an error; otherwise the agent over that file. */
  function CsvTool(file: Option<Upload>): (r: Result<Agent, PyError>)
    ensures file.None? <==> r == Err(NoFile)
    ensures file.Some? ==> r == Ok(PandasAgent(file.value))
  {
    match file
    case None => Err(NoFile)
    case Some(f) => Ok(PandasAgent(f))
  }

  /** The prompt of `ask_agent`: the fixed instructions, then the query verbatim. */
  function Prompt(query: string): string
  {
    Template + query
  }

  /**
   * The prompt starts with the instructions and ends with the query. (Stated
   * apart from `Prompt` so that members using the prompt need not reason
   * about the long instruction text.)
   */
  lemma PromptParts(query: string)
    ensures |Prompt(query)| == |Template| + |query|
    ensures Prompt(query)[..|Template|] == Template
    ensures Prompt(query)[|Template|..] == query
  {
  }

  /** Different queries give different prompts: the query can be read back off the end of the prompt. */
  lemma PromptInjective(q1: string, q2: string)
    ensures Prompt(q1) == Prompt(q2) <==> q1 == q2
  {
    if Prompt(q1) == Prompt(q2) {
      PromptParts(q1);
      PromptParts(q2);
    }
  }

  /** `ask_agent(agent, query)`: run the agent on the prompt and normalize its reply. */
  function AskAgent(run: AgentRun, agent: Agent, query: string): (r: Result<string, PyError>)
    ensures r.Ok? <==> run(agent, Prompt(query)).Ok?
    ensures r.Ok? ==> r.value == Normalize(run(agent, Prompt(query)).value) && '\'' !in r.value
    ensures r.Err? ==> r.error == run(agent, Prompt(query)).error
  {
    match run(agent, Prompt(query))
    case Ok(reply) => Ok(Normalize(reply))
    case Err(e) => Err(e)
  }

  /** The parser returns dicts only (what the prompt asks the model for). */
  ghost predicate ObjectParser(parse: Parser) {
    forall s :: parse(s).Some? ==> parse(s).value.JObject?
  }

  /**
   * The `st.button("Submit Query")` handler: build the agent, ask it, decode the
   * reply and write the answer; an exception from any of them is shown by
   * `st.error`, after whatever `write_answer` had already rendered.
   */
  function Submit(file: Option<Upload>, query: string, run: AgentRun, parse: Parser, frame: DataFrameCtor): (r: seq<Action>)
    requires ObjectParser(parse)
    ensures file.None? ==> r == [Alert(NoFile)]
    ensures file.Some? && AskAgent(run, PandasAgent(file.value), query).Err? ==>
      r == [Alert(AskAgent(run, PandasAgent(file.value), query).error)]
    ensures forall i :: 0 <= i < |r| - 1 ==> !r[i].Alert?
  {
    match CsvTool(file)
    case Err(e) => [Alert(e)]
    case Ok(agent) =>
      match AskAgent(run, agent, query)
      case Err(e) => [Alert(e)]
      case Ok(reply) =>
        var o := Dispatch(Decode(parse, reply), frame);
        o.actions + (if o.escaped.Some? then [Alert(o.escaped.value)] else [])
  }

  /** With no file the page shows only "No file uploaded.", whatever the agent would have done. */
  lemma SubmitWithoutFile(query: string, run: AgentRun, parse: Parser, frame: DataFrameCtor)
    requires ObjectParser(parse)
    ensures Submit(None, query, run, parse, frame) == [Alert(ValueError("No file uploaded."))]
  {
  }

  /**
   * A reply that does not parse renders exactly one line, "Error: " and
   * the fixed invalid-format message, and no answer, chart or table.
   */
  lemma SubmitUnparsedReply(file: Upload, query: string, run: AgentRun, parse: Parser, frame: DataFrameCtor, reply: string)
    requires ObjectParser(parse)
    requires run(PandasAgent(file), Prompt(query)) == Ok(reply)
    requires parse(Normalize(reply)).None?
    ensures Submit(Some(file), query, run, parse, frame) == [ErrorText(JString(InvalidFormat))]
    ensures ErrorLine(JString(InvalidFormat)) == Some("Error: " + InvalidFormat)
  {
    DecodeFailureIsErrorOnly(parse, Normalize(reply));
    DispatchError(Decode(parse, Normalize(reply)), frame);
  }

  /**
   * A reply without single quotes that parses to `{"answer": v}` renders
   * exactly one call, the text v.
   */
  lemma SubmitAnswerOnly(file: Upload, query: string, run: AgentRun, parse: Parser, frame: DataFrameCtor, reply: string, v: Json)
    requires ObjectParser(parse)
    requires run(PandasAgent(file), Prompt(query)) == Ok(reply)
    requires '\'' !in reply
    requires parse(reply) == Some(JObject([("answer", v)]))
    ensures Submit(Some(file), query, run, parse, frame) == [Text(v)]
  {
    NormalizeFixedPoint(reply);
    var response := JObject([("answer", v)]);
    var b := Branches(response.members, frame);
    RunFour(b[0], b[1], b[2], b[3]);
  }

  /** Once the agent has replied, the page shows what `write_answer` rendered, then what escaped it. */
  lemma SubmitAnswered(file: Upload, query: string, run: AgentRun, parse: Parser, frame: DataFrameCtor, reply: string)
    requires ObjectParser(parse)
    requires AskAgent(run, PandasAgent(file), query) == Ok(reply)
    ensures Decode(parse, reply).JObject?
    ensures var o := Dispatch(Decode(parse, reply), frame);
      Submit(Some(file), query, run, parse, frame) == o.actions + (if o.escaped.Some? then [Alert(o.escaped.value)] else [])
  {
  }

  /** The Streamlit page: the render calls made so far, in order. */
  class Page {
    var rendered: seq<Action>

    constructor ()
      ensures rendered == []
    {
      rendered := [];
    }

    /** Carry out one branch: render its calls, or report the exception it raised. */
    method Perform(step: Step) returns (escaped: Option<PyError>)
      modifies this
      ensures step.Emit? ==> rendered == old(rendered) + step.actions && escaped.None?
      ensures step.Raise? ==> rendered == old(rendered) && escaped == Some(step.error)
    {
      match step
      case Emit(acts) =>
        rendered := rendered + acts;
        escaped := None;
      case Raise(e) =>
        escaped := Some(e);
    }

    /** The four `if` blocks of `write_answer` in order; a branch that raises ends the method. */
    method PerformAll(s0: Step, s1: Step, s2: Step, s3: Step) returns (escaped: Option<PyError>)
      modifies this
      ensures rendered == old(rendered) + Run([s0, s1, s2, s3]).actions
      ensures escaped == Run([s0, s1, s2, s3]).escaped
    {
      RunFour(s0, s1, s2, s3);
      escaped := Perform(s0);
      if escaped.Some? {
        return;
      }
      escaped := Perform(s1);
      if escaped.Some? {
        return;
      }
      escaped := Perform(s2);
      if escaped.Some? {
        return;
      }
      escaped := Perform(s3);
    }

    /** `write_answer(response)`: the early return on "error", then the four branches in order. */
    method WriteAnswer(response: Json, frame: DataFrameCtor) returns (escaped: Option<PyError>)
      requires response.JObject?
      modifies this
      ensures rendered == old(rendered) + Dispatch(response, frame).actions
      ensures escaped == Dispatch(response, frame).escaped
    {
      var members := response.members;
      var error := Lookup(members, "error");
      if error.Some? {
        rendered := rendered + [ErrorText(error.value)];
        return None;
      }
      var b := Branches(members, frame);
      assert b == [b[0], b[1], b[2], b[3]];
      escaped := PerformAll(b[0], b[1], b[2], b[3]);
    }

    /** Pressing "Submit Query". */
    method SubmitQuery(file: Option<Upload>, query: string, run: AgentRun, parse: Parser, frame: DataFrameCtor)
      requires ObjectParser(parse)
      modifies this
      ensures rendered == old(rendered) + Submit(file, query, run, parse, frame)
    {
      var agent := CsvTool(file);
      if agent.Err? {
        rendered := rendered + [Alert(agent.error)];
        return;
      }
      var reply := AskAgent(run, agent.value, query);
      if reply.Err? {
        rendered := rendered + [Alert(reply.error)];
        return;
      }
      var decoded := Decode(parse, reply.value);
      SubmitAnswered(file.value, query, run, parse, frame, reply.value);
      var escaped := WriteAnswer(decoded, frame);
      if escaped.Some? {
        rendered := rendered + [Alert(escaped.value)];
      }
    }
  }
}
