/**
 * The command-line script: the first 100 rows of the dataset are turned
 * into JSON once, then every question read from standard input is sent to
 * the chat-completion API inside a fixed prompt, until the user says
 * "bye" or "tata".
 */
module QueryBot {
  import opened Wrappers

  /** The text before the data in every prompt. */
  const Preamble := "Based on the following relational data, answer the question:\n"
  /** The text between the data and the question. */
  const QuestionLabel := "\nQuestion: "
  /** The system message of every chat request. */
  const SystemMessage := "you are a helpful assistant."
  /** The model the script uses. */
  const ModelName := "gpt-4o"
  /** How many rows of the dataset are embedded in the prompt. */
  const RowLimit := 100
  /** What `input` writes before each question. */
  const InputPrompt := "Ask your question (or say 'bye' or 'tata' to exit): "
  /** The line printed on leaving. */
  const Farewell := "Have a nice day Goodbye!"

  /** One chat-completion request: the system message, the user message and the model name. */
  datatype ChatRequest = ChatRequest(system: string, user: string, model: string)

  /** `client.chat.completions.create(...)`: the reply's content, or None when the call raises. */
  type ChatApi = ChatRequest -> Option<string>

  /** The f-string prompt of `query_data`. */
  function QueryPrompt(dataJson: string, question: string): (p: string)
    ensures |p| == |Preamble| + |dataJson| + |QuestionLabel| + |question|
    ensures p[..|Preamble|] == Preamble
    ensures p[|Preamble|..|Preamble| + |dataJson|] == dataJson
    ensures p[|Preamble| + |dataJson|..|p| - |question|] == QuestionLabel
    ensures p[|p| - |question|..] == question
  {
    Preamble + dataJson + QuestionLabel + question
  }

  /** For the same data, different questions give different prompts, whatever they contain. */
  lemma QueryPromptInjective(dataJson: string, q1: string, q2: string)
    ensures QueryPrompt(dataJson, q1) == QueryPrompt(dataJson, q2) <==> q1 == q2
  {
    var p1, p2 := QueryPrompt(dataJson, q1), QueryPrompt(dataJson, q2);
    if p1 == p2 {
      assert q1 == p1[|p1| - |q1|..];
    }
  }

  /** `query_data(data_json, question, model_name)`: one chat request. */
  function QueryRequest(dataJson: string, question: string, model: string): (r: ChatRequest)
    ensures r.system == SystemMessage && r.model == model
    ensures r.user == QueryPrompt(dataJson, question)
  {
    ChatRequest(SystemMessage, QueryPrompt(dataJson, question), model)
  }

  /** `df.head(100)`: the first rows, at most RowLimit of them. */
  function LimitRows<R>(rows: seq<R>): (r: seq<R>)
    ensures |r| <= RowLimit
    ensures |r| == if |rows| <= RowLimit then |rows| else RowLimit
    ensures forall k :: 0 <= k < |r| ==> r[k] == rows[k]
  {
    if |rows| <= RowLimit then rows else rows[..RowLimit]
  }

  /** `c.lower()` for ASCII letters; every other character is kept. */
  function LowerChar(c: char): char {
    if 'A' <= c <= 'Z' then (c as int + 32) as char else c
  }

  /** `s.lower()`, character by character. */
  function Lower(s: string): (r: string)
    ensures |r| == |s|
    ensures forall k :: 0 <= k < |s| ==> r[k] == LowerChar(s[k])
  {
    if s == [] then [] else [LowerChar(s[0])] + Lower(s[1..])
  }

  /** `question.lower() in ["bye", "tata"]`. */
  predicate IsExit(s: string)
    ensures IsExit(s) ==> |s| == 3 || |s| == 4
  {
    Lower(s) == "bye" || Lower(s) == "tata"
  }

  /** s spells w (a lower-case word) with each letter in either case. */
  predicate SpellsIgnoringCase(s: string, w: string) {
    |s| == |w| && forall k :: 0 <= k < |s| ==> s[k] == w[k] || s[k] as int == w[k] as int - 32
  }

  /** The exit check is exactly "bye" or "tata" in any mix of upper and lower case, and nothing else. */
  lemma ExitIgnoresCase(s: string)
    ensures IsExit(s) <==> SpellsIgnoringCase(s, "bye") || SpellsIgnoringCase(s, "tata")
  {
    if |s| == 3 {
      assert Lower(s) == "bye" <==> LowerChar(s[0]) == 'b' && LowerChar(s[1]) == 'y' && LowerChar(s[2]) == 'e';
    }
    if |s| == 4 {
      assert Lower(s) == "tata" <==>
        LowerChar(s[0]) == 't' && LowerChar(s[1]) == 'a' && LowerChar(s[2]) == 't' && LowerChar(s[3]) == 'a';
    }
  }

  /** "BYE" and "Tata" exit; "bye ", "bye!" and the empty line do not. */
  lemma ExitExamples()
    ensures IsExit("BYE") && IsExit("Tata") && IsExit("bye") && IsExit("TATA")
    ensures !IsExit("bye ") && !IsExit("bye!") && !IsExit("") && !IsExit("by")
  {
    ExitIgnoresCase("BYE");
    ExitIgnoresCase("Tata");
    ExitIgnoresCase("bye");
    ExitIgnoresCase("TATA");
    ExitIgnoresCase("bye ");
    ExitIgnoresCase("bye!");
    ExitIgnoresCase("");
    ExitIgnoresCase("by");
  }

  /** How the loop ended: on an exit word, at the end of input (`input` raises EOFError), or on a failed API call. */
  datatype Stop = SaidGoodbye | EndOfInput | ApiFailed

  /** What the loop wrote to standard output, the requests it sent, and how it ended. */
  datatype Transcript = Transcript(stdout: seq<string>, requests: seq<ChatRequest>, stop: Stop)

  /** The script's `while True` input loop, as a function of the remaining input lines. */
  function Converse(api: ChatApi, dataJson: string, model: string, lines: seq<string>): (t: Transcript)
    ensures |t.stdout| >= 1 && t.stdout[0] == InputPrompt
    ensures |t.requests| <= |lines|
    ensures t.stop == EndOfInput ==> |t.requests| == |lines|
    decreases |lines|
  {
    if lines == [] then Transcript([InputPrompt], [], EndOfInput)
    else if IsExit(lines[0]) then Transcript([InputPrompt, Farewell + "\n"], [], SaidGoodbye)
    else
      var request := QueryRequest(dataJson, lines[0], model);
      match api(request)
      case None => Transcript([InputPrompt], [request], ApiFailed)
      case Some(reply) =>
        var rest := Converse(api, dataJson, model, lines[1..]);
        Transcript([InputPrompt, "Response: " + reply + "\n"] + rest.stdout, [request] + rest.requests, rest.stop)
  }

  /** The position of the first exit word, or the number of lines when there is none. */
  function FirstExit(lines: seq<string>): (n: nat)
    ensures n <= |lines|
    ensures n < |lines| ==> IsExit(lines[n])
    ensures forall k :: 0 <= k < n ==> !IsExit(lines[k])
  {
    if lines == [] then 0
    else if IsExit(lines[0]) then 0
    else 1 + FirstExit(lines[1..])
  }

  /** The requests sent are the first lines before the exit word, each with that line as its question, in order. */
  lemma {:induction false} ConverseSent(api: ChatApi, dataJson: string, model: string, lines: seq<string>)
    ensures var t := Converse(api, dataJson, model, lines);
      && |t.requests| <= FirstExit(lines)
      && (forall k :: 0 <= k < |t.requests| ==> t.requests[k] == QueryRequest(dataJson, lines[k], model))
    decreases |lines|
  {
    if lines != [] && !IsExit(lines[0]) {
      var request := QueryRequest(dataJson, lines[0], model);
      if api(request).Some? {
        ConverseSent(api, dataJson, model, lines[1..]);
        var rest := Converse(api, dataJson, model, lines[1..]);
        var t := Converse(api, dataJson, model, lines);
        assert t.requests == [request] + rest.requests;
        forall k | 0 <= k < |t.requests| ensures t.requests[k] == QueryRequest(dataJson, lines[k], model) {
          if k > 0 { assert t.requests[k] == rest.requests[k - 1] && lines[1..][k - 1] == lines[k]; }
        }
      }
    }
  }

  /** Unless an API call fails, the loop sends every question before the exit word, and it says goodbye exactly when it reaches one. */
  lemma {:induction false} ConverseEnds(api: ChatApi, dataJson: string, model: string, lines: seq<string>)
    ensures var t := Converse(api, dataJson, model, lines);
      t.stop != ApiFailed ==> |t.requests| == FirstExit(lines) && (t.stop == SaidGoodbye <==> FirstExit(lines) < |lines|)
    decreases |lines|
  {
    if lines != [] && !IsExit(lines[0]) {
      var request := QueryRequest(dataJson, lines[0], model);
      if api(request).Some? {
        ConverseEnds(api, dataJson, model, lines[1..]);
      }
    }
  }

  /** The loop stops on a failed call exactly when the last request sent failed, and every earlier call succeeded. */
  lemma {:induction false} ConverseFailure(api: ChatApi, dataJson: string, model: string, lines: seq<string>)
    ensures var t := Converse(api, dataJson, model, lines);
      && (t.stop == ApiFailed <==> |t.requests| > 0 && api(t.requests[|t.requests| - 1]).None?)
      && (forall k :: 0 <= k < |t.requests| - 1 ==> api(t.requests[k]).Some?)
    decreases |lines|
  {
    if lines != [] && !IsExit(lines[0]) {
      var request := QueryRequest(dataJson, lines[0], model);
      if api(request).Some? {
        ConverseFailure(api, dataJson, model, lines[1..]);
        var rest := Converse(api, dataJson, model, lines[1..]);
        var t := Converse(api, dataJson, model, lines);
        assert t.requests == [request] + rest.requests;
        if |rest.requests| > 0 {
          assert t.requests[|t.requests| - 1] == rest.requests[|rest.requests| - 1];
        }
        forall k | 0 <= k < |t.requests| - 1 ensures api(t.requests[k]).Some? {
          if k > 0 { assert t.requests[k] == rest.requests[k - 1]; }
        }
      }
    }
  }

  /**
   * The loop sends one request per line before the first exit word, each
   * with that line as its question and the same data, in input order; it
   * says goodbye exactly when it reaches an exit word, and stops early only
   * when an API call fails, that call being the last one sent.
   */
  lemma ConverseRequests(api: ChatApi, dataJson: string, model: string, lines: seq<string>)
    ensures var t := Converse(api, dataJson, model, lines);
      && |t.requests| <= FirstExit(lines)
      && (forall k :: 0 <= k < |t.requests| ==> t.requests[k] == QueryRequest(dataJson, lines[k], model))
      && (t.stop != ApiFailed ==> |t.requests| == FirstExit(lines) && (t.stop == SaidGoodbye <==> FirstExit(lines) < |lines|))
      && (t.stop == ApiFailed <==> |t.requests| > 0 && api(t.requests[|t.requests| - 1]).None?)
      && (forall k :: 0 <= k < |t.requests| - 1 ==> api(t.requests[k]).Some?)
  {
    ConverseSent(api, dataJson, model, lines);
    ConverseEnds(api, dataJson, model, lines);
    ConverseFailure(api, dataJson, model, lines);
  }

  /** When every call succeeds, the loop ends only on an exit word or at the end of input, after one request per question. */
  lemma ConverseWithWorkingApi(api: ChatApi, dataJson: string, model: string, lines: seq<string>)
    requires forall k :: 0 <= k < FirstExit(lines) ==> api(QueryRequest(dataJson, lines[k], model)).Some?
    ensures var t := Converse(api, dataJson, model, lines);
      t.stop != ApiFailed && |t.requests| == FirstExit(lines)
  {
    ConverseRequests(api, dataJson, model, lines);
  }

  /** Output lengths per way of stopping, and the farewell as the last line after an exit word. */
  lemma {:induction false} ConverseLengths(api: ChatApi, dataJson: string, model: string, lines: seq<string>)
    ensures var t := Converse(api, dataJson, model, lines);
      && (t.stop == SaidGoodbye ==> |t.stdout| == 2 * |t.requests| + 2 && t.stdout[|t.stdout| - 1] == Farewell + "\n")
      && (t.stop == EndOfInput ==> |t.stdout| == 2 * |t.requests| + 1)
      && (t.stop == ApiFailed ==> |t.stdout| == 2 * |t.requests| - 1)
    decreases |lines|
  {
    if lines != [] && !IsExit(lines[0]) {
      var request := QueryRequest(dataJson, lines[0], model);
      if api(request).Some? {
        ConverseLengths(api, dataJson, model, lines[1..]);
      }
    }
  }

  /** Every even output line is the input prompt. */
  ghost predicate PromptsEven(stdout: seq<string>) {
    forall k :: 0 <= k < |stdout| && k % 2 == 0 ==> stdout[k] == InputPrompt
  }

  /** The loop prints the input prompt before every line it reads. */
  lemma {:induction false} ConversePrompts(api: ChatApi, dataJson: string, model: string, lines: seq<string>)
    ensures PromptsEven(Converse(api, dataJson, model, lines).stdout)
    decreases |lines|
  {
    if lines != [] && !IsExit(lines[0]) {
      var request := QueryRequest(dataJson, lines[0], model);
      if api(request).Some? {
        ConversePrompts(api, dataJson, model, lines[1..]);
        var rest := Converse(api, dataJson, model, lines[1..]).stdout;
        var out := Converse(api, dataJson, model, lines).stdout;
        assert out == [InputPrompt, "Response: " + api(request).value + "\n"] + rest;
        forall k | 0 <= k < |out| && k % 2 == 0 ensures out[k] == InputPrompt {
          if k >= 2 {
            assert out[k] == rest[k - 2];
            assert 0 <= k - 2 < |rest| && (k - 2) % 2 == 0;
          }
        }
      }
    }
  }

  /**
   * Every question before the exit word prints the input prompt and one
   * more line; the exit word prints the input prompt and the farewell
   * line, and nothing follows it.
   */
  lemma ConverseOutput(api: ChatApi, dataJson: string, model: string, lines: seq<string>)
    ensures var t := Converse(api, dataJson, model, lines);
      && (t.stop == SaidGoodbye ==> |t.stdout| == 2 * |t.requests| + 2 && t.stdout[|t.stdout| - 1] == Farewell + "\n")
      && (t.stop == EndOfInput ==> |t.stdout| == 2 * |t.requests| + 1)
      && (t.stop == ApiFailed ==> |t.stdout| == 2 * |t.requests| - 1)
      && (forall k :: 0 <= k < |t.stdout| && k % 2 == 0 ==> t.stdout[k] == InputPrompt)
  {
    ConverseLengths(api, dataJson, model, lines);
    ConversePrompts(api, dataJson, model, lines);
    assert PromptsEven(Converse(api, dataJson, model, lines).stdout);
  }

  /** The line after the k-th input prompt is "Response: " and the API's reply to the k-th request. */
  ghost predicate ResponsesAligned(api: ChatApi, t: Transcript) {
    forall k :: 0 <= k < |t.requests| && api(t.requests[k]).Some? ==>
      2 * k + 1 < |t.stdout| && t.stdout[2 * k + 1] == "Response: " + api(t.requests[k]).value + "\n"
  }

  /** Each reply is printed right after the prompt of the question it answers. */
  lemma {:induction false} ConverseResponses(api: ChatApi, dataJson: string, model: string, lines: seq<string>)
    ensures ResponsesAligned(api, Converse(api, dataJson, model, lines))
    decreases |lines|
  {
    if lines != [] && !IsExit(lines[0]) {
      var request := QueryRequest(dataJson, lines[0], model);
      if api(request).Some? {
        ConverseResponses(api, dataJson, model, lines[1..]);
        var rest := Converse(api, dataJson, model, lines[1..]);
        assert ResponsesAligned(api, rest);
        var t := Converse(api, dataJson, model, lines);
        assert t.requests == [request] + rest.requests;
        assert t.stdout == [InputPrompt, "Response: " + api(request).value + "\n"] + rest.stdout;
        forall k | 0 <= k < |t.requests| && api(t.requests[k]).Some?
          ensures 2 * k + 1 < |t.stdout| && t.stdout[2 * k + 1] == "Response: " + api(t.requests[k]).value + "\n"
        {
          if k > 0 {
            var j := k - 1;
            assert t.requests[k] == rest.requests[j];
            assert 0 <= j < |rest.requests| && api(rest.requests[j]).Some?;
            assert 2 * j + 1 < |rest.stdout|;
            assert t.stdout[2 * k + 1] == rest.stdout[2 * j + 1];
          }
        }
      }
    }
  }

  /** What has been printed and sent so far, followed by what the remaining lines will produce. */
  function Resume(stdout: seq<string>, requests: seq<ChatRequest>, rest: Transcript): Transcript {
    Transcript(stdout + rest.stdout, requests + rest.requests, rest.stop)
  }

  /**
   * One round of the loop at line i: the input prompt, then the end of
   * input, the farewell, a failed call, or a response followed by the
   * rounds of the remaining lines.
   */
  lemma SessionRound(api: ChatApi, dataJson: string, model: string, lines: seq<string>, i: nat,
                     stdout: seq<string>, requests: seq<ChatRequest>)
    requires i <= |lines|
    ensures i == |lines| ==>
      Resume(stdout, requests, Converse(api, dataJson, model, lines[i..])) ==
        Transcript(stdout + [InputPrompt], requests, EndOfInput)
    ensures i < |lines| && IsExit(lines[i]) ==>
      Resume(stdout, requests, Converse(api, dataJson, model, lines[i..])) ==
        Transcript(stdout + [InputPrompt] + [Farewell + "\n"], requests, SaidGoodbye)
    ensures i < |lines| && !IsExit(lines[i]) && api(QueryRequest(dataJson, lines[i], model)).None? ==>
      Resume(stdout, requests, Converse(api, dataJson, model, lines[i..])) ==
        Transcript(stdout + [InputPrompt], requests + [QueryRequest(dataJson, lines[i], model)], ApiFailed)
    ensures i < |lines| && !IsExit(lines[i]) && api(QueryRequest(dataJson, lines[i], model)).Some? ==>
      var request := QueryRequest(dataJson, lines[i], model);
      Resume(stdout, requests, Converse(api, dataJson, model, lines[i..])) ==
        Resume(stdout + [InputPrompt] + ["Response: " + api(request).value + "\n"], requests + [request],
               Converse(api, dataJson, model, lines[i + 1..]))
  {
    if i < |lines| {
      assert lines[i..][0] == lines[i];
      assert lines[i..][1..] == lines[i + 1..];
      var request := QueryRequest(dataJson, lines[i], model);
      if !IsExit(lines[i]) && api(request).Some? {
        var line := "Response: " + api(request).value + "\n";
        var rest := Converse(api, dataJson, model, lines[i + 1..]);
        assert stdout + ([InputPrompt, line] + rest.stdout) == stdout + [InputPrompt] + [line] + rest.stdout;
        assert requests + ([request] + rest.requests) == requests + [request] + rest.requests;
      }
    } else {
      assert stdout + [InputPrompt] == stdout + Converse(api, dataJson, model, lines[i..]).stdout;
    }
  }

  /** The `while True` loop: read a line, leave on an exit word, otherwise ask and print the response. */
  method Session(api: ChatApi, dataJson: string, model: string, lines: seq<string>) returns (t: Transcript)
    ensures t == Converse(api, dataJson, model, lines)
  {
    var stdout: seq<string> := [];
    var requests: seq<ChatRequest> := [];
    var i := 0;
    assert lines[0..] == lines;
    assert Converse(api, dataJson, model, lines) == Resume([], [], Converse(api, dataJson, model, lines[0..]));
    while true
      invariant 0 <= i <= |lines|
      invariant Converse(api, dataJson, model, lines) == Resume(stdout, requests, Converse(api, dataJson, model, lines[i..]))
      decreases |lines| - i
    {
      SessionRound(api, dataJson, model, lines, i, stdout, requests);
      stdout := stdout + [InputPrompt];
      if i == |lines| {
        return Transcript(stdout, requests, EndOfInput);
      }
      var question := lines[i];
      if IsExit(question) {
        stdout := stdout + [Farewell + "\n"];
        return Transcript(stdout, requests, SaidGoodbye);
      }
      var request := QueryRequest(dataJson, question, model);
      requests := requests + [request];
      var response := api(request);
      if response.None? {
        return Transcript(stdout, requests, ApiFailed);
      }
      stdout := stdout + ["Response: " + response.value + "\n"];
      i := i + 1;
    }
  }



  /**
   * The script: the data is the JSON of the first 100 rows, computed once
   * before the loop, and every request carries that same data.
   */
  method Script<R>(rows: seq<R>, toJson: seq<R> -> string, api: ChatApi, lines: seq<string>) returns (t: Transcript)
    ensures t == Converse(api, toJson(LimitRows(rows)), ModelName, lines)
    ensures |t.requests| <= FirstExit(lines)
    ensures forall k :: 0 <= k < |t.requests| ==>
      t.requests[k] == ChatRequest(SystemMessage, QueryPrompt(toJson(LimitRows(rows)), lines[k]), ModelName)
  {
    var dataJson := toJson(LimitRows(rows));
    t := Session(api, dataJson, ModelName, lines);
    ConverseRequests(api, dataJson, ModelName, lines);
  }
}
