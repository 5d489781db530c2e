/**
 The four nodes of the code-generation graph (`CodeAssistantNodes` and
 `extract_response` in src/nodes.py). Each node is a function from the
 incoming `keys` dictionary to the dictionary it returns, or to the exception
 that escapes it. The language model and `exec` are the oracles of `Env`.
 */
module Nodes {
  import opened State

  /** The literal string the check nodes store under "error" when the check passed. */
  const NoError: string := "None"

  /** The text put in front of the message of an exception raised by `exec`. */
  const ErrorPrefix: string := "Execution error: "

  /** The line put between earlier error text and the newest failure. */
  const Separator: string := "\n --- Most recent run error --- \n"

  /** The node names, in the order the node class lists them. */
  const NodeNames: seq<string> := ["generate", "check_code_execution", "check_code_imports", "finish"]

  datatype Node = Generating | CheckingImports | CheckingExecution | Finishing

  /** The name under which a node is registered in the graph. */
  function Name(n: Node): (s: string)
    ensures s in NodeNames
    ensures NodeNamed(s) == Some(n)
  {
    match n
    case Generating => "generate"
    case CheckingImports => "check_code_imports"
    case CheckingExecution => "check_code_execution"
    case Finishing => "finish"
  }

  /** The graph's lookup of a node by its registered name. */
  function NodeNamed(name: string): (r: Option<Node>)
    ensures r.Some? <==> name in NodeNames
  {
    if name == "generate" then Some(Generating)
    else if name == "check_code_imports" then Some(CheckingImports)
    else if name == "check_code_execution" then Some(CheckingExecution)
    else if name == "finish" then Some(Finishing)
    else None
  }

  // ---------------------------------------------------------------------
  // generate

  /** What `generate` reads without guarding: the question, an integer
      iteration, and, on a re-try, the previous generation list. */
  predicate GenerateReady(keys: Keys)
  {
    && "question" in keys
    && "iteration" in keys && keys["iteration"].Number?
    && ("error" in keys ==> "generation" in keys && keys["generation"].Generation?)
  }

  /** The inputs `generate` invokes the model chain with. The presence of an
      "error" key alone selects the re-try prompt, which carries the first
      artifact of the previous generation and the error text. */
  function Prompt(keys: Keys, context: string): (r: Result<Request>)
    requires GenerateReady(keys)
    ensures r.Err? <==> "error" in keys && |keys["generation"].artifacts| == 0
    ensures r.Ok? ==> (r.value.Retry? <==> "error" in keys)
    ensures r.Ok? ==> r.value.context == context && r.value.question == keys["question"]
    ensures r.Ok? && r.value.Retry? ==>
      && r.value.previous == keys["generation"].artifacts[0]
      && r.value.error == keys["error"]
  {
    if "error" in keys then
      var previous := keys["generation"].artifacts;
      if |previous| == 0 then Err(IndexError)
      else Ok(Retry(context, keys["question"], previous[0], keys["error"]))
    else
      Ok(Fresh(context, keys["question"]))
  }

  /** The `generate` node: asks the model for a new generation and counts the
      attempt. Its result holds exactly the generation, the question and the
      iteration, so an incoming "error" is dropped. */
  function Generate(keys: Keys, env: Env): (r: Result<Keys>)
    requires GenerateReady(keys)
    ensures r.Err? <==> "error" in keys && |keys["generation"].artifacts| == 0
    ensures r.Ok? ==> r.value.Keys == {"generation", "question", "iteration"}
    ensures r.Ok? ==> "error" !in r.value
    ensures r.Ok? ==> r.value["question"] == keys["question"]
    ensures r.Ok? ==> r.value["iteration"] == Number(keys["iteration"].number + 1)
    ensures r.Ok? ==> r.value["generation"] == Generation(env.llm(Prompt(keys, env.context).value))
  {
    match Prompt(keys, env.context)
    case Err(e) => Err(e)
    case Ok(request) =>
      Ok(map[
        "generation" := Generation(env.llm(request)),
        "question" := keys["question"],
        "iteration" := Number(keys["iteration"].number + 1)])
  }

  // ---------------------------------------------------------------------
  // the two checks

  /** What the check nodes read without guarding: the question, the
      iteration, a generation list, and, when present, a textual error. */
  predicate CheckReady(keys: Keys)
  {
    && "question" in keys
    && "iteration" in keys
    && "generation" in keys && keys["generation"].Generation?
    && ("error" in keys ==> keys["error"].Text?)
  }

  /** The error text already in the state, if there is an "error" key. */
  function PriorError(keys: Keys): (r: Option<string>)
    requires "error" in keys ==> keys["error"].Text?
    ensures r.Some? <==> "error" in keys
  {
    if "error" in keys then Some(keys["error"].text) else None
  }

  predicate StartsWith(s: string, p: string)
  {
    |p| <= |s| && s[..|p|] == p
  }

  predicate EndsWith(s: string, p: string)
  {
    |p| <= |s| && s[|s| - |p|..] == p
  }

  /** The error text a failing check stores: the newest failure, below any
      earlier error text and the separator. It is never the pass sentinel. */
  function FailureText(prior: Option<string>, message: string): (e: string)
    ensures e != NoError
    ensures EndsWith(e, ErrorPrefix + message)
    ensures prior.Some? ==> StartsWith(e, prior.value + Separator)
    ensures prior.Some? ==> |e| == |prior.value| + |Separator| + |ErrorPrefix| + |message|
    ensures prior.None? ==> e == ErrorPrefix + message
  {
    var latest := ErrorPrefix + message;
    match prior
    case Some(earlier) => earlier + Separator + latest
    case None => latest
  }

  /** The error text a check stores for one `exec` outcome: the sentinel
      exactly when the executed text completed. */
  function Verdict(outcome: ExecOutcome, prior: Option<string>): (e: string)
    ensures e == NoError <==> outcome.Completed?
    ensures outcome.Raised? ==> e == FailureText(prior, outcome.message)
  {
    match outcome
    case Completed => NoError
    case Raised(message) => FailureText(prior, message)
  }

  /** The `check_code_imports` node: executes the imports of the first
      artifact. Raises `IndexError` on an empty generation list. */
  function CheckCodeImports(keys: Keys, env: Env): (r: Result<Keys>)
    requires CheckReady(keys)
    ensures r.Err? <==> |keys["generation"].artifacts| == 0
    ensures r.Ok? ==> r.value.Keys == {"generation", "error", "iteration", "question"}
    ensures r.Ok? ==>
      && r.value["generation"] == keys["generation"]
      && r.value["iteration"] == keys["iteration"]
      && r.value["question"] == keys["question"]
    ensures r.Ok? ==>
      var a := keys["generation"].artifacts[0];
      && r.value["error"].Text?
      && (r.value["error"].text == NoError <==> env.exec(a.imports).Completed?)
      && (env.exec(a.imports).Raised? ==>
            r.value["error"].text == FailureText(PriorError(keys), env.exec(a.imports).message))
  {
    var artifacts := keys["generation"].artifacts;
    if |artifacts| == 0 then Err(IndexError)
    else
      var error := Verdict(env.exec(artifacts[0].imports), PriorError(keys));
      Ok(map[
        "generation" := keys["generation"],
        "error" := Text(error),
        "iteration" := keys["iteration"],
        "question" := keys["question"]])
  }

  /** The text `check_code_execution` executes: the imports, a line break,
      then the code body. */
  function CodeBlock(a: Artifact): (block: string)
    ensures StartsWith(block, a.imports + "\n")
    ensures EndsWith(block, a.code)
    ensures |block| == |a.imports| + 1 + |a.code|
  {
    a.imports + "\n" + a.code
  }

  /** The `check_code_execution` node: executes imports and code of the first
      artifact together, and also copies that artifact's three fields into
      keys of their own. Raises `IndexError` on an empty generation list. */
  function CheckCodeExecution(keys: Keys, env: Env): (r: Result<Keys>)
    requires CheckReady(keys)
    ensures r.Err? <==> |keys["generation"].artifacts| == 0
    ensures r.Ok? ==>
      r.value.Keys == {"generation", "question", "error", "prefix", "imports", "iteration", "code"}
    ensures r.Ok? ==>
      && r.value["generation"] == keys["generation"]
      && r.value["iteration"] == keys["iteration"]
      && r.value["question"] == keys["question"]
    ensures r.Ok? ==>
      var a := keys["generation"].artifacts[0];
      && r.value["prefix"] == Text(a.prefix)
      && r.value["imports"] == Text(a.imports)
      && r.value["code"] == Text(a.code)
    ensures r.Ok? ==>
      var a := keys["generation"].artifacts[0];
      && r.value["error"].Text?
      && (r.value["error"].text == NoError <==> env.exec(CodeBlock(a)).Completed?)
      && (env.exec(CodeBlock(a)).Raised? ==>
            r.value["error"].text == FailureText(PriorError(keys), env.exec(CodeBlock(a)).message))
  {
    var artifacts := keys["generation"].artifacts;
    if |artifacts| == 0 then Err(IndexError)
    else
      var a := artifacts[0];
      var error := Verdict(env.exec(CodeBlock(a)), PriorError(keys));
      Ok(map[
        "generation" := keys["generation"],
        "question" := keys["question"],
        "error" := Text(error),
        "prefix" := Text(a.prefix),
        "imports" := Text(a.imports),
        "iteration" := keys["iteration"],
        "code" := Text(a.code)])
  }

  // ---------------------------------------------------------------------
  // finish

  /** Python's `str.join`: the parts with `sep` between consecutive ones. */
  function Join(sep: string, parts: seq<string>): string
  {
    if |parts| == 0 then ""
    else if |parts| == 1 then parts[0]
    else parts[0] + sep + Join(sep, parts[1..])
  }

  /** The final response for an artifact: its three fields joined by line breaks. */
  function Response(a: Artifact): (r: string)
    ensures r == a.prefix + "\n" + a.imports + "\n" + a.code
  {
    var parts := [a.prefix, a.imports, a.code];
    assert parts[1..] == [a.imports, a.code] && parts[1..][1..] == [a.code];
    assert Join("\n", parts[1..]) == a.imports + "\n" + a.code;
    Join("\n", parts)
  }

  /** `extract_response`: the response of the first artifact of the
      generation. Raises `IndexError` on an empty generation list. */
  function ExtractResponse(keys: Keys): (r: Result<string>)
    requires "generation" in keys && keys["generation"].Generation?
    ensures r.Err? <==> |keys["generation"].artifacts| == 0
    ensures r.Ok? ==> r.value == Response(keys["generation"].artifacts[0])
  {
    var artifacts := keys["generation"].artifacts;
    if |artifacts| == 0 then Err(IndexError) else Ok(Response(artifacts[0]))
  }

  /** The `finish` node: its result holds the response and nothing else. */
  function Finish(keys: Keys): (r: Result<Keys>)
    requires "generation" in keys && keys["generation"].Generation?
    ensures r.Err? <==> |keys["generation"].artifacts| == 0
    ensures r.Ok? ==> r.value.Keys == {"response"}
    ensures r.Ok? ==> r.value["response"] == Text(Response(keys["generation"].artifacts[0]))
  {
    match ExtractResponse(keys)
    case Err(e) => Err(e)
    case Ok(response) => Ok(map["response" := Text(response)])
  }

  // ---------------------------------------------------------------------
  // reading the response back

  /** The text before the first line break of `s`, and the text after it. */
  function SplitLine(s: string): (r: (string, string))
    ensures '\n' !in r.0
    ensures '\n' in s ==> s == r.0 + "\n" + r.1
    ensures '\n' !in s ==> r == (s, "")
  {
    if |s| == 0 then ("", "")
    else if s[0] == '\n' then ("", s[1..])
    else
      var (line, rest) := SplitLine(s[1..]);
      assert s == [s[0]] + s[1..];
      ([s[0]] + line, rest)
  }

  /** Splits a response at its first two line breaks. */
  function SplitResponse(response: string): Artifact
  {
    var (prefix, rest) := SplitLine(response);
    var (imports, code) := SplitLine(rest);
    Artifact(prefix, imports, code)
  }

  /** Splitting a line break-free head off a joined text returns the head and the tail. */
  lemma {:induction false} SplitLineOfJoin(head: string, tail: string)
    requires '\n' !in head
    ensures SplitLine(head + "\n" + tail) == (head, tail)
  {
    if |head| > 0 {
      var joined := head + "\n" + tail;
      assert joined[0] == head[0] && joined[1..] == head[1..] + "\n" + tail;
      assert head[0] in head;
      SplitLineOfJoin(head[1..], tail);
      assert [head[0]] + head[1..] == head;
    } else {
      assert head + "\n" + tail == "\n" + tail;
    }
  }

  /** The response determines the artifact when prefix and imports are single
      lines: splitting it at its first two line breaks gives the artifact back. */
  lemma ResponseRoundTrip(a: Artifact)
    requires '\n' !in a.prefix && '\n' !in a.imports
    ensures SplitResponse(Response(a)) == a
  {
    var response := Response(a);
    assert response == a.prefix + "\n" + (a.imports + "\n" + a.code);
    SplitLineOfJoin(a.prefix, a.imports + "\n" + a.code);
    SplitLineOfJoin(a.imports, a.code);
  }

  /** With a line break in the prefix, two different artifacts give the same
      response, so `finish` loses information. */
  lemma ResponseAmbiguous()
    ensures Artifact("p\nq", "i", "c") != Artifact("p", "q\ni", "c")
    ensures Response(Artifact("p\nq", "i", "c")) == Response(Artifact("p", "q\ni", "c"))
  {
  }

  // ---------------------------------------------------------------------
  // the node map

  /** What each node reads without guarding. */
  predicate Ready(n: Node, keys: Keys)
  {
    match n
    case Generating => GenerateReady(keys)
    case CheckingImports | CheckingExecution => CheckReady(keys)
    case Finishing => "generation" in keys && keys["generation"].Generation?
  }

  /** Runs the function registered for a node. A check node's result always
      carries the "error" and "iteration" keys the routing rules read. */
  function RunNode(n: Node, keys: Keys, env: Env): (r: Result<Keys>)
    requires Ready(n, keys)
    ensures r.Ok? && (n == CheckingImports || n == CheckingExecution) ==>
      && "error" in r.value && r.value["error"].Text?
      && "iteration" in r.value && r.value["iteration"] == keys["iteration"]
  {
    match n
    case Generating => Generate(keys, env)
    case CheckingImports => CheckCodeImports(keys, env)
    case CheckingExecution => CheckCodeExecution(keys, env)
    case Finishing => Finish(keys)
  }
}
