# Self-correcting code generation: the retry/validation loop

This project is a Dafny model of the control loop of a code-generation agent.
The agent asks a language model for a code artifact (a description, import
statements and a code body). It validates the artifact by executing the imports
and then imports plus code. On failure it feeds the error back to the model and
tries again, with at most three generations per session.

The loop is a graph of four nodes: `generate`, `check_code_imports`,
`check_code_execution` and `finish`. Each node maps the incoming `keys`
dictionary to the one it returns. The dictionary is modelled as
`map<string, Value>`. The state declares no reducer, so each returned
dictionary replaces the previous one. Two foreign collaborators are
parameters of an `Env` value:

- `llm: Request -> seq<Artifact>` stands for the prompt, model and tool-parser chain.
  A `Request` is `Fresh` or `Retry`; a `Retry` carries the previous artifact and the error.
  The parser returns a list, and the nodes use its first element.
- `exec: string -> ExecOutcome` stands for Python's `exec`. It either completes or raises an exception with a message.

Modules follow the source files:

- `State` (`state.dfy`) holds the dictionary, the artifact, the oracles and the result type.
- `Nodes` (`nodes.dfy`) models src/nodes.py: the four nodes, `extract_response` and the node names.
- `Edges` (`edges.dfy`) models src/edges.py: the two decision functions, the label-to-node maps and the successor relation.
- `Agent` (`agent.dfy`) covers the compiled graph of src/agent.py and the initial state of src/app.py. It contains the recursive `Run` and the session theorems.

Facts about the code that the model makes explicit:

- Error text does not build up across generations. `generate` returns a dictionary without `"error"` (src/nodes.py:166-172), so the error left at the end belongs to the last artifact alone (`Agent.SessionExhausted`).
- A passing check stores the literal `"None"`. An execution failure after a passing imports check therefore stores `"None"`, the separator line and the failure (`Agent.CycleError`).
- Within a session, the "prepend earlier error" branch of `check_code_imports` never fires. That node is only entered right after `generate`, which has just dropped `"error"` (`Agent.Reachable`, case `CheckingImports`).

## Model

| member | source | states |
|---|---|---|
| Nodes.Name | src/nodes.py:16-21 | every node is registered under one of the four listed names, and looking that name up gives the node back |
| Nodes.NodeNamed | src/nodes.py:30-35 | a name resolves to a node exactly when it is one of the four node names |
| Nodes.Prompt | src/nodes.py:102-163 | the re-try request is used iff the state has an `error` key; it carries the first previous artifact and that error; an empty previous generation raises IndexError |
| Nodes.Generate | src/nodes.py:165-172 | the result has exactly the keys generation, question and iteration, so `error` is dropped; the question is unchanged; the iteration goes up by one; the generation is the model's answer to the prompt |
| Nodes.FailureText | src/nodes.py:187-192 | failure text ends with "Execution error: " and the message, sits below any earlier error and the separator, and is never the "None" sentinel |
| Nodes.Verdict | src/nodes.py:184-196 | the stored error is "None" exactly when the executed text completed, so the sentinel is unambiguous |
| Nodes.CheckCodeImports | src/nodes.py:174-205 | runs the imports of the first artifact; keeps generation, iteration and question; the result has exactly four keys; error is "None" iff the imports ran, otherwise the failure below any earlier error; IndexError iff the generation list is empty |
| Nodes.CodeBlock | src/nodes.py:215 | the executed block is the imports, one line break, then the code |
| Nodes.CheckCodeExecution | src/nodes.py:207-245 | runs imports + "\n" + code; keeps generation, iteration and question; copies prefix, imports and code into keys of their own; error is "None" iff the block ran, otherwise the failure below the prior error; IndexError iff the generation list is empty |
| Nodes.Response | src/nodes.py:279 | the response is prefix, imports and code joined by line breaks |
| Nodes.ExtractResponse | src/nodes.py:262-279 | the response is built from the first artifact of the generation; IndexError iff the list is empty |
| Nodes.Finish | src/nodes.py:247-259 | the output holds only `response`, the joined text of the current artifact |
| Nodes.ResponseRoundTrip | src/nodes.py:279 | when prefix and imports are single lines, splitting the response at its first two line breaks gives the artifact back |
| Nodes.ResponseAmbiguous | src/nodes.py:279 | with a line break in the prefix, two different artifacts give the same response |
| Nodes.RunNode | src/nodes.py:30-35 | the result of a check node always carries a textual `error` and the unchanged `iteration`, the two keys the routing rules read |
| Edges.DecideToFinish | src/edges.py:40-64 | returns a label of its edge map; "finish" iff the check passed or the iteration is at least 3, otherwise "generate" |
| Edges.DecideToCheckCodeExec | src/edges.py:66-82 | returns a label of its edge map; "check_code_execution" iff the check passed, whatever the iteration; on failure "finish" iff the iteration is at least 3, otherwise "generate" |
| Edges.Successor | src/edges.py:16-34 | the edge table: generate always goes to the imports check; the execution check is next iff the imports check passed; generate is next iff a check failed below iteration 3; finish is next on an execution pass or a failure at iteration 3 or more |
| Agent.Input | src/app.py:25-31 | a session starts with exactly the question and iteration 0 |
| Agent.Run | src/agent.py:20-22 | the run starts at the given visit; each visit follows from the previous one through its node function and the edge table; a run ends at finish with finish's output, or at the node that raised |
| Agent.StepProgresses | src/edges.py:56-82 | each step hands its successor the keys it reads, and lowers the count of generate calls left or moves down within one attempt |
| Agent.GenerationsBounded | src/edges.py:56-82 | a run calls generate no more often than the iteration ceiling allows from its start |
| Agent.VisitsBounded | src/edges.py:16-34 | a run makes at most three visits per generate call left, plus the checks still due, plus finish |
| Agent.StepIteration | src/nodes.py:165-172 | generate raises the iteration by one; the two checks hand it on unchanged |
| Agent.IterationCounts | src/nodes.py:165 | a run that finishes ends with the starting iteration plus the number of generate calls it made |
| Agent.CycleError | src/nodes.py:184-233 | the error one cycle leaves is "None" exactly when both checks of the artifact pass |
| Agent.StepKeepsReachable | src/nodes.py:165-245 | every node step keeps a visit within the session invariant: iteration range, presence of `error`, and the error equal to the current artifact's cycle error |
| Agent.RunStaysReachable | src/agent.py:20-22 | every visit of a run from a reachable visit is reachable |
| Agent.Session | src/edges.py:56-82 | a session starting at generate with iteration 0 calls generate at most 3 times and makes at most 10 visits; if it finishes, the iteration is between 1 and 3, the output is the current artifact's response, and the last error is that artifact's cycle error; the iteration equals the number of generate calls; otherwise the imports check raised IndexError on an empty generation |
| Agent.SessionFinishes | src/agent.py:21-22 | if the model never returns an empty list, every session reaches finish |
| Agent.FirstAttemptPasses | src/edges.py:56-58 | if both checks pass on the first artifact, the session visits 4 nodes, calls generate once, and finishes at iteration 1 with that artifact current, the error "None", and that artifact's response |
| Agent.FailuresUseEveryAttempt | src/edges.py:77-79 | if every artifact fails a check, a run finishes after using every generate call the ceiling allows |
| Agent.SessionExhausted | src/edges.py:59-61 | if every artifact fails, a session calls generate exactly 3 times and finishes at iteration 3; the final error is the third artifact's cycle error alone |
| Agent.ExecutionFollowsPassingImports | src/edges.py:74-76 | the execution check is entered only right after an imports check whose error is "None" |

## Left out

- The prompt templates, the model client, tool binding, the tool parser and model-name selection (src/nodes.py:26-29, 56-163) are foreign library calls. They are the `llm` oracle. A re-try request carries the previous artifact itself instead of its Python `str()` rendering.
- Python `exec` (src/nodes.py:186, 220) is the `exec` oracle, which returns completion or an exception message. Its effects on the namespace and the host are not modelled. Exceptions that do not derive from `Exception` (such as `SystemExit`) escape the `except` clause in the source; the oracle cannot produce them.
- `print` logging throughout has no effect on the state.
- src/retrieval.py (crawling, HTML parsing, file writes) is not part of this model. The documentation context is an opaque string in `Env`.
- The web server, CORS and route plumbing of src/app.py are not modelled; only the initial state built by `input_` is.
- The LangGraph graph assembly (src/agent.py) and the node-presence `assert` loop in `connect` (src/edges.py:13-14) are replaced by the transition relation `Edges.Successor` and `Agent.Run`, with entry `generate` and finish point `finish`.
- The doubled `@staticmethod` (src/edges.py:37-39) is a decorator quirk with no behaviour.
- Dictionaries of the wrong shape are excluded by preconditions (`GenerateReady`, `CheckReady`, `DecideReady`). Examples are a missing key or a non-integer iteration. In the source these raise KeyError, TypeError or AttributeError, and nothing catches them. Within the model, the one exception the oracles can provoke is IndexError from an empty generation list, and it is modelled as `Err(IndexError)`.
- The model chain is assumed never to raise. In the source, `chain.invoke` (src/nodes.py:137-143, 163) can raise, for example an API error from the model client or a validation error from the tool parser, and that exception escapes `generate` and ends the session. Such sessions are not modelled, so `Agent.Session` and `Agent.SessionFinishes` hold only for a chain that returns.
- Both oracles are assumed to return. `exec` of generated code has no timeout in the source (src/nodes.py:186, 220), and the streamed model call (src/nodes.py:68-70, 137-143, 163) can block, so code that never terminates hangs the session. `Agent.Session` and `Agent.SessionFinishes` hold only for calls that return.
- Both oracles are deterministic functions: the same request always gives the same artifacts, and the same source text always gives the same `exec` outcome. The real streaming model call need not behave this way, and `exec` runs in the module's own globals (src/nodes.py:186, 220), so one call can affect the next. No proved property relies on two calls agreeing.
- The framework's own step limit is not modelled. `Agent.Session` shows a session makes at most ten visits.
