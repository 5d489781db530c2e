/**
 The routing rules of the code-generation graph (`CodeAssistantEdges` in
 src/edges.py): the unconditional edge out of `generate`, the two decision
 functions, and the label-to-node maps of the two conditional edges.
 */
module Edges {
  import opened State
  import opened Nodes

  /** The number of `generate` calls after which a failing check finishes. */
  const MaxIterations: int := 3

  /** Label-to-node map of the conditional edge out of `check_code_imports`. */
  const ImportsEdges: map<string, string> := map[
    "generate" := "generate",
    "check_code_execution" := "check_code_execution",
    "finish" := "finish"]

  /** Label-to-node map of the conditional edge out of `check_code_execution`. */
  const ExecutionEdges: map<string, string> := map[
    "finish" := "finish",
    "generate" := "generate"]

  /** What the decision functions read without guarding: the error, and the
      iteration, which is compared with 3 only when the error is not the
      sentinel. */
  predicate DecideReady(keys: Keys)
  {
    && "error" in keys
    && "iteration" in keys
    && (keys["error"] != Text(NoError) ==> keys["iteration"].Number?)
  }

  /** True when the check that produced `keys` passed. */
  predicate Passed(keys: Keys)
    requires "error" in keys
  {
    keys["error"] == Text(NoError)
  }

  /** True when a failure may no longer be retried. */
  predicate Exhausted(keys: Keys)
    requires "iteration" in keys && keys["iteration"].Number?
  {
    keys["iteration"].number >= MaxIterations
  }

  /** `decide_to_finish`: finish on a pass or once the attempts are used up,
      otherwise generate again. */
  function DecideToFinish(keys: Keys): (choice: string)
    requires DecideReady(keys)
    ensures choice in ExecutionEdges
    ensures choice == "finish" <==> Passed(keys) || Exhausted(keys)
    ensures choice == "generate" <==> !Passed(keys) && !Exhausted(keys)
  {
    if keys["error"] == Text(NoError) then "finish"
    else if keys["iteration"].number >= 3 then "finish"
    else "generate"
  }

  /** `decide_to_check_code_exec`: go on to the execution check on a pass,
      whatever the iteration; on a failure finish once the attempts are used
      up, otherwise generate again. */
  function DecideToCheckCodeExec(keys: Keys): (choice: string)
    requires DecideReady(keys)
    ensures choice in ImportsEdges
    ensures choice == "check_code_execution" <==> Passed(keys)
    ensures choice == "finish" <==> !Passed(keys) && Exhausted(keys)
    ensures choice == "generate" <==> !Passed(keys) && !Exhausted(keys)
  {
    if keys["error"] == Text(NoError) then "check_code_execution"
    else if keys["iteration"].number >= 3 then "finish"
    else "generate"
  }

  /** The node the graph runs after `node` returned `out`: `generate` always
      goes to `check_code_imports`; the check nodes follow their decision
      function through their label-to-node map. `finish` is the finish point
      and has no successor. */
  function Successor(node: Node, out: Keys): (next: Node)
    requires node != Finishing
    requires node != Generating ==> DecideReady(out)
    ensures node == Generating ==> next == CheckingImports
    ensures next == CheckingImports <==> node == Generating
    ensures next == CheckingExecution <==> node == CheckingImports && Passed(out)
    ensures next == Generating <==> node != Generating && !Passed(out) && !Exhausted(out)
    ensures next == Finishing <==>
      || (node == CheckingExecution && Passed(out))
      || (node != Generating && !Passed(out) && Exhausted(out))
  {
    match node
    case Generating => CheckingImports
    case CheckingImports => NodeNamed(ImportsEdges[DecideToCheckCodeExec(out)]).value
    case CheckingExecution => NodeNamed(ExecutionEdges[DecideToFinish(out)]).value
  }
}
