/**
 The data threaded through the code-generation agent's graph: the `keys`
 dictionary of a `GraphState`, the code artifact the language model returns,
 and the two foreign collaborators (the model chain and Python's `exec`),
 which the model treats as oracles.
 */
module State {

  /** One structured answer of the language model: a description, the import
      statements, and the code body without imports. */
  datatype Artifact = Artifact(prefix: string, imports: string, code: string)

  /** The values that occur under the keys of the state dictionary. The
      generation is the list of artifacts returned by the tool parser. */
  datatype Value =
    | Text(text: string)
    | Number(number: int)
    | Generation(artifacts: seq<Artifact>)

  /** The `keys` dictionary of a `GraphState`. No reducer is declared for it,
      so the dictionary a node returns replaces the previous one. */
  type Keys = map<string, Value>

  /** What `exec` of a source text does: completes, or raises an exception
      whose message is `message`. */
  datatype ExecOutcome = Completed | Raised(message: string)

  /** The inputs the model chain is invoked with: the first attempt, or a
      re-try that also carries the previous artifact and the error text. */
  datatype Request =
    | Fresh(context: string, question: Value)
    | Retry(context: string, question: Value, previous: Artifact, error: Value)

  /** The collaborators of the nodes: the documentation context, the model
      chain (prompt, model, tool parser) and the code executor. */
  datatype Env = Env(
    context: string,
    llm: Request -> seq<Artifact>,
    exec: string -> ExecOutcome)

  /** The one exception a node can raise on inputs of the right shape:
      indexing an empty generation list. */
  datatype Exception = IndexError

  /** A node's return value or the exception that escapes it. */
  datatype Result<+T> = Ok(value: T) | Err(raised: Exception)

  datatype Option<+T> = None | Some(value: T)
}
