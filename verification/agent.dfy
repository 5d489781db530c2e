/**
 The compiled graph: entry point `generate`, finish point `finish`, and the
 state `input_` starts a session with (src/agent.py, src/app.py). `Run`
 follows the edges of src/edges.py from node to node, each node's returned
 dictionary replacing the previous one, and records every visit.
 */
module Agent {
  import opened State
  import opened Nodes
  import opened Edges

  /** `input_`: a session starts with the question and iteration 0. */
  function Input(question: string): (keys: Keys)
    ensures keys.Keys == {"question", "iteration"}
    ensures keys["question"] == Text(question) && keys["iteration"] == Number(0)
  {
    map["question" := Text(question), "iteration" := Number(0)]
  }

  /** A node about to run on a dictionary. */
  datatype Visit = Visit(node: Node, keys: Keys)

  /** A session ends at `finish` with its output, or with an exception
      escaping a node. The trace lists every visit, the last one included. */
  datatype Outcome =
    | Finished(trace: seq<Visit>, output: Keys)
    | Aborted(trace: seq<Visit>, raised: Exception)

  function Last(trace: seq<Visit>): Visit
    requires |trace| > 0
  {
    trace[|trace| - 1]
  }

  /** The integer iteration of a dictionary, if it has one. */
  function IterationOf(keys: Keys): Option<int>
  {
    if "iteration" in keys && keys["iteration"].Number? then Some(keys["iteration"].number) else None
  }

  /** The first artifact of a dictionary's generation, if it has one. */
  function CurrentArtifact(keys: Keys): Option<Artifact>
  {
    if "generation" in keys && keys["generation"].Generation? && |keys["generation"].artifacts| > 0
    then Some(keys["generation"].artifacts[0])
    else None
  }

  /** What a node reads, plus an integer iteration before `finish`. */
  predicate Shape(node: Node, keys: Keys)
  {
    && Ready(node, keys)
    && (node != Finishing ==> "iteration" in keys && keys["iteration"].Number?)
  }

  /** The visit that follows `v` when its node returns normally. */
  predicate Transition(env: Env, v: Visit, w: Visit)
  {
    && Shape(v.node, v.keys)
    && v.node != Finishing
    && RunNode(v.node, v.keys, env).Ok?
    && var out := RunNode(v.node, v.keys, env).value;
       w == Visit(Successor(v.node, out), out)
  }

  /** Each visit of the trace is the successor of the one before. */
  predicate Follows(env: Env, trace: seq<Visit>)
  {
    forall i, j :: 0 <= i < |trace| && j == i + 1 && j < |trace| ==> Transition(env, trace[i], trace[j])
  }

  /** What follows the first visit of a valid trace is valid. */
  lemma FollowsTail(env: Env, trace: seq<Visit>)
    requires |trace| > 0 && Follows(env, trace)
    ensures Follows(env, trace[1..])
  {
  }

  /** How many more `generate` calls the routing rules allow from a visit:
      a check may lead back to `generate` only while the iteration is below
      3, and `generate` runs once more whatever the iteration. */
  function GenerationsLeft(node: Node, keys: Keys): nat
    requires Shape(node, keys)
  {
    if node == Finishing then 0
    else
      var it := keys["iteration"].number;
      if it < MaxIterations then MaxIterations - it
      else if node == Generating then 1
      else 0
  }

  /** Orders the nodes of one attempt: imports check, execution check, then
      the next `generate`. */
  function Rank(node: Node): nat
  {
    match node
    case CheckingImports => 2
    case CheckingExecution => 1
    case Generating => 0
    case Finishing => 0
  }

  /** Runs the graph from a visit until `finish` returns or a node raises. */
  function Run(node: Node, keys: Keys, env: Env): (o: Outcome)
    requires Shape(node, keys)
    ensures |o.trace| > 0 && o.trace[0] == Visit(node, keys)
    ensures Follows(env, o.trace)
    ensures Shape(Last(o.trace).node, Last(o.trace).keys)
    ensures o.Finished? ==>
      Last(o.trace).node == Finishing && Finish(Last(o.trace).keys) == Ok(o.output)
    ensures o.Aborted? ==>
      RunNode(Last(o.trace).node, Last(o.trace).keys, env) == Err(o.raised)
    decreases GenerationsLeft(node, keys), Rank(node)
  {
    match RunNode(node, keys, env)
    case Err(e) => Aborted([Visit(node, keys)], e)
    case Ok(out) =>
      if node == Finishing then Finished([Visit(node, keys)], out)
      else
        StepProgresses(node, keys, env);
        var rest := Run(Successor(node, out), out, env);
        FollowsCons(env, Visit(node, keys), rest.trace);
        var trace := [Visit(node, keys)] + rest.trace;
        match rest
        case Finished(_, output) => Finished(trace, output)
        case Aborted(_, raised) => Aborted(trace, raised)
  }

  /** A node that returns normally hands its successor what that successor
      reads, and the step lowers the number of `generate` calls left, or
      keeps it and moves down the order of one attempt. */
  lemma StepProgresses(node: Node, keys: Keys, env: Env)
    requires Shape(node, keys) && node != Finishing
    requires RunNode(node, keys, env).Ok?
    ensures var out := RunNode(node, keys, env).value;
      var next := Successor(node, out);
      && Shape(next, out)
      && (|| GenerationsLeft(next, out) < GenerationsLeft(node, keys)
          || (GenerationsLeft(next, out) == GenerationsLeft(node, keys) && Rank(next) < Rank(node)))
  {
  }

  /** A valid step in front of a valid trace gives a valid trace. */
  lemma FollowsCons(env: Env, v: Visit, rest: seq<Visit>)
    requires |rest| > 0 && Transition(env, v, rest[0]) && Follows(env, rest)
    ensures Follows(env, [v] + rest) && Last([v] + rest) == Last(rest)
  {
    assert ([v] + rest)[1..] == rest;
  }

  /** The number of `generate` calls a visit makes: one for `generate`,
      none for the others. */
  function Step(v: Visit): nat
  {
    if v.node == Generating then 1 else 0
  }

  /** The number of `generate` visits in a trace. */
  function Generations(trace: seq<Visit>): nat
  {
    if |trace| == 0 then 0 else Step(trace[0]) + Generations(trace[1..])
  }

  lemma GenerationsCons(v: Visit, trace: seq<Visit>)
    ensures Generations([v] + trace) == Step(v) + Generations(trace)
  {
  }

  /** A run calls `generate` no more often than the routing rules allow. */
  lemma {:induction false} GenerationsBounded(node: Node, keys: Keys, env: Env)
    requires Shape(node, keys)
    ensures Generations(Run(node, keys, env).trace) <= GenerationsLeft(node, keys)
    decreases GenerationsLeft(node, keys), Rank(node)
  {
    var o := Run(node, keys, env);
    match RunNode(node, keys, env)
    case Err(e) =>
      assert o.trace == [Visit(node, keys)];
      GenerationsCons(Visit(node, keys), []);
    case Ok(out) =>
      if node == Finishing {
        assert o.trace == [Visit(node, keys)];
        GenerationsCons(Visit(node, keys), []);
      } else {
        var next := Successor(node, out);
        var rest := Run(next, out, env);
        assert o.trace == [Visit(node, keys)] + rest.trace;
        GenerationsBounded(next, out, env);
        GenerationsCons(Visit(node, keys), rest.trace);
      }
  }

  /** A run makes at most three visits per `generate` call left, plus the
      checks still due in the current attempt, plus `finish`. */
  lemma {:induction false} VisitsBounded(node: Node, keys: Keys, env: Env)
    requires Shape(node, keys)
    ensures |Run(node, keys, env).trace| <= 3 * GenerationsLeft(node, keys) + Rank(node) + 1
    decreases GenerationsLeft(node, keys), Rank(node)
  {
    var o := Run(node, keys, env);
    if node != Finishing && RunNode(node, keys, env).Ok? {
      var out := RunNode(node, keys, env).value;
      var next := Successor(node, out);
      StepProgresses(node, keys, env);
      VisitsBounded(next, out, env);
      assert o.trace == [Visit(node, keys)] + Run(next, out, env).trace;
    } else {
      assert o.trace == [Visit(node, keys)];
    }
  }

  /** `generate` raises the iteration by one; the checks keep it. */
  lemma StepIteration(node: Node, keys: Keys, env: Env)
    requires Shape(node, keys) && node != Finishing
    requires RunNode(node, keys, env).Ok?
    ensures IterationOf(RunNode(node, keys, env).value)
      == Some(keys["iteration"].number + (if node == Generating then 1 else 0))
  {
  }

  lemma {:induction false} GenerationsSnoc(trace: seq<Visit>, v: Visit)
    ensures Generations(trace + [v]) == Generations(trace) + Step(v)
    decreases |trace|
  {
    if |trace| == 0 {
      assert [] + [v] == [v];
    } else {
      assert (trace + [v])[1..] == trace[1..] + [v];
      GenerationsSnoc(trace[1..], v);
    }
  }

  /** The closing `finish` visit adds no `generate` call to a trace. */
  lemma GenerationsFinished(trace: seq<Visit>)
    requires |trace| > 0 && Last(trace).node == Finishing
    ensures Generations(trace) == Generations(trace[..|trace| - 1])
  {
    var n := |trace|;
    assert trace[..n - 1] + [Last(trace)] == trace;
    GenerationsSnoc(trace[..n - 1], Last(trace));
  }

  /** Each visit but the last has an iteration, and the next visit's
      iteration is that plus the visit's `generate` calls. */
  predicate Counted(trace: seq<Visit>)
  {
    || |trace| <= 1
    || (&& IterationOf(trace[0].keys).Some?
        && IterationOf(trace[1].keys) == Some(IterationOf(trace[0].keys).value + Step(trace[0]))
        && Counted(trace[1..]))
  }

  /** Every valid trace counts its `generate` calls in the iteration. */
  lemma {:induction false} FollowsCounted(env: Env, trace: seq<Visit>)
    requires Follows(env, trace)
    ensures Counted(trace)
    decreases |trace|
  {
    if |trace| > 1 {
      var v, rest := trace[0], trace[1..];
      assert Transition(env, v, trace[1]);
      StepIteration(v.node, v.keys, env);
      FollowsTail(env, trace);
      FollowsCounted(env, rest);
    }
  }

  /** Along a counted trace the last visit carries the first visit's
      iteration plus the number of `generate` visits before it. */
  lemma {:induction false} CountedIteration(trace: seq<Visit>)
    requires |trace| > 0 && Counted(trace) && IterationOf(trace[0].keys).Some?
    ensures IterationOf(Last(trace).keys)
      == Some(IterationOf(trace[0].keys).value + Generations(trace[..|trace| - 1]))
    decreases |trace|
  {
    var n := |trace|;
    if n == 1 {
      assert trace[..0] == [];
    } else {
      var rest := trace[1..];
      CountedIteration(rest);
      assert Last(rest) == Last(trace);
      assert trace[..n - 1][1..] == rest[..n - 2];
    }
  }

  /** A finished outcome from `keys` ends with the iteration of `keys` plus
      the number of its `generate` visits. */
  predicate CountsIterations(o: Outcome, keys: Keys)
  {
    o.Finished? && |o.trace| > 0 && IterationOf(keys).Some? ==>
      IterationOf(Last(o.trace).keys) == Some(IterationOf(keys).value + Generations(o.trace))
  }

  /** Any outcome whose trace from `keys` is counted and, when finished,
      closes with `finish` counts its `generate` calls in the iteration. */
  lemma OutcomeCounts(o: Outcome, keys: Keys)
    requires |o.trace| > 0 && o.trace[0].keys == keys && Counted(o.trace)
    requires o.Finished? ==> Last(o.trace).node == Finishing
    ensures CountsIterations(o, keys)
  {
    if o.Finished? && IterationOf(keys).Some? {
      CountedIteration(o.trace);
      GenerationsFinished(o.trace);
    }
  }

  /** The iteration counts `generate` calls: a run that finishes ends with
      the starting iteration plus the number of `generate` visits. */
  lemma IterationCounts(node: Node, keys: Keys, env: Env)
    requires Shape(node, keys)
    ensures CountsIterations(Run(node, keys, env), keys)
  {
    FollowsCounted(env, Run(node, keys, env).trace);
    OutcomeCounts(Run(node, keys, env), keys);
  }

  // ---------------------------------------------------------------------
  // the states a session reaches

  /** The error text one generate-check cycle leaves for an artifact: the
      sentinel if both checks pass; the imports failure alone; or the
      sentinel of the passing imports check, the separator and the execution
      failure. Earlier cycles contribute nothing. */
  function CycleError(exec: string -> ExecOutcome, a: Artifact): (e: string)
    ensures e == NoError <==> exec(a.imports).Completed? && exec(CodeBlock(a)).Completed?
  {
    match exec(a.imports)
    case Raised(m) => ErrorPrefix + m
    case Completed =>
      match exec(CodeBlock(a))
      case Completed => NoError
      case Raised(m) => NoError + Separator + ErrorPrefix + m
  }

  /** The dictionary's generation is one the model chain returned. */
  ghost predicate Produced(env: Env, keys: Keys)
  {
    "generation" in keys && exists r :: keys["generation"] == Generation(env.llm(r))
  }

  /** The error in the dictionary is the one the cycle of its current
      artifact left. */
  predicate CycleRecorded(env: Env, keys: Keys)
  {
    && CurrentArtifact(keys).Some?
    && "error" in keys
    && keys["error"] == Text(CycleError(env.exec, CurrentArtifact(keys).value))
  }

  /** The visits a session makes from `Input`, node by node. */
  ghost predicate Reachable(env: Env, v: Visit)
  {
    && Shape(v.node, v.keys)
    && IterationOf(v.keys).Some?
    && var it := IterationOf(v.keys).value;
    match v.node
    case Generating =>
      && 0 <= it < MaxIterations
      && (it == 0 <==> "error" !in v.keys)
      && ("error" in v.keys ==>
            Produced(env, v.keys) && CycleRecorded(env, v.keys) && !Passed(v.keys))
    case CheckingImports =>
      && 1 <= it <= MaxIterations
      && "error" !in v.keys
      && Produced(env, v.keys)
    case CheckingExecution =>
      && 1 <= it <= MaxIterations
      && Produced(env, v.keys)
      && "error" in v.keys && Passed(v.keys)
      && CurrentArtifact(v.keys).Some?
      && env.exec(CurrentArtifact(v.keys).value.imports).Completed?
    case Finishing =>
      && 1 <= it <= MaxIterations
      && Produced(env, v.keys)
      && CycleRecorded(env, v.keys)
      && (!Passed(v.keys) ==> it == MaxIterations)
  }

  ghost predicate AllReachable(env: Env, trace: seq<Visit>)
  {
    forall i :: 0 <= i < |trace| ==> Reachable(env, trace[i])
  }

  /** A session starts in a reachable visit. */
  lemma InputReachable(question: string, env: Env)
    ensures Reachable(env, Visit(Generating, Input(question)))
  {
  }

  /** Every step of the graph keeps a visit reachable. */
  lemma StepKeepsReachable(env: Env, v: Visit)
    requires Reachable(env, v) && v.node != Finishing
    requires RunNode(v.node, v.keys, env).Ok?
    ensures var out := RunNode(v.node, v.keys, env).value;
      Reachable(env, Visit(Successor(v.node, out), out))
  {
    var out := RunNode(v.node, v.keys, env).value;
    var next := Successor(v.node, out);
    match v.node
    case Generating =>
      var request := Prompt(v.keys, env.context).value;
      assert out["generation"] == Generation(env.llm(request));
      assert Produced(env, out);
    case CheckingImports =>
      var a := CurrentArtifact(v.keys).value;
      assert out["generation"] == v.keys["generation"];
      assert CurrentArtifact(out) == Some(a);
      if env.exec(a.imports).Raised? {
        assert out["error"] == Text(ErrorPrefix + env.exec(a.imports).message);
        assert CycleRecorded(env, out);
      }
    case CheckingExecution =>
      var a := CurrentArtifact(v.keys).value;
      assert out["generation"] == v.keys["generation"];
      assert CurrentArtifact(out) == Some(a);
      assert PriorError(v.keys) == Some(NoError);
      assert CycleRecorded(env, out);
  }

  /** Every visit of a run from a reachable visit is reachable. */
  lemma {:induction false} RunStaysReachable(env: Env, v: Visit)
    requires Reachable(env, v)
    ensures AllReachable(env, Run(v.node, v.keys, env).trace)
    decreases GenerationsLeft(v.node, v.keys), Rank(v.node)
  {
    var o := Run(v.node, v.keys, env);
    if v.node != Finishing && RunNode(v.node, v.keys, env).Ok? {
      var out := RunNode(v.node, v.keys, env).value;
      var w := Visit(Successor(v.node, out), out);
      StepKeepsReachable(env, v);
      RunStaysReachable(env, w);
      var rest := Run(w.node, w.keys, env);
      assert o.trace == [v] + rest.trace;
      AllReachableCons(env, v, rest.trace, o.trace);
    } else {
      assert o.trace == [v];
    }
  }

  lemma AllReachableCons(env: Env, v: Visit, rest: seq<Visit>, trace: seq<Visit>)
    requires trace == [v] + rest
    requires Reachable(env, v) && AllReachable(env, rest)
    ensures AllReachable(env, trace)
  {
  }

  // ---------------------------------------------------------------------
  // sessions

  /** A session calls `generate` at most three times and makes at most ten
      visits. If it finishes, it
      does so with an iteration between 1 and 3, a response made of the
      current artifact, the error of that artifact's cycle only, and an
      iteration equal to the number of `generate` calls. With a model chain
      that always returns, as the oracle does, the only way it can fail is
      an empty generation list, first indexed by the imports check. */
  lemma Session(question: string, env: Env)
    ensures var o := Run(Generating, Input(question), env);
      && Generations(o.trace) <= MaxIterations
      && |o.trace| <= 10
      && (o.Finished? ==>
            var last := Last(o.trace).keys;
            && IterationOf(last).Some?
            && 1 <= IterationOf(last).value <= MaxIterations
            && IterationOf(last) == Some(Generations(o.trace))
            && CurrentArtifact(last).Some?
            && o.output == map["response" := Text(Response(CurrentArtifact(last).value))]
            && "error" in last
            && last["error"] == Text(CycleError(env.exec, CurrentArtifact(last).value)))
      && (o.Aborted? ==>
            && Last(o.trace).node == CheckingImports
            && o.raised == IndexError
            && CurrentArtifact(Last(o.trace).keys).None?)
  {
    var start := Visit(Generating, Input(question));
    var o := Run(Generating, Input(question), env);
    assert Generations(o.trace) <= MaxIterations by {
      GenerationsBounded(Generating, Input(question), env);
    }
    assert |o.trace| <= 10 by {
      VisitsBounded(Generating, Input(question), env);
    }
    assert o.Finished? ==> IterationOf(Last(o.trace).keys) == Some(Generations(o.trace)) by {
      IterationCounts(Generating, Input(question), env);
    }
    assert Reachable(env, Last(o.trace)) by {
      InputReachable(question, env);
      RunStaysReachable(env, start);
    }
  }

  /** When the model chain never returns an empty list, a session always
      reaches `finish`. Both oracles are total functions here: a model call
      or an `exec` of generated code that never returns would hang the
      session instead. */
  lemma SessionFinishes(question: string, env: Env)
    requires forall r :: |env.llm(r)| > 0
    ensures Run(Generating, Input(question), env).Finished?
  {
    var o := Run(Generating, Input(question), env);
    Session(question, env);
    InputReachable(question, env);
    RunStaysReachable(env, Visit(Generating, Input(question)));
    var last := Last(o.trace);
    assert Reachable(env, last);
    var r :| last.keys["generation"] == Generation(env.llm(r));
    assert CurrentArtifact(last.keys).Some?;
  }

  /** If both checks pass on the first artifact, the session finishes after
      one `generate` call, with iteration 1, that artifact current, the
      "None" sentinel as the recorded error, and that artifact's response. */
  lemma FirstAttemptPasses(question: string, env: Env)
    requires |env.llm(Fresh(env.context, Text(question)))| > 0
    requires var a := env.llm(Fresh(env.context, Text(question)))[0];
      env.exec(a.imports).Completed? && env.exec(CodeBlock(a)).Completed?
    ensures var o := Run(Generating, Input(question), env);
      var a := env.llm(Fresh(env.context, Text(question)))[0];
      && o.Finished?
      && |o.trace| == 4
      && Generations(o.trace) == 1
      && IterationOf(Last(o.trace).keys) == Some(1)
      && CurrentArtifact(Last(o.trace).keys) == Some(a)
      && "error" in Last(o.trace).keys && Last(o.trace).keys["error"] == Text(NoError)
      && o.output == map["response" := Text(Response(a))]
  {
    var arts := env.llm(Fresh(env.context, Text(question)));
    var k0 := Input(question);
    var k1 := Generate(k0, env).value;
    assert k1["generation"] == Generation(arts);
    var k2 := CheckCodeImports(k1, env).value;
    assert Successor(Generating, k1) == CheckingImports;
    assert Successor(CheckingImports, k2) == CheckingExecution;
    var k3 := CheckCodeExecution(k2, env).value;
    assert Successor(CheckingExecution, k3) == Finishing;
    var o3 := Run(Finishing, k3, env);
    assert o3 == Finished([Visit(Finishing, k3)], Finish(k3).value);
    var o2 := Run(CheckingExecution, k2, env);
    assert o2.trace == [Visit(CheckingExecution, k2)] + o3.trace;
    var o1 := Run(CheckingImports, k1, env);
    assert o1.trace == [Visit(CheckingImports, k1)] + o2.trace;
    var o := Run(Generating, k0, env);
    assert o.trace == [Visit(Generating, k0)] + o1.trace;
    GenerationsCons(Visit(Finishing, k3), []);
    GenerationsCons(Visit(CheckingExecution, k2), o3.trace);
    GenerationsCons(Visit(CheckingImports, k1), o2.trace);
    GenerationsCons(Visit(Generating, k0), o1.trace);
  }

  /** The model chain only ever returns artifacts that fail a check. */
  ghost predicate AlwaysFails(env: Env)
  {
    forall r :: |env.llm(r)| > 0 && CycleError(env.exec, env.llm(r)[0]) != NoError
  }

  /** When every artifact fails, a step from a reachable visit returns, keeps
      the session reachable, and uses up exactly the `generate` call it
      makes: `finish` follows only once none are left. */
  lemma FailingStep(env: Env, v: Visit)
    requires Reachable(env, v) && v.node != Finishing
    requires AlwaysFails(env)
    ensures RunNode(v.node, v.keys, env).Ok?
    ensures var out := RunNode(v.node, v.keys, env).value;
      var w := Visit(Successor(v.node, out), out);
      && Reachable(env, w)
      && (w.node == Finishing ==> GenerationsLeft(v.node, v.keys) == Step(v))
      && (w.node != Finishing ==> GenerationsLeft(w.node, w.keys) + Step(v) == GenerationsLeft(v.node, v.keys))
  {
    if v.node != Generating {
      var r :| v.keys["generation"] == Generation(env.llm(r));
      assert CurrentArtifact(v.keys) == Some(env.llm(r)[0]);
    }
    StepKeepsReachable(env, v);
  }

  /** When every artifact fails, a run from a reachable visit finishes after
      using up every `generate` call the routing rules allow. */
  lemma {:induction false} FailuresUseEveryAttempt(env: Env, v: Visit)
    requires Reachable(env, v) && v.node != Finishing
    requires AlwaysFails(env)
    ensures var o := Run(v.node, v.keys, env);
      o.Finished? && Generations(o.trace) == GenerationsLeft(v.node, v.keys)
    decreases GenerationsLeft(v.node, v.keys), Rank(v.node)
  {
    var o := Run(v.node, v.keys, env);
    FailingStep(env, v);
    var out := RunNode(v.node, v.keys, env).value;
    var w := Visit(Successor(v.node, out), out);
    var rest := Run(w.node, w.keys, env);
    assert rest.Finished? && Generations(rest.trace) + Step(v) == GenerationsLeft(v.node, v.keys) by {
      if w.node == Finishing {
        assert rest.trace == [w];
        GenerationsCons(w, []);
      } else {
        FailuresUseEveryAttempt(env, w);
      }
    }
    assert o.trace == [v] + rest.trace && o.Finished? == rest.Finished?;
    GenerationsCons(v, rest.trace);
  }

  /** When every artifact fails, a session calls `generate` exactly three
      times and finishes at iteration 3. The error text left at the end is
      that of the third artifact alone: failures do not accumulate across
      attempts, because `generate` drops the "error" key. */
  lemma SessionExhausted(question: string, env: Env)
    requires AlwaysFails(env)
    ensures var o := Run(Generating, Input(question), env);
      && o.Finished?
      && Generations(o.trace) == MaxIterations
      && IterationOf(Last(o.trace).keys) == Some(MaxIterations)
      && CurrentArtifact(Last(o.trace).keys).Some?
      && "error" in Last(o.trace).keys
      && Last(o.trace).keys["error"] == Text(CycleError(env.exec, CurrentArtifact(Last(o.trace).keys).value))
  {
    var start := Visit(Generating, Input(question));
    InputReachable(question, env);
    FailuresUseEveryAttempt(env, start);
    RunStaysReachable(env, start);
    var o := Run(Generating, Input(question), env);
    assert Reachable(env, Last(o.trace));
  }

  /** `check_code_execution` runs only right after a passing imports check. */
  lemma ExecutionFollowsPassingImports(node: Node, keys: Keys, env: Env)
    requires Shape(node, keys)
    ensures var o := Run(node, keys, env);
      forall i :: 0 < i < |o.trace| && o.trace[i].node == CheckingExecution ==>
        && o.trace[i - 1].node == CheckingImports
        && "error" in o.trace[i].keys && o.trace[i].keys["error"] == Text(NoError)
  {
    var o := Run(node, keys, env);
    forall i | 0 < i < |o.trace| && o.trace[i].node == CheckingExecution
      ensures o.trace[i - 1].node == CheckingImports
      ensures "error" in o.trace[i].keys && o.trace[i].keys["error"] == Text(NoError)
    {
      assert Transition(env, o.trace[i - 1], o.trace[i]);
    }
  }
}
