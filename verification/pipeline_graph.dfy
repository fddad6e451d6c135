/**
 * The task graph of `finance_pipeline_dag`: seven tasks wired by the chain
 * `start >> [prices, company, benchmarks] >> verify >> transform_dbt >> end`,
 * the arguments every task inherits, and Airflow's default trigger rule
 * (a task runs once all of its upstream tasks have succeeded) with retries.
 */
module PipelineGraph {

  datatype Task =
    | Start
    | ExtractPrices
    | ExtractCompanyInfo
    | ExtractBenchmarks
    | VerifyQuality
    | TransformDbt
    | End

  const AllTasks: set<Task> :=
    {Start, ExtractPrices, ExtractCompanyInfo, ExtractBenchmarks, VerifyQuality, TransformDbt, End}

  const Extracts: set<Task> := {ExtractPrices, ExtractCompanyInfo, ExtractBenchmarks}

  /** The operator kind: EmptyOperator markers never run code. */
  datatype Operator = EmptyOp | PythonOp | BashOp

  function OperatorOf(t: Task): Operator {
    match t
    case Start => EmptyOp
    case End => EmptyOp
    case TransformDbt => BashOp
    case _ => PythonOp
  }

  // ---------------------------------------------------------------------
  // default_args

  datatype DefaultArgs = DefaultArgs(
    owner: string,
    dependsOnPast: bool,
    emailOnFailure: bool,
    emailOnRetry: bool,
    retries: nat,
    retryDelayMinutes: nat)

  const PipelineDefaults: DefaultArgs := DefaultArgs("finance_team", false, false, false, 2, 5)

  /** No task overrides `default_args`, so each one inherits them unchanged. */
  function ArgsOf(t: Task): DefaultArgs {
    PipelineDefaults
  }

  /** Every task, the gate and the transform included, is retried twice, five minutes apart. */
  lemma EveryTaskRetriesTwice(t: Task)
    ensures ArgsOf(t).retries == 2 && ArgsOf(t).retryDelayMinutes == 5
    ensures !ArgsOf(t).dependsOnPast
  {
  }

  // ---------------------------------------------------------------------
  // The dependency chain

  /** The groups of the `>>` chain, left to right; a list stands for a set of parallel tasks. */
  const Chain: seq<set<Task>> :=
    [{Start}, {ExtractPrices, ExtractCompanyInfo, ExtractBenchmarks}, {VerifyQuality}, {TransformDbt}, {End}]

  /** `a >> b` adds an edge from every task of `a` to every task of `b`. */
  function ChainEdges(groups: seq<set<Task>>): set<(Task, Task)>
    decreases |groups|
  {
    if |groups| < 2 then {}
    else (set a, b | a in groups[0] && b in groups[1] :: (a, b)) + ChainEdges(groups[1..])
  }

  const Edges: set<(Task, Task)> := ChainEdges(Chain)

  /** The edges as the comment above the chain describes them. */
  const DeclaredEdges: set<(Task, Task)> := {
    (Start, ExtractPrices), (Start, ExtractCompanyInfo), (Start, ExtractBenchmarks),
    (ExtractPrices, VerifyQuality), (ExtractCompanyInfo, VerifyQuality), (ExtractBenchmarks, VerifyQuality),
    (VerifyQuality, TransformDbt), (TransformDbt, End)}

  /** The chain declares exactly these eight edges. */
  lemma EdgesAreDeclared()
    ensures Edges == DeclaredEdges
  {
    var g := Chain;
    assert ChainEdges(g[4..]) == {};
    assert ChainEdges(g[3..]) == {(TransformDbt, End)} by {
      assert g[3..][1..] == g[4..];
    }
    assert ChainEdges(g[2..]) == {(VerifyQuality, TransformDbt), (TransformDbt, End)} by {
      assert g[2..][1..] == g[3..];
    }
    assert ChainEdges(g[1..]) == {
      (ExtractPrices, VerifyQuality), (ExtractCompanyInfo, VerifyQuality), (ExtractBenchmarks, VerifyQuality),
      (VerifyQuality, TransformDbt), (TransformDbt, End)} by {
      assert g[1..][1..] == g[2..];
    }
  }

  lemma AllTasksListed(t: Task)
    ensures t in AllTasks
  {
    match t
    case Start =>
    case ExtractPrices =>
    case ExtractCompanyInfo =>
    case ExtractBenchmarks =>
    case VerifyQuality =>
    case TransformDbt =>
    case End =>
  }

  /** The position of a task's group in the chain. */
  function Layer(t: Task): nat {
    match t
    case Start => 0
    case ExtractPrices => 1
    case ExtractCompanyInfo => 1
    case ExtractBenchmarks => 1
    case VerifyQuality => 2
    case TransformDbt => 3
    case End => 4
  }

  /** Every edge goes from one group to the next; in particular the three extracts have no edges among them. */
  lemma EdgesAdvanceOneLayer()
    ensures forall a, b :: (a, b) in Edges ==> Layer(b) == Layer(a) + 1
    ensures forall a, b :: a in Extracts && b in Extracts ==> (a, b) !in Edges
  {
    forall a, b | (a, b) in Edges
      ensures Layer(b) == Layer(a) + 1
    {
      EdgeClimbsOneLayer(a, b);
    }
  }

  lemma EdgeClimbsOneLayer(a: Task, b: Task)
    requires (a, b) in Edges
    ensures Layer(b) == Layer(a) + 1
  {
    EdgesAreDeclared();
    assert (a, b) in DeclaredEdges;
  }

  predicate IsPath(p: seq<Task>) {
    |p| >= 1 && forall i :: 0 <= i < |p| - 1 ==> (p[i], p[i + 1]) in Edges
  }

  lemma {:induction false} PathClimbsLayers(p: seq<Task>)
    requires IsPath(p)
    ensures Layer(p[|p| - 1]) == Layer(p[0]) + |p| - 1
    decreases |p|
  {
    if |p| > 1 {
      EdgesAdvanceOneLayer();
      assert IsPath(p[1..]) by {
        forall i | 0 <= i < |p[1..]| - 1 ensures (p[1..][i], p[1..][i + 1]) in Edges {
          assert (p[i + 1], p[i + 2]) in Edges;
        }
      }
      PathClimbsLayers(p[1..]);
      assert (p[0], p[1]) in Edges;
    }
  }

  /** The graph is acyclic: no path of one edge or more returns to where it started. */
  lemma Acyclic(p: seq<Task>)
    requires IsPath(p) && |p| >= 2
    ensures p[0] != p[|p| - 1]
  {
    PathClimbsLayers(p);
  }

  /** The tasks a task waits for: the whole group before it in the chain. */
  function Upstream(t: Task): (r: set<Task>)
    ensures forall u :: u in r ==> Layer(u) + 1 == Layer(t)
  {
    match t
    case Start => {}
    case ExtractPrices => {Start}
    case ExtractCompanyInfo => {Start}
    case ExtractBenchmarks => {Start}
    case VerifyQuality => Extracts
    case TransformDbt => {VerifyQuality}
    case End => {TransformDbt}
  }

  /**
   * A task waits for exactly the tasks with an edge into it: start for each
   * extract, all three extracts for the gate, the gate for dbt, dbt for end.
   */
  lemma UpstreamMatchesEdges(t: Task, u: Task)
    ensures u in Upstream(t) <==> (u, t) in Edges
  {
    EdgesAreDeclared();
  }

  // ---------------------------------------------------------------------
  // Task states, retries and the trigger rule

  datatype TaskState = Pending | Succeeded | Failed | UpstreamFailed

  /**
   * A task instance with `tries` attempts: it succeeds at the first attempt
   * that succeeds, and fails when every allowed attempt failed (an attempt
   * missing from `attempts` counts as failed).
   */
  function RunAttempts(attempts: seq<bool>, tries: nat): (r: TaskState)
    ensures r == Succeeded || r == Failed
    decreases tries
  {
    if tries == 0 || |attempts| == 0 then Failed
    else if attempts[0] then Succeeded
    else RunAttempts(attempts[1..], tries - 1)
  }

  /** A task succeeds exactly when one of its first `tries` attempts succeeds. */
  lemma {:induction false} RunAttemptsSucceedsIff(attempts: seq<bool>, tries: nat)
    ensures RunAttempts(attempts, tries) == Succeeded <==> exists i :: 0 <= i < tries && i < |attempts| && attempts[i]
    decreases tries
  {
    if tries == 0 || |attempts| == 0 {
    } else if attempts[0] {
    } else {
      RunAttemptsSucceedsIff(attempts[1..], tries - 1);
      if exists i :: 0 <= i < tries && i < |attempts| && attempts[i] {
        var i :| 0 <= i < tries && i < |attempts| && attempts[i];
        assert attempts[1..][i - 1];
      }
      if exists i :: 0 <= i < tries - 1 && i < |attempts[1..]| && attempts[1..][i] {
        var i :| 0 <= i < tries - 1 && i < |attempts[1..]| && attempts[1..][i];
        assert attempts[i + 1];
      }
    }
  }

  /**
   * The `all_success` trigger rule: a task whose upstream tasks all succeeded
   * runs (up to retries + 1 attempts; an EmptyOperator always succeeds);
   * otherwise it is marked upstream_failed without running.
   */
  function TriggerState(t: Task, upstreamSucceeded: bool, attempts: seq<bool>): (r: TaskState)
    ensures r != Pending
    ensures !upstreamSucceeded <==> r == UpstreamFailed
  {
    if !upstreamSucceeded then UpstreamFailed
    else if OperatorOf(t) == EmptyOp then Succeeded
    else RunAttempts(attempts, ArgsOf(t).retries + 1)
  }

  /** The state a task ends in, given every task's attempt outcomes. */
  function FinalState(t: Task, attempts: Task -> seq<bool>): TaskState
    decreases Layer(t), 1
  {
    TriggerState(t, UpstreamSucceeded(t, attempts), attempts(t))
  }

  /** Whether every upstream task of `t` ends in success. */
  predicate UpstreamSucceeded(t: Task, attempts: Task -> seq<bool>)
    decreases Layer(t), 0
  {
    forall u :: u in Upstream(t) ==> FinalState(u, attempts) == Succeeded
  }

  /** A task ran (succeeded or failed) only if every upstream task succeeded, and never stays pending. */
  lemma RanOnlyAfterUpstream(t: Task, attempts: Task -> seq<bool>)
    ensures FinalState(t, attempts) != Pending
    ensures FinalState(t, attempts) != UpstreamFailed <==>
      forall u :: u in Upstream(t) ==> FinalState(u, attempts) == Succeeded
  {
  }

  /** The gate runs if and only if all three extract tasks succeeded. */
  lemma GateWaitsForAllExtracts(attempts: Task -> seq<bool>)
    ensures FinalState(VerifyQuality, attempts) != UpstreamFailed <==>
      && FinalState(ExtractPrices, attempts) == Succeeded
      && FinalState(ExtractCompanyInfo, attempts) == Succeeded
      && FinalState(ExtractBenchmarks, attempts) == Succeeded
  {
    var p, c, b := FinalState(ExtractPrices, attempts), FinalState(ExtractCompanyInfo, attempts), FinalState(ExtractBenchmarks, attempts);
    assert Upstream(VerifyQuality) == {ExtractPrices, ExtractCompanyInfo, ExtractBenchmarks};
    assert (forall v :: v in Upstream(VerifyQuality) ==> FinalState(v, attempts) == Succeeded) <==>
      p == Succeeded && c == Succeeded && b == Succeeded;
  }

  /** A task with a single upstream task is triggered by that task's state alone. */
  lemma SingleUpstream(t: Task, u: Task, attempts: Task -> seq<bool>)
    requires Upstream(t) == {u}
    ensures FinalState(t, attempts) == TriggerState(t, FinalState(u, attempts) == Succeeded, attempts(t))
  {
    assert (forall v :: v in Upstream(t) ==> FinalState(v, attempts) == Succeeded) <==> FinalState(u, attempts) == Succeeded;
  }

  /** dbt runs if and only if the gate succeeded; a failed gate marks transform and end upstream_failed. */
  lemma TransformWaitsForGate(attempts: Task -> seq<bool>)
    ensures FinalState(TransformDbt, attempts) != UpstreamFailed <==> FinalState(VerifyQuality, attempts) == Succeeded
    ensures FinalState(VerifyQuality, attempts) != Succeeded ==>
      FinalState(TransformDbt, attempts) == UpstreamFailed && FinalState(End, attempts) == UpstreamFailed
  {
    SingleUpstream(TransformDbt, VerifyQuality, attempts);
    SingleUpstream(End, TransformDbt, attempts);
  }

  /** A failing extract blocks the gate, dbt and end, whatever its siblings do. */
  lemma FailedExtractBlocksDownstream(x: Task, attempts: Task -> seq<bool>)
    requires x in Extracts && FinalState(x, attempts) == Failed
    ensures FinalState(VerifyQuality, attempts) == UpstreamFailed
    ensures FinalState(TransformDbt, attempts) == UpstreamFailed
    ensures FinalState(End, attempts) == UpstreamFailed
  {
    GateWaitsForAllExtracts(attempts);
    TransformWaitsForGate(attempts);
  }

  /**
   * Sibling extracts are independent: an extract's state depends only on its
   * own attempts (start always succeeds), so one branch failing cannot change
   * another branch's outcome.
   */
  lemma ExtractDependsOnlyOnItself(x: Task, attempts1: Task -> seq<bool>, attempts2: Task -> seq<bool>)
    requires x in Extracts && attempts1(x) == attempts2(x)
    ensures FinalState(x, attempts1) == FinalState(x, attempts2)
    ensures FinalState(x, attempts1) == RunAttempts(attempts1(x), 3)
  {
    assert FinalState(Start, attempts1) == Succeeded && FinalState(Start, attempts2) == Succeeded;
  }

  // ---------------------------------------------------------------------
  // Scheduling

  /** An order that lists every task once and puts each task after its upstream tasks. */
  predicate IsTopologicalOrder(order: seq<Task>) {
    && (forall t :: t in order)
    && (forall i, j :: 0 <= i < j < |order| ==> order[i] != order[j])
    && (forall i, j :: 0 <= i < |order| && 0 <= j < |order| && (order[i], order[j]) in Edges ==> i < j)
  }

  /** In a topological order, every upstream task of a task comes before it. */
  lemma UpstreamComesEarlier(order: seq<Task>, i: nat, u: Task) returns (k: nat)
    requires IsTopologicalOrder(order) && i < |order| && u in Upstream(order[i])
    ensures k < i && order[k] == u
  {
    UpstreamMatchesEdges(order[i], u);
    assert u in order;
    k :| 0 <= k < |order| && order[k] == u;
  }

  /** Once a task's upstream states are final, the trigger rule gives the task its final state. */
  lemma SettleStep(t: Task, attempts: Task -> seq<bool>, states: map<Task, TaskState>)
    requires forall u :: u in Upstream(t) ==> u in states && states[u] == FinalState(u, attempts)
    ensures TriggerState(t, forall u :: u in Upstream(t) ==> states[u] == Succeeded, attempts(t)) == FinalState(t, attempts)
  {
  }

  /**
   * A scheduler that starts with every task pending and settles one task at a
   * time in a topological order, applying the trigger rule to the states of
   * its upstream tasks. Whatever order it picks among the parallel extracts,
   * every task ends in the same state.
   */
  method Schedule(order: seq<Task>, attempts: Task -> seq<bool>) returns (states: map<Task, TaskState>)
    requires IsTopologicalOrder(order)
    ensures forall t :: t in states && states[t] == FinalState(t, attempts)
  {
    forall t
      ensures t in AllTasks
    {
      AllTasksListed(t);
    }
    states := map t | t in AllTasks :: Pending;
    var i := 0;
    while i < |order|
      invariant 0 <= i <= |order|
      invariant forall t :: t in states
      invariant forall k :: 0 <= k < i ==> states[order[k]] == FinalState(order[k], attempts)
    {
      var t := order[i];
      forall u | u in Upstream(t)
        ensures states[u] == FinalState(u, attempts)
      {
        var k := UpstreamComesEarlier(order, i, u);
      }
      SettleStep(t, attempts, states);
      var upstreamSucceeded := forall u :: u in Upstream(t) ==> states[u] == Succeeded;
      KeepSettled(order, i, states, TriggerState(t, upstreamSucceeded, attempts(t)), attempts);
      states := states[t := TriggerState(t, upstreamSucceeded, attempts(t))];
      i := i + 1;
    }
    forall t
      ensures t in states && states[t] == FinalState(t, attempts)
    {
      assert t in order;
      var k :| 0 <= k < |order| && order[k] == t;
    }
  }

  /** Settling the next task in the order keeps the tasks settled before it. */
  lemma KeepSettled(order: seq<Task>, i: nat, states: map<Task, TaskState>, v: TaskState, attempts: Task -> seq<bool>)
    requires i < |order| && forall k :: 0 <= k < i ==> order[k] != order[i]
    requires forall k :: 0 <= k < i ==> order[k] in states && states[order[k]] == FinalState(order[k], attempts)
    requires v == FinalState(order[i], attempts)
    ensures forall k :: 0 <= k < i + 1 ==> states[order[i] := v][order[k]] == FinalState(order[k], attempts)
  {
  }
}
