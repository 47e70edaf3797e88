/** Executing an accepted plan in waves: all steps whose dependencies are done run at once, each on the results the
    waves before it left. */
module PlanWaves {
  import opened Prelude
  import opened PlanDag
  import opened PlanDependencies
  import opened AgentRuns

  const SKIPPED := DependencyResult(None, StepSkipped, None, {}, {}, map[])

  /** `depends_on` of every step, and the same as a dependency graph. */
  type Plan = map<string, seq<string>>

  /** The specialist that runs a step: what it answers on a context. */
  type Agent = (string, DependencyContext) -> DependencyResult

  function GraphOf(plan: Plan): Graph {
    map id | id in plan :: Elements(plan[id])
  }

  // ---------------------------------------------------------------- the waves

  function Union(waves: seq<set<string>>): set<string> {
    if waves == [] then {} else Union(waves[..|waves| - 1]) + waves[|waves| - 1]
  }

  /** Each wave holds every step that is ready once the waves before it are done. */
  ghost predicate Greedy(g: Graph, waves: seq<set<string>>) {
    forall k :: 0 <= k < |waves| ==> waves[k] != {} && waves[k] == Ready(g, Union(waves[..k]))
  }

  ghost predicate IsWaves(g: Graph, waves: seq<set<string>>) {
    Greedy(g, waves) && Union(waves) == g.Keys
  }

  lemma {:induction false} UnionMembers(waves: seq<set<string>>, x: string)
    ensures x in Union(waves) <==> exists k :: 0 <= k < |waves| && x in waves[k]
  {
    if waves != [] {
      var n := |waves| - 1;
      UnionMembers(waves[..n], x);
      assert forall k :: 0 <= k < n ==> waves[..n][k] == waves[k];
    }
  }

  lemma {:induction false} UnionOfPrefix(waves: seq<set<string>>, n: nat)
    requires n <= |waves|
    ensures Union(waves[..n]) <= Union(waves)
    decreases |waves| - n
  {
    if n < |waves| {
      assert waves[..n + 1][..n] == waves[..n];
      UnionOfPrefix(waves, n + 1);
    } else {
      assert waves[..n] == waves;
    }
  }

  /** As parallel as the plan allows: a step's dependencies lie in earlier waves, and unless it is in the first
      wave, one of them lies in the wave just before. */
  lemma WavesAreEarliest(g: Graph, waves: seq<set<string>>, k: nat, x: string)
    requires Greedy(g, waves) && k < |waves| && x in waves[k]
    ensures x in g && forall d :: d in g[x] ==> exists j :: 0 <= j < k && d in waves[j]
    ensures k > 0 ==> exists d :: d in g[x] && d in waves[k - 1]
  {
    assert x in Ready(g, Union(waves[..k]));
    forall d | d in g[x] ensures exists j :: 0 <= j < k && d in waves[j] {
      UnionMembers(waves[..k], d);
      var j :| 0 <= j < k && d in waves[..k][j];
      assert d in waves[j];
    }
    if k > 0 {
      var before := waves[..k];
      var earlier := Union(waves[..k - 1]);
      assert before[..k - 1] == waves[..k - 1] && before[k - 1] == waves[k - 1];
      assert Union(before) == earlier + waves[k - 1] && waves[k - 1] == Ready(g, earlier);
      assert x !in Ready(g, earlier) && x !in earlier;
      var d :| d in g[x] && d !in earlier;
      assert d in waves[k - 1];
    }
  }

  lemma {:induction false} SetInOrder(g: Graph, order: seq<string>, wave: set<string>) returns (longer: seq<string>)
    requires Visits(g, order) && wave <= Ready(g, Elements(order))
    ensures Visits(g, longer) && Elements(longer) == Elements(order) + wave
  {
    if wave == {} {
      longer := order;
    } else {
      var x :| x in wave;
      var front := SetInOrder(g, order, wave - {x});
      assert Elements(front) == Elements(order) + (wave - {x});
      longer := front + [x];
      assert forall i :: 0 <= i <= |front| ==> longer[..i] == front[..i];
      assert front[..|front|] == front;
      assert Elements(longer) == Elements(front) + {x};
    }
  }

  /** One after the other, in any order within a wave, the waves are a topological order. */
  lemma {:induction false} WavesInOrder(g: Graph, waves: seq<set<string>>) returns (order: seq<string>)
    requires Greedy(g, waves)
    ensures Visits(g, order) && Elements(order) == Union(waves)
  {
    if waves == [] {
      order := [];
    } else {
      var n := |waves| - 1;
      assert forall k :: 0 <= k < n ==> waves[..n][..k] == waves[..k];
      var front := WavesInOrder(g, waves[..n]);
      order := SetInOrder(g, front, waves[n]);
    }
  }

  lemma WavesMeanOrdered(g: Graph, waves: seq<set<string>>)
    requires IsWaves(g, waves)
    ensures Closed(g) && Acyclic(g)
  {
    var order := WavesInOrder(g, waves);
    VisitsDistinct(g, order);
    assert forall i :: 0 <= i < |order| ==> order[i] in Ready(g, Elements(order[..i]));
    OrderedIsAcyclic(g, order);
    forall x | x in g ensures g[x] <= g.Keys {
      assert x in Elements(order);
      var i :| 0 <= i < |order| && order[i] == x;
      assert Elements(order[..i]) <= Elements(order);
    }
  }

  /** With nothing ready and something left, there is a cycle or an unknown dependency. */
  lemma NothingReady(g: Graph, completed: set<string>)
    requires Ready(g, completed) == {} && g.Keys - completed != {}
    ensures !(Closed(g) && Acyclic(g))
  {
    var remaining := g.Keys - completed;
    if Closed(g) {
      forall x | x in remaining ensures g[x] * remaining != {} {
        assert x !in Ready(g, completed);
        var d :| d in g[x] && d !in completed;
        assert d in g[x] * remaining;
      }
      StuckHasCycle(g, remaining);
    }
  }

  lemma NextWave(g: Graph, waves: seq<set<string>>, ready: set<string>)
    requires Greedy(g, waves) && ready != {} && ready == Ready(g, Union(waves))
    ensures Greedy(g, waves + [ready]) && Union(waves + [ready]) == Union(waves) + ready
  {
    assert (waves + [ready])[..|waves|] == waves;
    assert forall k :: 0 <= k <= |waves| ==> (waves + [ready])[..k] == waves[..k];
  }

  /** Splits a plan into waves exactly if its dependencies are steps of the plan and have no cycle. */
  method ReadyWaves(plan: Plan) returns (r: Result<seq<set<string>>, PlanError>)
    ensures r.Ok? <==> Closed(GraphOf(plan)) && Acyclic(GraphOf(plan))
    ensures r.Ok? ==> IsWaves(GraphOf(plan), r.value)
    ensures r.Err? ==> r.error == Cyclic
  {
    var g := GraphOf(plan);
    var remaining, completed := plan.Keys, {};
    var waves := [];
    while remaining != {}
      invariant completed == Union(waves) && remaining == plan.Keys - completed && completed <= plan.Keys
      invariant Greedy(g, waves)
      decreases remaining
    {
      var ready := set id | id in remaining && Elements(plan[id]) <= completed;
      assert ready == Ready(g, completed);
      if ready == {} {
        NothingReady(g, completed);
        return Err(Cyclic);
      }
      NextWave(g, waves, ready);
      waves := waves + [ready];
      remaining := remaining - ready;
      completed := completed + ready;
    }
    WavesMeanOrdered(g, waves);
    return Ok(waves);
  }

  // ---------------------------------------------------------------- running them

  predicate AllValid(ids: seq<string>, results: map<string, DependencyResult>) {
    forall d :: d in ids ==> d in results && ValidStatus(results[d].status)
  }

  /** What becomes of a step on these results: skipped if some dependency did not reach a valid status, run on the
      union over its dependencies, or an error if one of them has no output after all. */
  function StepOutcome(dependsOn: seq<string>, id: string, agent: Agent, results: map<string, DependencyResult>)
    : Result<DependencyResult, ()>
  {
    if !AllValid(dependsOn, results) then Ok(SKIPPED)
    else if Usable(Dedup(dependsOn), results) then Ok(agent(id, UnionContext(Dedup(dependsOn), results)))
    else Err(())
  }

  /** The results of a plan: the given ones, and for every other step what becomes of it on these very results. */
  ghost predicate Executed(plan: Plan, given: map<string, DependencyResult>, agent: Agent,
                           results: map<string, DependencyResult>)
  {
    && results.Keys == plan.Keys + given.Keys
    && (forall id :: id in given ==> results[id] == given[id])
    && (forall id :: id in plan && id !in given ==> StepOutcome(plan[id], id, agent, results) == Ok(results[id]))
  }

  /** A step's outcome depends on its dependencies only. */
  lemma SameOutcome(dependsOn: seq<string>, id: string, agent: Agent, before: map<string, DependencyResult>,
                    after: map<string, DependencyResult>)
    requires forall d :: d in dependsOn ==> d in before && d in after && before[d] == after[d]
    ensures StepOutcome(dependsOn, id, agent, before) == StepOutcome(dependsOn, id, agent, after)
  {
    DedupKeeps(dependsOn);
    SameDependencies(Dedup(dependsOn), before, after);
  }

  ghost predicate Agrees(results: map<string, DependencyResult>, all: map<string, DependencyResult>) {
    forall id :: id in results ==> id in all && results[id] == all[id]
  }

  datatype ExecutionError = NotOrdered | BuildFailed(error: BuildError)

  /** The step has not been dealt with and all results it depends on are there. */
  predicate Waits(plan: Plan, results: map<string, DependencyResult>, id: string) {
    id in plan && id !in results && forall d :: d in plan[id] ==> d in results
  }

  ghost predicate CanRun(plan: Plan, wave: set<string>, results: map<string, DependencyResult>) {
    wave <= plan.Keys && forall id :: id in wave && id !in results ==> Waits(plan, results, id)
  }

  /** The results after a wave: those before it, and the outcome on those for each of its other steps. */
  ghost predicate WaveRan(plan: Plan, wave: set<string>, agent: Agent, before: map<string, DependencyResult>,
                          after: map<string, DependencyResult>)
  {
    && wave <= plan.Keys && after.Keys == before.Keys + wave && Agrees(before, after)
    && forall id :: id in wave && id !in before ==> StepOutcome(plan[id], id, agent, before) == Ok(after[id])
  }

  ghost predicate WaveBroke(plan: Plan, wave: set<string>, agent: Agent, before: map<string, DependencyResult>) {
    exists id :: id in plan && id in wave && id !in before && StepOutcome(plan[id], id, agent, before).Err?
  }

  /** First the steps of the wave that cannot run are marked skipped; the others are tasks. */
  method SkipOrRun(plan: Plan, wave: set<string>, results: map<string, DependencyResult>)
    returns (marked: map<string, DependencyResult>, runnable: set<string>)
    requires CanRun(plan, wave, results)
    ensures runnable == set id | id in wave && id !in results && AllValid(plan[id], results)
    ensures marked.Keys == results.Keys + (wave - runnable) && runnable !! marked.Keys && Agrees(results, marked)
    ensures forall id :: id in marked && id !in results ==> marked[id] == SKIPPED
  {
    marked, runnable := results, {};
    var left := wave;
    while left != {}
      invariant left <= wave && Agrees(results, marked)
      invariant runnable == set id | id in wave - left && id !in results && AllValid(plan[id], results)
      invariant marked.Keys == results.Keys + (wave - left - runnable)
      invariant forall id :: id in marked && id !in results ==> marked[id] == SKIPPED
      decreases left
    {
      var id :| id in left;
      left := left - {id};
      if id !in marked {
        assert Waits(plan, results, id);
        assert AllValid(plan[id], marked) == AllValid(plan[id], results);
        if AllValid(plan[id], marked) {
          runnable := runnable + {id};
        } else {
          marked := marked[id := SKIPPED];
        }
      }
    }
  }

  /** One task: the context on the results as they were when the tasks began, and the agent on it. */
  method RunTask(dependsOn: seq<string>, id: string, agent: Agent, seen: map<string, DependencyResult>)
    returns (r: Result<DependencyResult, BuildError>)
    requires AllValid(dependsOn, seen)
    ensures r.Ok? ==> StepOutcome(dependsOn, id, agent, seen) == Ok(r.value)
    ensures r.Err? ==> StepOutcome(dependsOn, id, agent, seen).Err?
  {
    var built := Build(dependsOn, seen);
    if built.Err? { return Err(built.error); }
    return Ok(agent(id, built.value));
  }

  /** One wave: its tasks end in any order. */
  method RunWave(plan: Plan, wave: set<string>, agent: Agent, results: map<string, DependencyResult>)
    returns (r: Result<map<string, DependencyResult>, BuildError>)
    requires CanRun(plan, wave, results)
    ensures if r.Ok? then WaveRan(plan, wave, agent, results, r.value) else WaveBroke(plan, wave, agent, results)
  {
    var seen, runnable := SkipOrRun(plan, wave, results);
    var answers: map<string, DependencyResult> := map[];
    var running := runnable;
    while running != {}
      invariant running <= runnable && answers.Keys == runnable - running
      invariant forall id :: id in answers ==> StepOutcome(plan[id], id, agent, results) == Ok(answers[id])
      decreases running
    {
      var id :| id in running;
      running := running - {id};
      assert Waits(plan, results, id) && AllValid(plan[id], seen);
      SameOutcome(plan[id], id, agent, results, seen);
      var done := RunTask(plan[id], id, agent, seen);
      if done.Err? { return Err(done.error); }
      answers := answers[id := done.value];
    }
    return Ok(seen + answers);
  }

  /** Every complete set of results extends what the waves have found so far. */
  ghost predicate Forced(plan: Plan, given: map<string, DependencyResult>, agent: Agent, results: map<string, DependencyResult>) {
    forall all :: Executed(plan, given, agent, all) ==> Agrees(results, all)
  }

  lemma WaveForced(plan: Plan, given: map<string, DependencyResult>, agent: Agent, wave: set<string>,
                   before: map<string, DependencyResult>, after: map<string, DependencyResult>)
    requires Forced(plan, given, agent, before) && Agrees(given, before)
    requires CanRun(plan, wave, before) && WaveRan(plan, wave, agent, before, after)
    ensures Forced(plan, given, agent, after)
  {
    forall all, id | Executed(plan, given, agent, all) && id in after ensures id in all && after[id] == all[id] {
      assert Agrees(before, all);
      if id !in before {
        assert Waits(plan, before, id) && id !in given;
        SameOutcome(plan[id], id, agent, before, all);
      }
    }
  }

  lemma WaveFails(plan: Plan, given: map<string, DependencyResult>, agent: Agent, wave: set<string>,
                  before: map<string, DependencyResult>)
    requires Forced(plan, given, agent, before) && Agrees(given, before)
    requires CanRun(plan, wave, before) && WaveBroke(plan, wave, agent, before)
    ensures NoResults(plan, given, agent)
  {
    var id :| id in plan && id in wave && id !in before && StepOutcome(plan[id], id, agent, before).Err?;
    forall all | Executed(plan, given, agent, all) ensures false {
      assert Agrees(before, all) && id !in given && Waits(plan, before, id);
      SameOutcome(plan[id], id, agent, before, all);
    }
  }

  /** Steps already dealt with keep their outcome as later waves add results. */
  ghost predicate Settled(plan: Plan, given: map<string, DependencyResult>, agent: Agent, results: map<string, DependencyResult>) {
    forall id :: id in results && id !in given ==>
      && id in plan && (forall d :: d in plan[id] ==> d in results)
      && StepOutcome(plan[id], id, agent, results) == Ok(results[id])
  }

  lemma WaveSettles(plan: Plan, given: map<string, DependencyResult>, agent: Agent, wave: set<string>,
                    before: map<string, DependencyResult>, after: map<string, DependencyResult>)
    requires Settled(plan, given, agent, before) && Agrees(given, before)
    requires CanRun(plan, wave, before) && WaveRan(plan, wave, agent, before, after)
    ensures Settled(plan, given, agent, after)
  {
    forall id | id in after && id !in given
      ensures id in plan && (forall d :: d in plan[id] ==> d in after)
      ensures StepOutcome(plan[id], id, agent, after) == Ok(after[id])
    {
      assert id in before || Waits(plan, before, id);
      SameOutcome(plan[id], id, agent, before, after);
    }
  }

  lemma WaveWaits(plan: Plan, waves: seq<set<string>>, k: nat, results: map<string, DependencyResult>)
    requires IsWaves(GraphOf(plan), waves) && k < |waves| && Union(waves[..k]) <= results.Keys
    ensures CanRun(plan, waves[k], results)
  {
    assert waves[k] == Ready(GraphOf(plan), Union(waves[..k]));
    forall id | id in waves[k] && id !in results ensures Waits(plan, results, id) {
      assert id in Ready(GraphOf(plan), Union(waves[..k]));
      forall d | d in plan[id] ensures d in results {
        assert d in GraphOf(plan)[id];
      }
    }
  }

  /** What is known before each wave. */
  ghost predicate Progress(plan: Plan, given: map<string, DependencyResult>, agent: Agent, done: set<string>,
                           results: map<string, DependencyResult>)
  {
    && results.Keys == given.Keys + done && Agrees(given, results)
    && Settled(plan, given, agent, results) && Forced(plan, given, agent, results)
  }

  lemma AfterWave(plan: Plan, given: map<string, DependencyResult>, agent: Agent, done: set<string>, wave: set<string>,
                  before: map<string, DependencyResult>, after: map<string, DependencyResult>)
    requires Progress(plan, given, agent, done, before)
    requires CanRun(plan, wave, before) && WaveRan(plan, wave, agent, before, after)
    ensures Progress(plan, given, agent, done + wave, after)
  {
    WaveForced(plan, given, agent, wave, before, after);
    WaveSettles(plan, given, agent, wave, before, after);
  }

  /** These are the results of the plan, and there are no others. */
  ghost predicate OnlyResults(plan: Plan, given: map<string, DependencyResult>, agent: Agent,
                              results: map<string, DependencyResult>)
  {
    Executed(plan, given, agent, results) && forall all :: Executed(plan, given, agent, all) ==> all == results
  }

  ghost predicate NoResults(plan: Plan, given: map<string, DependencyResult>, agent: Agent) {
    forall all :: !Executed(plan, given, agent, all)
  }

  lemma NextUnion(waves: seq<set<string>>, k: nat)
    requires k < |waves|
    ensures Union(waves[..k + 1]) == Union(waves[..k]) + waves[k]
  {
    assert waves[..k + 1][..k] == waves[..k];
  }

  lemma AllWavesRan(plan: Plan, given: map<string, DependencyResult>, agent: Agent, results: map<string, DependencyResult>)
    requires Progress(plan, given, agent, plan.Keys, results)
    ensures OnlyResults(plan, given, agent, results)
  {
    forall all | Executed(plan, given, agent, all) ensures all == results {
      assert Agrees(results, all);
    }
  }

  /** A valid result comes with the run and the output it stands for. */
  predicate Whole(d: DependencyResult) {
    ValidStatus(d.status) ==> d.run.Some? && d.output.Some?
  }

  ghost predicate AlwaysWhole(given: map<string, DependencyResult>, agent: Agent) {
    (forall id :: id in given ==> Whole(given[id])) && forall id, c :: Whole(agent(id, c))
  }

  /** With whole results no context can fail to build. */
  lemma WholeNeverBreaks(plan: Plan, given: map<string, DependencyResult>, agent: Agent, done: set<string>, wave: set<string>,
                         results: map<string, DependencyResult>)
    requires Progress(plan, given, agent, done, results) && CanRun(plan, wave, results) && AlwaysWhole(given, agent)
    ensures !WaveBroke(plan, wave, agent, results)
  {
    forall id | id in results ensures Whole(results[id]) {
      if id !in given { assert StepOutcome(plan[id], id, agent, results) == Ok(results[id]); }
    }
    forall id | id in plan && id in wave && id !in results ensures StepOutcome(plan[id], id, agent, results).Ok? {
      DedupKeeps(plan[id]);
      if AllValid(plan[id], results) {
        forall d | d in Dedup(plan[id]) ensures Refusal(d, results).None? {
          assert d in plan[id] && Whole(results[d]);
        }
      }
    }
  }

  /** The waves compute the one set of results that fits the plan, and fail exactly if there is none: neither the
      waves nor the order in which tasks end can be seen in the result. */
  method ExecutePlanWaves(plan: Plan, given: map<string, DependencyResult>, agent: Agent)
    returns (r: Result<map<string, DependencyResult>, ExecutionError>)
    ensures r == Err(NotOrdered) <==> !(Closed(GraphOf(plan)) && Acyclic(GraphOf(plan)))
    ensures r.Ok? ==> OnlyResults(plan, given, agent, r.value)
    ensures r.Err? && r.error.BuildFailed? ==> NoResults(plan, given, agent)
    ensures AlwaysWhole(given, agent) ==> r.Ok? || r.error.NotOrdered?
  {
    var split := ReadyWaves(plan);
    if split.Err? { return Err(NotOrdered); }
    var waves := split.value;
    var results := given;
    for k := 0 to |waves|
      invariant Progress(plan, given, agent, Union(waves[..k]), results)
    {
      WaveWaits(plan, waves, k, results);
      var ran := RunWave(plan, waves[k], agent, results);
      if ran.Err? {
        if AlwaysWhole(given, agent) { WholeNeverBreaks(plan, given, agent, Union(waves[..k]), waves[k], results); }
        WaveFails(plan, given, agent, waves[k], results);
        return Err(BuildFailed(ran.error));
      }
      AfterWave(plan, given, agent, Union(waves[..k]), waves[k], results, ran.value);
      NextUnion(waves, k);
      results := ran.value;
    }
    assert waves[..|waves|] == waves;
    AllWavesRan(plan, given, agent, results);
    return Ok(results);
  }

  // ---------------------------------------------------------------- what the results mean

  lemma {:induction false} SameResults(plan: Plan, given: map<string, DependencyResult>, agent: Agent, waves: seq<set<string>>, k: nat,
                                       r1: map<string, DependencyResult>, r2: map<string, DependencyResult>)
    requires IsWaves(GraphOf(plan), waves) && k <= |waves|
    requires Executed(plan, given, agent, r1) && Executed(plan, given, agent, r2)
    ensures forall id :: id in Union(waves[..k]) ==> id in plan && r1[id] == r2[id]
  {
    if k > 0 {
      SameResults(plan, given, agent, waves, k - 1, r1, r2);
      NextUnion(waves, k - 1);
      assert waves[k - 1] == Ready(GraphOf(plan), Union(waves[..k - 1]));
      forall id | id in waves[k - 1] ensures id in plan && r1[id] == r2[id] {
        if id !in given {
          forall d | d in plan[id] ensures d in r1 && d in r2 && r1[d] == r2[d] { assert d in GraphOf(plan)[id]; }
          SameOutcome(plan[id], id, agent, r1, r2);
        }
      }
    }
  }

  /** Resuming from any results of an execution, whichever a crash left behind, can only give the same results again. */
  lemma ResumeGivesTheSame(plan: Plan, agent: Agent, waves: seq<set<string>>, results: map<string, DependencyResult>, kept: set<string>)
    requires IsWaves(GraphOf(plan), waves) && Executed(plan, map[], agent, results)
    ensures OnlyResults(plan, map id | id in kept && id in results :: results[id], agent, results)
  {
    var given := map id | id in kept && id in results :: results[id];
    forall all | Executed(plan, given, agent, all) ensures all == results {
      SameResults(plan, given, agent, waves, |waves|, all, results);
      assert waves[..|waves|] == waves;
    }
  }

  /** A walk from a step along direct dependencies, over steps that were executed here up to the last. */
  ghost predicate Ancestry(plan: Plan, given: map<string, DependencyResult>, path: seq<string>) {
    && path != []
    && forall i :: 0 <= i < |path| - 1 ==> path[i] in plan && path[i] !in given && path[i + 1] in plan[path[i]]
  }

  /** A step that reached a valid status has only valid ancestors, at any distance. */
  lemma {:induction false} ValidAncestors(plan: Plan, given: map<string, DependencyResult>, agent: Agent,
                                          results: map<string, DependencyResult>, path: seq<string>)
    requires Executed(plan, given, agent, results)
    requires Ancestry(plan, given, path) && path[0] in results && ValidStatus(results[path[0]].status)
    ensures path[|path| - 1] in results && ValidStatus(results[path[|path| - 1]].status)
  {
    if |path| > 1 {
      assert StepOutcome(plan[path[0]], path[0], agent, results) == Ok(results[path[0]]);
      assert path[0 + 1] in plan[path[0]];
      var rest := path[1..];
      forall i | 0 <= i < |rest| - 1 ensures rest[i] in plan && rest[i] !in given && rest[i + 1] in plan[rest[i]] {
        assert path[(i + 1) + 1] in plan[path[i + 1]];
      }
      ValidAncestors(plan, given, agent, results, rest);
    }
  }
}
