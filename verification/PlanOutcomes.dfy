/** What an executed plan gave each step to read, and what became of it, dependency by dependency. */
module PlanOutcomes {
  import opened Prelude
  import opened AgentRuns
  import opened PlanDependencies
  import opened PlanWaves

  /** The dependency answered: completed, or short of information only. */
  predicate Answered(d: string, results: map<string, DependencyResult>) {
    d in results && (results[d].status == StepCompleted || results[d].status == StepNeedsInformation)
  }

  /** The context holds everything the dependencies brought and nothing else: each output, the references and precedents
      of any of them, an authority record exactly where some has one, the last one's, and their runs in order of first
      mention. */
  ghost predicate ReadsFrom(c: DependencyContext, dependsOn: seq<string>, results: map<string, DependencyResult>) {
    && (forall d :: d in dependsOn <==> d in c.outputs)
    && (forall d :: d in dependsOn ==> d in results && results[d].output == Some(c.outputs[d]))
    && (forall ref :: ref in c.sources <==> exists d :: d in dependsOn && d in results && ref in results[d].sources)
    && (forall ref :: ref in c.precedents <==> exists d :: d in dependsOn && d in results && ref in results[d].precedents)
    && (forall ref :: ref in c.authorities <==> exists d :: d in dependsOn && d in results && ref in results[d].authorities)
    && (forall ref :: ref in c.authorities ==> exists d :: LastToKnow(d, ref, Dedup(dependsOn), results, c.authorities[ref]))
    && |c.runs| == |Dedup(dependsOn)|
    && (forall i :: 0 <= i < |c.runs| ==> Dedup(dependsOn)[i] in results && results[Dedup(dependsOn)[i]].run == Some(c.runs[i]))
  }

  /** The dependency has this record of the source, and none mentioned after it has one. */
  ghost predicate LastToKnow(d: string, ref: Source, ids: seq<string>, results: map<string, DependencyResult>, record: Authority) {
    exists i :: 0 <= i < |ids| && ids[i] == d && d in results && ref in results[d].authorities && results[d].authorities[ref] == record
                && forall j :: i < j < |ids| && ids[j] in results ==> ref !in results[ids[j]].authorities
  }

  lemma UnionReads(dependsOn: seq<string>, results: map<string, DependencyResult>)
    requires Usable(Dedup(dependsOn), results)
    ensures ReadsFrom(UnionContext(Dedup(dependsOn), results), dependsOn, results)
  {
    var ids := Dedup(dependsOn);
    DedupKeeps(dependsOn);
    RunsOneForOne(ids, results);
    UsableIsThere(ids, results);
    forall ref
      ensures ref in AllSources(ids, results) <==> exists d :: d in dependsOn && d in results && ref in results[d].sources
      ensures ref in AllPrecedents(ids, results) <==> exists d :: d in dependsOn && d in results && ref in results[d].precedents
    {
      SourcesBrought(dependsOn, results, ref);
    }
    forall ref
      ensures ref in MergedAuthorities(ids, results) <==> exists d :: d in dependsOn && d in results && ref in results[d].authorities
      ensures ref in MergedAuthorities(ids, results) ==> exists d :: LastToKnow(d, ref, ids, results, MergedAuthorities(ids, results)[ref])
    {
      AuthoritiesBrought(dependsOn, results, ref);
    }
  }

  lemma UsableIsThere(ids: seq<string>, results: map<string, DependencyResult>)
    requires Usable(ids, results)
    ensures forall d :: d in ids ==> d in results && results[d].output.Some?
  {
    forall d | d in ids ensures d in results && results[d].output.Some? {
      assert Refusal(d, results).None?;
    }
  }

  lemma SourcesBrought(dependsOn: seq<string>, results: map<string, DependencyResult>, ref: Source)
    ensures ref in AllSources(Dedup(dependsOn), results) <==> exists d :: d in dependsOn && d in results && ref in results[d].sources
    ensures ref in AllPrecedents(Dedup(dependsOn), results) <==> exists d :: d in dependsOn && d in results && ref in results[d].precedents
  {
    var ids := Dedup(dependsOn);
    DedupKeeps(dependsOn);
    SourceMembers(ids, results, ref);
    if d :| d in dependsOn && d in results && ref in results[d].sources {
      assert d in ids && ref in Sources(results, d);
    }
    if d :| d in dependsOn && d in results && ref in results[d].precedents {
      assert d in ids && ref in Precedents(results, d);
    }
  }

  lemma {:induction false} LastOne(ids: seq<string>, results: map<string, DependencyResult>, ref: Source) returns (i: nat)
    requires exists d :: d in ids && ref in Authorities(results, d)
    ensures LastRecord(ids, i, results, ref)
  {
    var n := |ids| - 1;
    if ref in Authorities(results, ids[n]) {
      i := n;
    } else {
      var d :| d in ids && ref in Authorities(results, d);
      assert d in ids[..n];
      i := LastOne(ids[..n], results, ref);
      assert forall j :: i < j < |ids| ==> ref !in Authorities(results, ids[j]);
    }
  }

  lemma AuthoritiesBrought(dependsOn: seq<string>, results: map<string, DependencyResult>, ref: Source)
    ensures var ids := Dedup(dependsOn);
            && (ref in MergedAuthorities(ids, results) <==> exists d :: d in dependsOn && d in results && ref in results[d].authorities)
            && (ref in MergedAuthorities(ids, results) ==>
                  exists d :: LastToKnow(d, ref, ids, results, MergedAuthorities(ids, results)[ref]))
  {
    var ids := Dedup(dependsOn);
    DedupKeeps(dependsOn);
    LastRecordWins(ids, results, ref);
    if ref in MergedAuthorities(ids, results) {
      var i :| LastRecord(ids, i, results, ref);
      assert ids[i] in dependsOn;
      assert LastToKnow(ids[i], ref, ids, results, MergedAuthorities(ids, results)[ref]);
    }
    if d :| d in dependsOn && d in results && ref in results[d].authorities {
      assert d in ids && ref in Authorities(results, d);
      var i := LastOne(ids, results, ref);
    }
  }

  /** Every step of an executed plan that was not given: skipped, with nothing to show, exactly if some dependency did not
      answer, and otherwise what its agent said to all that its dependencies brought. */
  lemma StepReadsItsDependencies(plan: PlanWaves.Plan, given: map<string, DependencyResult>, agent: Agent,
                                 results: map<string, DependencyResult>, id: string)
    requires Executed(plan, given, agent, results) && id in plan && id !in given
    ensures id in results
    ensures if exists d :: d in plan[id] && !Answered(d, results)
            then results[id] == DependencyResult(None, StepSkipped, None, {}, {}, map[])
            else exists c :: results[id] == agent(id, c) && ReadsFrom(c, plan[id], results)
  {
    assert StepOutcome(plan[id], id, agent, results) == Ok(results[id]);
    if forall d :: d in plan[id] ==> Answered(d, results) {
      assert AllValid(plan[id], results);
      UnionReads(plan[id], results);
    }
  }

  /** Why a context cannot be built: no result, no valid status, or no run or output, in this order. */
  lemma RefusalTells(id: string, available: map<string, DependencyResult>)
    ensures Refusal(id, available) == Some(NoResult(id)) <==> id !in available
    ensures Refusal(id, available) == Some(NotValid(id)) <==> id in available && !Answered(id, available)
    ensures Refusal(id, available) == Some(NoOutput(id)) <==>
            Answered(id, available) && (available[id].run.None? || available[id].output.None?)
    ensures Refusal(id, available).None? <==> Answered(id, available) && available[id].run.Some? && available[id].output.Some?
  {
  }
}
