/** What a step may see of the steps before it. `PlanWaves` runs whole plans. */
module PlanDependencies {
  import opened Prelude
  import opened AgentRuns

  type Source = string
  type Authority = nat

  datatype DependencyResult = DependencyResult(
    run: Option<RunId>,
    status: StepStatus,
    output: Option<Payload>,
    sources: set<Source>,
    precedents: set<Source>,
    authorities: map<Source, Authority>)

  datatype DependencyContext = DependencyContext(
    outputs: map<string, Payload>,
    sources: set<Source>,
    precedents: set<Source>,
    authorities: map<Source, Authority>,
    runs: seq<RunId>)

  datatype BuildError = NoResult(step: string) | NotValid(step: string) | NoOutput(step: string)

  predicate ValidStatus(s: StepStatus) {
    s in {StepCompleted, StepNeedsInformation}
  }

  /** Why a dependency cannot be used, if it cannot. */
  function Refusal(id: string, available: map<string, DependencyResult>): Option<BuildError> {
    if id !in available then Some(NoResult(id))
    else if !ValidStatus(available[id].status) then Some(NotValid(id))
    else if available[id].run.None? || available[id].output.None? then Some(NoOutput(id))
    else None
  }

  /** First occurrences, in order: dict.fromkeys. */
  function Dedup(s: seq<string>): seq<string> {
    if s == [] then []
    else
      var front := Dedup(s[..|s| - 1]);
      if s[|s| - 1] in front then front else front + [s[|s| - 1]]
  }

  lemma {:induction false} DedupKeeps(s: seq<string>)
    ensures Distinct(Dedup(s)) && Elements(Dedup(s)) == Elements(s)
    ensures forall x :: x in Dedup(s) <==> x in s
  {
    if s != [] {
      var front, x := s[..|s| - 1], s[|s| - 1];
      DedupKeeps(front);
      assert s == front + [x];
      assert Elements(s) == Elements(front) + {x};
      assert x in Dedup(front) <==> x in Elements(Dedup(front));
      assert Elements(Dedup(front) + [x]) == Elements(Dedup(front)) + {x};
    }
    forall x ensures x in Dedup(s) <==> x in s {
      assert x in Elements(Dedup(s)) <==> x in Elements(s);
    }
  }

  predicate Usable(ids: seq<string>, available: map<string, DependencyResult>) {
    forall id :: id in ids ==> Refusal(id, available).None?
  }

  function Sources(available: map<string, DependencyResult>, id: string): set<Source> {
    if id in available then available[id].sources else {}
  }

  function Precedents(available: map<string, DependencyResult>, id: string): set<Source> {
    if id in available then available[id].precedents else {}
  }

  function Authorities(available: map<string, DependencyResult>, id: string): map<Source, Authority> {
    if id in available then available[id].authorities else map[]
  }

  function AllSources(ids: seq<string>, available: map<string, DependencyResult>): set<Source> {
    if ids == [] then {}
    else AllSources(ids[..|ids| - 1], available) + Sources(available, ids[|ids| - 1])
  }

  function AllPrecedents(ids: seq<string>, available: map<string, DependencyResult>): set<Source> {
    if ids == [] then {}
    else AllPrecedents(ids[..|ids| - 1], available) + Precedents(available, ids[|ids| - 1])
  }

  function AllOutputs(ids: seq<string>, available: map<string, DependencyResult>): map<string, Payload> {
    map id | id in ids && id in available && available[id].output.Some? :: available[id].output.value
  }

  function AllRuns(ids: seq<string>, available: map<string, DependencyResult>): seq<RunId>
    requires Usable(ids, available)
  {
    if ids == [] then []
    else
      assert Refusal(ids[|ids| - 1], available).None?;
      AllRuns(ids[..|ids| - 1], available) + [available[ids[|ids| - 1]].run.value]
  }

  function MergedAuthorities(ids: seq<string>, available: map<string, DependencyResult>): map<Source, Authority> {
    if ids == [] then map[]
    else MergedAuthorities(ids[..|ids| - 1], available) + Authorities(available, ids[|ids| - 1])
  }

  lemma {:induction false} SourceMembers(ids: seq<string>, available: map<string, DependencyResult>, ref: Source)
    ensures ref in AllSources(ids, available) <==> exists i :: 0 <= i < |ids| && ref in Sources(available, ids[i])
    ensures ref in AllPrecedents(ids, available) <==> exists i :: 0 <= i < |ids| && ref in Precedents(available, ids[i])
  {
    if ids != [] {
      SourceMembers(ids[..|ids| - 1], available, ref);
      assert forall i :: 0 <= i < |ids| - 1 ==> ids[..|ids| - 1][i] == ids[i];
    }
  }

  lemma {:induction false} RunsOneForOne(ids: seq<string>, available: map<string, DependencyResult>)
    requires Usable(ids, available)
    ensures |AllRuns(ids, available)| == |ids|
    ensures forall i :: 0 <= i < |ids| ==> ids[i] in available && Some(AllRuns(ids, available)[i]) == available[ids[i]].run
  {
    if ids != [] {
      RunsOneForOne(ids[..|ids| - 1], available);
      assert Refusal(ids[|ids| - 1], available).None?;
    }
  }

  /** Each authority comes from the last dependency that has a record of it. */
  lemma {:induction false} LastRecordWins(ids: seq<string>, available: map<string, DependencyResult>, ref: Source)
    ensures ref in MergedAuthorities(ids, available) <==> exists i :: LastRecord(ids, i, available, ref)
    ensures forall i :: LastRecord(ids, i, available, ref) ==> (
              MergedAuthorities(ids, available)[ref] == Authorities(available, ids[i])[ref])
  {
    if ids != [] {
      var n := |ids| - 1;
      LastRecordWins(ids[..n], available, ref);
      assert LastRecord(ids, n, available, ref) <==> ref in Authorities(available, ids[n]);
      if ref !in Authorities(available, ids[n]) {
        forall i ensures LastRecord(ids, i, available, ref) == LastRecord(ids[..n], i, available, ref) {
          assert forall j :: 0 <= j < n ==> ids[..n][j] == ids[j];
        }
      }
    }
  }

  predicate LastRecord(ids: seq<string>, i: int, available: map<string, DependencyResult>, ref: Source) {
    && 0 <= i < |ids|
    && ref in Authorities(available, ids[i])
    && forall j :: i < j < |ids| ==> ref !in Authorities(available, ids[j])
  }

  /** The union over the dependencies: outputs and run ids one for one, references and precedents
      together, authorities merged. */
  function UnionContext(ids: seq<string>, available: map<string, DependencyResult>): DependencyContext
    requires Usable(ids, available)
  {
    DependencyContext(AllOutputs(ids, available), AllSources(ids, available), AllPrecedents(ids, available),
                      MergedAuthorities(ids, available), AllRuns(ids, available))
  }

  /** Succeeds exactly if every dependency can be used, with the union over them; fails with the
      first dependency that cannot be used. */
  method Build(dependsOn: seq<string>, available: map<string, DependencyResult>)
    returns (r: Result<DependencyContext, BuildError>)
    ensures r.Ok? <==> Usable(Dedup(dependsOn), available)
    ensures r.Ok? ==> r.value == UnionContext(Dedup(dependsOn), available)
    ensures r.Err? ==> exists i :: 0 <= i < |Dedup(dependsOn)| && Usable(Dedup(dependsOn)[..i], available)
                                  && Refusal(Dedup(dependsOn)[i], available) == Some(r.error)
  {
    var c := DependencyContext(map[], {}, {}, map[], []);
    var ids := Dedup(dependsOn);
    for i := 0 to |ids|
      invariant Usable(ids[..i], available)
      invariant c == UnionContext(ids[..i], available)
    {
      var id := ids[i];
      if id !in available {
        assert Refusal(ids[i], available) == Some(NoResult(id));
        return Err(NoResult(id));
      }
      var dependency := available[id];
      if !ValidStatus(dependency.status) {
        assert Refusal(ids[i], available) == Some(NotValid(id));
        return Err(NotValid(id));
      }
      if dependency.run.None? || dependency.output.None? {
        assert Refusal(ids[i], available) == Some(NoOutput(id));
        return Err(NoOutput(id));
      }
      UnionGrows(ids[..i], id, available);
      assert ids[..i + 1] == ids[..i] + [id];
      c := DependencyContext(
        c.outputs[id := dependency.output.value],
        c.sources + dependency.sources,
        c.precedents + dependency.precedents,
        c.authorities + dependency.authorities,
        c.runs + [dependency.run.value]);
    }
    assert ids[..|ids|] == ids;
    return Ok(c);
  }

  lemma UnionGrows(ids: seq<string>, id: string, available: map<string, DependencyResult>)
    requires Usable(ids, available) && Refusal(id, available).None?
    ensures Usable(ids + [id], available)
    ensures var before := UnionContext(ids, available);
            UnionContext(ids + [id], available) == DependencyContext(
              before.outputs[id := available[id].output.value],
              before.sources + available[id].sources,
              before.precedents + available[id].precedents,
              before.authorities + available[id].authorities,
              before.runs + [available[id].run.value])
  {
    var all := ids + [id];
    assert forall x :: x in all <==> x in ids || x == id;
    assert AllOutputs(all, available) == AllOutputs(ids, available)[id := available[id].output.value];
    assert all[..|ids|] == ids;
  }

  /** Adding the result of another step changes nothing for a step whose dependencies all have one. */
  lemma {:induction false} SameDependencies(ids: seq<string>, before: map<string, DependencyResult>,
                                            after: map<string, DependencyResult>)
    requires forall d :: d in ids ==> d in before && d in after && before[d] == after[d]
    ensures Usable(ids, before) == Usable(ids, after)
    ensures Usable(ids, before) ==> UnionContext(ids, before) == UnionContext(ids, after)
  {
    assert forall d :: d in ids ==> Refusal(d, before) == Refusal(d, after);
    assert AllOutputs(ids, before) == AllOutputs(ids, after);
    if ids != [] {
      SameDependencies(ids[..|ids| - 1], before, after);
    }
  }
}
