/** Deterministic, least-context projections for specialist invocations. */
module Context {
  import opened Kinds
  import opened Results
  import opened Publication
  import opened Artifacts
  import opened Catalog

  predicate Matches(a: Artifact, dependency: ArtifactInput) {
    a.meta.kind == dependency.kind && (dependency.producer.None? || a.meta.producer == dependency.producer.value)
  }

  function Matching(artifacts: seq<Artifact>, dependency: ArtifactInput): seq<Artifact> {
    if artifacts == [] then []
    else
      var last := artifacts[|artifacts| - 1];
      Matching(artifacts[..|artifacts| - 1], dependency) + if Matches(last, dependency) then [last] else []
  }

  // ----- component sources in producer order, the last of each producer -----

  predicate NameLess(a: string, b: string) {
    if b == [] then false
    else if a == [] then true
    else a[0] < b[0] || (a[0] == b[0] && NameLess(a[1..], b[1..]))
  }

  function PutByName(sorted: seq<Artifact>, item: Artifact): seq<Artifact> {
    if sorted == [] then [item]
    else if sorted[0].meta.producer == item.meta.producer then [item] + sorted[1..]
    else if NameLess(item.meta.producer, sorted[0].meta.producer) then [item] + sorted
    else [sorted[0]] + PutByName(sorted[1..], item)
  }

  function LatestByProducer(artifacts: seq<Artifact>, kind: Kind): seq<Artifact> {
    if artifacts == [] then []
    else
      var last := artifacts[|artifacts| - 1];
      var before := LatestByProducer(artifacts[..|artifacts| - 1], kind);
      if last.meta.kind == kind then PutByName(before, last) else before
  }

  lemma {:induction false} PutByNameMembers(sorted: seq<Artifact>, item: Artifact)
    ensures PutByName(sorted, item) != []
    ensures forall a :: a in PutByName(sorted, item) ==> a == item || a in sorted
  {
    if sorted != [] {
      PutByNameMembers(sorted[1..], item);
    }
  }

  lemma {:induction false} LatestByProducerMembers(artifacts: seq<Artifact>, kind: Kind)
    ensures forall a :: a in LatestByProducer(artifacts, kind) ==> a in artifacts && a.meta.kind == kind
    ensures LatestByProducer(artifacts, kind) == [] <==> forall a :: a in artifacts ==> a.meta.kind != kind
  {
    if artifacts != [] {
      var n := |artifacts| - 1;
      assert artifacts == artifacts[..n] + [artifacts[n]];
      LatestByProducerMembers(artifacts[..n], kind);
      PutByNameMembers(LatestByProducer(artifacts[..n], kind), artifacts[n]);
    }
  }

  lemma {:induction false} MatchingMembers(artifacts: seq<Artifact>, dependency: ArtifactInput)
    ensures forall a :: a in Matching(artifacts, dependency) <==> a in artifacts && Matches(a, dependency)
  {
    if artifacts != [] {
      var n := |artifacts| - 1;
      assert artifacts == artifacts[..n] + [artifacts[n]];
      MatchingMembers(artifacts[..n], dependency);
    }
  }

  /** The input an agent receives for one dependency; `None` when a required one is absent. */
  function Supply(artifacts: seq<Artifact>, dependency: ArtifactInput): Option<seq<Artifact>> {
    var direct := Matching(artifacts, dependency);
    var matches :=
      if direct == [] && dependency.fallback.Some? then LatestByProducer(artifacts, dependency.fallback.value) else direct;
    if matches == [] then (if dependency.required then None else Some([]))
    else if dependency.fallback == Some(matches[0].meta.kind) then Some(matches)
    else Some([matches[|matches| - 1]])
  }

  function Select(inputs: seq<ArtifactInput>, artifacts: seq<Artifact>): Option<seq<Artifact>> {
    if inputs == [] then Some([])
    else
      var n := |inputs| - 1;
      var before := Select(inputs[..n], artifacts);
      var last := Supply(artifacts, inputs[n]);
      if before.None? || last.None? then None else Some(before.value + last.value)
  }

  /** Selects one current snapshot per declared dependency, in contract order. */
  method SelectAgentArtifacts(spec: AgentSpec, artifacts: seq<Artifact>) returns (selected: Option<seq<Artifact>>)
    ensures selected == Select(spec.inputs, artifacts)
  {
    var chosen := [];
    for n := 0 to |spec.inputs|
      invariant Select(spec.inputs[..n], artifacts) == Some(chosen)
    {
      var supplied := SupplyOne(artifacts, spec.inputs[n]);
      SelectExtends(spec.inputs, n, artifacts);
      if supplied.None? {
        SelectStops(spec.inputs, n + 1, artifacts);
        return None;
      }
      chosen := chosen + supplied.value;
    }
    assert spec.inputs[..|spec.inputs|] == spec.inputs;
    selected := Some(chosen);
  }

  method SupplyOne(artifacts: seq<Artifact>, dependency: ArtifactInput) returns (supplied: Option<seq<Artifact>>)
    ensures supplied == Supply(artifacts, dependency)
  {
    var matches := Matching(artifacts, dependency);
    if matches == [] && dependency.fallback.Some? {
      matches := LatestByProducer(artifacts, dependency.fallback.value);
    }
    if matches == [] {
      return if dependency.required then None else Some([]);
    }
    if dependency.fallback == Some(matches[0].meta.kind) {
      return Some(matches);
    }
    return Some([matches[|matches| - 1]]);
  }

  lemma SelectExtends(inputs: seq<ArtifactInput>, n: nat, artifacts: seq<Artifact>)
    requires n < |inputs|
    ensures var before, last := Select(inputs[..n], artifacts), Supply(artifacts, inputs[n]);
            Select(inputs[..n + 1], artifacts) ==
              if before.None? || last.None? then None else Some(before.value + last.value)
  {
    assert inputs[..n + 1][..n] == inputs[..n];
  }

  lemma {:induction false} SelectStops(inputs: seq<ArtifactInput>, n: nat, artifacts: seq<Artifact>)
    requires n <= |inputs| && Select(inputs[..n], artifacts).None?
    ensures Select(inputs, artifacts).None?
  {
    if n < |inputs| {
      var k := |inputs| - 1;
      assert inputs[..k][..n] == inputs[..n];
      SelectStops(inputs[..k], n, artifacts);
    } else {
      assert inputs[..n] == inputs;
    }
  }

  /** An available input: a match, or an alternative of the fallback kind. */
  ghost predicate Available(artifacts: seq<Artifact>, dependency: ArtifactInput) {
    exists a :: a in artifacts && (Matches(a, dependency) || dependency.fallback == Some(a.meta.kind))
  }

  /** Selection fails exactly when a required input is not available, and selects only listed artifacts. */
  lemma {:induction false} SelectSucceedsIff(inputs: seq<ArtifactInput>, artifacts: seq<Artifact>)
    ensures Select(inputs, artifacts).Some? <==>
            forall d :: d in inputs && d.required ==> Available(artifacts, d)
    ensures Select(inputs, artifacts).Some? ==>
            forall a :: a in Select(inputs, artifacts).value ==> a in artifacts
  {
    if inputs != [] {
      var n := |inputs| - 1;
      assert inputs == inputs[..n] + [inputs[n]];
      SelectSucceedsIff(inputs[..n], artifacts);
      SupplyIff(artifacts, inputs[n]);
    }
  }

  lemma SupplyIff(artifacts: seq<Artifact>, d: ArtifactInput)
    ensures Supply(artifacts, d).Some? <==> (d.required ==> Available(artifacts, d))
    ensures Supply(artifacts, d).Some? ==> forall a :: a in Supply(artifacts, d).value ==> a in artifacts
  {
    MatchingMembers(artifacts, d);
    var direct := Matching(artifacts, d);
    if direct != [] {
      assert direct[|direct| - 1] in direct;
      assert Available(artifacts, d);
    } else if d.fallback.Some? {
      var latest := LatestByProducer(artifacts, d.fallback.value);
      LatestByProducerMembers(artifacts, d.fallback.value);
      if latest != [] {
        assert latest[0] in latest && d.fallback == Some(latest[0].meta.kind);
        assert Available(artifacts, d);
      }
    }
  }
}
