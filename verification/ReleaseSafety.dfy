/** End to end: what a released bundle is guaranteed to rest on, over every run of the hub. */
module ReleaseSafety {
  import opened Kinds
  import opened Results
  import opened Publication
  import opened Artifacts
  import EvaluationModel
  import opened Sources
  import opened Gates
  import opened HubIndex
  import Catalog
  import Context

  const INTEGRATOR := "trusted-integration-service"
  const GATEKEEPER := "deterministic-quality-gates"

  datatype Config = Config(
    run: RunId, runtime: string, threshold: real, pinned: string -> bool, assets: seq<SourceFile>)

  /** `seen` remembers the listing each gate report was computed over; `bundles` are results not yet published. */
  datatype Hub = Hub(index: seq<Artifact>, used: set<Id>, seen: map<Id, seq<Artifact>>, bundles: set<Bundle>)

  const START := Hub([], {}, map[], {})

  datatype Step =
    | Integrate(meta: Meta)
    | RunGates(meta: Meta)
    | Other(artifact: Artifact)
    | Delegate
    | PublishBundle(meta: Meta, bundle: Bundle)

  function ReleaseContext(index: seq<Artifact>): Option<seq<Artifact>> {
    Context.Select(Catalog.RELEASE.inputs, index)
  }

  ghost predicate New(c: Config, h: Hub, m: Meta) {
    m.run == c.run && m.id !in h.used
  }

  /** Integration and gates are the hub's own atomic steps; specialists and services publish everything else. */
  ghost predicate Enabled(c: Config, h: Hub, step: Step) {
    match step
    case Integrate(m) =>
      New(c, h, m) && m.kind == IntegratedSource && m.producer == INTEGRATOR && MergeSources(h.index, c.pinned).Success?
    case RunGates(m) =>
      New(c, h, m) && m.kind == QualityGateReport && m.producer == GATEKEEPER
    case Other(a) =>
      New(c, h, a.meta) && a.actual == a.meta.digest && a.content.bundle.None?
      && a.meta.kind != IntegratedSource && a.meta.kind != QualityGateReport
    case Delegate => ReleaseContext(h.index).Some?
    case PublishBundle(m, b) => New(c, h, m) && m.kind == ReleaseBundle && b in h.bundles
  }

  ghost function NewArtifact(c: Config, h: Hub, step: Step): Artifact
    requires Enabled(c, h, step) && !step.Delegate?
  {
    match step
    case Integrate(m) =>
      Artifact(m, EMPTY.(source := Some(MergeSources(h.index, c.pinned).value)), m.digest, None)
    case RunGates(m) =>
      Artifact(m, EMPTY.(gates := Some(Evaluate(c.run, h.index, c.runtime))), m.digest, None)
    case Other(a) => a
    case PublishBundle(m, b) => Artifact(m, EMPTY.(bundle := Some(b)), m.digest, None)
  }

  ghost function Apply(c: Config, h: Hub, step: Step): Hub
    requires Enabled(c, h, step)
  {
    if step.Delegate? then
      var result := AssembleRelease(ReleaseContext(h.index).value, c.threshold, c.assets);
      if result.Success? then h.(bundles := h.bundles + {result.value}) else h
    else
      var a := NewArtifact(c, h, step);
      h.(index := PublishTo(h.index, a), used := h.used + {a.meta.id},
         seen := if step.RunGates? then h.seen[a.meta.id := h.index] else h.seen)
  }

  ghost predicate ValidRun(c: Config, h: Hub, steps: seq<Step>)
    decreases |steps|
  {
    steps == [] || (Enabled(c, h, steps[0]) && ValidRun(c, Apply(c, h, steps[0]), steps[1..]))
  }

  ghost function Final(c: Config, h: Hub, steps: seq<Step>): Hub
    requires ValidRun(c, h, steps)
    decreases |steps|
  {
    if steps == [] then h else Final(c, Apply(c, h, steps[0]), steps[1..])
  }

  // ----- what every step keeps -----

  ghost predicate Sound(c: Config, a: Artifact) {
    && a.meta.run == c.run && a.actual == a.meta.digest
    && (a.meta.kind == IntegratedSource ==> a.meta.producer == INTEGRATOR && a.content.source.Some?)
    && (a.meta.kind == QualityGateReport ==> a.meta.producer == GATEKEEPER)
  }

  /** A listing without duplicates in which nothing later would have deleted something earlier. */
  ghost predicate Listing(c: Config, index: seq<Artifact>) {
    && (forall a :: a in index ==> Sound(c, a))
    && (forall i, j :: 0 <= i < j < |index| ==>
          index[i].meta.id != index[j].meta.id && !Hits(index[j].meta, index[i].meta))
  }

  /** A gate report still lists before it everything it was computed over, except what it replaced itself. */
  ghost predicate GateStands(c: Config, h: Hub, i: int)
    requires 0 <= i < |h.index|
  {
    var g := h.index[i];
    && g.meta.id in h.seen && Listing(c, h.seen[g.meta.id])
    && g.content.gates == Some(Evaluate(c.run, h.seen[g.meta.id], c.runtime))
    && Keep(h.seen[g.meta.id], g.meta) == h.index[..i]
  }

  ghost predicate Inv(c: Config, h: Hub) {
    && Listing(c, h.index)
    && (forall a :: a in h.index ==> a.meta.id in h.used)
    && h.seen.Keys <= h.used
    && (forall i :: 0 <= i < |h.index| && h.index[i].meta.kind == QualityGateReport ==> GateStands(c, h, i))
    && (forall a :: a in h.index && a.content.bundle.Some? ==> a.content.bundle.value in h.bundles)
  }

  lemma PublishKeepsListing(c: Config, index: seq<Artifact>, a: Artifact)
    requires Listing(c, index) && Sound(c, a) && forall b :: b in index ==> b.meta.id != a.meta.id
    ensures Listing(c, PublishTo(index, a))
  {
    KeepMembers(index, a.meta);
    var kept := Keep(index, a.meta);
    forall k, l | 0 <= k < l < |kept| + 1
      ensures (kept + [a])[k].meta.id != (kept + [a])[l].meta.id && !Hits((kept + [a])[l].meta, (kept + [a])[k].meta)
    {
      assert kept[k] in kept;
      if l < |kept| {
        var i, j := KeptFrom(index, a.meta, k, l);
      }
    }
  }

  /** What leaves a gate report standing touches nothing listed before it. */
  lemma GatePrefixStands(c: Config, index: seq<Artifact>, i: int, b: Artifact, m: Meta)
    requires Listing(c, index) && 0 <= i < |index| && index[i].meta.kind == QualityGateReport
    requires b in index[..i] && m.run == c.run && (m.kind == QualityGateReport ==> m.producer == GATEKEEPER)
    requires !Hits(m, index[i].meta)
    ensures !Hits(m, b.meta)
  {
    var j :| 0 <= j < i && index[j] == b;
    assert index[i] in index;
    assert !Hits(index[i].meta, b.meta);
    assert Sound(c, index[i]);
  }

  lemma PublishKeepsGates(c: Config, h: Hub, step: Step)
    requires Inv(c, h) && Enabled(c, h, step) && !step.Delegate?
    requires Sound(c, NewArtifact(c, h, step))
    ensures var t := Apply(c, h, step);
            forall k :: 0 <= k < |t.index| && t.index[k].meta.kind == QualityGateReport ==> GateStands(c, t, k)
  {
    var a := NewArtifact(c, h, step);
    var t := Apply(c, h, step);
    var kept := Keep(h.index, a.meta);
    forall k | 0 <= k < |t.index| && t.index[k].meta.kind == QualityGateReport ensures GateStands(c, t, k) {
      if k < |kept| {
        KeptGateStands(c, h, step, k);
      } else {
        assert t.index[..k] == kept;
      }
    }
  }

  lemma KeptGateStands(c: Config, h: Hub, step: Step, k: int)
    requires Inv(c, h) && Enabled(c, h, step) && !step.Delegate?
    requires Sound(c, NewArtifact(c, h, step))
    requires 0 <= k < |Keep(h.index, NewArtifact(c, h, step).meta)|
    requires Keep(h.index, NewArtifact(c, h, step).meta)[k].meta.kind == QualityGateReport
    ensures GateStands(c, Apply(c, h, step), k)
  {
    var a := NewArtifact(c, h, step);
    var i := KeptGate(c, h.index, a, k);
    assert GateStands(c, h, i);
    assert Apply(c, h, step).index[..k] == Keep(h.index, a.meta)[..k];
    assert h.index[i].meta.id in h.used;
  }

  /** A kept gate report is a former one, and everything listed before it is kept as well. */
  lemma KeptGate(c: Config, index: seq<Artifact>, a: Artifact, k: int) returns (i: int)
    requires Listing(c, index) && Sound(c, a) && 0 <= k < |Keep(index, a.meta)|
    requires Keep(index, a.meta)[k].meta.kind == QualityGateReport
    ensures 0 <= i < |index| && index[i] == Keep(index, a.meta)[k] && Keep(index, a.meta)[..k] == index[..i]
  {
    var kept := Keep(index, a.meta);
    KeepMembers(index, a.meta);
    assert kept[k] in kept;
    var j;
    i, j := KeptFrom(index, a.meta, k, |kept|);
    forall b | b in index[..i] ensures !Hits(a.meta, b.meta) {
      GatePrefixStands(c, index, i, b, a.meta);
    }
    KeepAll(index[..i], a.meta);
  }

  lemma NewArtifactIsSound(c: Config, h: Hub, step: Step)
    requires Enabled(c, h, step) && !step.Delegate?
    ensures Sound(c, NewArtifact(c, h, step))
  {
  }

  lemma PublishKeepsUse(c: Config, h: Hub, step: Step)
    requires Inv(c, h) && Enabled(c, h, step) && !step.Delegate?
    ensures var t := Apply(c, h, step);
            && (forall a :: a in t.index ==> a.meta.id in t.used) && t.seen.Keys <= t.used
            && (forall a :: a in t.index && a.content.bundle.Some? ==> a.content.bundle.value in t.bundles)
  {
    KeepMembers(h.index, NewArtifact(c, h, step).meta);
  }

  lemma StepPreserves(c: Config, h: Hub, step: Step)
    requires Inv(c, h) && Enabled(c, h, step)
    ensures Inv(c, Apply(c, h, step))
  {
    if step.Delegate? {
      DelegatePreserves(c, h, step);
    } else {
      NewArtifactIsSound(c, h, step);
      PublishKeepsUse(c, h, step);
      PublishKeepsListing(c, h.index, NewArtifact(c, h, step));
      PublishKeepsGates(c, h, step);
    }
  }

  lemma DelegatePreserves(c: Config, h: Hub, step: Step)
    requires Inv(c, h) && Enabled(c, h, step) && step.Delegate?
    ensures Inv(c, Apply(c, h, step))
  {
    var t := Apply(c, h, step);
    assert t.index == h.index && t.seen == h.seen;
    forall i | 0 <= i < |t.index| && t.index[i].meta.kind == QualityGateReport ensures GateStands(c, t, i) {
      assert GateStands(c, h, i);
    }
  }

  // ----- what a released bundle rests on -----

  /** The listing holds a checked report of this kind about the source. */
  ghost predicate Evidenced(c: Config, listing: seq<Artifact>, s: Artifact, kind: Kind) {
    exists a, r :: a in listing && r in Reports(a) && Gates.Matches(kind, a, r, s) && CheckReport(kind, s, a, r, c.runtime)
  }

  /** Every kind of evidence about this very source, and a score at the threshold. */
  ghost predicate Earned(c: Config, listing: seq<Artifact>, s: Artifact, review: Artifact) {
    && (forall kind :: kind in EVIDENCE_KINDS ==> Evidenced(c, listing, s, kind))
    && review.content.evaluation.Some?
    && var score := EvaluationModel.OverallScore(review.content.evaluation.value); score.Some? && score.value >= c.threshold
  }

  ghost predicate Rests(c: Config, listing: seq<Artifact>, b: Bundle, s: Artifact, g: Artifact, review: Artifact) {
    && s in listing && g in listing && review in listing
    && s.meta.kind == IntegratedSource && s.meta.id == b.source && s.content.source.Some?
    && b.files == ProjectFiles(s.content.source.value) + c.assets
    && g.meta.kind == QualityGateReport && g.meta.id == b.gate
    && g.content.gates.Some? && g.content.gates.value.sources == [s.meta.id]
    && review.meta.kind == EvaluationReport && review.meta.id == b.evaluation
    && (HumanAccepted(listing, review) || (g.content.gates.value.verdict.VerdictPassed? && Earned(c, listing, s, review)))
  }

  ghost predicate Backed(c: Config, listing: seq<Artifact>, b: Bundle) {
    exists s, g, review :: Rests(c, listing, b, s, g, review)
  }

  lemma {:induction false} LastMatch(artifacts: seq<Artifact>, kind: Kind)
    ensures var d := Catalog.ArtifactInput(kind, None, true, None);
            var matches := Context.Matching(artifacts, d);
            && (matches == [] <==> Latest(artifacts, kind).None?)
            && (matches != [] ==> matches[|matches| - 1] == Latest(artifacts, kind).value)
            && Context.Matching(artifacts, d.(required := false)) == matches
  {
    if artifacts != [] {
      LastMatch(artifacts[..|artifacts| - 1], kind);
    }
  }

  function Listed(a: Option<Artifact>): seq<Artifact> {
    if a.Some? then [a.value] else []
  }

  lemma SuppliedLast(index: seq<Artifact>, kind: Kind)
    ensures Context.Supply(index, Catalog.May(kind)) == Some(Listed(Latest(index, kind)))
    ensures Context.Supply(index, Catalog.Needs(kind))
            == if Latest(index, kind).None? then None else Some(Listed(Latest(index, kind)))
  {
    LastMatch(index, kind);
  }

  lemma SelectSnoc(inputs: seq<Catalog.ArtifactInput>, d: Catalog.ArtifactInput, index: seq<Artifact>)
    ensures var before := Context.Select(inputs, index);
            var last := Context.Supply(index, d);
            Context.Select(inputs + [d], index)
              == if before.None? || last.None? then None else Some(before.value + last.value)
  {
    assert (inputs + [d])[..|inputs|] == inputs;
  }

  /** The release agent sees the latest source, gate report, evaluation and human response. */
  lemma ReleaseSees(index: seq<Artifact>)
    requires ReleaseContext(index).Some?
    ensures ReleaseContext(index).value
            == [] + Listed(Latest(index, IntegratedSource)) + Listed(Latest(index, QualityGateReport))
               + Listed(Latest(index, EvaluationReport)) + Listed(Latest(index, HumanResponse))
  {
    var i1 := [] + [Catalog.May(IntegratedSource)];
    var i2 := i1 + [Catalog.Needs(QualityGateReport)];
    var i3 := i2 + [Catalog.Needs(EvaluationReport)];
    assert i3 + [Catalog.May(HumanResponse)] == Catalog.RELEASE.inputs;
    SuppliedLast(index, IntegratedSource);
    SuppliedLast(index, QualityGateReport);
    SuppliedLast(index, EvaluationReport);
    SuppliedLast(index, HumanResponse);
    SelectSnoc([], Catalog.May(IntegratedSource), index);
    SelectSnoc(i1, Catalog.Needs(QualityGateReport), index);
    SelectSnoc(i2, Catalog.Needs(EvaluationReport), index);
    SelectSnoc(i3, Catalog.May(HumanResponse), index);
  }

  lemma LatestSnoc(front: seq<Artifact>, a: Option<Artifact>, kind: Kind)
    ensures Latest(front + Listed(a), kind) == if a.Some? && a.value.meta.kind == kind then a else Latest(front, kind)
  {
    var all := front + Listed(a);
    if a.Some? {
      assert all[..|all| - 1] == front;
    } else {
      assert all == front;
    }
  }

  lemma LatestOfFour(s: Option<Artifact>, g: Option<Artifact>, r: Option<Artifact>, a: Option<Artifact>, kind: Kind)
    requires s.Some? ==> s.value.meta.kind == IntegratedSource
    requires g.Some? ==> g.value.meta.kind == QualityGateReport
    requires r.Some? ==> r.value.meta.kind == EvaluationReport
    requires a.Some? ==> a.value.meta.kind == HumanResponse
    ensures Latest([] + Listed(s) + Listed(g) + Listed(r) + Listed(a), kind)
            == if kind == IntegratedSource then s
               else if kind == QualityGateReport then g
               else if kind == EvaluationReport then r
               else if kind == HumanResponse then a
               else None
  {
    LatestSnoc([], s, kind);
    LatestSnoc([] + Listed(s), g, kind);
    LatestSnoc([] + Listed(s) + Listed(g), r, kind);
    LatestSnoc([] + Listed(s) + Listed(g) + Listed(r), a, kind);
  }

  lemma LatestOfSelection(index: seq<Artifact>, kind: Kind)
    requires ReleaseContext(index).Some?
    requires kind in {IntegratedSource, QualityGateReport, EvaluationReport}
    ensures Latest(ReleaseContext(index).value, kind) == Latest(index, kind)
  {
    ReleaseSees(index);
    LatestOfFour(Latest(index, IntegratedSource), Latest(index, QualityGateReport),
                 Latest(index, EvaluationReport), Latest(index, HumanResponse), kind);
  }

  /** A gate report in the listing was computed over the one integrated source of the listing. */
  lemma GateSourceIsCurrent(c: Config, h: Hub, i: int, s: Artifact)
    requires Inv(c, h) && 0 <= i < |h.index| && h.index[i].meta.kind == QualityGateReport
    requires s in h.index && s.meta.kind == IntegratedSource
    ensures h.index[i].meta.id in h.seen
    ensures h.index[i].content.gates == Some(Evaluate(c.run, h.seen[h.index[i].meta.id], c.runtime))
    ensures CurrentSources(h.seen[h.index[i].meta.id]) == [s] && s.content.source.Some?
    ensures h.index[i].content.gates.value.sources == [s.meta.id]
    ensures forall a :: a in h.seen[h.index[i].meta.id] && !Hits(h.index[i].meta, a.meta) ==> a in h.index
  {
    var g := h.index[i];
    assert GateStands(c, h, i);
    var over := h.seen[g.meta.id];
    SourcePrecedesGate(c, h.index, i, s);
    KeepMembers(over, g.meta);
    OneSource(c, over, s);
    GatesOverOneSource(c, over, s);
    assert Sound(c, s);
  }

  lemma SourcePrecedesGate(c: Config, index: seq<Artifact>, i: int, s: Artifact)
    requires Listing(c, index) && 0 <= i < |index| && index[i].meta.kind == QualityGateReport
    requires s in index && s.meta.kind == IntegratedSource
    ensures s in index[..i]
  {
    var j :| 0 <= j < |index| && index[j] == s;
    assert Sound(c, index[i]) && Sound(c, index[j]);
    assert Hits(s.meta, index[i].meta);
  }

  /** Gates over a listing whose latest source is `s` name just that source. */
  lemma GatesOverOneSource(c: Config, over: seq<Artifact>, s: Artifact)
    requires Listing(c, over) && Latest(over, IntegratedSource) == Some(s)
    ensures CurrentSources(over) == [s] && Evaluate(c.run, over, c.runtime).sources == [s.meta.id]
  {
    assert Sound(c, s);
    assert Intact(over, c.run) by {
      assert forall a :: a in over ==> Sound(c, a);
    }
    assert Executable([s]) == Executable([s][..0]) + [s] == [s];
  }

  /** The integrator's slot holds one source, so the latest is the only one. */
  lemma OneSource(c: Config, index: seq<Artifact>, s: Artifact)
    requires Listing(c, index) && s in index && s.meta.kind == IntegratedSource
    ensures Latest(index, IntegratedSource) == Some(s)
  {
    var i := LatestAt(index, IntegratedSource);
    var j :| 0 <= j < |index| && index[j] == s;
    assert Sound(c, index[i]) && Sound(c, index[j]);
    SourcesHitEachOther(c, index[i], s);
    assert i == j;
  }

  lemma SourcesHitEachOther(c: Config, a: Artifact, b: Artifact)
    requires Sound(c, a) && Sound(c, b) && a.meta.kind == IntegratedSource && b.meta.kind == IntegratedSource
    ensures Hits(a.meta, b.meta) && Hits(b.meta, a.meta)
  {
    assert INTEGRATOR[8] != TRUSTED_SANDBOX[8];
  }

  /** What a successful assembly checked, in terms of the latest inputs it saw. */
  lemma AssembledFrom(c: Config, seen: seq<Artifact>, b: Bundle)
    requires AssembleRelease(seen, c.threshold, c.assets) == Success(b)
    ensures Latest(seen, IntegratedSource).Some? && Latest(seen, QualityGateReport).Some?
    ensures Latest(seen, EvaluationReport).Some?
    ensures var s := Latest(seen, IntegratedSource).value;
            && s.content.source.Some? && b.source == s.meta.id
            && b.files == ProjectFiles(s.content.source.value) + c.assets
    ensures var g, review := Latest(seen, QualityGateReport).value, Latest(seen, EvaluationReport).value;
            && b.gate == g.meta.id && b.evaluation == review.meta.id
            && g.content.gates.Some? && review.content.evaluation.Some?
            && Qualified(seen, g.content.gates.value, review, c.threshold)
  {
  }

  /** A bundle assembled from the current listing rests on that listing. */
  lemma AssembledIsBacked(c: Config, h: Hub, b: Bundle)
    requires Inv(c, h) && ReleaseContext(h.index).Some?
    requires AssembleRelease(ReleaseContext(h.index).value, c.threshold, c.assets) == Success(b)
    ensures Backed(c, h.index, b)
  {
    var seen := ReleaseContext(h.index).value;
    AssembledFrom(c, seen, b);
    LatestOfSelection(h.index, IntegratedSource);
    LatestOfSelection(h.index, QualityGateReport);
    LatestOfSelection(h.index, EvaluationReport);
    var i := LatestAt(h.index, QualityGateReport);
    QualifiedRests(c, h, b, seen, i, Latest(h.index, IntegratedSource).value, Latest(h.index, EvaluationReport).value);
  }

  lemma QualifiedRests(c: Config, h: Hub, b: Bundle, seen: seq<Artifact>, i: int, s: Artifact, review: Artifact)
    requires Inv(c, h) && ReleaseContext(h.index) == Some(seen)
    requires 0 <= i < |h.index| && h.index[i].meta.kind == QualityGateReport && h.index[i].meta.id == b.gate
    requires s in h.index && s.meta.kind == IntegratedSource && s.content.source.Some? && s.meta.id == b.source
    requires b.files == ProjectFiles(s.content.source.value) + c.assets
    requires review in h.index && review.meta.kind == EvaluationReport && review.meta.id == b.evaluation
    requires h.index[i].content.gates.Some? && review.content.evaluation.Some?
    requires Qualified(seen, h.index[i].content.gates.value, review, c.threshold)
    ensures Backed(c, h.index, b)
  {
    GateSourceIsCurrent(c, h, i, s);
    if HumanAccepted(seen, review) {
      AcceptStands(h.index, seen, review);
    } else {
      EvidenceStands(c, h, i, s);
      ScoreEarns(c, h.index, seen, h.index[i], s, review);
    }
    assert Rests(c, h.index, b, s, h.index[i], review);
  }

  /** A human accept the release agent saw is in the listing. */
  lemma AcceptStands(index: seq<Artifact>, seen: seq<Artifact>, review: Artifact)
    requires ReleaseContext(index) == Some(seen) && HumanAccepted(seen, review)
    ensures HumanAccepted(index, review)
  {
    SeenIsListed(Catalog.RELEASE.inputs, index, seen);
  }

  lemma SeenIsListed(inputs: seq<Catalog.ArtifactInput>, index: seq<Artifact>, seen: seq<Artifact>)
    requires Context.Select(inputs, index) == Some(seen)
    ensures forall a :: a in seen ==> a in index
  {
    Context.SelectSucceedsIff(inputs, index);
  }

  lemma ScoreEarns(c: Config, index: seq<Artifact>, seen: seq<Artifact>, g: Artifact, s: Artifact, review: Artifact)
    requires g.content.gates.Some? && review.content.evaluation.Some? && !HumanAccepted(seen, review)
    requires Qualified(seen, g.content.gates.value, review, c.threshold)
    requires g.content.gates.value.verdict.VerdictPassed? ==>
               forall kind :: kind in EVIDENCE_KINDS ==> Evidenced(c, index, s, kind)
    ensures g.content.gates.value.verdict.VerdictPassed? && Earned(c, index, s, review)
  {
  }

  /** A passed gate report's evidence is still in the listing. */
  lemma EvidenceStands(c: Config, h: Hub, i: int, s: Artifact)
    requires Inv(c, h) && 0 <= i < |h.index| && h.index[i].meta.kind == QualityGateReport
    requires s in h.index && s.meta.kind == IntegratedSource
    ensures h.index[i].content.gates.Some?
    ensures h.index[i].content.gates.value.verdict.VerdictPassed? ==>
              forall kind :: kind in EVIDENCE_KINDS ==> Evidenced(c, h.index, s, kind)
  {
    GateSourceIsCurrent(c, h, i, s);
    var g := h.index[i];
    var over := h.seen[g.meta.id];
    if g.content.gates.value.verdict.VerdictPassed? {
      PassedProves(c.run, over, c.runtime, s);
      forall kind | kind in EVIDENCE_KINDS ensures Evidenced(c, h.index, s, kind) {
        KindStands(c, over, h.index, g.meta, s, kind);
      }
    }
  }

  lemma PassedProves(run: RunId, over: seq<Artifact>, runtime: string, s: Artifact)
    requires Evaluate(run, over, runtime).verdict.VerdictPassed? && CurrentSources(over) == [s]
    ensures forall kind :: kind in EVIDENCE_KINDS ==> LastEvidenceChecks(kind, over, s, runtime)
  {
    PassedIff(run, over, runtime);
    assert s in CurrentSources(over);
    assert FullyProven(over, s, runtime);
  }

  lemma KindStands(c: Config, over: seq<Artifact>, index: seq<Artifact>, gate: Meta, s: Artifact, kind: Kind)
    requires kind in EVIDENCE_KINDS && gate.kind == QualityGateReport
    requires LastEvidenceChecks(kind, over, s, c.runtime)
    requires forall a :: a in over && !Hits(gate, a.meta) ==> a in index
    ensures Evidenced(c, index, s, kind)
  {
    var a, r := ChecksGiveReport(kind, over, s, c.runtime);
    EvidenceIsSpared(gate, a.meta, kind);
    ReportEvidences(c, index, s, kind, a, r);
  }

  lemma EvidenceIsSpared(gate: Meta, m: Meta, kind: Kind)
    requires kind in EVIDENCE_KINDS && gate.kind == QualityGateReport && m.kind == kind
    ensures !Hits(gate, m)
  {
  }

  lemma ReportEvidences(c: Config, index: seq<Artifact>, s: Artifact, kind: Kind, a: Artifact, r: Report)
    requires a in index && r in Reports(a) && Gates.Matches(kind, a, r, s) && CheckReport(kind, s, a, r, c.runtime)
    ensures Evidenced(c, index, s, kind)
  {
  }

  /** The bundle rests on a listing the hub had at some point of the run. */
  ghost predicate BackedInRun(c: Config, steps: seq<Step>, b: Bundle)
    requires ValidRun(c, START, steps)
  {
    exists k :: 0 <= k <= |steps| && ValidRun(c, START, steps[..k]) && Backed(c, Final(c, START, steps[..k]).index, b)
  }

  lemma {:induction false} SplitRun(c: Config, h: Hub, steps: seq<Step>, k: nat)
    requires ValidRun(c, h, steps) && k <= |steps|
    ensures ValidRun(c, h, steps[..k])
    ensures k < |steps| ==> Enabled(c, Final(c, h, steps[..k]), steps[k]) && ValidRun(c, h, steps[..k + 1])
    ensures k < |steps| ==> Final(c, h, steps[..k + 1]) == Apply(c, Final(c, h, steps[..k]), steps[k])
    decreases k
  {
    if k > 0 {
      assert steps[..k][1..] == steps[1..][..k - 1];
      SplitRun(c, Apply(c, h, steps[0]), steps[1..], k - 1);
      if k < |steps| {
        assert steps[..k + 1][1..] == steps[1..][..k];
      }
    } else if k < |steps| {
      assert steps[..1][1..] == [];
    }
  }

  lemma {:induction false} RunPreserves(c: Config, h: Hub, steps: seq<Step>)
    requires Inv(c, h) && ValidRun(c, h, steps)
    ensures Inv(c, Final(c, h, steps))
    decreases |steps|
  {
    if steps != [] {
      StepPreserves(c, h, steps[0]);
      RunPreserves(c, Apply(c, h, steps[0]), steps[1..]);
    }
  }

  lemma PrefixInv(c: Config, steps: seq<Step>, k: nat)
    requires ValidRun(c, START, steps) && k <= |steps|
    ensures ValidRun(c, START, steps[..k]) && Inv(c, Final(c, START, steps[..k]))
  {
    SplitRun(c, START, steps, k);
    RunPreserves(c, START, steps[..k]);
  }

  lemma {:induction false} RunBacks(c: Config, steps: seq<Step>, k: nat, b: Bundle)
    requires ValidRun(c, START, steps) && k <= |steps| && ValidRun(c, START, steps[..k])
    requires b in Final(c, START, steps[..k]).bundles
    ensures BackedInRun(c, steps, b)
  {
    assert steps[..0] == [];
    if k > 0 {
      PrefixInv(c, steps, k - 1);
      SplitRun(c, START, steps, k - 1);
      if b in Final(c, START, steps[..k - 1]).bundles {
        RunBacks(c, steps, k - 1, b);
      } else {
        StepBacks(c, steps, k - 1, b);
      }
    }
  }

  lemma StepBacks(c: Config, steps: seq<Step>, k: nat, b: Bundle)
    requires ValidRun(c, START, steps) && k < |steps| && ValidRun(c, START, steps[..k])
    requires Inv(c, Final(c, START, steps[..k])) && Enabled(c, Final(c, START, steps[..k]), steps[k])
    requires b in Apply(c, Final(c, START, steps[..k]), steps[k]).bundles && b !in Final(c, START, steps[..k]).bundles
    ensures BackedInRun(c, steps, b)
  {
    NewBundleIsBacked(c, Final(c, START, steps[..k]), steps[k], b);
  }

  lemma NewBundleIsBacked(c: Config, h: Hub, step: Step, b: Bundle)
    requires Inv(c, h) && Enabled(c, h, step) && b in Apply(c, h, step).bundles && b !in h.bundles
    ensures Backed(c, h.index, b)
  {
    AssembledIsBacked(c, h, b);
  }

  /**
    Release safety: over every run of the hub, each released bundle in the index takes its project files from
    the integrated source its gate report was computed over, and rests on a human acceptance of that very
    evaluation or on checked evidence of every kind about that source and a score at the threshold.
   */
  lemma ReleasesAreBacked(c: Config, steps: seq<Step>, a: Artifact)
    requires ValidRun(c, START, steps)
    requires a in Final(c, START, steps).index && a.content.bundle.Some?
    ensures BackedInRun(c, steps, a.content.bundle.value)
  {
    assert steps[..|steps|] == steps;
    PrefixInv(c, steps, |steps|);
    RunBacks(c, steps, |steps|, a.content.bundle.value);
  }

  predicate IsSource(a: Artifact, id: Id) {
    a.meta.id == id && a.content.source.Some? && a.meta.kind in {IntegratedSource, CodeChange}
  }

  ghost predicate ListsSource(listing: seq<Artifact>, id: Id) {
    exists a :: a in listing && IsSource(a, id)
  }

  /** Gates name only listed sources with files. */
  lemma GateNamesListed(over: seq<Artifact>, run: RunId, runtime: string, id: Id)
    requires id in Evaluate(run, over, runtime).sources
    ensures ListsSource(over, id)
  {
    var sources := CurrentSources(over);
    ExecutableMembers(sources);
    var a :| a in Executable(sources) && a.meta.id == id;
    if Latest(over, IntegratedSource).None? {
      LatestChangesAreLast(over);
    }
    assert a in over && IsSource(a, id);
  }

  lemma {:induction false} ExecutableMembers(sources: seq<Artifact>)
    ensures forall a :: a in Executable(sources) ==> a in sources && a.content.source.Some?
  {
    if sources != [] {
      ExecutableMembers(sources[..|sources| - 1]);
    }
  }

  /**
    Lineage over every run: a listed gate report was computed over a listing of which everything is still listed
    except what the report itself replaced.
   */
  lemma ListedGateKeepsItsInputs(c: Config, steps: seq<Step>, g: Artifact)
    requires ValidRun(c, START, steps)
    requires g in Final(c, START, steps).index && g.meta.kind == QualityGateReport
    ensures var h := Final(c, START, steps);
            && g.meta.id in h.seen && g.content.gates == Some(Evaluate(c.run, h.seen[g.meta.id], c.runtime))
            && forall a :: a in h.seen[g.meta.id] && !Hits(g.meta, a.meta) ==> a in h.index
  {
    assert steps[..|steps|] == steps;
    PrefixInv(c, steps, |steps|);
    var h := Final(c, START, steps);
    var i :| 0 <= i < |h.index| && h.index[i] == g;
    assert GateStands(c, h, i);
    KeepMembers(h.seen[g.meta.id], g.meta);
    forall a | a in h.seen[g.meta.id] && !Hits(g.meta, a.meta) ensures a in h.index {
      assert a in h.index[..i];
    }
  }

  /** In every run, every source a listed gate report was computed over is itself still listed, with its files. */
  lemma ListedGateHasItsSources(c: Config, steps: seq<Step>, g: Artifact, id: Id)
    requires ValidRun(c, START, steps)
    requires g in Final(c, START, steps).index && g.meta.kind == QualityGateReport
    requires g.content.gates.Some? && id in g.content.gates.value.sources
    ensures ListsSource(Final(c, START, steps).index, id)
  {
    ListedGateKeepsItsInputs(c, steps, g);
    var h := Final(c, START, steps);
    GateNamesListed(h.seen[g.meta.id], c.run, c.runtime, id);
    ListedSourceStands(h.seen[g.meta.id], h.index, g.meta, id);
  }

  lemma ListedSourceStands(over: seq<Artifact>, index: seq<Artifact>, gate: Meta, id: Id)
    requires gate.kind == QualityGateReport && ListsSource(over, id)
    requires forall a :: a in over && !Hits(gate, a.meta) ==> a in index
    ensures ListsSource(index, id)
  {
    var s :| s in over && IsSource(s, id);
    assert !Hits(gate, s.meta);
  }

  /** A gate report and integrated source that are listed together belong together, and to no other source. */
  lemma ListedGateNamesListedSource(c: Config, steps: seq<Step>, g: Artifact, s: Artifact)
    requires ValidRun(c, START, steps)
    requires g in Final(c, START, steps).index && g.meta.kind == QualityGateReport
    requires s in Final(c, START, steps).index && s.meta.kind == IntegratedSource
    ensures g.content.gates.Some? && g.content.gates.value.sources == [s.meta.id]
  {
    assert steps[..|steps|] == steps;
    PrefixInv(c, steps, |steps|);
    var h := Final(c, START, steps);
    var i :| 0 <= i < |h.index| && h.index[i] == g;
    GateSourceIsCurrent(c, h, i, s);
  }
}
