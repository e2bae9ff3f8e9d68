// What the sealed documents of a pass say about each other, and what the working state holds between
// the nodes that seal them.

module Evidence {
  import opened Results
  import opened Phases
  import opened Checks
  import opened Remeasure
  import opened Decide
  import opened Machine

  type Arts = map<ArtKey, Artifact>

  // The document of some kind sealed in the same pass as `a`.
  predicate Has(arts: Arts, kind: Kind, a: ArtKey) { ArtKey(kind, a.phase, a.pass) in arts }

  function Doc(arts: Arts, kind: Kind, a: ArtKey): Artifact
    requires Has(arts, kind, a)
  {
    arts[ArtKey(kind, a.phase, a.pass)]
  }

  predicate PatchLinks(arts: Arts, a: ArtKey, d: Artifact) {
    d.PatchDoc? && d.phase == a.phase && Has(arts, Provenance, a) && Doc(arts, Provenance, a) == d.provenance && d.provenance.ProvenanceDoc?
  }

  predicate VerificationLinks(arts: Arts, a: ArtKey, d: Artifact) {
    && d.VerificationDoc? && d.phase == a.phase && Has(arts, Patch, a) && Has(arts, Provenance, a)
    && d.patch == Doc(arts, Patch, a) && d.provenance == Doc(arts, Provenance, a)
    && |d.checks| > 0 && (d.passed <==> Gate(d.checks))
  }

  predicate IsolationLinks(c: Case, arts: Arts, a: ArtKey, d: Artifact) {
    && d.IsolationDoc? && Has(arts, Patch, a) && d.patch == Doc(arts, Patch, a)
    && (d.isolated ==> d.patch.PatchDoc? && d.patch.inScope && Avoids(d.patch.changed, c.manifestFiles))
  }

  predicate ComparabilityLinks(c: Case, arts: Arts, a: ArtKey, d: Artifact) {
    && d.ComparabilityDoc? && Has(arts, Isolation, a) && Doc(arts, Isolation, a).IsolationDoc?
    && d.isolated == Doc(arts, Isolation, a).isolated
    && (d.comparable <==> d.isolated && d.quality && c.baselineWorkload == c.workload)
  }

  ghost predicate FromTreatment(c: Case, effects: seq<Effect>, t: Treatment) {
    effects == EffectsOf(c.criteria, t, c.baseline) && Quality(c.criteria, t, c.baseline, c.requirements)
  }

  ghost predicate StatisticalLinks(c: Case, arts: Arts, a: ArtKey, d: Artifact) {
    && d.StatisticalDoc? && Has(arts, Comparability, a) && Doc(arts, Comparability, a).ComparabilityDoc?
    && Doc(arts, Comparability, a).comparable
    && exists t :: FromTreatment(c, d.effects, t)
  }

  predicate MeasurementLinks(arts: Arts, a: ArtKey, d: Artifact) {
    && d.MeasurementDoc? && d.phase == a.phase
    && Has(arts, Patch, a) && Has(arts, Isolation, a) && Has(arts, Comparability, a) && Has(arts, Statistical, a)
    && d.patch == Doc(arts, Patch, a) && d.isolation == Doc(arts, Isolation, a)
    && d.comparability == Doc(arts, Comparability, a) && d.statistical == Doc(arts, Statistical, a)
  }

  predicate JudgedBy(c: Case, d: Artifact, effects: seq<Effect>, checks: seq<Check>, verified: bool)
    requires d.DecisionDoc?
  {
    && EvaluateTargets(c.criteria, effects) == Ok(d.targets)
    && d.guardrails == EvaluateGuardrails(c.guardrails, effects, checks)
    && d.class_ == Classify(d.targets)
    && d.outcome == Final(Table(d.guardrails, d.class_), verified)
  }

  predicate RollbackLinks(arts: Arts, a: ArtKey, d: Artifact) {
    d.RollbackDoc? && d.phase == a.phase && Has(arts, Patch, a) && d.patch == Doc(arts, Patch, a)
  }

  predicate DecisionLinks(c: Case, arts: Arts, a: ArtKey, d: Artifact) {
    && d.DecisionDoc? && d.phase == a.phase
    && Has(arts, Measurement, a) && Has(arts, Verification, a) && Has(arts, Statistical, a)
    && d.measurement == Doc(arts, Measurement, a) && d.verification == Doc(arts, Verification, a)
    && d.verification.VerificationDoc? && d.verification.passed && Doc(arts, Statistical, a).StatisticalDoc?
    && (d.rollback.Some? <==> d.outcome == Revert)
    && (d.rollback.Some? ==> Has(arts, Rollback, a) && d.rollback.value == Doc(arts, Rollback, a))
    && (d.outcome in {Revert, Escalate} ==> Has(arts, Rollback, a) && Doc(arts, Rollback, a).RollbackDoc?)
    && JudgedBy(c, d, Doc(arts, Statistical, a).effects, d.verification.checks, FoundUntouched(arts, a))
  }

  // This pass's rollback report says the original was untouched.
  predicate FoundUntouched(arts: Arts, a: ArtKey) {
    Has(arts, Rollback, a) && Doc(arts, Rollback, a).RollbackDoc? && Doc(arts, Rollback, a).untouched
  }

  predicate ApplyLinks(arts: Arts, a: ArtKey, d: Artifact) {
    && d.ApplyDoc? && d.phase == a.phase && Has(arts, Patch, a) && d.patch == Doc(arts, Patch, a)
    && Has(arts, Decision, a) && Doc(arts, Decision, a).DecisionDoc? && Doc(arts, Decision, a).outcome == Keep
  }

  ghost predicate LinkOk(c: Case, arts: Arts, a: ArtKey)
    requires a in arts
  {
    match a.kind
    case SelectedSolution => arts[a].Solution?
    case Provenance => arts[a].ProvenanceDoc?
    case Patch => PatchLinks(arts, a, arts[a])
    case Verification => VerificationLinks(arts, a, arts[a])
    case Isolation => IsolationLinks(c, arts, a, arts[a])
    case Comparability => ComparabilityLinks(c, arts, a, arts[a])
    case Statistical => StatisticalLinks(c, arts, a, arts[a])
    case Measurement => MeasurementLinks(arts, a, arts[a])
    case Rollback => RollbackLinks(arts, a, arts[a])
    case Decision => DecisionLinks(c, arts, a, arts[a])
    case ApplyResult => ApplyLinks(arts, a, arts[a])
    case Report => arts[a].ReportDoc?
  }

  ghost predicate Linked(c: Case, arts: Arts) {
    forall a :: a in arts ==> LinkOk(c, arts, a)
  }

  ghost predicate Extends(arts: Arts, more: Arts) {
    forall a :: a in arts ==> a in more && more[a] == arts[a]
  }

  lemma LinkStays(c: Case, arts: Arts, more: Arts, a: ArtKey)
    requires Extends(arts, more) && a in arts && LinkOk(c, arts, a)
    ensures LinkOk(c, more, a)
  {
  }

  lemma LinkedGrows(c: Case, arts: Arts, seals: Arts)
    requires Linked(c, arts) && !Clash(arts, seals)
    requires forall a :: a in seals ==> LinkOk(c, arts + seals, a)
    ensures Linked(c, arts + seals)
  {
    assert Extends(arts, arts + seals);
    forall a | a in arts + seals ensures LinkOk(c, arts + seals, a) {
      if a !in seals { LinkStays(c, arts, arts + seals, a); }
    }
  }

  // ---- The working state between two nodes ---------------------------------------------------------

  predicate Picks(c: Case, done: set<string>, phase: string) {
    var i := Active(c.phases, c.tasks, done);
    i.Some? && c.phases[i.value].id == phase
  }

  // The active phase is the one S03.10 would pick now.
  predicate ActivePhase(c: Case, st: State) {
    st.phase.Some? && Picks(c, st.done, st.phase.value)
  }

  predicate PatchHere(st: State) { Here(st, Patch).Some? && Here(st, Provenance).Some? }

  predicate PassedHere(st: State) { PatchHere(st) && HasChecks(Here(st, Verification)) && Here(st, Verification).value.passed }

  predicate IsolationHere(st: State) {
    var i := Here(st, Isolation);
    i.Some? && i.value.IsolationDoc? && st.isolated == Some(i.value.isolated)
  }

  predicate ComparableHere(st: State) {
    var k := Here(st, Comparability);
    k.Some? && k.value.ComparabilityDoc? && k.value.comparable && st.quality == Some(true)
  }

  predicate QualityKnown(c: Case, st: State) {
    st.treatment.Some? && st.quality == Some(Quality(c.criteria, st.treatment.value, c.baseline, c.requirements))
  }

  predicate MeasuredHere(st: State) { PassedHere(st) && HasEffects(Here(st, Statistical)) && Here(st, Measurement).Some? }

  predicate TargetsKnown(c: Case, st: State) {
    HasEffects(Here(st, Statistical)) && EvaluateTargets(c.criteria, Here(st, Statistical).value.effects) == Ok(st.targets)
  }

  predicate GuardsKnown(c: Case, st: State) {
    && HasEffects(Here(st, Statistical)) && HasChecks(Here(st, Verification))
    && st.guards == EvaluateGuardrails(c.guardrails, Here(st, Statistical).value.effects, Here(st, Verification).value.checks)
  }

  predicate ClassKnown(st: State) { st.class_ == Some(Classify(st.targets)) }

  predicate RolledBack(st: State, untouched: bool) {
    var r := Here(st, Rollback);
    r.Some? && r.value.RollbackDoc? && r.value.untouched == untouched
  }

  predicate Tabled(st: State) { st.class_.Some? && st.verdict == Some(Table(st.guards, st.class_.value)) }

  predicate Decided(st: State) {
    st.class_.Some? && st.verdict == Some(Final(Table(st.guards, st.class_.value), st.rollback)) &&
    (st.verdict == Some(Revert) ==> RolledBack(st, true)) && (st.verdict == Some(Escalate) ==> RolledBack(st, false))
  }

  predicate DecisionIs(st: State, phase: string, pass: nat, v: Verdict) {
    var d := Find(st, Decision, phase, pass);
    d.Some? && d.value.DecisionDoc? && d.value.outcome == v
  }

  predicate WorkS3(c: Case, st: State, m: nat) {
    (m > 10 ==> ActivePhase(c, st)) && (m > 80 ==> PatchHere(st))
  }

  predicate WorkS4(st: State, m: nat) {
    (m > 10 ==> PatchHere(st)) && (m > 80 ==> st.manifest.gate == Some(Gate(st.checks)))
  }

  predicate WorkS5(c: Case, st: State, m: nat) {
    && PassedHere(st)
    && (m > 10 ==> st.protocol == Some(Protocol(c.baselineWorkload, c.environment)))
    && (m > 20 ==> IsolationHere(st))
    && (m > 40 ==> st.treatment.Some?)
    && (m > 60 ==> QualityKnown(c, st))
    && (m > 70 ==> ComparableHere(st))
    && (m > 80 ==> HasEffects(Here(st, Statistical)))
  }

  predicate WorkS6(c: Case, st: State, m: nat) {
    && (m < 90 ==> PassedHere(st))
    && (10 < m < 90 ==> MeasuredHere(st))
    && (20 < m < 90 ==> TargetsKnown(c, st))
    && (30 < m < 90 ==> GuardsKnown(c, st))
    && (40 < m < 90 ==> ClassKnown(st))
    && (m == 60 || m == 70 ==> Tabled(st))
    && (m == 70 && st.verdict == Some(Revert) ==> RolledBack(st, st.rollback))
    && (m == 80 ==> Decided(st))
    && (m == 90 ==> st.phase.Some? && st.verdict.Some? &&
                    if st.verdict.value == FixOnePart then st.attempts >= 1 && DecisionIs(st, st.phase.value, st.attempts - 1, FixOnePart)
                    else DecisionIs(st, st.phase.value, st.attempts, st.verdict.value))
  }

  predicate WorkS7(st: State) {
    st.phase.Some? && DecisionIs(st, st.phase.value, st.attempts, Keep)
  }

  ghost predicate Work(c: Case, g: Config) {
    g.pc.At? ==>
      var n := g.pc.node;
      if n.stage == 3 then WorkS3(c, g.st, n.num)
      else if n.stage == 4 then WorkS4(g.st, n.num)
      else if n.stage == 5 then WorkS5(c, g.st, n.num)
      else if n.stage == 6 then WorkS6(c, g.st, n.num)
      else if n.stage == 7 then WorkS7(g.st)
      else true
  }

  // ---- Sealing steps ---------------------------------------------------------------------------------

  lemma SealsS03(c: Case, st: State, e: Env, x: Execution)
    requires HandleS03(c, 80, st, e) == Ok(x)
    ensures forall a :: a in x.delta.seals ==> LinkOk(c, st.arts + x.delta.seals, a)
  {
  }

  lemma SealsS04(c: Case, st: State, e: Env, x: Execution)
    requires HandleS04(c, 90, st, e) == Ok(x)
    ensures forall a :: a in x.delta.seals ==> LinkOk(c, st.arts + x.delta.seals, a)
  {
    assert HandleS04(c, 90, st, e) == SealVerification(c, st, e);
    ReportAgreesWithGate(st.checks);
  }

  lemma SealsS05_20(c: Case, st: State, e: Env, x: Execution)
    requires HandleS05(c, 20, st, e) == Ok(x)
    ensures forall a :: a in x.delta.seals ==> LinkOk(c, st.arts + x.delta.seals, a)
  {
  }

  lemma SealsS05_70(c: Case, st: State, e: Env, x: Execution)
    requires HandleS05(c, 70, st, e) == Ok(x) && WorkS5(c, st, 70)
    ensures forall a :: a in x.delta.seals ==> LinkOk(c, st.arts + x.delta.seals, a)
  {
    assert HandleS05(c, 70, st, e) == SealComparability(c, st, e);
  }

  lemma SealsS05_80(c: Case, st: State, e: Env, x: Execution)
    requires HandleS05(c, 80, st, e) == Ok(x) && WorkS5(c, st, 80)
    ensures forall a :: a in x.delta.seals ==> LinkOk(c, st.arts + x.delta.seals, a)
  {
    assert HandleS05(c, 80, st, e) == SealStatistics(c, st, e);
    assert FromTreatment(c, EffectsOf(c.criteria, st.treatment.value, c.baseline), st.treatment.value);
  }

  lemma SealsS05_90(c: Case, st: State, e: Env, x: Execution)
    requires HandleS05(c, 90, st, e) == Ok(x)
    ensures forall a :: a in x.delta.seals ==> LinkOk(c, st.arts + x.delta.seals, a)
  {
    assert HandleS05(c, 90, st, e) == SealMeasurement(st, e);
  }

  lemma SealsS06_60(c: Case, st: State, e: Env, x: Execution)
    requires HandleS06(c, 60, st, e) == Ok(x)
    ensures forall a :: a in x.delta.seals ==> LinkOk(c, st.arts + x.delta.seals, a)
  {
    assert HandleS06(c, 60, st, e) == VerifyRollback(c, st, e);
  }

  lemma SealsS06_80(c: Case, st: State, e: Env, x: Execution)
    requires HandleS06(c, 80, st, e) == Ok(x) && WorkS6(c, st, 80)
    ensures forall a :: a in x.delta.seals ==> LinkOk(c, st.arts + x.delta.seals, a)
  {
    assert HandleS06(c, 80, st, e) == SealDecision(st, e);
  }

  lemma SealsS06_90(c: Case, st: State, e: Env, x: Execution)
    requires HandleS06(c, 90, st, e) == Ok(x) && WorkS6(c, st, 90)
    ensures forall a :: a in x.delta.seals ==> LinkOk(c, st.arts + x.delta.seals, a)
  {
    assert HandleS06(c, 90, st, e) == ApplyToRepository(st, e);
  }
}
