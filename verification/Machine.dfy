// The shared workflow S01 -> S02 -> (S03 <-> S04 <-> S05 <-> S06) -> S07 as a state machine: one step
// runs one node through the idempotent runtime, commits its result, and follows the graph's edge.
//
// A node's ledger key is (node, revision pass); an artifact's is (kind, phase, pass). Both stand for
// the strings the code builds from them, which determine them (Keys.KeyDetermines and
// Keys.StageArtifactIdDetermines). A digest stands for the content it was taken from.

module Machine {
  import opened Results
  import opened Phases
  import opened Checks
  import opened Remeasure
  import opened Decide

  // Everything fixed before S01 starts, and the contents of the plan S02 seals.
  datatype Case = Case(
    criteria: seq<Criterion>, guardrails: seq<Guardrail>, requirements: seq<Requirement>, workload: string,
    baselineWorkload: string, environment: string, baseline: seq<Baseline>,
    commands: set<string>, manifestFiles: set<string>, versioned: bool,
    phases: seq<Phase>, tasks: seq<Task>)

  datatype Node = Node(stage: nat, num: nat)
  datatype Route = Continue | Rejected | Approval | Revision

  datatype Kind =
    | SelectedSolution | Provenance | Patch | Verification | Isolation | Comparability
    | Statistical | Measurement | Rollback | Decision | ApplyResult | Report

  datatype ArtKey = ArtKey(kind: Kind, phase: string, pass: nat)

  // The stamp is the creation time inside every envelope: two runs of one handler seal different content.
  datatype Artifact =
    | Solution(strategy: string, stamp: nat)
    | ProvenanceDoc(phase: string, plan: Plan, tokensIn: nat, tokensOut: nat, stamp: nat)
    | PatchDoc(phase: string, plan: Plan, provenance: Artifact, inScope: bool, changed: seq<string>, stamp: nat)
    | VerificationDoc(phase: string, patch: Artifact, provenance: Artifact, checks: seq<Check>, passed: bool, stamp: nat)
    | IsolationDoc(patch: Artifact, isolated: bool, stamp: nat)
    | ComparabilityDoc(comparable: bool, isolated: bool, quality: bool, workload: bool, environment: bool, stamp: nat)
    | StatisticalDoc(effects: seq<Effect>, stamp: nat)
    | MeasurementDoc(phase: string, patch: Artifact, isolation: Artifact, comparability: Artifact, statistical: Artifact, stamp: nat)
    | RollbackDoc(phase: string, patch: Artifact, untouched: bool, stamp: nat)
    | DecisionDoc(phase: string, measurement: Artifact, verification: Artifact, targets: seq<TargetEval>,
                  guardrails: seq<GuardEval>, class_: Class, outcome: Verdict, rollback: Option<Artifact>, stamp: nat)
    | ApplyDoc(phase: string, patch: Artifact, applied: bool, stamp: nat)
    | ReportDoc(phase: string, decision: Artifact, outcomes: seq<Entry>, cost: Cost, stamp: nat)

  // What S02.81 seals when the plan passes: the plan, for the selected solution, and that plan's task list.
  // Their ids carry no pass; they are kept apart from the stage artifacts.
  datatype Plan = Plan(selected: Artifact, stamp: nat)
  datatype TaskList = TaskList(plan: Plan, stamp: nat)
  datatype Plans = Plans(plan: Plan, tasks: TaskList)

  // One line of the report's outcome list.
  datatype Detail = VerificationFailed | Judged(outcome: Verdict) | NoSealedDecision
  datatype Entry = Repaired(pass: nat, detail: Detail) | Met(criterion: string) | Missing(criterion: string)
  datatype Cost = Cost(tokensIn: nat, tokensOut: nat, repairs: nat)

  datatype Manifest = Manifest(kinds: set<string>, gate: Option<bool>)
  datatype Scope = Scope(inScope: bool, changed: seq<string>)
  datatype Protocol = Protocol(workload: string, environment: string)

  datatype State = State(
    completed: set<Node>, latest: map<Node, Route>, arts: map<ArtKey, Artifact>,
    attempts: nat, planAttempts: nat, plans: Option<Plans>, excluded: set<string>,
    phase: Option<string>, done: set<string>, tokens: (nat, nat), scope: Scope,
    manifest: Manifest, checks: seq<Check>,
    protocol: Option<Protocol>, isolated: Option<bool>, treatment: Option<Treatment>, quality: Option<bool>,
    targets: seq<TargetEval>, guards: seq<GuardEval>, class_: Option<Class>, verdict: Option<Verdict>, rollback: bool,
    outcomes: seq<Entry>, cost: Option<Cost>)

  // What a handler writes; an absent field is left as it is.
  datatype Delta = Delta(
    seals: map<ArtKey, Artifact>,
    attempts: Option<nat>, planAttempts: Option<nat>, plans: Option<Plans>, excluded: Option<set<string>>,
    phase: Option<string>, done: Option<set<string>>, tokens: Option<(nat, nat)>, scope: Option<Scope>,
    manifest: Option<Manifest>, checks: Option<seq<Check>>,
    protocol: Option<Protocol>, isolated: Option<bool>, treatment: Option<Treatment>, quality: Option<bool>,
    targets: Option<seq<TargetEval>>, guards: Option<seq<GuardEval>>, class_: Option<Class>, verdict: Option<Verdict>,
    rollback: Option<bool>, outcomes: Option<seq<Entry>>, cost: Option<Cost>)

  const NOTHING := Delta(map[], None, None, None, None, None, None, None, None, None, None, None,
                         None, None, None, None, None, None, None, None, None, None)

  datatype Execution = Execution(route: Route, delta: Delta)

  function Say(route: Route): Outcome<Execution> { Ok(Execution(route, NOTHING)) }
  function Write(d: Delta): Outcome<Execution> { Ok(Execution(Continue, d)) }

  // Whatever the outside world answers while one node runs.
  datatype Policy = Deny | Allow | Ask
  datatype Env = Env(
    fails: bool, stamp: nat,
    eligible: bool, strategy: string, planPasses: bool, planNeedsOwner: bool, authorized: bool,
    tokensIn: nat, tokensOut: nat, inScope: bool, changed: seq<string>, sane: bool,
    workspace: bool, exits: map<string, int>, readings: map<string, Reading>, drift: bool, clean: bool,
    policy: Policy, applies: bool)

  function Find(st: State, kind: Kind, phase: string, pass: nat): Option<Artifact> {
    var k := ArtKey(kind, phase, pass);
    if k in st.arts then Some(st.arts[k]) else None
  }

  // The selection a pass of S01 sealed; the pass is how many strategies were excluded by then.
  function Selected(st: State): Option<Artifact> { Find(st, SelectedSolution, "", |st.excluded|) }

  // The artifact this pass sealed for the active phase.
  function Here(st: State, kind: Kind): Option<Artifact> {
    if st.phase.None? then None else Find(st, kind, st.phase.value, st.attempts)
  }

  function KeyHere(st: State, kind: Kind): ArtKey
    requires st.phase.Some?
  {
    ArtKey(kind, st.phase.value, st.attempts)
  }

  const MAX_PLAN_REVISIONS: nat := 2
  const MAX_PHASE_REPAIRS: nat := 5

  function HandleS01(n: nat, st: State, e: Env): Outcome<Execution> {
    if n == 20 then Say(if e.eligible then Continue else Rejected)
    else if n == 90 then Write(NOTHING.(seals := map[ArtKey(SelectedSolution, "", |st.excluded|) := Solution(e.strategy, e.stamp)]))
    else Say(Continue)
  }

  function HandleS02(n: nat, st: State, e: Env): Outcome<Execution> {
    if n in {10, 81, 90} && Selected(st).None? then Raised
    else if n == 81 then
      var d := NOTHING.(planAttempts := Some(st.planAttempts + 1));
      if e.planPasses then
        var plan := Plan(Selected(st).value, e.stamp);
        Write(d.(plans := Some(Plans(plan, TaskList(plan, e.stamp)))))
      else Ok(Execution(if st.planAttempts < MAX_PLAN_REVISIONS then Revision else Rejected, d))
    else if n == 90 then
      if st.plans.None? then Raised else Say(if e.planNeedsOwner then Approval else Continue)
    else Say(Continue)
  }

  function HandleS03(c: Case, n: nat, st: State, e: Env): Outcome<Execution> {
    if n in {10, 40, 80} && st.plans.None? then Raised
    else if n == 10 then
      var i := Active(c.phases, c.tasks, st.done);
      if i.None? then Say(Rejected)
      else Ok(Execution(if e.authorized then Continue else Rejected, NOTHING.(phase := Some(c.phases[i.value].id))))
    else if n == 30 && Selected(st).None? then Raised
    else if st.phase.None? then Raised
    else if n == 50 then Write(NOTHING.(tokens := Some((e.tokensIn, e.tokensOut))))
    else if n == 60 then
      Ok(Execution(if e.inScope then Continue else Rejected, NOTHING.(scope := Some(Scope(e.inScope, e.changed)))))
    else if n == 70 then Say(if e.sane then Continue else Rejected)
    else if n == 80 then
      var ph := st.phase.value;
      var plan := st.plans.value.plan;
      var prov := ProvenanceDoc(ph, plan, st.tokens.0, st.tokens.1, e.stamp);
      var files := if |st.scope.changed| == 0 then ["no-changes"] else st.scope.changed;
      Write(NOTHING.(seals := map[KeyHere(st, Provenance) := prov,
                                  KeyHere(st, Patch) := PatchDoc(ph, plan, prov, st.scope.inScope, files, e.stamp)]))
    else Say(Continue)
  }

  // The kinds S04.30, S04.40 and S04.50 run, of those the repository declares.
  function KindsAt(n: nat, kinds: set<string>): seq<string> {
    if n == 30 then Pick(STATIC, kinds)
    else if n == 40 then Pick(["unit"], kinds)
    else Pick(["integration", "security"], kinds)
  }

  function Pick(order: seq<string>, kinds: set<string>): seq<string> {
    if |order| == 0 then []
    else if order[0] in kinds then [order[0]] + Pick(order[1..], kinds)
    else Pick(order[1..], kinds)
  }

  function HandleS04(c: Case, n: nat, st: State, e: Env): Outcome<Execution> {
    if n in {10, 60} && Here(st, Patch).None? then Raised
    else if n in {10, 90} && st.plans.None? then Raised
    else if n == 10 then
      Ok(Execution(if e.workspace then Continue else Rejected,
                   NOTHING.(manifest := Some(Manifest({}, None)), checks := Some([]))))
    else if n == 20 then Write(NOTHING.(manifest := Some(st.manifest.(kinds := c.commands - {"benchmark"}))))
    else if n in {30, 40, 50} then
      Write(NOTHING.(checks := Some(st.checks + RunAll(e.exits, KindsAt(n, st.manifest.kinds)))))
    else if n == 80 then
      Ok(Execution(if Gate(st.checks) then Continue else Revision,
                   NOTHING.(manifest := Some(st.manifest.(gate := Some(Gate(st.checks)))))))
    else if n == 90 then SealVerification(c, st, e)
    else Say(Continue)
  }

  function SealVerification(c: Case, st: State, e: Env): Outcome<Execution> {
    var patch, prov := Here(st, Patch), Here(st, Provenance);
    if patch.None? || prov.None? then Raised else
    var passed := Gate(st.checks);
    var doc := VerificationDoc(st.phase.value, patch.value, prov.value, Reported(st.checks), passed, e.stamp);
    var d := NOTHING.(seals := map[KeyHere(st, Verification) := doc]);
    if passed then Write(d.(done := Some(st.done + TasksOf(c.tasks, st.phase.value))))
    else Write(d.(attempts := Some(st.attempts + 1)))
  }

  predicate Avoids(changed: seq<string>, files: set<string>) {
    forall f :: f in changed ==> f !in files
  }

  predicate IsolatedPatch(c: Case, patch: Artifact, drift: bool) {
    patch.PatchDoc? && patch.inScope && Avoids(patch.changed, c.manifestFiles) && !drift
  }

  function HandleS05(c: Case, n: nat, st: State, e: Env): Outcome<Execution> {
    if n == 10 then Write(NOTHING.(protocol := Some(Protocol(c.baselineWorkload, c.environment))))
    else if n == 20 then
      var patch := Here(st, Patch);
      if patch.None? then Raised else
      var ok := IsolatedPatch(c, patch.value, e.drift);
      Write(NOTHING.(seals := map[KeyHere(st, Isolation) := IsolationDoc(patch.value, ok, e.stamp)], isolated := Some(ok)))
    else if n == 30 then Say(if e.workspace then Continue else Rejected)
    else if n == 40 then
      var t := TreatmentOf(c.criteria, c.commands, e.readings);
      if t.Raised? then Raised else Write(NOTHING.(treatment := Some(t.value)))
    else if n == 60 then
      var t := if st.treatment.Some? then st.treatment.value else Treatment(map[], {});
      Write(NOTHING.(quality := Some(Quality(c.criteria, t, c.baseline, c.requirements))))
    else if n == 70 then SealComparability(c, st, e)
    else if n == 80 then SealStatistics(c, st, e)
    else if n == 90 then SealMeasurement(st, e)
    else Say(Continue)
  }

  function SealComparability(c: Case, st: State, e: Env): Outcome<Execution> {
    if st.phase.None? then Raised else
    var isolated, quality := st.isolated == Some(true), st.quality == Some(true);
    var workload := st.protocol.Some? && st.protocol.value.workload == c.workload;
    var environment := st.protocol.Some? && st.protocol.value.environment == c.environment;
    var comparable := isolated && quality && workload && environment;
    Ok(Execution(if comparable then Continue else Rejected,
                 NOTHING.(seals := map[KeyHere(st, Comparability) :=
                                       ComparabilityDoc(comparable, isolated, quality, workload, environment, e.stamp)])))
  }

  function SealStatistics(c: Case, st: State, e: Env): Outcome<Execution> {
    var t := if st.treatment.Some? then st.treatment.value else Treatment(map[], {});
    var effects := EffectsOf(c.criteria, t, c.baseline);
    if st.phase.None? || effects == [] then Raised
    else Write(NOTHING.(seals := map[KeyHere(st, Statistical) := StatisticalDoc(effects, e.stamp)]))
  }

  function SealMeasurement(st: State, e: Env): Outcome<Execution> {
    var p, i, k, s := Here(st, Patch), Here(st, Isolation), Here(st, Comparability), Here(st, Statistical);
    if p.None? || i.None? || k.None? || s.None? then Raised
    else Write(NOTHING.(seals := map[KeyHere(st, Measurement) :=
                                     MeasurementDoc(st.phase.value, p.value, i.value, k.value, s.value, e.stamp)]))
  }

  predicate HasEffects(a: Option<Artifact>) { a.Some? && a.value.StatisticalDoc? }
  predicate HasChecks(a: Option<Artifact>) { a.Some? && a.value.VerificationDoc? }

  function HandleS06(c: Case, n: nat, st: State, e: Env): Outcome<Execution> {
    if n == 10 then Intake(c, st)
    else if n == 20 then
      var s := Here(st, Statistical);
      if !HasEffects(s) then Raised else
      var ts := EvaluateTargets(c.criteria, s.value.effects);
      if ts.Raised? then Raised else Write(NOTHING.(targets := Some(ts.value)))
    else if n == 30 then
      var v, s := Here(st, Verification), Here(st, Statistical);
      if !HasChecks(v) || !HasEffects(s) then Raised
      else Write(NOTHING.(guards := Some(EvaluateGuardrails(c.guardrails, s.value.effects, v.value.checks))))
    else if n == 40 then
      if st.phase.None? then Raised else Write(NOTHING.(class_ := Some(Classify(st.targets))))
    else if n == 50 then
      Write(NOTHING.(verdict := Some(if st.class_.Some? then Table(st.guards, st.class_.value) else Revert)))
    else if n == 60 then VerifyRollback(c, st, e)
    else if n == 70 then
      if st.verdict.None? then Say(Continue) else Write(NOTHING.(verdict := Some(Final(st.verdict.value, st.rollback))))
    else if n == 80 then SealDecision(st, e)
    else ApplyToRepository(st, e)
  }

  function Intake(c: Case, st: State): Outcome<Execution> {
    var v, m, s := Here(st, Verification), Here(st, Measurement), Here(st, Statistical);
    if !HasChecks(v) || m.None? || !HasEffects(s) then Raised else
    Say(if v.value.passed && AllMeasured(c.criteria, s.value.effects) then Continue else Rejected)
  }

  predicate AllMeasured(cs: seq<Criterion>, effects: seq<Effect>) {
    forall i :: 0 <= i < |cs| ==> Measures(effects, cs[i].id)
  }

  predicate Measures(effects: seq<Effect>, id: string) {
    exists x :: x in effects && x.criterion == id
  }

  function VerifyRollback(c: Case, st: State, e: Env): Outcome<Execution> {
    if st.verdict != Some(Revert) then Write(NOTHING.(rollback := Some(true))) else
    var patch := Here(st, Patch);
    if patch.None? then Raised else
    var untouched := !c.versioned || e.clean;
    Write(NOTHING.(seals := map[KeyHere(st, Rollback) := RollbackDoc(st.phase.value, patch.value, untouched, e.stamp)],
                   rollback := Some(untouched)))
  }

  function SealDecision(st: State, e: Env): Outcome<Execution> {
    var outcome := if st.verdict.Some? then st.verdict.value else Escalate;
    var v, m, r := Here(st, Verification), Here(st, Measurement), Here(st, Rollback);
    if v.None? || m.None? || st.class_.None? || st.targets == [] || (outcome == Revert && r.None?) then Raised else
    var doc := DecisionDoc(st.phase.value, m.value, v.value, st.targets, st.guards, st.class_.value, outcome,
                           if outcome == Revert then r else None, e.stamp);
    var d := NOTHING.(seals := map[KeyHere(st, Decision) := doc], verdict := Some(outcome));
    if outcome == FixOnePart then Write(d.(attempts := Some(st.attempts + 1)))
    else if outcome == Revert then
      var sel := Selected(st);
      if sel.None? || !sel.value.Solution? then Raised
      else Write(d.(excluded := Some(st.excluded + {sel.value.strategy})))
    else Write(d)
  }

  // S06.90 without a resume command.
  function ApplyToRepository(st: State, e: Env): Outcome<Execution> {
    if st.verdict != Some(Keep) then Say(Continue) else
    var patch := Here(st, Patch);
    if patch.None? then Raised
    else if e.policy == Ask then Say(Approval)
    else Write(NOTHING.(seals := map[KeyHere(st, ApplyResult) :=
                                     ApplyDoc(st.phase.value, patch.value, e.policy == Allow && e.applies, e.stamp)]))
  }

  // S07.10: every link of the sealed chain for the final pass.
  predicate ChainIntact(selected: Artifact, plans: Plans, patch: Artifact, prov: Artifact, ver: Artifact, meas: Artifact, dec: Artifact) {
    patch.PatchDoc? && prov.ProvenanceDoc? && ver.VerificationDoc? && meas.MeasurementDoc? && dec.DecisionDoc? &&
    plans.plan.selected == selected && plans.tasks.plan == plans.plan && patch.plan == plans.plan && prov.plan == plans.plan &&
    patch.provenance == prov && ver.patch == patch && ver.provenance == prov && meas.patch == patch &&
    dec.measurement == meas && dec.verification == ver
  }

  // S07.30: what is said about an earlier pass of this phase.
  function DetailOf(st: State, phase: string, pass: nat): Detail {
    var v, d := Find(st, Verification, phase, pass), Find(st, Decision, phase, pass);
    if HasChecks(v) && !v.value.passed then VerificationFailed
    else if d.Some? && d.value.DecisionDoc? then Judged(d.value.outcome)
    else NoSealedDecision
  }

  function Repairs(st: State, phase: string, passes: nat): seq<Entry> {
    seq(passes, m requires m >= 0 => Repaired(m, DetailOf(st, phase, m)))
  }

  // Whether a criterion met its target, by a dictionary over the sealed evaluations: the last one wins.
  function MetIn(ts: seq<TargetEval>, id: string): bool {
    if |ts| == 0 then false
    else if ts[|ts| - 1].criterion == id then ts[|ts| - 1].met
    else MetIn(ts[..|ts| - 1], id)
  }

  function CriterionEntries(cs: seq<Criterion>, ts: seq<TargetEval>): seq<Entry> {
    seq(|cs|, i requires 0 <= i < |cs| => if MetIn(ts, cs[i].id) then Met(cs[i].id) else Missing(cs[i].id))
  }

  // S07.60: tokens of every provenance on file for the phase in passes below `passes`.
  function Spent(st: State, phase: string, passes: nat): (nat, nat) {
    if passes == 0 then (0, 0) else
    var rest := Spent(st, phase, passes - 1);
    var p := Find(st, Provenance, phase, passes - 1);
    if p.Some? && p.value.ProvenanceDoc? then (rest.0 + p.value.tokensIn, rest.1 + p.value.tokensOut) else rest
  }

  function Subject(x: Entry, phase: string): string {
    if x.Repaired? then phase else x.criterion
  }

  // S07.90: every criterion is the subject of an entry, and every earlier pass has a repair entry.
  predicate Complete(c: Case, entries: seq<Entry>, phase: string, passes: nat) {
    && (forall i :: 0 <= i < |c.criteria| ==> Mentions(entries, phase, c.criteria[i].id))
    && (forall m: nat :: m < passes ==> HasRepair(entries, m))
  }

  predicate Mentions(entries: seq<Entry>, phase: string, id: string) {
    exists x :: x in entries && Subject(x, phase) == id
  }

  predicate HasRepair(entries: seq<Entry>, pass: nat) {
    exists x :: x in entries && x.Repaired? && x.pass == pass
  }

  function HandleS07(c: Case, n: nat, st: State, e: Env): Outcome<Execution> {
    var patch, prov, ver := Here(st, Patch), Here(st, Provenance), Here(st, Verification);
    var meas, dec := Here(st, Measurement), Here(st, Decision);
    if st.phase.None? then Raised
    else if n == 10 then
      if Selected(st).None? || st.plans.None? || patch.None? || prov.None? || ver.None? || meas.None? || dec.None? then Raised
      else Say(if ChainIntact(Selected(st).value, st.plans.value, patch.value, prov.value, ver.value, meas.value, dec.value) then Continue else Rejected)
    else if n == 30 then
      if dec.None? || !dec.value.DecisionDoc? || dec.value.outcome != Keep then Raised
      else Write(NOTHING.(outcomes := Some(Repairs(st, st.phase.value, st.attempts) +
                                           CriterionEntries(c.criteria, dec.value.targets))))
    else if n == 40 then
      if Here(st, Statistical).None? || Here(st, Comparability).None? || dec.None? then Raised else Say(Continue)
    else if n == 50 then
      if patch.None? || st.plans.None? || Here(st, ApplyResult).None? then Raised else Say(Continue)
    else if n == 60 then
      var t := Spent(st, st.phase.value, st.attempts + 1);
      Write(NOTHING.(cost := Some(Cost(t.0, t.1, st.attempts))))
    else if n == 80 then
      if dec.None? || st.cost.None? || st.outcomes == [] then Raised
      else Write(NOTHING.(seals := map[ArtKey(Report, st.phase.value, 0) :=
                                       ReportDoc(st.phase.value, dec.value, st.outcomes, st.cost.value, e.stamp)]))
    else if n == 90 then
      var r := Find(st, Report, st.phase.value, 0);
      if r.None? || !r.value.ReportDoc? then Raised
      else Say(if Complete(c, r.value.outcomes, st.phase.value, st.attempts) then Continue else Rejected)
    else Say(Continue)
  }

  function Handle(c: Case, n: Node, st: State, e: Env): Outcome<Execution> {
    if e.fails then Raised
    else if n.stage == 1 then HandleS01(n.num, st, e)
    else if n.stage == 2 then HandleS02(n.num, st, e)
    else if n.stage == 3 then HandleS03(c, n.num, st, e)
    else if n.stage == 4 then HandleS04(c, n.num, st, e)
    else if n.stage == 5 then HandleS05(c, n.num, st, e)
    else if n.stage == 6 then HandleS06(c, n.num, st, e)
    else HandleS07(c, n.num, st, e)
  }

  // ---- Committing a result -------------------------------------------------------------------

  function Upd<T>(written: Option<T>, was: T): T {
    if written.Some? then written.value else was
  }

  predicate Clash(arts: map<ArtKey, Artifact>, seals: map<ArtKey, Artifact>) {
    exists k :: k in arts && k in seals && arts[k] != seals[k]
  }

  // Merging two different contents under one artifact id raises.
  function Commit(st: State, n: Node, x: Execution): Outcome<State> {
    var d := x.delta;
    if Clash(st.arts, d.seals) then Raised else
    Ok(State(st.completed + {n}, st.latest[n := x.route], st.arts + d.seals,
             Upd(d.attempts, st.attempts), Upd(d.planAttempts, st.planAttempts),
             if d.plans.Some? then d.plans else st.plans, Upd(d.excluded, st.excluded),
             if d.phase.Some? then d.phase else st.phase, Upd(d.done, st.done), Upd(d.tokens, st.tokens), Upd(d.scope, st.scope),
             Upd(d.manifest, st.manifest), Upd(d.checks, st.checks),
             if d.protocol.Some? then d.protocol else st.protocol, if d.isolated.Some? then d.isolated else st.isolated,
             if d.treatment.Some? then d.treatment else st.treatment, if d.quality.Some? then d.quality else st.quality,
             Upd(d.targets, st.targets), Upd(d.guards, st.guards), if d.class_.Some? then d.class_ else st.class_,
             if d.verdict.Some? then d.verdict else st.verdict, Upd(d.rollback, st.rollback),
             Upd(d.outcomes, st.outcomes), if d.cost.Some? then d.cost else st.cost))
  }

  // ---- The graph -------------------------------------------------------------------------------

  datatype Pc = At(node: Node) | End | Aborted

  function Following(n: Node): Node {
    if n.stage == 2 && n.num == 80 then Node(2, 81)
    else if n.stage == 2 && n.num == 81 then Node(2, 90)
    else Node(n.stage, n.num + 10)
  }

  predicate Gated(n: Node) {
    n in {Node(1, 20), Node(1, 80), Node(2, 81), Node(3, 10), Node(3, 60), Node(3, 70), Node(4, 10), Node(5, 30), Node(5, 70),
          Node(6, 10), Node(7, 10)}
  }

  predicate LastOfStage(n: Node, r: Route) {
    n.num == 90 || (Gated(n) && r != Continue && r != Revision)
  }

  function Next(n: Node, st: State): Pc {
    var r := if n in st.latest then st.latest[n] else Continue;
    if LastOfStage(n, r) then Leave(n.stage, st)
    else if n == Node(2, 81) && r == Revision then At(Node(2, 30))
    else At(Following(n))
  }

  function IfCompleted(st: State, required: Node, target: Node): Pc {
    if required in st.completed then At(target) else End
  }

  function Leave(stage: nat, st: State): Pc {
    if stage == 1 then IfCompleted(st, Node(1, 90), Node(2, 10))
    else if stage == 2 then IfCompleted(st, Node(2, 90), Node(3, 10))
    else if stage == 3 then IfCompleted(st, Node(3, 90), Node(4, 10))
    else if stage == 4 then VerificationOutcome(st)
    else if stage == 5 then IfCompleted(st, Node(5, 90), Node(6, 10))
    else if stage == 6 then PolicyOutcome(st)
    else End
  }

  function VerificationOutcome(st: State): Pc {
    if Node(4, 90) !in st.completed then End
    else if st.manifest.gate == Some(true) then At(Node(5, 10))
    else if st.attempts >= MAX_PHASE_REPAIRS then End
    else At(Node(3, 10))
  }

  function PolicyOutcome(st: State): Pc {
    var n := Node(6, 90);
    if n in st.latest && st.latest[n] != Continue then End
    else if st.verdict == Some(Keep) then At(Node(7, 10))
    else if st.verdict == Some(FixOnePart) && st.attempts < MAX_PHASE_REPAIRS then At(Node(3, 10))
    else if st.verdict == Some(Revert) then At(Node(1, 10))
    else End
  }

  // ---- Steps and runs ----------------------------------------------------------------------------

  datatype NodeKey = NodeKey(node: Node, rev: nat)
  type Ledger = map<NodeKey, Execution>

  function RevisionOf(n: Node, st: State): nat {
    if n.stage == 2 then st.planAttempts else if 3 <= n.stage <= 6 then st.attempts else 0
  }

  function KeyOf(n: Node, st: State): NodeKey { NodeKey(n, RevisionOf(n, st)) }

  datatype Config = Config(pc: Pc, st: State, ledger: Ledger)

  // The runtime's answer for a node: its recorded result when the key is completed, else the handler's.
  function Result(c: Case, n: Node, g: Config, e: Env): Outcome<Execution> {
    var k := KeyOf(n, g.st);
    if k in g.ledger then Ok(g.ledger[k]) else Handle(c, n, g.st, e)
  }

  function Step(c: Case, g: Config, e: Env): Config {
    if !g.pc.At? then g else
    var n := g.pc.node;
    var x := Result(c, n, g, e);
    if x.Raised? then g.(pc := Aborted) else
    var ledger := g.ledger[KeyOf(n, g.st) := x.value];
    var st := Commit(g.st, n, x.value);
    if st.Raised? then Config(Aborted, g.st, ledger)
    else Config(Next(n, st.value), st.value, ledger)
  }

  function Run(c: Case, g: Config, es: seq<Env>): Config {
    if |es| == 0 then g else Step(c, Run(c, g, es[..|es| - 1]), es[|es| - 1])
  }

  function Fresh(): State {
    State({}, map[], map[], 0, 0, None, {}, None, {}, (0, 0), Scope(true, []), Manifest({}, None), [],
          None, None, None, None, [], [], None, None, false, [], None)
  }

  function Start(ledger: Ledger): Config { Config(At(Node(1, 10)), Fresh(), ledger) }
}
