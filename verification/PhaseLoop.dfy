// What the workflow guarantees about every run, and where it does not do what its documentation says.

module PhaseLoop {
  import opened Results
  import opened Phases
  import opened Checks
  import opened Remeasure
  import opened Decide
  import opened Machine
  import opened Recovery
  import opened Bookkeeping
  import opened Passes
  import opened Evidence
  import opened Progress
  import opened Repeats
  import opened Invariant
  import opened Planning
  import opened Measurements
  import opened Outcomes
  import opened Reporting
  import opened History
  import opened Reachable

  // Some run gets here, whatever the outside world had to answer for it.
  ghost predicate Reached(c: Case, g: Config) {
    exists es :: g == Run(c, Start(map[]), es)
  }

  lemma ReachedInv(c: Case, g: Config)
    requires Reached(c, g)
    ensures Inv(c, g)
  {
    var es :| g == Run(c, Start(map[]), es);
    InvAlways(c, es);
  }

  lemma ReachedStep(c: Case, g: Config, e: Env)
    requires Reached(c, g)
    ensures Reached(c, Step(c, g, e))
  {
    var es :| g == Run(c, Start(map[]), es);
    assert (es + [e])[..|es|] == es;
    assert Step(c, g, e) == Run(c, Start(map[]), es + [e]);
  }

  lemma InvBooks(c: Case, g: Config)
    requires Inv(c, g)
    ensures Books(g)
  {
  }

  // ---- A kept change rests on this pass's own evidence ------------------------------------------------------

  // The treatment sample meets every target, and every guardrail holds on its effects and on the checks.
  ghost predicate Improves(c: Case, t: Treatment, checks: seq<Check>) {
    && |c.criteria| > 0
    && Quality(c.criteria, t, c.baseline, c.requirements)
    && (forall i :: 0 <= i < |c.criteria| ==>
          c.criteria[i].id in t.measured && Meets(c.criteria[i], t.measured[c.criteria[i].id].mean))
    && (forall i :: 0 <= i < |c.guardrails| ==>
          EvaluateGuardrail(c.guardrails[i], EffectsOf(c.criteria, t, c.baseline), checks).passed)
  }

  predicate AllHere(st: State) {
    Here(st, Patch).Some? && Here(st, Provenance).Some? && Here(st, Verification).Some? && Here(st, Isolation).Some? &&
    Here(st, Comparability).Some? && Here(st, Statistical).Some? && Here(st, Measurement).Some? && Here(st, Decision).Some?
  }

  // The selection, the plan and this pass's documents cite one another all the way down.
  predicate ChainHere(st: State)
    requires AllHere(st)
  {
    st.plans.Some? && Selected(st).Some? &&
    ChainIntact(Selected(st).value, st.plans.value, Here(st, Patch).value, Here(st, Provenance).value,
                Here(st, Verification).value, Here(st, Measurement).value, Here(st, Decision).value)
  }

  // A verified, in-scope, isolated patch and a comparable measurement of it.
  predicate EvidenceHere(c: Case, st: State)
    requires AllHere(st) && ChainHere(st)
  {
    var patch, ver, meas := Here(st, Patch).value, Here(st, Verification).value, Here(st, Measurement).value;
    var iso, cmp, stat := Here(st, Isolation).value, Here(st, Comparability).value, Here(st, Statistical).value;
    && ver.passed && Gate(ver.checks)
    && patch.inScope && Avoids(patch.changed, c.manifestFiles)
    && iso.IsolationDoc? && iso.patch == patch && iso.isolated
    && cmp.ComparabilityDoc? && cmp.comparable && cmp.quality && c.baselineWorkload == c.workload
    && stat.StatisticalDoc?
    && meas.isolation == iso && meas.comparability == cmp && meas.statistical == stat
  }

  // What S07 reports: a KEEP on this pass's own documents, whose effects are those of the treatment
  // S05.40 recorded in this pass, and that treatment improves on the baseline.
  ghost predicate Accepted(c: Case, g: Config) {
    && AllHere(g.st) && ChainHere(g.st) && EvidenceHere(c, g.st) && Here(g.st, Decision).value.outcome == Keep
    && Recorded(g.ledger, g.st.attempts).Some?
    && FromTreatment(c, Here(g.st, Statistical).value.effects, Recorded(g.ledger, g.st.attempts).value)
    && Improves(c, Recorded(g.ledger, g.st.attempts).value, Here(g.st, Verification).value.checks)
  }

  lemma AllFiled(c: Case, st: State)
    requires Linked(c, st.arts) && WorkS7(st)
    ensures AllHere(st)
    ensures forall k :: k in {Patch, Provenance, Verification, Isolation, Comparability, Statistical, Measurement, Decision} ==>
              LinkOk(c, st.arts, KeyHere(st, k))
  {
    var ph, n := st.phase.value, st.attempts;
    assert LinkOk(c, st.arts, ArtKey(Decision, ph, n));
    assert LinkOk(c, st.arts, ArtKey(Measurement, ph, n));
    assert LinkOk(c, st.arts, ArtKey(Verification, ph, n));
    assert LinkOk(c, st.arts, ArtKey(Patch, ph, n));
  }

  lemma KeepImproves(c: Case, d: Artifact, t: Treatment, effects: seq<Effect>, checks: seq<Check>, verified: bool)
    requires d.DecisionDoc? && d.outcome == Keep && JudgedBy(c, d, effects, checks, verified) && FromTreatment(c, effects, t)
    ensures Improves(c, t, checks)
  {
    DecisionMeaning(d.targets, d.guardrails, verified);
    TargetsUseTheTreatment(c.criteria, t, c.baseline, c.requirements);
    EvaluateTargetsMeaning(c.criteria, effects);
    forall i | 0 <= i < |c.criteria| ensures c.criteria[i].id in t.measured && Meets(c.criteria[i], t.measured[c.criteria[i].id].mean) {
      assert d.targets[i].met;
    }
    forall i | 0 <= i < |c.guardrails| ensures EvaluateGuardrail(c.guardrails[i], EffectsOf(c.criteria, t, c.baseline), checks).passed {
      assert d.guardrails[i].passed;
    }
  }

  lemma Evident(c: Case, st: State)
    requires Linked(c, st.arts) && WorkS7(st) && PlanSound(st) && PlanCited(st) && st.plans.Some? && st.excluded == {}
    ensures AllHere(st) && ChainHere(st) && EvidenceHere(c, st) && Here(st, Decision).value.outcome == Keep
  {
    AllFiled(c, st);
    assert |st.excluded| == 0;
    assert Cites(st.arts[KeyHere(st, Patch)], st.plans) && Cites(st.arts[KeyHere(st, Provenance)], st.plans);
  }

  lemma MeasuredThere(c: Case, g: Config, a: ArtKey)
    requires StatisticsMeasured(c, g.ledger, g.st.arts) && a in g.st.arts && a.kind == Statistical
    ensures MeasuredIn(c, g.ledger, g.st.arts[a], a.pass)
  {
  }

  lemma Improved(c: Case, g: Config)
    requires Linked(c, g.st.arts) && WorkS7(g.st) && StatisticsMeasured(c, g.ledger, g.st.arts)
    ensures HasEffects(Here(g.st, Statistical)) && HasChecks(Here(g.st, Verification)) && Recorded(g.ledger, g.st.attempts).Some?
    ensures FromTreatment(c, Here(g.st, Statistical).value.effects, Recorded(g.ledger, g.st.attempts).value)
    ensures Improves(c, Recorded(g.ledger, g.st.attempts).value, Here(g.st, Verification).value.checks)
  {
    hide Linked, StatisticsMeasured, Improves;
    AllFiled(c, g.st);
    var a := KeyHere(g.st, Decision);
    MeasuredThere(c, g, KeyHere(g.st, Statistical));
    KeepImproves(c, g.st.arts[a], Recorded(g.ledger, g.st.attempts).value, Here(g.st, Statistical).value.effects,
                 Here(g.st, Verification).value.checks, FoundUntouched(g.st.arts, a));
  }

  lemma InvS07(c: Case, g: Config)
    requires Inv(c, g) && g.pc.At? && g.pc.node.stage == 7
    ensures g.st.excluded == {} && Selected(g.st).Some? && KeyOf(g.pc.node, g.st) !in g.ledger && WorkS7(g.st) && ReportWork(c, g)
    ensures g.st.plans.Some? && PlanSound(g.st) && PlanCited(g.st)
  {
    hide Books, Linked, Repeating, Ends, Retry, InOrder, LoopsEarly, NewPassClean, NotYet, Budget, SelectionPass, PlanKeys, S01Recorded,
         Sampled, Retried, PlanSound, PlanCited;
  }

  lemma InvFiled(c: Case, g: Config)
    requires Inv(c, g)
    ensures Linked(c, g.st.arts) && StatisticsMeasured(c, g.ledger, g.st.arts)
  {
  }

  lemma InvAccepted(c: Case, g: Config)
    requires Inv(c, g) && g.pc.At? && g.pc.node.stage == 7
    ensures Accepted(c, g)
  {
    hide Inv, Linked, StatisticsMeasured, PlanSound, PlanCited, AllHere, ChainHere, EvidenceHere, Improves, FromTreatment;
    InvS07(c, g);
    InvFiled(c, g);
    Evident(c, g.st);
    Improved(c, g);
  }

  // Step i of the run is S05.40 in that pass, and its readings make that treatment.
  ghost predicate ReadAt(c: Case, es: seq<Env>, i: nat, pass: nat, t: Treatment) {
    i < |es| &&
    var g := Run(c, Start(map[]), es[..i]);
    g.pc == At(Node(5, 40)) && g.st.attempts == pass && TreatmentOf(c.criteria, c.commands, es[i].readings) == Ok(t)
  }

  lemma RecordIsRead(c: Case, es: seq<Env>, pass: nat)
    requires Recorded(Run(c, Start(map[]), es).ledger, pass).Some?
    ensures exists i :: ReadAt(c, es, i, pass, Recorded(Run(c, Start(map[]), es).ledger, pass).value)
  {
    hide Run;
    var g, k := Run(c, Start(map[]), es), NodeKey(Node(5, 40), pass);
    RecordsComeFromTheRun(c, es, k);
    var i: nat :| ComputedAt(c, es, i, k, g.ledger[k]);
    var was := Run(c, Start(map[]), es[..i]);
    assert Handle(c, k.node, was.st, es[i]) == HandleS05(c, 40, was.st, es[i]);
    assert ReadAt(c, es, i, pass, Recorded(g.ledger, pass).value);
  }

  // Whatever the outside world answers, a run is in S07 only on a KEEP of the current pass, sealed over
  // that pass's own documents, for means computed from the readings some step of that pass took.
  lemma ReportRestsOnEvidence(c: Case, es: seq<Env>)
    requires var g := Run(c, Start(map[]), es); g.pc.At? && g.pc.node.stage == 7
    ensures var g := Run(c, Start(map[]), es);
            Accepted(c, g) && exists i :: ReadAt(c, es, i, g.st.attempts, Recorded(g.ledger, g.st.attempts).value)
  {
    var g := Run(c, Start(map[]), es);
    hide Run, Inv, ReadAt, AllHere, ChainHere, EvidenceHere, Improves, FromTreatment, Recorded;
    InvAlways(c, es);
    InvAccepted(c, g);
    RecordIsRead(c, es, g.st.attempts);
  }

  lemma S0710Continues(c: Case, st: State, e: Env)
    requires AllHere(st) && ChainHere(st) && !e.fails
    ensures Handle(c, Node(7, 10), st, e) == Say(Continue)
  {
    assert Handle(c, Node(7, 10), st, e) == HandleS07(c, 10, st, e);
  }

  // What a handler that runs makes of the configuration.
  lemma RunsTo(c: Case, g: Config, e: Env, x: Execution)
    requires Books(g) && g.pc.At? && KeyOf(g.pc.node, g.st) !in g.ledger && Handle(c, g.pc.node, g.st, e) == Ok(x)
    ensures Moved(g.pc.node, g, Step(c, g, e), x) && Fair(c, g.pc.node, g, e, x)
  {
    StepMoved(c, g, e, x);
    NeverClashes(c, g, e, x);
  }

  // S07.10's digest chain can therefore not come out broken ...
  lemma ChainNeverBroken(c: Case, g: Config, e: Env)
    requires Reached(c, g) && g.pc == At(Node(7, 10)) && !e.fails
    ensures Step(c, g, e).pc == At(Node(7, 20))
  {
    hide Reached, Inv, AllHere, ChainHere, EvidenceHere, Improves, FromTreatment, Handle, Books, Fair, Step;
    ReachedInv(c, g);
    InvBooks(c, g);
    InvAccepted(c, g);
    InvS07(c, g);
    S0710Continues(c, g.st, e);
    RunsTo(c, g, e, Execution(Continue, NOTHING));
  }

  // ... and S07.90 never finds the sealed report incomplete.
  lemma ReportIsComplete(c: Case, g: Config)
    requires Reached(c, g) && g.pc == At(Node(7, 90))
    ensures g.st.phase.Some?
    ensures var r := Find(g.st, Report, g.st.phase.value, 0);
            r.Some? && r.value.ReportDoc? && Complete(c, r.value.outcomes, g.st.phase.value, g.st.attempts)
  {
    ReachedInv(c, g);
    InvS07(c, g);
    EntriesComplete(c, g.st, Here(g.st, Decision).value.targets);
  }

  lemma EntriesComplete(c: Case, st: State, ts: seq<TargetEval>)
    requires st.phase.Some?
    ensures Complete(c, Repairs(st, st.phase.value, st.attempts) + CriterionEntries(c.criteria, ts), st.phase.value, st.attempts)
  {
    var ph := st.phase.value;
    var rs, cs := Repairs(st, ph, st.attempts), CriterionEntries(c.criteria, ts);
    var entries := rs + cs;
    forall i | 0 <= i < |c.criteria| ensures Mentions(entries, ph, c.criteria[i].id) {
      assert entries[|rs| + i] == cs[i];
      assert cs[i] in entries && Subject(cs[i], ph) == c.criteria[i].id;
    }
    forall m: nat | m < st.attempts ensures HasRepair(entries, m) {
      assert entries[m] == rs[m] && rs[m].Repaired? && rs[m].pass == m;
    }
  }

  // ---- Passes ------------------------------------------------------------------------------------------------

  lemma ReachedCeiling(c: Case, g: Config)
    requires Reached(c, g)
    ensures g.st.attempts <= MAX_PHASE_REPAIRS
  {
    ReachedInv(c, g);
    hide Reached, Core, Ends, ReportKeys, Entered, SelectionHere, ReportWork, Retry, Plotted, Sampled, Retried;
  }

  // The counter never exceeds its bound, and it counts exactly: every pass before the current one ended
  // in a failed verification or in FIX_ONE_PART, never in both.
  lemma PassesAccountedFor(c: Case, g: Config)
    requires Reached(c, g)
    ensures g.st.attempts <= MAX_PHASE_REPAIRS
    ensures forall m: nat :: m < g.st.attempts ==> (FixAt(g.st.arts, m) <==> !FailedAt(g.st.arts, m))
  {
    hide Reached, Books, Linked, NeverAgain, Retried, FixAt, FailedAt;
    ReachedFiles(c, g);
    ReachedCeiling(c, g);
    forall m: nat | m < g.st.attempts ensures FixAt(g.st.arts, m) <==> !FailedAt(g.st.arts, m) {
      NotBoth(c, g, m);
    }
  }

  // A node of the loop before S06.90 is answered from the ledger only while its pass repeats itself;
  // otherwise its handler runs on this pass's state.
  lemma HandlersRunAfresh(c: Case, g: Config, e: Env)
    requires Reached(c, g) && InLoop(g.pc) && g.pc.node != Node(6, 90) && !Looping(g)
    ensures Result(c, g.pc.node, g, e) == Handle(c, g.pc.node, g.st, e)
  {
    ReachedInv(c, g);
    KeysAreFresh(g);
  }

  // What a pass looks up is what that pass sealed: an artifact found under the current pass number was
  // sealed by its own producer under the current pass's key.
  lemma LookupsStayInThePass(c: Case, g: Config, kind: Kind)
    requires Reached(c, g) && Here(g.st, kind).Some? && PassScoped(kind)
    ensures var k := NodeKey(Producer(kind), g.st.attempts);
            k in g.ledger && KeyHere(g.st, kind) in g.ledger[k].delta.seals &&
            g.ledger[k].delta.seals[KeyHere(g.st, kind)] == Here(g.st, kind).value
  {
    ReachedInv(c, g);
    assert Origin(KeyHere(g.st, kind)) == NodeKey(Producer(kind), g.st.attempts);
  }

  // No step of any run fails on merging artifact references.
  lemma MergesNeverConflict(c: Case, g: Config, e: Env, x: Execution)
    requires Reached(c, g) && g.pc.At? && Result(c, g.pc.node, g, e) == Ok(x)
    ensures Commit(g.st, g.pc.node, x).Ok?
  {
    ReachedInv(c, g);
    NeverClashes(c, g, e, x);
  }

  // ---- FIX_ONE_PART ------------------------------------------------------------------------------------------

  // The documentation has FIX_ONE_PART re-implement the active phase. It never does: the phase's tasks
  // were already promoted when its verification passed, so every later patch is for another phase.
  lemma FixNeverRepairsItsPhase(c: Case, g: Config, a: ArtKey, b: ArtKey)
    requires Reached(c, g) && a in g.st.arts && a.kind == Decision && b in g.st.arts && b.kind == Patch && b.pass > a.pass
    ensures b.phase != a.phase
  {
    hide Reached, Books, Linked, Retried, PassEnds;
    ReachedFiles(c, g);
    FixedPhasePassed(c, g.st.arts, a);
    assert PassThenPatch(g.st.arts, ArtKey(Verification, a.phase, a.pass), b);
  }

  lemma PickKeepsPhase(c: Case, g: Config, e: Env)
    requires Books(g) && InOrder(g) && LoopsEarly(g) && LoopFacts(c, g) && ActivePhase(c, g.st) && g.pc == At(Node(3, 10))
    ensures Step(c, g, e).st.phase == g.st.phase
  {
    var r := Result(c, Node(3, 10), g, e);
    if r.Ok? {
      StepMoved(c, g, e, r.value);
      NeverClashes(c, g, e, r.value);
      RepickIsSame(c, g, Step(c, g, e), e, r.value);
    }
  }

  // A failed verification, by contrast, does retry its own phase.
  lemma FailureRetriesItsPhase(c: Case, g: Config, e: Env)
    requires Reached(c, g) && g.pc == At(Node(3, 10)) && g.st.attempts >= 1 && !FixBefore(g)
    ensures FailureOn(g.st, g.st.attempts - 1)
    ensures Step(c, g, e).st.phase == g.st.phase
  {
    ReachedRetry(c, g);
    assert ActivePhase(c, g.st) by { RetryGives(c, g); }
    assert FailureOn(g.st, g.st.attempts - 1) by { RetryGives(c, g); }
    PickKeepsPhase(c, g, e);
  }

  lemma ReachedRetry(c: Case, g: Config)
    requires Reached(c, g)
    ensures Books(g) && InOrder(g) && LoopsEarly(g) && LoopFacts(c, g) && Retry(c, g)
  {
    ReachedInv(c, g);
  }

  lemma RetryGives(c: Case, g: Config)
    requires Retry(c, g) && g.pc == At(Node(3, 10)) && g.st.attempts >= 1 && !FixBefore(g)
    ensures ActivePhase(c, g.st) && FailureOn(g.st, g.st.attempts - 1)
  {
  }

  // ---- Stops inside a later pass -----------------------------------------------------------------------------

  // A pass that is not repeating itself has sealed nothing a node still ahead of it seals.
  lemma NothingAhead(g: Config, kind: Kind, phase: string)
    requires Books(g) && InOrder(g) && InLoop(g.pc) && !Looping(g)
    requires PassScoped(kind) && Inner(Origin(ArtKey(kind, phase, g.st.attempts))) && Pos(Producer(kind)) >= Pos(g.pc.node)
    ensures Find(g.st, kind, phase, g.st.attempts).None?
  {
    var k := Origin(ArtKey(kind, phase, g.st.attempts));
    assert k.rev == g.st.attempts && k !in g.ledger;
  }

  // A stop changes neither the files nor what the ledger says of later nodes.
  lemma StopKeeps(n: Node, g: Config, h: Config, x: Execution, kind: Kind)
    requires Moved(n, g, h, x) && Producer(kind) != n
    ensures forall p, m: nat :: Find(h.st, kind, p, m) == Find(g.st, kind, p, m)
  {
    forall p, m: nat ensures Find(h.st, kind, p, m) == Find(g.st, kind, p, m) {
      assert ArtKey(kind, p, m) in x.delta.seals ==> Producer(kind) == n;
    }
  }

  lemma StoppedS03(n: Node, g: Config, h: Config, x: Execution)
    requires Moved(n, g, h, x) && n in {Node(3, 10), Node(3, 60), Node(3, 70)} && x.route != Continue
    ensures h.st.attempts == g.st.attempts && h.pc == if Node(3, 90) in g.st.completed then At(Node(4, 10)) else End
    ensures NodeKey(Node(4, 10), h.st.attempts) in h.ledger <==> NodeKey(Node(4, 10), g.st.attempts) in g.ledger
  {
  }

  lemma StoppedS05(n: Node, g: Config, h: Config, x: Execution)
    requires Moved(n, g, h, x) && n in {Node(5, 30), Node(5, 70)} && x.route != Continue
    ensures h.st.attempts == g.st.attempts && h.pc == if Node(5, 90) in g.st.completed then At(Node(6, 10)) else End
    ensures NodeKey(Node(6, 10), h.st.attempts) in h.ledger <==> NodeKey(Node(6, 10), g.st.attempts) in g.ledger
  {
  }

  lemma RaisesAtS04(c: Case, h: Config, e: Env)
    requires h.pc == At(Node(4, 10)) && NodeKey(Node(4, 10), h.st.attempts) !in h.ledger && Here(h.st, Patch).None?
    ensures Step(c, h, e).pc == Aborted
  {
    assert Handle(c, Node(4, 10), h.st, e).Raised?;
  }

  lemma RaisesAtS06(c: Case, h: Config, e: Env)
    requires h.pc == At(Node(6, 10)) && NodeKey(Node(6, 10), h.st.attempts) !in h.ledger && Here(h.st, Measurement).None?
    ensures Step(c, h, e).pc == Aborted
  {
    assert Handle(c, Node(6, 10), h.st, e).Raised?;
  }

  // In the first pass S03.90 has not completed while S03 is under way; in every later one it has.
  lemma S03Completed(c: Case, g: Config)
    requires Books(g) && InOrder(g) && LoopFacts(c, g) && Entered(g) && g.pc.At? && g.pc.node.stage == 3 && g.pc.node.num < 90
    ensures Node(3, 90) in g.st.completed <==> g.st.attempts >= 1
  {
    if Node(3, 90) in g.st.completed && g.st.attempts == 0 {
      var r :| NodeKey(Node(3, 90), r) in g.ledger;
      assert RevBound(NodeKey(Node(3, 90), r), g.st) && Inner(NodeKey(Node(3, 90), r));
    }
  }

  // While a pass repeats itself, nothing in S03 stops.
  lemma RepeatingGoesOn(c: Case, g: Config, e: Env)
    requires LoopFacts(c, g) && g.pc.At? && g.pc.node.stage == 3 && Catalogued(g.pc.node) && Looping(g)
    ensures Result(c, g.pc.node, g, e).Ok? && Result(c, g.pc.node, g, e).value.route == Continue
  {
    assert Continues(g.ledger, g.pc.node.num, g.st.attempts);
  }

  lemma S03StopIn(c: Case, g: Config, e: Env, e': Env, x: Execution)
    requires Books(g) && InOrder(g) && LoopFacts(c, g) && Entered(g) && g.pc.At? && Result(c, g.pc.node, g, e) == Ok(x)
    requires g.pc.node in {Node(3, 10), Node(3, 60), Node(3, 70)} && x.route != Continue
    ensures if g.st.attempts == 0 then Step(c, g, e).pc == End
            else Step(c, g, e).pc == At(Node(4, 10)) && Step(c, Step(c, g, e), e').pc == Aborted
  {
    hide InOrder, LoopFacts, Entered;
    var n, h := g.pc.node, Step(c, g, e);
    StepMoved(c, g, e, x);
    NeverClashes(c, g, e, x);
    S03Completed(c, g);
    if Looping(g) {
      RepeatingGoesOn(c, g, e);
    }
    hide Books, Step, Looping;
    StoppedS03(n, g, h, x);
    if g.st.attempts >= 1 {
      AheadS04(n, g, h, x);
      RaisesAtS04(c, h, e');
    }
  }

  // Neither is the next stage on record, nor is anything this stage's last nodes seal.
  lemma NothingOf(g: Config, kind: Kind, next: Node)
    requires Books(g) && InOrder(g) && InLoop(g.pc) && !Looping(g)
    requires next.stage <= 6 && Pos(next) > Pos(g.pc.node) && next != Node(6, 90) && next.stage >= 3
    requires kind in {Patch, Measurement} && Pos(Producer(kind)) >= Pos(g.pc.node)
    ensures NodeKey(next, g.st.attempts) !in g.ledger
    ensures forall p :: Find(g.st, kind, p, g.st.attempts).None?
  {
    assert Inner(NodeKey(next, g.st.attempts));
    hide Books, InOrder;
    forall p ensures Find(g.st, kind, p, g.st.attempts).None? {
      NothingAhead(g, kind, p);
    }
  }

  lemma AheadS04(n: Node, g: Config, h: Config, x: Execution)
    requires Moved(n, g, h, x) && Books(g) && InOrder(g) && !Looping(g) && n.stage == 3 && n.num < 80 && h.st.attempts == g.st.attempts
    ensures NodeKey(Node(4, 10), g.st.attempts) !in g.ledger && Here(h.st, Patch).None?
  {
    hide Books, InOrder, Looping, Shape, Updated;
    StopKeeps(n, g, h, x, Patch);
    NothingOf(g, Patch, Node(4, 10));
  }

  lemma AheadS06(n: Node, g: Config, h: Config, x: Execution)
    requires Moved(n, g, h, x) && Books(g) && InOrder(g) && !Looping(g) && n.stage == 5 && n.num < 90 && h.st.attempts == g.st.attempts
    ensures NodeKey(Node(6, 10), g.st.attempts) !in g.ledger && Here(h.st, Measurement).None?
  {
    hide Books, InOrder, Looping, Shape, Updated;
    StopKeeps(n, g, h, x, Measurement);
    NothingOf(g, Measurement, Node(6, 10));
  }

  lemma S05StopIn(c: Case, g: Config, e: Env, e': Env, x: Execution)
    requires Books(g) && InOrder(g) && LoopsEarly(g) && g.pc.At? && Result(c, g.pc.node, g, e) == Ok(x)
    requires g.pc.node in {Node(5, 30), Node(5, 70)} && x.route != Continue
    ensures if Node(5, 90) !in g.st.completed then Step(c, g, e).pc == End
            else Step(c, g, e).pc == At(Node(6, 10)) && Step(c, Step(c, g, e), e').pc == Aborted
  {
    assert !Looping(g);
    hide InOrder, LoopsEarly, Looping;
    var n, h := g.pc.node, Step(c, g, e);
    StepMoved(c, g, e, x);
    NeverClashes(c, g, e, x);
    hide Books, Step;
    StoppedS05(n, g, h, x);
    AheadS06(n, g, h, x);
    if Node(5, 90) in g.st.completed {
      RaisesAtS06(c, h, e');
    }
  }

  // The outer edges ask whether a stage's last node ever completed. So a stop inside S03 (no phase left,
  // no authorization, out of scope, not sane) ends the run in the first pass only; in every later pass
  // the run goes on to S04.10, which raises for want of this pass's patch.
  lemma S03StopAborts(c: Case, g: Config, e: Env, e': Env)
    requires Reached(c, g) && g.pc.At? && g.pc.node in {Node(3, 10), Node(3, 60), Node(3, 70)}
    requires var r := Result(c, g.pc.node, g, e); r.Ok? && r.value.route != Continue
    ensures if g.st.attempts == 0 then Step(c, g, e).pc == End
            else Step(c, g, e).pc == At(Node(4, 10)) && Step(c, Step(c, g, e), e').pc == Aborted
  {
    hide Reached, Books, InOrder, LoopFacts, Entered, Step, Result;
    ReachedLoop(c, g);
    S03StopIn(c, g, e, e', Result(c, g.pc.node, g, e).value);
  }

  // Likewise a rejection in S05 ends the run unless some earlier pass was measured; then S06.10 raises for
  // want of this pass's measurement.
  lemma S05StopAborts(c: Case, g: Config, e: Env, e': Env)
    requires Reached(c, g) && g.pc.At? && g.pc.node in {Node(5, 30), Node(5, 70)}
    requires var r := Result(c, g.pc.node, g, e); r.Ok? && r.value.route != Continue
    ensures if Node(5, 90) !in g.st.completed then Step(c, g, e).pc == End
            else Step(c, g, e).pc == At(Node(6, 10)) && Step(c, Step(c, g, e), e').pc == Aborted
  {
    hide Reached, Books, InOrder, LoopsEarly, Step, Result;
    ReachedLoop(c, g);
    S05StopIn(c, g, e, e', Result(c, g.pc.node, g, e).value);
  }

  lemma ReachedLoop(c: Case, g: Config)
    requires Reached(c, g)
    ensures Books(g) && InOrder(g) && LoopsEarly(g) && LoopFacts(c, g) && Entered(g) && PlanInTime(g)
  {
    ReachedInv(c, g);
    hide Reached, Books, InOrder, LoopsEarly, LoopFacts, Entered, PlanInTime;
  }

  lemma NoPhaseLeft(c: Case, g: Config, e: Env)
    requires InOrder(g) && LoopsEarly(g) && g.pc == At(Node(3, 10)) && !Looping(g) && !e.fails && g.st.plans.Some?
    requires Active(c.phases, c.tasks, g.st.done) == None
    ensures Result(c, Node(3, 10), g, e) == Say(Rejected)
  {
    KeysAreFresh(g);
    assert Handle(c, Node(3, 10), g.st, e) == HandleS03(c, 10, g.st, e);
  }

  // With no phase left, the pass FIX_ONE_PART opens is such a stop.
  lemma FixWithNoPhaseLeftAborts(c: Case, g: Config, e: Env, e': Env)
    requires Reached(c, g) && g.pc == At(Node(3, 10)) && !Looping(g) && g.st.attempts >= 1 && !e.fails
    requires Active(c.phases, c.tasks, g.st.done) == None
    ensures Step(c, g, e).pc == At(Node(4, 10)) && Step(c, Step(c, g, e), e').pc == Aborted
  {
    hide Reached, Books, InOrder, LoopsEarly, LoopFacts, Entered, Step, Result, Looping;
    ReachedLoop(c, g);
    NoPhaseLeft(c, g, e);
    S03StopAborts(c, g, e, e');
  }

  // ---- Applying a kept change --------------------------------------------------------------------------------

  lemma AtS690(c: Case, h: Config)
    requires Reached(c, h) && h.pc == At(Node(6, 90))
    ensures WorkS6(c, h.st, 90) && ApplyKey(h) && Books(h) && h.st.attempts <= MAX_PHASE_REPAIRS
  {
    hide Reached, Books, Linked, Order, Repeating, WorkS6, PassEnds, ApplyKey, ApplyHere, Promoted, NeverAgain,
         ReportKeys, Entered, SelectionHere, ReportWork, Retry, Plotted, Sampled, Retried;
    ReachedInv(c, h);
  }

  // The documentation has every KEEP reach S06.90's apply step. It does exactly when the pass before did
  // not end in FIX_ONE_PART: that decision moved the counter before S06.90 ran, so S06.90's result, which
  // applied nothing, already holds the next pass's key.
  lemma KeptChangeIsApplied(c: Case, g: Config)
    requires Reached(c, g) && g.pc.At? && g.pc.node.stage == 7
    ensures Here(g.st, ApplyResult).Some? <==> !FixBefore(g)
  {
    ReachedInv(c, g);
  }

  lemma S0750Result(c: Case, st: State, e: Env)
    requires Here(st, Patch).Some? && st.plans.Some? && !e.fails
    ensures Handle(c, Node(7, 50), st, e) == if Here(st, ApplyResult).Some? then Say(Continue) else Raised
  {
    assert Handle(c, Node(7, 50), st, e) == HandleS07(c, 50, st, e);
  }

  // So the report is published, or S07.50 raises, by the same condition.
  lemma ReportRaisesAfterFix(c: Case, g: Config, e: Env)
    requires Reached(c, g) && g.pc == At(Node(7, 50)) && !e.fails
    ensures Step(c, g, e).pc == if FixBefore(g) then Aborted else At(Node(7, 60))
  {
    hide Reached, Inv, Books, FixBefore, Handle, Step;
    KeptChangeIsApplied(c, g);
    ReachedInv(c, g);
    InvBooks(c, g);
    InvS07(c, g);
    InvFiles(c, g);
    S0750Result(c, g.st, e);
    S0750Step(c, g, e);
  }

  lemma S0750Step(c: Case, g: Config, e: Env)
    requires Books(g) && g.pc == At(Node(7, 50)) && KeyOf(Node(7, 50), g.st) !in g.ledger
    requires Handle(c, Node(7, 50), g.st, e) == if Here(g.st, ApplyResult).Some? then Say(Continue) else Raised
    ensures Step(c, g, e).pc == if Here(g.st, ApplyResult).Some? then At(Node(7, 60)) else Aborted
  {
    hide Books, Handle;
    if Here(g.st, ApplyResult).Some? {
      RunsTo(c, g, e, Execution(Continue, NOTHING));
    }
  }

  // ---- The report's account of the passes ----------------------------------------------------------------------

  // No earlier pass of the reported phase was judged: a judged pass moves on to another phase.
  lemma NoEarlierJudgement(c: Case, st: State, m: nat)
    requires Linked(c, st.arts) && NeverAgain(st.arts) && Here(st, Patch).Some? && m < st.attempts
    ensures Find(st, Decision, st.phase.value, m).None?
  {
    var a, b := ArtKey(Decision, st.phase.value, m), KeyHere(st, Patch);
    if a in st.arts {
      FixedPhasePassed(c, st.arts, a);
      assert PassThenPatch(st.arts, ArtKey(Verification, a.phase, m), b);
    }
  }

  lemma EarlierVerification(c: Case, st: State, m: nat)
    requires Linked(c, st.arts) && NeverAgain(st.arts) && Here(st, Patch).Some? && m < st.attempts
    ensures var v := Find(st, Verification, st.phase.value, m); v.Some? ==> IsFailure(v.value)
  {
    var a, b := ArtKey(Verification, st.phase.value, m), KeyHere(st, Patch);
    if a in st.arts {
      assert LinkOk(c, st.arts, a);
      assert PassThenPatch(st.arts, a, b) <==> IsPass(st.arts[a]);
    }
  }

  lemma InvFiles(c: Case, g: Config)
    requires Inv(c, g) && g.pc.At? && g.pc.node.stage == 7
    ensures Linked(c, g.st.arts) && NeverAgain(g.st.arts) && g.st.phase.Some? && Here(g.st, Patch).Some?
  {
    hide Books, Linked, Order, Repeating, Tail, Retry, NeverAgain, AllHere, WorkS7;
    AllFiled(c, g.st);
    assert AllHere(g.st) ==> Here(g.st, Patch).Some? && g.st.phase.Some? by { AllHereGives(g.st); }
  }

  lemma AllHereGives(st: State)
    ensures AllHere(st) ==> Here(st, Patch).Some? && st.phase.Some?
  {
  }

  lemma ReachedFiles(c: Case, g: Config)
    requires Reached(c, g)
    ensures Books(g) && Linked(c, g.st.arts) && NeverAgain(g.st.arts) && Retried(g.st.arts) && PassEnds(g)
  {
    ReachedInv(c, g);
    hide Reached, Books, Linked, NeverAgain, Retried, PassEnds;
  }

  // From pass m on, no pass before the current one was judged FIX_ONE_PART.
  ghost predicate NoFixFrom(g: Config, m: nat) {
    forall j: nat :: m <= j < g.st.attempts ==> !FixAt(g.st.arts, j)
  }

  ghost function Ending(arts: Arts, m: nat): Detail {
    if FailedAt(arts, m) then VerificationFailed else Judged(FixOnePart)
  }

  predicate Filed(st: State, kind: Kind, m: nat) { st.phase.Some? && KeyHere(st, kind).(pass := m) in st.arts }

  // Every earlier pass sealed a verification of a patch, both for the one phase it worked on.
  lemma VerifiedSomething(c: Case, g: Config, m: nat) returns (a: ArtKey)
    requires Linked(c, g.st.arts) && PassEnds(g) && m < g.st.attempts
    ensures a.kind == Verification && a.pass == m && a in g.st.arts && ArtKey(Patch, a.phase, m) in g.st.arts
    ensures !FixAt(g.st.arts, m) ==> IsFailure(g.st.arts[a])
  {
    if FixAt(g.st.arts, m) {
      var d :| d in g.st.arts && d.kind == Decision && d.pass == m && IsFix(g.st.arts[d]);
      FixedPhasePassed(c, g.st.arts, d);
      a := ArtKey(Verification, d.phase, m);
    } else {
      a :| a in g.st.arts && a.kind == Verification && a.pass == m && IsFailure(g.st.arts[a]);
    }
    assert LinkOk(c, g.st.arts, a);
  }

  // Back from the current pass: with only failures from m on, pass m worked on the same phase.
  lemma {:induction false} SamePhaseBack(c: Case, g: Config, m: nat)
    requires Linked(c, g.st.arts) && PassEnds(g) && Retried(g.st.arts) && Here(g.st, Patch).Some?
    requires m <= g.st.attempts && NoFixFrom(g, m)
    ensures Filed(g.st, Patch, m) && (m < g.st.attempts ==> Filed(g.st, Verification, m))
    decreases g.st.attempts - m
  {
    hide Linked, PassEnds, Retried;
    if m < g.st.attempts {
      SamePhaseBack(c, g, m + 1);
      var a := VerifiedSomething(c, g, m);
      PatchedNext(g.st.arts, a, ArtKey(Patch, g.st.phase.value, m + 1));
    }
  }

  lemma PatchedNext(arts: Arts, a: ArtKey, b: ArtKey)
    requires Retried(arts) && FailThenPatch(arts, a, b)
    ensures b.phase == a.phase
  {
  }

  // Forward from pass m: if it worked on the phase being reported, so did every pass after it.
  lemma {:induction false} SamePhaseOn(c: Case, g: Config, m: nat, j: nat)
    requires Linked(c, g.st.arts) && PassEnds(g) && Retried(g.st.arts) && NeverAgain(g.st.arts) && Here(g.st, Patch).Some?
    requires m <= j < g.st.attempts && Filed(g.st, Verification, m)
    ensures Filed(g.st, Verification, j) && FailedAt(g.st.arts, j)
    decreases j - m
  {
    hide Linked, PassEnds, Retried, NeverAgain;
    EarlierVerification(c, g.st, m);
    if m < j {
      var a := VerifiedSomething(c, g, m + 1);
      PatchedNext(g.st.arts, ArtKey(Verification, g.st.phase.value, m), ArtKey(Patch, a.phase, m + 1));
      SamePhaseOn(c, g, m + 1, j);
    }
  }

  lemma WorkedOnThePhase(c: Case, g: Config, m: nat)
    requires Books(g) && Linked(c, g.st.arts) && PassEnds(g) && Retried(g.st.arts) && NeverAgain(g.st.arts) && Here(g.st, Patch).Some?
    requires m < g.st.attempts
    ensures Filed(g.st, Verification, m) <==> NoFixFrom(g, m)
  {
    hide Books, Linked, PassEnds, Retried, NeverAgain, FixAt, FailedAt;
    if NoFixFrom(g, m) {
      SamePhaseBack(c, g, m);
    }
    if Filed(g.st, Verification, m) {
      forall j: nat | m <= j < g.st.attempts ensures !FixAt(g.st.arts, j) {
        SamePhaseOn(c, g, m, j);
        NotBoth(c, g, j);
      }
    }
  }

  // The report is meant to keep every earlier pass visible. It reports a pass as it ended exactly when
  // neither that pass nor any between it and the reported one was judged FIX_ONE_PART; otherwise it says
  // that no decision was sealed.
  lemma EarlierPassesAsReported(c: Case, g: Config, m: nat)
    requires Reached(c, g) && g.pc.At? && g.pc.node.stage == 7 && m < g.st.attempts
    ensures g.st.phase.Some?
    ensures DetailOf(g.st, g.st.phase.value, m) == if NoFixFrom(g, m) then VerificationFailed else NoSealedDecision
    ensures DetailOf(g.st, g.st.phase.value, m) == Ending(g.st.arts, m) <==> NoFixFrom(g, m)
  {
    hide Reached, Inv, Books, Linked, PassEnds, Retried, NeverAgain, FixAt, FailedAt;
    ReachedInv(c, g);
    ReachedFiles(c, g);
    InvFiles(c, g);
    NoEarlierJudgement(c, g.st, m);
    EarlierVerification(c, g.st, m);
    WorkedOnThePhase(c, g, m);
    if NoFixFrom(g, m) {
      SamePhaseOn(c, g, m, m);
    }
  }

  // So the whole account is right exactly when no earlier pass was judged FIX_ONE_PART.
  lemma AccountIsRight(c: Case, g: Config)
    requires Reached(c, g) && g.pc.At? && g.pc.node.stage == 7
    ensures g.st.phase.Some?
    ensures (forall m: nat :: m < g.st.attempts ==> DetailOf(g.st, g.st.phase.value, m) == Ending(g.st.arts, m)) <==> NoFixFrom(g, 0)
  {
    hide Reached, Inv, DetailOf, Ending, FixAt, NoFixFrom;
    ReachedInv(c, g);
    InvFiles(c, g);
    forall m: nat | m < g.st.attempts
      ensures DetailOf(g.st, g.st.phase.value, m) == Ending(g.st.arts, m) <==> NoFixFrom(g, m)
    {
      EarlierPassesAsReported(c, g, m);
    }
    NoFixAtAll(g);
  }

  lemma NoFixAtAll(g: Config)
    ensures NoFixFrom(g, 0) <==> forall m: nat :: m < g.st.attempts ==> NoFixFrom(g, m)
  {
    if forall m: nat :: m < g.st.attempts ==> NoFixFrom(g, m) {
      forall j: nat | j < g.st.attempts ensures !FixAt(g.st.arts, j) {
        assert NoFixFrom(g, j);
      }
    }
  }

  lemma NoProvenanceBeyond(g: Config, phase: string, m: nat)
    requires Books(g) && m > g.st.attempts
    ensures Find(g.st, Provenance, phase, m).None?
  {
    var a := ArtKey(Provenance, phase, m);
    var k := Origin(a);
    assert k.node.stage == 3 && k.rev == m && !RevBound(k, g.st);
  }

  lemma {:induction false} SpentBeyond(g: Config, phase: string, passes: nat)
    requires Books(g) && passes > g.st.attempts
    ensures Spent(g.st, phase, passes) == Spent(g.st, phase, g.st.attempts + 1)
  {
    hide Books;
    if passes > g.st.attempts + 1 {
      SpentBeyond(g, phase, passes - 1);
      NoProvenanceBeyond(g, phase, passes - 1);
    }
  }

  // The tokens reported are those of every provenance on file for the phase: looking at more passes,
  // however many, finds no more.
  lemma CostCountsEveryPass(c: Case, g: Config, passes: nat)
    requires Reached(c, g) && g.pc.At? && g.pc.node.stage == 7 && g.pc.node.num > 60 && passes > g.st.attempts
    ensures g.st.phase.Some? && g.st.cost.Some?
    ensures (g.st.cost.value.tokensIn, g.st.cost.value.tokensOut) == Spent(g.st, g.st.phase.value, passes)
    ensures g.st.cost.value.repairs == g.st.attempts
  {
    hide Reached, Inv, Books, Spent;
    ReachedInv(c, g);
    InvBooks(c, g);
    InvS07(c, g);
    SpentBeyond(g, g.st.phase.value, passes);
  }

  // ---- Leaving a stage -----------------------------------------------------------------------------------------

  // S02.90 that asks for the owner's approval is wired to end its stage, but the outer edge asks only
  // whether S02.90 completed: the run goes on to S03 either way.
  lemma PlanApprovalDoesNotHalt(c: Case, g: Config, e: Env)
    requires Reached(c, g) && g.pc == At(Node(2, 90))
    ensures Step(c, g, e).pc == At(Node(3, 10)) || (Step(c, g, e).pc == Aborted && Result(c, Node(2, 90), g, e) == Raised)
  {
    ReachedInv(c, g);
    var r := Result(c, Node(2, 90), g, e);
    hide Reached, KeysOk, CompletedRan, SealsKept, ArtsRecorded, Linked, Work, Order, Repeating, Story, Handle, Updated, Shape;
    if r.Ok? {
      StepMoved(c, g, e, r.value);
    }
  }

  // ---- S04's verdict -------------------------------------------------------------------------------------------

  predicate SealedVerdict(st: State, phase: string, pass: nat, passed: bool) {
    var v := Find(st, Verification, phase, pass);
    HasChecks(v) && v.value.passed == passed && (Gate(v.value.checks) <==> passed)
  }

  lemma GateRan(c: Case, g: Config, h: Config, e: Env, x: Execution)
    requires Ran(c, Node(4, 90), g, h, e, x) && WorkS4(g.st, 90)
    ensures g.st.phase.Some? && SealedVerdict(h.st, g.st.phase.value, g.st.attempts, Gate(g.st.checks))
    ensures if Gate(g.st.checks)
            then h.st.attempts == g.st.attempts && h.st.done == g.st.done + TasksOf(c.tasks, g.st.phase.value) && h.pc == At(Node(5, 10))
            else h.st.attempts == g.st.attempts + 1 && h.st.done == g.st.done &&
                 h.pc == if h.st.attempts < MAX_PHASE_REPAIRS then At(Node(3, 10)) else End
  {
    assert Ok(x) == HandleS04(c, 90, g.st, e);
    assert Ok(x) == SealVerification(c, g.st, e);
    ReportAgreesWithGate(g.st.checks);
    assert KeyHere(g.st, Verification) in x.delta.seals;
  }

  lemma ResultS490(c: Case, st: State, e: Env)
    requires PatchHere(st) && st.plans.Some? && !e.fails
    ensures Handle(c, Node(4, 90), st, e).Ok?
  {
    assert Handle(c, Node(4, 90), st, e) == HandleS04(c, 90, st, e);
    assert HandleS04(c, 90, st, e) == SealVerification(c, st, e);
  }

  lemma ReachedAtS490(c: Case, g: Config)
    requires Reached(c, g) && g.pc == At(Node(4, 90))
    ensures Books(g) && KeyOf(Node(4, 90), g.st) !in g.ledger && WorkS4(g.st, 90) && g.st.plans.Some?
  {
    hide Reached, Books, Linked, Repeating, Ends, Tail, Retry;
    ReachedInv(c, g);
    KeysAreFresh(g);
  }

  // The gate S04.80 recorded, the verdict S04.90 seals, the report's own validator, the promotion of the
  // phase's tasks, the counter and the edge taken all agree.
  lemma GateSettlesThePass(c: Case, g: Config, e: Env)
    requires Reached(c, g) && g.pc == At(Node(4, 90)) && !e.fails
    ensures g.st.phase.Some? && g.st.manifest.gate == Some(Gate(g.st.checks))
    ensures var h := Step(c, g, e);
            && SealedVerdict(h.st, g.st.phase.value, g.st.attempts, Gate(g.st.checks))
            && if Gate(g.st.checks)
               then h.st.attempts == g.st.attempts && h.st.done == g.st.done + TasksOf(c.tasks, g.st.phase.value) && h.pc == At(Node(5, 10))
               else h.st.attempts == g.st.attempts + 1 && h.st.done == g.st.done &&
                    h.pc == if h.st.attempts < MAX_PHASE_REPAIRS then At(Node(3, 10)) else End
  {
    hide Reached, Books, Handle, Step, Moved, SealedVerdict;
    ReachedAtS490(c, g);
    ResultS490(c, g.st, e);
    var x := Handle(c, Node(4, 90), g.st, e).value;
    RunsTo(c, g, e, x);
    GateRan(c, g, Step(c, g, e), e, x);
  }

  // ---- S06's decisions -------------------------------------------------------------------------------------------

  predicate RollbackIs(r: Option<Artifact>, untouched: bool) {
    r.Some? && r.value.RollbackDoc? && r.value.untouched == untouched
  }

  // What a sealed decision says, in terms of its own pass's evidence and rollback report.
  ghost predicate Justified(c: Case, d: Artifact, effects: seq<Effect>, checks: seq<Check>, r: Option<Artifact>) {
    && d.DecisionDoc?
    && EvaluateTargets(c.criteria, effects) == Ok(d.targets) && d.guardrails == EvaluateGuardrails(c.guardrails, effects, checks)
    && (d.outcome == Keep <==> AllHold(d.guardrails) && |d.targets| > 0 && AllMet(d.targets))
    && (d.outcome == FixOnePart <==> AllHold(d.guardrails) && SomeMet(d.targets) && !AllMet(d.targets))
    && (d.outcome == Revert <==> (!AllHold(d.guardrails) || !SomeMet(d.targets)) && RollbackIs(r, true))
    && (d.outcome == Escalate <==> (!AllHold(d.guardrails) || !SomeMet(d.targets)) && RollbackIs(r, false))
    && d.rollback == if d.outcome == Revert then r else None
  }

  // Every decision ever sealed, in whatever pass, is the one its own pass's statistics and checks call for,
  // and between REVERT and ESCALATE the one its own pass's rollback report calls for.
  lemma DecisionsAreJustified(c: Case, g: Config, a: ArtKey)
    requires Reached(c, g) && a in g.st.arts && a.kind == Decision
    ensures var s, v, r := Find(g.st, Statistical, a.phase, a.pass), Find(g.st, Verification, a.phase, a.pass), Find(g.st, Rollback, a.phase, a.pass);
            HasEffects(s) && HasChecks(v) && v.value.passed && Justified(c, g.st.arts[a], s.value.effects, v.value.checks, r)
  {
    hide Reached, Justified;
    ReachedInv(c, g);
    LinkedDecision(c, g.st, a);
  }

  lemma LinkedDecision(c: Case, st: State, a: ArtKey)
    requires Linked(c, st.arts) && a in st.arts && a.kind == Decision
    ensures var s, v, r := Find(st, Statistical, a.phase, a.pass), Find(st, Verification, a.phase, a.pass), Find(st, Rollback, a.phase, a.pass);
            HasEffects(s) && HasChecks(v) && v.value.passed && Justified(c, st.arts[a], s.value.effects, v.value.checks, r)
  {
    assert LinkOk(c, st.arts, a);
    DecisionMeaning(st.arts[a].targets, st.arts[a].guardrails, FoundUntouched(st.arts, a));
  }

  // ---- The plan --------------------------------------------------------------------------------------------------

  // S02.81 is only ever reached without a plan, so a run seals at most one; every node after it finds the
  // plan sealed, with its own task list, for the selected solution, and cited by every patch and provenance.
  lemma OnePlan(c: Case, g: Config)
    requires Reached(c, g) && g.pc.At?
    ensures g.pc.node == Node(2, 81) ==> g.st.plans.None? && KeyOf(Node(2, 81), g.st) !in g.ledger
    ensures Pos(g.pc.node) >= 290 ==> g.st.plans.Some?
    ensures g.st.plans.Some? ==>
              var p := g.st.plans.value;
              p.tasks.plan == p.plan && SELECTION in g.st.arts && g.st.arts[SELECTION] == p.plan.selected
    ensures forall a :: a in g.st.arts && a.kind in {Patch, Provenance} ==> Cites(g.st.arts[a], g.st.plans)
  {
    ReachedInv(c, g);
    hide Reached, Books, Linked, Work, Repeating, InOrder, LoopsEarly, NewPassClean, NotYet, Budget, SelectionPass, PlanKeys, S01Recorded,
         Ends, Tail, Retry, Sampled, Retried, Cites;
  }
}
