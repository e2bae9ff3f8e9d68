// Each node leaves the working state the next node relies on.

module Progress {
  import opened Results
  import opened Phases
  import opened Checks
  import opened Remeasure
  import opened Decide
  import opened Machine
  import opened Bookkeeping
  import opened Evidence

  // A step whose handler really ran.
  ghost predicate Ran(c: Case, n: Node, g: Config, h: Config, e: Env, x: Execution) {
    Moved(n, g, h, x) && Handle(c, n, g.st, e) == Ok(x) && !Clash(g.st.arts, x.delta.seals)
  }

  lemma HereStays(s: State, t: State, kind: Kind)
    requires s.phase == t.phase && s.attempts == t.attempts && Extends(s.arts, t.arts)
    ensures Here(s, kind).Some? ==> Here(t, kind) == Here(s, kind)
  {
  }

  lemma AllHereStays(s: State, t: State)
    requires s.phase == t.phase && s.attempts == t.attempts && Extends(s.arts, t.arts)
    ensures PatchHere(s) ==> PatchHere(t)
    ensures PassedHere(s) ==> PassedHere(t)
    ensures MeasuredHere(s) ==> MeasuredHere(t)
  {
    HereStays(s, t, Patch);
    HereStays(s, t, Provenance);
    HereStays(s, t, Verification);
    HereStays(s, t, Statistical);
    HereStays(s, t, Measurement);
  }

  lemma Grown(n: Node, g: Config, h: Config, x: Execution)
    requires Moved(n, g, h, x) && !Clash(g.st.arts, x.delta.seals)
    ensures Extends(g.st.arts, h.st.arts)
  {
  }

  // S03 -----------------------------------------------------------------------------------------------

  lemma PickIsActive(c: Case, g: Config, h: Config, e: Env, x: Execution)
    requires Ran(c, Node(3, 10), g, h, e, x) && x.route == Continue
    ensures ActivePhase(c, h.st) && x.delta.phase == h.st.phase
  {
    assert Ok(x) == HandleS03(c, 10, g.st, e);
    var i := Active(c.phases, c.tasks, g.st.done);
    assert i.Some? ==> Unfinished(c.phases, c.tasks, g.st.done, i.value);
  }

  lemma PatchIsHere(c: Case, g: Config, h: Config, e: Env, x: Execution)
    requires Ran(c, Node(3, 80), g, h, e, x)
    ensures PatchHere(h.st)
  {
    assert Ok(x) == HandleS03(c, 80, g.st, e);
  }

  lemma WorkFromS3(c: Case, m: nat, g: Config, h: Config, e: Env, x: Execution)
    requires Ran(c, Node(3, m), g, h, e, x) && WorkS3(c, g.st, m)
    ensures Work(c, h)
  {
    Grown(Node(3, m), g, h, x);
    if m == 10 && x.route == Continue {
      PickIsActive(c, g, h, e, x);
    } else if m == 80 {
      PatchIsHere(c, g, h, e, x);
    }
  }

  // S04 -----------------------------------------------------------------------------------------------

  lemma IntakeS04(c: Case, g: Config, h: Config, e: Env, x: Execution)
    requires Ran(c, Node(4, 10), g, h, e, x) && Linked(c, g.st.arts)
    ensures PatchHere(h.st)
  {
    Grown(Node(4, 10), g, h, x);
    assert Ok(x) == HandleS04(c, 10, g.st, e);
    assert Here(g.st, Patch).Some? && LinkOk(c, g.st.arts, KeyHere(g.st, Patch));
    AllHereStays(g.st, h.st);
  }

  lemma GateIsKept(c: Case, g: Config, h: Config, e: Env, x: Execution)
    requires Ran(c, Node(4, 80), g, h, e, x)
    ensures h.st.manifest.gate == Some(Gate(h.st.checks))
  {
    assert Ok(x) == HandleS04(c, 80, g.st, e);
  }

  lemma VerifiedIsHere(c: Case, g: Config, h: Config, e: Env, x: Execution)
    requires Ran(c, Node(4, 90), g, h, e, x) && WorkS4(g.st, 90)
    ensures h.pc == At(Node(5, 10)) ==> PassedHere(h.st)
    ensures h.pc.At? ==> h.pc == At(Node(5, 10)) || h.pc == At(Node(3, 10))
    ensures h.pc == At(Node(5, 10)) ==> h.st.done == g.st.done + TasksOf(c.tasks, g.st.phase.value) && h.st.phase == g.st.phase
  {
    Grown(Node(4, 90), g, h, x);
    assert Ok(x) == HandleS04(c, 90, g.st, e);
    assert Ok(x) == SealVerification(c, g.st, e);
    if Gate(g.st.checks) {
      HereStays(g.st, h.st, Patch);
      HereStays(g.st, h.st, Provenance);
      assert KeyHere(h.st, Verification) in x.delta.seals;
    }
  }

  lemma WorkFromS410(c: Case, g: Config, h: Config, e: Env, x: Execution)
    requires Ran(c, Node(4, 10), g, h, e, x) && Linked(c, g.st.arts)
    ensures Work(c, h) && (h.pc.At? ==> h.pc.node.stage < 5)
  {
    IntakeS04(c, g, h, e, x);
    assert Ok(x) == HandleS04(c, 10, g.st, e);
  }

  lemma MoveWithinS4(m: nat, g: Config, h: Config, x: Execution)
    requires Moved(Node(4, m), g, h, x) && 10 < m < 90
    ensures h.pc == At(Node(4, m + 10)) && h.st.phase == g.st.phase && h.st.attempts == g.st.attempts
  {
  }

  lemma WorkWithinS4(c: Case, m: nat, g: Config, h: Config, e: Env, x: Execution)
    requires Ran(c, Node(4, m), g, h, e, x) && 10 < m < 90 && WorkS4(g.st, m)
    ensures Work(c, h) && h.pc == At(Node(4, m + 10))
  {
    hide Handle, Clash, SealsOwn, RoutesOwn, Extends, Gate;
    Grown(Node(4, m), g, h, x);
    MoveWithinS4(m, g, h, x);
    AllHereStays(g.st, h.st);
    if m == 80 {
      GateIsKept(c, g, h, e, x);
    }
  }

  lemma WorkFromS490(c: Case, g: Config, h: Config, e: Env, x: Execution)
    requires Ran(c, Node(4, 90), g, h, e, x) && WorkS4(g.st, 90)
    ensures Work(c, h)
    ensures h.pc.At? && h.pc.node.stage == 5 ==> Gate(g.st.checks)
  {
    VerifiedIsHere(c, g, h, e, x);
    hide Handle, SealsOwn;
  }

  lemma WorkFromS4(c: Case, m: nat, g: Config, h: Config, e: Env, x: Execution)
    requires Ran(c, Node(4, m), g, h, e, x) && WorkS4(g.st, m) && Linked(c, g.st.arts)
    ensures Work(c, h)
    ensures h.pc.At? && h.pc.node.stage == 5 ==> m == 90 && Gate(g.st.checks)
  {
    assert Catalogued(Node(4, m));
    hide Linked, Ran, Work, WorkS4;
    if m == 10 {
      WorkFromS410(c, g, h, e, x);
    } else if m == 90 {
      WorkFromS490(c, g, h, e, x);
    } else {
      WorkWithinS4(c, m, g, h, e, x);
    }
  }

  // S05 -----------------------------------------------------------------------------------------------

  lemma IsolationIsHere(c: Case, g: Config, h: Config, e: Env, x: Execution)
    requires Ran(c, Node(5, 20), g, h, e, x)
    ensures IsolationHere(h.st)
  {
    assert Ok(x) == HandleS05(c, 20, g.st, e);
    assert KeyHere(h.st, Isolation) in x.delta.seals;
  }

  lemma TreatmentIsKept(c: Case, g: Config, h: Config, e: Env, x: Execution)
    requires Ran(c, Node(5, 40), g, h, e, x)
    ensures h.st.treatment.Some?
  {
    assert Ok(x) == HandleS05(c, 40, g.st, e);
  }

  lemma QualityIsKnown(c: Case, g: Config, h: Config, e: Env, x: Execution)
    requires Ran(c, Node(5, 60), g, h, e, x) && g.st.treatment.Some?
    ensures QualityKnown(c, h.st)
  {
    assert Ok(x) == HandleS05(c, 60, g.st, e);
  }

  lemma ComparableIsHere(c: Case, g: Config, h: Config, e: Env, x: Execution)
    requires Ran(c, Node(5, 70), g, h, e, x) && x.route == Continue
    ensures ComparableHere(h.st)
  {
    assert Ok(x) == HandleS05(c, 70, g.st, e);
    assert Ok(x) == SealComparability(c, g.st, e);
    assert KeyHere(h.st, Comparability) in x.delta.seals;
  }

  lemma StatisticsAreHere(c: Case, g: Config, h: Config, e: Env, x: Execution)
    requires Ran(c, Node(5, 80), g, h, e, x)
    ensures HasEffects(Here(h.st, Statistical))
  {
    assert Ok(x) == HandleS05(c, 80, g.st, e);
    assert Ok(x) == SealStatistics(c, g.st, e);
    assert KeyHere(h.st, Statistical) in x.delta.seals;
  }

  lemma ProtocolIsPinned(c: Case, g: Config, h: Config, e: Env, x: Execution)
    requires Ran(c, Node(5, 10), g, h, e, x)
    ensures h.st.protocol == Some(Protocol(c.baselineWorkload, c.environment))
  {
    assert Ok(x) == HandleS05(c, 10, g.st, e);
  }

  // What a node of S05 does not write stays as it is.
  lemma UntouchedS5(c: Case, m: nat, g: Config, h: Config, e: Env, x: Execution)
    requires Ran(c, Node(5, m), g, h, e, x)
    ensures m != 10 ==> h.st.protocol == g.st.protocol
    ensures m != 20 ==> h.st.isolated == g.st.isolated
    ensures m != 40 ==> h.st.treatment == g.st.treatment
    ensures m != 60 ==> h.st.quality == g.st.quality
    ensures h.st.phase == g.st.phase && h.st.attempts == g.st.attempts && h.st.done == g.st.done
  {
    assert Ok(x) == HandleS05(c, m, g.st, e);
    if m == 70 { assert Ok(x) == SealComparability(c, g.st, e); }
    if m == 80 { assert Ok(x) == SealStatistics(c, g.st, e); }
    if m == 90 { assert Ok(x) == SealMeasurement(g.st, e); }
  }

  lemma KeptS5(c: Case, m: nat, g: Config, h: Config, e: Env, x: Execution)
    requires Ran(c, Node(5, m), g, h, e, x) && WorkS5(c, g.st, m)
    ensures PassedHere(h.st) && (x.route == Continue && m < 90 ==> WorkS5(c, h.st, m + 10))
  {
    Grown(Node(5, m), g, h, x);
    UntouchedS5(c, m, g, h, e, x);
    AllHereStays(g.st, h.st);
    HereStays(g.st, h.st, Isolation);
    HereStays(g.st, h.st, Comparability);
    hide Handle, Moved, Clash;
    if m == 10 { ProtocolIsPinned(c, g, h, e, x); }
    else if m == 20 { IsolationIsHere(c, g, h, e, x); }
    else if m == 40 { TreatmentIsKept(c, g, h, e, x); }
    else if m == 60 { QualityIsKnown(c, g, h, e, x); }
    else if m == 70 && x.route == Continue { ComparableIsHere(c, g, h, e, x); }
    else if m == 80 { StatisticsAreHere(c, g, h, e, x); }
  }

  lemma OnFromS5(m: nat, g: Config, h: Config, x: Execution)
    requires Moved(Node(5, m), g, h, x)
    ensures h.pc == End || h.pc == At(Node(6, 10)) || (h.pc == At(Node(5, m + 10)) && m < 90 && x.route == Continue)
  {
  }

  lemma WorkFromS5(c: Case, m: nat, g: Config, h: Config, e: Env, x: Execution)
    requires Ran(c, Node(5, m), g, h, e, x) && WorkS5(c, g.st, m)
    ensures Work(c, h)
  {
    hide Handle, WorkS5, PassedHere;
    KeptS5(c, m, g, h, e, x);
    OnFromS5(m, g, h, x);
  }

  // S06 -----------------------------------------------------------------------------------------------

  // The quality S05.70 insisted on already guarantees what S06.10 looks for: it never rejects.
  lemma IntakeNeverRejects(c: Case, st: State, e: Env, x: Execution)
    requires HandleS06(c, 10, st, e) == Ok(x) && PassedHere(st) && Linked(c, st.arts)
    ensures x.route == Continue
    ensures MeasuredHere(st)
  {
    assert HandleS06(c, 10, st, e) == Intake(c, st);
    var a := KeyHere(st, Statistical);
    assert LinkOk(c, st.arts, a);
    var effects := st.arts[a].effects;
    var t :| FromTreatment(c, effects, t);
    QualityGivesEveryEffect(c.criteria, t, c.baseline, c.requirements);
    forall i | 0 <= i < |c.criteria| ensures Measures(effects, c.criteria[i].id) {
      assert effects[i].criterion == c.criteria[i].id;
    }
  }

  lemma TargetsAreKnown(c: Case, g: Config, h: Config, e: Env, x: Execution)
    requires Ran(c, Node(6, 20), g, h, e, x)
    ensures TargetsKnown(c, h.st)
  {
    Grown(Node(6, 20), g, h, x);
    assert Ok(x) == HandleS06(c, 20, g.st, e);
    HereStays(g.st, h.st, Statistical);
  }

  lemma GuardsAreKnown(c: Case, g: Config, h: Config, e: Env, x: Execution)
    requires Ran(c, Node(6, 30), g, h, e, x)
    ensures GuardsKnown(c, h.st)
  {
    Grown(Node(6, 30), g, h, x);
    assert Ok(x) == HandleS06(c, 30, g.st, e);
    HereStays(g.st, h.st, Statistical);
    HereStays(g.st, h.st, Verification);
  }

  lemma ClassIsKnown(c: Case, g: Config, h: Config, e: Env, x: Execution)
    requires Ran(c, Node(6, 40), g, h, e, x)
    ensures ClassKnown(h.st)
  {
    assert Ok(x) == HandleS06(c, 40, g.st, e);
  }

  lemma TableIsApplied(c: Case, g: Config, h: Config, e: Env, x: Execution)
    requires Ran(c, Node(6, 50), g, h, e, x) && g.st.class_.Some?
    ensures Tabled(h.st)
  {
    assert Ok(x) == HandleS06(c, 50, g.st, e);
  }

  lemma RollbackIsChecked(c: Case, g: Config, h: Config, e: Env, x: Execution)
    requires Ran(c, Node(6, 60), g, h, e, x)
    ensures h.st.verdict == g.st.verdict
    ensures h.st.verdict == Some(Revert) ==> RolledBack(h.st, h.st.rollback)
  {
    assert Ok(x) == HandleS06(c, 60, g.st, e);
    assert Ok(x) == VerifyRollback(c, g.st, e);
    if g.st.verdict == Some(Revert) {
      assert KeyHere(h.st, Rollback) in x.delta.seals;
    }
  }

  // What S06.80 writes, given a decided state.
  lemma DecisionDelta(st: State, e: Env, x: Execution)
    requires SealDecision(st, e) == Ok(x) && Decided(st)
    ensures st.phase.Some? && x.delta.verdict == st.verdict
    ensures KeyHere(st, Decision) in x.delta.seals
    ensures var d := x.delta.seals[KeyHere(st, Decision)]; d.DecisionDoc? && Some(d.outcome) == st.verdict
    ensures x.delta.attempts == if st.verdict == Some(FixOnePart) then Some(st.attempts + 1) else None
    ensures x.delta.excluded.Some? <==> st.verdict == Some(Revert)
    ensures x.delta.excluded.Some? ==> Selected(st).Some? && Selected(st).value.Solution? &&
                                       x.delta.excluded.value == st.excluded + {Selected(st).value.strategy}
  {
  }

  lemma DecisionRan(c: Case, g: Config, h: Config, e: Env, x: Execution)
    requires Ran(c, Node(6, 80), g, h, e, x)
    ensures SealDecision(g.st, e) == Ok(x)
  {
    assert Ok(x) == HandleS06(c, 80, g.st, e);
  }

  lemma DecisionIsSealed(c: Case, g: Config, h: Config, e: Env, x: Execution)
    requires Ran(c, Node(6, 80), g, h, e, x) && WorkS6(c, g.st, 80)
    ensures WorkS6(c, h.st, 90) && h.st.verdict == g.st.verdict
    ensures h.st.attempts == g.st.attempts + (if h.st.verdict == Some(FixOnePart) then 1 else 0)
    ensures h.st.phase == g.st.phase
    ensures h.st.verdict != Some(Revert) ==> h.st.excluded == g.st.excluded
    ensures h.st.verdict == Some(Revert) ==> h.st.excluded != {}
  {
    hide SealDecision, Handle, SealsOwn, RoutesOwn;
    DecisionRan(c, g, h, e, x);
    DecisionDelta(g.st, e, x);
    var k := KeyHere(g.st, Decision);
    assert h.st.arts[k] == x.delta.seals[k];
    if h.st.verdict == Some(Revert) {
      assert Selected(g.st).value.strategy in h.st.excluded;
    }
  }

  // What a node of S06 before the seal does not write stays as it is.
  lemma UntouchedS6(c: Case, m: nat, g: Config, h: Config, e: Env, x: Execution)
    requires Ran(c, Node(6, m), g, h, e, x) && m <= 70
    ensures m != 20 ==> h.st.targets == g.st.targets
    ensures m != 30 ==> h.st.guards == g.st.guards
    ensures m != 40 ==> h.st.class_ == g.st.class_
    ensures m != 50 && m != 70 ==> h.st.verdict == g.st.verdict
    ensures m != 60 ==> h.st.rollback == g.st.rollback
    ensures h.st.phase == g.st.phase && h.st.attempts == g.st.attempts && h.st.excluded == g.st.excluded
  {
    assert Ok(x) == HandleS06(c, m, g.st, e);
    if m == 10 { assert Ok(x) == Intake(c, g.st); }
    if m == 60 { assert Ok(x) == VerifyRollback(c, g.st, e); }
  }

  lemma FinalVerdict(c: Case, g: Config, h: Config, e: Env, x: Execution)
    requires Ran(c, Node(6, 70), g, h, e, x) && g.st.verdict.Some?
    ensures h.st.verdict == Some(Final(g.st.verdict.value, g.st.rollback))
  {
    assert Ok(x) == HandleS06(c, 70, g.st, e);
  }

  lemma EscalationIsApplied(c: Case, g: Config, h: Config, e: Env, x: Execution)
    requires Ran(c, Node(6, 70), g, h, e, x) && WorkS6(c, g.st, 70)
    ensures Decided(h.st)
  {
    hide Handle, Clash, Shape, Updated;
    Grown(Node(6, 70), g, h, x);
    UntouchedS6(c, 70, g, h, e, x);
    HereStays(g.st, h.st, Rollback);
    FinalVerdict(c, g, h, e, x);
  }

  lemma IntakeRan(c: Case, g: Config, h: Config, e: Env, x: Execution)
    requires Ran(c, Node(6, 10), g, h, e, x) && PassedHere(g.st) && Linked(c, g.st.arts)
    ensures x.route == Continue && MeasuredHere(g.st)
  {
    assert Ok(x) == HandleS06(c, 10, g.st, e);
    IntakeNeverRejects(c, g.st, e, x);
  }

  lemma OnFromS6(m: nat, g: Config, h: Config, x: Execution)
    requires Moved(Node(6, m), g, h, x) && m < 90 && (m == 10 ==> x.route == Continue)
    ensures h.pc == At(Node(6, m + 10))
  {
  }

  lemma WorkWithinS6(c: Case, m: nat, g: Config, h: Config, e: Env, x: Execution)
    requires Ran(c, Node(6, m), g, h, e, x) && m <= 70 && WorkS6(c, g.st, m) && Linked(c, g.st.arts)
    ensures h.pc == At(Node(6, m + 10)) && WorkS6(c, h.st, m + 10)
  {
    hide Handle, Linked, Clash, Shape, Updated;
    Grown(Node(6, m), g, h, x);
    UntouchedS6(c, m, g, h, e, x);
    AllHereStays(g.st, h.st);
    HereStays(g.st, h.st, Statistical);
    HereStays(g.st, h.st, Verification);
    HereStays(g.st, h.st, Rollback);
    if m == 10 { IntakeRan(c, g, h, e, x); }
    OnFromS6(m, g, h, x);
    if m == 20 { TargetsAreKnown(c, g, h, e, x); }
    else if m == 30 { GuardsAreKnown(c, g, h, e, x); }
    else if m == 40 { ClassIsKnown(c, g, h, e, x); }
    else if m == 50 { TableIsApplied(c, g, h, e, x); }
    else if m == 60 { RollbackIsChecked(c, g, h, e, x); }
    else if m == 70 { EscalationIsApplied(c, g, h, e, x); }
  }

  lemma WorkFromS6(c: Case, m: nat, g: Config, h: Config, e: Env, x: Execution)
    requires Ran(c, Node(6, m), g, h, e, x) && m < 90 && WorkS6(c, g.st, m) && Linked(c, g.st.arts)
    ensures Work(c, h) && h.pc == At(Node(6, m + 10))
  {
    hide Handle, Linked, WorkS6;
    if m == 80 {
      OnFromS6(m, g, h, x);
      DecisionIsSealed(c, g, h, e, x);
    } else {
      WorkWithinS6(c, m, g, h, e, x);
    }
  }

  // S06.90 and S07 write nothing the decision rests on, whether they run or replay.
  lemma WorkFromS690(c: Case, g: Config, h: Config, x: Execution)
    requires Moved(Node(6, 90), g, h, x) && WorkS6(c, g.st, 90) && !Clash(g.st.arts, x.delta.seals)
    ensures Work(c, h)
  {
    Grown(Node(6, 90), g, h, x);
  }

  lemma WorkFromS7(c: Case, m: nat, g: Config, h: Config, x: Execution)
    requires Moved(Node(7, m), g, h, x) && WorkS7(g.st) && !Clash(g.st.arts, x.delta.seals)
    ensures Work(c, h)
  {
    Grown(Node(7, m), g, h, x);
  }
}
