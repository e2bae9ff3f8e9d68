// Runs that reach the situations in which the workflow departs from its documentation.

module Witness {
  import opened Results
  import opened Phases
  import opened Checks
  import opened Remeasure
  import opened Decide
  import opened Machine
  import opened Bookkeeping
  import opened Passes
  import opened Evidence
  import opened Progress
  import opened Invariant
  import opened Measurements
  import opened Outcomes
  import opened Reporting
  import opened Reachable
  import opened PhaseLoop
  import opened Termination
  import opened Delivery

  // Everything goes well; checks and readings as given.
  function Fine(exits: map<string, int>, readings: map<string, Reading>): Env {
    Env(false, 0, true, "strategy", true, false, true, 0, 0, true, [], true, true, exits, readings, false, true, Allow, true)
  }

  ghost predicate Live(c: Case, g: Config) {
    Reached(c, g) && g.pc.At? && g.st.excluded == {} && !Looping(g)
  }

  // A step whose handler runs, in terms of what the handler returned.
  lemma Walk(c: Case, g: Config, e: Env, x: Execution)
    requires Reached(c, g) && g.pc.At? && KeyOf(g.pc.node, g.st) !in g.ledger && Handle(c, g.pc.node, g.st, e) == Ok(x)
    ensures var h := Step(c, g, e);
            Reached(c, h) && Ran(c, g.pc.node, g, h, e, x)
  {
    ReachedInv(c, g);
    RunsTo(c, g, e, x);
    ReachedStep(c, g, e);
  }

  // ---- S01 and S02 ----------------------------------------------------------------------------------------------

  ghost predicate Ahead(g: Config) {
    g.pc.At? && forall k :: k in g.ledger ==> Pos(k.node) < Pos(g.pc.node)
  }

  lemma OpeningResult(c: Case, n: Node, st: State, e: Env)
    requires Catalogued(n) && n.stage <= 2 && !e.fails && e.eligible && e.planPasses && !e.planNeedsOwner
    requires n.stage == 2 ==> Selected(st).Some?
    requires n == Node(2, 90) ==> st.plans.Some?
    ensures Handle(c, n, st, e).Ok? && Handle(c, n, st, e).value.route == Continue
  {
  }

  lemma OpeningStep(c: Case, g: Config, e: Env)
    requires Live(c, g) && Ahead(g) && g.pc.node.stage <= 2 && e == Fine(map[], map[])
    ensures var h := Step(c, g, e);
            && Live(c, h) && Catalogued(h.pc.node) && Pos(h.pc.node) > Pos(g.pc.node) && h.st.done == g.st.done && h.st.attempts == g.st.attempts
            && if g.pc == At(Node(2, 90)) then h.pc == At(Node(3, 10)) else h.pc.node.stage <= 2 && Ahead(h)
  {
    var n := g.pc.node;
    LiveOpening(c, g);
    OpeningResult(c, n, g.st, e);
    var x := Handle(c, n, g.st, e).value;
    Walk(c, g, e, x);
    OpeningForward(n, g, Step(c, g, e), x);
  }

  lemma LiveOpening(c: Case, g: Config)
    requires Live(c, g) && g.pc.node.stage <= 2
    ensures Catalogued(g.pc.node) && NotYet(g) && (g.pc.node.stage == 2 ==> Selected(g.st).Some?)
    ensures g.pc.node == Node(2, 90) ==> g.st.plans.Some?
  {
    ReachedInv(c, g);
  }

  lemma OpeningForward(n: Node, g: Config, h: Config, x: Execution)
    requires Moved(n, g, h, x) && n.stage <= 2 && x.route == Continue && NotYet(g) && g.st.excluded == {} && Ahead(g)
    ensures h.pc.At? && Catalogued(h.pc.node) && Pos(h.pc.node) > Pos(n) && h.st.excluded == {} && h.st.done == g.st.done && h.st.attempts == g.st.attempts && !Looping(h)
    ensures if n == Node(2, 90) then h.pc == At(Node(3, 10)) else h.pc.node.stage <= 2 && Ahead(h)
  {
    OpeningMoves(n, g, h, x);
    forall k | k in h.ledger ensures Pos(k.node) < Pos(h.pc.node) && k.node.stage <= 2 {
      assert k != KeyOf(n, g.st) ==> k in g.ledger;
    }
  }

  lemma OpeningFrom(c: Case, g: Config) returns (h: Config)
    requires Live(c, g) && Ahead(g) && g.pc.node.stage <= 2 && Catalogued(g.pc.node)
    ensures Live(c, h) && Ahead(h) && h.pc == At(Node(2, 90)) && h.st.attempts == g.st.attempts && h.st.done == g.st.done
    decreases Below(300, Pos(g.pc.node))
  {
    hide Reached;
    if g.pc == At(Node(2, 90)) {
      h := g;
    } else {
      var e := Fine(map[], map[]);
      OpeningStep(c, g, e);
      h := OpeningFrom(c, Step(c, g, e));
    }
  }

  lemma Planned(c: Case) returns (g: Config)
    ensures Live(c, g) && Ahead(g) && g.pc == At(Node(2, 90)) && g.st.attempts == 0 && g.st.done == {}
  {
    var s := Start(map[]);
    assert s == Run(c, Start(map[]), []);
    g := OpeningFrom(c, s);
  }

  lemma Opening(c: Case) returns (g: Config)
    ensures Live(c, g) && g.pc == At(Node(3, 10)) && g.st.attempts == 0 && g.st.done == {}
  {
    hide Reached;
    var s := Planned(c);
    OpeningStep(c, s, Fine(map[], map[]));
    g := Step(c, s, Fine(map[], map[]));
  }

  // ---- S03 ---------------------------------------------------------------------------------------------------------

  predicate InScopeHere(st: State) { Here(st, Patch).Some? && Here(st, Patch).value.PatchDoc? && Here(st, Patch).value.inScope }

  predicate Scoped(st: State, m: nat) { (m > 60 ==> st.scope.inScope) && (m > 80 ==> InScopeHere(st)) }

  lemma ResultS3(c: Case, m: nat, st: State, e: Env)
    requires Catalogued(Node(3, m)) && Selected(st).Some? && st.plans.Some? && (m > 10 ==> st.phase.Some?)
    requires m == 10 ==> Active(c.phases, c.tasks, st.done).Some?
    requires !e.fails && e.authorized && e.inScope && e.sane
    ensures Handle(c, Node(3, m), st, e).Ok? && Handle(c, Node(3, m), st, e).value.route == Continue
  {
    assert Handle(c, Node(3, m), st, e) == HandleS03(c, m, st, e);
  }

  lemma ScopeS3(c: Case, m: nat, g: Config, h: Config, e: Env, x: Execution)
    requires Ran(c, Node(3, m), g, h, e, x) && e.inScope && Scoped(g.st, m) && (m > 10 ==> g.st.phase.Some?)
    ensures Scoped(h.st, m + 10)
  {
    Grown(Node(3, m), g, h, x);
    assert Ok(x) == HandleS03(c, m, g.st, e);
    if m == 80 {
      assert KeyHere(h.st, Patch) in x.delta.seals;
    } else if m == 90 {
      HereStays(g.st, h.st, Patch);
    }
  }

  lemma MoveS3(m: nat, g: Config, h: Config, x: Execution)
    requires Moved(Node(3, m), g, h, x) && x.route == Continue
    ensures h.pc == At(if m == 90 then Node(4, 10) else Node(3, m + 10))
    ensures h.st.attempts == g.st.attempts && h.st.done == g.st.done && h.st.excluded == g.st.excluded
    ensures m > 10 ==> h.st.phase == g.st.phase
  {
  }

  lemma LiveS3(c: Case, g: Config)
    requires Live(c, g) && g.pc.node.stage == 3
    ensures Selected(g.st).Some? && g.st.plans.Some? && (g.pc.node.num > 10 ==> g.st.phase.Some?)
    ensures KeyOf(g.pc.node, g.st) !in g.ledger && Books(g)
  {
    ReachedInv(c, g);
    KeysAreFresh(g);
  }

  // What every node of the loop before S06.90 can rely on.
  lemma LiveInLoop(c: Case, g: Config)
    requires Live(c, g) && InLoop(g.pc) && g.pc.node != Node(6, 90)
    ensures Books(g) && KeyOf(g.pc.node, g.st) !in g.ledger && Catalogued(g.pc.node) && Work(c, g) && Linked(c, g.st.arts)
    ensures Selected(g.st).Some? && g.st.plans.Some?
  {
    ReachedInv(c, g);
    KeysAreFresh(g);
  }

  lemma StepS3(c: Case, m: nat, g: Config, e: Env) returns (h: Config)
    requires Live(c, g) && g.pc == At(Node(3, m)) && Scoped(g.st, m) && e == Fine(e.exits, e.readings)
    requires m == 10 ==> Active(c.phases, c.tasks, g.st.done).Some?
    ensures Live(c, h) && h.pc == At(if m == 90 then Node(4, 10) else Node(3, m + 10)) && Scoped(h.st, m + 10)
    ensures h.st.attempts == g.st.attempts && h.st.done == g.st.done
    ensures Extends(g.st.arts, h.st.arts)
  {
    LiveS3(c, g);
    ResultS3(c, m, g.st, e);
    var x := Handle(c, Node(3, m), g.st, e).value;
    Walk(c, g, e, x);
    h := Step(c, g, e);
    ScopeS3(c, m, g, h, e, x);
    MoveS3(m, g, h, x);
    Grown(Node(3, m), g, h, x);
    NotLoopingWithin(Node(3, m), g, h, x);
  }

  lemma ThroughS3(c: Case, m: nat, g: Config, e: Env) returns (h: Config)
    requires Live(c, g) && g.pc == At(Node(3, m)) && Catalogued(Node(3, m)) && Scoped(g.st, m) && e == Fine(e.exits, e.readings) && m <= 90
    requires m == 10 ==> Active(c.phases, c.tasks, g.st.done).Some?
    ensures Live(c, h) && h.pc == At(Node(4, 10)) && InScopeHere(h.st)
    ensures h.st.attempts == g.st.attempts && h.st.done == g.st.done
    ensures Extends(g.st.arts, h.st.arts)
    decreases 90 - m
  {
    hide Reached;
    h := StepS3(c, m, g, e);
    if m < 90 {
      h := ThroughS3(c, m + 10, h, e);
    }
  }

  // ---- S04 ---------------------------------------------------------------------------------------------------------

  predicate AllFailed(results: seq<Check>) { forall i :: 0 <= i < |results| ==> !results[i].passed }

  // Every declared check passes, or none does.
  predicate Checked(c: Case, st: State, m: nat, good: bool) {
    && (m > 20 ==> st.manifest.kinds == c.commands - {"benchmark"})
    && (m > 10 ==> if good then AllPassed(st.checks) else AllFailed(st.checks))
    && (m > 40 && good ==> HasMandatory(st.checks))
  }

  lemma {:induction false} PickedAreDeclared(order: seq<string>, kinds: set<string>)
    ensures forall k :: k in Pick(order, kinds) ==> k in kinds
  {
    if |order| > 0 { PickedAreDeclared(order[1..], kinds); }
  }

  predicate Suits(c: Case, exits: map<string, int>, good: bool) {
    if good then "unit" in c.commands && forall k :: k in c.commands ==> k in exits && exits[k] == 0
    else exits == map[]
  }

  lemma RunSuits(c: Case, exits: map<string, int>, good: bool, kinds: seq<string>)
    requires Suits(c, exits, good) && forall k :: k in kinds ==> k in c.commands
    ensures if good then AllPassed(RunAll(exits, kinds)) else AllFailed(RunAll(exits, kinds))
  {
  }

  lemma MoreChecks(c: Case, st: State, exits: map<string, int>, good: bool, m: nat)
    requires Suits(c, exits, good) && (m == 30 || m == 40 || m == 50) && Checked(c, st, m, good)
    ensures var results := st.checks + RunAll(exits, KindsAt(m, st.manifest.kinds));
            && (if good then AllPassed(results) else AllFailed(results))
            && (good && (m == 40 || HasMandatory(st.checks)) ==> HasMandatory(results))
  {
    var kinds := KindsAt(m, st.manifest.kinds);
    PickedAreDeclared(STATIC, st.manifest.kinds);
    PickedAreDeclared(["unit"], st.manifest.kinds);
    PickedAreDeclared(["integration", "security"], st.manifest.kinds);
    RunSuits(c, exits, good, kinds);
    var more := RunAll(exits, kinds);
    var results := st.checks + more;
    if good && m == 40 {
      assert |"unit"| != |"benchmark"|;
      assert "unit" in st.manifest.kinds;
      assert ["unit"][1..] == [];
      assert results[|st.checks|] == more[0] && more[0].kind == "unit";
    } else if good && HasMandatory(st.checks) {
      var i :| 0 <= i < |st.checks| && st.checks[i].kind in MANDATORY;
      assert results[i] == st.checks[i];
    }
  }

  lemma ResultS4(c: Case, m: nat, st: State, e: Env)
    requires Catalogued(Node(4, m)) && m < 90 && Here(st, Patch).Some? && st.plans.Some? && !e.fails && e.workspace
    ensures Handle(c, Node(4, m), st, e).Ok? && (m != 80 ==> Handle(c, Node(4, m), st, e).value.route == Continue)
  {
    assert Handle(c, Node(4, m), st, e) == HandleS04(c, m, st, e);
  }

  lemma CheckS4(c: Case, m: nat, g: Config, h: Config, e: Env, x: Execution, good: bool)
    requires Ran(c, Node(4, m), g, h, e, x) && m < 90 && Suits(c, e.exits, good) && Checked(c, g.st, m, good)
    ensures Checked(c, h.st, m + 10, good)
  {
    assert Ok(x) == HandleS04(c, m, g.st, e);
    if m == 30 || m == 40 || m == 50 {
      MoreChecks(c, g.st, e.exits, good, m);
    }
  }

  lemma MoveS4(m: nat, g: Config, h: Config, x: Execution)
    requires Moved(Node(4, m), g, h, x) && m < 90 && (m == 10 ==> x.route == Continue)
    ensures h.pc == At(Node(4, m + 10))
    ensures h.st.attempts == g.st.attempts && h.st.done == g.st.done && h.st.excluded == g.st.excluded && h.st.phase == g.st.phase
  {
  }

  lemma StepS4(c: Case, m: nat, g: Config, e: Env, good: bool) returns (h: Config)
    requires Live(c, g) && g.pc == At(Node(4, m)) && m < 90 && InScopeHere(g.st) && Checked(c, g.st, m, good)
    requires e == Fine(e.exits, e.readings) && Suits(c, e.exits, good)
    ensures Live(c, h) && h.pc == At(Node(4, m + 10)) && InScopeHere(h.st) && Checked(c, h.st, m + 10, good)
    ensures h.st.attempts == g.st.attempts && h.st.done == g.st.done
    ensures Extends(g.st.arts, h.st.arts)
  {
    LiveInLoop(c, g);
    ResultS4(c, m, g.st, e);
    var x := Handle(c, Node(4, m), g.st, e).value;
    Walk(c, g, e, x);
    h := Step(c, g, e);
    CheckS4(c, m, g, h, e, x, good);
    MoveS4(m, g, h, x);
    Grown(Node(4, m), g, h, x);
    HereStays(g.st, h.st, Patch);
    StaysLive(g, h, m, x);
  }

  lemma StaysLive(g: Config, h: Config, m: nat, x: Execution)
    requires Moved(Node(4, m), g, h, x) && !Looping(g) && h.st.attempts == g.st.attempts && (m == 10 ==> x.route == Continue)
    ensures !Looping(h)
  {
  }

  lemma ThroughS4(c: Case, m: nat, g: Config, e: Env, good: bool) returns (h: Config)
    requires Live(c, g) && g.pc == At(Node(4, m)) && Catalogued(Node(4, m)) && m <= 90 && InScopeHere(g.st) && Checked(c, g.st, m, good)
    requires e == Fine(e.exits, e.readings) && Suits(c, e.exits, good)
    ensures Live(c, h) && h.pc == At(Node(4, 90)) && InScopeHere(h.st) && (Gate(h.st.checks) <==> good)
    ensures h.st.attempts == g.st.attempts && h.st.done == g.st.done
    ensures Extends(g.st.arts, h.st.arts)
    decreases 90 - m
  {
    hide Reached;
    if m == 90 {
      h := g;
    } else {
      h := StepS4(c, m, g, e, good);
      h := ThroughS4(c, m + 10, h, e, good);
    }
  }

  lemma VerdictS490(c: Case, g: Config, h: Config, e: Env, x: Execution)
    requires Ran(c, Node(4, 90), g, h, e, x) && WorkS4(g.st, 90) && g.st.attempts < MAX_PHASE_REPAIRS - 1
    ensures if Gate(g.st.checks) then
              h.pc == At(Node(5, 10)) && h.st.attempts == g.st.attempts && h.st.done == g.st.done + TasksOf(c.tasks, g.st.phase.value)
            else h.pc == At(Node(3, 10)) && h.st.attempts == g.st.attempts + 1 && h.st.done == g.st.done
    ensures h.st.phase == g.st.phase && h.st.excluded == g.st.excluded
  {
    assert Ok(x) == HandleS04(c, 90, g.st, e);
    assert Ok(x) == SealVerification(c, g.st, e);
  }

  // S04.90, on a passed or on a failed gate.
  lemma StepS490(c: Case, g: Config, e: Env) returns (h: Config)
    requires Live(c, g) && g.pc == At(Node(4, 90)) && InScopeHere(g.st) && e == Fine(e.exits, e.readings)
    requires g.st.attempts < MAX_PHASE_REPAIRS - 1
    ensures Live(c, h) && g.st.phase.Some? && h.st.phase == g.st.phase
    ensures Gate(g.st.checks) ==> h.pc == At(Node(5, 10)) && InScopeHere(h.st) && h.st.attempts == g.st.attempts &&
                                  h.st.done == g.st.done + TasksOf(c.tasks, g.st.phase.value)
    ensures !Gate(g.st.checks) ==> h.pc == At(Node(3, 10)) && h.st.attempts == g.st.attempts + 1 && h.st.done == g.st.done
    ensures Extends(g.st.arts, h.st.arts) && SameKind(g.st.arts, h.st.arts, Decision)
  {
    hide Reached, Handle, Step, Linked, Books, Moved, Looping, Extends, SameKind;
    LiveInLoop(c, g);
    assert PatchHere(g.st);
    ResultS490(c, g.st, e);
    var x := Handle(c, Node(4, 90), g.st, e).value;
    Walk(c, g, e, x);
    h := Step(c, g, e);
    VerdictS490(c, g, h, e, x);
    OtherNodesKeep(Node(4, 90), g, h, x, Decision);
    NotLoopingWithin(Node(4, 90), g, h, x);
    Grown(Node(4, 90), g, h, x);
    if Gate(g.st.checks) {
      HereStays(g.st, h.st, Patch);
    }
  }

  // ---- S05 ---------------------------------------------------------------------------------------------------------

  // A case whose treatment t, read from the workers, is good enough to compare.
  ghost predicate Comparable(c: Case, readings: map<string, Reading>, t: Treatment) {
    && TreatmentOf(c.criteria, c.commands, readings) == Ok(t) && Quality(c.criteria, t, c.baseline, c.requirements)
    && |c.criteria| > 0 && c.manifestFiles == {} && c.baselineWorkload == c.workload
  }

  predicate StatisticsOf(c: Case, st: State, t: Treatment) {
    HasEffects(Here(st, Statistical)) && Here(st, Statistical).value.effects == EffectsOf(c.criteria, t, c.baseline)
  }

  predicate Measured(c: Case, st: State, m: nat, t: Treatment) {
    && InScopeHere(st)
    && (m > 20 ==> st.isolated == Some(true))
    && (m > 40 ==> st.treatment == Some(t))
    && (m > 80 ==> StatisticsOf(c, st, t))
    && (m > 90 ==> Here(st, Measurement).Some?)
  }

  lemma EffectsExist(c: Case, t: Treatment)
    requires Quality(c.criteria, t, c.baseline, c.requirements) && |c.criteria| > 0
    ensures EffectsOf(c.criteria, t, c.baseline) != []
  {
    QualityGivesEveryEffect(c.criteria, t, c.baseline, c.requirements);
  }

  lemma ResultS5(c: Case, m: nat, st: State, e: Env, t: Treatment)
    requires Catalogued(Node(5, m)) && WorkS5(c, st, m) && Measured(c, st, m, t) && Comparable(c, e.readings, t)
    requires !e.fails && e.workspace
    ensures Handle(c, Node(5, m), st, e).Ok? && Handle(c, Node(5, m), st, e).value.route == Continue
  {
    assert Handle(c, Node(5, m), st, e) == HandleS05(c, m, st, e);
    if m == 70 {
      assert Handle(c, Node(5, m), st, e) == SealComparability(c, st, e);
    } else if m == 80 {
      EffectsExist(c, t);
      assert Handle(c, Node(5, m), st, e) == SealStatistics(c, st, e);
    } else if m == 90 {
      assert Handle(c, Node(5, m), st, e) == SealMeasurement(st, e);
    }
  }

  lemma IsolatedS520(c: Case, g: Config, h: Config, e: Env, x: Execution)
    requires Ran(c, Node(5, 20), g, h, e, x) && InScopeHere(g.st) && c.manifestFiles == {} && !e.drift
    ensures h.st.isolated == Some(true)
  {
    assert Ok(x) == HandleS05(c, 20, g.st, e);
    assert IsolatedPatch(c, Here(g.st, Patch).value, e.drift);
  }

  lemma StatisticsS580(c: Case, g: Config, h: Config, e: Env, x: Execution, t: Treatment)
    requires Ran(c, Node(5, 80), g, h, e, x) && g.st.treatment == Some(t)
    ensures StatisticsOf(c, h.st, t)
  {
    assert Ok(x) == HandleS05(c, 80, g.st, e);
    assert Ok(x) == SealStatistics(c, g.st, e);
    assert KeyHere(h.st, Statistical) in x.delta.seals;
  }

  lemma MeasuredS5(c: Case, m: nat, g: Config, h: Config, e: Env, x: Execution, t: Treatment)
    requires Ran(c, Node(5, m), g, h, e, x) && Measured(c, g.st, m, t) && Comparable(c, e.readings, t) && !e.drift
    ensures Measured(c, h.st, m + 10, t) && h.st.attempts == g.st.attempts && h.st.done == g.st.done
  {
    UntouchedS5(c, m, g, h, e, x);
    Grown(Node(5, m), g, h, x);
    HereStays(g.st, h.st, Patch);
    HereStays(g.st, h.st, Statistical);
    if m == 20 { IsolatedS520(c, g, h, e, x); }
    else if m == 40 { assert Ok(x) == HandleS05(c, 40, g.st, e); }
    else if m == 80 { StatisticsS580(c, g, h, e, x, t); }
    else if m == 90 { MeasurementS590(c, g, h, e, x); }
  }

  lemma MeasurementS590(c: Case, g: Config, h: Config, e: Env, x: Execution)
    requires Ran(c, Node(5, 90), g, h, e, x)
    ensures Here(h.st, Measurement).Some?
  {
    assert Ok(x) == HandleS05(c, 90, g.st, e);
    assert Ok(x) == SealMeasurement(g.st, e);
    assert KeyHere(h.st, Measurement) in x.delta.seals;
  }

  lemma MoveS5(m: nat, g: Config, h: Config, x: Execution)
    requires Moved(Node(5, m), g, h, x) && x.route == Continue && !Looping(g)
    ensures h.pc == At(if m == 90 then Node(6, 10) else Node(5, m + 10))
    ensures h.st.excluded == g.st.excluded && h.st.phase == g.st.phase && !Looping(h)
  {
  }

  lemma StepS5(c: Case, m: nat, g: Config, e: Env, t: Treatment) returns (h: Config)
    requires Live(c, g) && g.pc == At(Node(5, m)) && Measured(c, g.st, m, t)
    requires e == Fine(e.exits, e.readings) && Comparable(c, e.readings, t)
    ensures Live(c, h) && h.pc == At(if m == 90 then Node(6, 10) else Node(5, m + 10)) && Measured(c, h.st, m + 10, t)
    ensures h.st.attempts == g.st.attempts && h.st.done == g.st.done && h.st.phase == g.st.phase
    ensures Extends(g.st.arts, h.st.arts)
  {
    LiveInLoop(c, g);
    assert WorkS5(c, g.st, m);
    ResultS5(c, m, g.st, e, t);
    var x := Handle(c, Node(5, m), g.st, e).value;
    Walk(c, g, e, x);
    h := Step(c, g, e);
    MeasuredS5(c, m, g, h, e, x, t);
    MoveS5(m, g, h, x);
    Grown(Node(5, m), g, h, x);
  }

  lemma ThroughS5(c: Case, m: nat, g: Config, e: Env, t: Treatment) returns (h: Config)
    requires Live(c, g) && g.pc == At(Node(5, m)) && Catalogued(Node(5, m)) && m <= 90 && Measured(c, g.st, m, t)
    requires e == Fine(e.exits, e.readings) && Comparable(c, e.readings, t)
    ensures Live(c, h) && h.pc == At(Node(6, 10)) && Measured(c, h.st, 100, t)
    ensures h.st.attempts == g.st.attempts && h.st.done == g.st.done && h.st.phase == g.st.phase
    ensures Extends(g.st.arts, h.st.arts)
    decreases 90 - m
  {
    hide Reached;
    var next := StepS5(c, m, g, e, t);
    if m < 90 {
      h := ThroughS5(c, m + 10, next, e, t);
    } else {
      h := next;
    }
  }

  // ---- S06 ---------------------------------------------------------------------------------------------------------

  // The verdict on a treatment when there are no guardrails.
  function VerdictOn(c: Case, t: Treatment): Verdict {
    var ts := EvaluateTargets(c.criteria, EffectsOf(c.criteria, t, c.baseline));
    if ts.Raised? then Escalate else Table([], Classify(ts.value))
  }

  predicate Judging(c: Case, st: State, m: nat, t: Treatment) {
    StatisticsOf(c, st, t) && (m > 60 ==> st.rollback)
  }

  lemma TargetsExist(c: Case, t: Treatment)
    requires Quality(c.criteria, t, c.baseline, c.requirements) && |c.criteria| > 0
    ensures EvaluateTargets(c.criteria, EffectsOf(c.criteria, t, c.baseline)).Ok?
    ensures EvaluateTargets(c.criteria, EffectsOf(c.criteria, t, c.baseline)).value != []
  {
    TargetsUseTheTreatment(c.criteria, t, c.baseline, c.requirements);
  }

  lemma ResultS6(c: Case, m: nat, st: State, e: Env, t: Treatment)
    requires Catalogued(Node(6, m)) && m < 80 && WorkS6(c, st, m) && Judging(c, st, m, t) && Linked(c, st.arts)
    requires Quality(c.criteria, t, c.baseline, c.requirements) && |c.criteria| > 0
    requires !e.fails && (m == 10 ==> Here(st, Measurement).Some?)
    ensures Handle(c, Node(6, m), st, e).Ok?
  {
    assert Handle(c, Node(6, m), st, e) == HandleS06(c, m, st, e);
    if m == 10 {
      assert Handle(c, Node(6, m), st, e) == Intake(c, st);
    } else if m == 20 {
      TargetsExist(c, t);
    } else if m == 60 {
      assert Handle(c, Node(6, m), st, e) == VerifyRollback(c, st, e);
    }
  }

  lemma JudgingS6(c: Case, m: nat, g: Config, h: Config, e: Env, x: Execution, t: Treatment)
    requires Ran(c, Node(6, m), g, h, e, x) && m <= 70 && Judging(c, g.st, m, t) && e.clean
    ensures Judging(c, h.st, m + 10, t) && h.st.attempts == g.st.attempts && h.st.done == g.st.done && h.st.excluded == g.st.excluded
  {
    hide Handle, Clash, SealsOwn, RoutesOwn;
    UntouchedS6(c, m, g, h, e, x);
    Grown(Node(6, m), g, h, x);
    HereStays(g.st, h.st, Statistical);
    if m == 60 {
      CleanRollback(c, g, h, e, x);
    }
  }

  lemma CleanRollback(c: Case, g: Config, h: Config, e: Env, x: Execution)
    requires Ran(c, Node(6, 60), g, h, e, x) && e.clean
    ensures h.st.rollback
  {
    assert Ok(x) == HandleS06(c, 60, g.st, e);
    assert Ok(x) == VerifyRollback(c, g.st, e);
  }

  lemma NotLoopingS6(n: Node, g: Config, h: Config, x: Execution)
    requires Moved(n, g, h, x) && n.stage == 6 && !Looping(g) && h.st.attempts == g.st.attempts
    ensures !Looping(h)
  {
  }

  lemma StepS6(c: Case, m: nat, g: Config, e: Env, t: Treatment) returns (h: Config)
    requires Live(c, g) && g.pc == At(Node(6, m)) && m < 80 && Judging(c, g.st, m, t) && (m == 10 ==> Here(g.st, Measurement).Some?)
    requires e == Fine(e.exits, e.readings) && Comparable(c, e.readings, t)
    ensures Live(c, h) && h.pc == At(Node(6, m + 10)) && Judging(c, h.st, m + 10, t)
    ensures h.st.attempts == g.st.attempts && h.st.done == g.st.done && h.st.phase == g.st.phase
    ensures Extends(g.st.arts, h.st.arts)
  {
    LiveInLoop(c, g);
    assert WorkS6(c, g.st, m);
    ResultS6(c, m, g.st, e, t);
    var x := Handle(c, Node(6, m), g.st, e).value;
    Walk(c, g, e, x);
    h := Step(c, g, e);
    JudgingS6(c, m, g, h, e, x, t);
    WorkWithinS6(c, m, g, h, e, x);
    Grown(Node(6, m), g, h, x);
    NotLoopingS6(Node(6, m), g, h, x);
  }

  lemma ThroughS6(c: Case, m: nat, g: Config, e: Env, t: Treatment) returns (h: Config)
    requires Live(c, g) && g.pc == At(Node(6, m)) && Catalogued(Node(6, m)) && m <= 80 && Judging(c, g.st, m, t)
    requires m == 10 ==> Here(g.st, Measurement).Some?
    requires e == Fine(e.exits, e.readings) && Comparable(c, e.readings, t)
    ensures Live(c, h) && h.pc == At(Node(6, 80)) && Judging(c, h.st, 80, t)
    ensures h.st.attempts == g.st.attempts && h.st.done == g.st.done && h.st.phase == g.st.phase
    ensures Extends(g.st.arts, h.st.arts)
    decreases 90 - m
  {
    hide Reached;
    if m == 80 {
      h := g;
    } else {
      var next := StepS6(c, m, g, e, t);
      h := ThroughS6(c, m + 10, next, e, t);
    }
  }

  lemma VerdictAt80(c: Case, st: State, t: Treatment)
    requires WorkS6(c, st, 80) && Judging(c, st, 80, t) && c.guardrails == []
    ensures st.verdict == Some(VerdictOn(c, t))
  {
  }

  lemma ResultS680(c: Case, st: State, e: Env, t: Treatment)
    requires WorkS6(c, st, 80) && Judging(c, st, 80, t) && Linked(c, st.arts) && Selected(st).Some? && !e.fails
    requires Quality(c.criteria, t, c.baseline, c.requirements) && |c.criteria| > 0
    ensures Handle(c, Node(6, 80), st, e).Ok?
  {
    TargetsExist(c, t);
    assert LinkOk(c, st.arts, ArtKey(SelectedSolution, "", |st.excluded|));
    assert Handle(c, Node(6, 80), st, e) == SealDecision(st, e);
  }

  // The decision is sealed; what comes next depends on it.
  lemma StepS680(c: Case, g: Config, e: Env, t: Treatment) returns (h: Config)
    requires Live(c, g) && g.pc == At(Node(6, 80)) && Judging(c, g.st, 80, t) && c.guardrails == []
    requires e == Fine(e.exits, e.readings) && Comparable(c, e.readings, t)
    ensures Reached(c, h) && h.pc == At(Node(6, 90)) && h.st.verdict == Some(VerdictOn(c, t)) && h.st.done == g.st.done
    ensures h.st.attempts == g.st.attempts + (if VerdictOn(c, t) == FixOnePart then 1 else 0)
    ensures VerdictOn(c, t) != Revert ==> h.st.excluded == {}
    ensures VerdictOn(c, t) == Revert ==> h.st.excluded != {}
    ensures !Looping(h)
    ensures Extends(g.st.arts, h.st.arts)
  {
    hide Reached, Step, Handle, Quality, Linked;
    LiveInLoop(c, g);
    assert WorkS6(c, g.st, 80);
    VerdictAt80(c, g.st, t);
    ResultS680(c, g.st, e, t);
    var x := Handle(c, Node(6, 80), g.st, e).value;
    Walk(c, g, e, x);
    h := Step(c, g, e);
    DecisionIsSealed(c, g, h, e, x);
    WorkFromS6(c, 80, g, h, e, x);
    Grown(Node(6, 80), g, h, x);
    NotLoopingWithin(Node(6, 80), g, h, x);
  }

  lemma ResultS690(c: Case, st: State, e: Env)
    requires WorkS6(c, st, 90) && st.verdict != Some(Keep) && !e.fails
    ensures Handle(c, Node(6, 90), st, e) == Say(Continue)
  {
    assert Handle(c, Node(6, 90), st, e) == ApplyToRepository(st, e);
  }

  lemma AfterS690(g: Config, h: Config)
    requires Moved(Node(6, 90), g, h, Execution(Continue, NOTHING))
    ensures h.st.attempts == g.st.attempts && h.st.done == g.st.done && h.st.excluded == g.st.excluded
    ensures g.st.verdict == Some(Keep) ==> h.pc == At(Node(7, 10))
    ensures g.st.verdict == Some(Revert) ==> h.pc == At(Node(1, 10))
    ensures g.st.verdict == Some(FixOnePart) && g.st.attempts < MAX_PHASE_REPAIRS ==> h.pc == At(Node(3, 10))
    ensures !Looping(g) ==> !Looping(h)
    ensures h.st.arts == g.st.arts
  {
  }

  lemma StepS690(c: Case, g: Config, e: Env) returns (h: Config)
    requires Reached(c, g) && g.pc == At(Node(6, 90)) && !e.fails
    requires g.st.verdict != Some(Keep) && KeyOf(Node(6, 90), g.st) !in g.ledger
    ensures Reached(c, h) && h.st.attempts == g.st.attempts && h.st.done == g.st.done && h.st.excluded == g.st.excluded
    ensures g.st.verdict == Some(Revert) ==> h.pc == At(Node(1, 10))
    ensures g.st.verdict == Some(FixOnePart) && g.st.attempts < MAX_PHASE_REPAIRS ==> h.pc == At(Node(3, 10))
    ensures !Looping(g) ==> !Looping(h)
    ensures g.st.verdict == Some(FixOnePart) ==> FixBefore(h)
    ensures h.st.arts == g.st.arts
  {
    hide Reached, Step, Handle, WorkS6, Moved, Books, Looping, FixBefore, ApplyKey;
    AtS690(c, g);
    ResultS690(c, g.st, e);
    Walk(c, g, e, Execution(Continue, NOTHING));
    h := Step(c, g, e);
    AfterS690(g, h);
    if g.st.verdict == Some(FixOnePart) {
      FixMark(c, g, h);
    }
  }

  lemma FixMark(c: Case, g: Config, h: Config)
    requires WorkS6(c, g.st, 90) && g.st.verdict == Some(FixOnePart)
    requires h.st.arts == g.st.arts && h.st.attempts == g.st.attempts
    ensures FixBefore(h)
  {
    var a := ArtKey(Decision, g.st.phase.value, g.st.attempts - 1);
    assert a in h.st.arts && IsFix(h.st.arts[a]);
  }

  // ---- One whole pass --------------------------------------------------------------------------------------------------

  ghost predicate Workable(c: Case, e: Env, t: Treatment) {
    e == Fine(e.exits, e.readings) && Suits(c, e.exits, true) && Comparable(c, e.readings, t) && c.guardrails == []
  }

  lemma VerifiedPass(c: Case, g: Config, e: Env) returns (h: Config)
    requires Live(c, g) && g.pc == At(Node(3, 10)) && Active(c.phases, c.tasks, g.st.done).Some? && g.st.attempts < MAX_PHASE_REPAIRS - 1
    requires e == Fine(e.exits, e.readings) && Suits(c, e.exits, true)
    ensures Live(c, h) && h.pc == At(Node(5, 10)) && InScopeHere(h.st) && h.st.attempts == g.st.attempts
    ensures h.st.done == g.st.done + TasksOf(c.tasks, c.phases[Active(c.phases, c.tasks, g.st.done).value].id)
    ensures Extends(g.st.arts, h.st.arts)
  {
    hide Reached;
    var a := ThroughS3(c, 10, g, e);
    var b := ThroughS4(c, 10, a, e, true);
    PhaseAtS490(c, b);
    h := StepS490(c, b, e);
  }

  lemma PhaseAtS490(c: Case, g: Config)
    requires Live(c, g) && g.pc == At(Node(4, 90))
    ensures ActivePhase(c, g.st)
  {
    ReachedInv(c, g);
    ActiveAtS490(c, g);
  }

  lemma JudgedPass(c: Case, g: Config, e: Env, t: Treatment) returns (h: Config)
    requires Live(c, g) && g.pc == At(Node(3, 10)) && Active(c.phases, c.tasks, g.st.done).Some? && g.st.attempts < MAX_PHASE_REPAIRS - 1
    requires Workable(c, e, t)
    ensures Reached(c, h) && h.pc == At(Node(6, 90)) && h.st.verdict == Some(VerdictOn(c, t)) && !Looping(h)
    ensures h.st.done == g.st.done + TasksOf(c.tasks, c.phases[Active(c.phases, c.tasks, g.st.done).value].id)
    ensures h.st.attempts == g.st.attempts + (if VerdictOn(c, t) == FixOnePart then 1 else 0)
    ensures VerdictOn(c, t) != Revert ==> h.st.excluded == {}
    ensures VerdictOn(c, t) == Revert ==> h.st.excluded != {}
    ensures Extends(g.st.arts, h.st.arts)
  {
    hide Reached;
    var a := VerifiedPass(c, g, e);
    var b := ThroughS5(c, 10, a, e, t);
    var d := ThroughS6(c, 10, b, e, t);
    h := StepS680(c, d, e, t);
  }

  // ---- The four situations ------------------------------------------------------------------------------------------------

  lemma FailedPass(c: Case, g: Config, e: Env) returns (h: Config)
    requires Live(c, g) && g.pc == At(Node(3, 10)) && Active(c.phases, c.tasks, g.st.done).Some? && g.st.attempts < MAX_PHASE_REPAIRS - 1
    requires e == Fine(map[], map[])
    ensures Live(c, h) && h.pc == At(Node(3, 10)) && h.st.attempts == g.st.attempts + 1 && h.st.done == g.st.done
    ensures Extends(g.st.arts, h.st.arts) && !FixBefore(h)
  {
    hide Reached, FixBefore;
    var a := ThroughS3(c, 10, g, e);
    var b := ThroughS4(c, 10, a, e, false);
    h := StepS490(c, b, e);
    NoFixAfterFailure(c, b, h);
  }

  // A pass that is still in S04 has no decision, so the one opened by its failure is not opened by FIX_ONE_PART.
  lemma NoFixAfterFailure(c: Case, g: Config, h: Config)
    requires Live(c, g) && g.pc == At(Node(4, 90)) && SameKind(g.st.arts, h.st.arts, Decision) && h.st.attempts == g.st.attempts + 1
    ensures !FixBefore(h)
  {
    hide Reached, Books, InOrder, Looping;
    ReachedLoop(c, g);
    forall p: string ensures ArtKey(Decision, p, g.st.attempts) !in h.st.arts {
      NothingAhead(g, Decision, p);
    }
    assert forall a :: a in h.st.arts && a.kind == Decision ==> a == ArtKey(Decision, a.phase, a.pass);
  }

  // Any case that has a phase to work on can get stuck: fail verification once, then lose the workspace.
  lemma RepetitionHappens(c: Case) returns (g: Config)
    requires Active(c.phases, c.tasks, {}).Some?
    ensures Reached(c, g) && Stuck(g)
  {
    hide Reached, Inv;
    var e := Fine(map[], map[]);
    var s := Opening(c);
    var a := FailedPass(c, s, e);
    var b := ThroughS3(c, 10, a, e);
    var gone := e.(workspace := false);
    g := Step(c, b, gone);
    ReachedStep(c, b, gone);
    RepetitionStartsWhen(c, b, gone);
  }

  // A treatment that meets no target: the run comes back to S01 with the strategy excluded, and then
  // every continuation raises.
  lemma RevertHappens(c: Case, e: Env, t: Treatment, es: seq<Env>) returns (g: Config)
    requires Workable(c, e, t) && VerdictOn(c, t) == Revert && Active(c.phases, c.tasks, {}).Some?
    requires |es| >= 10
    ensures Reached(c, g) && g.pc == At(Node(1, 10)) && g.st.excluded != {}
    ensures Run(c, g, es).pc == Aborted
  {
    hide Reached, Workable;
    var s := Opening(c);
    var a := JudgedPass(c, s, e, t);
    assert !e.fails by { Calm(c, e, t); }
    RevertKeyFree(c, a);
    g := StepS690(c, a, e);
    ReachedInv(c, g);
    RevertAborts(c, g, es);
  }

  lemma Calm(c: Case, e: Env, t: Treatment)
    requires Workable(c, e, t)
    ensures !e.fails
  {
  }

  // In the first pass S06.90's key is free.
  lemma RevertKeyFree(c: Case, g: Config)
    requires Reached(c, g) && g.pc == At(Node(6, 90)) && (g.st.attempts == 0 || g.st.verdict == Some(FixOnePart))
    ensures KeyOf(Node(6, 90), g.st) !in g.ledger
  {
    AtS690(c, g);
  }

  lemma FixedPass(c: Case, e: Env, t: Treatment) returns (g: Config)
    requires Workable(c, e, t) && VerdictOn(c, t) == FixOnePart && Active(c.phases, c.tasks, {}).Some?
    ensures Live(c, g) && g.pc == At(Node(3, 10)) && g.st.attempts == 1
    ensures g.st.done == {} + TasksOf(c.tasks, c.phases[Active(c.phases, c.tasks, {}).value].id)
    ensures FixBefore(g)
  {
    hide Reached, Workable;
    var s := Opening(c);
    var a := JudgedPass(c, s, e, t);
    assert !e.fails by { Calm(c, e, t); }
    RevertKeyFree(c, a);
    g := StepS690(c, a, e);
  }

  // A treatment that meets some targets but not all, in a case with a single phase: the next pass stops
  // at S03.10 and the run raises.
  lemma FixWithNothingLeftHappens(c: Case, e: Env, t: Treatment) returns (g: Config)
    requires Workable(c, e, t) && VerdictOn(c, t) == FixOnePart && Active(c.phases, c.tasks, {}).Some?
    requires Active(c.phases, c.tasks, TasksOf(c.tasks, c.phases[Active(c.phases, c.tasks, {}).value].id)) == None
    ensures Reached(c, g) && g.pc == At(Node(3, 10)) && FixBefore(g)
    ensures Step(c, Step(c, g, e), e).pc == Aborted
  {
    hide Reached, Workable;
    g := FixedPass(c, e, t);
    assert !e.fails by { Calm(c, e, t); }
    assert g.st.done == TasksOf(c.tasks, c.phases[Active(c.phases, c.tasks, {}).value].id);
    FixWithNoPhaseLeftAborts(c, g, e, e);
  }

  // The same, with a second phase whose treatment then meets every target: the change is kept, but
  // nothing is applied, and every continuation without an outside failure raises at S07.50.
  lemma KeptButNotApplied(c: Case, e: Env, t: Treatment, e': Env, t': Treatment, es: seq<Env>) returns (g: Config)
    requires Workable(c, e, t) && VerdictOn(c, t) == FixOnePart && Active(c.phases, c.tasks, {}).Some?
    requires Workable(c, e', t') && VerdictOn(c, t') == Keep
    requires Active(c.phases, c.tasks, TasksOf(c.tasks, c.phases[Active(c.phases, c.tasks, {}).value].id)).Some?
    requires |es| >= 9 && NoFailure(es)
    ensures Reached(c, g) && g.pc == At(Node(7, 10)) && Here(g.st, ApplyResult).None?
    ensures Run(c, g, es).pc == Aborted
  {
    hide Reached, Workable, Run, FixBefore;
    var a := FixedPass(c, e, t);
    assert a.st.done == TasksOf(c.tasks, c.phases[Active(c.phases, c.tasks, {}).value].id);
    var b := JudgedPass(c, a, e', t');
    FixCarried(a, b);
    g := KeepOnTakenKey(c, b, e');
    KeptChangeIsApplied(c, g);
    PublishedUnlessFixed(c, g, es);
  }

  lemma FixCarried(a: Config, b: Config)
    requires FixBefore(a) && Extends(a.st.arts, b.st.arts) && b.st.attempts == a.st.attempts
    ensures FixBefore(b)
  {
    FixStays(a.st.arts, b.st.arts, a.st.attempts - 1);
  }

  // The mark of the earlier FIX_ONE_PART is still there, so S06.90 replays.
  lemma KeepOnTakenKey(c: Case, b: Config, e: Env) returns (g: Config)
    requires Reached(c, b) && b.pc == At(Node(6, 90)) && b.st.verdict == Some(Keep) && b.st.attempts == 1 && FixBefore(b)
    ensures Reached(c, g) && g.pc == At(Node(7, 10)) && FixBefore(g)
  {
    hide Reached, Handle, Moved, Books, WorkS6, FixAt, Commit, Next;
    g := Step(c, b, e);
    AtS690(c, b);
    ReachedStep(c, b, e);
    ReplayedResult(c, b, e);
    StepMoved(c, b, e, Execution(Continue, NOTHING));
    AfterS690(b, g);
  }

  lemma ReplayedResult(c: Case, b: Config, e: Env)
    requires ApplyKey(b) && b.pc == At(Node(6, 90)) && b.st.verdict == Some(Keep) && FixBefore(b)
    ensures Moves(c, b, e, Execution(Continue, NOTHING))
  {
  }

  // ---- A judged pass the report does not show ---------------------------------------------------------------------------------

  lemma ResultKeepS690(c: Case, st: State, e: Env)
    requires st.verdict == Some(Keep) && Here(st, Patch).Some? && !e.fails && e.policy == Allow
    ensures Handle(c, Node(6, 90), st, e).Ok? && Handle(c, Node(6, 90), st, e).value.route == Continue
  {
    assert Handle(c, Node(6, 90), st, e) == ApplyToRepository(st, e);
  }

  lemma AfterKeepS690(g: Config, h: Config, x: Execution)
    requires Moved(Node(6, 90), g, h, x) && x.route == Continue && g.st.verdict == Some(Keep)
    ensures h.st.attempts == g.st.attempts && h.pc == At(Node(7, 10))
  {
  }

  lemma ReadyAtS690(c: Case, g: Config)
    requires Reached(c, g) && g.pc == At(Node(6, 90)) && g.st.verdict == Some(Keep)
    ensures Here(g.st, Patch).Some? && (KeyOf(Node(6, 90), g.st) in g.ledger <==> FixBefore(g)) && Books(g)
  {
    hide Reached, Inv, Linked, Books, StatisticsMeasured, FixBefore;
    ReachedInv(c, g);
    InvFiled(c, g);
    AtS690(c, g);
    AllFiled(c, g.st);
  }

  // A KEEP whose pass was not opened by FIX_ONE_PART is applied and goes on to S07.
  lemma KeepOnFreeKey(c: Case, g: Config, e: Env) returns (h: Config)
    requires Reached(c, g) && g.pc == At(Node(6, 90)) && g.st.verdict == Some(Keep) && !FixBefore(g) && !e.fails && e.policy == Allow
    ensures Reached(c, h) && h.pc == At(Node(7, 10)) && h.st.attempts == g.st.attempts
    ensures forall m :: FixAt(h.st.arts, m) <==> FixAt(g.st.arts, m)
  {
    hide Reached, Handle, FixBefore, Books, FixAt, Step;
    ReadyAtS690(c, g);
    ResultKeepS690(c, g.st, e);
    var x := Handle(c, Node(6, 90), g.st, e).value;
    Walk(c, g, e, x);
    h := Step(c, g, e);
    AfterKeepS690(g, h, x);
    OtherNodesKeep(Node(6, 90), g, h, x, Decision);
    Grown(Node(6, 90), g, h, x);
    hide Moved;
    forall m ensures FixAt(h.st.arts, m) <==> FixAt(g.st.arts, m) {
      FixSameKind(g.st.arts, h.st.arts, m);
    }
  }

  lemma FixSameKind(arts: Arts, more: Arts, m: nat)
    requires SameKind(arts, more, Decision) && Extends(arts, more)
    ensures FixAt(more, m) <==> FixAt(arts, m)
  {
    if FixAt(more, m) {
      var a :| a in more && a.kind == Decision && a.pass == m && IsFix(more[a]);
      assert a in arts && IsFix(arts[a]);
    }
    FixStays(arts, more, m);
  }

  // FIX_ONE_PART on the first phase, then a failed verification and a KEEP on the second: the report is
  // published, and says of the first pass that no decision was sealed.
  lemma DecisionHidden(c: Case, e: Env, t: Treatment, e': Env, t': Treatment, es: seq<Env>) returns (g: Config)
    requires Workable(c, e, t) && VerdictOn(c, t) == FixOnePart && Active(c.phases, c.tasks, {}).Some?
    requires Workable(c, e', t') && VerdictOn(c, t') == Keep
    requires Active(c.phases, c.tasks, TasksOf(c.tasks, c.phases[Active(c.phases, c.tasks, {}).value].id)).Some?
    requires |es| == 9 && NoFailure(es)
    ensures Reached(c, g) && g.pc == At(Node(7, 10))
    ensures Hides(c, Run(c, g, es), 0)
  {
    hide Reached, Workable, Run, FixBefore, FixAt, Hides;
    var a := FixedPass(c, e, t);
    assert a.st.done == TasksOf(c.tasks, c.phases[Active(c.phases, c.tasks, {}).value].id);
    FixedFirst(a);
    var b := FailedPass(c, a, Fine(map[], map[]));
    FixStays(a.st.arts, b.st.arts, 0);
    var d := JudgedPass(c, b, e', t');
    FixStays(b.st.arts, d.st.arts, 0);
    StillNoFix(c, b, d);
    assert !e'.fails && e'.policy == Allow by { CalmAllow(c, e', t'); }
    g := KeepOnFreeKey(c, d, e');
    NoFixBefore(d, g);
    PublishedUnlessFixed(c, g, es);
    NotShown(c, g, Run(c, g, es), 0);
  }

  // The run has ended with a published report that does not show pass m's FIX_ONE_PART.
  ghost predicate Hides(c: Case, h: Config, m: nat) {
    && h.pc == End && m < h.st.attempts && FixAt(h.st.arts, m) && Published(c, h.st)
    && |Find(h.st, Report, h.st.phase.value, 0).value.outcomes| > m
    && Find(h.st, Report, h.st.phase.value, 0).value.outcomes[m] == Repaired(m, NoSealedDecision)
  }

  lemma NotShown(c: Case, g: Config, h: Config, m: nat)
    requires Reached(c, g) && g.pc == At(Node(7, 10)) && m < g.st.attempts && FixAt(g.st.arts, m)
    requires h.pc == End && SameFiles(g.st, h.st) && Published(c, h.st)
    ensures Hides(c, h, m)
  {
    hide Reached, FixAt, CostKnown, DetailOf;
    EarlierPassesAsReported(c, g, m);
    RepairsSame(g.st, h.st, g.st.phase.value, g.st.attempts);
    SameFix(g.st, h.st, m);
    assert !NoFixFrom(g, m);
    var rs := Repairs(g.st, g.st.phase.value, g.st.attempts);
    assert rs[m] == Repaired(m, NoSealedDecision);
    assert h.st.outcomes[m] == rs[m];
  }

  lemma FixedFirst(g: Config)
    requires FixBefore(g) && g.st.attempts == 1
    ensures FixAt(g.st.arts, 0)
  {
  }

  lemma NoFixBefore(g: Config, h: Config)
    requires !FixBefore(g) && h.st.attempts == g.st.attempts && forall m :: FixAt(h.st.arts, m) <==> FixAt(g.st.arts, m)
    ensures !FixBefore(h)
  {
  }

  lemma CalmAllow(c: Case, e: Env, t: Treatment)
    requires Workable(c, e, t)
    ensures !e.fails && e.policy == Allow
  {
  }

  // Whether the pass before was judged FIX_ONE_PART is settled when a pass opens.
  lemma StillNoFix(c: Case, g: Config, h: Config)
    requires Reached(c, g) && Reached(c, h) && g.pc == At(Node(3, 10)) && h.st.attempts == g.st.attempts && g.st.attempts >= 1
    requires !FixBefore(g) && Extends(g.st.arts, h.st.arts)
    ensures !FixBefore(h)
  {
    var m := g.st.attempts - 1;
    hide Reached, FixAt, FailedAt;
    PassesAccountedFor(c, g);
    PassesAccountedFor(c, h);
    assert FailedAt(g.st.arts, m);
    FixStays(g.st.arts, h.st.arts, m);
    assert FailedAt(h.st.arts, m);
  }

  // ---- A rejection in S05 of a later pass ------------------------------------------------------------------------------------

  lemma DecisionIsMeasured(c: Case, arts: Arts, a: ArtKey)
    requires Linked(c, arts) && a in arts && a.kind == Decision
    ensures ArtKey(Measurement, a.phase, a.pass) in arts
  {
    assert LinkOk(c, arts, a);
  }

  lemma ProducerCompleted(g: Config, a: ArtKey)
    requires Books(g) && a in g.st.arts
    ensures Producer(a.kind) in g.st.completed
  {
    assert Origin(a) in g.ledger;
  }

  lemma MeasuredBefore(c: Case, g: Config)
    requires Reached(c, g) && FixBefore(g)
    ensures Node(5, 90) in g.st.completed
  {
    hide Reached, Books, Linked, NeverAgain, PassEnds;
    ReachedFiles(c, g);
    var a :| a in g.st.arts && a.kind == Decision && a.pass == g.st.attempts - 1 && IsFix(g.st.arts[a]);
    DecisionIsMeasured(c, g.st.arts, a);
    ProducerCompleted(g, ArtKey(Measurement, a.phase, a.pass));
  }

  lemma RejectedS530(c: Case, g: Config, e: Env)
    requires Live(c, g) && g.pc == At(Node(5, 30)) && !e.fails && !e.workspace
    ensures Result(c, Node(5, 30), g, e) == Say(Rejected)
  {
    hide Reached, Linked, Work, Books;
    LiveInLoop(c, g);
    assert Handle(c, Node(5, 30), g.st, e) == HandleS05(c, 30, g.st, e);
  }

  // FIX_ONE_PART on the first phase; on the second, S05.30 finds no workspace. S05.90 completed in the first
  // pass, so the run does not end but goes on to S06.10 and raises.
  lemma RejectionAborts(c: Case, e: Env, t: Treatment) returns (g: Config)
    requires Workable(c, e, t) && VerdictOn(c, t) == FixOnePart && Active(c.phases, c.tasks, {}).Some?
    requires Active(c.phases, c.tasks, TasksOf(c.tasks, c.phases[Active(c.phases, c.tasks, {}).value].id)).Some?
    ensures Reached(c, g) && g.pc == At(Node(5, 30))
    ensures var gone := e.(workspace := false);
            Step(c, g, gone).pc == At(Node(6, 10)) && Step(c, Step(c, g, gone), e).pc == Aborted
  {
    hide Reached, FixBefore, Step, Result;
    var a := FixedPass(c, e, t);
    assert a.st.done == TasksOf(c.tasks, c.phases[Active(c.phases, c.tasks, {}).value].id);
    var b := VerifiedPass(c, a, e);
    var d := StepS5(c, 10, b, e, t);
    g := StepS5(c, 20, d, e, t);
    FixCarried(a, g);
    MeasuredBefore(c, g);
    var gone := e.(workspace := false);
    RejectedS530(c, g, gone);
    S05StopAborts(c, g, gone, e);
  }

  // ---- Approval of the plan ---------------------------------------------------------------------------------------------------

  // The owner has yet to approve the plan, and the run is in S03.
  lemma ApprovalIgnored(c: Case) returns (g: Config, e: Env)
    ensures Reached(c, g) && g.pc == At(Node(2, 90)) && Result(c, Node(2, 90), g, e) == Say(Approval)
    ensures Step(c, g, e).pc == At(Node(3, 10))
  {
    hide Reached, Step;
    g := Planned(c);
    e := Fine(map[], map[]).(planNeedsOwner := true);
    LiveOpening(c, g);
    assert KeyOf(Node(2, 90), g.st) !in g.ledger;
    assert Handle(c, Node(2, 90), g.st, e) == HandleS02(90, g.st, e);
    PlanApprovalDoesNotHalt(c, g, e);
  }

  // ---- A case in which all of them happen ------------------------------------------------------------------------------------

  // Two criteria, the exit codes of the build and of the unit tests, both to be brought down to zero.
  const UNIT := Criterion("unit-passes", "unit" + SUFFIX, Minimize, 0.0)
  const BUILD := Criterion("build-passes", "build" + SUFFIX, Minimize, 0.0)

  function SampleCase(phases: seq<Phase>, tasks: seq<Task>): Case {
    Case([UNIT, BUILD], [], [], "w", "w", "e", [Baseline(UNIT.metric, 1.0, 1), Baseline(BUILD.metric, 1.0, 1)],
         {"unit", "build"}, {}, true, phases, tasks)
  }

  function SampleReadings(unit: int, build: int): map<string, Reading> {
    map[UNIT.id := Returned([], unit), BUILD.id := Returned([], build)]
  }

  function SampleTreatment(unit: int, build: int): Treatment {
    Treatment(map[UNIT.id := Sample(unit as real, 1), BUILD.id := Sample(build as real, 1)], {})
  }

  function SampleEnv(unit: int, build: int): Env { Fine(map["unit" := 0, "build" := 0], SampleReadings(unit, build)) }

  lemma SampleKinds()
    ensures ResolveKind(UNIT, {"unit", "build"}) == Some("unit") && ResolveKind(BUILD, {"unit", "build"}) == Some("build")
  {
    RemoveSuffixMeaning(UNIT.metric, SUFFIX, "unit");
    RemoveSuffixMeaning(BUILD.metric, SUFFIX, "build");
  }

  lemma SampleMeasured(unit: int, build: int)
    ensures TreatmentOf([UNIT, BUILD], {"unit", "build"}, SampleReadings(unit, build)) == Ok(SampleTreatment(unit, build))
  {
    SampleKinds();
    var cs, kinds, rs := [UNIT, BUILD], {"unit", "build"}, SampleReadings(unit, build);
    assert |UNIT.id| != |BUILD.id| && |"unit"| != |"benchmark"| && |"build"| != |"benchmark"|;
    assert MeasureCriterion(UNIT, kinds, rs) == Ok(Some(Sample(unit as real, 1)));
    assert MeasureCriterion(BUILD, kinds, rs) == Ok(Some(Sample(build as real, 1)));
    assert cs[..1] == [UNIT] && [UNIT][..0] == [];
    assert TreatmentOf([], kinds, rs) == Ok(Treatment(map[], {}));
    assert TreatmentOf([UNIT], kinds, rs) == Ok(Treatment(map[UNIT.id := Sample(unit as real, 1)], {}));
  }

  lemma SampleQuality(unit: int, build: int)
    ensures Quality([UNIT, BUILD], SampleTreatment(unit, build), [Baseline(UNIT.metric, 1.0, 1), Baseline(BUILD.metric, 1.0, 1)], [])
  {
    var bs := [Baseline(UNIT.metric, 1.0, 1), Baseline(BUILD.metric, 1.0, 1)];
    BaselineOfMeaning(bs, UNIT.metric);
    BaselineOfMeaning(bs, BUILD.metric);
    assert bs[0] in bs && bs[1] in bs;
  }

  lemma SampleWorkable(phases: seq<Phase>, tasks: seq<Task>, unit: int, build: int)
    ensures Workable(SampleCase(phases, tasks), SampleEnv(unit, build), SampleTreatment(unit, build))
  {
    SampleMeasured(unit, build);
    SampleQuality(unit, build);
  }

  lemma SampleVerdict(phases: seq<Phase>, tasks: seq<Task>, unit: int, build: int)
    ensures VerdictOn(SampleCase(phases, tasks), SampleTreatment(unit, build)) ==
            if unit <= 0 && build <= 0 then Keep else if unit <= 0 || build <= 0 then FixOnePart else Revert
  {
    var c, t := SampleCase(phases, tasks), SampleTreatment(unit, build);
    SampleQuality(unit, build);
    TargetsUseTheTreatment(c.criteria, t, c.baseline, c.requirements);
    var ts := EvaluateTargets(c.criteria, EffectsOf(c.criteria, t, c.baseline)).value;
    DecisionMeaning(ts, [], true);
    assert |UNIT.id| != |BUILD.id|;
    assert ts[0].met <==> unit <= 0;
    assert ts[1].met <==> build <= 0;
    assert AllMet(ts) <==> ts[0].met && ts[1].met;
    assert SomeMet(ts) <==> ts[0].met || ts[1].met;
  }

  const FIRST := Phase("first", 1)
  const SECOND := Phase("second", 2)
  const TASKS := [Task("t1", "first"), Task("t2", "second")]

  lemma SamplePhases()
    ensures Active([FIRST, SECOND], TASKS, {}) == Some(0) && Active([FIRST], TASKS, {}) == Some(0)
    ensures Active([FIRST, SECOND], TASKS, TasksOf(TASKS, "first")) == Some(1)
    ensures Active([FIRST], TASKS, TasksOf(TASKS, "first")) == None
  {
    assert |"first"| != |"second"|;
    assert TASKS[0] in TASKS && TASKS[1] in TASKS;
    assert "t1" in TasksOf(TASKS, "first") && "t2" in TasksOf(TASKS, "second");
    assert "t2" !in TasksOf(TASKS, "first");
    ActiveMeaning([FIRST, SECOND], TASKS, {}, 0);
    ActiveMeaning([FIRST], TASKS, {}, 0);
    ActiveMeaning([FIRST, SECOND], TASKS, TasksOf(TASKS, "first"), 1);
    ActiveMeaning([FIRST], TASKS, TasksOf(TASKS, "first"), 0);
  }

  // Concrete inputs for each of them.
  lemma AllHappen(es: seq<Env>, ok: seq<Env>)
    returns (stuck: Config, reverted: Config, stranded: Config, unapplied: Config, hidden: Config, rejected: Config)
    requires |es| >= 10 && |ok| == 9 && NoFailure(ok)
    ensures var c := SampleCase([FIRST, SECOND], TASKS);
            Reached(c, stuck) && Stuck(stuck) &&
            Reached(c, reverted) && reverted.pc == At(Node(1, 10)) && Run(c, reverted, es).pc == Aborted &&
            Reached(c, unapplied) && unapplied.pc == At(Node(7, 10)) && Run(c, unapplied, ok).pc == Aborted &&
            Reached(c, hidden) && Hides(c, Run(c, hidden, ok), 0) &&
            Reached(c, rejected) && rejected.pc == At(Node(5, 30)) &&
            Step(c, Step(c, rejected, SampleEnv(0, 1).(workspace := false)), SampleEnv(0, 1)).pc == Aborted
    ensures var c := SampleCase([FIRST], TASKS);
            Reached(c, stranded) && FixBefore(stranded) && Step(c, Step(c, stranded, SampleEnv(0, 1)), SampleEnv(0, 1)).pc == Aborted
  {
    hide Reached, Workable, VerdictOn, Active, SampleEnv, SampleTreatment, Run, Step, Hides;
    var c, one := SampleCase([FIRST, SECOND], TASKS), SampleCase([FIRST], TASKS);
    SamplePhases();
    SampleWorkable([FIRST, SECOND], TASKS, 0, 1);
    SampleWorkable([FIRST, SECOND], TASKS, 0, 0);
    SampleWorkable([FIRST, SECOND], TASKS, 1, 1);
    SampleWorkable([FIRST], TASKS, 0, 1);
    SampleVerdict([FIRST, SECOND], TASKS, 0, 1);
    SampleVerdict([FIRST, SECOND], TASKS, 0, 0);
    SampleVerdict([FIRST, SECOND], TASKS, 1, 1);
    SampleVerdict([FIRST], TASKS, 0, 1);
    stuck := RepetitionHappens(c);
    reverted := RevertHappens(c, SampleEnv(1, 1), SampleTreatment(1, 1), es);
    stranded := FixWithNothingLeftHappens(one, SampleEnv(0, 1), SampleTreatment(0, 1));
    unapplied := KeptButNotApplied(c, SampleEnv(0, 1), SampleTreatment(0, 1), SampleEnv(0, 0), SampleTreatment(0, 0), ok);
    hidden := DecisionHidden(c, SampleEnv(0, 1), SampleTreatment(0, 1), SampleEnv(0, 0), SampleTreatment(0, 0), ok);
    rejected := RejectionAborts(c, SampleEnv(0, 1), SampleTreatment(0, 1));
  }
}
