// The plan S02.81 seals: once per run, for the selected solution, and cited by every patch.

module Planning {
  import opened Results
  import opened Machine
  import opened Bookkeeping
  import opened Passes
  import opened Evidence
  import opened Progress
  import opened Invariant

  const SELECTION := ArtKey(SelectedSolution, "", 0)

  // Before S02.81 passes there is no plan and S02.90 has not completed; from S02.90 on there is one.
  ghost predicate PlanInTime(g: Config) {
    && (g.pc.At? && g.st.excluded == {} && Pos(g.pc.node) <= 281 ==> g.st.plans.None?)
    && (g.pc.At? && g.st.excluded == {} && Pos(g.pc.node) <= 290 ==> Node(2, 90) !in g.st.completed)
    && (g.pc.At? && (Pos(g.pc.node) >= 290 || g.st.excluded != {}) ==> g.st.plans.Some?)
  }

  // Each visit to S02.81 moves the counter its key is made of.
  ghost predicate PlanKeysUsed(g: Config) {
    forall k :: k in g.ledger && k.node == Node(2, 81) ==> k.rev < g.st.planAttempts
  }

  ghost predicate PlanSound(st: State) {
    st.plans.Some? ==>
      st.plans.value.tasks.plan == st.plans.value.plan && SELECTION in st.arts && st.arts[SELECTION] == st.plans.value.plan.selected
  }

  predicate Cites(d: Artifact, plans: Option<Plans>) {
    plans.Some? && (d.PatchDoc? ==> d.plan == plans.value.plan) && (d.ProvenanceDoc? ==> d.plan == plans.value.plan)
  }

  ghost predicate PlanCited(st: State) {
    forall a :: a in st.arts && a.kind in {Patch, Provenance} ==> Cites(st.arts[a], st.plans)
  }

  ghost predicate Plotted(g: Config) {
    PlanInTime(g) && PlanKeysUsed(g) && PlanSound(g.st) && PlanCited(g.st)
  }

  lemma PlanInTimeOpening(n: Node, g: Config, h: Config, x: Execution)
    requires Moved(n, g, h, x) && n.stage <= 2 && PlanInTime(g) && OneExit(g) && (g.st.excluded != {} ==> Pos(n) <= 210)
    ensures PlanInTime(h)
  {
    if h.pc.At? {
      OpeningMoves(n, g, h, x);
    }
  }

  lemma PlanInTimeLater(n: Node, g: Config, h: Config, x: Execution)
    requires Moved(n, g, h, x) && n.stage >= 3 && PlanInTime(g)
    requires h.pc.At? && h.pc.node.stage <= 2 ==> h.st.excluded != {}
    ensures PlanInTime(h)
  {
    assert h.st.plans == g.st.plans;
  }

  lemma PlanInTimeStep(c: Case, n: Node, g: Config, h: Config, e: Env, x: Execution)
    requires Moved(n, g, h, x) && Fair(c, n, g, e, x) && PlanInTime(g)
    requires OneExit(g) && InOrder(g) && LoopsEarly(g) && Work(c, g) && Linked(c, g.st.arts)
    ensures PlanInTime(h)
  {
    hide PlanInTime, InOrder, LoopsEarly, Work, Linked, Updated, Shape;
    if n.stage <= 2 {
      PlanInTimeOpening(n, g, h, x);
    } else {
      if h.pc.At? && h.pc.node.stage <= 2 {
        BackFromS690(c, n, g, h, e, x);
      }
      PlanInTimeLater(n, g, h, x);
    }
  }

  lemma PlanKeysUsedStep(n: Node, g: Config, h: Config, x: Execution)
    requires Moved(n, g, h, x) && PlanKeysUsed(g)
    ensures PlanKeysUsed(h)
  {
    forall k | k in h.ledger && k.node == Node(2, 81) ensures k.rev < h.st.planAttempts {
      assert k != KeyOf(n, g.st) ==> k in g.ledger;
    }
  }

  // A plan that is written was just sealed, for the selection on file.
  lemma NewPlan(c: Case, g: Config, e: Env, x: Execution)
    requires g.pc == At(Node(2, 81)) && Result(c, Node(2, 81), g, e) == Ok(x) && PlanKeysUsed(g) && x.delta.plans.Some?
    requires g.st.excluded == {}
    ensures var p := x.delta.plans.value;
            p.tasks.plan == p.plan && SELECTION in g.st.arts && g.st.arts[SELECTION] == p.plan.selected
  {
    assert KeyOf(Node(2, 81), g.st) !in g.ledger;
    assert Ok(x) == HandleS02(81, g.st, e);
    assert |g.st.excluded| == 0;
  }

  lemma PlanSoundStep(c: Case, n: Node, g: Config, h: Config, e: Env, x: Execution)
    requires Moved(n, g, h, x) && Fair(c, n, g, e, x) && PlanKeysUsed(g) && PlanSound(g.st) && OneExit(g)
    ensures PlanSound(h.st)
  {
    Grown(n, g, h, x);
    if x.delta.plans.Some? {
      NewPlan(c, g, e, x);
    }
  }

  lemma NewPatchCites(c: Case, g: Config, e: Env, x: Execution, a: ArtKey)
    requires Handle(c, Node(3, 80), g.st, e) == Ok(x) && a in x.delta.seals
    ensures Cites(x.delta.seals[a], g.st.plans)
  {
    assert Ok(x) == HandleS03(c, 80, g.st, e);
  }

  // Before the loop nothing cites a plan.
  lemma NoPatchYet(g: Config, a: ArtKey)
    requires NotYet(g) && g.pc.At? && g.pc.node.stage <= 2 && g.st.excluded == {} && ArtsRecorded(g.ledger, g.st.arts)
    requires a in g.st.arts
    ensures a.kind !in {Patch, Provenance}
  {
    assert Origin(a) in g.ledger;
  }

  lemma AddedCites(c: Case, n: Node, g: Config, h: Config, e: Env, x: Execution, a: ArtKey)
    requires Moved(n, g, h, x) && Fair(c, n, g, e, x) && SealsKept(g.ledger, g.st.arts)
    requires a in h.st.arts && a !in g.st.arts && a.kind in {Patch, Provenance}
    ensures n == Node(3, 80) && Cites(h.st.arts[a], g.st.plans)
  {
    assert a in x.delta.seals && Producer(a.kind) == n;
    assert KeyOf(n, g.st) !in g.ledger;
    NewPatchCites(c, g, e, x, a);
  }

  lemma PlanCitedStep(c: Case, n: Node, g: Config, h: Config, e: Env, x: Execution)
    requires Moved(n, g, h, x) && Fair(c, n, g, e, x) && PlanCited(g.st) && NotYet(g) && OneExit(g)
    requires SealsKept(g.ledger, g.st.arts) && ArtsRecorded(g.ledger, g.st.arts)
    ensures PlanCited(h.st)
  {
    Grown(n, g, h, x);
    hide SealsKept, ArtsRecorded, NotYet, Cites, Fair, RoutesOwn, SealsOwn;
    forall a | a in h.st.arts && a.kind in {Patch, Provenance} ensures Cites(h.st.arts[a], h.st.plans) {
      if a !in g.st.arts {
        AddedCites(c, n, g, h, e, x, a);
      } else if n == Node(2, 81) {
        NoPatchYet(g, a);
      }
    }
  }

  lemma PlottedStep(c: Case, n: Node, g: Config, h: Config, e: Env, x: Execution)
    requires Moved(n, g, h, x) && Fair(c, n, g, e, x) && Books(g) && Work(c, g) && Linked(c, g.st.arts) && Plotted(g)
    requires InOrder(g) && LoopsEarly(g) && NotYet(g) && OneExit(g)
    ensures Plotted(h)
  {
    hide PlanInTime, PlanKeysUsed, PlanSound, PlanCited, Moved, Fair, Work, Linked, InOrder, LoopsEarly, NotYet, OneExit;
    PlanInTimeStep(c, n, g, h, e, x);
    PlanKeysUsedStep(n, g, h, x);
    PlanSoundStep(c, n, g, h, e, x);
    PlanCitedStep(c, n, g, h, e, x);
  }
}
