// S07, and a few facts about entering and leaving the loop that the report relies on.

module Reporting {
  import opened Results
  import opened Remeasure
  import opened Decide
  import opened Machine
  import opened Bookkeeping
  import opened Passes
  import opened Evidence
  import opened Progress
  import opened Repeats
  import opened Invariant
  import opened Outcomes

  // S07 is entered once: its keys are unused until its nodes run.
  ghost predicate ReportKeys(g: Config) {
    g.pc.At? ==> forall k :: k in g.ledger && k.node.stage == 7 ==> g.pc.node.stage == 7 && Pos(k.node) < Pos(g.pc.node)
  }

  // Nothing past S03 happens before S03.90 has completed once.
  ghost predicate Entered(g: Config) {
    (g.pc.At? && g.pc.node.stage >= 4 && g.st.excluded == {}) || g.st.attempts >= 1 ==> Node(3, 90) in g.st.completed
  }

  ghost predicate SelectionHere(g: Config) {
    g.pc.At? && g.pc.node.stage >= 2 && g.st.excluded == {} ==> Selected(g.st).Some?
  }

  ghost predicate Ceiling(g: Config) { g.st.attempts <= MAX_PHASE_REPAIRS }

  predicate OutcomesKnown(c: Case, st: State) {
    st.phase.Some? && Here(st, Decision).Some? && Here(st, Decision).value.DecisionDoc? &&
    st.outcomes == Repairs(st, st.phase.value, st.attempts) + CriterionEntries(c.criteria, Here(st, Decision).value.targets)
  }

  predicate CostKnown(st: State) {
    st.phase.Some? &&
    var t := Spent(st, st.phase.value, st.attempts + 1);
    st.cost == Some(Cost(t.0, t.1, st.attempts))
  }

  predicate ReportHere(st: State) {
    st.phase.Some? && st.cost.Some? &&
    var r := Find(st, Report, st.phase.value, 0);
    r.Some? && r.value.ReportDoc? && Here(st, Decision) == Some(r.value.decision) &&
    r.value.outcomes == st.outcomes && r.value.cost == st.cost.value
  }

  ghost predicate ReportWork(c: Case, g: Config) {
    g.pc.At? && g.pc.node.stage == 7 ==>
      && (g.pc.node.num > 30 ==> OutcomesKnown(c, g.st))
      && (g.pc.node.num > 60 ==> CostKnown(g.st))
      && (g.pc.node.num > 80 ==> ReportHere(g.st))
  }

  ghost predicate Tail(c: Case, g: Config) {
    ReportKeys(g) && Entered(g) && SelectionHere(g) && Ceiling(g) && ReportWork(c, g)
  }

  lemma ReportKeysStep(n: Node, g: Config, h: Config, x: Execution)
    requires Moved(n, g, h, x) && ReportKeys(g)
    ensures ReportKeys(h)
  {
    if h.pc.At? {
      forall k | k in h.ledger && k.node.stage == 7 ensures h.pc.node.stage == 7 && Pos(k.node) < Pos(h.pc.node) {
        assert k != KeyOf(n, g.st) ==> k in g.ledger;
        assert n.stage == 7 ==> h.pc == At(Following(n));
      }
    }
  }

  lemma EnteredStep(n: Node, g: Config, h: Config, x: Execution)
    requires Moved(n, g, h, x) && Entered(g) && OneExit(g)
    ensures Entered(h)
  {
    AttemptsMove(n, g, h, x);
    assert h.pc.At? && h.pc.node.stage >= 4 && n.stage < 4 ==> n.stage == 3 && Node(3, 90) in h.st.completed;
  }

  lemma SelectionSealed(c: Case, g: Config, h: Config, e: Env, x: Execution)
    requires Ran(c, Node(1, 90), g, h, e, x)
    ensures Selected(h.st).Some?
  {
    assert Ok(x) == HandleS01(90, g.st, e);
    assert ArtKey(SelectedSolution, "", |g.st.excluded|) in x.delta.seals;
  }

  lemma SelectionHereStep(c: Case, n: Node, g: Config, h: Config, e: Env, x: Execution)
    requires Moved(n, g, h, x) && Fair(c, n, g, e, x) && SelectionHere(g) && NotYet(g) && CompletedRan(g) && OneExit(g)
    ensures SelectionHere(h)
  {
    Grown(n, g, h, x);
    assert h.st.excluded == {} ==> g.st.excluded == {};
    if h.pc.At? && h.pc.node.stage >= 2 && h.st.excluded == {} && n.stage == 1 {
      S01ContinuesFirst(n, g, h, x);
      assert n == Node(1, 90) && KeyOf(n, g.st) !in g.ledger;
      SelectionSealed(c, g, h, e, x);
    }
  }

  lemma CeilingStep(n: Node, g: Config, h: Config, x: Execution)
    requires Moved(n, g, h, x) && Ceiling(g) && Budget(g)
    ensures Ceiling(h)
  {
    AttemptsMove(n, g, h, x);
  }

  // ---- S07's working state ---------------------------------------------------------------------------------

  // The files the report reads are settled when S07 starts.
  ghost predicate SameFiles(s: State, t: State) {
    s.phase == t.phase && s.attempts == t.attempts &&
    forall k: Kind, p: string, m: nat :: k != Report ==> Find(s, k, p, m) == Find(t, k, p, m)
  }

  lemma ReportTouchesNothing(n: Node, g: Config, h: Config, x: Execution)
    requires Moved(n, g, h, x) && !Clash(g.st.arts, x.delta.seals) && n.stage == 7
    ensures SameFiles(g.st, h.st)
  {
    forall k: Kind, p: string, m: nat | k != Report ensures Find(g.st, k, p, m) == Find(h.st, k, p, m) {
      var a := ArtKey(k, p, m);
      assert a in x.delta.seals ==> Producer(a.kind) == n;
    }
  }

  lemma {:induction false} SpentSame(s: State, t: State, phase: string, passes: nat)
    requires SameFiles(s, t)
    ensures Spent(s, phase, passes) == Spent(t, phase, passes)
  {
    if passes > 0 {
      SpentSame(s, t, phase, passes - 1);
      assert Find(s, Provenance, phase, passes - 1) == Find(t, Provenance, phase, passes - 1);
    }
  }

  lemma RepairsSame(s: State, t: State, phase: string, passes: nat)
    requires SameFiles(s, t)
    ensures Repairs(s, phase, passes) == Repairs(t, phase, passes)
  {
    forall m: nat | m < passes ensures DetailOf(s, phase, m) == DetailOf(t, phase, m) {
      assert Find(s, Verification, phase, m) == Find(t, Verification, phase, m);
      assert Find(s, Decision, phase, m) == Find(t, Decision, phase, m);
    }
  }

  lemma OutcomesStay(c: Case, s: State, t: State)
    requires SameFiles(s, t) && OutcomesKnown(c, s) && t.outcomes == s.outcomes
    ensures OutcomesKnown(c, t)
  {
    RepairsSame(s, t, s.phase.value, s.attempts);
    assert Find(s, Decision, s.phase.value, s.attempts) == Find(t, Decision, s.phase.value, s.attempts);
  }

  lemma CostStays(s: State, t: State)
    requires SameFiles(s, t) && CostKnown(s) && t.cost == s.cost
    ensures CostKnown(t)
  {
    SpentSame(s, t, s.phase.value, s.attempts + 1);
  }

  lemma OutcomesWritten(c: Case, g: Config, h: Config, e: Env, x: Execution)
    requires Ran(c, Node(7, 30), g, h, e, x)
    ensures OutcomesKnown(c, h.st)
  {
    ReportTouchesNothing(Node(7, 30), g, h, x);
    assert Ok(x) == HandleS07(c, 30, g.st, e);
    RepairsSame(g.st, h.st, g.st.phase.value, g.st.attempts);
    assert Find(g.st, Decision, g.st.phase.value, g.st.attempts) == Find(h.st, Decision, g.st.phase.value, g.st.attempts);
  }

  lemma CostWritten(c: Case, g: Config, h: Config, e: Env, x: Execution)
    requires Ran(c, Node(7, 60), g, h, e, x)
    ensures CostKnown(h.st)
  {
    ReportTouchesNothing(Node(7, 60), g, h, x);
    assert Ok(x) == HandleS07(c, 60, g.st, e);
    SpentSame(g.st, h.st, g.st.phase.value, g.st.attempts + 1);
  }

  lemma ReportSealed(c: Case, g: Config, h: Config, e: Env, x: Execution)
    requires Ran(c, Node(7, 80), g, h, e, x)
    ensures ReportHere(h.st)
  {
    assert Ok(x) == HandleS07(c, 80, g.st, e);
    assert ArtKey(Report, g.st.phase.value, 0) in x.delta.seals;
    ReportTouchesNothing(Node(7, 80), g, h, x);
    assert Find(g.st, Decision, g.st.phase.value, g.st.attempts) == Find(h.st, Decision, g.st.phase.value, g.st.attempts);
    assert h.st.outcomes == g.st.outcomes && h.st.cost == g.st.cost;
  }

  lemma UntouchedS7(c: Case, m: nat, g: Config, h: Config, e: Env, x: Execution)
    requires Ran(c, Node(7, m), g, h, e, x)
    ensures m != 30 ==> h.st.outcomes == g.st.outcomes
    ensures m != 60 ==> h.st.cost == g.st.cost
  {
    assert Ok(x) == HandleS07(c, m, g.st, e);
  }

  lemma ReportWorkRan(c: Case, m: nat, g: Config, h: Config, e: Env, x: Execution)
    requires Ran(c, Node(7, m), g, h, e, x) && ReportWork(c, g)
    ensures ReportWork(c, h)
  {
    UntouchedS7(c, m, g, h, e, x);
    ReportTouchesNothing(Node(7, m), g, h, x);
    if m == 30 { OutcomesWritten(c, g, h, e, x); } else if m > 30 { OutcomesStay(c, g.st, h.st); }
    if m == 60 { CostWritten(c, g, h, e, x); } else if m > 60 { CostStays(g.st, h.st); }
    if m == 80 { ReportSealed(c, g, h, e, x); }
  }

  lemma ReportWorkStep(c: Case, n: Node, g: Config, h: Config, e: Env, x: Execution)
    requires Moved(n, g, h, x) && Fair(c, n, g, e, x) && ReportKeys(g) && ReportWork(c, g)
    ensures ReportWork(c, h)
  {
    hide OutcomesKnown, CostKnown, ReportHere, Updated, Shape;
    if n.stage == 7 {
      assert KeyOf(n, g.st) !in g.ledger;
      ReportWorkRan(c, n.num, g, h, e, x);
    } else if h.pc.At? && h.pc.node.stage == 7 {
      assert h.pc == At(Node(7, 10));
    }
  }

  // ---- Retrying a failed phase --------------------------------------------------------------------------------

  predicate FailureOn(st: State, pass: nat) {
    st.phase.Some? && var a := ArtKey(Verification, st.phase.value, pass); a in st.arts && IsFailure(st.arts[a])
  }

  // A pass not opened by FIX_ONE_PART works on the phase whose verification failed in the pass before.
  ghost predicate Retry(c: Case, g: Config) {
    InLoop(g.pc) && g.pc.node.stage <= 4 && g.st.attempts >= 1 && !FixBefore(g) ==>
      ActivePhase(c, g.st) && FailureOn(g.st, g.st.attempts - 1)
  }

  lemma RetryKept(c: Case, g: Config, h: Config)
    requires Extends(g.st.arts, h.st.arts) && h.st.attempts == g.st.attempts && h.st.phase == g.st.phase && h.st.done == g.st.done
    requires ActivePhase(c, g.st) && g.st.attempts >= 1 && FailureOn(g.st, g.st.attempts - 1)
    ensures ActivePhase(c, h.st) && FailureOn(h.st, h.st.attempts - 1)
  {
  }

  lemma RepickIsSame(c: Case, g: Config, h: Config, e: Env, x: Execution)
    requires Moved(Node(3, 10), g, h, x) && Fair(c, Node(3, 10), g, e, x) && ActivePhase(c, g.st)
    requires InOrder(g) && LoopsEarly(g) && LoopFacts(c, g)
    ensures h.st.phase == g.st.phase && h.st.done == g.st.done && h.st.attempts == g.st.attempts
  {
    KeysAreFresh(g);
    if KeyOf(Node(3, 10), g.st) !in g.ledger {
      assert Ok(x) == HandleS03(c, 10, g.st, e);
    }
  }

  lemma RetryWithin(c: Case, n: Node, g: Config, h: Config, e: Env, x: Execution)
    requires Moved(n, g, h, x) && Fair(c, n, g, e, x) && (n.stage == 3 || (n.stage == 4 && n.num < 90))
    requires InOrder(g) && LoopsEarly(g) && LoopFacts(c, g) && Retry(c, g)
    ensures Retry(c, h)
  {
    Grown(n, g, h, x);
    if InLoop(h.pc) && h.pc.node.stage <= 4 && h.st.attempts >= 1 && !FixBefore(h) {
      assert h.st.attempts == g.st.attempts && h.st.done == g.st.done;
      FixStays(g.st.arts, h.st.arts, g.st.attempts - 1);
      if n == Node(3, 10) {
        RepickIsSame(c, g, h, e, x);
      }
      RetryKept(c, g, h);
    }
  }

  lemma RetryOpened(c: Case, g: Config, h: Config, e: Env, x: Execution)
    requires Ran(c, Node(4, 90), g, h, e, x) && WorkS4(g.st, 90) && ActivePhase(c, g.st)
    ensures Retry(c, h)
  {
    if InLoop(h.pc) && h.pc.node.stage <= 4 {
      assert Ok(x) == HandleS04(c, 90, g.st, e);
      assert Ok(x) == SealVerification(c, g.st, e);
      assert KeyHere(g.st, Verification) in x.delta.seals;
    }
  }

  // At S04.90 the pass has its patch, so S03.10 picked the phase it works on.
  lemma ActiveAtS490(c: Case, g: Config)
    requires Books(g) && Repeating(c, g) && g.pc == At(Node(4, 90)) && WorkS4(g.st, 90)
    ensures ActivePhase(c, g.st)
  {
    PatchRecorded(g.st, g.ledger);
    assert Catalogued(Node(3, 10));
    assert Continues(g.ledger, 10, g.st.attempts);
  }

  lemma RetryAfterFix(c: Case, n: Node, g: Config, h: Config, x: Execution)
    requires Moved(n, g, h, x) && n.stage == 6 && Work(c, g) && !Clash(g.st.arts, x.delta.seals)
    requires n == Node(6, 10) ==> x.route == Continue
    ensures Retry(c, h)
  {
    if InLoop(h.pc) && h.pc.node.stage <= 4 {
      ForwardS06(n, g, h, x);
      Grown(n, g, h, x);
      var a := ArtKey(Decision, g.st.phase.value, g.st.attempts - 1);
      assert a in h.st.arts && IsFix(h.st.arts[a]);
      assert FixBefore(h);
    }
  }

  lemma RetryElsewhere(c: Case, n: Node, g: Config, h: Config, x: Execution)
    requires Moved(n, g, h, x) && n.stage !in {3, 4, 6} && NotYet(g) && OneExit(g)
    ensures Retry(c, h)
  {
    if h.pc.At? {
      if n.stage <= 2 {
        OpeningMoves(n, g, h, x);
      } else {
        NeverBack(n, g, h, x);
      }
    }
  }

  lemma RetryStep(c: Case, n: Node, g: Config, h: Config, e: Env, x: Execution)
    requires Moved(n, g, h, x) && Fair(c, n, g, e, x) && Books(g) && Work(c, g) && Linked(c, g.st.arts)
    requires InOrder(g) && LoopsEarly(g) && NotYet(g) && OneExit(g) && Repeating(c, g) && Retry(c, g)
    ensures Retry(c, h)
  {
    hide Linked, NotYet, OneExit, Books, Retry, Prefix, PrefixHere, EnteredS04, PhaseKnown, LoopFacts, Updated, Shape;
    if n == Node(4, 90) {
      KeysAreFresh(g);
      ActiveAtS490(c, g);
      RetryOpened(c, g, h, e, x);
    } else if 3 <= n.stage <= 4 {
      RetryWithin(c, n, g, h, e, x);
    } else if n.stage == 6 {
      if n == Node(6, 10) {
        S06Continues(c, n, g, e, x);
      }
      RetryAfterFix(c, n, g, h, x);
    } else {
      RetryElsewhere(c, n, g, h, x);
    }
  }

  lemma TailStep(c: Case, n: Node, g: Config, h: Config, e: Env, x: Execution)
    requires Moved(n, g, h, x) && Fair(c, n, g, e, x) && CompletedRan(g) && NotYet(g) && OneExit(g) && Budget(g) && Tail(c, g)
    ensures Tail(c, h)
  {
    ReportKeysStep(n, g, h, x);
    EnteredStep(n, g, h, x);
    SelectionHereStep(c, n, g, h, e, x);
    CeilingStep(n, g, h, x);
    ReportWorkStep(c, n, g, h, e, x);
  }

  // ---- S07's loops ----------------------------------------------------------------------------------------------

  // S07.60's sum over the passes.
  method CountTokens(st: State, phase: string, finalPass: nat) returns (tokensIn: nat, tokensOut: nat)
    ensures (tokensIn, tokensOut) == Spent(st, phase, finalPass + 1)
  {
    tokensIn, tokensOut := 0, 0;
    for m := 0 to finalPass + 1
      invariant (tokensIn, tokensOut) == Spent(st, phase, m)
    {
      var p := Find(st, Provenance, phase, m);
      if p.None? || !p.value.ProvenanceDoc? {
        continue;
      }
      tokensIn, tokensOut := tokensIn + p.value.tokensIn, tokensOut + p.value.tokensOut;
    }
  }

  // S07.30's list: one entry per earlier pass, then one per criterion.
  method ListOutcomes(cs: seq<Criterion>, st: State, phase: string, passes: nat, ts: seq<TargetEval>) returns (out: seq<Entry>)
    ensures out == Repairs(st, phase, passes) + CriterionEntries(cs, ts)
    ensures |out| == passes + |cs|
    ensures forall m :: 0 <= m < passes ==> out[m].Repaired? && out[m].pass == m
    ensures forall i :: 0 <= i < |cs| ==> out[passes + i] == if MetIn(ts, cs[i].id) then Met(cs[i].id) else Missing(cs[i].id)
  {
    out := [];
    for m := 0 to passes
      invariant |out| == m && forall k :: 0 <= k < m ==> out[k] == Repaired(k, DetailOf(st, phase, k))
    {
      var v, d := Find(st, Verification, phase, m), Find(st, Decision, phase, m);
      var detail := NoSealedDecision;
      if HasChecks(v) && !v.value.passed {
        detail := VerificationFailed;
      } else if d.Some? && d.value.DecisionDoc? {
        detail := Judged(d.value.outcome);
      }
      out := out + [Repaired(m, detail)];
    }
    assert out == Repairs(st, phase, passes);
    ghost var repairs := out;
    for i := 0 to |cs|
      invariant |out| == passes + i && out[..passes] == repairs
      invariant forall k :: 0 <= k < i ==> out[passes + k] == if MetIn(ts, cs[k].id) then Met(cs[k].id) else Missing(cs[k].id)
    {
      out := out + [if MetIn(ts, cs[i].id) then Met(cs[i].id) else Missing(cs[i].id)];
    }
    assert out[passes..] == CriterionEntries(cs, ts);
    assert out == out[..passes] + out[passes..];
    forall m | 0 <= m < passes ensures out[m] == repairs[m] {
      assert out[m] == out[..passes][m];
    }
  }
}
