// S07 from its first node to the published report.

module Delivery {
  import opened Decide
  import opened Machine
  import opened Bookkeeping
  import opened Progress
  import opened Outcomes
  import opened Reporting
  import opened Reachable
  import opened PhaseLoop
  import opened Termination

  // What S07's nodes look up.
  predicate Ready(c: Case, st: State, m: nat) {
    && AllHere(st) && ChainHere(st) && Here(st, Decision).value.outcome == Keep && |c.criteria| > 0
    && (m > 30 ==> OutcomesKnown(c, st)) && (m > 60 ==> CostKnown(st)) && (m > 80 ==> ReportHere(st))
  }

  // A sealed report, with this pass's decision, an entry for every earlier pass and every criterion, and
  // the tokens of every pass.
  predicate Published(c: Case, st: State) { ReportHere(st) && OutcomesKnown(c, st) && CostKnown(st) }

  lemma ResultS7(c: Case, m: nat, st: State, e: Env)
    requires Catalogued(Node(7, m)) && Ready(c, st, m) && !e.fails
    requires m == 50 ==> Here(st, ApplyResult).Some?
    ensures Handle(c, Node(7, m), st, e).Ok? && Handle(c, Node(7, m), st, e).value.route == Continue
  {
    assert Handle(c, Node(7, m), st, e) == HandleS07(c, m, st, e);
    if m > 30 {
      EntriesComplete(c, st, Here(st, Decision).value.targets);
    }
  }

  lemma MoveS7(m: nat, g: Config, h: Config, x: Execution)
    requires Moved(Node(7, m), g, h, x) && x.route == Continue
    ensures h.pc == if m == 90 then End else At(Node(7, m + 10))
  {
  }

  lemma InvReady(c: Case, g: Config)
    requires Inv(c, g) && g.pc.At? && g.pc.node.stage == 7
    ensures Ready(c, g.st, g.pc.node.num) && KeyOf(g.pc.node, g.st) !in g.ledger
  {
    hide Inv, AllHere, ChainHere, EvidenceHere, OutcomesKnown, CostKnown, ReportHere;
    InvS07(c, g);
    InvAccepted(c, g);
  }

  lemma StepS7(c: Case, m: nat, g: Config, e: Env)
    requires Reached(c, g) && g.pc == At(Node(7, m)) && Catalogued(Node(7, m)) && !e.fails && (m == 50 ==> !FixBefore(g))
    ensures var h := Step(c, g, e);
            SameFiles(g.st, h.st) && (h.pc == if m == 90 then End else At(Node(7, m + 10))) && (m == 90 ==> Published(c, h.st))
  {
    hide Reached, Inv, Handle, Books, Ready, FixBefore, Step;
    ReachedInv(c, g);
    InvBooks(c, g);
    InvReady(c, g);
    KeptChangeIsApplied(c, g);
    ResultS7(c, m, g.st, e);
    var x := Handle(c, Node(7, m), g.st, e).value;
    RunsTo(c, g, e, x);
    hide AllHere, ChainHere, OutcomesKnown, CostKnown;
    MoveS7(m, g, Step(c, g, e), x);
    ReportTouchesNothing(Node(7, m), g, Step(c, g, e), x);
    if m == 90 {
      LastOfS7(c, g, Step(c, g, e), e, x);
    }
  }

  lemma NothingSealedLast(g: Config, h: Config, x: Execution)
    requires Moved(Node(7, 90), g, h, x)
    ensures h.st.arts == g.st.arts
  {
    forall a: ArtKey ensures a !in x.delta.seals {
      assert Producer(a.kind) != Node(7, 90);
    }
    assert x.delta.seals == map[];
  }

  lemma ReportStays(s: State, t: State)
    requires ReportHere(s) && t.arts == s.arts && t.phase == s.phase && t.attempts == s.attempts && t.outcomes == s.outcomes && t.cost == s.cost
    ensures ReportHere(t)
  {
  }

  lemma LastOfS7(c: Case, g: Config, h: Config, e: Env, x: Execution)
    requires Ran(c, Node(7, 90), g, h, e, x) && Ready(c, g.st, 90) && SameFiles(g.st, h.st)
    ensures Published(c, h.st)
  {
    UntouchedS7(c, 90, g, h, e, x);
    NothingSealedLast(g, h, x);
    assert h.st.phase == g.st.phase && h.st.attempts == g.st.attempts;
    hide Ran, AllHere, ChainHere, OutcomesKnown, CostKnown, ReportHere;
    ReportStays(g.st, h.st);
    OutcomesStay(c, g.st, h.st);
    CostStays(g.st, h.st);
  }

  lemma FixMarkStays(g: Config, h: Config)
    requires SameFiles(g.st, h.st)
    ensures FixBefore(g) <==> FixBefore(h)
  {
    if g.st.attempts >= 1 {
      SameFix(g.st, h.st, g.st.attempts - 1);
      SameFix(h.st, g.st, g.st.attempts - 1);
    }
  }

  lemma SameFix(s: State, t: State, m: nat)
    requires SameFiles(s, t)
    ensures FixAt(s.arts, m) ==> FixAt(t.arts, m)
  {
    if FixAt(s.arts, m) {
      var a :| a in s.arts && a.kind == Decision && a.pass == m && IsFix(s.arts[a]);
      assert Find(s, Decision, a.phase, m) == Find(t, Decision, a.phase, m);
    }
  }

  lemma SameFilesOn(s: State, t: State, u: State)
    requires SameFiles(s, t) && SameFiles(t, u)
    ensures SameFiles(s, u)
  {
  }

  predicate NoFailure(es: seq<Env>) { forall i :: 0 <= i < |es| ==> !es[i].fails }

  lemma {:induction false} DeliveredFrom(c: Case, m: nat, g: Config, es: seq<Env>)
    requires Reached(c, g) && g.pc == At(Node(7, m)) && Catalogued(Node(7, m)) && |es| >= 10 - m / 10 && NoFailure(es)
    ensures m <= 50 && FixBefore(g) ==> Run(c, g, es).pc == Aborted
    ensures !FixBefore(g) ==> Run(c, g, es).pc == End && SameFiles(g.st, Run(c, g, es).st) && Published(c, Run(c, g, es).st)
    decreases |es|
  {
    hide Reached, Run, Step, FixBefore, SameFiles, Published;
    OneStepFirst(c, g, es);
    var h := Step(c, g, es[0]);
    if FixBefore(g) && m == 50 {
      ReportRaisesAfterFix(c, g, es[0]);
      AbortedStays(c, h, es[1..]);
    } else if !FixBefore(g) || m < 50 {
      StepS7(c, m, g, es[0]);
      if m == 90 {
        AbortedStays(c, h, es[1..]);
      } else {
        ReachedStep(c, g, es[0]);
        FixMarkStays(g, h);
        DeliveredFrom(c, m + 10, h, es[1..]);
        if !FixBefore(g) {
          SameFilesOn(g.st, h.st, Run(c, h, es[1..]).st);
        }
      }
    }
  }

  // From S07.10 on, as long as no node fails from outside, the run ends with the report published exactly
  // when the pass before did not end in FIX_ONE_PART; otherwise it raises.
  lemma PublishedUnlessFixed(c: Case, g: Config, es: seq<Env>)
    requires Reached(c, g) && g.pc == At(Node(7, 10)) && |es| >= 9 && NoFailure(es)
    ensures var h := Run(c, g, es);
            if FixBefore(g) then h.pc == Aborted else h.pc == End && SameFiles(g.st, h.st) && Published(c, h.st)
  {
    hide Reached, Run, FixBefore, SameFiles, Published;
    DeliveredFrom(c, 10, g, es);
  }
}
