// Everything a reachable configuration of the workflow keeps, and the proof that every step keeps it.

module Invariant {
  import opened Results
  import opened Decide
  import opened Machine
  import opened Bookkeeping
  import opened Passes
  import opened Evidence
  import opened Progress
  import opened Repeats

  // ---- Documents ---------------------------------------------------------------------------------------

  lemma FreshSeals(c: Case, n: Node, g: Config, h: Config, e: Env, x: Execution)
    requires Ran(c, n, g, h, e, x) && Work(c, g)
    ensures forall a :: a in x.delta.seals ==> LinkOk(c, g.st.arts + x.delta.seals, a)
  {
    hide Updated;
    if n == Node(3, 80) { SealsS03(c, g.st, e, x); }
    else if n == Node(4, 90) { SealsS04(c, g.st, e, x); }
    else if n == Node(5, 20) { SealsS05_20(c, g.st, e, x); }
    else if n == Node(5, 70) { SealsS05_70(c, g.st, e, x); }
    else if n == Node(5, 80) { SealsS05_80(c, g.st, e, x); }
    else if n == Node(5, 90) { SealsS05_90(c, g.st, e, x); }
    else if n == Node(6, 60) { SealsS06_60(c, g.st, e, x); }
    else if n == Node(6, 80) { SealsS06_80(c, g.st, e, x); }
    else if n == Node(6, 90) { SealsS06_90(c, g.st, e, x); }
    else if n == Node(1, 90) { assert Ok(x) == HandleS01(90, g.st, e); }
    else if n == Node(7, 80) { assert Ok(x) == HandleS07(c, 80, g.st, e); }
    else {
      forall a: ArtKey ensures a !in x.delta.seals {
        assert a in x.delta.seals ==> Producer(a.kind) == n;
      }
    }
  }

  lemma LinkedOnReplay(c: Case, ledger: Ledger, arts: Arts, key: NodeKey)
    requires key in ledger && SealsKept(ledger, arts) && Linked(c, arts)
    ensures Linked(c, arts + ledger[key].delta.seals)
  {
    SameAfterMerge(arts, ledger[key].delta.seals);
  }

  lemma LinkedStep(c: Case, n: Node, g: Config, h: Config, e: Env, x: Execution)
    requires Moved(n, g, h, x) && !Clash(g.st.arts, x.delta.seals) && Work(c, g) && Linked(c, g.st.arts)
    requires if KeyOf(n, g.st) in g.ledger then SealsKept(g.ledger, g.st.arts) else Handle(c, n, g.st, e) == Ok(x)
    ensures Linked(c, h.st.arts)
  {
    if KeyOf(n, g.st) in g.ledger {
      LinkedOnReplay(c, g.ledger, g.st.arts, KeyOf(n, g.st));
    } else {
      FreshSeals(c, n, g, h, e, x);
      LinkedGrows(c, g.st.arts, x.delta.seals);
    }
  }

  // ---- Order ---------------------------------------------------------------------------------------------

  // A node that is not on record really ran.
  ghost predicate Fair(c: Case, n: Node, g: Config, e: Env, x: Execution) {
    Result(c, n, g, e) == Ok(x) && !Clash(g.st.arts, x.delta.seals)
  }

  lemma FailureBumps(c: Case, g: Config, h: Config, e: Env, x: Execution)
    requires Ran(c, Node(4, 90), g, h, e, x) && WorkS4(g.st, 90) && InLoop(h.pc) && h.pc.node.stage <= 4
    ensures h.st.attempts == g.st.attempts + 1
  {
    assert Ok(x) == HandleS04(c, 90, g.st, e);
    assert Ok(x) == SealVerification(c, g.st, e);
  }

  lemma OrderWithinS4(c: Case, n: Node, g: Config, h: Config, e: Env, x: Execution)
    requires Moved(n, g, h, x) && Fair(c, n, g, e, x) && n.stage == 4 && InLoop(h.pc) && h.st.attempts == g.st.attempts
    requires InOrder(g) && LoopsEarly(g) && NewPassClean(g) && Work(c, g)
    ensures InOrder(h) && LoopsEarly(h)
  {
    hide Handle, InOrder, LoopsEarly, NewPassClean, WorkS4;
    if n.num < 90 {
      ForwardS04(n, g, h, x);
    } else {
      KeysAreFresh(g);
      VerifiedIsHere(c, g, h, e, x);
      if h.pc.node.stage <= 4 {
        FailureBumps(c, g, h, e, x);
      }
    }
    KeepsOrder(g, h, x);
  }

  lemma OrderWithinS35(n: Node, g: Config, h: Config, x: Execution)
    requires Moved(n, g, h, x) && (n.stage == 3 || n.stage == 5) && InLoop(h.pc)
    requires InOrder(g) && LoopsEarly(g) && NewPassClean(g)
    ensures InOrder(h) && LoopsEarly(h)
  {
    Forward(n, g, h, x);
    KeepsOrder(g, h, x);
  }

  lemma S06Continues(c: Case, n: Node, g: Config, e: Env, x: Execution)
    requires g.pc == At(n) && n == Node(6, 10) && Fair(c, n, g, e, x) && InOrder(g) && LoopsEarly(g)
    requires Work(c, g) && Linked(c, g.st.arts)
    ensures x.route == Continue
  {
    KeysAreFresh(g);
    IntakeNeverRejects(c, g.st, e, x);
  }

  lemma OrderWithinS6(c: Case, n: Node, g: Config, h: Config, e: Env, x: Execution)
    requires Moved(n, g, h, x) && Fair(c, n, g, e, x) && n.stage == 6 && InLoop(h.pc) && h.st.attempts == g.st.attempts
    requires InOrder(g) && LoopsEarly(g) && NewPassClean(g) && Work(c, g) && Linked(c, g.st.arts)
    ensures InOrder(h) && LoopsEarly(h)
  {
    if n == Node(6, 10) {
      S06Continues(c, n, g, e, x);
    }
    ForwardS06(n, g, h, x);
    KeepsOrder(g, h, x);
  }

  lemma OrderEntered(n: Node, g: Config, h: Config, x: Execution)
    requires Moved(n, g, h, x) && n.stage <= 2 && NotYet(g) && OneExit(g)
    ensures InOrder(h) && LoopsEarly(h)
  {
    if InLoop(h.pc) {
      assert g.st.excluded == {};
      forall k | k in h.ledger ensures k.node.stage <= 2 {
        assert k != KeyOf(n, g.st) ==> k in g.ledger;
      }
    }
  }

  lemma OrderInLoop(c: Case, n: Node, g: Config, h: Config, e: Env, x: Execution)
    requires Moved(n, g, h, x) && Fair(c, n, g, e, x) && Books(g) && InLoop(g.pc) && InLoop(h.pc)
    requires InOrder(g) && LoopsEarly(g) && NewPassClean(g) && Work(c, g) && Linked(c, g.st.arts)
    ensures InOrder(h) && LoopsEarly(h)
  {
    AttemptsMove(n, g, h, x);
    if h.st.attempts == g.st.attempts + 1 {
      NewPassInOrder(g, h, x);
    } else if n.stage == 4 {
      OrderWithinS4(c, n, g, h, e, x);
    } else if n.stage == 6 {
      OrderWithinS6(c, n, g, h, e, x);
    } else {
      OrderWithinS35(n, g, h, x);
    }
  }

  // A decision that is about to be acted on was just sealed.
  lemma IntoS690(n: Node, g: Config, h: Config, x: Execution)
    requires Moved(n, g, h, x) && h.pc == At(Node(6, 90))
    ensures n == Node(6, 80)
  {
  }

  lemma SealedDecision(c: Case, n: Node, g: Config, h: Config, e: Env, x: Execution)
    requires Moved(n, g, h, x) && Fair(c, n, g, e, x) && h.pc == At(Node(6, 90))
    requires InOrder(g) && LoopsEarly(g) && Work(c, g)
    ensures n == Node(6, 80) && Ran(c, n, g, h, e, x) && WorkS6(c, g.st, 80)
  {
    IntoS690(n, g, h, x);
    KeysAreFresh(g);
  }

  lemma NewPassStep(c: Case, n: Node, g: Config, h: Config, e: Env, x: Execution)
    requires Moved(n, g, h, x) && Fair(c, n, g, e, x) && Books(g) && InOrder(g) && LoopsEarly(g) && Work(c, g)
    ensures NewPassClean(h)
  {
    if FixPending(h) {
      SealedDecision(c, n, g, h, e, x);
      DecisionIsSealed(c, g, h, e, x);
      NewPassInOrder(g, h, x);
    }
  }

  lemma RevertExcludes(c: Case, g: Config, h: Config, e: Env, x: Execution)
    requires Ran(c, Node(6, 80), g, h, e, x) && WorkS6(c, g.st, 80)
    ensures h.st.verdict == Some(Revert) ==> h.st.excluded != {}
    ensures h.st.excluded != g.st.excluded ==> h.st.verdict == Some(Revert)
  {
    DecisionIsSealed(c, g, h, e, x);
  }

  // Where each node of the two opening stages can lead.
  lemma OpeningMoves(n: Node, g: Config, h: Config, x: Execution)
    requires Moved(n, g, h, x) && n.stage <= 2 && h.pc.At?
    ensures h.st.excluded == g.st.excluded && h.st.attempts == g.st.attempts && h.st.phase == g.st.phase
    ensures n.stage == 1 ==> Pos(h.pc.node) > Pos(n) && Pos(h.pc.node) <= 210
    ensures n.stage == 2 ==> h.pc.node.stage == 2 || (n == Node(2, 90) && h.pc.node == Node(3, 10)) || Node(2, 90) in g.st.completed
    ensures n.stage == 2 && h.pc.node.stage == 2 ==> Pos(h.pc.node) == Pos(Following(n)) || h.pc == At(Node(2, 30))
  {
  }

  // Only a pending revert leads from the loop back to the opening stages.
  lemma BackToStart(n: Node, g: Config, h: Config, x: Execution)
    requires Moved(n, g, h, x) && n.stage >= 3 && h.pc.At? && h.pc.node.stage <= 2
    ensures n.stage == 6 && h.pc == At(Node(1, 10)) && h.st.verdict == Some(Revert)
  {
  }

  lemma BackFromS690(c: Case, n: Node, g: Config, h: Config, e: Env, x: Execution)
    requires Moved(n, g, h, x) && Fair(c, n, g, e, x) && n.stage >= 3 && h.pc.At? && h.pc.node.stage <= 2
    requires InOrder(g) && LoopsEarly(g) && Work(c, g) && Linked(c, g.st.arts)
    ensures n == Node(6, 90) && RevertPending(g) && h.pc == At(Node(1, 10)) && h.st.excluded == g.st.excluded
  {
    hide Handle, InOrder, LoopsEarly, Work, Linked;
    BackToStart(n, g, h, x);
    if n == Node(6, 10) {
      S06Continues(c, n, g, e, x);
    }
  }

  // After a revert S02.10 finds no selection: it raises.
  lemma NoSelectionAfterRevert(c: Case, g: Config, e: Env)
    requires SelectionPass(g) && PlanKeys(g) && g.st.excluded != {} && g.pc == At(Node(2, 10))
    ensures Result(c, Node(2, 10), g, e) == Raised
  {
    assert |g.st.excluded| != 0;
    assert Selected(g.st).None?;
    assert KeyOf(Node(2, 10), g.st) !in g.ledger;
  }

  lemma NotYetStep(c: Case, n: Node, g: Config, h: Config, e: Env, x: Execution)
    requires Moved(n, g, h, x) && Fair(c, n, g, e, x)
    requires InOrder(g) && LoopsEarly(g) && Work(c, g) && Linked(c, g.st.arts) && OneExit(g) && NotYet(g)
    ensures NotYet(h)
  {
    if h.pc.At? && h.pc.node.stage <= 2 && h.st.excluded == {} {
      if n.stage >= 3 {
        BackFromS690(c, n, g, h, e, x);
      } else {
        OpeningMoves(n, g, h, x);
        forall k | k in h.ledger ensures k.node.stage <= 2 && (h.pc.node.stage == 1 ==> Pos(k.node) < Pos(h.pc.node)) {
          assert k != KeyOf(n, g.st) ==> k in g.ledger;
        }
      }
    }
  }

  lemma ExclusionsMove(n: Node, g: Config, h: Config, x: Execution)
    requires Moved(n, g, h, x) && h.st.excluded != g.st.excluded
    ensures n == Node(6, 80)
  {
  }

  lemma AfterPendingRevert(g: Config, h: Config, x: Execution)
    requires Moved(Node(6, 90), g, h, x) && g.st.verdict == Some(Revert) && h.pc.At?
    ensures h.pc == At(Node(1, 10))
  {
  }

  // With a strategy excluded, a step leads on through S01 to S02.10, where it raises.
  lemma ExcludedMoves(c: Case, n: Node, g: Config, h: Config, e: Env, x: Execution)
    requires Moved(n, g, h, x) && Result(c, n, g, e) == Ok(x) && SelectionPass(g) && PlanKeys(g)
    requires g.st.excluded != {} && h.pc.At? && (Pos(n) <= 210 || RevertPending(g))
    ensures Pos(h.pc.node) <= 210
  {
    hide SelectionPass, PlanKeys, Result;
    if n == Node(2, 10) {
      NoSelectionAfterRevert(c, g, e);
    } else if n.stage == 1 {
      OpeningMoves(n, g, h, x);
    } else {
      AfterPendingRevert(g, h, x);
    }
  }

  lemma OneExitStep(c: Case, n: Node, g: Config, h: Config, e: Env, x: Execution)
    requires Moved(n, g, h, x) && Fair(c, n, g, e, x)
    requires InOrder(g) && LoopsEarly(g) && Work(c, g) && OneExit(g) && SelectionPass(g) && PlanKeys(g)
    ensures OneExit(h)
  {
    hide InOrder, LoopsEarly, Work, SelectionPass, PlanKeys, Shape, Updated;
    if h.pc == At(Node(6, 90)) {
      SealedDecision(c, n, g, h, e, x);
      RevertExcludes(c, g, h, e, x);
      assert g.st.excluded == {};
    } else if h.st.excluded != {} && h.pc.At? {
      if g.st.excluded == {} {
        ExclusionsMove(n, g, h, x);
      } else {
        ExcludedMoves(c, n, g, h, e, x);
      }
    }
  }

  lemma BudgetS490(c: Case, g: Config, h: Config, e: Env, x: Execution)
    requires Ran(c, Node(4, 90), g, h, e, x) && WorkS4(g.st, 90) && Budget(g)
    ensures Budget(h)
  {
    assert Ok(x) == HandleS04(c, 90, g.st, e);
    assert Ok(x) == SealVerification(c, g.st, e);
  }

  lemma BudgetElsewhere(n: Node, g: Config, h: Config, x: Execution)
    requires Moved(n, g, h, x) && n != Node(4, 90) && n != Node(6, 80) && OneExit(g) && NotYet(g) && Budget(g)
    ensures Budget(h)
  {
    AttemptsMove(n, g, h, x);
    if h.pc == At(Node(6, 90)) {
      IntoS690(n, g, h, x);
    }
    assert h.pc == At(Node(3, 10)) && n.stage >= 3 ==> h.st.attempts < MAX_PHASE_REPAIRS;
  }

  lemma BudgetStep(c: Case, n: Node, g: Config, h: Config, e: Env, x: Execution)
    requires Moved(n, g, h, x) && Fair(c, n, g, e, x)
    requires InOrder(g) && LoopsEarly(g) && Work(c, g) && OneExit(g) && NotYet(g) && Budget(g)
    ensures Budget(h)
  {
    hide InOrder, LoopsEarly, OneExit, NotYet, Shape, Updated, Handle;
    if n == Node(4, 90) {
      KeysAreFresh(g);
      BudgetS490(c, g, h, e, x);
    } else if n == Node(6, 80) {
      KeysAreFresh(g);
      DecisionIsSealed(c, g, h, e, x);
      OnFromS6(80, g, h, x);
    } else {
      BudgetElsewhere(n, g, h, x);
    }
  }

  lemma SelectionStep(c: Case, n: Node, g: Config, h: Config, e: Env, x: Execution)
    requires Moved(n, g, h, x) && Fair(c, n, g, e, x) && SealsKept(g.ledger, g.st.arts)
    requires SelectionPass(g) && S01Recorded(g)
    ensures SelectionPass(h)
  {
    hide SealsKept, S01Recorded, Result, RoutesOwn, WritesOwn;
    forall a | a in h.st.arts && a.kind == SelectedSolution ensures a == ArtKey(SelectedSolution, "", 0) {
      if a !in g.st.arts {
        assert a in x.delta.seals && n == Node(1, 90);
        NewSelection(c, g, e, x, a);
      }
    }
  }

  lemma NewSelection(c: Case, g: Config, e: Env, x: Execution, a: ArtKey)
    requires g.pc == At(Node(1, 90)) && Result(c, Node(1, 90), g, e) == Ok(x)
    requires SealsKept(g.ledger, g.st.arts) && S01Recorded(g) && a in x.delta.seals && a !in g.st.arts
    ensures a == ArtKey(SelectedSolution, "", 0)
  {
    assert KeyOf(Node(1, 90), g.st) == NodeKey(Node(1, 90), 0) && Catalogued(Node(1, 90));
    assert KeyOf(Node(1, 90), g.st) !in g.ledger;
    assert g.st.excluded == {};
    assert Ok(x) == HandleS01(90, g.st, e);
  }

  lemma PlanKeysFirst(c: Case, n: Node, g: Config, h: Config, e: Env, x: Execution)
    requires Moved(n, g, h, x) && Fair(c, n, g, e, x) && PlanKeys(g) && SelectionPass(g)
    ensures forall k :: k in h.ledger && k.node == Node(2, 10) ==> k.rev == 0
  {
    hide Handle, SelectionPass, Shape, Updated;
    forall k | k in h.ledger && k.node == Node(2, 10) ensures k.rev == 0 {
      if k !in g.ledger {
        assert n == Node(2, 10) && k.rev == g.st.planAttempts;
        if g.st.excluded != {} {
          NoSelectionAfterRevert(c, g, e);
        }
      }
    }
  }

  lemma PlanCountOpening(n: Node, g: Config, h: Config, x: Execution)
    requires Moved(n, g, h, x) && n.stage <= 2 && OneExit(g) && PlanKeys(g) && h.pc.At?
    ensures Pos(h.pc.node) <= 220 && h.st.excluded == {} ==> h.st.planAttempts == 0
    ensures Pos(h.pc.node) >= 290 || h.st.excluded != {} ==> h.st.planAttempts >= 1
  {
    OpeningMoves(n, g, h, x);
  }

  lemma PlanCountLater(n: Node, g: Config, h: Config, x: Execution)
    requires Moved(n, g, h, x) && n.stage >= 3 && PlanKeys(g) && h.pc.At?
    ensures h.st.planAttempts >= 1
  {
  }

  lemma PlanStep(c: Case, n: Node, g: Config, h: Config, e: Env, x: Execution)
    requires Moved(n, g, h, x) && Fair(c, n, g, e, x)
    requires OneExit(g) && PlanKeys(g) && SelectionPass(g) && InOrder(g) && LoopsEarly(g) && Work(c, g) && Linked(c, g.st.arts)
    ensures PlanKeys(h)
  {
    PlanKeysFirst(c, n, g, h, e, x);
    hide InOrder, LoopsEarly, Work, Linked, Handle, SelectionPass, Shape, Updated;
    if h.pc.At? {
      if n.stage <= 2 {
        PlanCountOpening(n, g, h, x);
      } else {
        PlanCountLater(n, g, h, x);
        if h.pc.node.stage <= 2 {
          BackFromS690(c, n, g, h, e, x);
        }
      }
    }
  }

  lemma S01Unfinished(g: Config)
    requires g.pc.At? && Catalogued(g.pc.node) && g.pc.node.stage == 1 && NotYet(g) && CompletedRan(g) && g.st.excluded == {}
    ensures Node(1, 90) !in g.st.completed
  {
    forall r: nat ensures NodeKey(Node(1, 90), r) !in g.ledger {
      assert NodeKey(Node(1, 90), r) in g.ledger ==> 190 < Pos(g.pc.node);
    }
  }

  lemma S01ContinuesFirst(n: Node, g: Config, h: Config, x: Execution)
    requires Moved(n, g, h, x) && n.stage == 1 && h.pc.At? && NotYet(g) && CompletedRan(g) && g.st.excluded == {}
    ensures x.route == Continue
  {
    S01Unfinished(g);
  }

  lemma S01Step(n: Node, g: Config, h: Config, x: Execution)
    requires Moved(n, g, h, x) && NotYet(g) && CompletedRan(g) && S01Recorded(g)
    ensures S01Recorded(h)
  {
    if n.stage == 1 && h.pc.At? && g.st.excluded == {} {
      S01ContinuesFirst(n, g, h, x);
    }
    if n.stage <= 2 && h.pc.At? {
      OpeningMoves(n, g, h, x);
    }
    forall m: nat | h.pc.At? && Catalogued(Node(1, m)) && (Pos(h.pc.node) > Pos(Node(1, m)) || h.st.excluded != {})
      ensures NodeKey(Node(1, m), 0) in h.ledger && h.ledger[NodeKey(Node(1, m), 0)].route == Continue
    {
      if Node(1, m) != n {
        S01Before(n, g, h, x, m);
      }
    }
  }

  lemma S01Before(n: Node, g: Config, h: Config, x: Execution, m: nat)
    requires Moved(n, g, h, x) && h.pc.At? && Catalogued(Node(1, m)) && Node(1, m) != n
    requires Pos(h.pc.node) > Pos(Node(1, m)) || h.st.excluded != {}
    requires n.stage == 1 && g.st.excluded == {} ==> x.route == Continue
    ensures Pos(n) > Pos(Node(1, m)) || g.st.excluded != {}
  {
  }

  // S05 never leads back, and S07 only on.
  lemma NeverBack(n: Node, g: Config, h: Config, x: Execution)
    requires Moved(n, g, h, x) && (n.stage == 5 || n.stage == 7) && h.pc.At?
    ensures h.pc.node.stage >= 5
  {
  }
}
