// Every run stops, unless a pass repeats itself; and when that happens.

module Termination {
  import opened Results
  import opened Machine
  import opened Recovery
  import opened Bookkeeping
  import opened Passes
  import opened Evidence
  import opened Progress
  import opened Repeats
  import opened Invariant
  import opened Outcomes
  import opened History
  import opened Reachable
  import opened PhaseLoop

  // The pass a configuration belongs to: after FIX_ONE_PART the counter is already one ahead.
  function PassOf(g: Config): nat {
    if FixPending(g) && g.st.attempts >= 1 then g.st.attempts - 1 else g.st.attempts
  }

  function Below(limit: nat, x: nat): nat { if x < limit then limit - x else 0 }

  // Drops at every step that does not start a repetition.
  function Rank(g: Config): nat {
    if !g.pc.At? then 0 else
    var p := Pos(g.pc.node);
    if InLoop(g.pc) then 1000 + Below(6, PassOf(g)) * 400 + Below(700, p)
    else if g.pc.node.stage <= 2 then
      if g.st.excluded == {} then 5000 + Below(3, g.st.planAttempts) * 300 + Below(300, p) else Below(300, p)
    else Below(800, p)
  }

  ghost predicate Stuck(g: Config) { InLoop(g.pc) && Looping(g) }

  lemma RankInOpening(n: Node, g: Config, h: Config, x: Execution)
    requires Moved(n, g, h, x) && n.stage <= 2 && OneExit(g) && NotYet(g)
    requires g.st.excluded != {} ==> n.stage == 1
    ensures Rank(h) < Rank(g)
  {
    if h.pc.At? {
      OpeningMoves(n, g, h, x);
      if h.pc.node.stage == 2 && n.stage == 2 {
        assert x.route == Revision || h.pc.node == Following(n);
      }
    }
  }

  lemma RankFromS7(n: Node, g: Config, h: Config, x: Execution)
    requires Moved(n, g, h, x) && n.stage == 7
    ensures Rank(h) < Rank(g)
  {
  }

  lemma RankLeaving(n: Node, g: Config, h: Config, x: Execution)
    requires Moved(n, g, h, x) && InLoop(g.pc) && !InLoop(h.pc)
    requires h.pc.At? && h.pc.node.stage <= 2 ==> h.st.excluded != {}
    ensures Rank(h) < Rank(g)
  {
  }

  lemma RankForward(g: Config, h: Config)
    requires InLoop(g.pc) && InLoop(h.pc) && Catalogued(g.pc.node) && Pos(h.pc.node) > Pos(g.pc.node) && PassOf(h) == PassOf(g)
    ensures Rank(h) < Rank(g)
  {
  }

  lemma RankNewPass(g: Config, h: Config)
    requires InLoop(g.pc) && Pos(g.pc.node) <= 690 && h.pc == At(Node(3, 10)) && PassOf(h) == PassOf(g) + 1 && PassOf(g) <= 5
    ensures Rank(h) < Rank(g)
  {
  }

  // ---- The step inside the loop -----------------------------------------------------------------------------

  lemma RankS35(n: Node, g: Config, h: Config, x: Execution)
    requires Moved(n, g, h, x) && (n.stage == 3 || n.stage == 5) && InLoop(h.pc)
    ensures Rank(h) < Rank(g)
  {
    Forward(n, g, h, x);
    RankForward(g, h);
  }

  lemma RankS4(c: Case, n: Node, g: Config, h: Config, e: Env, x: Execution)
    requires Moved(n, g, h, x) && Fair(c, n, g, e, x) && n.stage == 4 && InLoop(h.pc) && !Looping(h)
    requires InOrder(g) && LoopsEarly(g) && Work(c, g) && Budget(g)
    ensures Rank(h) < Rank(g)
  {
    hide Handle, InOrder, LoopsEarly, WorkS4;
    if n.num < 90 {
      ForwardS04(n, g, h, x);
      RankForward(g, h);
    } else {
      KeysAreFresh(g);
      VerifiedIsHere(c, g, h, e, x);
      if h.pc.node.stage <= 4 {
        FailureBumps(c, g, h, e, x);
        RankNewPass(g, h);
      } else {
        GateKeepsCounter(c, g, h, e, x);
        RankForward(g, h);
      }
    }
  }

  lemma GateKeepsCounter(c: Case, g: Config, h: Config, e: Env, x: Execution)
    requires Ran(c, Node(4, 90), g, h, e, x) && WorkS4(g.st, 90) && h.pc == At(Node(5, 10))
    ensures h.st.attempts == g.st.attempts
  {
    assert Ok(x) == HandleS04(c, 90, g.st, e);
    assert Ok(x) == SealVerification(c, g.st, e);
  }

  lemma RankS690(g: Config, h: Config, x: Execution)
    requires Moved(Node(6, 90), g, h, x) && InLoop(h.pc) && Budget(g) && NewPassClean(g)
    ensures Rank(h) < Rank(g)
  {
    ForwardS06(Node(6, 90), g, h, x);
    RankNewPass(g, h);
  }

  lemma RankS6(c: Case, n: Node, g: Config, h: Config, e: Env, x: Execution)
    requires Moved(n, g, h, x) && Fair(c, n, g, e, x) && n.stage == 6 && InLoop(h.pc)
    requires InOrder(g) && LoopsEarly(g) && Work(c, g) && Linked(c, g.st.arts) && Budget(g) && NewPassClean(g)
    ensures Rank(h) < Rank(g)
  {
    hide Handle, InOrder, LoopsEarly, Linked, WorkS3, WorkS4, WorkS5, WorkS6, Shape, Updated;
    if n == Node(6, 90) {
      RankS690(g, h, x);
    } else {
      KeysAreFresh(g);
      WorkFromS6(c, n.num, g, h, e, x);
      if n == Node(6, 80) {
        DecisionIsSealed(c, g, h, e, x);
      } else {
        UntouchedS6(c, n.num, g, h, e, x);
      }
      RankForward(g, h);
    }
  }

  lemma RankDrops(c: Case, n: Node, g: Config, h: Config, e: Env, x: Execution)
    requires Moved(n, g, h, x) && Fair(c, n, g, e, x) && Order(g) && Work(c, g) && Linked(c, g.st.arts)
    requires !Stuck(h)
    ensures Rank(h) < Rank(g)
  {
    hide Handle, InOrder, LoopsEarly, NewPassClean, NotYet, Budget, SelectionPass, PlanKeys, S01Recorded, Work, Linked, Shape, Updated, Rank;
    if n.stage <= 2 {
      if n == Node(2, 10) && g.st.excluded != {} {
        NoSelectionAfterRevert(c, g, e);
      }
      RankInOpening(n, g, h, x);
    } else if n.stage == 7 {
      RankFromS7(n, g, h, x);
    } else if !InLoop(h.pc) {
      if h.pc.At? && h.pc.node.stage <= 2 {
        BackFromS690(c, n, g, h, e, x);
      }
      RankLeaving(n, g, h, x);
    } else if n.stage == 4 {
      RankS4(c, n, g, h, e, x);
    } else if n.stage == 6 {
      RankS6(c, n, g, h, e, x);
    } else {
      RankS35(n, g, h, x);
    }
  }

  // ---- Whole runs ------------------------------------------------------------------------------------------------

  lemma StuckOnRecord(c: Case, g: Config)
    requires Stuck(g) && LoopFacts(c, g) && LoopsEarly(g) && Catalogued(g.pc.node)
    ensures KeyOf(g.pc.node, g.st) in g.ledger
  {
    if g.pc.node.stage == 3 {
      assert Continues(g.ledger, g.pc.node.num, g.st.attempts);
    }
  }

  lemma InvStuck(c: Case, g: Config)
    requires Inv(c, g) && Stuck(g)
    ensures LoopFacts(c, g) && LoopsEarly(g) && Books(g) && g.st.attempts < MAX_PHASE_REPAIRS
  {
  }

  lemma StuckMoves(c: Case, g: Config, e: Env)
    requires LoopFacts(c, g) && LoopsEarly(g) && Books(g) && g.st.attempts < MAX_PHASE_REPAIRS && Stuck(g)
    requires KeyOf(g.pc.node, g.st) in g.ledger
    ensures Stuck(Step(c, g, e)) && Step(c, g, e).ledger == g.ledger && Step(c, g, e).st.attempts == g.st.attempts
  {
    var x := g.ledger[KeyOf(g.pc.node, g.st)];
    StepMoved(c, g, e, x);
    LoopGoesOn(c, g.pc.node, g, Step(c, g, e), x);
  }

  lemma StuckStep(c: Case, g: Config, e: Env)
    requires Inv(c, g) && Stuck(g)
    ensures Stuck(Step(c, g, e)) && Step(c, g, e).ledger == g.ledger && Step(c, g, e).st.attempts == g.st.attempts
  {
    InvStuck(c, g);
    StuckOnRecord(c, g);
    StuckMoves(c, g, e);
  }

  ghost predicate StuckSince(c: Case, g: Config, h: Config) {
    Inv(c, h) && Stuck(h) && h.ledger == g.ledger && h.st.attempts == g.st.attempts
  }

  lemma StuckOn(c: Case, g: Config, h: Config, e: Env)
    requires StuckSince(c, g, h)
    ensures StuckSince(c, g, Step(c, h, e))
  {
    InvStep(c, h, e);
    StuckStep(c, h, e);
  }

  // A pass that repeats itself does so for ever: whatever the outside world answers from then on, no
  // handler runs, nothing is recorded and the counter that bounds the loop stands still.
  lemma {:induction false} RepetitionNeverEnds(c: Case, g: Config, es: seq<Env>)
    requires StuckSince(c, g, g)
    ensures StuckSince(c, g, Run(c, g, es))
    decreases |es|
  {
    if |es| > 0 {
      RepetitionNeverEnds(c, g, es[..|es| - 1]);
      StuckOn(c, g, Run(c, g, es[..|es| - 1]), es[|es| - 1]);
    }
  }

  const STEPS: nat := 6090

  lemma RankStep(c: Case, g: Config, e: Env)
    requires Inv(c, g) && g.pc.At? && !Stuck(Step(c, g, e))
    ensures Rank(Step(c, g, e)) < Rank(g)
  {
    hide Books, Linked, Work, Order, Repeating, Story, Stuck, Rank;
    var r := Result(c, g.pc.node, g, e);
    if r.Ok? {
      hide Step;
      StepMoved(c, g, e, r.value);
      NeverClashes(c, g, e, r.value);
      RankDrops(c, g.pc.node, g, Step(c, g, e), e, r.value);
    } else {
      RankRaised(c, g, e);
    }
  }

  lemma RankRaised(c: Case, g: Config, e: Env)
    requires Books(g) && Order(g) && g.pc.At? && Result(c, g.pc.node, g, e).Raised?
    ensures Rank(Step(c, g, e)) < Rank(g)
  {
    hide KeysOk, CompletedRan, SealsKept, ArtsRecorded, InOrder, LoopsEarly, NewPassClean, NotYet, Budget, SelectionPass, PlanKeys, S01Recorded;
    assert Step(c, g, e).pc == Aborted;
    RankPositive(g);
  }

  lemma RankPositive(g: Config)
    requires Placed(g.pc) && g.pc.At? && OneExit(g)
    ensures Rank(g) > 0
  {
  }

  lemma {:induction false} Countdown(c: Case, es: seq<Env>)
    ensures var g := Run(c, Start(map[]), es);
            g.pc.At? && !Stuck(g) ==> Rank(g) + |es| <= STEPS
  {
    if |es| > 0 {
      var was := Run(c, Start(map[]), es[..|es| - 1]);
      Countdown(c, es[..|es| - 1]);
      InvAlways(c, es[..|es| - 1]);
      if was.pc.At? {
        if Stuck(was) {
          StuckStep(c, was, es[|es| - 1]);
        } else if !Stuck(Step(c, was, es[|es| - 1])) {
          RankStep(c, was, es[|es| - 1]);
        }
      }
    }
  }

  // The documentation has all loops bounded. They are, except for that repetition: a run longer than the
  // bound is still going exactly when a pass of it repeats itself.
  lemma StopsUnlessRepeating(c: Case, es: seq<Env>)
    requires |es| > STEPS
    ensures Run(c, Start(map[]), es).pc.At? <==> Stuck(Run(c, Start(map[]), es))
  {
    Countdown(c, es);
  }

  // ---- When a repetition starts -----------------------------------------------------------------------------------

  lemma EndedMeansVerified(c: Case, arts: Arts, m: nat) returns (v: ArtKey)
    requires Linked(c, arts) && (FixAt(arts, m) || FailedAt(arts, m))
    ensures v in arts && v.kind == Verification && v.pass == m
  {
    if FixAt(arts, m) {
      var a :| a in arts && a.kind == Decision && a.pass == m && IsFix(arts[a]);
      FixedPhasePassed(c, arts, a);
      v := ArtKey(Verification, a.phase, m);
    } else {
      v :| v in arts && v.kind == Verification && v.pass == m && IsFailure(arts[v]);
    }
  }

  // Once a pass is over, S04.90 has completed.
  lemma VerifiedBefore(c: Case, g: Config)
    requires KeysOk(g) && ArtsRecorded(g.ledger, g.st.arts) && Linked(c, g.st.arts) && PassEnds(g) && g.st.attempts >= 1
    ensures Node(4, 90) in g.st.completed
  {
    var v := EndedMeansVerified(c, g.st.arts, 0);
    assert Origin(v) == NodeKey(Node(4, 90), 0);
  }

  lemma S0410Result(c: Case, st: State, e: Env)
    ensures Handle(c, Node(4, 10), st, e) ==
            if e.fails || Here(st, Patch).None? || st.plans.None? then Raised
            else Ok(Execution(if e.workspace then Continue else Rejected, NOTHING.(manifest := Some(Manifest({}, None)), checks := Some([]))))
  {
    if !e.fails {
      assert Handle(c, Node(4, 10), st, e) == HandleS04(c, 10, st, e);
    }
  }

  lemma S0410Stops(g: Config, h: Config, x: Execution)
    requires Moved(Node(4, 10), g, h, x) && g.st.attempts < MAX_PHASE_REPAIRS && x.route != Continue
    ensures InLoop(h.pc) <==> Node(4, 90) in g.st.completed
    ensures Looping(h)
  {
  }

  lemma S0410Goes(g: Config, h: Config, x: Execution)
    requires Moved(Node(4, 10), g, h, x) && x.route == Continue && !Looping(g)
    ensures !Looping(h)
  {
  }

  lemma OnsetRan(c: Case, g: Config, e: Env, x: Execution)
    requires Books(g) && KeyOf(Node(4, 10), g.st) !in g.ledger && g.pc == At(Node(4, 10)) && !Looping(g)
    requires g.st.attempts < MAX_PHASE_REPAIRS && Handle(c, Node(4, 10), g.st, e) == Ok(x)
    ensures Stuck(Step(c, g, e)) <==> x.route != Continue && Node(4, 90) in g.st.completed
  {
    RunsTo(c, g, e, x);
    if x.route == Continue {
      S0410Goes(g, Step(c, g, e), x);
    } else {
      S0410Stops(g, Step(c, g, e), x);
    }
  }

  lemma InvAtS0410(c: Case, g: Config)
    requires Inv(c, g) && g.pc == At(Node(4, 10)) && !Looping(g)
    ensures Books(g) && KeyOf(Node(4, 10), g.st) !in g.ledger && g.st.attempts < MAX_PHASE_REPAIRS && g.st.plans.Some?
    ensures Node(4, 90) in g.st.completed <==> g.st.attempts >= 1
  {
    KeysAreFresh(g);
    CompletedEarlier(g);
    if g.st.attempts >= 1 {
      VerifiedBefore(c, g);
    }
  }

  // Exactly when: S04.10 of any pass but the first finds this pass's patch and no workspace. In the first
  // pass the same answer ends the run, as it is meant to.
  lemma RepetitionStartsWhen(c: Case, g: Config, e: Env)
    requires Reached(c, g) && g.pc.At? && !Stuck(g)
    ensures Stuck(Step(c, g, e)) <==>
            g.pc == At(Node(4, 10)) && !e.fails && Here(g.st, Patch).Some? && !e.workspace && g.st.attempts >= 1
  {
    ReachedInv(c, g);
    if g.pc == At(Node(4, 10)) {
      InvAtS0410(c, g);
      S0410Result(c, g.st, e);
      var r := Handle(c, Node(4, 10), g.st, e);
      if r.Ok? {
        OnsetRan(c, g, e, r.value);
      }
    } else {
      NoOnsetElsewhere(c, g, e);
    }
  }

  lemma NoOnsetElsewhere(c: Case, g: Config, e: Env)
    requires Inv(c, g) && g.pc.At? && !Stuck(g) && g.pc != At(Node(4, 10))
    ensures !Stuck(Step(c, g, e))
  {
    var r := Result(c, g.pc.node, g, e);
    if r.Ok? {
      StepMoved(c, g, e, r.value);
      NotLooping(g.pc.node, g, Step(c, g, e), r.value);
    }
  }

  // ---- Revert ----------------------------------------------------------------------------------------------------------

  // What is left of the invariant once a strategy is excluded.
  ghost predicate Reverted(g: Config) {
    && g.st.excluded != {} && g.pc.At? && Catalogued(g.pc.node) && (g.pc.node.stage == 1 || g.pc == At(Node(2, 10)))
    && Books(g) && S01Recorded(g) && SelectionPass(g) && PlanKeys(g)
  }

  lemma InvReverted(c: Case, g: Config)
    requires Inv(c, g) && g.st.excluded != {} && g.pc.At? && (g.pc.node.stage == 1 || g.pc == At(Node(2, 10)))
    ensures Reverted(g)
  {
  }

  lemma RevertedS01(c: Case, g: Config, e: Env)
    requires Reverted(g) && g.pc.node.stage == 1
    ensures var h := Step(c, g, e);
            h.pc == (if g.pc.node.num == 90 then At(Node(2, 10)) else At(Following(g.pc.node))) && h.st.excluded != {}
  {
    var n := g.pc.node;
    var x := g.ledger[NodeKey(n, 0)];
    assert n == Node(1, n.num) && KeyOf(n, g.st) == NodeKey(n, 0);
    hide SelectionPass, PlanKeys;
    StepMoved(c, g, e, x);
  }

  lemma RevertedS02(c: Case, g: Config, e: Env)
    requires Reverted(g) && g.pc == At(Node(2, 10))
    ensures Step(c, g, e).pc == Aborted
  {
    NoSelectionAfterRevert(c, g, e);
  }

  function Left(n: Node): nat { if n.stage == 2 then 1 else if n.stage == 1 && n.num <= 90 then 11 - n.num / 10 else 0 }

  lemma OneStepFirst(c: Case, g: Config, es: seq<Env>)
    requires |es| > 0
    ensures Run(c, g, es) == Run(c, Step(c, g, es[0]), es[1..])
  {
    assert es == [es[0]] + es[1..];
    RunSplits(c, g, [es[0]], es[1..]);
    assert [es[0]][..0] == [];
    assert Run(c, g, [es[0]]) == Step(c, g, es[0]);
  }

  // The documentation has REVERT select another strategy. It never can: S01's keys carry no pass, so S01
  // replays its first selection, and S02.10 then looks for the selection of a pass that never ran. Back at
  // S01 after a revert, every run raises at S02.10.
  lemma {:induction false} RevertAborts(c: Case, g: Config, es: seq<Env>)
    requires Inv(c, g) && g.st.excluded != {} && g.pc.At? && (g.pc.node.stage == 1 || g.pc == At(Node(2, 10)))
    requires |es| >= Left(g.pc.node)
    ensures Run(c, g, es).pc == Aborted
    decreases |es|
  {
    hide Inv, Run, Step;
    InvReverted(c, g);
    hide Books, S01Recorded, SelectionPass, PlanKeys;
    OneStepFirst(c, g, es);
    var h := Step(c, g, es[0]);
    if g.pc == At(Node(2, 10)) {
      RevertedS02(c, g, es[0]);
      AbortedStays(c, h, es[1..]);
    } else {
      RevertedS01(c, g, es[0]);
      InvStep(c, g, es[0]);
      RevertAborts(c, h, es[1..]);
    }
  }

  lemma {:induction false} AbortedStays(c: Case, g: Config, es: seq<Env>)
    requires !g.pc.At?
    ensures Run(c, g, es) == g
    decreases |es|
  {
    if |es| > 0 {
      AbortedStays(c, g, es[..|es| - 1]);
    }
  }

  lemma OutsideTheLoop(g: Config)
    requires g.pc.At? && Catalogued(g.pc.node) && OneExit(g) && g.st.excluded != {}
    ensures g.pc.node.stage == 1 || g.pc == At(Node(2, 10)) || RevertPending(g)
  {
  }

  // And a revert leads nowhere else.
  lemma RevertLeadsToS01(c: Case, g: Config)
    requires Reached(c, g) && g.st.excluded != {} && g.pc.At?
    ensures g.pc.node.stage == 1 || g.pc == At(Node(2, 10)) || RevertPending(g)
  {
    hide Reached, Linked, Work, Repeating, Story, KeysOk, CompletedRan, SealsKept, ArtsRecorded,
         InOrder, LoopsEarly, NewPassClean, NotYet, OneExit, Budget, SelectionPass, PlanKeys, S01Recorded, Catalogued;
    ReachedInv(c, g);
    OutsideTheLoop(g);
  }

  // ---- The repair budget -------------------------------------------------------------------------------------------------

  // A step that goes back to S03 to open a new pass.
  ghost predicate BackEdge(g: Config, h: Config) {
    InLoop(g.pc) && h.pc == At(Node(3, 10)) && !Looping(h)
  }

  ghost function BackEdges(c: Case, es: seq<Env>): nat {
    if |es| == 0 then 0 else
    var g := Run(c, Start(map[]), es[..|es| - 1]);
    BackEdges(c, es[..|es| - 1]) + if BackEdge(g, Step(c, g, es[|es| - 1])) then 1 else 0
  }

  // Both failure classes draw on one counter: going back costs exactly one, and nothing gives it back.
  lemma PassMoves(c: Case, n: Node, g: Config, h: Config, e: Env, x: Execution)
    requires Moved(n, g, h, x) && Fair(c, n, g, e, x) && Order(g) && Work(c, g) && Linked(c, g.st.arts)
    ensures PassOf(h) >= PassOf(g) + if BackEdge(g, h) then 1 else 0
  {
    hide Linked, Fair;
    AttemptsMove(n, g, h, x);
    if h.pc == At(Node(6, 90)) {
      SealedBump(c, n, g, h, e, x);
    } else if n == Node(4, 90) {
      FailBump(c, g, h, e, x);
    } else if BackEdge(g, h) {
      BackFrom(c, n, g, h, e, x);
    }
  }

  lemma SealedBump(c: Case, n: Node, g: Config, h: Config, e: Env, x: Execution)
    requires Moved(n, g, h, x) && Fair(c, n, g, e, x) && InOrder(g) && LoopsEarly(g) && Work(c, g) && h.pc == At(Node(6, 90))
    ensures PassOf(h) == g.st.attempts && !FixPending(g)
  {
    SealedDecision(c, n, g, h, e, x);
    DecisionIsSealed(c, g, h, e, x);
  }

  lemma FailBump(c: Case, g: Config, h: Config, e: Env, x: Execution)
    requires Moved(Node(4, 90), g, h, x) && Fair(c, Node(4, 90), g, e, x) && InOrder(g) && LoopsEarly(g) && Work(c, g)
    ensures h.pc == At(Node(3, 10)) ==> h.st.attempts == g.st.attempts + 1
  {
    KeysAreFresh(g);
    if h.pc == At(Node(3, 10)) {
      FailureBumps(c, g, h, e, x);
    }
  }

  lemma BackFrom(c: Case, n: Node, g: Config, h: Config, e: Env, x: Execution)
    requires Moved(n, g, h, x) && Fair(c, n, g, e, x) && InOrder(g) && LoopsEarly(g) && NewPassClean(g) && Work(c, g) && Linked(c, g.st.arts)
    requires BackEdge(g, h) && n != Node(4, 90)
    ensures FixPending(g) && g.st.attempts >= 1 && h.st.attempts == g.st.attempts
  {
    if n.stage == 4 {
      ForwardS04(n, g, h, x);
    } else if n.stage == 6 {
      if n == Node(6, 10) {
        S06Continues(c, n, g, e, x);
      }
      ForwardS06(n, g, h, x);
    } else {
      Forward(n, g, h, x);
    }
  }

  lemma PassStep(c: Case, g: Config, e: Env)
    requires Inv(c, g) && Inv(c, Step(c, g, e))
    ensures PassOf(Step(c, g, e)) >= PassOf(g) + if BackEdge(g, Step(c, g, e)) then 1 else 0
    ensures BackEdge(g, Step(c, g, e)) ==> PassOf(Step(c, g, e)) <= MAX_PHASE_REPAIRS - 1
  {
    hide Handle, KeysOk, CompletedRan, SealsKept, ArtsRecorded, Linked, Work, Repeating, Story,
         InOrder, LoopsEarly, NewPassClean, NotYet, OneExit, SelectionPass, PlanKeys, S01Recorded;
    if g.pc.At? {
      var r := Result(c, g.pc.node, g, e);
      if r.Ok? {
        StepMoved(c, g, e, r.value);
        NeverClashes(c, g, e, r.value);
        PassMoves(c, g.pc.node, g, Step(c, g, e), e, r.value);
      }
    }
  }

  // Whatever mixture of failed verifications and FIX_ONE_PART decisions a run goes through, it goes back
  // to S03 for a new pass at most four times.
  lemma {:induction false} AtMostFourRepairs(c: Case, es: seq<Env>)
    ensures BackEdges(c, es) <= PassOf(Run(c, Start(map[]), es))
    ensures BackEdges(c, es) <= MAX_PHASE_REPAIRS - 1
  {
    hide Inv, Start, Step, BackEdge, PassOf;
    if |es| > 0 {
      var init, e := es[..|es| - 1], es[|es| - 1];
      AtMostFourRepairs(c, init);
      InvAlways(c, init);
      InvAlways(c, es);
      PassStep(c, Run(c, Start(map[]), init), e);
    }
  }
}
