// The invariant of the whole workflow: it holds at the start and every step keeps it, so it holds of
// every configuration any run reaches.

module Reachable {
  import opened Machine
  import opened Bookkeeping
  import opened Passes
  import opened Evidence
  import opened Progress
  import opened Repeats
  import opened Invariant
  import opened Planning
  import opened Measurements
  import opened Outcomes
  import opened Reporting
  import opened History

  // What makes one step follow from the last: the books, the documents, the working state and the order of nodes.
  ghost predicate Core(c: Case, g: Config) {
    Books(g) && Linked(c, g.st.arts) && Work(c, g) && Order(g) && Repeating(c, g)
  }

  // What the earlier passes, the plan and the report have to do with one another.
  ghost predicate Story(c: Case, g: Config) {
    Ends(c, g) && Tail(c, g) && Retry(c, g) && Plotted(g) && Sampled(c, g) && Retried(g.st.arts)
  }

  ghost predicate Inv(c: Case, g: Config) { Core(c, g) && Story(c, g) }

  lemma InvStart(c: Case)
    ensures Inv(c, Start(map[]))
  {
  }

  lemma InOrderStep(c: Case, n: Node, g: Config, h: Config, e: Env, x: Execution)
    requires Moved(n, g, h, x) && Fair(c, n, g, e, x) && Books(g) && Order(g) && Work(c, g) && Linked(c, g.st.arts)
    ensures InOrder(h) && LoopsEarly(h)
  {
    hide Books, Work, Linked, Handle, Updated, Shape, NewPassClean, NotYet, OneExit, Budget, SelectionPass, PlanKeys, S01Recorded;
    if InLoop(g.pc) && InLoop(h.pc) {
      OrderInLoop(c, n, g, h, e, x);
    } else if n.stage <= 2 {
      OrderEntered(n, g, h, x);
    }
  }

  lemma OrderStep(c: Case, n: Node, g: Config, h: Config, e: Env, x: Execution)
    requires Moved(n, g, h, x) && Fair(c, n, g, e, x) && Books(g) && Order(g) && Work(c, g) && Linked(c, g.st.arts)
    ensures Order(h)
  {
    InOrderStep(c, n, g, h, e, x);
    NewPassStep(c, n, g, h, e, x);
    NotYetStep(c, n, g, h, e, x);
    OneExitStep(c, n, g, h, e, x);
    BudgetStep(c, n, g, h, e, x);
    SelectionStep(c, n, g, h, e, x);
    PlanStep(c, n, g, h, e, x);
    S01Step(n, g, h, x);
  }

  lemma LoopFactsStep(c: Case, n: Node, g: Config, h: Config, e: Env, x: Execution)
    requires Moved(n, g, h, x) && Fair(c, n, g, e, x) && Books(g) && Order(g) && Work(c, g) && Linked(c, g.st.arts) && Repeating(c, g)
    ensures LoopFacts(c, h)
  {
    hide KeysOk, CompletedRan, ArtsRecorded, Work, Linked, Handle, Updated, Shape, LoopFacts, Prefix, PrefixHere, EnteredS04, PhaseKnown,
         InOrder, LoopsEarly, NewPassClean, NotYet, OneExit, SelectionPass, PlanKeys, S01Recorded;
    if InLoop(h.pc) && Looping(h) {
      AttemptsMove(n, g, h, x);
      if InLoop(g.pc) && Looping(g) && n != Node(6, 90) {
        LoopGoesOn(c, n, g, h, x);
      } else if n == Node(4, 10) {
        LoopBegins(c, g, h, e, x);
      } else {
        NotLooping(n, g, h, x);
      }
    } else {
      NoLoopNoFacts(c, h);
    }
  }

  lemma NoLoopNoFacts(c: Case, h: Config)
    requires !(InLoop(h.pc) && Looping(h))
    ensures LoopFacts(c, h)
  {
  }

  lemma LoopBegins(c: Case, g: Config, h: Config, e: Env, x: Execution)
    requires Moved(Node(4, 10), g, h, x) && Fair(c, Node(4, 10), g, e, x) && Books(g) && InOrder(g) && LoopsEarly(g)
    requires Linked(c, g.st.arts) && Repeating(c, g) && !Looping(g) && InLoop(h.pc) && Looping(h)
    ensures LoopFacts(c, h)
  {
    KeysAreFresh(g);
    QuietS04(g, h, x);
    RecordedAtS04(c, g, e, x);
    IntakeS04(c, g, h, e, x);
    CompletedEarlier(g);
    assert Continues(g.ledger, 10, g.st.attempts) by { assert Catalogued(Node(3, 10)); }
    LoopStarts(c, g, h, x);
  }

  lemma NotLoopingYet(n: Node, g: Config, h: Config, x: Execution)
    requires Moved(n, g, h, x) && NotYet(g) && OneExit(g) && n.stage <= 2
    ensures !(InLoop(h.pc) && Looping(h))
  {
    var k := NodeKey(Node(4, 10), h.st.attempts);
    assert k in h.ledger <==> k in g.ledger;
  }

  lemma NotLoopingAfterFix(g: Config, h: Config, x: Execution)
    requires Moved(Node(6, 90), g, h, x) && NewPassClean(g)
    ensures !(InLoop(h.pc) && Looping(h))
  {
    if InLoop(h.pc) {
      ForwardS06(Node(6, 90), g, h, x);
      var k := NodeKey(Node(4, 10), h.st.attempts);
      assert Inner(k) && (k in h.ledger <==> k in g.ledger);
    }
  }

  lemma NotLoopingWithin(n: Node, g: Config, h: Config, x: Execution)
    requires Moved(n, g, h, x) && Books(g) && InLoop(g.pc) && n != Node(4, 10) && !Looping(g)
    ensures !Looping(h)
  {
    AttemptsMove(n, g, h, x);
    if h.st.attempts == g.st.attempts + 1 {
      NewPassInOrder(g, h, x);
    }
  }

  lemma NotLooping(n: Node, g: Config, h: Config, x: Execution)
    requires Moved(n, g, h, x) && Books(g) && NotYet(g) && OneExit(g) && NewPassClean(g) && n != Node(4, 10)
    requires !(InLoop(g.pc) && Looping(g) && n != Node(6, 90))
    ensures !(InLoop(h.pc) && Looping(h))
  {
    if n.stage <= 2 {
      NotLoopingYet(n, g, h, x);
    } else if n == Node(6, 90) {
      NotLoopingAfterFix(g, h, x);
    } else if n.stage <= 6 {
      NotLoopingWithin(n, g, h, x);
    }
  }

  lemma PhaseKnownStep(c: Case, n: Node, g: Config, h: Config, e: Env, x: Execution)
    requires Moved(n, g, h, x) && Fair(c, n, g, e, x) && Books(g) && Order(g) && Work(c, g) && Linked(c, g.st.arts) && PhaseKnown(c, g)
    ensures PhaseKnown(c, h)
  {
    hide Handle, Updated, Shape, Books, Work, Linked, InOrder, LoopsEarly, NewPassClean, NotYet, OneExit, Budget, SelectionPass, PlanKeys, S01Recorded;
    if n == Node(3, 10) {
      PhaseKnownFromPick(c, g, h, e, x);
    } else if 3 <= n.stage <= 4 && n != Node(4, 90) {
      PhaseKnownWithin(c, n, g, h, x);
    } else if InLoop(h.pc) && h.pc.node.stage <= 4 {
      if n.stage == 5 || n.stage == 7 {
        NeverBack(n, g, h, x);
      } else {
        PickNotRecorded(c, n, g, h, e, x);
        PhaseKnownInNewPass(c, h);
      }
    }
  }

  lemma PickNotRecordedYet(n: Node, g: Config, h: Config, x: Execution)
    requires Moved(n, g, h, x) && NotYet(g) && OneExit(g) && n.stage <= 2 && InLoop(h.pc)
    ensures NodeKey(Node(3, 10), h.st.attempts) !in h.ledger
  {
    var k := NodeKey(Node(3, 10), h.st.attempts);
    assert k in h.ledger <==> k in g.ledger;
  }

  lemma PickAfterFailure(c: Case, g: Config, h: Config, e: Env, x: Execution)
    requires Moved(Node(4, 90), g, h, x) && Fair(c, Node(4, 90), g, e, x) && Books(g) && InOrder(g) && LoopsEarly(g)
    requires WorkS4(g.st, 90) && InLoop(h.pc) && h.pc.node.stage <= 4
    ensures NodeKey(Node(3, 10), h.st.attempts) !in h.ledger
  {
    KeysAreFresh(g);
    FailureBumps(c, g, h, e, x);
    NewPassInOrder(g, h, x);
  }

  lemma PickAfterFix(n: Node, g: Config, h: Config, x: Execution)
    requires Moved(n, g, h, x) && n.stage == 6 && NewPassClean(g) && InLoop(h.pc) && h.pc.node.stage <= 4
    requires n == Node(6, 10) ==> x.route == Continue
    ensures NodeKey(Node(3, 10), h.st.attempts) !in h.ledger
  {
    ForwardS06(n, g, h, x);
    assert Inner(NodeKey(Node(3, 10), g.st.attempts));
  }

  // Entering S03 from anywhere but a repeating pass starts a pass with nothing on record.
  lemma PickNotRecorded(c: Case, n: Node, g: Config, h: Config, e: Env, x: Execution)
    requires Moved(n, g, h, x) && Fair(c, n, g, e, x) && Books(g) && Work(c, g) && Linked(c, g.st.arts)
    requires InOrder(g) && LoopsEarly(g) && NotYet(g) && OneExit(g) && NewPassClean(g)
    requires (n.stage <= 2 || n == Node(4, 90) || n.stage == 6) && InLoop(h.pc) && h.pc.node.stage <= 4
    ensures NodeKey(Node(3, 10), h.st.attempts) !in h.ledger
  {
    if n.stage <= 2 {
      PickNotRecordedYet(n, g, h, x);
    } else if n.stage == 4 {
      PickAfterFailure(c, g, h, e, x);
    } else {
      if n == Node(6, 10) {
        S06Continues(c, n, g, e, x);
      }
      PickAfterFix(n, g, h, x);
    }
  }

  lemma RepeatingStep(c: Case, n: Node, g: Config, h: Config, e: Env, x: Execution)
    requires Moved(n, g, h, x) && Fair(c, n, g, e, x) && Books(g) && Order(g) && Work(c, g) && Linked(c, g.st.arts) && Repeating(c, g)
    ensures Repeating(c, h)
  {
    PrefixStep(n, g, h, x);
    PrefixHereStep(n, g, h, x);
    EnteredS04Step(c, n, g, h, x);
    PhaseKnownStep(c, n, g, h, e, x);
    LoopFactsStep(c, n, g, h, e, x);
  }

  lemma EndsStep(c: Case, n: Node, g: Config, h: Config, e: Env, x: Execution)
    requires Moved(n, g, h, x) && Fair(c, n, g, e, x) && Books(g) && Order(g) && Work(c, g) && Linked(c, g.st.arts) && Ends(c, g)
    ensures Ends(c, h)
  {
    PassEndsStep(c, n, g, h, e, x);
    ApplyKeyStep(c, n, g, h, e, x);
    ApplyHereStep(c, n, g, h, e, x);
    PromotedStep(c, n, g, h, e, x);
    NeverAgainStep(c, n, g, h, e, x);
  }

  lemma WorkInCircle(c: Case, h: Config)
    requires InLoop(h.pc) && Catalogued(h.pc.node) && Looping(h) && LoopFacts(c, h) && Pos(h.pc.node) <= 410
    ensures Work(c, h)
  {
    assert h.pc.node.stage == 3 || h.pc == At(Node(4, 10));
  }

  // A replay inside S03 or at S04.10 happens only in a repeating pass, which keeps what it had.
  lemma WorkOnReplay(c: Case, n: Node, g: Config, h: Config, x: Execution)
    requires Moved(n, g, h, x) && InLoop(g.pc) && KeyOf(n, g.st) in g.ledger && n != Node(6, 90)
    requires SealsKept(g.ledger, g.st.arts) && InOrder(g) && LoopsEarly(g) && Budget(g) && LoopFacts(c, g)
    ensures Work(c, h)
  {
    KeysAreFresh(g);
    LoopGoesOn(c, n, g, h, x);
    NextPlaced(n, h.st);
    WorkInCircle(c, h);
  }

  lemma WorkOnRun(c: Case, n: Node, g: Config, h: Config, e: Env, x: Execution)
    requires Ran(c, n, g, h, e, x) && InLoop(g.pc) && n != Node(6, 90) && Work(c, g) && Linked(c, g.st.arts)
    ensures Work(c, h)
  {
    if n.stage == 3 {
      WorkFromS3(c, n.num, g, h, e, x);
    } else if n.stage == 4 {
      WorkFromS4(c, n.num, g, h, e, x);
    } else if n.stage == 5 {
      WorkFromS5(c, n.num, g, h, e, x);
    } else {
      WorkFromS6(c, n.num, g, h, e, x);
    }
  }

  lemma WorkStep(c: Case, n: Node, g: Config, h: Config, e: Env, x: Execution)
    requires Moved(n, g, h, x) && Fair(c, n, g, e, x) && Books(g) && Order(g) && Work(c, g) && Linked(c, g.st.arts) && LoopFacts(c, g)
    ensures Work(c, h)
  {
    hide Linked, KeysOk, CompletedRan, SealsKept, ArtsRecorded, LoopFacts, Updated, Shape, InOrder, LoopsEarly, NewPassClean, NotYet, OneExit, SelectionPass, PlanKeys, S01Recorded;
    if n.stage <= 2 {
      if h.pc.At? { OpeningMoves(n, g, h, x); }
    } else if n == Node(6, 90) {
      WorkFromS690(c, g, h, x);
    } else if n.stage == 7 {
      WorkFromS7(c, n.num, g, h, x);
    } else if KeyOf(n, g.st) in g.ledger {
      WorkOnReplay(c, n, g, h, x);
    } else {
      WorkOnRun(c, n, g, h, e, x);
    }
  }

  lemma CoreMove(c: Case, n: Node, g: Config, h: Config, e: Env, x: Execution)
    requires Moved(n, g, h, x) && Fair(c, n, g, e, x) && Core(c, g) && Books(h)
    ensures Core(c, h)
  {
    hide Handle, Moved, KeysOk, CompletedRan, ArtsRecorded, Work, Linked, Order, Prefix, PrefixHere, EnteredS04, PhaseKnown, LoopFacts;
    LinkedStep(c, n, g, h, e, x);
    WorkStep(c, n, g, h, e, x);
    OrderStep(c, n, g, h, e, x);
    RepeatingStep(c, n, g, h, e, x);
  }

  lemma StoryMove(c: Case, n: Node, g: Config, h: Config, e: Env, x: Execution)
    requires Moved(n, g, h, x) && Fair(c, n, g, e, x) && Core(c, g) && Story(c, g)
    ensures Story(c, h)
  {
    hide Fair, Moved, KeysOk, CompletedRan, SealsKept, ArtsRecorded, Work, Linked, Repeating, Ends, Tail, Retry, Plotted, Sampled, Retried,
         InOrder, LoopsEarly, NewPassClean, NotYet, OneExit, Budget, SelectionPass, PlanKeys, S01Recorded;
    EndsStep(c, n, g, h, e, x);
    TailStep(c, n, g, h, e, x);
    RetryStep(c, n, g, h, e, x);
    PlottedStep(c, n, g, h, e, x);
    SampledStep(c, n, g, h, e, x);
    RetriedStep(c, n, g, h, e, x);
  }

  lemma InvMove(c: Case, g: Config, e: Env, x: Execution)
    requires Inv(c, g) && Moves(c, g, e, x)
    ensures Inv(c, Step(c, g, e))
  {
    hide Handle, Step, Books, Linked, Work, Order, Repeating, Story, Moved;
    var n, h := g.pc.node, Step(c, g, e);
    StepMoved(c, g, e, x);
    NeverClashes(c, g, e, x);
    assert Fair(c, n, g, e, x);
    BooksMove(c, g, e, x);
    CoreMove(c, n, g, h, e, x);
    StoryMove(c, n, g, h, e, x);
  }

  // A node that raises ends the run where it stands.
  lemma BooksAborted(g: Config)
    requires Books(g)
    ensures Books(g.(pc := Aborted))
  {
  }

  lemma OrderAborted(g: Config)
    requires Order(g)
    ensures Order(g.(pc := Aborted))
  {
  }

  lemma RepeatingAborted(c: Case, g: Config)
    requires Repeating(c, g)
    ensures Repeating(c, g.(pc := Aborted))
  {
  }

  lemma EndsAborted(c: Case, g: Config)
    requires Ends(c, g) && Tail(c, g)
    ensures Ends(c, g.(pc := Aborted)) && Tail(c, g.(pc := Aborted))
  {
  }

  lemma InvAborted(c: Case, g: Config)
    requires Inv(c, g)
    ensures Inv(c, g.(pc := Aborted))
  {
    BooksAborted(g);
    OrderAborted(g);
    RepeatingAborted(c, g);
    EndsAborted(c, g);
  }

  lemma InvStep(c: Case, g: Config, e: Env)
    requires Inv(c, g)
    ensures Inv(c, Step(c, g, e))
  {
    if g.pc.At? {
      var r := Result(c, g.pc.node, g, e);
      if r.Ok? {
        InvMove(c, g, e, r.value);
      } else {
        InvAborted(c, g);
      }
    }
  }

  // Every configuration of every run.
  lemma {:induction false} InvAlways(c: Case, es: seq<Env>)
    ensures Inv(c, Run(c, Start(map[]), es))
  {
    if |es| == 0 {
      InvStart(c);
    } else {
      InvAlways(c, es[..|es| - 1]);
      InvStep(c, Run(c, Start(map[]), es[..|es| - 1]), es[|es| - 1]);
    }
  }
}
