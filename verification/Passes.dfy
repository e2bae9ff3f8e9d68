// The order in which one pass of the phase loop records its nodes, and when a pass can repeat itself.

module Passes {
  import opened Results
  import opened Decide
  import opened Machine
  import opened Bookkeeping

  function Pos(n: Node): nat { n.stage * 100 + n.num }

  predicate InLoop(pc: Pc) { pc.At? && 3 <= pc.node.stage <= 6 }

  // Nodes whose key names the pass they belong to. S06.90 is the exception: after a FIX_ONE_PART the
  // counter has already moved when it runs.
  predicate Inner(k: NodeKey) { 3 <= k.node.stage <= 6 && k.node != Node(6, 90) }

  // S04.10 of this pass was recorded as stopping the stage.
  ghost predicate Looping(g: Config) {
    var k := NodeKey(Node(4, 10), g.st.attempts);
    k in g.ledger && g.ledger[k].route != Continue
  }

  predicate FixPending(g: Config) { g.pc == At(Node(6, 90)) && g.st.verdict == Some(FixOnePart) }

  ghost predicate InOrder(g: Config) {
    InLoop(g.pc) ==>
      forall k :: k in g.ledger && Inner(k) && k.rev == g.st.attempts ==>
        Pos(k.node) < Pos(g.pc.node) || (Looping(g) && Pos(k.node) <= 410)
  }

  ghost predicate LoopsEarly(g: Config) {
    InLoop(g.pc) && Looping(g) ==> Pos(g.pc.node) <= 410
  }

  ghost predicate NewPassClean(g: Config) {
    FixPending(g) ==> g.st.attempts >= 1 && forall k :: k in g.ledger && Inner(k) ==> k.rev < g.st.attempts
  }

  // Before the loop is first entered nothing of it exists.
  ghost predicate NotYet(g: Config) {
    g.pc.At? && g.pc.node.stage <= 2 && g.st.excluded == {} ==>
      && g.st.attempts == 0 && g.st.phase == None
      && (forall k :: k in g.ledger ==> k.node.stage <= 2)
      && (g.pc.node.stage == 1 ==> forall k :: k in g.ledger ==> Pos(k.node) < Pos(g.pc.node))
  }

  predicate RevertPending(g: Config) { g.pc == At(Node(6, 90)) && g.st.verdict == Some(Revert) }

  // A revert excludes a strategy, and from then on the loop is never entered again.
  ghost predicate OneExit(g: Config) {
    && (g.st.excluded != {} && g.pc.At? ==> Pos(g.pc.node) <= 210 || RevertPending(g))
    && (RevertPending(g) ==> g.st.excluded != {})
  }

  ghost predicate Budget(g: Config) {
    InLoop(g.pc) ==> g.st.attempts <= if FixPending(g) then MAX_PHASE_REPAIRS else MAX_PHASE_REPAIRS - 1
  }

  // Only the first visit to S01 ever seals a selection.
  ghost predicate SelectionPass(g: Config) {
    forall a :: a in g.st.arts && a.kind == SelectedSolution ==> a == ArtKey(SelectedSolution, "", 0)
  }

  ghost predicate PlanKeys(g: Config) {
    && (forall k :: k in g.ledger && k.node == Node(2, 10) ==> k.rev == 0)
    && (g.pc.At? && Pos(g.pc.node) <= 220 && g.st.excluded == {} ==> g.st.planAttempts == 0)
    && (g.pc.At? && (Pos(g.pc.node) >= 290 || g.st.excluded != {}) ==> g.st.planAttempts >= 1)
  }

  // S01's recorded nodes all continue: those before the current one on the first visit, all of them after it.
  ghost predicate S01Recorded(g: Config) {
    forall m: nat :: g.pc.At? && Catalogued(Node(1, m)) && (Pos(g.pc.node) > Pos(Node(1, m)) || g.st.excluded != {}) ==>
      NodeKey(Node(1, m), 0) in g.ledger && g.ledger[NodeKey(Node(1, m), 0)].route == Continue
  }

  ghost predicate Order(g: Config) {
    && InOrder(g) && LoopsEarly(g) && NewPassClean(g) && NotYet(g) && OneExit(g) && Budget(g)
    && SelectionPass(g) && PlanKeys(g) && S01Recorded(g)
  }

  // A node of the loop other than S06.90 finds its key unused, so its handler really runs, except
  // while the pass is repeating itself.
  lemma KeysAreFresh(g: Config)
    requires InLoop(g.pc) && g.pc.node != Node(6, 90) && InOrder(g) && LoopsEarly(g)
    ensures KeyOf(g.pc.node, g.st) in g.ledger ==> Looping(g) && Pos(g.pc.node) <= 410
  {
    var k := KeyOf(g.pc.node, g.st);
    assert k.rev == g.st.attempts && Inner(k);
  }

  // ---- Steps inside the loop ---------------------------------------------------------------------

  lemma Forward(n: Node, g: Config, h: Config, x: Execution)
    requires Moved(n, g, h, x) && (n.stage == 3 || n.stage == 5) && InLoop(h.pc)
    ensures Pos(h.pc.node) > Pos(n) && (n.stage == 3 ==> Pos(h.pc.node) <= 410)
  {
  }

  lemma ForwardS04(n: Node, g: Config, h: Config, x: Execution)
    requires Moved(n, g, h, x) && n.stage == 4 && n.num < 90 && InLoop(h.pc)
    ensures if n == Node(4, 10) && x.route != Continue then h.pc == At(Node(3, 10)) else h.pc == At(Following(n))
  {
  }

  lemma ForwardS06(n: Node, g: Config, h: Config, x: Execution)
    requires Moved(n, g, h, x) && n.stage == 6 && InLoop(h.pc) && (n == Node(6, 10) ==> x.route == Continue)
    ensures Pos(h.pc.node) == Pos(n) + 10 || (FixPending(g) && h.pc == At(Node(3, 10)))
  {
  }

  // A step within the pass keeps its record in order.
  lemma KeepsOrder(g: Config, h: Config, x: Execution)
    requires InLoop(g.pc) && Catalogued(g.pc.node) && InLoop(h.pc) && h.st.attempts == g.st.attempts
    requires InOrder(g) && LoopsEarly(g) && NewPassClean(g)
    requires h.ledger == g.ledger[KeyOf(g.pc.node, g.st) := x]
    requires KeyOf(g.pc.node, g.st) in g.ledger ==> g.ledger[KeyOf(g.pc.node, g.st)] == x
    requires if g.pc.node == Node(4, 10) && x.route != Continue then h.pc == At(Node(3, 10))
             else Pos(h.pc.node) > Pos(g.pc.node) || (FixPending(g) && h.pc == At(Node(3, 10)))
    requires Pos(g.pc.node) < 410 ==> Pos(h.pc.node) <= 410
    ensures InOrder(h) && LoopsEarly(h)
  {
    var key := KeyOf(g.pc.node, g.st);
    assert key == NodeKey(g.pc.node, g.st.attempts);
    assert forall k :: k in h.ledger && k != key ==> k in g.ledger;
    assert Looping(h) ==> Looping(g) || (g.pc.node == Node(4, 10) && x.route != Continue);
    assert Looping(g) ==> Looping(h);
  }

  // A step that opens a new pass starts it with an empty record.
  lemma NewPassInOrder(g: Config, h: Config, x: Execution)
    requires Books(g) && g.pc.At? && h.st.attempts == g.st.attempts + 1
    requires 3 <= g.pc.node.stage <= 6
    requires h.ledger == g.ledger[KeyOf(g.pc.node, g.st) := x]
    ensures forall k :: k in h.ledger && 3 <= k.node.stage <= 6 ==> k.rev < h.st.attempts
    ensures InOrder(h) && LoopsEarly(h) && NewPassClean(h)
  {
    forall k | k in h.ledger && 3 <= k.node.stage <= 6 ensures k.rev < h.st.attempts {
      if k != KeyOf(g.pc.node, g.st) {
        assert k in g.ledger && RevBound(k, g.st);
      }
    }
  }
}
