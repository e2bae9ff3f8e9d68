// A pass that repeats itself: when S04.10 stops a stage that an earlier pass completed, the graph goes
// back to S03 without opening a new pass, and every node from S03.10 to S04.10 replays its record.

module Repeats {
  import opened Results
  import opened Machine
  import opened Bookkeeping
  import opened Passes
  import opened Evidence
  import opened Progress

  ghost predicate Continues(ledger: Ledger, m: nat, r: nat) {
    NodeKey(Node(3, m), r) in ledger && ledger[NodeKey(Node(3, m), r)].route == Continue
  }

  // S03's nodes are recorded in order, each because the one before continued.
  ghost predicate Prefix(ledger: Ledger) {
    forall k, m: nat :: k in ledger && k.node.stage == 3 && m < k.node.num && Catalogued(Node(3, m)) ==> Continues(ledger, m, k.rev)
  }

  ghost predicate PrefixHere(g: Config) {
    g.pc.At? && g.pc.node.stage == 3 ==>
      forall m: nat :: m < g.pc.node.num && Catalogued(Node(3, m)) ==> Continues(g.ledger, m, g.st.attempts)
  }

  ghost predicate EnteredS04(g: Config) {
    g.pc == At(Node(4, 10)) && NodeKey(Node(3, 80), g.st.attempts) in g.ledger ==> NodeKey(Node(3, 90), g.st.attempts) in g.ledger
  }

  ghost predicate PhaseKnown(c: Case, g: Config) {
    InLoop(g.pc) && g.pc.node.stage <= 4 && Continues(g.ledger, 10, g.st.attempts) ==>
      g.ledger[NodeKey(Node(3, 10), g.st.attempts)].delta.phase == g.st.phase && ActivePhase(c, g.st)
  }

  ghost predicate LoopFacts(c: Case, g: Config) {
    InLoop(g.pc) && Looping(g) ==>
      && PatchHere(g.st) && ActivePhase(c, g.st) && g.st.attempts >= 1 && Node(4, 90) in g.st.completed
      && (forall m: nat :: Catalogued(Node(3, m)) ==> Continues(g.ledger, m, g.st.attempts))
      && g.ledger[NodeKey(Node(3, 10), g.st.attempts)].delta.phase == g.st.phase
  }

  ghost predicate Repeating(c: Case, g: Config) {
    Prefix(g.ledger) && PrefixHere(g) && EnteredS04(g) && PhaseKnown(c, g) && LoopFacts(c, g)
  }

  lemma ContinuesOn(ledger: Ledger, key: NodeKey, x: Execution, m: nat, r: nat)
    requires key in ledger ==> ledger[key] == x
    requires Continues(ledger, m, r)
    ensures Continues(ledger[key := x], m, r)
  {
  }

  lemma PrefixStep(n: Node, g: Config, h: Config, x: Execution)
    requires Moved(n, g, h, x) && Prefix(g.ledger) && PrefixHere(g)
    ensures Prefix(h.ledger)
  {
    var key := KeyOf(n, g.st);
    forall k, m: nat | k in h.ledger && k.node.stage == 3 && m < k.node.num && Catalogued(Node(3, m))
      ensures Continues(h.ledger, m, k.rev)
    {
      assert k != key ==> k in g.ledger;
      ContinuesOn(g.ledger, key, x, m, k.rev);
    }
  }

  lemma PrefixHereStep(n: Node, g: Config, h: Config, x: Execution)
    requires Moved(n, g, h, x) && PrefixHere(g)
    ensures PrefixHere(h)
  {
    var key := KeyOf(n, g.st);
    if h.pc.At? && h.pc.node.stage == 3 && n.stage == 3 {
      assert h.pc == At(Following(n)) && x.route == Continue && h.st.attempts == g.st.attempts;
      forall m: nat | m < h.pc.node.num && Catalogued(Node(3, m)) ensures Continues(h.ledger, m, h.st.attempts) {
        if m < n.num {
          ContinuesOn(g.ledger, key, x, m, g.st.attempts);
        } else {
          assert Node(3, m) == n;
        }
      }
    }
  }

  lemma EnteredS04Step(c: Case, n: Node, g: Config, h: Config, x: Execution)
    requires Moved(n, g, h, x) && InOrder(g) && LoopFacts(c, g)
    ensures EnteredS04(h)
  {
    if h.pc == At(Node(4, 10)) {
      assert n.stage == 3 && h.st.attempts == g.st.attempts;
      if n != Node(3, 90) {
        var k := NodeKey(Node(3, 80), g.st.attempts);
        assert Inner(k) && Pos(k.node) == 380 && (k in h.ledger && k !in g.ledger ==> n == k.node);
        if Looping(g) {
          assert Continues(g.ledger, 90, g.st.attempts);
        }
      }
    }
  }

  // Opening a new pass: nothing of it is recorded yet.
  lemma PhaseKnownInNewPass(c: Case, h: Config)
    requires NodeKey(Node(3, 10), h.st.attempts) !in h.ledger
    ensures PhaseKnown(c, h)
  {
  }

  lemma PhaseKnownWithin(c: Case, n: Node, g: Config, h: Config, x: Execution)
    requires Moved(n, g, h, x) && PhaseKnown(c, g) && 3 <= n.stage <= 4 && n != Node(3, 10) && n != Node(4, 90)
    ensures PhaseKnown(c, h)
  {
    assert h.st.phase == g.st.phase && h.st.done == g.st.done && h.st.attempts == g.st.attempts;
    var k := NodeKey(Node(3, 10), g.st.attempts);
    assert k != KeyOf(n, g.st);
    assert k in h.ledger <==> k in g.ledger;
  }

  lemma PhaseKnownFromPick(c: Case, g: Config, h: Config, e: Env, x: Execution)
    requires Moved(Node(3, 10), g, h, x) && Result(c, Node(3, 10), g, e) == Ok(x) && !Clash(g.st.arts, x.delta.seals)
    requires PhaseKnown(c, g)
    ensures PhaseKnown(c, h)
  {
    assert h.st.done == g.st.done && h.st.attempts == g.st.attempts;
    if x.route == Continue && KeyOf(Node(3, 10), g.st) !in g.ledger {
      PickIsActive(c, g, h, e, x);
    }
  }

  lemma PatchRecorded(st: State, ledger: Ledger)
    requires ArtsRecorded(ledger, st.arts) && Here(st, Patch).Some?
    ensures NodeKey(Node(3, 80), st.attempts) in ledger
  {
    assert Origin(KeyHere(st, Patch)) == NodeKey(Node(3, 80), st.attempts);
  }

  // S04.10 found this pass's patch, so all of S03 is on record, and the phase is the one S03.10 picked.
  lemma RecordedAtS04(c: Case, g: Config, e: Env, x: Execution)
    requires Books(g) && Repeating(c, g) && g.pc == At(Node(4, 10)) && Handle(c, Node(4, 10), g.st, e) == Ok(x)
    ensures forall m: nat :: Catalogued(Node(3, m)) ==> Continues(g.ledger, m, g.st.attempts)
    ensures Continues(g.ledger, 10, g.st.attempts)
    ensures g.ledger[NodeKey(Node(3, 10), g.st.attempts)].delta.phase == g.st.phase && ActivePhase(c, g.st)
  {
    assert Ok(x) == HandleS04(c, 10, g.st, e);
    PatchRecorded(g.st, g.ledger);
    AllS03Recorded(g, g.st.attempts);
    assert Catalogued(Node(3, 10));
  }

  // What S03's nodes after the pick, and S04.10, leave alone.
  ghost predicate SamePass(g: Config, h: Config) {
    h.st.attempts == g.st.attempts && h.st.phase == g.st.phase && h.st.done == g.st.done && g.st.completed <= h.st.completed
  }

  lemma QuietS04(g: Config, h: Config, x: Execution)
    requires Moved(Node(4, 10), g, h, x)
    ensures SamePass(g, h)
    ensures x.route != Continue && InLoop(h.pc) ==> h.pc == At(Node(3, 10)) && Node(4, 90) in g.st.completed
  {
  }

  lemma LoopStarts(c: Case, g: Config, h: Config, x: Execution)
    requires SamePass(g, h) && PatchHere(h.st) && ActivePhase(c, g.st) && g.st.attempts >= 1 && Node(4, 90) in g.st.completed
    requires h.ledger == g.ledger[NodeKey(Node(4, 10), g.st.attempts) := x]
    requires NodeKey(Node(4, 10), g.st.attempts) !in g.ledger
    requires forall m: nat :: Catalogued(Node(3, m)) ==> Continues(g.ledger, m, g.st.attempts)
    requires Continues(g.ledger, 10, g.st.attempts) && g.ledger[NodeKey(Node(3, 10), g.st.attempts)].delta.phase == g.st.phase
    ensures LoopFacts(c, h)
  {
    forall m: nat | Catalogued(Node(3, m)) ensures Continues(h.ledger, m, h.st.attempts) {
      ContinuesOn(g.ledger, NodeKey(Node(4, 10), g.st.attempts), x, m, g.st.attempts);
    }
  }

  lemma AllS03Recorded(g: Config, r: nat)
    requires KeysOk(g) && Prefix(g.ledger)
    requires NodeKey(Node(3, 80), r) in g.ledger && NodeKey(Node(3, 90), r) in g.ledger
    ensures forall m: nat :: Catalogued(Node(3, m)) ==> Continues(g.ledger, m, r)
  {
    forall m: nat | Catalogued(Node(3, m)) ensures Continues(g.ledger, m, r) {
      if m < 90 {
        assert NodeKey(Node(3, 90), r) in g.ledger;
      }
    }
  }

  // At S04.10 of a pass whose record starts here, S04.90 can only have completed in an earlier pass.
  lemma CompletedEarlier(g: Config)
    requires Books(g) && InOrder(g) && g.pc == At(Node(4, 10))
    ensures Node(4, 90) in g.st.completed ==> g.st.attempts >= 1
  {
    if Node(4, 90) in g.st.completed {
      var r :| NodeKey(Node(4, 90), r) in g.ledger;
      assert RevBound(NodeKey(Node(4, 90), r), g.st) && Inner(NodeKey(Node(4, 90), r));
    }
  }

  // A replayed step changes neither the ledger nor the files.
  lemma ReplayAddsNothing(key: NodeKey, g: Config, h: Config, x: Execution)
    requires key in g.ledger && g.ledger[key] == x && SealsKept(g.ledger, g.st.arts)
    requires h.ledger == g.ledger[key := x] && h.st.arts == g.st.arts + x.delta.seals
    ensures h.ledger == g.ledger && h.st.arts == g.st.arts
  {
    SameAfterUpdate(g.ledger, key, x);
    SameAfterMerge(g.st.arts, x.delta.seals);
  }

  lemma SameAfterUpdate(ledger: Ledger, key: NodeKey, x: Execution)
    requires key in ledger && ledger[key] == x
    ensures ledger[key := x] == ledger
  {
  }

  lemma SameAfterMerge(arts: Arts, seals: Arts)
    requires Extends(seals, arts)
    ensures arts + seals == arts
  {
  }

  lemma CircleS03(n: Node, g: Config, h: Config, x: Execution)
    requires Moved(n, g, h, x) && n.stage == 3 && x.route == Continue
    requires n == Node(3, 10) ==> x.delta.phase == g.st.phase
    ensures SamePass(g, h)
    ensures h.pc == At(if n.num == 90 then Node(4, 10) else Following(n))
  {
  }

  lemma CircleS04(g: Config, h: Config, x: Execution)
    requires Moved(Node(4, 10), g, h, x) && x.route != Continue
    requires Node(4, 90) in g.st.completed && g.st.attempts < MAX_PHASE_REPAIRS
    ensures h.pc == At(Node(3, 10))
  {
  }

  lemma LoopFactsKept(c: Case, g: Config, h: Config)
    requires LoopFacts(c, g) && InLoop(g.pc) && Looping(g)
    requires SamePass(g, h) && h.ledger == g.ledger && h.st.arts == g.st.arts
    ensures LoopFacts(c, h) && Looping(h)
  {
    assert Here(h.st, Patch) == Here(g.st, Patch) && Here(h.st, Provenance) == Here(g.st, Provenance);
  }

  // Everything between S03.10 and S04.10 is on record: the step replays, records nothing and stays in the circle.
  lemma LoopGoesOn(c: Case, n: Node, g: Config, h: Config, x: Execution)
    requires Moved(n, g, h, x) && InLoop(g.pc) && Looping(g) && LoopFacts(c, g) && LoopsEarly(g)
    requires g.st.attempts < MAX_PHASE_REPAIRS && SealsKept(g.ledger, g.st.arts)
    ensures InLoop(h.pc) && Looping(h) && LoopFacts(c, h) && Pos(h.pc.node) <= 410
    ensures h.ledger == g.ledger && h.st.attempts == g.st.attempts
  {
    assert n.stage == 3 || n == Node(4, 10);
    if n.stage == 3 {
      assert Continues(g.ledger, n.num, g.st.attempts);
      ReplayAddsNothing(KeyOf(n, g.st), g, h, x);
      CircleS03(n, g, h, x);
    } else {
      ReplayAddsNothing(KeyOf(n, g.st), g, h, x);
      QuietS04(g, h, x);
      CircleS04(g, h, x);
    }
    LoopFactsKept(c, g, h);
  }
}
