// What every reachable configuration of the workflow keeps between its ledger, its completed nodes and
// its artifacts.

module Bookkeeping {
  import opened Results
  import opened Machine

  function Producer(k: Kind): Node {
    match k
    case SelectedSolution => Node(1, 90)
    case Provenance => Node(3, 80)
    case Patch => Node(3, 80)
    case Verification => Node(4, 90)
    case Isolation => Node(5, 20)
    case Comparability => Node(5, 70)
    case Statistical => Node(5, 80)
    case Measurement => Node(5, 90)
    case Rollback => Node(6, 60)
    case Decision => Node(6, 80)
    case ApplyResult => Node(6, 90)
    case Report => Node(7, 80)
  }

  predicate PassScoped(k: Kind) { k != SelectedSolution && k != Report }

  // The ledger key of the execution that seals an artifact.
  function Origin(a: ArtKey): NodeKey {
    NodeKey(Producer(a.kind), if PassScoped(a.kind) then a.pass else 0)
  }

  predicate MayStop(n: Node) { Gated(n) || n in {Node(2, 90), Node(4, 80), Node(6, 90), Node(7, 90)} }

  // What an execution recorded for a node can contain.
  predicate WritesOwn(k: NodeKey, d: Delta) {
    var n := k.node;
    && (d.attempts.Some? ==> (n == Node(4, 90) || n == Node(6, 80)) && d.attempts.value == k.rev + 1)
    && (d.planAttempts.Some? ==> n == Node(2, 81) && d.planAttempts.value == k.rev + 1)
    && (d.plans.Some? ==> n == Node(2, 81))
    && (d.excluded.Some? ==> n == Node(6, 80))
    && (d.phase.Some? ==> n == Node(3, 10))
    && (d.done.Some? ==> n == Node(4, 90))
    && (d.manifest.Some? || d.checks.Some? ==> n.stage == 4)
    && (d.protocol.Some? || d.isolated.Some? || d.treatment.Some? || d.quality.Some? ==> n.stage == 5)
    && (d.targets.Some? || d.guards.Some? || d.class_.Some? || d.verdict.Some? || d.rollback.Some? ==> n.stage == 6 && n.num < 90)
    && (d.outcomes.Some? || d.cost.Some? ==> n.stage == 7)
  }

  predicate SealsOwn(k: NodeKey, d: Delta) {
    forall a :: a in d.seals ==> Producer(a.kind) == k.node && Origin(a) == k
  }

  // One execution seals for one phase only.
  predicate OnePhase(seals: map<ArtKey, Artifact>) {
    forall a, b :: a in seals && b in seals ==> a.phase == b.phase
  }

  predicate RoutesOwn(n: Node, x: Execution) {
    && (!MayStop(n) ==> x.route == Continue)
    && (x.route == Revision ==> n == Node(2, 81) || n == Node(4, 80))
    && (n == Node(4, 10) ==> x.delta.manifest == Some(Manifest({}, None)))
    && (n == Node(2, 81) ==> x.delta.planAttempts.Some? && (x.delta.plans.Some? <==> x.route == Continue) &&
                             (x.route == Revision ==> x.delta.planAttempts.value <= MAX_PLAN_REVISIONS))
    && (n == Node(6, 90) && x.route != Continue ==> x.delta == NOTHING)
  }

  predicate Shape(k: NodeKey, x: Execution) {
    WritesOwn(k, x.delta) && SealsOwn(k, x.delta) && RoutesOwn(k.node, x)
  }

  predicate Catalogued(n: Node) {
    1 <= n.stage <= 7 && (n.num in {10, 20, 30, 40, 50, 60, 70, 80, 90} || n == Node(2, 81))
  }

  lemma ShapeS1(c: Case, n: Node, st: State, e: Env)
    requires Catalogued(n) && n.stage == 1 && Handle(c, n, st, e).Ok?
    ensures Shape(KeyOf(n, st), Handle(c, n, st, e).value) && OnePhase(Handle(c, n, st, e).value.delta.seals)
  {
    assert Handle(c, n, st, e) == HandleS01(n.num, st, e);
  }

  lemma ShapeS2(c: Case, n: Node, st: State, e: Env)
    requires Catalogued(n) && n.stage == 2 && Handle(c, n, st, e).Ok?
    ensures Shape(KeyOf(n, st), Handle(c, n, st, e).value) && OnePhase(Handle(c, n, st, e).value.delta.seals)
  {
    assert Handle(c, n, st, e) == HandleS02(n.num, st, e);
  }

  lemma ShapeS3(c: Case, n: Node, st: State, e: Env)
    requires Catalogued(n) && n.stage == 3 && Handle(c, n, st, e).Ok?
    ensures Shape(KeyOf(n, st), Handle(c, n, st, e).value) && OnePhase(Handle(c, n, st, e).value.delta.seals)
  {
    assert Handle(c, n, st, e) == HandleS03(c, n.num, st, e);
  }

  lemma ShapeS4(c: Case, n: Node, st: State, e: Env)
    requires Catalogued(n) && n.stage == 4 && Handle(c, n, st, e).Ok?
    ensures Shape(KeyOf(n, st), Handle(c, n, st, e).value) && OnePhase(Handle(c, n, st, e).value.delta.seals)
  {
    assert Handle(c, n, st, e) == HandleS04(c, n.num, st, e);
    if n.num == 90 {
      assert n == Node(4, 90) && HandleS04(c, n.num, st, e) == SealVerification(c, st, e);
    }
  }

  lemma ShapeS570(c: Case, st: State, e: Env)
    requires SealComparability(c, st, e).Ok?
    ensures Shape(KeyOf(Node(5, 70), st), SealComparability(c, st, e).value) && OnePhase(SealComparability(c, st, e).value.delta.seals)
  {
  }

  lemma ShapeS580(c: Case, st: State, e: Env)
    requires SealStatistics(c, st, e).Ok?
    ensures Shape(KeyOf(Node(5, 80), st), SealStatistics(c, st, e).value) && OnePhase(SealStatistics(c, st, e).value.delta.seals)
  {
  }

  lemma ShapeS590(st: State, e: Env)
    requires SealMeasurement(st, e).Ok?
    ensures Shape(KeyOf(Node(5, 90), st), SealMeasurement(st, e).value) && OnePhase(SealMeasurement(st, e).value.delta.seals)
  {
  }

  lemma ShapeS5Early(c: Case, n: Node, st: State, e: Env)
    requires Catalogued(n) && n.stage == 5 && n.num < 70 && HandleS05(c, n.num, st, e).Ok?
    ensures Shape(KeyOf(n, st), HandleS05(c, n.num, st, e).value) && OnePhase(HandleS05(c, n.num, st, e).value.delta.seals)
  {
  }

  lemma ShapeS5(c: Case, n: Node, st: State, e: Env)
    requires Catalogued(n) && n.stage == 5 && Handle(c, n, st, e).Ok?
    ensures Shape(KeyOf(n, st), Handle(c, n, st, e).value) && OnePhase(Handle(c, n, st, e).value.delta.seals)
  {
    hide Shape, OnePhase, SealComparability, SealStatistics, SealMeasurement;
    assert Handle(c, n, st, e) == HandleS05(c, n.num, st, e);
    if n.num == 70 {
      ShapeS570(c, st, e);
    } else if n.num == 80 {
      ShapeS580(c, st, e);
    } else if n.num == 90 {
      ShapeS590(st, e);
    } else {
      ShapeS5Early(c, n, st, e);
    }
  }

  lemma ShapeS660(c: Case, st: State, e: Env)
    requires VerifyRollback(c, st, e).Ok?
    ensures Shape(KeyOf(Node(6, 60), st), VerifyRollback(c, st, e).value) && OnePhase(VerifyRollback(c, st, e).value.delta.seals)
  {
  }

  lemma ShapeS680(st: State, e: Env)
    requires SealDecision(st, e).Ok?
    ensures Shape(KeyOf(Node(6, 80), st), SealDecision(st, e).value) && OnePhase(SealDecision(st, e).value.delta.seals)
  {
  }

  lemma ShapeS690(st: State, e: Env)
    requires ApplyToRepository(st, e).Ok?
    ensures Shape(KeyOf(Node(6, 90), st), ApplyToRepository(st, e).value) && OnePhase(ApplyToRepository(st, e).value.delta.seals)
  {
  }

  lemma ShapeS6(c: Case, n: Node, st: State, e: Env)
    requires Catalogued(n) && n.stage == 6 && Handle(c, n, st, e).Ok?
    ensures Shape(KeyOf(n, st), Handle(c, n, st, e).value) && OnePhase(Handle(c, n, st, e).value.delta.seals)
  {
    assert Handle(c, n, st, e) == HandleS06(c, n.num, st, e);
    if n.num == 60 {
      assert n == Node(6, 60);
      ShapeS660(c, st, e);
    } else if n.num == 80 {
      assert n == Node(6, 80);
      ShapeS680(st, e);
    } else if n.num == 90 {
      assert n == Node(6, 90);
      ShapeS690(st, e);
    }
  }

  lemma ShapeS7(c: Case, n: Node, st: State, e: Env)
    requires Catalogued(n) && n.stage == 7 && Handle(c, n, st, e).Ok?
    ensures Shape(KeyOf(n, st), Handle(c, n, st, e).value) && OnePhase(Handle(c, n, st, e).value.delta.seals)
  {
    assert Handle(c, n, st, e) == HandleS07(c, n.num, st, e);
  }

  lemma HandlerShape(c: Case, n: Node, st: State, e: Env)
    requires Catalogued(n) && Handle(c, n, st, e).Ok?
    ensures Shape(KeyOf(n, st), Handle(c, n, st, e).value) && OnePhase(Handle(c, n, st, e).value.delta.seals)
  {
    if n.stage == 1 { ShapeS1(c, n, st, e); }
    else if n.stage == 2 { ShapeS2(c, n, st, e); }
    else if n.stage == 3 { ShapeS3(c, n, st, e); }
    else if n.stage == 4 { ShapeS4(c, n, st, e); }
    else if n.stage == 5 { ShapeS5(c, n, st, e); }
    else if n.stage == 6 { ShapeS6(c, n, st, e); }
    else { ShapeS7(c, n, st, e); }
  }

  predicate Placed(pc: Pc) { pc.At? ==> Catalogued(pc.node) }

  predicate RevBound(k: NodeKey, st: State) {
    if k.node.stage == 2 then k.rev <= st.planAttempts
    else if 3 <= k.node.stage <= 6 then k.rev <= st.attempts
    else k.rev == 0
  }

  ghost predicate KeysOk(g: Config) {
    forall k :: k in g.ledger ==> Catalogued(k.node) && Shape(k, g.ledger[k]) && OnePhase(g.ledger[k].delta.seals) && RevBound(k, g.st) && k.node in g.st.completed
  }

  ghost predicate CompletedRan(g: Config) {
    forall n :: n in g.st.completed ==> exists r :: NodeKey(n, r) in g.ledger
  }

  // Everything a recorded execution sealed is on file, unchanged ...
  ghost predicate SealsKept(ledger: Ledger, arts: map<ArtKey, Artifact>) {
    forall k, a :: k in ledger && a in ledger[k].delta.seals ==> a in arts && arts[a] == ledger[k].delta.seals[a]
  }

  // ... and nothing is on file that its own producer, in its own pass, did not seal.
  ghost predicate ArtsRecorded(ledger: Ledger, arts: map<ArtKey, Artifact>) {
    forall a :: a in arts ==> Origin(a) in ledger && a in ledger[Origin(a)].delta.seals
  }

  ghost predicate Books(g: Config) {
    Placed(g.pc) && KeysOk(g) && CompletedRan(g) && SealsKept(g.ledger, g.st.arts) && ArtsRecorded(g.ledger, g.st.arts)
  }

  // What a step at a node that does not raise does to the configuration.
  ghost predicate Moves(c: Case, g: Config, e: Env, x: Execution) {
    g.pc.At? && Result(c, g.pc.node, g, e) == Ok(x)
  }

  lemma ResultShape(c: Case, g: Config, e: Env, x: Execution)
    requires Books(g) && Moves(c, g, e, x)
    ensures Shape(KeyOf(g.pc.node, g.st), x) && OnePhase(x.delta.seals)
  {
    if KeyOf(g.pc.node, g.st) !in g.ledger {
      HandlerShape(c, g.pc.node, g.st, e);
    }
  }

  // Merging artifact references never conflicts: a replay brings back what is already on file, and a
  // handler that really runs seals ids nobody sealed before.
  lemma NeverClashes(c: Case, g: Config, e: Env, x: Execution)
    requires Books(g) && Moves(c, g, e, x)
    ensures !Clash(g.st.arts, x.delta.seals)
    ensures Commit(g.st, g.pc.node, x).Ok?
  {
    ResultShape(c, g, e, x);
    var k := KeyOf(g.pc.node, g.st);
    forall a | a in g.st.arts && a in x.delta.seals ensures g.st.arts[a] == x.delta.seals[a] {
      assert Origin(a) == k;
      assert k in g.ledger;
      assert g.ledger[k] == x;
    }
  }

  lemma StepMoves(c: Case, g: Config, e: Env, x: Execution)
    requires Books(g) && Moves(c, g, e, x)
    ensures Commit(g.st, g.pc.node, x).Ok?
    ensures Step(c, g, e) == Config(Next(g.pc.node, Commit(g.st, g.pc.node, x).value), Commit(g.st, g.pc.node, x).value,
                                    g.ledger[KeyOf(g.pc.node, g.st) := x])
  {
    NeverClashes(c, g, e, x);
  }

  lemma NextPlaced(n: Node, st: State)
    requires Catalogued(n)
    ensures Placed(Next(n, st))
  {
  }

  lemma KeysStep(c: Case, g: Config, e: Env, x: Execution)
    requires Books(g) && Moves(c, g, e, x)
    ensures KeysOk(Step(c, g, e)) && CompletedRan(Step(c, g, e))
  {
    StepMoves(c, g, e, x);
    ResultShape(c, g, e, x);
    var h := Step(c, g, e);
    var key := KeyOf(g.pc.node, g.st);
    assert h.st.attempts >= g.st.attempts && h.st.planAttempts >= g.st.planAttempts;
    forall k | k in h.ledger ensures Catalogued(k.node) && Shape(k, h.ledger[k]) && OnePhase(h.ledger[k].delta.seals) && RevBound(k, h.st) && k.node in h.st.completed {
      if k != key { assert k in g.ledger; }
    }
    forall n | n in h.st.completed ensures exists r :: NodeKey(n, r) in h.ledger {
      if n == g.pc.node {
        assert NodeKey(n, key.rev) in h.ledger;
      } else {
        var r :| NodeKey(n, r) in g.ledger;
        assert NodeKey(n, r) in h.ledger;
      }
    }
  }

  lemma ArtsMerge(ledger: Ledger, arts: map<ArtKey, Artifact>, key: NodeKey, x: Execution)
    requires SealsKept(ledger, arts) && ArtsRecorded(ledger, arts)
    requires SealsOwn(key, x.delta) && !Clash(arts, x.delta.seals) && (key in ledger ==> ledger[key] == x)
    ensures SealsKept(ledger[key := x], arts + x.delta.seals) && ArtsRecorded(ledger[key := x], arts + x.delta.seals)
  {
    forall a | a in arts + x.delta.seals ensures Origin(a) in ledger[key := x] && a in ledger[key := x][Origin(a)].delta.seals {
      if a !in x.delta.seals {
        assert a in arts;
      }
    }
  }

  lemma ArtsStep(c: Case, g: Config, e: Env, x: Execution)
    requires Books(g) && Moves(c, g, e, x)
    ensures var h := Step(c, g, e); SealsKept(h.ledger, h.st.arts) && ArtsRecorded(h.ledger, h.st.arts)
  {
    StepMoves(c, g, e, x);
    ResultShape(c, g, e, x);
    NeverClashes(c, g, e, x);
    ArtsMerge(g.ledger, g.st.arts, KeyOf(g.pc.node, g.st), x);
  }

  lemma BooksMove(c: Case, g: Config, e: Env, x: Execution)
    requires Books(g) && Moves(c, g, e, x)
    ensures Books(Step(c, g, e))
  {
    KeysStep(c, g, e, x);
    ArtsStep(c, g, e, x);
    StepMoves(c, g, e, x);
    NextPlaced(g.pc.node, Commit(g.st, g.pc.node, x).value);
  }

  function NextBy(n: Node, r: Route, st: State): Pc {
    if LastOfStage(n, r) then Leave(n.stage, st)
    else if n == Node(2, 81) && r == Revision then At(Node(2, 30))
    else At(Following(n))
  }

  predicate Updated(s: State, t: State, d: Delta) {
    && t.arts == s.arts + d.seals
    && t.attempts == Upd(d.attempts, s.attempts) && t.planAttempts == Upd(d.planAttempts, s.planAttempts)
    && t.plans == (if d.plans.Some? then d.plans else s.plans) && t.excluded == Upd(d.excluded, s.excluded)
    && t.phase == (if d.phase.Some? then d.phase else s.phase) && t.done == Upd(d.done, s.done)
    && t.tokens == Upd(d.tokens, s.tokens) && t.scope == Upd(d.scope, s.scope)
    && t.manifest == Upd(d.manifest, s.manifest) && t.checks == Upd(d.checks, s.checks)
    && t.protocol == (if d.protocol.Some? then d.protocol else s.protocol)
    && t.isolated == (if d.isolated.Some? then d.isolated else s.isolated)
    && t.treatment == (if d.treatment.Some? then d.treatment else s.treatment)
    && t.quality == (if d.quality.Some? then d.quality else s.quality)
    && t.targets == Upd(d.targets, s.targets) && t.guards == Upd(d.guards, s.guards)
    && t.class_ == (if d.class_.Some? then d.class_ else s.class_)
    && t.verdict == (if d.verdict.Some? then d.verdict else s.verdict) && t.rollback == Upd(d.rollback, s.rollback)
    && t.outcomes == Upd(d.outcomes, s.outcomes) && t.cost == (if d.cost.Some? then d.cost else s.cost)
  }

  // One step at node n that recorded or replayed x, field by field.
  ghost predicate Moved(n: Node, g: Config, h: Config, x: Execution) {
    && g.pc == At(n) && Catalogued(n) && Shape(KeyOf(n, g.st), x)
    && (KeyOf(n, g.st) in g.ledger ==> g.ledger[KeyOf(n, g.st)] == x)
    && h.ledger == g.ledger[KeyOf(n, g.st) := x]
    && h.st.completed == g.st.completed + {n} && n in h.st.latest && h.st.latest == g.st.latest[n := x.route]
    && Updated(g.st, h.st, x.delta)
    && h.pc == NextBy(n, x.route, h.st)
  }

  lemma StepMoved(c: Case, g: Config, e: Env, x: Execution)
    requires Books(g) && Moves(c, g, e, x)
    ensures Moved(g.pc.node, g, Step(c, g, e), x)
  {
    hide KeysOk, CompletedRan, SealsKept, ArtsRecorded, Shape, OnePhase, Handle, Step;
    StepMoves(c, g, e, x);
    ResultShape(c, g, e, x);
  }

  // Within the loop the counter stands still or moves by one, and only two nodes move it.
  lemma AttemptsMove(n: Node, g: Config, h: Config, x: Execution)
    requires Moved(n, g, h, x)
    ensures h.st.attempts == g.st.attempts || (h.st.attempts == g.st.attempts + 1 && n in {Node(4, 90), Node(6, 80)})
  {
  }
}
