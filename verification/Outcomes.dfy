// How passes end, which phases they worked on, and what S06.90 recorded for them.

module Outcomes {
  import opened Results
  import opened Phases
  import opened Checks
  import opened Decide
  import opened Machine
  import opened Bookkeeping
  import opened Passes
  import opened Evidence
  import opened Progress
  import opened Invariant

  predicate IsFix(d: Artifact) { d.DecisionDoc? && d.outcome == FixOnePart }
  predicate IsFailure(d: Artifact) { d.VerificationDoc? && !d.passed }
  predicate IsPass(d: Artifact) { d.VerificationDoc? && d.passed }

  // Pass m was judged FIX_ONE_PART.
  ghost predicate FixAt(arts: Arts, m: nat) {
    exists a :: a in arts && a.kind == Decision && a.pass == m && IsFix(arts[a])
  }

  // Pass m failed verification.
  ghost predicate FailedAt(arts: Arts, m: nat) {
    exists a :: a in arts && a.kind == Verification && a.pass == m && IsFailure(arts[a])
  }

  // Every pass before the current one ended in one of the two ways that open a new one.
  ghost predicate PassEnds(g: Config) {
    forall m: nat :: m < g.st.attempts ==> FixAt(g.st.arts, m) || FailedAt(g.st.arts, m)
  }

  ghost predicate FixBefore(g: Config) { g.st.attempts >= 1 && FixAt(g.st.arts, g.st.attempts - 1) }

  // S06.90's key for the current pass is already taken exactly when the pass before ended in FIX_ONE_PART,
  // and then it holds a result that applied nothing.
  ghost predicate ApplyKey(g: Config) {
    InLoop(g.pc) ==>
      var k := NodeKey(Node(6, 90), g.st.attempts);
      if FixPending(g) then k !in g.ledger
      else (k in g.ledger <==> FixBefore(g)) && (k in g.ledger ==> g.ledger[k] == Execution(Continue, NOTHING))
  }

  ghost predicate ApplyHere(g: Config) {
    g.pc.At? && g.pc.node.stage == 7 ==> (Here(g.st, ApplyResult).Some? <==> !FixBefore(g))
  }

  // A phase that passed verification has all its tasks done ...
  ghost predicate Promoted(c: Case, st: State) {
    forall a :: a in st.arts && a.kind == Verification && IsPass(st.arts[a]) ==> TasksOf(c.tasks, a.phase) <= st.done
  }

  // ... and no later pass works on it.
  ghost predicate NeverAgain(arts: Arts) {
    forall a, b :: PassThenPatch(arts, a, b) ==> b.phase != a.phase
  }

  ghost predicate Ends(c: Case, g: Config) {
    PassEnds(g) && ApplyKey(g) && ApplyHere(g) && Promoted(c, g.st) && NeverAgain(g.st.arts)
  }

  lemma FixStays(arts: Arts, more: Arts, m: nat)
    requires Extends(arts, more)
    ensures FixAt(arts, m) ==> FixAt(more, m)
    ensures FailedAt(arts, m) ==> FailedAt(more, m)
  {
    if FixAt(arts, m) {
      var a :| a in arts && a.kind == Decision && a.pass == m && IsFix(arts[a]);
      assert a in more && IsFix(more[a]);
    }
    if FailedAt(arts, m) {
      var a :| a in arts && a.kind == Verification && a.pass == m && IsFailure(arts[a]);
      assert a in more && IsFailure(more[a]);
    }
  }

  // Sealing for this pass adds no decision to an earlier one.
  lemma FixIsOld(arts: Arts, seals: Arts, m: nat)
    requires forall a :: a in seals && a.kind == Decision ==> a.pass != m
    requires !Clash(arts, seals)
    ensures FixAt(arts + seals, m) <==> FixAt(arts, m)
  {
    if FixAt(arts + seals, m) {
      var a :| a in arts + seals && a.kind == Decision && a.pass == m && IsFix((arts + seals)[a]);
      assert a in arts && arts[a] == (arts + seals)[a];
    }
    assert Extends(arts, arts + seals);
    FixStays(arts, arts + seals, m);
  }

  lemma PassEndsStep(c: Case, n: Node, g: Config, h: Config, e: Env, x: Execution)
    requires Moved(n, g, h, x) && Fair(c, n, g, e, x) && PassEnds(g)
    requires InOrder(g) && LoopsEarly(g) && Work(c, g)
    ensures PassEnds(h)
  {
    Grown(n, g, h, x);
    AttemptsMove(n, g, h, x);
    forall m: nat | m < h.st.attempts ensures FixAt(h.st.arts, m) || FailedAt(h.st.arts, m) {
      FixStays(g.st.arts, h.st.arts, m);
      if m == g.st.attempts {
        KeysAreFresh(g);
        PassEnded(c, n, g, h, e, x);
      }
    }
  }

  lemma FailureSealed(c: Case, g: Config, h: Config, e: Env, x: Execution)
    requires Ran(c, Node(4, 90), g, h, e, x) && h.st.attempts == g.st.attempts + 1
    ensures FailedAt(h.st.arts, g.st.attempts)
  {
    assert Ok(x) == HandleS04(c, 90, g.st, e);
    assert Ok(x) == SealVerification(c, g.st, e);
    hide Handle, Shape;
    var a := KeyHere(g.st, Verification);
    assert a in h.st.arts && IsFailure(h.st.arts[a]);
  }

  lemma FixSealed(c: Case, g: Config, h: Config, e: Env, x: Execution)
    requires Ran(c, Node(6, 80), g, h, e, x) && h.st.attempts == g.st.attempts + 1
    ensures FixAt(h.st.arts, g.st.attempts)
  {
    hide Handle, SealsOwn, RoutesOwn;
    DecisionRan(c, g, h, e, x);
    var a := KeyHere(g.st, Decision);
    assert a in h.st.arts && IsFix(h.st.arts[a]);
  }

  lemma PassEnded(c: Case, n: Node, g: Config, h: Config, e: Env, x: Execution)
    requires Ran(c, n, g, h, e, x) && (n == Node(4, 90) || n == Node(6, 80)) && h.st.attempts == g.st.attempts + 1
    ensures FixAt(h.st.arts, g.st.attempts) || FailedAt(h.st.arts, g.st.attempts)
  {
    hide Ran, FixAt, FailedAt;
    if n == Node(4, 90) {
      FailureSealed(c, g, h, e, x);
    } else {
      FixSealed(c, g, h, e, x);
    }
  }

  lemma PromotedStep(c: Case, n: Node, g: Config, h: Config, e: Env, x: Execution)
    requires Moved(n, g, h, x) && Fair(c, n, g, e, x) && Promoted(c, g.st)
    requires InOrder(g) && LoopsEarly(g)
    ensures Promoted(c, h.st)
  {
    if n == Node(4, 90) {
      KeysAreFresh(g);
      PromotedByS04(c, g, h, e, x);
    } else {
      assert h.st.done == g.st.done;
      forall a | a in h.st.arts && a.kind == Verification ensures a in g.st.arts && g.st.arts[a] == h.st.arts[a] {
        assert a in x.delta.seals ==> Producer(a.kind) == n;
      }
    }
  }

  lemma PromotedByS04(c: Case, g: Config, h: Config, e: Env, x: Execution)
    requires Ran(c, Node(4, 90), g, h, e, x) && Promoted(c, g.st)
    ensures Promoted(c, h.st)
  {
    assert Ok(x) == HandleS04(c, 90, g.st, e);
    assert Ok(x) == SealVerification(c, g.st, e);
    assert g.st.done <= h.st.done;
    forall a | a in h.st.arts && a.kind == Verification && IsPass(h.st.arts[a]) ensures TasksOf(c.tasks, a.phase) <= h.st.done {
      if a in x.delta.seals {
        assert a.phase == g.st.phase.value && Gate(g.st.checks);
      } else {
        assert a in g.st.arts && g.st.arts[a] == h.st.arts[a];
      }
    }
  }

  // Every pass-scoped artifact belongs to the current pass or an earlier one.
  lemma NoLaterArtifacts(g: Config, a: ArtKey)
    requires KeysOk(g) && ArtsRecorded(g.ledger, g.st.arts) && a in g.st.arts && a.kind == Patch
    ensures a.pass <= g.st.attempts
  {
    assert RevBound(Origin(a), g.st);
  }

  // What a step adds to the files was sealed by its own node under its own key; the rest is as it was.
  predicate AddedBy(n: Node, g: Config, h: Config, x: Execution, a: ArtKey)
    requires a in h.st.arts
  {
    if a in g.st.arts then h.st.arts[a] == g.st.arts[a]
    else a in x.delta.seals && Producer(a.kind) == n && Origin(a) == KeyOf(n, g.st)
  }

  lemma Added(n: Node, g: Config, h: Config, x: Execution, a: ArtKey)
    requires Moved(n, g, h, x) && !Clash(g.st.arts, x.delta.seals) && a in h.st.arts
    ensures AddedBy(n, g, h, x, a)
  {
  }

  predicate PassThenPatch(arts: Arts, a: ArtKey, b: ArtKey) {
    a in arts && b in arts && a.kind == Verification && IsPass(arts[a]) && b.kind == Patch && b.pass > a.pass
  }

  // A new patch is for a phase that has not passed.
  lemma NewPatchNewPhase(c: Case, st: State, a: ArtKey, b: ArtKey)
    requires ActivePhase(c, st) && st.phase == Some(b.phase) && Promoted(c, st)
    requires a in st.arts && a.kind == Verification && IsPass(st.arts[a])
    ensures b.phase != a.phase
  {
    FinishedNeverActive(c.phases, c.tasks, st.done, st.done, a.phase);
  }

  // Only a kind's own producer adds to it.
  ghost predicate SameKind(arts: Arts, more: Arts, kind: Kind) {
    forall a :: a in more && a.kind == kind ==> a in arts && arts[a] == more[a]
  }

  lemma OtherNodesKeep(n: Node, g: Config, h: Config, x: Execution, kind: Kind)
    requires Moved(n, g, h, x) && !Clash(g.st.arts, x.delta.seals) && n != Producer(kind)
    ensures SameKind(g.st.arts, h.st.arts, kind)
  {
    forall a | a in h.st.arts && a.kind == kind ensures a in g.st.arts && g.st.arts[a] == h.st.arts[a] {
      Added(n, g, h, x, a);
    }
  }

  lemma NeverAgainSame(arts: Arts, more: Arts)
    requires SameKind(arts, more, Verification) && SameKind(arts, more, Patch) && NeverAgain(arts)
    ensures NeverAgain(more)
  {
    forall a, b | PassThenPatch(more, a, b) ensures b.phase != a.phase {
      assert PassThenPatch(arts, a, b);
    }
  }

  lemma NeverAgainPatched(c: Case, st: State, more: Arts)
    requires SameKind(st.arts, more, Verification) && NeverAgain(st.arts) && ActivePhase(c, st) && Promoted(c, st)
    requires forall b :: b in more && b.kind == Patch ==> b in st.arts || st.phase == Some(b.phase)
    ensures NeverAgain(more)
  {
    forall a, b | PassThenPatch(more, a, b) ensures b.phase != a.phase {
      if b in st.arts {
        assert PassThenPatch(st.arts, a, b);
      } else {
        NewPatchNewPhase(c, st, a, b);
      }
    }
  }

  lemma NeverAgainVerified(arts: Arts, more: Arts, pass: nat)
    requires SameKind(arts, more, Patch) && NeverAgain(arts) && Extends(arts, more)
    requires forall b :: b in arts && b.kind == Patch ==> b.pass <= pass
    requires forall a :: a in more && a.kind == Verification ==> a in arts || a.pass == pass
    ensures NeverAgain(more)
  {
    forall a, b | PassThenPatch(more, a, b) ensures b.phase != a.phase {
      assert b.pass <= pass;
      assert PassThenPatch(arts, a, b);
    }
  }

  lemma NeverAgainS380(c: Case, g: Config, h: Config, e: Env, x: Execution)
    requires Moved(Node(3, 80), g, h, x) && Fair(c, Node(3, 80), g, e, x) && SealsKept(g.ledger, g.st.arts)
    requires NeverAgain(g.st.arts) && Promoted(c, g.st) && ActivePhase(c, g.st)
    ensures NeverAgain(h.st.arts)
  {
    OtherNodesKeep(Node(3, 80), g, h, x, Verification);
    forall b | b in h.st.arts && b.kind == Patch ensures b in g.st.arts || g.st.phase == Some(b.phase) {
      Added(Node(3, 80), g, h, x, b);
      if b !in g.st.arts {
        NewPatchPhase(c, g, e, x, b);
      }
    }
    NeverAgainPatched(c, g.st, h.st.arts);
  }

  lemma NeverAgainS490(g: Config, h: Config, x: Execution)
    requires Moved(Node(4, 90), g, h, x) && !Clash(g.st.arts, x.delta.seals) && KeysOk(g) && ArtsRecorded(g.ledger, g.st.arts)
    requires NeverAgain(g.st.arts)
    ensures NeverAgain(h.st.arts)
  {
    OtherNodesKeep(Node(4, 90), g, h, x, Patch);
    Grown(Node(4, 90), g, h, x);
    forall b | b in g.st.arts && b.kind == Patch ensures b.pass <= g.st.attempts {
      NoLaterArtifacts(g, b);
    }
    forall a | a in h.st.arts && a.kind == Verification ensures a in g.st.arts || a.pass == g.st.attempts {
      Added(Node(4, 90), g, h, x, a);
    }
    NeverAgainVerified(g.st.arts, h.st.arts, g.st.attempts);
  }

  lemma NeverAgainStep(c: Case, n: Node, g: Config, h: Config, e: Env, x: Execution)
    requires Moved(n, g, h, x) && Fair(c, n, g, e, x) && Books(g)
    requires NeverAgain(g.st.arts) && Promoted(c, g.st) && Work(c, g)
    ensures NeverAgain(h.st.arts)
  {
    if n == Node(3, 80) {
      NeverAgainS380(c, g, h, e, x);
    } else if n == Node(4, 90) {
      NeverAgainS490(g, h, x);
    } else {
      OtherNodesKeep(n, g, h, x, Verification);
      OtherNodesKeep(n, g, h, x, Patch);
      NeverAgainSame(g.st.arts, h.st.arts);
    }
  }

  // A replay seals nothing new.
  lemma NewMeansFresh(ledger: Ledger, arts: Arts, key: NodeKey, x: Execution, b: ArtKey)
    requires SealsKept(ledger, arts) && (key in ledger ==> ledger[key] == x) && b in x.delta.seals && b !in arts
    ensures key !in ledger
  {
  }

  lemma NewPatchPhase(c: Case, g: Config, e: Env, x: Execution, b: ArtKey)
    requires Result(c, Node(3, 80), g, e) == Ok(x) && SealsKept(g.ledger, g.st.arts)
    requires b in x.delta.seals && b !in g.st.arts
    ensures g.st.phase == Some(b.phase)
  {
    NewMeansFresh(g.ledger, g.st.arts, KeyOf(Node(3, 80), g.st), x, b);
    PatchOfActivePhase(c, g.st, e, x, b);
  }

  lemma PatchOfActivePhase(c: Case, st: State, e: Env, x: Execution, b: ArtKey)
    requires Handle(c, Node(3, 80), st, e) == Ok(x) && b in x.delta.seals
    ensures st.phase == Some(b.phase)
  {
    assert Ok(x) == HandleS03(c, 80, st, e);
  }

  // ---- S06.90's key -----------------------------------------------------------------------------------------

  lemma ApplyKeyWithin(n: Node, g: Config, h: Config, x: Execution)
    requires Moved(n, g, h, x) && !Clash(g.st.arts, x.delta.seals) && InLoop(g.pc) && n != Node(6, 90)
    requires ApplyKey(g) && h.st.attempts == g.st.attempts && !FixPending(h)
    ensures ApplyKey(h)
  {
    var k := NodeKey(Node(6, 90), g.st.attempts);
    assert k in h.ledger <==> k in g.ledger;
    assert k in g.ledger ==> h.ledger[k] == g.ledger[k];
    if g.st.attempts >= 1 {
      forall a | a in x.delta.seals && a.kind == Decision ensures a.pass != g.st.attempts - 1 {
        assert Origin(a) == KeyOf(n, g.st);
      }
      FixIsOld(g.st.arts, x.delta.seals, g.st.attempts - 1);
    }
  }

  // A pass still at S04 has not been judged.
  lemma NotJudgedYet(g: Config, a: ArtKey)
    requires g.pc == At(Node(4, 90)) && ArtsRecorded(g.ledger, g.st.arts) && InOrder(g)
    requires a in g.st.arts && a.kind == Decision
    ensures a.pass != g.st.attempts
  {
    assert Origin(a) == NodeKey(Node(6, 80), a.pass) && Origin(a) in g.ledger;
    assert Inner(Origin(a)) && Pos(Origin(a).node) == 680;
  }

  lemma FailedNotFixed(g: Config, h: Config, x: Execution)
    requires Moved(Node(4, 90), g, h, x) && !Clash(g.st.arts, x.delta.seals)
    requires ArtsRecorded(g.ledger, g.st.arts) && InOrder(g)
    ensures !FixAt(h.st.arts, g.st.attempts)
  {
    forall a | a in h.st.arts && a.kind == Decision ensures a.pass != g.st.attempts {
      Added(Node(4, 90), g, h, x, a);
      NotJudgedYet(g, a);
    }
  }

  lemma ApplyKeyOpened(c: Case, n: Node, g: Config, h: Config, x: Execution)
    requires Moved(n, g, h, x) && !Clash(g.st.arts, x.delta.seals) && Books(g) && InOrder(g) && (n == Node(4, 90) || n == Node(6, 80))
    requires h.st.attempts == g.st.attempts + 1 && (n == Node(6, 80) ==> FixPending(h))
    ensures ApplyKey(h)
  {
    NewPassInOrder(g, h, x);
    if n == Node(4, 90) {
      FailedNotFixed(g, h, x);
    }
  }

  // After FIX_ONE_PART, S06.90 runs under the new pass's key and applies nothing.
  lemma ApplyKeyTaken(c: Case, g: Config, h: Config, e: Env, x: Execution)
    requires Moved(Node(6, 90), g, h, x) && Fair(c, Node(6, 90), g, e, x) && ApplyKey(g) && WorkS6(c, g.st, 90)
    requires FixPending(g)
    ensures ApplyKey(h)
  {
    assert Ok(x) == HandleS06(c, 90, g.st, e);
    assert Ok(x) == ApplyToRepository(g.st, e);
    assert x == Execution(Continue, NOTHING);
    assert h.st.attempts == g.st.attempts && h.st.arts == g.st.arts;
    var a := ArtKey(Decision, g.st.phase.value, g.st.attempts - 1);
    assert a in h.st.arts && IsFix(h.st.arts[a]);
  }

  lemma ApplyKeyEntered(g: Config, h: Config, x: Execution)
    requires Moved(Node(2, 90), g, h, x) && NotYet(g) && g.st.excluded == {}
    ensures ApplyKey(h)
  {
    var k := NodeKey(Node(6, 90), h.st.attempts);
    assert k in h.ledger ==> k in g.ledger;
  }

  lemma FixedThenBumped(c: Case, g: Config, h: Config, e: Env, x: Execution)
    requires Moved(Node(6, 80), g, h, x) && Fair(c, Node(6, 80), g, e, x) && InOrder(g) && LoopsEarly(g) && Work(c, g)
    ensures h.pc == At(Node(6, 90))
    ensures FixPending(h) <==> h.st.attempts == g.st.attempts + 1
    ensures h.st.attempts == g.st.attempts || h.st.attempts == g.st.attempts + 1
  {
    KeysAreFresh(g);
    DecisionIsSealed(c, g, h, e, x);
  }

  lemma ApplyKeyInLoop(c: Case, n: Node, g: Config, h: Config, e: Env, x: Execution)
    requires Moved(n, g, h, x) && !Clash(g.st.arts, x.delta.seals) && Books(g) && InLoop(g.pc) && n != Node(6, 90)
    requires InOrder(g) && ApplyKey(g)
    requires n == Node(6, 80) ==> (FixPending(h) <==> h.st.attempts == g.st.attempts + 1)
    ensures ApplyKey(h)
  {
    AttemptsMove(n, g, h, x);
    if h.st.attempts == g.st.attempts {
      assert h.pc == At(Node(6, 90)) ==> n == Node(6, 80);
      ApplyKeyWithin(n, g, h, x);
    } else {
      ApplyKeyOpened(c, n, g, h, x);
    }
  }

  lemma ApplyKeyFromS690(c: Case, g: Config, h: Config, e: Env, x: Execution)
    requires Moved(Node(6, 90), g, h, x) && Fair(c, Node(6, 90), g, e, x) && ApplyKey(g) && WorkS6(c, g.st, 90)
    ensures ApplyKey(h)
  {
    if InLoop(h.pc) {
      ForwardS06(Node(6, 90), g, h, x);
      ApplyKeyTaken(c, g, h, e, x);
    }
  }

  lemma ApplyKeyFromOpening(n: Node, g: Config, h: Config, x: Execution)
    requires Moved(n, g, h, x) && n.stage <= 2 && NotYet(g) && OneExit(g)
    ensures ApplyKey(h)
  {
    if InLoop(h.pc) {
      OpeningMoves(n, g, h, x);
      assert n.stage == 2 && h.pc == At(Node(3, 10));
      if n == Node(2, 90) {
        ApplyKeyEntered(g, h, x);
      } else {
        assert LastOfStage(n, x.route) && n == Node(2, 81);
        var k := NodeKey(Node(6, 90), h.st.attempts);
        assert k in h.ledger ==> k in g.ledger;
      }
    }
  }

  lemma ApplyKeyStep(c: Case, n: Node, g: Config, h: Config, e: Env, x: Execution)
    requires Moved(n, g, h, x) && Fair(c, n, g, e, x) && Books(g)
    requires InOrder(g) && LoopsEarly(g) && NotYet(g) && OneExit(g) && Work(c, g) && ApplyKey(g)
    ensures ApplyKey(h)
  {
    if n == Node(6, 90) {
      ApplyKeyFromS690(c, g, h, e, x);
    } else if n.stage <= 2 {
      ApplyKeyFromOpening(n, g, h, x);
    } else if n.stage <= 6 {
      if n == Node(6, 80) {
        FixedThenBumped(c, g, h, e, x);
      }
      ApplyKeyInLoop(c, n, g, h, e, x);
    }
  }

  // Whether the report stage finds an apply result is settled when S06.90 lets the case through.
  lemma NothingApplied(g: Config, h: Config, x: Execution)
    requires Moved(Node(6, 90), g, h, x) && ArtsRecorded(g.ledger, g.st.arts) && g.st.phase.Some?
    requires KeyOf(Node(6, 90), g.st) in g.ledger && x.delta == NOTHING
    ensures Here(h.st, ApplyResult).None? && h.st.arts == g.st.arts
  {
    var a := KeyHere(g.st, ApplyResult);
    assert Origin(a) == KeyOf(Node(6, 90), g.st);
    assert a !in x.delta.seals;
  }

  lemma SomethingApplied(c: Case, g: Config, h: Config, e: Env, x: Execution)
    requires Ran(c, Node(6, 90), g, h, e, x) && WorkS6(c, g.st, 90) && g.st.verdict == Some(Keep) && x.route == Continue
    ensures Here(h.st, ApplyResult).Some?
    ensures forall m: nat :: FixAt(h.st.arts, m) <==> FixAt(g.st.arts, m)
  {
    assert Ok(x) == HandleS06(c, 90, g.st, e);
    assert Ok(x) == ApplyToRepository(g.st, e);
    assert KeyHere(g.st, ApplyResult) in x.delta.seals;
    forall m: nat ensures FixAt(h.st.arts, m) <==> FixAt(g.st.arts, m) {
      FixIsOld(g.st.arts, x.delta.seals, m);
    }
  }

  lemma LetThrough(g: Config, h: Config, x: Execution)
    requires Moved(Node(6, 90), g, h, x) && h.pc == At(Node(7, 10))
    ensures x.route == Continue && g.st.verdict == Some(Keep) && h.st.attempts == g.st.attempts && h.st.phase == g.st.phase
  {
  }

  lemma ApplyHereEntered(c: Case, g: Config, h: Config, e: Env, x: Execution)
    requires Moved(Node(6, 90), g, h, x) && Fair(c, Node(6, 90), g, e, x) && ArtsRecorded(g.ledger, g.st.arts)
    requires ApplyKey(g) && WorkS6(c, g.st, 90) && h.pc == At(Node(7, 10))
    ensures ApplyHere(h)
  {
    hide Handle, Shape, Updated, NextBy, ArtsRecorded, FixAt, Clash;
    LetThrough(g, h, x);
    if KeyOf(Node(6, 90), g.st) in g.ledger {
      NothingApplied(g, h, x);
    } else {
      SomethingApplied(c, g, h, e, x);
    }
  }

  lemma ReportAppliesNothing(n: Node, g: Config, h: Config, x: Execution)
    requires Moved(n, g, h, x) && n.stage == 7
    ensures h.st.phase == g.st.phase && h.st.attempts == g.st.attempts && Here(h.st, ApplyResult) == Here(g.st, ApplyResult)
    ensures forall a :: a in x.delta.seals ==> a.kind != Decision
  {
    if g.st.phase.Some? {
      var a := KeyHere(g.st, ApplyResult);
      assert a in x.delta.seals ==> Producer(a.kind) == n;
    }
    forall a | a in x.delta.seals ensures a.kind != Decision {
      assert Producer(a.kind) == n;
    }
  }

  lemma ApplyHereWithin(n: Node, g: Config, h: Config, x: Execution)
    requires Moved(n, g, h, x) && !Clash(g.st.arts, x.delta.seals) && n.stage == 7 && ApplyHere(g)
    ensures ApplyHere(h)
  {
    ReportAppliesNothing(n, g, h, x);
    hide Shape, Clash, FixAt;
    if g.st.attempts >= 1 {
      FixIsOld(g.st.arts, x.delta.seals, g.st.attempts - 1);
    }
  }

  lemma IntoS7(n: Node, g: Config, h: Config, x: Execution)
    requires Moved(n, g, h, x) && h.pc.At? && h.pc.node.stage == 7 && n.stage != 7
    requires n == Node(6, 10) ==> x.route == Continue
    ensures n == Node(6, 90) && h.pc == At(Node(7, 10))
  {
  }

  lemma ApplyHereStep(c: Case, n: Node, g: Config, h: Config, e: Env, x: Execution)
    requires Moved(n, g, h, x) && Fair(c, n, g, e, x) && ArtsRecorded(g.ledger, g.st.arts)
    requires InOrder(g) && LoopsEarly(g) && Work(c, g) && Linked(c, g.st.arts) && ApplyKey(g) && ApplyHere(g)
    ensures ApplyHere(h)
  {
    if h.pc.At? && h.pc.node.stage == 7 {
      if n.stage == 7 {
        ApplyHereWithin(n, g, h, x);
      } else {
        if n == Node(6, 10) {
          S06Continues(c, n, g, e, x);
        }
        IntoS7(n, g, h, x);
        ApplyHereEntered(c, g, h, e, x);
      }
    }
  }
}
