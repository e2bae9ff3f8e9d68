// How one pass follows from the one before: a failed verification is retried on its own phase.

module History {
  import opened Results
  import opened Machine
  import opened Bookkeeping
  import opened Evidence
  import opened Progress
  import opened Invariant
  import opened Outcomes
  import opened Reporting

  lemma FixedPhasePassed(c: Case, arts: Arts, a: ArtKey)
    requires Linked(c, arts) && a in arts && a.kind == Decision
    ensures ArtKey(Verification, a.phase, a.pass) in arts && IsPass(arts[ArtKey(Verification, a.phase, a.pass)])
  {
    assert LinkOk(c, arts, a);
  }

  // Two artifacts of one pass sealed by the same node are for the same phase.
  lemma SamePhase(g: Config, a: ArtKey, b: ArtKey)
    requires Books(g) && a in g.st.arts && b in g.st.arts && Origin(a) == Origin(b)
    ensures a.phase == b.phase
  {
    assert a in g.ledger[Origin(a)].delta.seals && b in g.ledger[Origin(a)].delta.seals;
  }

  // A pass that was judged is a pass that verified.
  lemma JudgedMeansPassed(c: Case, g: Config, a: ArtKey, b: ArtKey)
    requires Books(g) && Linked(c, g.st.arts) && a in g.st.arts && b in g.st.arts
    requires a.kind == Decision && b.kind == Verification && a.pass == b.pass
    ensures b.phase == a.phase && IsPass(g.st.arts[b])
  {
    hide Books, Linked;
    FixedPhasePassed(c, g.st.arts, a);
    SamePhase(g, ArtKey(Verification, a.phase, a.pass), b);
  }

  lemma NotBoth(c: Case, g: Config, m: nat)
    requires Books(g) && Linked(c, g.st.arts)
    ensures FixAt(g.st.arts, m) ==> !FailedAt(g.st.arts, m)
  {
    hide Books, Linked;
    if FixAt(g.st.arts, m) {
      var a :| a in g.st.arts && a.kind == Decision && a.pass == m && IsFix(g.st.arts[a]);
      forall b | b in g.st.arts && b.kind == Verification && b.pass == m ensures !IsFailure(g.st.arts[b]) {
        JudgedMeansPassed(c, g, a, b);
      }
    }
  }

  // ---- Retried phases ------------------------------------------------------------------------------------

  predicate FailThenPatch(arts: Arts, a: ArtKey, b: ArtKey) {
    a in arts && b in arts && a.kind == Verification && IsFailure(arts[a]) && b.kind == Patch && b.pass == a.pass + 1
  }

  // The pass after a failed verification patches the phase that failed.
  ghost predicate Retried(arts: Arts) {
    forall a, b :: FailThenPatch(arts, a, b) ==> b.phase == a.phase
  }

  lemma RetriedSame(arts: Arts, more: Arts)
    requires SameKind(arts, more, Verification) && SameKind(arts, more, Patch) && Retried(arts)
    ensures Retried(more)
  {
    forall a, b | FailThenPatch(more, a, b) ensures b.phase == a.phase {
      assert FailThenPatch(arts, a, b);
    }
  }

  lemma RetriedPatched(st: State, more: Arts)
    requires SameKind(st.arts, more, Verification) && Retried(st.arts)
    requires forall b :: b in more && b.kind == Patch ==> b in st.arts || (st.phase == Some(b.phase) && b.pass == st.attempts)
    requires forall a :: a in st.arts && a.kind == Verification && IsFailure(st.arts[a]) && a.pass + 1 == st.attempts ==> st.phase == Some(a.phase)
    ensures Retried(more)
  {
    forall a, b | FailThenPatch(more, a, b) ensures b.phase == a.phase {
      if b in st.arts {
        assert FailThenPatch(st.arts, a, b);
      }
    }
  }

  lemma RetriedVerified(arts: Arts, more: Arts, pass: nat)
    requires SameKind(arts, more, Patch) && Retried(arts) && Extends(arts, more)
    requires forall b :: b in arts && b.kind == Patch ==> b.pass <= pass
    requires forall a :: a in more && a.kind == Verification ==> a in arts || a.pass == pass
    ensures Retried(more)
  {
    forall a, b | FailThenPatch(more, a, b) ensures b.phase == a.phase {
      assert b.pass <= pass;
      assert FailThenPatch(arts, a, b);
    }
  }

  // While a pass opened by a failure is in S03, its phase is the one that failed.
  lemma FailedPhaseIsHere(c: Case, g: Config, a: ArtKey)
    requires Books(g) && Linked(c, g.st.arts) && Retry(c, g) && g.pc == At(Node(3, 80))
    requires a in g.st.arts && a.kind == Verification && IsFailure(g.st.arts[a]) && a.pass + 1 == g.st.attempts
    ensures g.st.phase == Some(a.phase)
  {
    hide Linked, Books;
    assert FailedAt(g.st.arts, a.pass);
    NotBoth(c, g, a.pass);
    assert FailureOn(g.st, a.pass);
    SamePhase(g, a, ArtKey(Verification, g.st.phase.value, a.pass));
  }

  lemma PatchAdded(c: Case, g: Config, h: Config, e: Env, x: Execution, b: ArtKey)
    requires Moved(Node(3, 80), g, h, x) && Fair(c, Node(3, 80), g, e, x) && SealsKept(g.ledger, g.st.arts)
    requires b in h.st.arts && b.kind == Patch
    ensures b in g.st.arts || (g.st.phase == Some(b.phase) && b.pass == g.st.attempts)
  {
    Added(Node(3, 80), g, h, x, b);
    hide Handle, Shape, Updated;
    if b !in g.st.arts {
      NewPatchPhase(c, g, e, x, b);
    }
  }

  lemma RetriedS380(c: Case, g: Config, h: Config, e: Env, x: Execution)
    requires Moved(Node(3, 80), g, h, x) && Fair(c, Node(3, 80), g, e, x) && Books(g) && Linked(c, g.st.arts) && Retry(c, g)
    requires Retried(g.st.arts)
    ensures Retried(h.st.arts)
  {
    hide Handle, Linked, Retry, Retried, KeysOk, CompletedRan, SealsKept, ArtsRecorded, SameKind, Updated, Shape, Clash;
    OtherNodesKeep(Node(3, 80), g, h, x, Verification);
    forall b | b in h.st.arts && b.kind == Patch ensures b in g.st.arts || (g.st.phase == Some(b.phase) && b.pass == g.st.attempts) {
      PatchAdded(c, g, h, e, x, b);
    }
    forall a | a in g.st.arts && a.kind == Verification && IsFailure(g.st.arts[a]) && a.pass + 1 == g.st.attempts
      ensures g.st.phase == Some(a.phase)
    {
      FailedPhaseIsHere(c, g, a);
    }
    RetriedPatched(g.st, h.st.arts);
  }

  lemma RetriedS490(g: Config, h: Config, x: Execution)
    requires Moved(Node(4, 90), g, h, x) && !Clash(g.st.arts, x.delta.seals) && KeysOk(g) && ArtsRecorded(g.ledger, g.st.arts)
    requires Retried(g.st.arts)
    ensures Retried(h.st.arts)
  {
    OtherNodesKeep(Node(4, 90), g, h, x, Patch);
    Grown(Node(4, 90), g, h, x);
    forall b | b in g.st.arts && b.kind == Patch ensures b.pass <= g.st.attempts {
      NoLaterArtifacts(g, b);
    }
    forall a | a in h.st.arts && a.kind == Verification ensures a in g.st.arts || a.pass == g.st.attempts {
      Added(Node(4, 90), g, h, x, a);
    }
    RetriedVerified(g.st.arts, h.st.arts, g.st.attempts);
  }

  lemma RetriedStep(c: Case, n: Node, g: Config, h: Config, e: Env, x: Execution)
    requires Moved(n, g, h, x) && Fair(c, n, g, e, x) && Books(g) && Linked(c, g.st.arts) && Retry(c, g) && Retried(g.st.arts)
    ensures Retried(h.st.arts)
  {
    hide Handle, KeysOk, CompletedRan, SealsKept, ArtsRecorded, Linked, Retry, Retried, Shape, Updated;
    if n == Node(3, 80) {
      RetriedS380(c, g, h, e, x);
    } else if n == Node(4, 90) {
      RetriedS490(g, h, x);
    } else {
      OtherNodesKeep(n, g, h, x, Verification);
      OtherNodesKeep(n, g, h, x, Patch);
      RetriedSame(g.st.arts, h.st.arts);
    }
  }
}
