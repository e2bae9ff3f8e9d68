/** The idempotency keys of `NodeRuntime` and the pass-scoped artifact ids of the handlers. */
module Keys {
  import opened Results
  import opened Text

  datatype NodeSpec = NodeSpec(nodeId: string, keyVersion: string)

  /** The state fields a key depends on besides the case id. */
  datatype Counters = Counters(a3: nat, s02: nat, s03: nat, resume: nat, resumeTarget: Option<string>)

  /** `node_id.split(".")[0]`. */
  function StagePrefix(nodeId: string): string {
    if nodeId == "" || nodeId[0] == '.' then "" else [nodeId[0]] + StagePrefix(nodeId[1..])
  }

  /** The repair pass that counts for a node: its own stage's counter, and no other stage's. */
  function RevisionPass(nodeId: string, c: Counters): nat {
    var stage := StagePrefix(nodeId);
    if stage == "A3" then c.a3
    else if stage == "S02" then c.s02
    else if stage in {"S03", "S04", "S05", "S06"} then c.s03
    else 0
  }

  function ResumeNumber(nodeId: string, c: Counters): nat {
    if c.resumeTarget == Some(nodeId) then c.resume else 0
  }

  function Tagged(base: string, tag: string, n: nat): string {
    if n == 0 then base else base + [':'] + (tag + Decimal(n))
  }

  function Render(caseId: string, spec: NodeSpec, revision: nat, resume: nat): string {
    Tagged(Tagged(caseId + [':'] + spec.nodeId + [':'] + spec.keyVersion, "rev", revision), "resume", resume)
  }

  function IntentKey(caseId: string, spec: NodeSpec, c: Counters): string {
    Render(caseId, spec, RevisionPass(spec.nodeId, c), ResumeNumber(spec.nodeId, c))
  }

  /** The derivation as the runtime runs it: a loop over the three revision counters. */
  method DeriveIdempotencyKey(spec: NodeSpec, caseId: string, c: Counters) returns (key: Outcome<string>)
    ensures key == if caseId == "" then Raised else Ok(IntentKey(caseId, spec, c))
  {
    if caseId == "" {
      return Raised;
    }
    var base := caseId + [':'] + spec.nodeId + [':'] + spec.keyVersion;
    ghost var base0 := base;
    var stage := StagePrefix(spec.nodeId);
    var table := [(c.a3, {"A3"}), (c.s02, {"S02"}), (c.s03, {"S03", "S04", "S05", "S06"})];
    for i := 0 to |table|
      invariant i == 0 ==> base == base0
      invariant i == 1 ==> base == Tagged(base0, "rev", if stage == "A3" then c.a3 else 0)
      invariant i == 2 ==> base == Tagged(base0, "rev",
                                          if stage == "A3" then c.a3 else if stage == "S02" then c.s02 else 0)
      invariant i == 3 ==> base == Tagged(base0, "rev", RevisionPass(spec.nodeId, c))
    {
      if stage in table[i].1 {
        var pass := table[i].0;
        if pass != 0 {
          base := base + [':'] + ("rev" + Decimal(pass));
        }
      }
    }
    if c.resume != 0 && c.resumeTarget == Some(spec.nodeId) {
      base := base + [':'] + ("resume" + Decimal(c.resume));
    }
    key := Ok(base);
  }

  // ----- what a key tells ---------------------------------------------------

  /** `tag` followed by digits only. */
  ghost predicate HasForm(s: string, tag: string) {
    |s| > |tag| && s[..|tag|] == tag && forall i | |tag| <= i < |s| :: IsDigit(s[i])
  }

  /** Ids and versions that cannot be mistaken for a separator or a suffix. */
  ghost predicate Unambiguous(spec: NodeSpec) {
    && ':' !in spec.nodeId && ':' !in spec.keyVersion
    && !HasForm(spec.keyVersion, "rev") && !HasForm(spec.keyVersion, "resume")
  }

  lemma NumeralForm(tag: string, n: nat)
    requires ':' !in tag
    ensures HasForm(tag + Decimal(n), tag) && ':' !in tag + Decimal(n)
  {
    var s := tag + Decimal(n);
    assert s[..|tag|] == tag;
    assert forall i | |tag| <= i < |s| :: s[i] == Decimal(n)[i - |tag|];
  }

  lemma FormStart(s: string, tag: string, i: nat)
    requires i < |tag| && i < |s|
    ensures HasForm(s, tag) ==> s[i] == tag[i]
  {
    assert |s| > |tag| ==> s[..|tag|][i] == s[i];
  }

  lemma SameTag(b: string, m: nat, b': string, n: nat, tag: string, last: string, last': string)
    requires ':' !in tag && m + n > 0
    requires Tagged(b, tag, m) == Tagged(b', tag, n)
    requires m == 0 ==> exists p :: b == p + [':'] + last
    requires n == 0 ==> exists p :: b' == p + [':'] + last'
    requires ':' !in last && ':' !in last' && !HasForm(last, tag) && !HasForm(last', tag)
    ensures m == n && b == b'
  {
    NumeralForm(tag, m);
    NumeralForm(tag, n);
    if m == 0 {
      var p :| b == p + [':'] + last;
      LastSeparator(':', p, last, b', tag + Decimal(n));
    } else if n == 0 {
      var p :| b' == p + [':'] + last';
      LastSeparator(':', b, tag + Decimal(m), p, last');
    } else {
      LastSeparator(':', b, tag + Decimal(m), b', tag + Decimal(n));
      CancelPrefix(tag, Decimal(m), Decimal(n));
      DecimalInjective(m, n);
    }
  }

  /** The last segment of a key before its resume suffix. */
  function LastSegment(spec: NodeSpec, revision: nat): string {
    if revision == 0 then spec.keyVersion else "rev" + Decimal(revision)
  }

  lemma SegmentFacts(caseId: string, spec: NodeSpec, revision: nat)
    requires Unambiguous(spec)
    ensures ':' !in LastSegment(spec, revision) && !HasForm(LastSegment(spec, revision), "resume")
    ensures exists p :: Tagged(caseId + [':'] + spec.nodeId + [':'] + spec.keyVersion, "rev", revision)
                        == p + [':'] + LastSegment(spec, revision)
  {
    NumeralForm("rev", revision);
    var base := caseId + [':'] + spec.nodeId;
    if revision == 0 {
      assert base + [':'] + spec.keyVersion == base + [':'] + LastSegment(spec, 0);
    } else {
      FormStart(LastSegment(spec, revision), "resume", 2);
      assert LastSegment(spec, revision)[2] == 'v' && "resume"[2] == 's';
      assert base + [':'] + spec.keyVersion + [':'] + ("rev" + Decimal(revision))
          == (base + [':'] + spec.keyVersion) + [':'] + LastSegment(spec, revision);
    }
  }

  /** A key belongs to one case, node, version, pass and resume, whatever the case id contains. */
  lemma KeyDetermines(c: string, s: NodeSpec, rev: nat, res: nat, c': string, s': NodeSpec, rev': nat, res': nat)
    requires Unambiguous(s) && Unambiguous(s')
    requires Render(c, s, rev, res) == Render(c', s', rev', res')
    ensures c == c' && s == s' && rev == rev' && res == res'
  {
    var b, b' := c + [':'] + s.nodeId, c' + [':'] + s'.nodeId;
    var v, v' := b + [':'] + s.keyVersion, b' + [':'] + s'.keyVersion;
    SegmentFacts(c, s, rev);
    SegmentFacts(c', s', rev');
    if res + res' > 0 {
      SameTag(Tagged(v, "rev", rev), res, Tagged(v', "rev", rev'), res', "resume",
              LastSegment(s, rev), LastSegment(s', rev'));
    }
    if rev + rev' > 0 {
      SameTag(v, rev, v', rev', "rev", s.keyVersion, s'.keyVersion);
    }
    LastSeparator(':', b, s.keyVersion, b', s'.keyVersion);
    LastSeparator(':', c, s.nodeId, c', s'.nodeId);
  }

  /** Versions such as `s03-production-v1`, which every shared-workflow stage declares. */
  lemma ProductionVersions(node: string, version: string)
    requires ':' !in node && ':' !in version && version != "" && version[0] == 's'
    ensures Unambiguous(NodeSpec(node, version))
  {
    FormStart(version, "rev", 0);
    FormStart(version, "resume", 0);
    assert "rev"[0] == 'r' && "resume"[0] == 'r';
  }

  /** A version that reads like a suffix makes two different calls share one key. */
  lemma VersionCollision()
    ensures Render("C:S03.10", NodeSpec("s03", "rev1"), 0, 0) == Render("C", NodeSpec("S03.10", "s03"), 1, 0)
  {
    assert Decimal(1) == "1";
    assert "rev" + "1" == "rev1";
  }

  // ----- resuming -----------------------------------------------------------

  /** The counters `resume_case` writes for an interrupt raised at `stage`. */
  function Resumed(c: Counters, stage: string): Counters {
    c.(resume := c.resume + 1, resumeTarget := Some(stage))
  }

  /** The halted node's key after a resume was never used before, in any pass by any node. */
  lemma ResumeKeyFresh(caseId: string, s: NodeSpec, c: Counters, s': NodeSpec, earlier: Counters)
    requires Unambiguous(s) && Unambiguous(s') && earlier.resume <= c.resume
    ensures IntentKey(caseId, s, Resumed(c, s.nodeId)) != IntentKey(caseId, s', earlier)
  {
    if IntentKey(caseId, s, Resumed(c, s.nodeId)) == IntentKey(caseId, s', earlier) {
      KeyDetermines(caseId, s, RevisionPass(s.nodeId, Resumed(c, s.nodeId)), c.resume + 1,
                    caseId, s', RevisionPass(s'.nodeId, earlier), ResumeNumber(s'.nodeId, earlier));
    }
  }

  /**
   * A resume changes the keys of its own target and of the previous one, and no other. The
   * previous target drops back to the key under which it halted, so it replays that halt.
   */
  lemma ResumeKeyChanges(caseId: string, s: NodeSpec, c: Counters, stage: string)
    requires Unambiguous(s)
    ensures IntentKey(caseId, s, Resumed(c, stage)) == IntentKey(caseId, s, c) <==>
            s.nodeId != stage && !(c.resumeTarget == Some(s.nodeId) && c.resume > 0)
    ensures c.resumeTarget == Some(s.nodeId) && s.nodeId != stage ==>
              IntentKey(caseId, s, Resumed(c, stage)) == IntentKey(caseId, s, c.(resume := 0, resumeTarget := None))
  {
    var after := Resumed(c, stage);
    assert RevisionPass(s.nodeId, after) == RevisionPass(s.nodeId, c);
    if IntentKey(caseId, s, after) == IntentKey(caseId, s, c) {
      KeyDetermines(caseId, s, RevisionPass(s.nodeId, after), ResumeNumber(s.nodeId, after),
                    caseId, s, RevisionPass(s.nodeId, c), ResumeNumber(s.nodeId, c));
    }
  }

  // ----- pass-scoped artifact ids -------------------------------------------

  /** `f"{node_id}-{phase_id}-pass{n}"`. */
  function StageId(nodeId: string, phase: string, pass: nat): string {
    nodeId + "-" + phase + "-pas" + ['s'] + Decimal(pass)
  }

  /** `f"{case_id}-{stage}-{artifact_type}"`. */
  function StageArtifactId(caseId: string, stage: string, artifactType: string): string {
    caseId + "-" + stage + "-" + artifactType
  }

  lemma CancelSuffix(a: string, b: string, p: string)
    requires a + p == b + p
    ensures a == b
  {
    assert |a| == |b|;
    assert a == (a + p)[..|a|];
    assert b == (b + p)[..|b|];
  }

  /** Within one node and type, an artifact id names one phase and one pass. */
  lemma StageArtifactIdDetermines(caseId: string, nodeId: string, artifactType: string,
                                  phase: string, pass: nat, phase': string, pass': nat)
    requires StageArtifactId(caseId, StageId(nodeId, phase, pass), artifactType)
          == StageArtifactId(caseId, StageId(nodeId, phase', pass'), artifactType)
    ensures phase == phase' && pass == pass'
  {
    var a, b := StageId(nodeId, phase, pass), StageId(nodeId, phase', pass');
    CancelSuffix(caseId + "-" + a, caseId + "-" + b, "-" + artifactType) by {
      assert caseId + "-" + a + "-" + artifactType == (caseId + "-" + a) + ("-" + artifactType);
      assert caseId + "-" + b + "-" + artifactType == (caseId + "-" + b) + ("-" + artifactType);
    }
    CancelPrefix(caseId + "-", a, b);
    LastSeparator('s', nodeId + "-" + phase + "-pas", Decimal(pass), nodeId + "-" + phase' + "-pas", Decimal(pass'));
    DecimalInjective(pass, pass');
    CancelSuffix(nodeId + "-" + phase, nodeId + "-" + phase', "-pas");
    CancelPrefix(nodeId + "-", phase, phase');
  }
}
