// The workflow's structured keys stand for the strings the code builds: equal exactly when those are.

module KeyStrings {
  import opened Results
  import opened Text
  import opened Keys
  import opened Machine
  import opened Bookkeeping

  function NodeId(n: Node): string
    requires Catalogued(n)
  {
    ['S', '0', Digit(n.stage), '.', Digit(n.num / 10), Digit(n.num % 10)]
  }

  function SpecOf(n: Node): NodeSpec
    requires Catalogued(n)
  {
    NodeSpec(NodeId(n), ['s', '0', Digit(n.stage)] + "-production-v1")
  }

  function CountersOf(st: State): Counters { Counters(0, st.planAttempts, st.attempts, 0, None) }

  lemma NodeIdDetermines(n: Node, n': Node)
    requires Catalogued(n) && Catalogued(n') && NodeId(n) == NodeId(n')
    ensures n == n'
  {
    assert NodeId(n)[2] == NodeId(n')[2] && NodeId(n)[4] == NodeId(n')[4] && NodeId(n)[5] == NodeId(n')[5];
  }

  lemma StageOf(n: Node)
    requires Catalogued(n)
    ensures StagePrefix(NodeId(n)) == ['S', '0', Digit(n.stage)]
  {
    var id := NodeId(n);
    assert id[1..] == ['0', Digit(n.stage), '.', Digit(n.num / 10), Digit(n.num % 10)];
    assert id[1..][1..] == [Digit(n.stage), '.', Digit(n.num / 10), Digit(n.num % 10)];
    assert id[1..][1..][1..] == ['.', Digit(n.num / 10), Digit(n.num % 10)];
    assert StagePrefix(id[1..][1..][1..]) == "";
    assert StagePrefix(id[1..][1..]) == [Digit(n.stage)];
    assert StagePrefix(id[1..]) == ['0', Digit(n.stage)];
  }

  lemma RevisionAgrees(n: Node, st: State)
    requires Catalogued(n)
    ensures RevisionPass(NodeId(n), CountersOf(st)) == RevisionOf(n, st)
  {
    StageOf(n);
    var p := ['S', '0', Digit(n.stage)];
    assert p[2] == Digit(n.stage) && "S02"[2] == Digit(2) && "S03"[2] == Digit(3) && "S04"[2] == Digit(4) && "S05"[2] == Digit(5) && "S06"[2] == Digit(6);
    assert |"A3"| == 2;
    assert n.stage == 2 ==> p == "S02";
    assert n.stage == 3 ==> p == "S03";
    assert n.stage == 4 ==> p == "S04";
    assert n.stage == 5 ==> p == "S05";
    assert n.stage == 6 ==> p == "S06";
  }

  lemma SpecUnambiguous(n: Node)
    requires Catalogued(n)
    ensures Unambiguous(SpecOf(n))
  {
    ProductionVersions(SpecOf(n).nodeId, SpecOf(n).keyVersion);
  }

  // Two node calls of one case share an intent exactly when the machine gives them one key.
  lemma IntentKeysMatch(caseId: string, n: Node, st: State, n': Node, st': State)
    requires Catalogued(n) && Catalogued(n')
    ensures IntentKey(caseId, SpecOf(n), CountersOf(st)) == IntentKey(caseId, SpecOf(n'), CountersOf(st')) <==>
            KeyOf(n, st) == KeyOf(n', st')
  {
    RevisionAgrees(n, st);
    RevisionAgrees(n', st');
    SpecUnambiguous(n);
    SpecUnambiguous(n');
    if IntentKey(caseId, SpecOf(n), CountersOf(st)) == IntentKey(caseId, SpecOf(n'), CountersOf(st')) {
      KeyDetermines(caseId, SpecOf(n), RevisionOf(n, st), 0, caseId, SpecOf(n'), RevisionOf(n', st'), 0);
      NodeIdDetermines(n, n');
    }
  }

  // S01's selection is scoped by pass only; every other stage artifact by phase and pass.
  function StageOfArtifact(a: ArtKey): string {
    if a.kind == SelectedSolution then NodeId(Producer(a.kind)) + "-pas" + ['s'] + Decimal(a.pass)
    else StageId(NodeId(Producer(a.kind)), a.phase, a.pass)
  }

  function ArtifactId(caseId: string, a: ArtKey, typeName: string): string {
    StageArtifactId(caseId, StageOfArtifact(a), typeName)
  }

  lemma SelectionIdDetermines(caseId: string, pass: nat, pass': nat, typeName: string)
    requires ArtifactId(caseId, ArtKey(SelectedSolution, "", pass), typeName) ==
             ArtifactId(caseId, ArtKey(SelectedSolution, "", pass'), typeName)
    ensures pass == pass'
  {
    var a, b := StageOfArtifact(ArtKey(SelectedSolution, "", pass)), StageOfArtifact(ArtKey(SelectedSolution, "", pass'));
    assert caseId + "-" + a + "-" + typeName == (caseId + "-" + a) + ("-" + typeName);
    assert caseId + "-" + b + "-" + typeName == (caseId + "-" + b) + ("-" + typeName);
    CancelSuffix(caseId + "-" + a, caseId + "-" + b, "-" + typeName);
    CancelPrefix(caseId + "-", a, b);
    var front := NodeId(Node(1, 90)) + "-pas";
    LastSeparator('s', front, Decimal(pass), front, Decimal(pass'));
    DecimalInjective(pass, pass');
  }

  // Artifacts of one type share an id exactly when the machine gives them one key.
  lemma ArtifactIdsMatch(caseId: string, a: ArtKey, b: ArtKey, typeName: string)
    requires a.kind == b.kind && (a.kind == SelectedSolution ==> a.phase == "" && b.phase == "")
    ensures ArtifactId(caseId, a, typeName) == ArtifactId(caseId, b, typeName) <==> a == b
  {
    if ArtifactId(caseId, a, typeName) != ArtifactId(caseId, b, typeName) {
    } else if a.kind == SelectedSolution {
      SelectionIdDetermines(caseId, a.pass, b.pass, typeName);
    } else {
      StageArtifactIdDetermines(caseId, NodeId(Producer(a.kind)), typeName, a.phase, a.pass, b.phase, b.pass);
    }
  }
}
