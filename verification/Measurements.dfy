// Which readings a pass's statistics come from: those S05.40 recorded for that pass.

module Measurements {
  import opened Results
  import opened Remeasure
  import opened Machine
  import opened Bookkeeping
  import opened Passes
  import opened Evidence
  import opened Progress
  import opened Invariant

  // What S05.40 recorded for a pass.
  function Recorded(ledger: Ledger, pass: nat): Option<Treatment> {
    var k := NodeKey(Node(5, 40), pass);
    if k in ledger then ledger[k].delta.treatment else None
  }

  // Between S05.40 and S05.80 the working state holds that record.
  ghost predicate TreatmentHere(g: Config) {
    g.pc.At? && g.pc.node.stage == 5 && 40 < g.pc.node.num <= 80 ==> Recorded(g.ledger, g.st.attempts) == g.st.treatment
  }

  predicate MeasuredIn(c: Case, ledger: Ledger, d: Artifact, pass: nat) {
    d.StatisticalDoc? && Recorded(ledger, pass).Some? &&
    d.effects == EffectsOf(c.criteria, Recorded(ledger, pass).value, c.baseline) &&
    Quality(c.criteria, Recorded(ledger, pass).value, c.baseline, c.requirements)
  }

  // Every sealed statistics document is computed from its own pass's record, which had the quality for it.
  ghost predicate StatisticsMeasured(c: Case, ledger: Ledger, arts: Arts) {
    forall a :: a in arts && a.kind == Statistical ==> MeasuredIn(c, ledger, arts[a], a.pass)
  }

  ghost predicate Sampled(c: Case, g: Config) { TreatmentHere(g) && StatisticsMeasured(c, g.ledger, g.st.arts) }

  lemma RecordStays(n: Node, g: Config, h: Config, x: Execution, pass: nat)
    requires Moved(n, g, h, x)
    ensures Recorded(g.ledger, pass).Some? ==> Recorded(h.ledger, pass) == Recorded(g.ledger, pass)
    ensures n != Node(5, 40) ==> Recorded(h.ledger, pass) == Recorded(g.ledger, pass)
  {
  }

  lemma RecordMade(c: Case, g: Config, h: Config, e: Env, x: Execution)
    requires Ran(c, Node(5, 40), g, h, e, x) && KeyOf(Node(5, 40), g.st) !in g.ledger
    ensures Recorded(h.ledger, h.st.attempts) == h.st.treatment
  {
    assert Ok(x) == HandleS05(c, 40, g.st, e);
  }

  lemma IntoS5(n: Node, g: Config, h: Config, x: Execution)
    requires Moved(n, g, h, x) && h.pc.At? && h.pc.node.stage == 5 && 40 < h.pc.node.num
    ensures n.stage == 5 && n.num >= 40
  {
  }

  lemma TreatmentHereStep(c: Case, n: Node, g: Config, h: Config, e: Env, x: Execution)
    requires Moved(n, g, h, x) && Fair(c, n, g, e, x) && TreatmentHere(g) && InOrder(g) && LoopsEarly(g)
    ensures TreatmentHere(h)
  {
    hide InOrder, LoopsEarly, Updated, Shape;
    if h.pc.At? && h.pc.node.stage == 5 && 40 < h.pc.node.num <= 80 {
      IntoS5(n, g, h, x);
      KeysAreFresh(g);
      if n == Node(5, 40) {
        RecordMade(c, g, h, e, x);
      } else {
        assert n == Node(5, n.num);
        UntouchedS5(c, n.num, g, h, e, x);
        RecordStays(n, g, h, x, g.st.attempts);
      }
    }
  }

  lemma StatisticsSealed(c: Case, g: Config, e: Env, x: Execution, a: ArtKey)
    requires Handle(c, Node(5, 80), g.st, e) == Ok(x) && WorkS5(c, g.st, 80) && a in x.delta.seals
    requires g.pc == At(Node(5, 80)) && TreatmentHere(g)
    ensures a.pass == g.st.attempts && MeasuredIn(c, g.ledger, x.delta.seals[a], a.pass)
  {
    assert Ok(x) == HandleS05(c, 80, g.st, e);
    assert Ok(x) == SealStatistics(c, g.st, e);
  }

  lemma AddedStatistics(c: Case, n: Node, g: Config, h: Config, e: Env, x: Execution, a: ArtKey)
    requires Moved(n, g, h, x) && Fair(c, n, g, e, x) && SealsKept(g.ledger, g.st.arts) && Work(c, g) && TreatmentHere(g)
    requires a in h.st.arts && a !in g.st.arts && a.kind == Statistical
    ensures n == Node(5, 80) && MeasuredIn(c, g.ledger, h.st.arts[a], a.pass)
  {
    hide TreatmentHere, MeasuredIn, WorkS5;
    assert a in x.delta.seals && Producer(a.kind) == n;
    assert KeyOf(n, g.st) !in g.ledger;
    StatisticsSealed(c, g, e, x, a);
  }

  lemma MeasuredStays(c: Case, n: Node, g: Config, h: Config, x: Execution, d: Artifact, pass: nat)
    requires Moved(n, g, h, x) && MeasuredIn(c, g.ledger, d, pass)
    ensures MeasuredIn(c, h.ledger, d, pass)
  {
    hide Moved, Quality, EffectsOf;
    RecordStays(n, g, h, x, pass);
  }

  lemma StatisticsStep(c: Case, n: Node, g: Config, h: Config, e: Env, x: Execution)
    requires Moved(n, g, h, x) && Fair(c, n, g, e, x) && SealsKept(g.ledger, g.st.arts) && Work(c, g) && TreatmentHere(g)
    requires StatisticsMeasured(c, g.ledger, g.st.arts)
    ensures StatisticsMeasured(c, h.ledger, h.st.arts)
  {
    Grown(n, g, h, x);
    hide SealsKept, Work, TreatmentHere, MeasuredIn, Fair, Moved;
    forall a | a in h.st.arts && a.kind == Statistical ensures MeasuredIn(c, h.ledger, h.st.arts[a], a.pass) {
      if a !in g.st.arts {
        AddedStatistics(c, n, g, h, e, x, a);
      }
      MeasuredStays(c, n, g, h, x, h.st.arts[a], a.pass);
    }
  }

  lemma SampledStep(c: Case, n: Node, g: Config, h: Config, e: Env, x: Execution)
    requires Moved(n, g, h, x) && Fair(c, n, g, e, x) && Books(g) && Work(c, g) && InOrder(g) && LoopsEarly(g) && Sampled(c, g)
    ensures Sampled(c, h)
  {
    hide TreatmentHere, StatisticsMeasured, Moved, Fair, Work, InOrder, LoopsEarly;
    TreatmentHereStep(c, n, g, h, e, x);
    StatisticsStep(c, n, g, h, e, x);
  }
}
