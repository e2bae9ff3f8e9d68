// S06: target and guardrail evaluation, the decision table, and its escalation rule.

module Decide {
  import opened Results
  import opened Checks
  import opened Remeasure

  datatype Operator = Lt | Lte | Eq | Gte | Gt
  datatype Guardrail = Guardrail(id: string, metric: string, operator: Operator, threshold: real)
  datatype TargetEval = TargetEval(criterion: string, value: real, met: bool)
  datatype Source = StatisticalEffect | VerificationCheck | Unavailable
  datatype GuardEval = GuardEval(guardrail: string, source: Source, observed: Option<real>, passed: bool)
  datatype Class = NoEvidence | AllTargetsMet | WrongDirection | Repairable
  datatype Verdict = Keep | FixOnePart | Revert | Escalate

  const EPSILON: real := 0.000000001

  function Abs(x: real): real { if x < 0.0 then -x else x }

  predicate Meets(c: Criterion, value: real) {
    match c.direction
    case Minimize => value <= c.target
    case Maximize => value >= c.target
    case Target => Abs(value - c.target) <= EPSILON
  }

  // Dictionaries keyed by criterion, by metric and by check: the last entry wins.
  function EffectById(es: seq<Effect>, id: string): Option<Effect> {
    if |es| == 0 then None
    else if es[|es| - 1].criterion == id then Some(es[|es| - 1])
    else EffectById(es[..|es| - 1], id)
  }

  function EffectByMetric(es: seq<Effect>, metric: string): Option<Effect> {
    if |es| == 0 then None
    else if es[|es| - 1].metric == metric then Some(es[|es| - 1])
    else EffectByMetric(es[..|es| - 1], metric)
  }

  function CheckByMetric(rs: seq<Check>, metric: string): Option<Check> {
    if |rs| == 0 then None
    else if rs[|rs| - 1].kind + SUFFIX == metric then Some(rs[|rs| - 1])
    else CheckByMetric(rs[..|rs| - 1], metric)
  }

  // S06.20. An evaluation without an effect carries a NaN, which the canonical encoding of the
  // node's own result refuses, so the node raises.
  function EvaluateTarget(c: Criterion, es: seq<Effect>): Outcome<TargetEval> {
    var e := EffectById(es, c.id);
    if e.None? then Raised else Ok(TargetEval(c.id, e.value.treatmentMean, Meets(c, e.value.treatmentMean)))
  }

  function EvaluateTargets(cs: seq<Criterion>, es: seq<Effect>): Outcome<seq<TargetEval>> {
    if |cs| == 0 then Ok([]) else
    var rest := EvaluateTargets(cs[..|cs| - 1], es);
    var last := EvaluateTarget(cs[|cs| - 1], es);
    if rest.Raised? || last.Raised? then Raised else Ok(rest.value + [last.value])
  }

  lemma {:induction false} EvaluateTargetsMeaning(cs: seq<Criterion>, es: seq<Effect>)
    ensures EvaluateTargets(cs, es).Ok? <==> forall i :: 0 <= i < |cs| ==> EffectById(es, cs[i].id).Some?
    ensures EvaluateTargets(cs, es).Ok? ==>
              var r := EvaluateTargets(cs, es).value;
              |r| == |cs| && forall i :: 0 <= i < |cs| ==> Ok(r[i]) == EvaluateTarget(cs[i], es)
  {
    if |cs| > 0 {
      var init := cs[..|cs| - 1];
      EvaluateTargetsMeaning(init, es);
      assert forall i :: 0 <= i < |init| ==> init[i] == cs[i];
      assert EffectById(es, cs[|cs| - 1].id).Some? <==> EvaluateTarget(cs[|cs| - 1], es).Ok?;
    }
  }

  predicate Holds(op: Operator, value: real, threshold: real) {
    match op
    case Lt => value < threshold
    case Lte => value <= threshold
    case Eq => value == threshold
    case Gte => value >= threshold
    case Gt => value > threshold
  }

  function EvaluateGuardrail(g: Guardrail, es: seq<Effect>, rs: seq<Check>): GuardEval {
    var e := EffectByMetric(es, g.metric);
    var r := CheckByMetric(rs, g.metric);
    if e.Some? then
      GuardEval(g.id, StatisticalEffect, Some(e.value.treatmentMean), Holds(g.operator, e.value.treatmentMean, g.threshold))
    else if r.Some? then
      GuardEval(g.id, VerificationCheck, Some(r.value.exitCode as real), Holds(g.operator, r.value.exitCode as real, g.threshold))
    else GuardEval(g.id, Unavailable, None, false)
  }

  function EvaluateGuardrails(gs: seq<Guardrail>, es: seq<Effect>, rs: seq<Check>): seq<GuardEval> {
    seq(|gs|, i requires 0 <= i < |gs| => EvaluateGuardrail(gs[i], es, rs))
  }

  // A guardrail passes only on evidence, and on an observed value that satisfies it.
  lemma GuardrailFailsClosed(g: Guardrail, es: seq<Effect>, rs: seq<Check>)
    ensures var v := EvaluateGuardrail(g, es, rs);
            v.passed <==> v.observed.Some? && Holds(g.operator, v.observed.value, g.threshold)
    ensures EvaluateGuardrail(g, es, rs).observed.Some? <==>
            (exists e :: e in es && e.metric == g.metric) || (exists r :: r in rs && r.kind + SUFFIX == g.metric)
    ensures EvaluateGuardrail(g, es, rs).source == VerificationCheck ==> forall e :: e in es ==> e.metric != g.metric
  {
    EffectByMetricMeaning(es, g.metric);
    CheckByMetricMeaning(rs, g.metric);
  }

  lemma {:induction false} EffectByMetricMeaning(es: seq<Effect>, metric: string)
    ensures EffectByMetric(es, metric).Some? <==> exists e :: e in es && e.metric == metric
  {
    if |es| > 0 {
      EffectByMetricMeaning(es[..|es| - 1], metric);
      assert es == es[..|es| - 1] + [es[|es| - 1]];
    }
  }

  lemma {:induction false} CheckByMetricMeaning(rs: seq<Check>, metric: string)
    ensures CheckByMetric(rs, metric).Some? <==> exists r :: r in rs && r.kind + SUFFIX == metric
  {
    if |rs| > 0 {
      CheckByMetricMeaning(rs[..|rs| - 1], metric);
      assert rs == rs[..|rs| - 1] + [rs[|rs| - 1]];
    }
  }

  function CountMet(ts: seq<TargetEval>): nat {
    if |ts| == 0 then 0 else CountMet(ts[..|ts| - 1]) + if ts[|ts| - 1].met then 1 else 0
  }

  // S06.40
  function Classify(ts: seq<TargetEval>): Class {
    var met := CountMet(ts);
    if |ts| == 0 then NoEvidence
    else if met == |ts| then AllTargetsMet
    else if met == 0 then WrongDirection
    else Repairable
  }

  predicate AllMet(ts: seq<TargetEval>) { forall i :: 0 <= i < |ts| ==> ts[i].met }
  predicate SomeMet(ts: seq<TargetEval>) { exists i :: 0 <= i < |ts| && ts[i].met }
  predicate AllHold(gs: seq<GuardEval>) { forall i :: 0 <= i < |gs| ==> gs[i].passed }

  lemma {:induction false} CountMetMeaning(ts: seq<TargetEval>)
    ensures CountMet(ts) <= |ts|
    ensures CountMet(ts) == |ts| <==> AllMet(ts)
    ensures CountMet(ts) == 0 <==> !SomeMet(ts)
  {
    if |ts| > 0 {
      var init, last := ts[..|ts| - 1], ts[|ts| - 1];
      CountMetMeaning(init);
      assert forall i :: 0 <= i < |init| ==> init[i] == ts[i];
      assert AllMet(ts) <==> AllMet(init) && last.met;
      if SomeMet(init) {
        var i :| 0 <= i < |init| && init[i].met;
        assert ts[i].met;
      }
      assert SomeMet(ts) <==> SomeMet(init) || last.met;
    }
  }

  // S06.50
  function Table(guardrails: seq<GuardEval>, class_: Class): Verdict {
    if !AllHold(guardrails) then Revert
    else if class_ == AllTargetsMet then Keep
    else if class_ == Repairable then FixOnePart
    else Revert
  }

  // S06.70: a revert whose rollback could not be verified is escalated, never recorded as a revert.
  function Final(v: Verdict, rollbackVerified: bool): Verdict {
    if v == Revert && !rollbackVerified then Escalate else v
  }

  // The whole decision, said without the table: one line per outcome, and the four are exhaustive and exclusive.
  lemma DecisionMeaning(ts: seq<TargetEval>, gs: seq<GuardEval>, rollbackVerified: bool)
    ensures var v := Final(Table(gs, Classify(ts)), rollbackVerified);
            && (v == Keep <==> AllHold(gs) && |ts| > 0 && AllMet(ts))
            && (v == FixOnePart <==> AllHold(gs) && SomeMet(ts) && !AllMet(ts))
            && (v == Revert <==> (!AllHold(gs) || !SomeMet(ts)) && rollbackVerified)
            && (v == Escalate <==> (!AllHold(gs) || !SomeMet(ts)) && !rollbackVerified)
  {
    CountMetMeaning(ts);
  }

  // With a quality-checked treatment every target is evaluated, on that treatment's own mean.
  lemma TargetsUseTheTreatment(cs: seq<Criterion>, t: Treatment, bs: seq<Baseline>, rs: seq<Requirement>)
    requires Quality(cs, t, bs, rs)
    ensures forall i :: 0 <= i < |cs| ==> cs[i].id in t.measured
    ensures EvaluateTargets(cs, EffectsOf(cs, t, bs)).Ok?
    ensures var r := EvaluateTargets(cs, EffectsOf(cs, t, bs)).value;
            |r| == |cs| && forall i :: 0 <= i < |cs| ==>
              r[i] == TargetEval(cs[i].id, t.measured[cs[i].id].mean, Meets(cs[i], t.measured[cs[i].id].mean))
  {
    var es := EffectsOf(cs, t, bs);
    QualityGivesEveryEffect(cs, t, bs, rs);
    EvaluateTargetsMeaning(cs, es);
    forall i | 0 <= i < |cs|
      ensures EffectById(es, cs[i].id).Some? && EffectById(es, cs[i].id).value.treatmentMean == t.measured[cs[i].id].mean
    {
      assert es[i].criterion == cs[i].id;
      EffectByIdFinds(es, t, cs[i].id, i);
    }
  }

  lemma {:induction false} EffectByIdFinds(es: seq<Effect>, t: Treatment, id: string, i: nat)
    requires i < |es| && es[i].criterion == id
    requires forall j :: 0 <= j < |es| ==> es[j].criterion in t.measured && es[j].treatmentMean == t.measured[es[j].criterion].mean
    ensures EffectById(es, id).Some? && id in t.measured && EffectById(es, id).value.treatmentMean == t.measured[id].mean
  {
    if es[|es| - 1].criterion != id {
      EffectByIdFinds(es[..|es| - 1], t, id, i);
    }
  }
}
