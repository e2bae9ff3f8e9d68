// S05: rerunning each criterion's command on the patched workspace, the sample-quality check,
// and the effect of each criterion against the baseline.

module Remeasure {
  import opened Results
  import opened Checks

  datatype Direction = Minimize | Maximize | Target
  datatype Criterion = Criterion(id: string, metric: string, direction: Direction, target: real)
  datatype Requirement = Requirement(criterion: string, minimum: nat)

  // What the worker gave back for one criterion; a job that was refused or timed out gave nothing.
  datatype Reading = Lost | Returned(rounds: seq<real>, exitCode: int)

  datatype Sample = Sample(mean: real, count: nat)
  datatype Treatment = Treatment(measured: map<string, Sample>, unmeasurable: set<string>)

  const RESOLVABLE: set<string> := {"build", "lint", "type", "unit", "integration", "security", "benchmark"}

  function ResolveKind(c: Criterion, commands: set<string>): Option<string> {
    var kind := RemoveSuffix(c.metric, SUFFIX);
    if kind == c.metric || kind !in RESOLVABLE || kind !in commands then None else Some(kind)
  }

  function Sum(xs: seq<real>): real {
    if |xs| == 0 then 0.0 else Sum(xs[..|xs| - 1]) + xs[|xs| - 1]
  }

  function Measure(kind: string, r: Reading): Outcome<Sample> {
    if r.Lost? then Raised
    else if kind != "benchmark" then Ok(Sample(r.exitCode as real, 1))
    else if |r.rounds| == 0 then Raised
    else Ok(Sample(Sum(r.rounds) / |r.rounds| as real, |r.rounds|))
  }

  function ReadingOf(readings: map<string, Reading>, id: string): Reading {
    if id in readings then readings[id] else Lost
  }

  function MeasureCriterion(c: Criterion, commands: set<string>, readings: map<string, Reading>): Outcome<Option<Sample>> {
    var kind := ResolveKind(c, commands);
    if kind.None? then Ok(None) else
    var s := Measure(kind.value, ReadingOf(readings, c.id));
    if s.Raised? then Raised else Ok(Some(s.value))
  }

  // Reference for S05.40: a later criterion with the same id overwrites an earlier one.
  function TreatmentOf(cs: seq<Criterion>, commands: set<string>, readings: map<string, Reading>): Outcome<Treatment> {
    if |cs| == 0 then Ok(Treatment(map[], {})) else
    var c := cs[|cs| - 1];
    var before := TreatmentOf(cs[..|cs| - 1], commands, readings);
    var s := MeasureCriterion(c, commands, readings);
    if before.Raised? || s.Raised? then Raised
    else if s.value.None? then Ok(before.value.(unmeasurable := before.value.unmeasurable + {c.id}))
    else Ok(before.value.(measured := before.value.measured[c.id := s.value.value]))
  }

  method RemeasureAll(cs: seq<Criterion>, commands: set<string>, readings: map<string, Reading>)
    returns (r: Outcome<Treatment>)
    ensures r == TreatmentOf(cs, commands, readings)
  {
    var measured: map<string, Sample> := map[];
    var unmeasurable: set<string> := {};
    for n := 0 to |cs|
      invariant TreatmentOf(cs[..n], commands, readings) == Ok(Treatment(measured, unmeasurable))
    {
      assert cs[..n + 1][..n] == cs[..n];
      var kind := ResolveKind(cs[n], commands);
      if kind.None? {
        unmeasurable := unmeasurable + {cs[n].id};
        continue;
      }
      var s := Measure(kind.value, ReadingOf(readings, cs[n].id));
      if s.Raised? {
        RaisedStays(cs, commands, readings, n + 1);
        return Raised;
      }
      measured := measured[cs[n].id := s.value];
    }
    assert cs[..|cs|] == cs;
    return Ok(Treatment(measured, unmeasurable));
  }

  lemma {:induction false} RaisedStays(cs: seq<Criterion>, commands: set<string>, readings: map<string, Reading>, n: nat)
    requires n <= |cs| && TreatmentOf(cs[..n], commands, readings).Raised?
    ensures TreatmentOf(cs, commands, readings).Raised?
    decreases |cs| - n
  {
    if n == |cs| {
      assert cs[..n] == cs;
    } else {
      assert cs[..n + 1][..n] == cs[..n];
      RaisedStays(cs, commands, readings, n + 1);
    }
  }

  // S05.40 raises exactly when measuring one of the criteria does.
  lemma {:induction false} RaisesWhen(cs: seq<Criterion>, commands: set<string>, readings: map<string, Reading>)
    ensures TreatmentOf(cs, commands, readings).Raised? <==>
            exists i :: 0 <= i < |cs| && MeasureCriterion(cs[i], commands, readings).Raised?
  {
    if |cs| > 0 {
      var init := cs[..|cs| - 1];
      RaisesWhen(init, commands, readings);
      if exists i :: 0 <= i < |init| && MeasureCriterion(init[i], commands, readings).Raised? {
        var i :| 0 <= i < |init| && MeasureCriterion(init[i], commands, readings).Raised?;
        assert cs[i] == init[i];
      }
    }
  }

  // Every sample on file is what some criterion of that id measures; nothing else gets in.
  lemma {:induction false} SamplesAreMeasured(cs: seq<Criterion>, commands: set<string>, readings: map<string, Reading>, id: string)
    requires TreatmentOf(cs, commands, readings).Ok?
    requires id in TreatmentOf(cs, commands, readings).value.measured
    ensures exists i :: 0 <= i < |cs| && cs[i].id == id &&
              MeasureCriterion(cs[i], commands, readings) == Ok(Some(TreatmentOf(cs, commands, readings).value.measured[id]))
  {
    var init, c := cs[..|cs| - 1], cs[|cs| - 1];
    var t := TreatmentOf(cs, commands, readings).value;
    var s := MeasureCriterion(c, commands, readings);
    if c.id == id && s.value.Some? {
      assert cs[|cs| - 1].id == id && s == Ok(Some(t.measured[id]));
    } else {
      SamplesAreMeasured(init, commands, readings, id);
      var i :| 0 <= i < |init| && init[i].id == id && MeasureCriterion(init[i], commands, readings) == Ok(Some(t.measured[id]));
      assert cs[i] == init[i];
    }
  }

  // Every criterion ends up measured or declared unmeasurable.
  lemma {:induction false} TreatmentCovers(cs: seq<Criterion>, commands: set<string>, readings: map<string, Reading>, i: nat)
    requires TreatmentOf(cs, commands, readings).Ok? && i < |cs|
    ensures var t := TreatmentOf(cs, commands, readings).value;
            cs[i].id in t.measured || cs[i].id in t.unmeasurable
  {
    var init, c := cs[..|cs| - 1], cs[|cs| - 1];
    if i < |cs| - 1 {
      TreatmentCovers(init, commands, readings, i);
      assert init[i] == cs[i];
    }
  }

  // The minimum sample count for a criterion: the last requirement naming it, else 1.
  function MinimumSamples(rs: seq<Requirement>, id: string): nat {
    if |rs| == 0 then 1
    else if rs[|rs| - 1].criterion == id then rs[|rs| - 1].minimum
    else MinimumSamples(rs[..|rs| - 1], id)
  }

  // The baseline aggregate of a metric: a dictionary built from the list keeps the last.
  function BaselineOf(bs: seq<Baseline>, metric: string): Option<Baseline> {
    if |bs| == 0 then None
    else if bs[|bs| - 1].metric == metric then Some(bs[|bs| - 1])
    else BaselineOf(bs[..|bs| - 1], metric)
  }

  lemma {:induction false} BaselineOfMeaning(bs: seq<Baseline>, metric: string)
    ensures BaselineOf(bs, metric).Some? <==> exists b :: b in bs && b.metric == metric
    ensures BaselineOf(bs, metric).Some? ==> BaselineOf(bs, metric).value in bs && BaselineOf(bs, metric).value.metric == metric
  {
    if |bs| > 0 {
      BaselineOfMeaning(bs[..|bs| - 1], metric);
      assert bs == bs[..|bs| - 1] + [bs[|bs| - 1]];
    }
  }

  predicate Sufficient(c: Criterion, t: Treatment, bs: seq<Baseline>, rs: seq<Requirement>) {
    c.id !in t.unmeasurable && BaselineOf(bs, c.metric).Some? &&
    c.id in t.measured && t.measured[c.id].count >= MinimumSamples(rs, c.id)
  }

  predicate Quality(cs: seq<Criterion>, t: Treatment, bs: seq<Baseline>, rs: seq<Requirement>) {
    forall i :: 0 <= i < |cs| ==> Sufficient(cs[i], t, bs, rs)
  }

  // S05.60: the criteria with a reason against them, in order; quality passes when there are none.
  method QualityReasons(cs: seq<Criterion>, t: Treatment, bs: seq<Baseline>, rs: seq<Requirement>)
    returns (reasons: seq<string>, passed: bool)
    ensures passed <==> Quality(cs, t, bs, rs)
    ensures passed <==> reasons == []
    ensures forall id :: id in reasons <==> exists i :: 0 <= i < |cs| && cs[i].id == id && !Sufficient(cs[i], t, bs, rs)
  {
    var metrics := set b <- bs :: b.metric;
    reasons := [];
    for n := 0 to |cs|
      invariant reasons == [] <==> Quality(cs[..n], t, bs, rs)
      invariant forall id :: id in reasons <==> exists i :: 0 <= i < n && cs[i].id == id && !Sufficient(cs[i], t, bs, rs)
    {
      var c := cs[n];
      BaselineOfMeaning(bs, c.metric);
      assert c.metric in metrics <==> BaselineOf(bs, c.metric).Some?;
      ghost var before := reasons;
      if c.id in t.unmeasurable {
        reasons := reasons + [c.id];
      } else if c.metric !in metrics {
        reasons := reasons + [c.id];
      } else if c.id !in t.measured || t.measured[c.id].count < MinimumSamples(rs, c.id) {
        reasons := reasons + [c.id];
      }
      assert reasons == if Sufficient(c, t, bs, rs) then before else before + [c.id];
    }
    assert cs[..|cs|] == cs;
    passed := reasons == [];
  }

  datatype Effect = Effect(criterion: string, metric: string, baselineMean: real, treatmentMean: real,
                           absolute: real, relative: Option<real>, count: nat)

  function EffectFor(c: Criterion, s: Sample, b: Baseline): Effect {
    var change := s.mean - b.mean;
    Effect(c.id, c.metric, b.mean, s.mean, change, if b.mean == 0.0 then None else Some(change / b.mean), s.count)
  }

  function EffectsOf(cs: seq<Criterion>, t: Treatment, bs: seq<Baseline>): seq<Effect> {
    if |cs| == 0 then [] else
    var c := cs[|cs| - 1];
    var rest := EffectsOf(cs[..|cs| - 1], t, bs);
    var b := BaselineOf(bs, c.metric);
    if c.id !in t.measured || b.None? then rest else rest + [EffectFor(c, t.measured[c.id], b.value)]
  }

  method ComputeEffects(cs: seq<Criterion>, t: Treatment, bs: seq<Baseline>) returns (effects: seq<Effect>)
    ensures effects == EffectsOf(cs, t, bs)
    ensures |effects| <= |cs|
  {
    effects := [];
    for n := 0 to |cs|
      invariant effects == EffectsOf(cs[..n], t, bs) && |effects| <= n
    {
      assert cs[..n + 1][..n] == cs[..n];
      if cs[n].id !in t.measured {
        continue;
      }
      var b := BaselineOf(bs, cs[n].metric);
      if b.None? {
        continue;
      }
      effects := effects + [EffectFor(cs[n], t.measured[cs[n].id], b.value)];
    }
    assert cs[..|cs|] == cs;
  }

  // A criterion is skipped for want of evidence only when the quality check already failed it:
  // with quality, effect i is criterion i's.
  lemma {:induction false} QualityGivesEveryEffect(cs: seq<Criterion>, t: Treatment, bs: seq<Baseline>, rs: seq<Requirement>)
    requires Quality(cs, t, bs, rs)
    ensures |EffectsOf(cs, t, bs)| == |cs|
    ensures forall i :: 0 <= i < |cs| ==>
              cs[i].id in t.measured && BaselineOf(bs, cs[i].metric).Some? &&
              EffectsOf(cs, t, bs)[i] == EffectFor(cs[i], t.measured[cs[i].id], BaselineOf(bs, cs[i].metric).value)
  {
    if |cs| > 0 {
      var init := cs[..|cs| - 1];
      assert forall i :: 0 <= i < |init| ==> init[i] == cs[i];
      QualityGivesEveryEffect(init, t, bs, rs);
      assert Sufficient(cs[|cs| - 1], t, bs, rs);
    }
  }

  // The reported change takes the baseline to the treatment, in absolute and in relative terms.
  lemma EffectIsTheChange(c: Criterion, s: Sample, b: Baseline)
    ensures var e := EffectFor(c, s, b);
            e.baselineMean + e.absolute == e.treatmentMean &&
            (e.relative.None? <==> b.mean == 0.0) &&
            (e.relative.Some? ==> e.baselineMean * (1.0 + e.relative.value) == e.treatmentMean)
  {
    var change := s.mean - b.mean;
    if b.mean != 0.0 {
      var r := change / b.mean;
      assert r * b.mean == change;
      assert b.mean * (1.0 + r) == b.mean + b.mean * r;
    }
  }
}
