// S04: running the repository's own checks, attributing failures, and the mandatory gate.

module Checks {
  datatype Check = Check(kind: string, exitCode: int, passed: bool)

  const SUFFIX := "_command_result"
  const MANDATORY: set<string> := {"build", "lint", "type", "unit"}
  const STATIC := ["build", "lint", "type"]

  // A worker that is refused or times out is recorded with exit code -1.
  function ExitOf(exits: map<string, int>, kind: string): int {
    if kind in exits then exits[kind] else -1
  }

  function RunOne(exits: map<string, int>, kind: string): Check {
    Check(kind, ExitOf(exits, kind), ExitOf(exits, kind) == 0)
  }

  function RunAll(exits: map<string, int>, kinds: seq<string>): seq<Check> {
    seq(|kinds|, i requires 0 <= i < |kinds| => RunOne(exits, kinds[i]))
  }

  method RunChecks(exits: map<string, int>, kinds: seq<string>) returns (results: seq<Check>)
    ensures |results| == |kinds|
    ensures forall i :: 0 <= i < |kinds| ==> results[i].kind == kinds[i]
    ensures forall i :: 0 <= i < |kinds| ==> (results[i].passed <==> kinds[i] in exits && exits[kinds[i]] == 0)
    ensures results == RunAll(exits, kinds)
  {
    results := [];
    for k := 0 to |kinds|
      invariant |results| == k
      invariant forall i :: 0 <= i < k ==> results[i] == RunOne(exits, kinds[i])
    {
      results := results + [RunOne(exits, kinds[k])];
    }
  }

  predicate HasMandatory(results: seq<Check>) {
    exists i :: 0 <= i < |results| && results[i].kind in MANDATORY
  }

  predicate AllPassed(results: seq<Check>) {
    forall i :: 0 <= i < |results| ==> results[i].passed
  }

  // S04.80's verdict, which S04.90 and the report contract each compute again.
  predicate Gate(results: seq<Check>) {
    HasMandatory(results) && AllPassed(results)
  }

  const NO_CHECKS := Check("integration", 1, false)

  // What S04.90 seals: a phase with nothing to report gets one failed check that says so.
  function Reported(results: seq<Check>): seq<Check> {
    if |results| == 0 then [NO_CHECKS] else results
  }

  // The sealed report never contradicts the verdict it is sealed with, so its validator never raises.
  lemma ReportAgreesWithGate(results: seq<Check>)
    ensures |Reported(results)| >= 1
    ensures Gate(Reported(results)) <==> Gate(results)
  {
    if |results| == 0 {
      assert !Reported(results)[0].passed;
    }
  }

  // One failing check of any kind blocks the gate, and checks alone of optional kinds never open it.
  lemma GateMeaning(exits: map<string, int>, kinds: seq<string>)
    ensures Gate(RunAll(exits, kinds)) <==>
            (exists k :: k in kinds && k in MANDATORY) && (forall k :: k in kinds ==> k in exits && exits[k] == 0)
  {
    var results := RunAll(exits, kinds);
    assert forall i :: 0 <= i < |kinds| ==> results[i].kind == kinds[i];
    if exists k :: k in kinds && k in MANDATORY {
      var k :| k in kinds && k in MANDATORY;
      var i :| 0 <= i < |kinds| && kinds[i] == k;
      assert results[i].kind in MANDATORY;
    }
    if AllPassed(results) {
      forall k | k in kinds ensures k in exits && exits[k] == 0 {
        var i :| 0 <= i < |kinds| && kinds[i] == k;
        assert results[i].passed;
      }
    }
  }

  datatype Baseline = Baseline(metric: string, mean: real, count: nat)
  datatype Cause = PatchRegression | BaselineExistingFailure
  datatype Attribution = Attribution(kind: string, cause: Cause)

  function EndsWith(s: string, suffix: string): bool {
    |suffix| <= |s| && s[|s| - |suffix|..] == suffix
  }

  // Python's removesuffix.
  function RemoveSuffix(s: string, suffix: string): string {
    if EndsWith(s, suffix) then s[..|s| - |suffix|] else s
  }

  lemma RemoveSuffixMeaning(s: string, suffix: string, stem: string)
    requires |suffix| > 0
    ensures EndsWith(s, suffix) && RemoveSuffix(s, suffix) == stem <==> s == stem + suffix
    ensures RemoveSuffix(s, suffix) == s <==> !EndsWith(s, suffix)
  {
    if EndsWith(s, suffix) {
      assert s == s[..|s| - |suffix|] + s[|s| - |suffix|..];
    }
    if s == stem + suffix {
      assert s[|stem|..] == suffix && s[..|stem|] == stem;
    }
  }

  // The kind already failed before any patch existed.
  predicate FailedBefore(baseline: seq<Baseline>, kind: string) {
    exists i :: 0 <= i < |baseline| && baseline[i].metric == kind + SUFFIX && baseline[i].mean != 0.0
  }

  function Attribute(baseline: seq<Baseline>, kind: string): Attribution {
    Attribution(kind, if FailedBefore(baseline, kind) then BaselineExistingFailure else PatchRegression)
  }

  function Attributions(baseline: seq<Baseline>, results: seq<Check>): seq<Attribution> {
    if |results| == 0 then [] else
    var rest := Attributions(baseline, results[..|results| - 1]);
    if results[|results| - 1].passed then rest else rest + [Attribute(baseline, results[|results| - 1].kind)]
  }

  method FailingKinds(baseline: seq<Baseline>) returns (kinds: set<string>)
    ensures forall k :: k in kinds <==> FailedBefore(baseline, k)
  {
    kinds := {};
    for n := 0 to |baseline|
      invariant forall k :: k in kinds <==> FailedBefore(baseline[..n], k)
    {
      var b := baseline[n];
      assert baseline[..n + 1] == baseline[..n] + [b];
      ghost var before := kinds;
      if EndsWith(b.metric, SUFFIX) && b.mean != 0.0 {
        kinds := kinds + {RemoveSuffix(b.metric, SUFFIX)};
      }
      forall k ensures k in kinds <==> FailedBefore(baseline[..n + 1], k) {
        RemoveSuffixMeaning(b.metric, SUFFIX, k);
        GrowBaseline(baseline[..n], b, k);
      }
    }
    assert baseline[..|baseline|] == baseline;
  }

  lemma GrowBaseline(baseline: seq<Baseline>, b: Baseline, kind: string)
    ensures FailedBefore(baseline + [b], kind) <==>
            FailedBefore(baseline, kind) || (b.metric == kind + SUFFIX && b.mean != 0.0)
  {
    var more := baseline + [b];
    if FailedBefore(baseline, kind) {
      var i :| 0 <= i < |baseline| && baseline[i].metric == kind + SUFFIX && baseline[i].mean != 0.0;
      assert more[i] == baseline[i];
    }
    if b.metric == kind + SUFFIX && b.mean != 0.0 {
      assert more[|baseline|] == b;
    }
  }

  // S04.70: every failed check, in order, blamed on the patch unless its kind already failed in the baseline.
  method AttributeFailures(baseline: seq<Baseline>, results: seq<Check>) returns (out: seq<Attribution>)
    ensures out == Attributions(baseline, results)
  {
    var failing := FailingKinds(baseline);
    out := [];
    for n := 0 to |results|
      invariant out == Attributions(baseline, results[..n])
    {
      assert results[..n + 1][..n] == results[..n];
      if !results[n].passed {
        out := out + [Attribution(results[n].kind,
                                  if results[n].kind in failing then BaselineExistingFailure else PatchRegression)];
      }
    }
    assert results[..|results|] == results;
  }

  // Nothing is blamed exactly when everything passed; a regression is never blamed on an already failing kind.
  lemma {:induction false} AttributionsMeaning(baseline: seq<Baseline>, results: seq<Check>)
    ensures Attributions(baseline, results) == [] <==> AllPassed(results)
    ensures forall a :: a in Attributions(baseline, results) ==>
              (a.cause == BaselineExistingFailure <==> FailedBefore(baseline, a.kind)) &&
              exists r :: r in results && !r.passed && r.kind == a.kind
    ensures forall r :: r in results && !r.passed ==> Attribute(baseline, r.kind) in Attributions(baseline, results)
  {
    if |results| > 0 {
      var init, last := results[..|results| - 1], results[|results| - 1];
      AttributionsMeaning(baseline, init);
      assert results == init + [last];
      assert AllPassed(results) <==> AllPassed(init) && last.passed;
    }
  }
}
