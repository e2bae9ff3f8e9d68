// The Compose evaluation worker: bring the project up, run every warmup and repetition of every
// evaluation, and tear the project down whatever happened.

module Compose {
  import opened Results

  datatype Report = Report(metrics: set<string>, feature: string)

  // What one docker invocation comes to: it exits, or it cannot be run or times out. Its standard output
  // may parse as an evaluator report, or as an acceptable Compose configuration.
  datatype Answer = Faulted | Exited(code: int, report: Option<Report>, configOk: bool)

  datatype Evaluation = Evaluation(id: string, warmups: nat, repetitions: nat, expected: set<string>)
  datatype Command = Config | Build | Up | Exec(evaluation: nat, run: nat) | Down
  datatype Attempt = Attempt(id: string, repetition: nat, code: int, output: Option<Report>)

  datatype LifecycleError = Failed(command: Command) | Unclean

  datatype WorkerResult = WorkerResult(attempts: seq<Attempt>, cleanupConfirmed: bool, error: Option<LifecycleError>)

  // The i-th invocation gets the i-th answer.
  type Docker = nat -> Answer

  // ---- What is supposed to be run ---------------------------------------------------------------------

  datatype Slot = Slot(evaluation: nat, run: nat)

  function SlotsOf(i: nat, total: nat): seq<Slot> { seq(total, j requires j >= 0 => Slot(i, j)) }

  function Total(v: Evaluation): nat { v.warmups + v.repetitions }

  // Every run of every evaluation before the i-th, in order.
  function Slots(evals: seq<Evaluation>, i: nat): seq<Slot>
    requires i <= |evals|
  {
    if i == 0 then [] else Slots(evals, i - 1) + SlotsOf(i - 1, Total(evals[i - 1]))
  }

  predicate Sound(evals: seq<Evaluation>, slots: seq<Slot>) {
    forall k :: 0 <= k < |slots| ==> slots[k].evaluation < |evals|
  }

  lemma {:induction false} SlotsSound(evals: seq<Evaluation>, i: nat)
    requires i <= |evals|
    ensures Sound(evals, Slots(evals, i))
  {
    if i > 0 { SlotsSound(evals, i - 1); }
  }

  predicate Warmup(evals: seq<Evaluation>, s: Slot)
    requires s.evaluation < |evals|
  {
    s.run < evals[s.evaluation].warmups
  }

  // An attempt carries the evaluator's report exactly when the run exited 0 and the report is complete and
  // about the requested feature.
  predicate Usable(v: Evaluation, feature: string, a: Answer) {
    a.Exited? && a.code == 0 && a.report.Some? && v.expected <= a.report.value.metrics && a.report.value.feature == feature
  }

  function AttemptFor(v: Evaluation, feature: string, run: nat, a: Answer): Attempt
    requires a.Exited? && run >= v.warmups
  {
    Attempt(v.id, run - v.warmups + 1, a.code, if Usable(v, feature, a) then a.report else None)
  }

  // A run goes through unless it cannot be run at all, or is a warmup that does not exit 0.
  predicate GoesThrough(evals: seq<Evaluation>, s: Slot, a: Answer)
    requires s.evaluation < |evals|
  {
    a.Exited? && (Warmup(evals, s) ==> a.code == 0)
  }

  // The run at position k of the plan is invocation 3 + k: config, build and up come first.
  predicate AllWent(evals: seq<Evaluation>, docker: Docker, slots: seq<Slot>)
    requires Sound(evals, slots)
  {
    forall k: nat :: k < |slots| ==> GoesThrough(evals, slots[k], docker(3 + k))
  }

  // The attempts of a stretch of the plan: one per repetition that ran, none per warmup.
  function AttemptsOf(evals: seq<Evaluation>, feature: string, docker: Docker, slots: seq<Slot>): seq<Attempt>
    requires Sound(evals, slots)
  {
    if |slots| == 0 then [] else
    var k := |slots| - 1;
    var s := slots[k];
    AttemptsOf(evals, feature, docker, slots[..k]) +
    (if Warmup(evals, s) || docker(3 + k).Faulted? then [] else [AttemptFor(evals[s.evaluation], feature, s.run, docker(3 + k))])
  }

  predicate StartedUp(docker: Docker) {
    forall i: nat :: i < 3 ==> docker(i).Exited? && docker(i).code == 0
  }

  predicate CleanedUp(a: Answer) { a.Exited? && a.code == 0 }

  function Commands(slots: seq<Slot>): seq<Command> {
    [Config, Build, Up] + seq(|slots|, k requires 0 <= k < |slots| => Exec(slots[k].evaluation, slots[k].run))
  }

  // ---- The worker ------------------------------------------------------------------------------------------

  // Raised when the configuration is refused: that is not one of the errors the worker catches.
  datatype Start = Refused | Broken(error: LifecycleError) | Running

  method StartUp(docker: Docker) returns (s: Start, log: seq<Command>)
    ensures log <= [Config, Build, Up]
    ensures s.Running? ==> log == [Config, Build, Up]
    ensures s.Running? <==> StartedUp(docker) && docker(0).configOk
    ensures s.Refused? <==> docker(0).Exited? && docker(0).code == 0 && !docker(0).configOk
  {
    var phases := [Config, Build, Up];
    log := [];
    for i := 0 to 3
      invariant log == phases[..i]
      invariant forall j: nat :: j < i ==> docker(j).Exited? && docker(j).code == 0
      invariant i > 0 ==> docker(0).configOk
    {
      log := log + [phases[i]];
      assert log == phases[..i + 1];
      var a := docker(i);
      if a.Faulted? || a.code != 0 {
        return Broken(Failed(phases[i])), log;
      }
      if i == 0 && !a.configOk {
        return Refused, log;
      }
    }
    assert phases[..3] == phases;
    s := Running;
  }

  // How far the plan has got: the first `done` runs went through, and this is what they left behind.
  ghost predicate Progress(evals: seq<Evaluation>, feature: string, docker: Docker, plan: seq<Slot>,
                           done: nat, log: seq<Command>, attempts: seq<Attempt>)
  {
    && done <= |plan| && Sound(evals, plan)
    && AllWent(evals, docker, plan[..done])
    && attempts == AttemptsOf(evals, feature, docker, plan[..done])
    && log == Commands(plan)[3..][..done]
  }

  predicate Planned(plan: seq<Slot>, start: nat, i: nat, j: nat) {
    start + j < |plan| && plan[start + j] == Slot(i, j)
  }

  // How many runs went through: all that were started, but for the last one when it broke.
  function Finished(log: seq<Command>, error: Option<LifecycleError>): nat
    requires error.Some? ==> |log| > 0
  {
    if error.None? then |log| else |log| - 1
  }

  // The run after the finished ones was started and broke.
  ghost predicate BrokeAt(evals: seq<Evaluation>, docker: Docker, plan: seq<Slot>, log: seq<Command>)
    requires Sound(evals, plan)
  {
    0 < |log| <= |plan| && log == Commands(plan)[3..][..|log|] && !GoesThrough(evals, plan[|log| - 1], docker(2 + |log|))
  }

  // The warmups and repetitions of evaluation i, whose runs come next in the plan.
  method RunEvaluation(evals: seq<Evaluation>, feature: string, docker: Docker, i: nat,
                       log0: seq<Command>, attempts0: seq<Attempt>, ghost plan: seq<Slot>)
    returns (log: seq<Command>, attempts: seq<Attempt>, error: Option<LifecycleError>)
    requires i < |evals| && Progress(evals, feature, docker, plan, |log0|, log0, attempts0)
    requires forall j: nat :: j < Total(evals[i]) ==> Planned(plan, |log0|, i, j)
    ensures error.None? ==> |log| == |log0| + Total(evals[i]) && Progress(evals, feature, docker, plan, |log|, log, attempts)
    ensures error.Some? ==> |log0| < |log| && Progress(evals, feature, docker, plan, |log| - 1, log[..|log| - 1], attempts)
    ensures error.Some? ==> BrokeAt(evals, docker, plan, log)
  {
    hide Progress;
    log, attempts, error := log0, attempts0, None;
    var v := evals[i];
    for j := 0 to v.warmups + v.repetitions
      invariant |log| == |log0| + j && Progress(evals, feature, docker, plan, |log|, log, attempts) && error.None?
    {
      assert Planned(plan, |log0|, i, j);
      Advance(evals, feature, docker, plan, |log|, log, attempts);
      ghost var before := log;
      log := log + [Exec(i, j)];
      assert log[..|log| - 1] == before;
      var a := docker(2 + |log|);
      if a.Faulted? || (j < v.warmups && a.code != 0) {
        error := Some(Failed(Exec(i, j)));
        return;
      }
      if j >= v.warmups {
        attempts := attempts + [Attempt(v.id, j - v.warmups + 1, a.code, if Usable(v, feature, a) then a.report else None)];
      }
    }
  }

  // What running the next slot of the plan adds.
  lemma Advance(evals: seq<Evaluation>, feature: string, docker: Docker, plan: seq<Slot>, done: nat, log: seq<Command>, attempts: seq<Attempt>)
    requires Progress(evals, feature, docker, plan, done, log, attempts) && done < |plan|
    ensures |log| == done && Sound(evals, plan) && plan[done].evaluation < |evals|
    ensures log + [Exec(plan[done].evaluation, plan[done].run)] == Commands(plan)[3..][..done + 1]
    ensures GoesThrough(evals, plan[done], docker(3 + done)) ==>
              Progress(evals, feature, docker, plan, done + 1, log + [Exec(plan[done].evaluation, plan[done].run)],
                       if Warmup(evals, plan[done]) then attempts
                       else attempts + [AttemptFor(evals[plan[done].evaluation], feature, plan[done].run, docker(3 + done))])
  {
    NextCommand(plan, done);
    OneMore(evals, feature, docker, plan, done);
  }

  lemma NextCommand(plan: seq<Slot>, k: nat)
    requires k < |plan|
    ensures |Commands(plan)| == 3 + |plan|
    ensures Commands(plan)[3..][..k] + [Exec(plan[k].evaluation, plan[k].run)] == Commands(plan)[3..][..k + 1]
  {
  }

  // All evaluations in turn, until one breaks.
  method RunPlan(evals: seq<Evaluation>, feature: string, docker: Docker)
    returns (log: seq<Command>, attempts: seq<Attempt>, error: Option<LifecycleError>)
    ensures Sound(evals, Slots(evals, |evals|))
    ensures error.None? ==> |log| == |Slots(evals, |evals|)|
    ensures error.Some? ==> BrokeAt(evals, docker, Slots(evals, |evals|), log)
    ensures Finished(log, error) <= |Slots(evals, |evals|)|
    ensures AllWent(evals, docker, Slots(evals, |evals|)[..Finished(log, error)])
    ensures attempts == AttemptsOf(evals, feature, docker, Slots(evals, |evals|)[..Finished(log, error)])
    ensures log == Commands(Slots(evals, |evals|))[3..][..|log|]
  {
    ghost var plan := Slots(evals, |evals|);
    SlotsSound(evals, |evals|);
    log, attempts, error := [], [], None;
    for i := 0 to |evals|
      invariant |log| == |Slots(evals, i)| && Progress(evals, feature, docker, plan, |log|, log, attempts) && error.None?
    {
      forall j: nat | j < Total(evals[i]) ensures Planned(plan, |log|, i, j) {
        SlotAt(evals, i, j);
      }
      log, attempts, error := RunEvaluation(evals, feature, docker, i, log, attempts, plan);
      if error.Some? {
        return;
      }
      SlotsGrow(evals, i);
    }
  }

  lemma SlotsGrow(evals: seq<Evaluation>, i: nat)
    requires i < |evals|
    ensures |Slots(evals, i + 1)| == |Slots(evals, i)| + Total(evals[i])
  {
  }

  lemma {:induction false} SlotsPrefix(evals: seq<Evaluation>, i: nat, n: nat)
    requires i <= n <= |evals|
    ensures Slots(evals, i) <= Slots(evals, n)
    decreases n - i
  {
    if i < n {
      SlotsPrefix(evals, i, n - 1);
    }
  }

  lemma SlotAt(evals: seq<Evaluation>, i: nat, j: nat)
    requires i < |evals| && j < Total(evals[i])
    ensures |Slots(evals, i)| + j < |Slots(evals, |evals|)|
    ensures Slots(evals, |evals|)[|Slots(evals, i)| + j] == Slot(i, j)
  {
    SlotsPrefix(evals, i + 1, |evals|);
    assert Slots(evals, i + 1)[|Slots(evals, i)| + j] == Slot(i, j);
  }

  lemma OneMore(evals: seq<Evaluation>, feature: string, docker: Docker, plan: seq<Slot>, k: nat)
    requires k < |plan| && Sound(evals, plan)
    ensures AllWent(evals, docker, plan[..k + 1]) <==> AllWent(evals, docker, plan[..k]) && GoesThrough(evals, plan[k], docker(3 + k))
    ensures AttemptsOf(evals, feature, docker, plan[..k + 1]) ==
            AttemptsOf(evals, feature, docker, plan[..k]) +
            (if Warmup(evals, plan[k]) || docker(3 + k).Faulted? then []
             else [AttemptFor(evals[plan[k].evaluation], feature, plan[k].run, docker(3 + k))])
  {
    var more := plan[..k + 1];
    assert more[..k] == plan[..k];
    if AllWent(evals, docker, more) {
      forall m: nat | m < k ensures GoesThrough(evals, plan[..k][m], docker(3 + m)) {
        assert GoesThrough(evals, more[m], docker(3 + m));
      }
    }
    if AllWent(evals, docker, plan[..k]) {
      forall m: nat | m < k ensures GoesThrough(evals, more[m], docker(3 + m)) {
        assert GoesThrough(evals, plan[..k][m], docker(3 + m));
      }
    }
  }

  // Everything before the cleanup: start up, then run the plan if that worked.
  ghost predicate Before(evals: seq<Evaluation>, feature: string, docker: Docker, plan: seq<Slot>,
                         log: seq<Command>, attempts: seq<Attempt>, error: Option<LifecycleError>, refused: bool)
    requires Sound(evals, plan)
  {
    && log <= Commands(plan)
    && (refused <==> docker(0).Exited? && docker(0).code == 0 && !docker(0).configOk)
    && (!refused ==> (error.None? <==> StartedUp(docker) && AllWent(evals, docker, plan)))
    && (!refused && error.None? ==> log == Commands(plan))
    && exists k: nat :: AttemptsUpTo(evals, feature, docker, plan, attempts, k)
  }

  // The attempts are those of the first k runs of the plan, which all went through.
  predicate AttemptsUpTo(evals: seq<Evaluation>, feature: string, docker: Docker, plan: seq<Slot>, attempts: seq<Attempt>, k: nat)
    requires Sound(evals, plan)
  {
    k <= |plan| && AllWent(evals, docker, plan[..k]) && attempts == AttemptsOf(evals, feature, docker, plan[..k])
  }

  method StartAndRun(evals: seq<Evaluation>, feature: string, docker: Docker)
    returns (log: seq<Command>, attempts: seq<Attempt>, error: Option<LifecycleError>, refused: bool)
    ensures Sound(evals, Slots(evals, |evals|))
    ensures Before(evals, feature, docker, Slots(evals, |evals|), log, attempts, error, refused)
    ensures !refused && error.None? ==> attempts == AttemptsOf(evals, feature, docker, Slots(evals, |evals|))
  {
    hide Slots, Commands, AttemptsOf, AllWent, Sound, StartedUp;
    ghost var plan := Slots(evals, |evals|);
    SlotsSound(evals, |evals|);
    var s, started := StartUp(docker);
    log, attempts, error, refused := started, [], None, s.Refused?;
    if s.Running? {
      var more, made, broke := RunPlan(evals, feature, docker);
      attempts, error := made, broke;
      log := log + more;
      CommandsLength(plan);
      Joined(plan, more, |more|);
      BrokenRun(evals, docker, plan, Finished(more, broke), error.None?);
      assert AttemptsUpTo(evals, feature, docker, plan, attempts, Finished(more, broke));
    } else {
      error := if s.Broken? then Some(s.error) else None;
      NothingRun(evals, feature, docker, plan);
      StartIsPrefix(plan, log);
      NotStarted(docker);
    }
  }

  lemma NothingRun(evals: seq<Evaluation>, feature: string, docker: Docker, plan: seq<Slot>)
    requires Sound(evals, plan)
    ensures AttemptsUpTo(evals, feature, docker, plan, [], 0)
  {
    assert plan[..0] == [];
  }

  lemma StartIsPrefix(plan: seq<Slot>, log: seq<Command>)
    requires log <= [Config, Build, Up]
    ensures log <= Commands(plan)
  {
    assert [Config, Build, Up] <= Commands(plan);
  }

  // A start-up that did not get to run either failed or was refused.
  lemma NotStarted(docker: Docker)
    ensures StartedUp(docker) && !docker(0).configOk ==> docker(0).Exited? && docker(0).code == 0
  {
  }

  lemma CommandsLength(plan: seq<Slot>)
    ensures |Commands(plan)| == 3 + |plan|
  {
  }

  lemma NoDown(plan: seq<Slot>, log: seq<Command>)
    requires log <= Commands(plan)
    ensures Down !in log && |log| <= 3 + |plan| && (log == Commands(plan) ==> |log| == 3 + |plan|)
  {
  }

  // The whole worker. `log` is what docker was asked to do.
  method RunComposeEvaluation(evals: seq<Evaluation>, feature: string, docker: Docker)
    returns (r: Outcome<WorkerResult>, log: seq<Command>)
    ensures |log| > 0 && log[|log| - 1] == Down && Down !in log[..|log| - 1]
    ensures log[..|log| - 1] <= Commands(Slots(evals, |evals|))
    ensures r.Raised? <==> docker(0).Exited? && docker(0).code == 0 && !docker(0).configOk
    ensures r.Ok? ==> (r.value.cleanupConfirmed <==> CleanedUp(docker(|log| - 1)))
    ensures Sound(evals, Slots(evals, |evals|))
    ensures r.Ok? ==>
              (r.value.error.None? <==>
               StartedUp(docker) && AllWent(evals, docker, Slots(evals, |evals|)) && CleanedUp(docker(3 + |Slots(evals, |evals|)|)))
    ensures r.Ok? && r.value.error.None? ==>
              && log[..|log| - 1] == Commands(Slots(evals, |evals|))
              && r.value.attempts == AttemptsOf(evals, feature, docker, Slots(evals, |evals|))
    ensures r.Ok? ==> exists k: nat :: AttemptsUpTo(evals, feature, docker, Slots(evals, |evals|), r.value.attempts, k)
  {
    hide Slots, Commands, AttemptsOf, AllWent, Sound, StartedUp, AttemptsUpTo;
    ghost var plan := Slots(evals, |evals|);
    var ran, attempts, error, refused := StartAndRun(evals, feature, docker);
    NoDown(plan, ran);
    var confirmed := CleanedUp(docker(|ran|));
    if !confirmed && error.None? {
      error := Some(Unclean);
    }
    log := ran + [Down];
    assert log[..|log| - 1] == ran;
    if refused {
      return Raised, log;
    }
    r := Ok(WorkerResult(attempts, confirmed, error));
  }

  lemma Joined(plan: seq<Slot>, more: seq<Command>, n: nat)
    requires n <= |plan| && |Commands(plan)| >= 3 + n && more == Commands(plan)[3..][..n]
    ensures [Config, Build, Up] + more <= Commands(plan)
    ensures n == |plan| ==> [Config, Build, Up] + more == Commands(plan)
  {
  }

  lemma BrokenRun(evals: seq<Evaluation>, docker: Docker, plan: seq<Slot>, done: nat, whole: bool)
    requires done <= |plan| && Sound(evals, plan) && AllWent(evals, docker, plan[..done]) && (whole <==> done == |plan|)
    requires !whole ==> !GoesThrough(evals, plan[done], docker(3 + done))
    ensures AllWent(evals, docker, plan) <==> whole
    ensures whole ==> plan[..done] == plan
  {
    if whole { assert plan[..done] == plan; }
  }

  // ---- What the attempts are ----------------------------------------------------------------------------------

  // Attempts of one evaluation: repetitions 1 to r, in order.
  function Numbers(v: Evaluation): seq<(string, nat)> { seq(v.repetitions, j requires j >= 0 => (v.id, j + 1)) }

  function Expected(evals: seq<Evaluation>, i: nat): seq<(string, nat)>
    requires i <= |evals|
  {
    if i == 0 then [] else Expected(evals, i - 1) + Numbers(evals[i - 1])
  }

  function Labels(attempts: seq<Attempt>): seq<(string, nat)> {
    seq(|attempts|, k requires 0 <= k < |attempts| => (attempts[k].id, attempts[k].repetition))
  }

  lemma LabelsGrow(attempts: seq<Attempt>, a: Attempt)
    ensures Labels(attempts + [a]) == Labels(attempts) + [(a.id, a.repetition)]
  {
  }

  lemma {:induction false} LabelsWithin(evals: seq<Evaluation>, feature: string, docker: Docker, i: nat, j: nat)
    requires i < |evals| && j <= Total(evals[i])
    requires Sound(evals, Slots(evals, i)) && Sound(evals, Slots(evals, i) + SlotsOf(i, Total(evals[i]))[..j])
    requires AllWent(evals, docker, Slots(evals, i) + SlotsOf(i, Total(evals[i]))[..j])
    ensures Labels(AttemptsOf(evals, feature, docker, Slots(evals, i) + SlotsOf(i, Total(evals[i]))[..j])) ==
            Labels(AttemptsOf(evals, feature, docker, Slots(evals, i))) +
            Numbers(evals[i])[..if j <= evals[i].warmups then 0 else j - evals[i].warmups]
    decreases j
  {
    var v, before, own := evals[i], Slots(evals, i), SlotsOf(i, Total(evals[i]));
    var slots := before + own[..j];
    if j == 0 {
      assert slots == before;
    } else {
      var k := |slots| - 1;
      assert slots[..k] == before + own[..j - 1] && slots[k] == Slot(i, j - 1);
      assert slots[..k + 1] == slots;
      OneMore(evals, feature, docker, slots, k);
      LabelsWithin(evals, feature, docker, i, j - 1);
      if j > v.warmups {
        LabelsOneMore(v, j, Labels(AttemptsOf(evals, feature, docker, before)));
        LabelsGrow(AttemptsOf(evals, feature, docker, slots[..k]), AttemptFor(v, feature, j - 1, docker(3 + k)));
      }
    }
  }

  lemma LabelsOneMore(v: Evaluation, j: nat, labels: seq<(string, nat)>)
    requires 0 < j <= Total(v) && j > v.warmups
    ensures labels + Numbers(v)[..j - v.warmups] == labels + Numbers(v)[..j - 1 - v.warmups] + [(v.id, j - v.warmups)]
  {
  }

  // A plan that went through has exactly repetitions 1..r of every evaluation, in order: no more, no
  // fewer, and no warmup among them.
  lemma {:induction false} AttemptsAreTheRepetitions(evals: seq<Evaluation>, feature: string, docker: Docker, i: nat)
    requires i <= |evals| && Sound(evals, Slots(evals, i)) && AllWent(evals, docker, Slots(evals, i))
    ensures Labels(AttemptsOf(evals, feature, docker, Slots(evals, i))) == Expected(evals, i)
  {
    hide Sound, AllWent, AttemptsOf, Labels, Numbers;
    if i == 0 {
      NoLabels(evals, feature, docker);
    } else {
      OwnSlots(evals, docker, i - 1);
      AttemptsAreTheRepetitions(evals, feature, docker, i - 1);
      WholeEvaluation(evals, feature, docker, i - 1);
    }
  }

  lemma NoLabels(evals: seq<Evaluation>, feature: string, docker: Docker)
    ensures Sound(evals, []) && Labels(AttemptsOf(evals, feature, docker, [])) == []
  {
  }

  lemma WholeEvaluation(evals: seq<Evaluation>, feature: string, docker: Docker, i: nat)
    requires i < |evals| && Sound(evals, Slots(evals, i + 1)) && AllWent(evals, docker, Slots(evals, i + 1)) && Sound(evals, Slots(evals, i))
    ensures Labels(AttemptsOf(evals, feature, docker, Slots(evals, i + 1))) ==
            Labels(AttemptsOf(evals, feature, docker, Slots(evals, i))) + Numbers(evals[i])
  {
    hide Sound, AllWent, AttemptsOf, Labels;
    OwnSlots(evals, docker, i);
    var v, own := evals[i], SlotsOf(i, Total(evals[i]));
    LabelsWithin(evals, feature, docker, i, |own|);
    assert Numbers(v)[..v.repetitions] == Numbers(v);
  }

  lemma OwnSlots(evals: seq<Evaluation>, docker: Docker, i: nat)
    requires i < |evals| && Sound(evals, Slots(evals, i + 1)) && AllWent(evals, docker, Slots(evals, i + 1))
    ensures Sound(evals, Slots(evals, i)) && AllWent(evals, docker, Slots(evals, i))
    ensures var own := SlotsOf(i, Total(evals[i])); own[..|own|] == own && Slots(evals, i + 1) == Slots(evals, i) + own
  {
    SlotsSound(evals, i);
    PrefixWent(evals, docker, Slots(evals, i + 1), |Slots(evals, i)|);
    assert Slots(evals, i + 1)[..|Slots(evals, i)|] == Slots(evals, i);
  }

  lemma PrefixWent(evals: seq<Evaluation>, docker: Docker, slots: seq<Slot>, k: nat)
    requires k <= |slots| && Sound(evals, slots) && AllWent(evals, docker, slots)
    ensures AllWent(evals, docker, slots[..k])
  {
    forall m: nat | m < k ensures GoesThrough(evals, slots[..k][m], docker(3 + m)) {
      assert GoesThrough(evals, slots[m], docker(3 + m));
    }
  }

  predicate FromRun(evals: seq<Evaluation>, feature: string, docker: Docker, slots: seq<Slot>, a: Attempt, k: nat)
    requires Sound(evals, slots) && k < |slots|
  {
    && !Warmup(evals, slots[k]) && docker(3 + k).Exited?
    && a == AttemptFor(evals[slots[k].evaluation], feature, slots[k].run, docker(3 + k))
    && (a.output.Some? <==> Usable(evals[slots[k].evaluation], feature, docker(3 + k)))
  }

  // Each attempt is one repetition's, and carries output exactly when that run is usable.
  lemma {:induction false} OutputsAreUsable(evals: seq<Evaluation>, feature: string, docker: Docker, slots: seq<Slot>, a: Attempt)
    requires Sound(evals, slots) && a in AttemptsOf(evals, feature, docker, slots)
    ensures exists k: nat :: k < |slots| && FromRun(evals, feature, docker, slots, a, k)
    decreases |slots|
  {
    var k := |slots| - 1;
    var rest := AttemptsOf(evals, feature, docker, slots[..k]);
    if a in rest {
      OutputsAreUsable(evals, feature, docker, slots[..k], a);
      var m: nat :| m < k && FromRun(evals, feature, docker, slots[..k], a, m);
      assert FromRun(evals, feature, docker, slots, a, m);
    } else {
      assert FromRun(evals, feature, docker, slots, a, k);
    }
  }
}
