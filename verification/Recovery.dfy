// Crash recovery: a run restarted on the ledger an earlier run left behind retraces it exactly.

module Recovery {
  import opened Results
  import opened Machine

  ghost predicate Keeps(earlier: Ledger, later: Ledger) {
    forall k :: k in earlier ==> k in later && later[k] == earlier[k]
  }

  // The ledger only grows: a completed result is never replaced, whatever a step does.
  lemma LedgerGrows(c: Case, g: Config, e: Env)
    ensures Keeps(g.ledger, Step(c, g, e).ledger)
  {
  }

  lemma {:induction false} LedgerGrowsAlways(c: Case, g: Config, es: seq<Env>)
    ensures Keeps(g.ledger, Run(c, g, es).ledger)
    decreases |es|
  {
    if |es| > 0 {
      LedgerGrowsAlways(c, g, es[..|es| - 1]);
      LedgerGrows(c, Run(c, g, es[..|es| - 1]), es[|es| - 1]);
    }
  }

  lemma StepOnLargerLedger(c: Case, g: Config, e: Env, more: Ledger, e': Env)
    requires Step(c, g, e).pc != Aborted && Keeps(Step(c, g, e).ledger, more)
    ensures var h := Step(c, Config(g.pc, g.st, more), e');
            h.pc == Step(c, g, e).pc && h.st == Step(c, g, e).st && h.ledger == more
  {
    if g.pc.At? {
      var k := KeyOf(g.pc.node, g.st);
      var x := Result(c, g.pc.node, g, e);
      assert x.Ok? && k in Step(c, g, e).ledger && Step(c, g, e).ledger[k] == x.value;
      assert more[k] == x.value;
      assert more[k := x.value] == more;
    }
  }

  lemma AbortedIsFinal(c: Case, g: Config, e: Env)
    ensures g.pc == Aborted ==> Step(c, g, e).pc == Aborted
  {
  }

  lemma KeepsTransitive(a: Ledger, b: Ledger, d: Ledger)
    requires Keeps(a, b) && Keeps(b, d)
    ensures Keeps(a, d)
  {
  }

  // Start over with an empty state on any ledger that holds at least what the first run recorded, and
  // let the outside world answer anything at all: the second run reaches the same node with the same
  // state in the same number of steps, runs no handler again and writes nothing to the ledger.
  lemma {:induction false} ReplayRetracesTheRun(c: Case, before: Ledger, es: seq<Env>, more: Ledger, es': seq<Env>)
    requires |es| == |es'|
    requires Run(c, Start(before), es).pc != Aborted
    requires Keeps(Run(c, Start(before), es).ledger, more)
    ensures var g := Run(c, Start(before), es);
            Run(c, Start(more), es') == Config(g.pc, g.st, more)
    decreases |es|
  {
    hide Step, Keeps;
    if |es| > 0 {
      var was := Run(c, Start(before), es[..|es| - 1]);
      AbortedIsFinal(c, was, es[|es| - 1]);
      LedgerGrows(c, was, es[|es| - 1]);
      KeepsTransitive(was.ledger, Run(c, Start(before), es).ledger, more);
      ReplayRetracesTheRun(c, before, es[..|es| - 1], more, es'[..|es| - 1]);
      StepOnLargerLedger(c, was, es[|es| - 1], more, es'[|es| - 1]);
    }
  }

  lemma {:induction false} RunSplits(c: Case, g: Config, es: seq<Env>, rest: seq<Env>)
    ensures Run(c, g, es + rest) == Run(c, Run(c, g, es), rest)
    decreases |rest|
  {
    if |rest| == 0 {
      assert es + rest == es;
    } else {
      var init := rest[..|rest| - 1];
      assert (es + rest)[..|es + rest| - 1] == es + init;
      RunSplits(c, g, es, init);
    }
  }

  // A crash between two nodes is invisible: restarting from scratch on the surviving ledger and going on
  // ends in exactly the configuration the uninterrupted run ends in.
  lemma CrashIsInvisible(c: Case, es: seq<Env>, es': seq<Env>, rest: seq<Env>)
    requires |es| == |es'|
    requires Run(c, Start(map[]), es).pc != Aborted
    ensures Run(c, Start(Run(c, Start(map[]), es).ledger), es' + rest) == Run(c, Start(map[]), es + rest)
  {
    var g := Run(c, Start(map[]), es);
    ReplayRetracesTheRun(c, map[], es, g.ledger, es');
    RunSplits(c, Start(g.ledger), es', rest);
    RunSplits(c, Start(map[]), es, rest);
  }

  // Step i of the run is at the key's node, finds the key unused, and its handler returns x.
  ghost predicate ComputedAt(c: Case, es: seq<Env>, i: nat, k: NodeKey, x: Execution) {
    i < |es| &&
    var g := Run(c, Start(map[]), es[..i]);
    g.pc == At(k.node) && KeyOf(k.node, g.st) == k && k !in g.ledger && Handle(c, k.node, g.st, es[i]) == Ok(x)
  }

  // Nothing gets onto a run's ledger but what a handler of that run computed, under its own key.
  lemma {:induction false} RecordsComeFromTheRun(c: Case, es: seq<Env>, k: NodeKey)
    requires k in Run(c, Start(map[]), es).ledger
    ensures exists i :: ComputedAt(c, es, i, k, Run(c, Start(map[]), es).ledger[k])
    decreases |es|
  {
    var init := es[..|es| - 1];
    var was, g := Run(c, Start(map[]), init), Run(c, Start(map[]), es);
    if k in was.ledger {
      RecordsComeFromTheRun(c, init, k);
      LedgerGrows(c, was, es[|es| - 1]);
      var i: nat :| ComputedAt(c, init, i, k, was.ledger[k]);
      assert init[..i] == es[..i];
      assert ComputedAt(c, es, i, k, g.ledger[k]);
    } else {
      assert es[..|es| - 1] == init;
      assert ComputedAt(c, es, |es| - 1, k, g.ledger[k]);
    }
  }
}
