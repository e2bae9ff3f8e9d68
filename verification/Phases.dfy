// Which phase S03.10 works on: the first phase, by sequence number, that still has an unfinished task.

module Phases {
  import opened Results

  datatype Phase = Phase(id: string, sequence: int)
  datatype Task = Task(id: string, phase: string)

  function TasksOf(tasks: seq<Task>, phase: string): set<string> {
    set t <- tasks | t.phase == phase :: t.id
  }

  predicate Unfinished(phases: seq<Phase>, tasks: seq<Task>, done: set<string>, i: nat)
    requires i < |phases|
  {
    !(TasksOf(tasks, phases[i].id) <= done)
  }

  // The order of a stable sort by sequence number.
  predicate Earlier(phases: seq<Phase>, i: nat, j: nat)
    requires i < |phases| && j < |phases|
  {
    phases[i].sequence < phases[j].sequence || (phases[i].sequence == phases[j].sequence && i < j)
  }

  predicate IsActive(phases: seq<Phase>, tasks: seq<Task>, done: set<string>, i: nat) {
    i < |phases| && Unfinished(phases, tasks, done, i) &&
    forall j: nat :: j < |phases| && j != i && Unfinished(phases, tasks, done, j) ==> Earlier(phases, i, j)
  }

  // Reference definition: a left-to-right minimum.
  function Active(phases: seq<Phase>, tasks: seq<Task>, done: set<string>): Option<nat> {
    ActiveIn(phases, tasks, done, |phases|)
  }

  function ActiveIn(phases: seq<Phase>, tasks: seq<Task>, done: set<string>, k: nat): (r: Option<nat>)
    requires k <= |phases|
    ensures r.None? <==> forall j: nat :: j < k ==> !Unfinished(phases, tasks, done, j)
    ensures r.Some? ==> r.value < k && Unfinished(phases, tasks, done, r.value)
    ensures r.Some? ==>
              forall j: nat :: j < k && j != r.value && Unfinished(phases, tasks, done, j) ==> Earlier(phases, r.value, j)
  {
    if k == 0 then None else
    var r := ActiveIn(phases, tasks, done, k - 1);
    if !Unfinished(phases, tasks, done, k - 1) then r
    else if r.Some? && phases[r.value].sequence <= phases[k - 1].sequence then r
    else Some(k - 1)
  }

  lemma ActiveMeaning(phases: seq<Phase>, tasks: seq<Task>, done: set<string>, i: nat)
    ensures Active(phases, tasks, done) == Some(i) <==> IsActive(phases, tasks, done, i)
    ensures Active(phases, tasks, done) == None <==>
            forall j: nat :: j < |phases| ==> TasksOf(tasks, phases[j].id) <= done
  {
    var r := Active(phases, tasks, done);
    if r.Some? {
      assert Unfinished(phases, tasks, done, r.value);
    } else {
      forall j: nat | j < |phases| ensures TasksOf(tasks, phases[j].id) <= done {
        assert !Unfinished(phases, tasks, done, j);
      }
    }
  }

  // Once every task of a phase is done, no phase with that id is picked again,
  // however many further tasks get done.
  lemma FinishedNeverActive(phases: seq<Phase>, tasks: seq<Task>, done: set<string>, more: set<string>, phase: string)
    requires TasksOf(tasks, phase) <= done <= more
    ensures Active(phases, tasks, more).Some? ==> phases[Active(phases, tasks, more).value].id != phase
  {
    assert TasksOf(tasks, phase) <= more;
    var r := Active(phases, tasks, more);
    assert r.Some? ==> Unfinished(phases, tasks, more, r.value);
  }

  predicate Sorted(phases: seq<Phase>, order: seq<nat>) {
    (forall i :: 0 <= i < |order| ==> order[i] < |phases|) &&
    forall i, j :: 0 <= i < j < |order| ==> Earlier(phases, order[i], order[j])
  }

  // Where index `k`, larger than every index already placed, goes in a stable order.
  method InsertionPoint(phases: seq<Phase>, order: seq<nat>, k: nat) returns (p: nat)
    requires k < |phases| && Sorted(phases, order)
    requires forall i :: 0 <= i < |order| ==> order[i] < k
    ensures p <= |order|
    ensures forall i :: 0 <= i < p ==> Earlier(phases, order[i], k)
    ensures forall i :: p <= i < |order| ==> Earlier(phases, k, order[i])
  {
    p := |order|;
    while p > 0 && phases[order[p - 1]].sequence > phases[k].sequence
      invariant p <= |order|
      invariant forall i :: p <= i < |order| ==> Earlier(phases, k, order[i])
    {
      p := p - 1;
    }
    if p > 0 {
      forall i | 0 <= i < p ensures Earlier(phases, order[i], k) {
        assert i < p - 1 ==> Earlier(phases, order[i], order[p - 1]);
      }
    }
  }

  method SortBySequence(phases: seq<Phase>) returns (order: seq<nat>)
    ensures Sorted(phases, order)
    ensures forall j: nat :: j < |phases| ==> j in order
  {
    order := [];
    for k := 0 to |phases|
      invariant Sorted(phases, order)
      invariant forall i :: 0 <= i < |order| ==> order[i] < k
      invariant forall j: nat :: j < k ==> j in order
    {
      var p := InsertionPoint(phases, order, k);
      ghost var was := order;
      order := order[..p] + [k] + order[p..];
      forall j: nat | j < k + 1 ensures j in order {
        if j < k {
          assert j in was;
          var i :| 0 <= i < |was| && was[i] == j;
          assert order[if i < p then i else i + 1] == j;
        } else {
          assert order[p] == k;
        }
      }
    }
  }

  // The scan S03.10 runs: sort the phases, take the first whose tasks are not all done.
  method PickActivePhase(phases: seq<Phase>, tasks: seq<Task>, done: set<string>) returns (r: Option<nat>)
    ensures r == Active(phases, tasks, done)
  {
    var order := SortBySequence(phases);
    for k := 0 to |order|
      invariant forall i :: 0 <= i < k ==> !Unfinished(phases, tasks, done, order[i])
    {
      if !(TasksOf(tasks, phases[order[k]].id) <= done) {
        FirstInOrder(phases, tasks, done, order, k);
        return Some(order[k]);
      }
    }
    forall j: nat | j < |phases| ensures !Unfinished(phases, tasks, done, j) {
      assert j in order;
    }
    return None;
  }

  lemma FirstInOrder(phases: seq<Phase>, tasks: seq<Task>, done: set<string>, order: seq<nat>, k: nat)
    requires Sorted(phases, order) && k < |order|
    requires forall j: nat :: j < |phases| ==> j in order
    requires forall i :: 0 <= i < k ==> !Unfinished(phases, tasks, done, order[i])
    requires Unfinished(phases, tasks, done, order[k])
    ensures Active(phases, tasks, done) == Some(order[k])
  {
    forall j: nat | j < |phases| && j != order[k] && Unfinished(phases, tasks, done, j)
      ensures Earlier(phases, order[k], j)
    {
      assert j in order;
      var i :| 0 <= i < |order| && order[i] == j;
      assert i > k;
    }
    ActiveMeaning(phases, tasks, done, order[k]);
  }
}
