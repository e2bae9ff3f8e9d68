/**
 * State channels of the shared workflow when a stage runs as a compiled subgraph.
 * A subgraph used as a node hands its parent its own absolute final state, not a delta,
 * and the parent folds that state into its own with the same reducers.
 */
module Channels {
  import opened Results
  import opened Reducers

  /** The channels of a state, or of one node's update (`fields`: the last-value ones it wrote). */
  datatype State<V> = State(
    artifacts: seq<ArtifactRef>,
    errors: seq<ArtifactRef>,
    routes: RouteLog,
    completed: set<string>,
    current: Marker,
    fields: map<string, V>)

  ghost predicate Settled<V>(s: State<V>) {
    Normal(s.artifacts) && Normal(s.errors)
  }

  /** The graph's write of `d` on top of `s`, every channel with its own reducer. */
  ghost function Reduce<V>(s: State<V>, d: State<V>): Outcome<State<V>> {
    var a, e, r := Merge(s.artifacts, d.artifacts), Merge(s.errors, d.errors), MergeRoutes(s.routes, d.routes);
    if a.Raised? || e.Raised? || r.Raised? then Raised
    else Ok(State(a.value, e.value, r.value, s.completed + d.completed,
                  LatestNode(s.current, d.current), s.fields + d.fields))
  }

  /** A node reads the state it is handed and returns its update, or raises. */
  type Step<!V> = State<V> -> Outcome<State<V>>

  /** One node: run it on the state, then write its update. */
  ghost function Take<V>(s: State<V>, node: Step<V>): Outcome<State<V>> {
    match node(s)
    case Raised => Raised
    case Ok(d) => Reduce(s, d)
  }

  /** The nodes of a stage run one after another in one graph. */
  ghost function Flat<V>(s: State<V>, nodes: seq<Step<V>>): Outcome<State<V>>
    decreases |nodes|
  {
    if nodes == [] then Ok(s)
    else
      match Take(s, nodes[0])
      case Raised => Raised
      case Ok(t) => Flat(t, nodes[1..])
  }

  ghost function Blank<V>(): State<V> {
    State([], [], map[], {}, Plain(""), map[])
  }

  /** The same nodes as one subgraph node: seeded with the parent's state, merged back absolute. */
  ghost function Visit<V>(s: State<V>, nodes: seq<Step<V>>): Outcome<State<V>> {
    match Reduce(Blank(), s)
    case Raised => Raised
    case Ok(seeded) =>
      match Flat(seeded, nodes)
      case Raised => Raised
      case Ok(inner) => Reduce(s, inner)
  }

  ghost function Nested<V>(s: State<V>, visits: seq<seq<Step<V>>>): Outcome<State<V>>
    decreases |visits|
  {
    if visits == [] then Ok(s)
    else
      match Visit(s, visits[0])
      case Raised => Raised
      case Ok(t) => Nested(t, visits[1..])
  }

  function Concat<V>(visits: seq<seq<Step<V>>>): seq<Step<V>> {
    if visits == [] then [] else visits[0] + Concat(visits[1..])
  }

  /** `t` already contains everything `s` does, so merging `s` under it changes nothing. */
  ghost predicate Below<V>(s: State<V>, t: State<V>) {
    && Merge(s.artifacts, t.artifacts) == Ok(t.artifacts)
    && Merge(s.errors, t.errors) == Ok(t.errors)
    && (forall k | k in s.routes :: k in t.routes && t.routes[k] == s.routes[k])
    && s.completed <= t.completed
    && LatestNode(s.current, t.current) == t.current
    && s.fields.Keys <= t.fields.Keys
  }

  lemma BelowSelf<V>(s: State<V>)
    requires Settled(s)
    ensures Below(s, s)
  {
    MergeIdempotent(s.artifacts);
    MergeIdempotent(s.errors);
    LatestNodeAssociative(s.current, s.current, s.current);
  }

  lemma BelowReduces<V>(s: State<V>, t: State<V>)
    requires Below(s, t)
    ensures Reduce(s, t) == Ok(t)
  {
    assert s.routes + t.routes == t.routes;
    assert s.completed + t.completed == t.completed;
    assert s.fields + t.fields == t.fields;
  }

  lemma RefsStep(s: seq<ArtifactRef>, t: seq<ArtifactRef>, d: seq<ArtifactRef>)
    requires Merge(s, t) == Ok(t) && Merge(t, d).Ok?
    ensures Merge(s, Merge(t, d).value) == Merge(t, d)
  {
    MergeAssociative(s, t, d);
  }

  lemma BelowStep<V>(s: State<V>, t: State<V>, d: State<V>)
    requires Below(s, t) && Reduce(t, d).Ok?
    ensures Below(s, Reduce(t, d).value) && Settled(Reduce(t, d).value)
  {
    RefsStep(s.artifacts, t.artifacts, d.artifacts);
    RefsStep(s.errors, t.errors, d.errors);
    MergedList(t.artifacts, d.artifacts);
    MergedList(t.errors, d.errors);
    LatestNodeAssociative(s.current, t.current, d.current);
  }

  lemma {:induction false} BelowFlat<V>(s: State<V>, t: State<V>, nodes: seq<Step<V>>)
    requires Below(s, t) && Settled(t) && Flat(t, nodes).Ok?
    ensures Below(s, Flat(t, nodes).value) && Settled(Flat(t, nodes).value)
    decreases |nodes|
  {
    if nodes != [] {
      BelowStep(s, t, nodes[0](t).value);
      BelowFlat(s, Take(t, nodes[0]).value, nodes[1..]);
    }
  }

  lemma SeedIsParent<V>(s: State<V>)
    requires Settled(s)
    ensures Reduce(Blank(), s) == Ok(s)
  {
    EmptyMerge(s.artifacts);
    EmptyMerge(s.errors);
    var b: State<V> := Blank();
    assert b.routes + s.routes == s.routes;
    assert b.completed + s.completed == s.completed;
    assert b.fields + s.fields == s.fields;
  }

  lemma EmptyMerge(xs: seq<ArtifactRef>)
    requires Normal(xs)
    ensures Merge([], xs) == Ok(xs)
  {
    MergeMeaning([], xs);
    NormalConsistent(xs);
    ListingUnique(xs);
    assert Elems([]) + Elems(xs) == Elems(xs);
    assert Index([]) + Index(xs) == Index(xs);
  }

  /** One stage as a subgraph node is that stage run flat, raises included, whatever its nodes read. */
  lemma VisitIsFlat<V>(s: State<V>, nodes: seq<Step<V>>)
    requires Settled(s)
    ensures Visit(s, nodes) == Flat(s, nodes)
    ensures Flat(s, nodes).Ok? ==> Settled(Flat(s, nodes).value)
  {
    hide Flat, Reduce, Below, Settled;
    SeedIsParent(s);
    BelowSelf(s);
    if Flat(s, nodes).Ok? {
      BelowFlat(s, s, nodes);
      BelowReduces(s, Flat(s, nodes).value);
    }
  }

  lemma {:induction false} FlatConcat<V>(s: State<V>, xs: seq<Step<V>>, ys: seq<Step<V>>)
    ensures Flat(s, xs + ys) ==
            match Flat(s, xs) case Raised => Raised case Ok(t) => Flat(t, ys)
    decreases |xs|
  {
    if xs == [] {
      assert xs + ys == ys;
    } else {
      assert (xs + ys)[1..] == xs[1..] + ys;
      if Take(s, xs[0]).Ok? {
        FlatConcat(Take(s, xs[0]).value, xs[1..], ys);
      }
    }
  }

  /** However often stages are revisited, nesting them changes no channel and no failure. */
  lemma {:induction false} NestedIsFlat<V>(s: State<V>, visits: seq<seq<Step<V>>>)
    requires Settled(s)
    ensures Nested(s, visits) == Flat(s, Concat(visits))
    decreases |visits|
  {
    hide Visit, Settled, Take;
    if visits != [] {
      VisitIsFlat(s, visits[0]);
      FlatConcat(s, visits[0], Concat(visits[1..]));
      if Flat(s, visits[0]).Ok? {
        NestedIsFlat(Flat(s, visits[0]).value, visits[1..]);
      }
    }
  }

  // ----- why the repair counter is not a summing channel ---------------------

  function Sum(xs: seq<nat>): nat {
    if xs == [] then 0 else xs[0] + Sum(xs[1..])
  }

  /** A visit under an `operator.add` channel: the inner total is added onto the outer one. */
  function SumVisit(total: nat, bumps: seq<nat>): nat {
    total + (total + Sum(bumps))
  }

  function SumNested(total: nat, visits: seq<seq<nat>>): nat
    decreases |visits|
  {
    if visits == [] then total else SumNested(SumVisit(total, visits[0]), visits[1..])
  }

  function SumFlat(total: nat, visits: seq<seq<nat>>): nat
    decreases |visits|
  {
    if visits == [] then total else SumFlat(total + Sum(visits[0]), visits[1..])
  }

  lemma {:induction false} SumNestedAbove(a: nat, b: nat, visits: seq<seq<nat>>)
    requires a <= b
    ensures SumFlat(a, visits) <= SumNested(b, visits)
    ensures a < b ==> SumFlat(a, visits) < SumNested(b, visits)
    decreases |visits|
  {
    if visits != [] {
      SumNestedAbove(a + Sum(visits[0]), SumVisit(b, visits[0]), visits[1..]);
    }
  }

  /** Summing counts right exactly while nothing was counted before the last visit. */
  lemma {:induction false} SummingBreaks(total: nat, visits: seq<seq<nat>>)
    ensures SumNested(total, visits) == SumFlat(total, visits) <==>
            visits == [] || (total == 0 && forall i | 0 <= i < |visits| - 1 :: Sum(visits[i]) == 0)
    decreases |visits|
  {
    if visits != [] {
      var rest := visits[1..];
      if total > 0 {
        SumNestedAbove(total + Sum(visits[0]), SumVisit(total, visits[0]), rest);
      } else {
        SummingBreaks(Sum(visits[0]), rest);
        assert forall i | 0 <= i < |rest| - 1 :: rest[i] == visits[i + 1];
        if forall i | 0 <= i < |visits| - 1 :: Sum(visits[i]) == 0 {
          assert rest != [] ==> Sum(visits[0]) == 0;
        }
        if rest != [] && Sum(visits[0]) == 0 && (forall i | 0 <= i < |rest| - 1 :: Sum(rest[i]) == 0) {
          forall i | 0 <= i < |visits| - 1 ensures Sum(visits[i]) == 0 {
            assert i > 0 ==> visits[i] == rest[i - 1];
          }
        }
      }
    }
  }

  /** The recorded incident: one failed verification, then S03 alone already shows pass 2 to S04. */
  lemma RecordedIncident()
    ensures SumNested(0, [[0], [1]]) == 1
    ensures SumNested(0, [[0], [1], [0]]) == 2
    ensures SumFlat(0, [[0], [1], [0]]) == 1
  {
    assert [[0], [1]][1..] == [[1]];
    assert [[0], [1], [0]][1..] == [[1], [0]];
    assert [[1], [0]][1..] == [[0]];
  }
}
