/** The route history `NodeRuntime` keeps in dictionary keys `id`, `id#2`, `id#3`, ... */
module RouteHistory {
  import opened Results
  import opened Text
  import opened Reducers

  const CONTINUE := "continue"

  /** The key of a node's n-th recorded route. */
  function Key(node: string, n: nat): string
    requires n >= 1
  {
    if n == 1 then node else node + ['#'] + Decimal(n)
  }

  lemma SlotInjective(node: string, m: nat, n: nat)
    requires m >= 1 && n >= 1 && Key(node, m) == Key(node, n)
    ensures m == n
  {
    assert m > 1 ==> |Key(node, m)| > |node|;
    assert n > 1 ==> |Key(node, n)| > |node|;
    if m > 1 && n > 1 {
      CancelPrefix(node + ['#'], Decimal(m), Decimal(n));
      DecimalInjective(m, n);
    }
  }

  lemma KeyInjective(a: string, m: nat, b: string, n: nat)
    requires m >= 1 && n >= 1 && '#' !in a && '#' !in b
    requires Key(a, m) == Key(b, n)
    ensures a == b && m == n
  {
    assert m > 1 ==> Key(a, m)[|a|] == '#';
    assert n > 1 ==> Key(b, n)[|b|] == '#';
    if m > 1 && n > 1 {
      LastSeparator('#', a, Decimal(m), b, Decimal(n));
      DecimalInjective(m, n);
    }
  }

  ghost function Slots(node: string, n: nat): set<string> {
    set k | 2 <= k <= n :: Key(node, k)
  }

  lemma SlotsGrow(log: RouteLog, node: string, n: nat)
    requires n >= 1 && Key(node, n + 1) in log
    ensures |log.Keys - Slots(node, n + 1)| < |log.Keys - Slots(node, n)|
  {
    assert Key(node, n + 1) !in Slots(node, n) by {
      forall k | 2 <= k <= n ensures Key(node, k) != Key(node, n + 1) {
        if Key(node, k) == Key(node, n + 1) {
          SlotInjective(node, k, n + 1);
        }
      }
    }
    assert Slots(node, n + 1) == Slots(node, n) + {Key(node, n + 1)};
    assert log.Keys - Slots(node, n + 1) == (log.Keys - Slots(node, n)) - {Key(node, n + 1)};
  }

  /** The last slot reached from slot `n` without a gap. */
  function LastSlot(log: RouteLog, node: string, n: nat): (m: nat)
    requires n >= 1
    ensures m >= n && Key(node, m + 1) !in log
    ensures forall k | n < k <= m :: Key(node, k) in log
    decreases |log.Keys - Slots(node, n)|
  {
    if Key(node, n + 1) in log then SlotsGrow(log, node, n); LastSlot(log, node, n + 1) else n
  }

  lemma LastSlotUnique(log: RouteLog, node: string, m: nat)
    requires m >= 1 && Key(node, m + 1) !in log
    requires forall k | 1 < k <= m :: Key(node, k) in log
    ensures LastSlot(log, node, 1) == m
  {
    var l := LastSlot(log, node, 1);
    assert Key(node, l + 1) !in log;
  }

  function LatestKey(log: RouteLog, node: string): Option<string> {
    if node in log then Some(Key(node, LastSlot(log, node, 1))) else None
  }

  method LatestRouteKey(node: string, routes: RouteLog) returns (key: Option<string>)
    ensures key == LatestKey(routes, node)
  {
    if node !in routes {
      return None;
    }
    var last := node;
    var n: nat := 2;
    while node + ['#'] + Decimal(n) in routes
      invariant n >= 2 && last == Key(node, n - 1)
      invariant LastSlot(routes, node, 1) == LastSlot(routes, node, n - 1)
      decreases |routes.Keys - Slots(node, n - 1)|
    {
      SlotsGrow(routes, node, n - 1);
      last := node + ['#'] + Decimal(n);
      n := n + 1;
    }
    key := Some(last);
  }

  /** Where a commit records `route`: the latest slot if it already holds it, else the next one. */
  function NextKey(log: RouteLog, node: string, route: string): string {
    if node !in log then node
    else
      var m := LastSlot(log, node, 1);
      if Key(node, m) in log && log[Key(node, m)] == route then Key(node, m) else Key(node, m + 1)
  }

  method NextRouteKey(node: string, existing: RouteLog, route: string) returns (key: string)
    ensures key == NextKey(existing, node, route)
  {
    if node !in existing {
      return node;
    }
    var latest := LatestRouteKey(node, existing);
    if existing[latest.value] == route {
      return latest.value;
    }
    var n: nat := 2;
    while node + ['#'] + Decimal(n) in existing
      invariant n >= 2
      invariant LastSlot(existing, node, 1) == LastSlot(existing, node, n - 1)
      decreases |existing.Keys - Slots(node, n - 1)|
    {
      SlotsGrow(existing, node, n - 1);
      n := n + 1;
    }
    key := node + ['#'] + Decimal(n);
  }

  function RouteFor(log: RouteLog, node: string): string {
    var m := LastSlot(log, node, 1);
    if node !in log || Key(node, m) !in log then CONTINUE else log[Key(node, m)]
  }

  // ----- whole runs ---------------------------------------------------------

  datatype Visit = Visit(node: string, route: string)

  /** One commit: the runtime's key choice followed by the graph's `merge_node_routes`. */
  function Commit(log: RouteLog, v: Visit): Outcome<RouteLog> {
    MergeRoutes(log, map[NextKey(log, v.node, v.route) := v.route])
  }

  function Play(vs: seq<Visit>): Outcome<RouteLog> {
    if vs == [] then Ok(map[])
    else
      match Play(vs[..|vs| - 1])
      case Raised => Raised
      case Ok(log) => Commit(log, vs[|vs| - 1])
  }

  /** The routes one node returned, in order. */
  function RoutesOf(vs: seq<Visit>, node: string): seq<string> {
    if vs == [] then []
    else RoutesOf(vs[..|vs| - 1], node) + if vs[|vs| - 1].node == node then [vs[|vs| - 1].route] else []
  }

  /** Consecutive repeats removed. */
  function Squash(rs: seq<string>): seq<string> {
    if |rs| <= 1 then rs
    else if rs[|rs| - 1] == rs[|rs| - 2] then Squash(rs[..|rs| - 1])
    else Squash(rs[..|rs| - 1]) + [rs[|rs| - 1]]
  }

  lemma {:induction false} SquashLast(rs: seq<string>)
    requires rs != []
    ensures Squash(rs) != [] && Squash(rs)[|Squash(rs)| - 1] == rs[|rs| - 1]
  {
    if |rs| > 1 && rs[|rs| - 1] == rs[|rs| - 2] {
      SquashLast(rs[..|rs| - 1]);
    }
  }

  lemma SquashAppend(rs: seq<string>, r: string)
    ensures Squash(rs + [r]) ==
            var h := Squash(rs);
            if h != [] && h[|h| - 1] == r then h else h + [r]
  {
    if rs != [] {
      SquashLast(rs);
      assert (rs + [r])[..|rs|] == rs;
    }
  }

  /** The node's keys are exactly slots 1..|h|, holding `h` in order. */
  ghost predicate Encodes(log: RouteLog, node: string, h: seq<string>) {
    forall k: nat {:trigger Key(node, k)} | k >= 1 ::
      && (Key(node, k) in log <==> k <= |h|)
      && (k <= |h| ==> log[Key(node, k)] == h[k - 1])
  }

  lemma EncodedLast(log: RouteLog, node: string, h: seq<string>)
    requires Encodes(log, node, h)
    ensures node in log <==> h != []
    ensures h != [] ==> LastSlot(log, node, 1) == |h|
    ensures RouteFor(log, node) == LastOr(h, CONTINUE)
  {
    assert Key(node, 1) == node;
    if h != [] {
      assert Key(node, |h| + 1) !in log;
      LastSlotUnique(log, node, |h|);
      assert Key(node, |h|) in log;
    }
  }

  /** One commit never conflicts, appends a changed route and touches no other node. */
  lemma CommitStep(log: RouteLog, v: Visit, h: seq<string>)
    requires '#' !in v.node && Encodes(log, v.node, h)
    ensures Commit(log, v).Ok?
    ensures Encodes(Commit(log, v).value, v.node, if h != [] && h[|h| - 1] == v.route then h else h + [v.route])
    ensures forall k | k in Commit(log, v).value :: k in log || k == NextKey(log, v.node, v.route)
    ensures exists n: nat :: n >= 1 && NextKey(log, v.node, v.route) == Key(v.node, n)
    ensures forall k | k in log :: k in Commit(log, v).value && Commit(log, v).value[k] == log[k]
  {
    EncodedLast(log, v.node, h);
    var n := if h != [] && h[|h| - 1] == v.route then |h| else |h| + 1;
    assert Key(v.node, n) == NextKey(log, v.node, v.route);
    assert n <= |h| ==> Key(v.node, n) in log;
    var after := Commit(log, v).value;
    forall k: nat {:trigger Key(v.node, k)} | k >= 1
      ensures Key(v.node, k) in after <==> k <= |h| || k == n
      ensures Key(v.node, k) in after ==> after[Key(v.node, k)] == if k == n then v.route else h[k - 1]
    {
      if Key(v.node, k) == Key(v.node, n) {
        SlotInjective(v.node, k, n);
      }
    }
  }

  lemma OtherNodesKept(log: RouteLog, v: Visit, h: seq<string>, node: string, g: seq<string>)
    requires '#' !in v.node && '#' !in node && node != v.node
    requires Encodes(log, v.node, h) && Encodes(log, node, g)
    ensures Commit(log, v).Ok? && Encodes(Commit(log, v).value, node, g)
  {
    CommitStep(log, v, h);
    var n: nat :| n >= 1 && NextKey(log, v.node, v.route) == Key(v.node, n);
    forall k: nat {:trigger Key(node, k)} | k >= 1 ensures Key(node, k) != Key(v.node, n) {
      if Key(node, k) == Key(v.node, n) {
        KeyInjective(node, k, v.node, n);
      }
    }
  }

  ghost predicate PlainIds(vs: seq<Visit>) {
    forall i | 0 <= i < |vs| :: '#' !in vs[i].node
  }

  lemma NothingEncoded(node: string)
    ensures Encodes(map[], node, Squash([]))
  {
  }

  /**
   * For every sequence of commits no merge conflicts, and each node's keys are `id`, `id#2`, ...
   * without a gap, holding its routes in order with consecutive repeats removed.
   */
  lemma {:induction false} LogRecordsHistory(vs: seq<Visit>, node: string)
    requires PlainIds(vs) && '#' !in node
    ensures Play(vs).Ok?
    ensures Encodes(Play(vs).value, node, Squash(RoutesOf(vs, node)))
    decreases |vs|
  {
    hide Encodes, Squash, NextKey, Key, Commit;
    if vs == [] {
      NothingEncoded(node);
    } else {
      var init, v := vs[..|vs| - 1], vs[|vs| - 1];
      LogRecordsHistory(init, node);
      LogRecordsHistory(init, v.node);
      var log := Play(init).value;
      if v.node == node {
        CommitStep(log, v, Squash(RoutesOf(init, node)));
        SquashAppend(RoutesOf(init, node), v.route);
      } else {
        OtherNodesKept(log, v, Squash(RoutesOf(init, v.node)), node, Squash(RoutesOf(init, node)));
        assert RoutesOf(init, node) + [] == RoutesOf(init, node);
      }
    }
  }

  /** `route_for` answers with the node's last committed route, and `continue` before any. */
  lemma RouteForIsLastCommit(vs: seq<Visit>, node: string)
    requires PlainIds(vs) && '#' !in node
    ensures Play(vs).Ok?
    ensures RouteFor(Play(vs).value, node) == LastOr(RoutesOf(vs, node), CONTINUE)
  {
    hide Play, RoutesOf, Encodes, RouteFor, Squash;
    LogRecordsHistory(vs, node);
    var rs := RoutesOf(vs, node);
    EncodedLast(Play(vs).value, node, Squash(rs));
    SquashEnds(rs);
  }

  lemma SquashEnds(rs: seq<string>)
    ensures LastOr(Squash(rs), CONTINUE) == LastOr(rs, CONTINUE)
  {
    if rs != [] {
      SquashLast(rs);
    }
  }

  function LastOr(rs: seq<string>, default: string): string {
    if rs == [] then default else rs[|rs| - 1]
  }

  // ----- resuming a halted node ---------------------------------------------

  /** `resume_case` without a checkpoint drops the halted node's plain key and nothing else. */
  function Popped(log: RouteLog, node: string): RouteLog {
    log - {node}
  }

  /**
   * After that restart the node's next route is the one read back exactly when its history held a
   * single entry (or the new route repeats the stale one): a surviving `#2` still reads as latest.
   */
  lemma RestartedRoute(log: RouteLog, node: string, h: seq<string>, route: string)
    requires '#' !in node && Encodes(log, node, h) && h != []
    ensures Commit(Popped(log, node), Visit(node, route)).Ok?
    ensures RouteFor(Commit(Popped(log, node), Visit(node, route)).value, node) ==
            if |h| == 1 then route else h[|h| - 1]
  {
    var popped := Popped(log, node);
    var after := popped[node := route];
    assert popped + map[node := route] == after;
    assert Key(node, 1) == node;
    forall k: nat {:trigger Key(node, k)} | k > 1 ensures Key(node, k) != node {
      if Key(node, k) == node {
        SlotInjective(node, k, 1);
      }
    }
    assert Key(node, |h| + 1) !in log;
    assert |h| > 1 ==> Key(node, |h|) in log;
    LastSlotUnique(after, node, |h|);
  }

  /** A node that once continued and then asked for approval: resumed to continue, it still reads as asking. */
  lemma StaleRouteSurvives(node: string)
    requires '#' !in node
    ensures var was := Play([Visit(node, CONTINUE), Visit(node, "approval")]);
            && was.Ok? && Commit(Popped(was.value, node), Visit(node, CONTINUE)).Ok?
            && RouteFor(Commit(Popped(was.value, node), Visit(node, CONTINUE)).value, node) == "approval"
  {
    var vs := [Visit(node, CONTINUE), Visit(node, "approval")];
    LogRecordsHistory(vs, node);
    assert vs[..1] == [Visit(node, CONTINUE)] && [Visit(node, CONTINUE)][..0] == [];
    var h := [CONTINUE, "approval"];
    assert RoutesOf(vs[..1], node) == [CONTINUE];
    assert RoutesOf(vs, node) == h;
    assert h[..1] == [CONTINUE] && CONTINUE[0] != "approval"[0];
    assert Squash(h) == h;
    RestartedRoute(Play(vs).value, node, h, CONTINUE);
  }

  /** On a checkpoint the popped log is merged back into the full one, so nothing is dropped... */
  lemma CheckpointKeepsHistory(log: RouteLog, node: string)
    ensures MergeRoutes(log, Popped(log, node)) == Ok(log)
  {
    assert log + Popped(log, node) == log;
  }

  /** ...and the resumed node's new route is always the one read back. */
  lemma CheckpointedRoute(log: RouteLog, node: string, h: seq<string>, route: string)
    requires '#' !in node && Encodes(log, node, h)
    ensures Commit(log, Visit(node, route)).Ok?
    ensures RouteFor(Commit(log, Visit(node, route)).value, node) == route
  {
    CommitStep(log, Visit(node, route), h);
    var h' := if h != [] && h[|h| - 1] == route then h else h + [route];
    EncodedLast(Commit(log, Visit(node, route)).value, node, h');
  }
}
