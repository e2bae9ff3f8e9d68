/** The conflict-detecting reducers of `contracts/state.py`. */
module Reducers {
  import opened Results
  import opened Ordering

  datatype ArtifactRef = ArtifactRef(
    artifactType: string,
    schemaVersion: string,
    artifactId: string,
    contentDigest: string,
    uri: string)

  type RefMap = map<Key, ArtifactRef>

  function KeyOf(r: ArtifactRef): Key {
    (r.artifactType, r.artifactId)
  }

  // ----- merge_artifact_refs ------------------------------------------------

  /** One iteration of the merge loop: raise on a second digest for a key, else overwrite. */
  function Record(m: RefMap, r: ArtifactRef): Outcome<RefMap> {
    if KeyOf(r) in m && m[KeyOf(r)].contentDigest != r.contentDigest then Raised
    else Ok(m[KeyOf(r) := r])
  }

  function Collect(m: RefMap, xs: seq<ArtifactRef>): Outcome<RefMap>
    decreases |xs|
  {
    if xs == [] then Ok(m)
    else
      match Record(m, xs[0])
      case Raised => Raised
      case Ok(m') => Collect(m', xs[1..])
  }

  /** `[m[key] for key in sorted(m)]`. */
  ghost function Listing(m: RefMap): (r: seq<ArtifactRef>) {
    var ks := Sorted(m.Keys);
    assert forall i | 0 <= i < |ks| :: ks[i] in ks;
    seq(|ks|, i requires 0 <= i < |ks| => m[ks[i]])
  }

  ghost function Merge(left: seq<ArtifactRef>, right: seq<ArtifactRef>): Outcome<seq<ArtifactRef>> {
    match Collect(map[], left + right)
    case Raised => Raised
    case Ok(m) => Ok(Listing(m))
  }

  /** The last reference recorded under each key, with no conflict check. */
  function Index(xs: seq<ArtifactRef>): RefMap {
    if xs == [] then map[] else Index(xs[..|xs| - 1])[KeyOf(xs[|xs| - 1]) := xs[|xs| - 1]]
  }

  ghost function Elems(xs: seq<ArtifactRef>): set<ArtifactRef> {
    set x | x in xs
  }

  /** No key carries two digests. */
  ghost predicate Consistent(s: set<ArtifactRef>) {
    forall x, y | x in s && y in s && KeyOf(x) == KeyOf(y) :: x.contentDigest == y.contentDigest
  }

  /** One reference per key, in strictly ascending key order: what the reducer returns. */
  ghost predicate Normal(xs: seq<ArtifactRef>) {
    forall i, j | 0 <= i < j < |xs| :: KeyLess(KeyOf(xs[i]), KeyOf(xs[j]))
  }

  ghost predicate Indexed(m: RefMap) {
    forall k | k in m :: KeyOf(m[k]) == k
  }

  ghost function Digests(m: RefMap): map<Key, string> {
    map k | k in m :: m[k].contentDigest
  }

  lemma ElemsConcat(xs: seq<ArtifactRef>, ys: seq<ArtifactRef>)
    ensures Elems(xs + ys) == Elems(xs) + Elems(ys)
  {
  }

  lemma {:induction false} IndexMembers(xs: seq<ArtifactRef>)
    ensures Indexed(Index(xs))
    ensures forall k | k in Index(xs) :: Index(xs)[k] in Elems(xs)
    ensures forall x | x in Elems(xs) :: KeyOf(x) in Index(xs)
  {
    if xs != [] {
      var init := xs[..|xs| - 1];
      IndexMembers(init);
      assert xs == init + [xs[|xs| - 1]];
    }
  }

  lemma {:induction false} IndexConcat(xs: seq<ArtifactRef>, ys: seq<ArtifactRef>)
    ensures Index(xs + ys) == Index(xs) + Index(ys)
  {
    if ys == [] {
      assert xs + ys == xs;
    } else {
      var init := ys[..|ys| - 1];
      assert (xs + ys)[..|xs + ys| - 1] == xs + init;
      IndexConcat(xs, init);
    }
  }

  /** Adding one reference keeps consistency exactly when the loop's test lets it in. */
  lemma RecordMeaning(done: seq<ArtifactRef>, r: ArtifactRef)
    requires Consistent(Elems(done))
    ensures Elems(done + [r]) == Elems(done) + {r}
    ensures Consistent(Elems(done) + {r}) <==> Record(Index(done), r).Ok?
    ensures Record(Index(done), r).Ok? ==> Record(Index(done), r).value == Index(done + [r])
  {
    IndexMembers(done);
    assert (done + [r])[..|done|] == done;
    if KeyOf(r) in Index(done) {
      var z := Index(done)[KeyOf(r)];
      assert z in Elems(done) + {r};
    }
  }

  lemma ConsistentSubset(s: set<ArtifactRef>, t: set<ArtifactRef>)
    requires s <= t && Consistent(t)
    ensures Consistent(s)
  {
  }

  /** The loop raises exactly at the first conflict; otherwise it has indexed what it read. */
  lemma {:induction false} CollectMeaning(done: seq<ArtifactRef>, xs: seq<ArtifactRef>)
    requires Consistent(Elems(done))
    ensures Collect(Index(done), xs) ==
            if Consistent(Elems(done + xs)) then Ok(Index(done + xs)) else Raised
    decreases |xs|
  {
    if xs == [] {
      assert done + xs == done;
    } else {
      var next := done + [xs[0]];
      assert done + xs == next + xs[1..];
      RecordMeaning(done, xs[0]);
      ElemsConcat(next, xs[1..]);
      if Record(Index(done), xs[0]).Ok? {
        CollectMeaning(next, xs[1..]);
      } else if Consistent(Elems(done + xs)) {
        ConsistentSubset(Elems(next), Elems(done + xs));
      }
    }
  }

  lemma ListingMeaning(m: RefMap)
    requires Indexed(m)
    ensures Normal(Listing(m))
    ensures forall k | k in m :: m[k] in Elems(Listing(m))
    ensures forall x | x in Elems(Listing(m)) :: KeyOf(x) in m && m[KeyOf(x)] == x
  {
    var ks := Sorted(m.Keys);
    var l := Listing(m);
    assert forall i | 0 <= i < |ks| :: ks[i] in ks && l[i] == m[ks[i]];
    forall k | k in m ensures m[k] in Elems(l) {
      assert k in ks;
      var i :| 0 <= i < |ks| && ks[i] == k;
      assert l[i] in l;
    }
  }

  lemma {:induction false} NormalIndex(xs: seq<ArtifactRef>)
    requires Normal(xs)
    ensures forall i | 0 <= i < |xs| :: KeyOf(xs[i]) in Index(xs) && Index(xs)[KeyOf(xs[i])] == xs[i]
  {
    if xs != [] {
      var init := xs[..|xs| - 1];
      NormalIndex(init);
      forall i | 0 <= i < |xs| - 1 ensures KeyOf(xs[i]) in Index(xs) && Index(xs)[KeyOf(xs[i])] == xs[i] {
        assert init[i] == xs[i];
        KeyLessStrict(KeyOf(xs[i]), KeyOf(xs[|xs| - 1]));
        KeyLessStrict(KeyOf(xs[i]), KeyOf(xs[i]));
      }
    }
  }

  lemma NormalConsistent(xs: seq<ArtifactRef>)
    requires Normal(xs)
    ensures Consistent(Elems(xs))
  {
    NormalIndex(xs);
    forall x | x in Elems(xs) ensures KeyOf(x) in Index(xs) && Index(xs)[KeyOf(x)] == x {
      var i :| 0 <= i < |xs| && xs[i] == x;
    }
  }

  lemma IndexOfListing(m: RefMap)
    requires Indexed(m)
    ensures Index(Listing(m)) == m
  {
    ListingMeaning(m);
    IndexMembers(Listing(m));
    SameIndex(m, Index(Listing(m)), Elems(Listing(m)));
  }

  lemma SameIndex(m: RefMap, n: RefMap, es: set<ArtifactRef>)
    requires Indexed(m) && Indexed(n)
    requires forall k | k in m :: m[k] in es
    requires forall x | x in es :: KeyOf(x) in m && m[KeyOf(x)] == x && KeyOf(x) in n
    requires forall k | k in n :: n[k] in es
    ensures n == m
  {
    hide KeyOf;
    forall k | k in m ensures k in n && n[k] == m[k] {
      assert m[k] in es;
    }
    forall k | k in n ensures k in m {
      assert n[k] in es;
    }
  }

  /** A normal list is the only listing of its index. */
  lemma ListingUnique(xs: seq<ArtifactRef>)
    requires Normal(xs)
    ensures Listing(Index(xs)) == xs
  {
    var m := Index(xs);
    IndexMembers(xs);
    NormalIndex(xs);
    var ks := seq(|xs|, i requires 0 <= i < |xs| => KeyOf(xs[i]));
    forall k ensures k in ks <==> k in m.Keys {
      if k in m {
        var i :| 0 <= i < |xs| && xs[i] == m[k];
        assert ks[i] == k;
      }
    }
    AscendingUnique(ks, Sorted(m.Keys));
  }

  /** Success exactly without a conflict; then the sorted, right-biased union of the two indexes. */
  lemma MergeMeaning(left: seq<ArtifactRef>, right: seq<ArtifactRef>)
    ensures Merge(left, right) ==
            if Consistent(Elems(left) + Elems(right)) then Ok(Listing(Index(left) + Index(right))) else Raised
    ensures Indexed(Index(left) + Index(right))
  {
    CollectMeaning([], left + right);
    assert [] + (left + right) == left + right;
    IndexConcat(left, right);
    IndexMembers(left);
    IndexMembers(right);
    ElemsConcat(left, right);
  }

  /** What a merged list holds: one reference per key of either side, the right side's first. */
  lemma MergedList(left: seq<ArtifactRef>, right: seq<ArtifactRef>)
    requires Merge(left, right).Ok?
    ensures var r := Merge(left, right).value;
            && Normal(r)
            && Index(r) == Index(left) + Index(right)
            && Elems(r) <= Elems(left) + Elems(right)
  {
    hide Merge, Listing, Index, Normal, Consistent;
    MergeMeaning(left, right);
    var m := Index(left) + Index(right);
    ListingMeaning(m);
    IndexOfListing(m);
    IndexMembers(left);
    IndexMembers(right);
    forall x | x in Elems(Listing(m)) ensures x in Elems(left) + Elems(right) {
      assert m[KeyOf(x)] == x;
    }
  }

  /** Every reference that went in is represented by one with its key and digest. */
  lemma Represented(left: seq<ArtifactRef>, right: seq<ArtifactRef>, x: ArtifactRef)
    requires Merge(left, right).Ok?
    requires x in Elems(left) + Elems(right)
    ensures exists z :: z in Elems(Merge(left, right).value) && KeyOf(z) == KeyOf(x) && z.contentDigest == x.contentDigest
  {
    var r := Merge(left, right).value;
    MergeMeaning(left, right);
    MergedList(left, right);
    IndexMembers(left);
    IndexMembers(right);
    IndexMembers(r);
    var z := Index(r)[KeyOf(x)];
    assert z in Elems(r);
  }

  lemma ConsistentSplit(xs: seq<ArtifactRef>, ys: seq<ArtifactRef>, z: set<ArtifactRef>)
    requires Merge(xs, ys).Ok?
    ensures Consistent(Elems(Merge(xs, ys).value) + z) <==> Consistent(Elems(xs) + Elems(ys) + z)
  {
    var r, e := Elems(Merge(xs, ys).value), Elems(xs) + Elems(ys);
    MergedList(xs, ys);
    MergeMeaning(xs, ys);
    if Consistent(e + z) {
      ConsistentSubset(r + z, e + z);
    }
    if Consistent(r + z) {
      forall x, y | x in e + z && y in e + z && KeyOf(x) == KeyOf(y)
        ensures x.contentDigest == y.contentDigest
      {
        if x in e { Represented(xs, ys, x); }
        if y in e { Represented(xs, ys, y); }
        var x' :| x' in r + z && KeyOf(x') == KeyOf(x) && x'.contentDigest == x.contentDigest;
        var y' :| y' in r + z && KeyOf(y') == KeyOf(y) && y'.contentDigest == y.contentDigest;
      }
    }
  }

  ghost function MergeAfter(o: Outcome<seq<ArtifactRef>>, right: seq<ArtifactRef>): Outcome<seq<ArtifactRef>> {
    if o.Raised? then Raised else Merge(o.value, right)
  }

  ghost function MergeBefore(left: seq<ArtifactRef>, o: Outcome<seq<ArtifactRef>>): Outcome<seq<ArtifactRef>> {
    if o.Raised? then Raised else Merge(left, o.value)
  }

  lemma MergeAfterMeaning(a: seq<ArtifactRef>, b: seq<ArtifactRef>, c: seq<ArtifactRef>)
    ensures MergeAfter(Merge(a, b), c) ==
            if Consistent(Elems(a) + Elems(b) + Elems(c)) then Ok(Listing(Index(a) + Index(b) + Index(c))) else Raised
  {
    MergeMeaning(a, b);
    if Merge(a, b).Ok? {
      MergedList(a, b);
      MergeMeaning(Merge(a, b).value, c);
      ConsistentSplit(a, b, Elems(c));
    } else if Consistent(Elems(a) + Elems(b) + Elems(c)) {
      ConsistentSubset(Elems(a) + Elems(b), Elems(a) + Elems(b) + Elems(c));
    }
  }

  lemma MergeBeforeMeaning(a: seq<ArtifactRef>, b: seq<ArtifactRef>, c: seq<ArtifactRef>)
    ensures MergeBefore(a, Merge(b, c)) ==
            if Consistent(Elems(b) + Elems(c) + Elems(a)) then Ok(Listing(Index(a) + (Index(b) + Index(c)))) else Raised
  {
    MergeMeaning(b, c);
    if Merge(b, c).Ok? {
      MergedList(b, c);
      MergeMeaning(a, Merge(b, c).value);
      ConsistentSplit(b, c, Elems(a));
      UnionCommutes(Elems(a), Elems(Merge(b, c).value));
    } else if Consistent(Elems(b) + Elems(c) + Elems(a)) {
      ConsistentSubset(Elems(b) + Elems(c), Elems(b) + Elems(c) + Elems(a));
    }
  }

  lemma UnionCommutes(s: set<ArtifactRef>, t: set<ArtifactRef>)
    ensures s + t == t + s
  {
  }

  /** Grouping never matters, neither for the merged list nor for whether a conflict is raised. */
  lemma MergeAssociative(a: seq<ArtifactRef>, b: seq<ArtifactRef>, c: seq<ArtifactRef>)
    ensures MergeAfter(Merge(a, b), c) == MergeBefore(a, Merge(b, c))
  {
    MergeAfterMeaning(a, b, c);
    MergeBeforeMeaning(a, b, c);
    assert Elems(a) + Elems(b) + Elems(c) == Elems(b) + Elems(c) + Elems(a);
    assert Index(a) + Index(b) + Index(c) == Index(a) + (Index(b) + Index(c));
  }

  /** r(x, r(x, d)) == r(x, d): handing an accumulated list back to its accumulator adds nothing. */
  lemma MergeAbsorbs(x: seq<ArtifactRef>, d: seq<ArtifactRef>)
    ensures MergeBefore(x, Merge(x, d)) == Merge(x, d)
  {
    MergeBeforeMeaning(x, x, d);
    MergeMeaning(x, d);
    assert Elems(x) + Elems(d) + Elems(x) == Elems(x) + Elems(d);
    assert Index(x) + (Index(x) + Index(d)) == Index(x) + Index(d);
  }

  /** A list the reducer already produced merges into itself unchanged. */
  lemma MergeIdempotent(x: seq<ArtifactRef>)
    requires Normal(x)
    ensures Merge(x, x) == Ok(x)
  {
    ListingUnique(x);
    NormalConsistent(x);
    MergeMeaning(x, x);
    assert Elems(x) + Elems(x) == Elems(x);
    assert Index(x) + Index(x) == Index(x);
  }

  /** Parallel branches may arrive in either order: same failures, same digest under every key. */
  lemma MergeOrderFree(a: seq<ArtifactRef>, b: seq<ArtifactRef>)
    ensures Merge(a, b).Ok? <==> Merge(b, a).Ok?
    ensures Merge(a, b).Ok? ==>
              Digests(Index(Merge(a, b).value)) == Digests(Index(Merge(b, a).value))
  {
    MergeMeaning(a, b);
    MergeMeaning(b, a);
    UnionCommutes(Elems(a), Elems(b));
    if Merge(a, b).Ok? {
      MergedList(a, b);
      MergedList(b, a);
      DigestsAgree(a, b);
    }
  }

  lemma DigestsAgree(a: seq<ArtifactRef>, b: seq<ArtifactRef>)
    requires Consistent(Elems(a) + Elems(b))
    ensures Digests(Index(a) + Index(b)) == Digests(Index(b) + Index(a))
  {
    var m, n := Index(a), Index(b);
    forall k | k in m && k in n ensures m[k].contentDigest == n[k].contentDigest {
      IndexMembers(a);
      IndexMembers(b);
      assert m[k] in Elems(a) + Elems(b) && n[k] in Elems(a) + Elems(b);
    }
    DigestsCommute(m, n);
  }

  lemma DigestsCommute(m: RefMap, n: RefMap)
    requires forall k | k in m && k in n :: m[k].contentDigest == n[k].contentDigest
    ensures Digests(m + n) == Digests(n + m)
  {
  }

  /** The reducer's first loop, over `[*left, *right]`. */
  method CollectRefs(all: seq<ArtifactRef>) returns (r: Outcome<RefMap>)
    ensures r == if Consistent(Elems(all)) then Ok(Index(all)) else Raised
  {
    var merged: RefMap := map[];
    for i := 0 to |all|
      invariant Consistent(Elems(all[..i]))
      invariant merged == Index(all[..i])
    {
      var ref := all[i];
      RecordMeaning(all[..i], ref);
      assert all[..i + 1] == all[..i] + [ref];
      if KeyOf(ref) in merged && merged[KeyOf(ref)].contentDigest != ref.contentDigest {
        assert Elems(all[..i]) + {ref} <= Elems(all);
        if Consistent(Elems(all)) {
          ConsistentSubset(Elems(all[..i]) + {ref}, Elems(all));
        }
        return Raised;
      }
      merged := merged[KeyOf(ref) := ref];
    }
    assert all[..|all|] == all;
    r := Ok(merged);
  }

  method MergeArtifactRefs(left: seq<ArtifactRef>, right: seq<ArtifactRef>)
    returns (r: Outcome<seq<ArtifactRef>>)
    ensures r == Merge(left, right)
  {
    hide Merge, Index, Consistent, Elems;
    MergeMeaning(left, right);
    ElemsConcat(left, right);
    IndexConcat(left, right);
    var collected := CollectRefs(left + right);
    if collected.Raised? {
      return Raised;
    }
    var merged := collected.value;
    var keys := SortKeys(merged.Keys);
    AscendingUnique(keys, Sorted(merged.Keys));
    var out := [];
    for i := 0 to |keys|
      invariant |out| == i
      invariant forall j | 0 <= j < i :: keys[j] in merged && out[j] == merged[keys[j]]
    {
      assert keys[i] in keys;
      out := out + [merged[keys[i]]];
    }
    assert out == Listing(merged);
    r := Ok(out);
  }

  // ----- merge_node_routes --------------------------------------------------

  type RouteLog = map<string, string>

  function MergeRoutes(left: RouteLog, right: RouteLog): Outcome<RouteLog> {
    if forall k | k in right && k in left :: left[k] == right[k] then Ok(left + right) else Raised
  }

  /** The keys of `right` outside `rest` are merged into `left`, without a conflict among them. */
  ghost predicate MergedUpTo(left: RouteLog, right: RouteLog, rest: set<string>, merged: RouteLog) {
    && merged.Keys == left.Keys + (right.Keys - rest)
    && (forall k | k in right && k in left && k !in rest :: left[k] == right[k])
    && (forall k | k in merged :: merged[k] == if k in right && k !in rest then right[k] else left[k])
  }

  lemma NoneMerged(left: RouteLog, right: RouteLog)
    ensures MergedUpTo(left, right, right.Keys, left)
  {
  }

  lemma MergeOne(left: RouteLog, right: RouteLog, rest: set<string>, merged: RouteLog, node: string)
    requires MergedUpTo(left, right, rest, merged) && rest <= right.Keys && node in rest
    ensures node in merged && merged[node] != right[node] ==> MergeRoutes(left, right) == Raised
    ensures !(node in merged && merged[node] != right[node]) ==> MergedUpTo(left, right, rest - {node}, merged[node := right[node]])
  {
  }

  lemma AllMerged(left: RouteLog, right: RouteLog, merged: RouteLog)
    requires MergedUpTo(left, right, {}, merged)
    ensures MergeRoutes(left, right) == Ok(merged)
  {
    assert merged == left + right;
  }

  /** The reducer's loop over the right operand's items, in whatever order they come. */
  method MergeNodeRoutes(left: RouteLog, right: RouteLog) returns (r: Outcome<RouteLog>)
    ensures r == MergeRoutes(left, right)
  {
    hide MergedUpTo, MergeRoutes;
    var merged := left;
    var rest := right.Keys;
    assert MergedUpTo(left, right, rest, merged) by { NoneMerged(left, right); }
    while rest != {}
      invariant rest <= right.Keys && MergedUpTo(left, right, rest, merged)
      decreases |rest|
    {
      var node :| node in rest;
      MergeOne(left, right, rest, merged, node);
      if node in merged && merged[node] != right[node] {
        return Raised;
      }
      merged := merged[node := right[node]];
      rest := rest - {node};
    }
    AllMerged(left, right, merged);
    r := Ok(merged);
  }

  // ----- latest_node --------------------------------------------------------

  /** A progress marker: a catalogue id such as `S03.10`, or text without a dot. */
  datatype Marker = Plain(text: string) | Numbered(stage: string, number: int, text: string)

  predicate MarkerLess(a: Marker, b: Marker)
    requires a.Numbered? && b.Numbered?
  {
    || StringLess(a.stage, b.stage)
    || (a.stage == b.stage && a.number < b.number)
    || (a.stage == b.stage && a.number == b.number && StringLess(a.text, b.text))
  }

  function LatestNode(left: Marker, right: Marker): Marker {
    if left.Plain? then right
    else if right.Plain? then left
    else if MarkerLess(left, right) then right else left
  }

  lemma MarkerOrder(a: Marker, b: Marker)
    requires a.Numbered? && b.Numbered?
    ensures a == b || MarkerLess(a, b) || MarkerLess(b, a)
    ensures MarkerLess(a, b) ==> !MarkerLess(b, a)
    ensures !MarkerLess(a, a)
  {
    StringLessStrict(a.stage, b.stage);
    StringLessStrict(a.text, b.text);
    StringLessStrict(a.stage, a.stage);
    StringLessStrict(a.text, a.text);
  }

  lemma MarkerTransitive(a: Marker, b: Marker, c: Marker)
    requires a.Numbered? && b.Numbered? && c.Numbered?
    requires MarkerLess(a, b) && MarkerLess(b, c)
    ensures MarkerLess(a, c)
  {
    if StringLess(a.stage, b.stage) && StringLess(b.stage, c.stage) {
      StringLessTransitive(a.stage, b.stage, c.stage);
    }
    if StringLess(a.text, b.text) && StringLess(b.text, c.text) {
      StringLessTransitive(a.text, b.text, c.text);
    }
  }

  /** The progress marker is associative and idempotent: it never moves backwards. */
  lemma LatestNodeAssociative(x: Marker, y: Marker, z: Marker)
    ensures LatestNode(LatestNode(x, y), z) == LatestNode(x, LatestNode(y, z))
    ensures LatestNode(x, x) == x
  {
    if x.Numbered? && y.Numbered? && z.Numbered? {
      MarkerOrder(x, y);
      MarkerOrder(y, z);
      MarkerOrder(x, z);
      if MarkerLess(x, y) && MarkerLess(y, z) {
        MarkerTransitive(x, y, z);
      }
      if MarkerLess(z, y) && MarkerLess(y, x) {
        MarkerTransitive(z, y, x);
      }
    }
  }
}
