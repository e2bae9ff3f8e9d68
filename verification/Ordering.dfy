/** Python's `sorted` over strings and over pairs of strings. */
module Ordering {

  type Key = (string, string)

  /** `s < t` for Python strings: code points left to right, a proper prefix first. */
  predicate StringLess(s: string, t: string) {
    if t == "" then false
    else if s == "" then true
    else if s[0] != t[0] then s[0] < t[0]
    else StringLess(s[1..], t[1..])
  }

  lemma {:induction false} StringLessTransitive(s: string, t: string, u: string)
    requires StringLess(s, t) && StringLess(t, u)
    ensures StringLess(s, u)
  {
    if s != "" && s[0] == t[0] && t[0] == u[0] {
      StringLessTransitive(s[1..], t[1..], u[1..]);
    }
  }

  lemma {:induction false} StringLessStrict(s: string, t: string)
    ensures StringLess(s, t) ==> !StringLess(t, s)
    ensures s == t || StringLess(s, t) || StringLess(t, s)
    ensures !StringLess(s, s)
  {
    if s != "" {
      StringLessStrict(s[1..], if t == "" then "" else t[1..]);
      assert s == [s[0]] + s[1..];
    }
    if t != "" {
      assert t == [t[0]] + t[1..];
    }
  }

  /** `a < b` for Python tuples of two strings. */
  predicate KeyLess(a: Key, b: Key) {
    StringLess(a.0, b.0) || (a.0 == b.0 && StringLess(a.1, b.1))
  }

  lemma KeyLessTransitive(a: Key, b: Key, c: Key)
    requires KeyLess(a, b) && KeyLess(b, c)
    ensures KeyLess(a, c)
  {
    if StringLess(a.0, b.0) && StringLess(b.0, c.0) {
      StringLessTransitive(a.0, b.0, c.0);
    }
    if StringLess(a.1, b.1) && StringLess(b.1, c.1) {
      StringLessTransitive(a.1, b.1, c.1);
    }
  }

  lemma KeyLessStrict(a: Key, b: Key)
    ensures KeyLess(a, b) ==> !KeyLess(b, a)
    ensures a == b || KeyLess(a, b) || KeyLess(b, a)
    ensures !KeyLess(a, a)
  {
    StringLessStrict(a.0, b.0);
    StringLessStrict(a.1, b.1);
    StringLessStrict(a.0, a.0);
    StringLessStrict(a.1, a.1);
  }

  predicate Ascending(ks: seq<Key>) {
    forall i, j | 0 <= i < j < |ks| :: KeyLess(ks[i], ks[j])
  }

  ghost predicate IsLeast(k: Key, ks: set<Key>) {
    k in ks && forall j | j in ks :: j == k || KeyLess(k, j)
  }

  lemma LeastExists(ks: set<Key>)
    requires ks != {}
    ensures exists k :: IsLeast(k, ks)
  {
    var k :| k in ks;
    if ks == {k} {
      assert IsLeast(k, ks);
    } else {
      LeastExists(ks - {k});
      var l :| IsLeast(l, ks - {k});
      KeyLessStrict(k, l);
      if KeyLess(l, k) {
        assert IsLeast(l, ks);
      } else {
        forall j | j in ks ensures j == k || KeyLess(k, j) {
          if j != k && j != l {
            KeyLessTransitive(k, l, j);
          }
        }
        assert IsLeast(k, ks);
      }
    }
  }

  /** `sorted(keys)` as a value. */
  ghost function Sorted(ks: set<Key>): (s: seq<Key>)
    ensures Ascending(s)
    ensures forall x :: x in s <==> x in ks
    decreases |ks|
  {
    if ks == {} then []
    else
      LeastExists(ks);
      var k :| IsLeast(k, ks);
      var rest := Sorted(ks - {k});
      assert forall i | 0 <= i < |rest| :: rest[i] in ks - {k};
      [k] + rest
  }

  /** Only one ascending list has given members. */
  lemma {:induction false} AscendingUnique(a: seq<Key>, b: seq<Key>)
    requires Ascending(a) && Ascending(b)
    requires forall x :: x in a <==> x in b
    ensures a == b
  {
    assert b != [] ==> b[0] in a;
    if a != [] {
      assert a[0] in b;
      assert b[0] in a;
      var i :| 0 <= i < |b| && b[i] == a[0];
      var j :| 0 <= j < |a| && a[j] == b[0];
      KeyLessStrict(a[0], b[0]);
      assert a[0] == b[0];
      TailMembers(a);
      TailMembers(b);
      AscendingUnique(a[1..], b[1..]);
    }
  }

  lemma TailMembers(a: seq<Key>)
    requires Ascending(a) && a != []
    ensures forall x :: x in a[1..] <==> x in a && x != a[0]
  {
    KeyLessStrict(a[0], a[0]);
    assert a == [a[0]] + a[1..];
  }

  method InsertKey(ks: seq<Key>, k: Key) returns (r: seq<Key>)
    requires Ascending(ks) && k !in ks
    ensures Ascending(r)
    ensures forall x :: x in r <==> x in ks || x == k
  {
    var i := 0;
    while i < |ks| && KeyLess(ks[i], k)
      invariant 0 <= i <= |ks|
      invariant forall j | 0 <= j < i :: KeyLess(ks[j], k)
    {
      i := i + 1;
    }
    forall j | i <= j < |ks| ensures KeyLess(k, ks[j]) {
      KeyLessStrict(ks[i], k);
      if i < j {
        KeyLessTransitive(k, ks[i], ks[j]);
      }
    }
    r := ks[..i] + [k] + ks[i..];
    forall x ensures x in r <==> x in ks || x == k {
      assert ks == ks[..i] + ks[i..];
    }
  }

  /** `sorted(keys)`. */
  method SortKeys(keys: set<Key>) returns (r: seq<Key>)
    ensures Ascending(r)
    ensures forall x :: x in r <==> x in keys
  {
    r := [];
    var rest := keys;
    while rest != {}
      invariant rest <= keys
      invariant Ascending(r)
      invariant forall x :: x in r <==> x in keys - rest
      decreases |rest|
    {
      var k :| k in rest;
      r := InsertKey(r, k);
      rest := rest - {k};
    }
  }
}
