/** Shared vocabulary: optional values, fallible results, and the counting lemmas that the
    slug, stage and reservation modules argue with. */
module Common {

  datatype Option<+T> = None | Some(value: T)

  datatype Result<+T, +E> = Ok(value: T) | Err(error: E)

  /** A transaction commits what it computed or leaves the database as it was. */
  function Settle<T, E>(before: T, outcome: Result<T, E>): T {
    match outcome
    case Ok(after) => after
    case Err(_) => before
  }

  function ErrorOf<T, E>(outcome: Result<T, E>): Option<E> {
    match outcome
    case Ok(_) => None
    case Err(e) => Some(e)
  }

  /** The numbers 0..n-1. */
  function Below(n: nat): (s: set<nat>)
    ensures |s| == n
    ensures forall i: nat :: i in s <==> i < n
  {
    if n == 0 then {} else Below(n - 1) + {n - 1}
  }

  lemma SubsetSize<T>(a: set<T>, b: set<T>)
    requires a <= b
    ensures |a| <= |b|
    ensures |a| == |b| ==> a == b
  {
    assert b == a + (b - a);
  }

  /** A map that sends distinct keys to distinct values has as many values as keys. */
  lemma {:induction false} InjectiveValues<K, V>(m: map<K, V>)
    requires forall a, b :: a in m && b in m && a != b ==> m[a] != m[b]
    ensures |m.Values| == |m|
  {
    if m == map[] {
      assert m.Values == {};
    } else {
      var k :| k in m;
      var rest := m - {k};
      InjectiveValues(rest);
      assert m.Values == rest.Values + {m[k]} by {
        forall v | v in m.Values ensures v in rest.Values + {m[k]} {
          var a :| a in m && m[a] == v;
          if a != k { assert a in rest && rest[a] == v; }
        }
      }
      assert m[k] !in rest.Values;
      assert m.Keys == rest.Keys + {k};
    }
  }

  /** Pigeonhole: n distinct numbers below n are all the numbers below n. */
  lemma Pigeonhole<K>(m: map<K, nat>)
    requires forall a, b :: a in m && b in m && a != b ==> m[a] != m[b]
    requires forall a :: a in m ==> m[a] < |m|
    ensures m.Values == Below(|m|)
  {
    InjectiveValues(m);
    assert m.Values <= Below(|m|);
    SubsetSize(m.Values, Below(|m|));
  }

  ghost predicate Distinct<T>(s: seq<T>) {
    forall i, j :: 0 <= i < j < |s| ==> s[i] != s[j]
  }

  function SetOf<T(!new)>(s: seq<T>): (r: set<T>)
    ensures forall x :: x in r <==> x in s
  {
    if s == [] then {} else
      assert forall x :: x in s <==> x == s[0] || x in s[1..];
      {s[0]} + SetOf(s[1..])
  }

  lemma {:induction false} DistinctSize<T(!new)>(s: seq<T>)
    requires Distinct(s)
    ensures |SetOf(s)| == |s|
  {
    if s != [] {
      DistinctSize(s[1..]);
      assert s[0] !in SetOf(s[1..]);
    }
  }

  predicate IsLeast(ids: set<nat>, m: nat) {
    m in ids && forall x | x in ids :: m <= x
  }

  lemma LeastExists(ids: set<nat>)
    requires ids != {}
    ensures exists m :: IsLeast(ids, m)
  {
    var m :| m in ids;
    var rest := ids - {m};
    if rest == {} {
      assert ids == {m};
      assert IsLeast(ids, m);
    } else {
      LeastExists(rest);
      var r :| IsLeast(rest, r);
      assert forall x :: x in ids ==> x == m || x in rest;
      assert IsLeast(ids, if r < m then r else m);
    }
  }

  /** The row `findFirst` returns, taken as the one with the lowest key. */
  function First(ids: set<nat>): (r: Option<nat>)
    ensures r.None? <==> ids == {}
    ensures r.Some? ==> r.value in ids
  {
    if ids == {} then None else
      LeastExists(ids);
      var m :| IsLeast(ids, m);
      Some(m)
  }
}
