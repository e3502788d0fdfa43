/** Small vocabulary shared by every module: optional values, key-ordered iteration over the
    tree maps of the source, and byte pairs. */
module Basics {

  datatype Option<+T> = None | Some(value: T)

  /** Names (tags, ids, addresses, secrets) are only ever compared for equality and order. */
  type Name = int

  function Max(a: int, b: int): int {
    if a < b then b else a
  }

  // ---------------------------------------------------------------- ordered keys

  ghost predicate Ascending(s: seq<Name>) {
    forall i, j | 0 <= i < j < |s| :: s[i] < s[j]
  }

  /** The smallest name of a non-empty set. */
  function Least(s: set<Name>): (m: Name)
    requires s != {}
    ensures m in s && forall x | x in s :: m <= x
  {
    LeastExists(s);
    var m :| m in s && forall x | x in s :: m <= x;
    m
  }

  lemma {:induction false} LeastExists(s: set<Name>)
    requires s != {}
    ensures exists m :: m in s && forall x | x in s :: m <= x
  {
    if forall y :: y !in s {
      assert false;
    }
    var x :| x in s;
    var rest := s - {x};
    assert forall y | y in s :: y == x || y in rest;
    if rest == {} {
      assert forall y | y in s :: x <= y;
    } else {
      LeastExists(rest);
      var m :| m in rest && forall y | y in rest :: m <= y;
      if m < x {
        assert m in s && forall y | y in s :: m <= y;
      } else {
        assert x in s && forall y | y in s :: x <= y;
      }
    }
  }

  /** The iteration order of a tree map or tree set: every key once, ascending. */
  function Ordered(s: set<Name>): (r: seq<Name>)
    ensures forall x :: x in r <==> x in s
    ensures Ascending(r)
    ensures |r| == |s|
  {
    if s == {} then [] else
      var m := Least(s);
      var rest := Ordered(s - {m});
      OrderedStep(m, rest, s);
      [m] + rest
  }

  lemma OrderedStep(m: Name, rest: seq<Name>, s: set<Name>)
    requires m in s && (forall x | x in s :: m <= x)
    requires (forall x :: x in rest <==> x in s - {m}) && Ascending(rest)
    ensures (forall x :: x in [m] + rest <==> x in s) && Ascending([m] + rest)
  {
    assert forall i | 0 <= i < |rest| :: rest[i] in rest;
  }

  /** A map after the listed keys left it. */
  ghost function Less<K, V>(m: map<K, V>, ks: seq<K>): map<K, V> {
    if ks == [] then m else Less(m, ks[..|ks| - 1]) - {ks[|ks| - 1]}
  }

  lemma {:induction false} LessHas<K, V>(m: map<K, V>, ks: seq<K>, k: K)
    ensures k in Less(m, ks) <==> k in m && k !in ks
    ensures k in Less(m, ks) ==> Less(m, ks)[k] == m[k]
  {
    if ks != [] {
      LessHas(m, ks[..|ks| - 1], k);
      assert ks == ks[..|ks| - 1] + [ks[|ks| - 1]];
    }
  }

  lemma LessNext<K, V>(m: map<K, V>, ks: seq<K>, n: nat)
    requires n < |ks|
    ensures Less(m, ks[..n + 1]) == Less(m, ks[..n]) - {ks[n]}
  {
    assert ks[..n + 1][..n] == ks[..n];
  }

  // ---------------------------------------------------------------- byte pairs

  /** Bytes in the client's two directions. */
  datatype Bytes = Bytes(up: nat, down: nat)

  const Zero := Bytes(0, 0)

  /** A counter map read with absent entries as zero. */
  function At<K>(m: map<K, Bytes>, k: K): Bytes {
    if k in m then m[k] else Zero
  }

  function Put<K(!new)>(m: map<K, Bytes>, k: K, v: Bytes): (r: map<K, Bytes>)
    ensures forall j :: At(r, j) == if j == k then v else At(m, j)
  {
    m[k := v]
  }
}
