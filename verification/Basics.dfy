/** Small helpers shared by every model of the console and of its migrations. */
module Basics {

  datatype Option<+T> = None | Some(value: T)

  function Max(a: int, b: int): (m: int)
    ensures m >= a && m >= b && (m == a || m == b)
  {
    if a < b then b else a
  }

  function Min(a: int, b: int): (m: int)
    ensures m <= a && m <= b && (m == a || m == b)
  {
    if a < b then a else b
  }

  /** A JavaScript record read with `?? 0`. */
  function Stamp<K>(m: map<K, nat>, k: K): nat
  {
    if k in m then m[k] else 0
  }

  function Last<T>(s: seq<T>): (t: T)
    requires s != []
  {
    s[|s| - 1]
  }

  function DropLast<T>(s: seq<T>): (r: seq<T>)
    requires s != []
  {
    s[..|s| - 1]
  }

  function ToSet<T>(s: seq<T>): (r: set<T>)
  {
    set x | x in s
  }

  ghost predicate Distinct<T>(s: seq<T>) { forall i, j :: 0 <= i < j < |s| ==> s[i] != s[j] }

  lemma {:induction false} SubsetSize<T>(a: set<T>, b: set<T>)
    requires a <= b
    ensures |a| <= |b|
  {
    if x :| x in a { SubsetSize(a - {x}, b - {x}); }
  }

  lemma DisjointIff<T>(a: set<T>, b: set<T>)
    ensures a * b == {} <==> a !! b
  {
    if x :| x in a && x in b { assert x in a * b; }
  }

  lemma SubsetIsWhole<T>(a: set<T>, b: set<T>)
    requires a <= b && |a| == |b|
    ensures a == b
  {
    forall y | y in b ensures y in a {
      if y !in a { SubsetSize(a, b - {y}); }
    }
  }
}
