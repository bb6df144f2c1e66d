/** Small vocabulary shared by every component of the build engine. */
module Common {

  datatype Option<+T> = None | Some(value: T)

  datatype Result<+T, +E> = Ok(value: T) | Err(error: E)

  /** Plan, task and requirement identifiers. */
  datatype Id = Id(name: string)

  ghost predicate Distinct<T>(s: seq<T>) {
    forall i, j :: 0 <= i < j < |s| ==> s[i] != s[j]
  }

  function Min(a: int, b: int): int {
    if a <= b then a else b
  }

  function Max(a: int, b: int): int {
    if a >= b then a else b
  }

  function MinReal(a: real, b: real): real {
    if a <= b then a else b
  }

  function MaxReal(a: real, b: real): real {
    if a >= b then a else b
  }

  lemma Scales(a: real, b: real, f: real)
    requires a <= b && f >= 0.0
    ensures a * f <= b * f && f * a <= f * b
  {
  }

  lemma EmptyEnds<T>(rest: seq<T>)
    ensures [] + rest == rest
  {
  }

  lemma Associates<T>(a: seq<T>, b: seq<T>, c: seq<T>)
    ensures a + b + c == a + (b + c)
  {
  }

  /** The index of the first occurrence, as Python's list.index. */
  function IndexOf<T(==)>(s: seq<T>, x: T): (i: nat)
    requires x in s
    ensures i < |s| && s[i] == x && x !in s[..i]
  {
    if s[0] == x then 0 else
      assert s == [s[0]] + s[1..];
      1 + IndexOf(s[1..], x)
  }

  /** A sequence longer than the set its elements come from repeats an element. */
  lemma {:induction false} Pigeonhole<T>(s: seq<T>, values: set<T>)
    requires |s| > |values|
    requires forall i :: 0 <= i < |s| ==> s[i] in values
    ensures exists i, j :: 0 <= i < j < |s| && s[i] == s[j]
  {
    var last := |s| - 1;
    if k :| 0 <= k < last && s[k] == s[last] {
    } else {
      Pigeonhole(s[..last], values - {s[last]});
      var i, j :| 0 <= i < j < last && s[..last][i] == s[..last][j];
      assert s[i] == s[j];
    }
  }

  function Elements<T>(s: seq<T>): set<T> {
    set x | x in s
  }

  lemma {:induction false} DistinctSize<T>(s: seq<T>)
    requires Distinct(s)
    ensures |Elements(s)| == |s|
  {
    if s != [] {
      var n := |s| - 1;
      DistinctSize(s[..n]);
      assert s == s[..n] + [s[n]];
      assert s[n] !in s[..n];
      assert Elements(s) == Elements(s[..n]) + {s[n]};
    }
  }
}
