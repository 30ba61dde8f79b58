/** Optional values and results with an error side, used wherever the
    Python code returns None or raises. */
module Wrappers {

  datatype Option<+T> = None | Some(value: T)

  datatype Result<+T, +E> = Ok(value: T) | Err(error: E)

  /** A one-element list when `present` holds, the empty list otherwise: the
      shape of an `if cond: out.append(x)` step. */
  function Optional<T>(present: bool, x: T): (r: seq<T>)
    ensures present ==> r == [x]
    ensures !present ==> r == []
  {
    if present then [x] else []
  }

  /** What an Optional list holds, as one fact about every candidate. */
  lemma InOptional<T>(present: bool, x: T)
    ensures forall y :: y in Optional(present, x) <==> present && y == x
  {
  }

  /** A sequence with no member is empty. */
  lemma EmptyWithoutMembers<T>(s: seq<T>)
    ensures (forall x :: x !in s) ==> s == []
  {
    if s != [] {
      assert s[0] in s;
    }
  }

  /** Regrouping a chain of two appended parts. */
  lemma AppendTwo<T>(a: seq<T>, b: seq<T>, c: seq<T>)
    ensures a + b + c == a + (b + c)
  {
  }

  /** Regrouping a chain of three appended parts. */
  lemma AppendThree<T>(a: seq<T>, b: seq<T>, c: seq<T>, d: seq<T>)
    ensures a + b + c + d == a + (b + c + d)
  {
  }

  /** Regrouping a chain of four appended parts. */
  lemma AppendFour<T>(a: seq<T>, b: seq<T>, c: seq<T>, d: seq<T>, e: seq<T>)
    ensures a + b + c + d + e == a + (b + c + d + e)
  {
  }

  /** Five parts put together are empty iff each part is. */
  lemma EmptyFive<T>(a: seq<T>, b: seq<T>, c: seq<T>, d: seq<T>, e: seq<T>)
    ensures a + b + c + d + e == [] <==> a == [] && b == [] && c == [] && d == [] && e == []
  {
    assert |a + b + c + d + e| == |a| + |b| + |c| + |d| + |e|;
  }

  /** Python's `s[:n]`. */
  function FirstN<T>(s: seq<T>, n: nat): (r: seq<T>)
    ensures |r| <= n && |r| <= |s|
    ensures r == s[..|r|]
    ensures |r| == n || r == s
  {
    if |s| <= n then s else s[..n]
  }
}
