/** Sequence vocabulary shared by the pipeline: the optional frequency entry,
    the iterator adaptors the source chains (`rev`, `take`, `filter`/`unwrap`)
    and the front-eviction loop every bounded container runs after a push. */
module Collections {

  /** A raw or postprocessed frequency entry: a pitch in Hz, or no pitch. */
  datatype Option<T> = None | Some(value: T)

  /** `iter().rev()`: the elements newest first. */
  function Reverse<T>(s: seq<T>): (r: seq<T>)
    ensures |r| == |s|
  {
    if |s| == 0 then [] else [s[|s| - 1]] + Reverse(s[..|s| - 1])
  }

  /** Position `i` of the reversed sequence holds position `|s| - 1 - i` of `s`. */
  lemma {:induction false} ReverseAt<T>(s: seq<T>, i: nat)
    requires i < |s|
    ensures Reverse(s)[i] == s[|s| - 1 - i]
  {
    if i > 0 {
      ReverseAt(s[..|s| - 1], i - 1);
    }
  }

  /** Every position of the reversal at once. */
  lemma ReverseAll<T>(s: seq<T>)
    ensures forall i :: 0 <= i < |s| ==> Reverse(s)[i] == s[|s| - 1 - i]
  {
    forall i | 0 <= i < |s|
      ensures Reverse(s)[i] == s[|s| - 1 - i]
    {
      ReverseAt(s, i);
    }
  }

  /** `take(n)`: at most the first `n` elements. */
  function Take<T>(s: seq<T>, n: nat): (r: seq<T>)
    ensures |r| == if |s| <= n then |s| else n
    ensures r == s[..|r|]
  {
    if |s| <= n then s else s[..n]
  }

  /** `rev().take(n).rev()`: the tail snapshot the pitch estimator collects. */
  function RevTakeRev<T>(s: seq<T>, n: nat): (r: seq<T>)
    ensures |r| == if |s| <= n then |s| else n
  {
    Reverse(Take(Reverse(s), n))
  }

  /** When `n` samples are buffered, the snapshot is exactly the last `n`
      of them, in arrival order. */
  lemma {:induction false} RevTakeRevIsTail<T>(s: seq<T>, n: nat)
    requires n <= |s|
    ensures RevTakeRev(s, n) == s[|s| - n..]
  {
    var t := Take(Reverse(s), n);
    assert |t| == n;
    forall j | 0 <= j < n
      ensures RevTakeRev(s, n)[j] == s[|s| - n + j]
    {
      ReverseAt(t, j);
      ReverseAt(s, n - 1 - j);
    }
  }

  /** The `while len > cap { pop_front() }` loop: drop the oldest element
      until at most `cap` remain. The result is the newest `min(cap, |s|)`
      elements, still in arrival order. */
  function Trim<T>(s: seq<T>, cap: nat): (r: seq<T>)
    ensures |r| == if |s| <= cap then |s| else cap
    ensures r == s[|s| - |r|..]
    decreases |s|
  {
    if |s| <= cap then s else Trim(s[1..], cap)
  }

  /** A push onto a full container evicts exactly its oldest element. */
  lemma TrimAfterPush<T>(s: seq<T>, x: T, cap: nat)
    requires 0 < |s| == cap
    ensures Trim(s + [x], cap) == s[1..] + [x]
  {
    assert (s + [x])[1..] == s[1..] + [x];
  }

  /** `filter(|a| a.is_some()).map(|a| a.unwrap())`: the present values, in
      the order visited. */
  function Present<T>(s: seq<Option<T>>): (r: seq<T>)
    ensures |r| <= |s|
    ensures forall x :: x in r ==> Some(x) in s
    ensures (forall e :: e in s ==> e.Some?) ==> |r| == |s|
    ensures (forall e :: e in s ==> e.None?) ==> r == []
  {
    if |s| == 0 then []
    else if s[0].Some? then [s[0].value] + Present(s[1..])
    else Present(s[1..])
  }

  /** When every entry is present, all values come out, in order. */
  lemma {:induction false} PresentAllSome<T>(s: seq<Option<T>>)
    requires forall e :: e in s ==> e.Some?
    ensures |Present(s)| == |s|
    ensures forall i :: 0 <= i < |s| ==> Present(s)[i] == s[i].value
  {
    if |s| > 0 {
      PresentAllSome(s[1..]);
    }
  }

  /** Filtering distributes over concatenation: the present values of `a + b`
      are those of `a` followed by those of `b`. With `Present([Some(x)]) ==
      [x]` and `Present([None]) == []` this fixes both the order of the
      values and their number, the count of present entries. */
  lemma {:induction false} PresentConcat<T>(a: seq<Option<T>>, b: seq<Option<T>>)
    ensures Present(a + b) == Present(a) + Present(b)
  {
    if |a| > 0 {
      var ab := a + b;
      assert ab[0] == a[0];
      assert ab[1..] == a[1..] + b;
      PresentConcat(a[1..], b);
      if a[0].Some? {
        calc {
          Present(ab);
          [a[0].value] + Present(a[1..] + b);
          [a[0].value] + (Present(a[1..]) + Present(b));
          ([a[0].value] + Present(a[1..])) + Present(b);
        }
      } else {
        assert Present(ab) == Present(a[1..] + b);
      }
    } else {
      assert a + b == b;
    }
  }
}
