/**
 * The parts of Python's semantics that the scene objects rely on: the
 * errors an attribute lookup or an index can raise, indexing with
 * negative positions, and slicing with clamped, possibly negative bounds.
 */
module Python {

  datatype Option<+T> = None | Some(value: T)

  /** The exceptions the modelled code can raise. */
  datatype PyError = IndexError | AttributeError | ImportError

  datatype Result<+T> = Ok(value: T) | Err(error: PyError) {
    predicate IsFailure() { Err? }
    function PropagateFailure<U>(): Result<U>
      requires Err?
    {
      Err(error)
    }
    function Extract(): T
      requires Ok?
    {
      value
    }
  }

  /** The value of `s[i]`: negative positions count from the end, and
      anything outside `-|s| <= i < |s|` raises IndexError. */
  function At<T>(s: seq<T>, i: int): (r: Result<T>)
    ensures r.Ok? <==> -|s| <= i < |s|
    ensures 0 <= i < |s| ==> r == Ok(s[i])
    ensures -|s| <= i < 0 ==> r == Ok(s[|s| + i])
  {
    if 0 <= i < |s| then Ok(s[i])
    else if -|s| <= i < 0 then Ok(s[|s| + i])
    else Err(IndexError)
  }

  /** Where a slice bound `b` lands in a sequence of length n: a negative
      bound counts from the end, and the result is clamped to `0..n`. */
  function Bound(n: nat, b: int): (r: nat)
    ensures r <= n
    ensures 0 <= b <= n ==> r == b
    ensures 0 <= n + b && b < 0 ==> r == n + b
    ensures n + b < 0 ==> r == 0
    ensures n < b ==> r == n
  {
    if b < 0 then (if b + n < 0 then 0 else b + n)
    else if n < b then n
    else b
  }

  /** The value of `s[lo:hi]`; a missing bound is `None`. Slicing never
      raises. */
  function Slice<T>(s: seq<T>, lo: Option<int>, hi: Option<int>): seq<T>
  {
    var a := if lo.Some? then Bound(|s|, lo.value) else 0;
    var b := if hi.Some? then Bound(|s|, hi.value) else |s|;
    if a < b then s[a..b] else []
  }

  /** `s[:k] + s[k:] == s` for every integer k, negative or out of range. */
  lemma SliceSplit<T>(s: seq<T>, k: int)
    ensures Slice(s, None, Some(k)) + Slice(s, Some(k), None) == s
  {
    var b := Bound(|s|, k);
    assert Slice(s, None, Some(k)) == s[..b];
    assert Slice(s, Some(k), None) == s[b..];
  }

  /** A slice is a contiguous run of the sequence: every element of
      `s[lo:hi]` is an element of s, and the slice is never longer. */
  lemma SliceWithin<T>(s: seq<T>, lo: Option<int>, hi: Option<int>)
    ensures |Slice(s, lo, hi)| <= |s|
    ensures forall x :: x in Slice(s, lo, hi) ==> x in s
  {
    var a := if lo.Some? then Bound(|s|, lo.value) else 0;
    var b := if hi.Some? then Bound(|s|, hi.value) else |s|;
    if a < b {
      forall x | x in s[a..b] ensures x in s {
        var j :| a <= j < b && s[j] == x;
      }
    }
  }

  /** For a non-empty sequence, everything but the last element followed
      by the last element (`s[:-1] + [s[-1]]`) is the whole sequence. */
  lemma AllButLast<T>(s: seq<T>)
    requires |s| > 0
    ensures At(s, -1) == Ok(s[|s| - 1])
    ensures Slice(s, None, Some(-1)) + [At(s, -1).value] == s
  {
    assert Slice(s, None, Some(-1)) == s[..|s| - 1];
  }

  /** Concatenation regroups. Called where an inline regrouping would send
      the solver through sequence extensionality in a large context. */
  lemma ConcatAssoc<T>(a: seq<T>, b: seq<T>, c: seq<T>)
    ensures (a + b) + c == a + (b + c)
  {
  }
}
