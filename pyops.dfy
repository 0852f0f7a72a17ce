/** Python built-ins the model relies on, with CPython's semantics on unbounded ints and lists. */
module PyOps {

  datatype Option<T> = None | Some(value: T)

  /** The exceptions the modelled code can raise. */
  datatype Error =
    | IndexError         // list, ModuleList or tensor index out of range
    | KeyError           // dict lookup of a missing key
    | ValueError         // max() of an empty sequence; nn.GroupNorm with indivisible channels
    | ZeroDivisionError  // `//` or `%` by zero
    | ShapeError         // a tensor operation given incompatible channel counts (RuntimeError)
    | EmptyCat           // torch.cat of an empty list (RuntimeError)

  datatype Result<T> = Ok(value: T) | Err(error: Error) {
    /** Lets `:-` propagate an exception, as Python does. */
    predicate IsFailure() { Err? }

    function PropagateFailure<U>(): Result<U>
      requires Err?
    {
      Err(error)
    }

    function Extract(): T
      requires Ok?
    {
      value
    }
  }

  /** Python's `a // b`: division rounding toward minus infinity. */
  function FloorDiv(a: int, b: int): (q: int)
    requires b != 0
    ensures b > 0 ==> b * q <= a < b * q + b
    ensures b < 0 ==> b * q + b < a <= b * q
  {
    if b > 0 then a / b else (-a) / (-b)
  }

  /** Python's `a % b`: the remainder takes the sign of the divisor. */
  function FloorMod(a: int, b: int): (r: int)
    requires b != 0
    ensures a == b * FloorDiv(a, b) + r
    ensures b > 0 ==> 0 <= r < b
    ensures b < 0 ==> b < r <= 0
  {
    a - b * FloorDiv(a, b)
  }

  lemma FloorModSmall(a: int, b: int)
    requires 0 <= a < b
    ensures FloorMod(a, b) == a
  {
  }

  /** Where one bound of a step-1 slice lands in a sequence of length `n`:
    * a negative bound counts from the end, and the result is clamped to [0, n]. */
  function SliceBound(b: Option<int>, dflt: nat, n: nat): (k: nat)
    requires dflt <= n
    ensures k <= n
    ensures b.None? ==> k == dflt
    ensures b.Some? && 0 <= b.value <= n ==> k == b.value
    ensures b.Some? && b.value < 0 <= n + b.value ==> k == n + b.value
    ensures b.Some? && n + b.value < 0 ==> k == 0
    ensures b.Some? && b.value > n ==> k == n
  {
    match b
    case None => dflt
    case Some(i) =>
      if i < 0 then (if i + n < 0 then 0 else i + n)
      else if i > n then n else i
  }

  /** Python's `s[start:stop]` (a missing bound is None). */
  function PySlice<T>(s: seq<T>, start: Option<int>, stop: Option<int>): seq<T>
  {
    var lo, hi := SliceBound(start, 0, |s|), SliceBound(stop, |s|, |s|);
    if lo < hi then s[lo..hi] else []
  }

  /** `s[-k:]` is the last k elements while 0 < k <= |s|; `s[-0:]` is `s[0:]`, all of `s`. */
  lemma SliceTail<T>(s: seq<T>, k: int)
    requires 0 <= k <= |s|
    ensures PySlice(s, Some(-k), None) == if k == 0 then s else s[|s| - k..]
  {
  }

  /** `s[-a:-b]` for 0 < b <= a <= |s| is the block between a and b elements from the end. */
  lemma SliceFromEnd<T>(s: seq<T>, a: int, b: int)
    requires 0 < b <= a <= |s|
    ensures PySlice(s, Some(-a), Some(-b)) == s[|s| - a..|s| - b]
  {
  }

  /** `s[k:]` drops the first k elements while 0 <= k <= |s|. */
  lemma SliceDrop<T>(s: seq<T>, k: int)
    requires 0 <= k <= |s|
    ensures PySlice(s, Some(k), None) == s[k..]
  {
  }

  /** `s[:k]` keeps the first k elements (all of them when k >= |s|). */
  lemma SliceHead<T>(s: seq<T>, k: int)
    requires 0 <= k
    ensures PySlice(s, None, Some(k)) == if k < |s| then s[..k] else s
  {
  }

  /** Normalises a Python list index `i` into a list of length `n` (negative counts from the end). */
  function NormIndex(n: nat, i: int): (r: Result<nat>)
    ensures r.Ok? <==> 0 <= i + n && i < n
    ensures r.Ok? ==> r.value < n && (r.value == i || r.value == i + n)
    ensures r.Err? ==> r.error == IndexError
  {
    if 0 <= i < n then Ok(i)
    else if i < 0 <= i + n then Ok(i + n)
    else Err(IndexError)
  }

  /** Python's `s[i]`. */
  function PyIndex<T>(s: seq<T>, i: int): (r: Result<T>)
    ensures r.Ok? <==> -|s| <= i < |s|
    ensures 0 <= i < |s| ==> r == Ok(s[i])
    ensures -|s| <= i < 0 ==> r == Ok(s[|s| + i])
  {
    match NormIndex(|s|, i)
    case Ok(j) => Ok(s[j])
    case Err(e) => Err(e)
  }

  /** Python's `[s[i] for i in idx]`, failing on the first index out of range. */
  function PyGather<T>(s: seq<T>, idx: seq<int>): (r: Result<seq<T>>)
    ensures r.Ok? <==> forall k :: 0 <= k < |idx| ==> -|s| <= idx[k] < |s|
    ensures r.Ok? ==> |r.value| == |idx|
    ensures r.Ok? ==> forall k :: 0 <= k < |idx| && 0 <= idx[k] ==> r.value[k] == s[idx[k]]
    ensures r.Ok? ==> forall k :: 0 <= k < |idx| && idx[k] < 0 ==> r.value[k] == s[|s| + idx[k]]
    ensures r.Err? ==> r.error == IndexError
    decreases |idx|
  {
    if idx == [] then Ok([])
    else
      match PyIndex(s, idx[0])
      case Err(e) => Err(IndexError)
      case Ok(v) =>
        match PyGather(s, idx[1..])
        case Err(e) => Err(e)
        case Ok(rest) => Ok([v] + rest)
  }

  /** Gathering two in-range positions picks those two elements. */
  lemma GatherPair<T>(s: seq<T>, a: int, b: int)
    requires 0 <= a < |s| && 0 <= b < |s|
    ensures PyGather(s, [a, b]) == Ok([s[a], s[b]])
  {
    var none: seq<int> := [];
    assert PyGather(s, none) == Ok([]);
    assert [b][1..] == none && [s[b]] + [] == [s[b]];
    assert PyGather(s, [b]) == Ok([s[b]]);
    assert [a, b][1..] == [b] && [s[a]] + [s[b]] == [s[a], s[b]];
  }

  /** Python's `xs * k` for a list: k copies of xs, and the empty list when k <= 0. */
  function Repeat<T>(xs: seq<T>, k: int): (r: seq<T>)
    ensures |r| == if k <= 0 then 0 else |xs| * k
    ensures forall i :: 0 <= i < |r| ==> r[i] in xs
    decreases k
  {
    if k <= 0 then [] else xs + Repeat(xs, k - 1)
  }

  /** Python's `list(reversed(s))`. */
  function Reversed<T>(s: seq<T>): (r: seq<T>)
    ensures |r| == |s|
    ensures forall i :: 0 <= i < |s| ==> r[i] == s[|s| - 1 - i]
  {
    if s == [] then [] else Reversed(s[1..]) + [s[0]]
  }

  /** Python's `max(s)`: ValueError on an empty sequence. */
  function PyMax(s: seq<int>): (r: Result<int>)
    ensures r.Ok? <==> |s| > 0
    ensures r.Err? ==> r.error == ValueError
    ensures r.Ok? ==> r.value in s && forall x :: x in s ==> x <= r.value
  {
    if |s| == 0 then Err(ValueError)
    else if |s| == 1 then Ok(s[0])
    else
      var m := PyMax(s[1..]).value;
      assert forall x :: x in s ==> x == s[0] || x in s[1..];
      Ok(if s[0] >= m then s[0] else m)
  }

  /** `dict(zip(keys, range(len(keys))))[v]`: later duplicates of a key overwrite earlier ones,
    * so the lookup yields the LAST position of v; a missing key is a KeyError. */
  function LastIndexOf(keys: seq<int>, v: int): (r: Result<nat>)
    ensures r.Ok? <==> v in keys
    ensures r.Err? ==> r.error == KeyError
    ensures r.Ok? ==> r.value < |keys| && keys[r.value] == v
    ensures r.Ok? ==> forall j :: r.value < j < |keys| ==> keys[j] != v
    decreases |keys|
  {
    if |keys| == 0 then Err(KeyError)
    else if keys[|keys| - 1] == v then Ok(|keys| - 1)
    else
      var r := LastIndexOf(keys[..|keys| - 1], v);
      assert v in keys ==> v in keys[..|keys| - 1] by {
        if v in keys {
          var j :| 0 <= j < |keys| && keys[j] == v;
          assert j < |keys| - 1 && keys[..|keys| - 1][j] == v;
        }
      }
      r
  }
}
