/** Small helpers shared by the model: failure-compatible wrappers and
    Python's list indexing, which accepts negative positions. */
module Common {

  datatype Option<+T> = None | Some(value: T) {
    function GetOr(default: T): T {
      match this
      case Some(v) => v
      case None => default
    }
  }

  /** A computation that either produces a value or stops with the error
      that the Python code would raise at that point. */
  datatype Result<+T, +E> = Ok(value: T) | Err(error: E) {
    predicate IsFailure() { Err? }

    function PropagateFailure<U>(): Result<U, E>
      requires Err?
    {
      Err(error)
    }

    function Extract(): T
      requires Ok?
    {
      value
    }
  }

  /** The position that Python's `xs[k]` reads in a list of length `len`:
      `k` itself when it is in range, `len + k` for a negative `k` down to
      `-len`, and nothing (an IndexError) otherwise. */
  function PyIndex(len: nat, k: int): (r: Option<nat>)
    ensures r.Some? <==> -(len as int) <= k < len
    ensures r.Some? ==> r.value < len
    ensures r.Some? && k >= 0 ==> r.value == k
    ensures r.Some? && k < 0 ==> r.value == len + k
  {
    if 0 <= k < len then Some(k)
    else if -(len as int) <= k < 0 then Some(len + k)
    else None
  }

  function Sum(xs: seq<int>): (r: int)
    ensures (forall i :: 0 <= i < |xs| ==> xs[i] >= 0) ==> r >= 0
  {
    if xs == [] then 0 else xs[0] + Sum(xs[1..])
  }

  function Last<T>(xs: seq<T>): T
    requires xs != []
  {
    xs[|xs| - 1]
  }

  /** A prefix of a prefix is a prefix. */
  lemma SliceOfSlice<T>(a: seq<T>, c: seq<T>, b: seq<T>, k: nat, m: nat)
    requires k <= m <= |b|
    requires c == b[..m] && a == c[..k]
    ensures a == b[..k]
  {
  }

  /** Concatenation of a list of lists, in order. */
  function Concat<T>(xss: seq<seq<T>>): seq<T> {
    if xss == [] then [] else xss[0] + Concat(xss[1..])
  }

  /** When every inner list has length `width`, element `j` of inner list
      `i` sits at position `i * width + j` of the concatenation. */
  lemma {:induction false} ConcatAt<T>(xss: seq<seq<T>>, width: nat, i: nat, j: nat)
    requires forall m :: 0 <= m < |xss| ==> |xss[m]| == width
    requires i < |xss| && j < width
    ensures |Concat(xss)| == |xss| * width
    ensures i * width + j < |Concat(xss)|
    ensures Concat(xss)[i * width + j] == xss[i][j]
  {
    ConcatLength(xss, width);
    MulSucc(i, width);
    MulMono(i + 1, |xss|, width);
    if i > 0 {
      ConcatAt(xss[1..], width, i - 1, j);
      MulSucc(i - 1, width);
      var p := (i - 1) * width + j;
      assert Concat(xss)[width + p] == Concat(xss[1..])[p];
    }
  }

  /** `(n + 1) * w == n * w + w`. */
  lemma MulSucc(n: nat, w: nat)
    ensures (n + 1) * w == n * w + w
  {
  }

  /** Multiplication by a natural number is monotonic. */
  lemma MulMono(x: nat, y: nat, z: nat)
    ensures x <= y ==> x * z <= y * z
  {
    if x <= y {
      assert y * z == x * z + (y - x) * z;
    }
  }

  lemma {:induction false} ConcatLength<T>(xss: seq<seq<T>>, width: nat)
    requires forall m :: 0 <= m < |xss| ==> |xss[m]| == width
    ensures |Concat(xss)| == |xss| * width
  {
    if xss != [] {
      ConcatLength(xss[1..], width);
      MulSucc(|xss| - 1, width);
    }
  }

  /** The length of each inner list. */
  function Lengths<T>(xss: seq<seq<T>>): seq<int> {
    seq(|xss|, i requires 0 <= i < |xss| => |xss[i]|)
  }

  /** Concatenation adds up the lengths. */
  lemma {:induction false} ConcatSum<T>(xss: seq<seq<T>>)
    ensures |Concat(xss)| == Sum(Lengths(xss))
  {
    if xss != [] {
      ConcatSum(xss[1..]);
      assert Lengths(xss)[1..] == Lengths(xss[1..]);
    }
  }

  /** Element `j` of inner list `h` sits after all elements of the lists
      before it. */
  lemma {:induction false} ConcatIndex<T>(xss: seq<seq<T>>, h: nat, j: nat)
    requires h < |xss| && j < |xss[h]|
    ensures Sum(Lengths(xss)[..h]) + j < |Concat(xss)|
    ensures Concat(xss)[Sum(Lengths(xss)[..h]) + j] == xss[h][j]
  {
    if h > 0 {
      ConcatIndex(xss[1..], h - 1, j);
      assert Lengths(xss)[..h][1..] == Lengths(xss[1..])[..h - 1];
      var p := Sum(Lengths(xss[1..])[..h - 1]) + j;
      assert Concat(xss)[|xss[0]| + p] == Concat(xss[1..])[p];
    }
  }

  /** A property of every element of every inner list holds of every
      element of the concatenation. */
  lemma {:induction false} ConcatEvery<T>(xss: seq<seq<T>>, P: T -> bool)
    requires forall h, j :: 0 <= h < |xss| && 0 <= j < |xss[h]| ==> P(xss[h][j])
    ensures forall i :: 0 <= i < |Concat(xss)| ==> P(Concat(xss)[i])
  {
    if xss != [] {
      ConcatEvery(xss[1..], P);
      assert forall h, j :: 0 <= h < |xss| - 1 && 0 <= j < |xss[1..][h]| ==> xss[1..][h][j] == xss[h + 1][j];
    }
  }
}
