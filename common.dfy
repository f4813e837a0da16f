/** Small shared vocabulary: optional values, outcomes, and the two list
    operations the pages apply to their local lists. */
module Common {

  /** Both pages search the directory only from three typed characters on,
      show at most five matches, and go to the dashboard after a success. */
  const MinQueryLength: nat := 3
  const SearchLimit: nat := 5
  const DashboardRoute := "/dashboard"

  datatype Option<+T> = None | Some(value: T)

  datatype Result<+T, +E> = Ok(value: T) | Err(error: E)

  /** `xs.filter((_, i) => i !== index)`: the list without position `index`.
      An index outside the list removes nothing. */
  function RemoveAt<T>(xs: seq<T>, index: int): (r: seq<T>)
    ensures 0 <= index < |xs| ==> |r| == |xs| - 1
    ensures 0 <= index < |xs| ==> forall k :: 0 <= k < index ==> r[k] == xs[k]
    ensures 0 <= index < |xs| ==> forall k :: index <= k < |r| ==> r[k] == xs[k + 1]
    ensures !(0 <= index < |xs|) ==> r == xs
  {
    if 0 <= index < |xs| then xs[..index] + xs[index + 1..] else xs
  }

  /** Reference definition of the same filter, walking the list element by
      element and keeping every element whose position is not `index`. */
  function KeepOthers<T>(xs: seq<T>, index: int): seq<T>
    decreases |xs|
  {
    if xs == [] then []
    else (if index == 0 then [] else [xs[0]]) + KeepOthers(xs[1..], index - 1)
  }

  lemma {:induction false} SpliceIsFilter<T>(xs: seq<T>, index: nat)
    requires index < |xs|
    ensures xs[..index] + xs[index + 1..] == KeepOthers(xs, index)
    decreases |xs|
  {
    var rest := xs[1..];
    if index == 0 {
      KeepNothingOut(rest, -1);
      assert xs[..0] + xs[1..] == rest;
    } else {
      SpliceIsFilter(rest, index - 1);
      var front, back := rest[..index - 1], rest[index..];
      assert xs[..index] == [xs[0]] + front;
      assert xs[index + 1..] == back;
      assert KeepOthers(xs, index) == [xs[0]] + (front + back);
      assert ([xs[0]] + front) + back == [xs[0]] + (front + back);
    }
  }

  lemma {:induction false} KeepNothingOut<T>(xs: seq<T>, index: int)
    requires !(0 <= index < |xs|)
    ensures KeepOthers(xs, index) == xs
    decreases |xs|
  {
    if xs != [] {
      KeepNothingOut(xs[1..], index - 1);
      assert xs == [xs[0]] + xs[1..];
    }
  }

  lemma RemoveAtIsFilter<T>(xs: seq<T>, index: int)
    ensures RemoveAt(xs, index) == KeepOthers(xs, index)
  {
    if 0 <= index < |xs| {
      SpliceIsFilter(xs, index);
    } else {
      KeepNothingOut(xs, index);
    }
  }

  /** The rows a `.limit(n)` query lets through: the first `n` matches. */
  function Limit<T>(xs: seq<T>, n: nat): (r: seq<T>)
    ensures |r| <= n && |r| <= |xs|
    ensures r == xs[..|r|]
    ensures |xs| <= n ==> r == xs
    ensures n <= |xs| ==> |r| == n
  {
    if |xs| <= n then xs else xs[..n]
  }
}
