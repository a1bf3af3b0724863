/** Python's list.pop(i) on a list held as a sequence. */
module PyList {
  import opened Wrappers

  /** The position `list.pop(i)` removes: a negative index counts from the end. */
  function PopIndex(n: nat, i: int): int {
    if i < 0 then i + n else i
  }

  /** `xs.pop(i)`: the removed element and the list that remains, or
      IndexError when the list is empty or `i` is out of range. */
  function Pop<T>(xs: seq<T>, i: int): (r: Result<(T, seq<T>)>)
    ensures r.Ok? <==> -|xs| <= i < |xs|
    ensures r.Err? ==> r.error == IndexError
    ensures r.Ok? ==> |r.value.1| == |xs| - 1
    ensures r.Ok? ==> 0 <= PopIndex(|xs|, i) < |xs| && r.value.0 == xs[PopIndex(|xs|, i)]
    ensures r.Ok? && PopIndex(|xs|, i) == 0 ==> r.value.1 == xs[1..]
    ensures r.Ok? && PopIndex(|xs|, i) == |xs| - 1 ==> r.value.1 == xs[..|xs| - 1]
  {
    var j := PopIndex(|xs|, i);
    if 0 <= j < |xs| then
      assert xs[..0] + xs[1..] == xs[1..];
      assert xs[..|xs| - 1] + xs[|xs|..] == xs[..|xs| - 1];
      Ok((xs[j], xs[..j] + xs[j + 1..]))
    else Err(IndexError)
  }

  /** Putting the removed element back where it was gives the list again. */
  lemma PopShape<T>(xs: seq<T>, i: int)
    requires Pop(xs, i).Ok?
    ensures var (x, rest) := Pop(xs, i).value; var j := PopIndex(|xs|, i);
      xs == rest[..j] + [x] + rest[j..]
  {
    var j := PopIndex(|xs|, i);
    var rest := Pop(xs, i).value.1;
    assert rest[..j] == xs[..j] && rest[j..] == xs[j + 1..];
  }

  /** `xs[i]` for a non-negative index: IndexError past the end. */
  function At<T>(xs: seq<T>, i: nat): (r: Result<T>)
    ensures r.Ok? <==> i < |xs|
    ensures r.Ok? ==> r.value == xs[i]
    ensures r.Err? ==> r.error == IndexError
  {
    if i < |xs| then Ok(xs[i]) else Err(IndexError)
  }
}
