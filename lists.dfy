/** Dropping the empty strings of a list, as the services do before
    placing URLs. */
module Lists {

  /** `[s for s in xs if s]`: the non-empty strings, in their order. */
  function NonEmptyStrings(xs: seq<string>): (r: seq<string>)
    ensures |r| <= |xs|
    ensures forall i :: 0 <= i < |r| ==> r[i] != ""
    ensures forall s :: s in r <==> s in xs && s != ""
  {
    if xs == [] then []
    else (if xs[0] != "" then [xs[0]] else []) + NonEmptyStrings(xs[1..])
  }

  /** Filtering distributes over concatenation, so it keeps the order. */
  lemma {:induction false} NonEmptyStringsConcat(xs: seq<string>, ys: seq<string>)
    ensures NonEmptyStrings(xs + ys) == NonEmptyStrings(xs) + NonEmptyStrings(ys)
  {
    if xs != [] {
      assert (xs + ys)[1..] == xs[1..] + ys;
      NonEmptyStringsConcat(xs[1..], ys);
    } else {
      assert xs + ys == ys;
    }
  }

  /** A list holding an empty string loses at least one entry. */
  lemma {:induction false} NonEmptyStringsDrops(xs: seq<string>, k: nat)
    requires k < |xs| && xs[k] == ""
    ensures |NonEmptyStrings(xs)| < |xs|
  {
    if k > 0 {
      NonEmptyStringsDrops(xs[1..], k - 1);
    }
  }

  /** A list whose strings are all non-empty is kept whole. */
  lemma {:induction false} NonEmptyStringsKeepsFull(xs: seq<string>)
    requires forall i :: 0 <= i < |xs| ==> xs[i] != ""
    ensures NonEmptyStrings(xs) == xs
  {
    if xs != [] {
      NonEmptyStringsKeepsFull(xs[1..]);
    }
  }
}
