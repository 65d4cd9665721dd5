/** Where one sequence stands in another. */
module Search {
  import opened Wrappers

  predicate OccursAt<T(==)>(s: seq<T>, needle: seq<T>, p: nat) {
    p + |needle| <= |s| && s[p..p + |needle|] == needle
  }

  ghost predicate Has<T>(s: seq<T>, needle: seq<T>) {
    exists p :: OccursAt(s, needle, p)
  }

  ghost predicate FirstAt<T>(s: seq<T>, needle: seq<T>, p: nat) {
    OccursAt(s, needle, p) && forall q: nat :: q < p ==> !OccursAt(s, needle, q)
  }

  /** `find`: the first place the needle stands, from `from` on. */
  function Find<T(==)>(haystack: seq<T>, needle: seq<T>, from: nat): (r: Option<nat>)
    ensures r.Some? ==> from <= r.value && OccursAt(haystack, needle, r.value) && forall q :: from <= q < r.value ==> !OccursAt(haystack, needle, q)
    ensures r.None? ==> forall q :: from <= q ==> !OccursAt(haystack, needle, q)
    decreases |haystack| - from
  {
    if from + |needle| > |haystack| then None
    else if haystack[from..from + |needle|] == needle then Some(from)
    else Find(haystack, needle, from + 1)
  }

  lemma OccursInData<T>(sent: seq<T>, data: seq<T>, needle: seq<T>, q: nat)
    requires q >= |sent|
    ensures OccursAt(sent + data, needle, q) <==> OccursAt(data, needle, q - |sent|)
  {
    if q + |needle| <= |sent + data| {
      assert (sent + data)[q..q + |needle|] == data[q - |sent|..q - |sent| + |needle|];
    }
  }
}
