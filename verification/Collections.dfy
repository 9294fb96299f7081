/** What several of the modules say about sequences. */
module Collections {
  datatype Option<T> = None | Some(value: T)

  function Elems<T(==)>(s: seq<T>): set<T> { set x | x in s }

  ghost predicate Distinct<T>(s: seq<T>) { forall i, j :: 0 <= i < j < |s| ==> s[i] != s[j] }

  predicate Ascending(s: seq<nat>) { forall i, j :: 0 <= i < j < |s| ==> s[i] < s[j] }

  /** `r` is what stands in `p` at the indexes `at`, in order. */
  ghost predicate Selected<T>(p: seq<T>, r: seq<T>, at: seq<nat>) {
    Ascending(at) && |at| == |r| && forall i :: 0 <= i < |at| ==> at[i] < |p| && r[i] == p[at[i]]
  }

  lemma SelectedMore<T>(p: seq<T>, r: seq<T>, at: seq<nat>, x: T)
    requires Selected(p, r, at)
    ensures Selected(p + [x], r, at) && Selected(p + [x], r + [x], at + [|p|])
    ensures |p| !in at
  {
  }
}
