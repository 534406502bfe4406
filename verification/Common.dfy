/** Small shared vocabulary: optional values, sequences without repetition, clipping at zero. */
module Common {

  datatype Option<+T> = None | Some(value: T)

  ghost predicate Distinct<T>(s: seq<T>) {
    forall i, j :: 0 <= i < j < |s| ==> s[i] != s[j]
  }

  function Max0(x: int): nat { if x < 0 then 0 else x }
}
