/** Definitions shared by the models. */
module Common {

  datatype Option<+T> = None | Some(value: T)

  /** The number of shards the controller hands out. */
  const NSHARDS := 10

  ghost predicate Distinct<T>(s: seq<T>) {
    forall i, j :: 0 <= i < j < |s| ==> s[i] != s[j]
  }

  ghost predicate Ascending(s: seq<int>) {
    forall i, j :: 0 <= i < j < |s| ==> s[i] < s[j]
  }
}
