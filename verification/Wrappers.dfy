// Optional values and the size of sets, shared by the modules of the project.
module Wrappers {
  datatype Option<+T> = None | Some(value: T)

  lemma {:induction false} SubsetIsSmaller<T>(s: set<T>, t: set<T>)
    requires s <= t
    ensures |s| <= |t|
    decreases s
  {
    if x :| x in s {
      SubsetIsSmaller(s - {x}, t - {x});
    }
  }
}
