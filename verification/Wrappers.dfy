/** What several modules share. */
module Wrappers {
  datatype Option<+T> = None | Some(value: T)

  lemma NotEmpty(s: set<int>)
    requires s != {}
    ensures exists x :: x in s
  {
    if forall x :: x !in s {
      assert false;
    }
  }
}
