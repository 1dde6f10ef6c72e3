/** The conventional optional value and what is known of the size of sets, shared by every model in the
    project. */
module Options {
  datatype Option<+T> = None | Some(value: T) {
    function GetOr(default: T): T {
      match this
      case Some(v) => v
      case None => default
    }
  }

  lemma SubsetCount<T>(a: set<T>, b: set<T>)
    requires a <= b
    ensures |a| <= |b|
  {
    assert b == a + (b - a);
  }

  /** A number beyond all of them: an id that is not in use. */
  ghost function OneBeyond(ids: set<nat>): (n: nat)
    ensures forall x | x in ids :: x < n
  {
    if ids == {} then 0
    else
      var x :| x in ids;
      var m := OneBeyond(ids - {x});
      assert ids == (ids - {x}) + {x};
      if m <= x then x + 1 else m
  }
}
