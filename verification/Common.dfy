/** Small vocabulary shared by the other modules. */
module Common {

  datatype Option<+T> = None | Some(value: T)

  /** A subset is never larger than the set it is drawn from. */
  lemma SubsetCard<T>(a: set<T>, b: set<T>)
    requires a <= b
    ensures |a| <= |b|
  {
    if a != {} {
      var x :| x in a;
      SubsetCard(a - {x}, b - {x});
    }
  }
}
