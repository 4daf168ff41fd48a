/** Sequences without repetition, and sets listed as such sequences. */
module Collections {

  ghost predicate NoRepeats<T(!new)>(items: seq<T>) {
    forall i, j :: 0 <= i < j < |items| ==> items[i] != items[j]
  }

  /** The members of a set, each once. */
  lemma ListOf<T(!new)>(members: set<T>) returns (items: seq<T>)
    ensures NoRepeats(items) && forall x :: x in items <==> x in members
    decreases members
  {
    if members == {} {
      items := [];
    } else {
      var x :| x in members;
      items := ListOf(members - {x});
      items := items + [x];
    }
  }
}
