/** Heights of a chain that may start new revisions (modules/core/02-client/types/height.go). */
module Heights {

  datatype Height = Height(revisionNumber: nat, revisionHeight: nat)
  {
    function Compare(other: Height): int {
      var (a, b) := if revisionNumber != other.revisionNumber then (revisionNumber, other.revisionNumber)
                    else (revisionHeight, other.revisionHeight);
      if a < b then -1 else if a == b then 0 else 1
    }

    predicate LT(other: Height) { Compare(other) == -1 }

    predicate GTE(other: Height) { Compare(other) >= 0 }

    predicate IsZero() { revisionNumber == 0 && revisionHeight == 0 }
  }

  /** A later revision comes after everything of an earlier one; within a revision blocks count. */
  predicate Earlier(a: Height, b: Height) {
    a.revisionNumber < b.revisionNumber || (a.revisionNumber == b.revisionNumber && a.revisionHeight < b.revisionHeight)
  }

  /** The comparisons are that order, its reverse and its negation, and the zero height is its least
      element. */
  lemma OrderIsLexicographic(a: Height, b: Height)
    ensures a.LT(b) <==> Earlier(a, b)
    ensures a.GTE(b) <==> !Earlier(a, b)
    ensures a.Compare(b) == 0 <==> a == b
    ensures a.IsZero() <==> a == Height(0, 0)
    ensures a.IsZero() <==> forall c :: !Earlier(c, a)
  {
    if !a.IsZero() {
      assert Earlier(Height(0, 0), a);
    }
  }
}
