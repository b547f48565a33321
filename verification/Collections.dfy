/** Small things the other modules share. */
module Collections {

  datatype Option<+T> = None | Some(value: T)

  /** The numbers from 0 up to but not including `n`. */
  function Below(n: nat): (s: set<int>)
    ensures |s| == n && forall i :: i in s <==> 0 <= i < n
  {
    if n == 0 then {} else Below(n - 1) + {n - 1}
  }

  /** Any element of a set, as ranging over a map gives it. */
  method Pick<T(!new, ==)>(s: set<T>) returns (x: T)
    requires s != {}
    ensures x in s
  {
    EmptyOrNot(s);
    x :| x in s;
  }

  lemma EmptyOrNot<T(!new)>(s: set<T>)
    ensures s == {} || exists x :: x in s
  {
    if forall x :: x !in s {
      assert s == {};
    }
  }
}
