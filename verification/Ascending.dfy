/** Sets of numbers listed in ascending order, as the ordered collections iterate. */
module Ascending {

  predicate Rises(s: seq<nat>) {
    forall i, j :: 0 <= i < j < |s| ==> s[i] < s[j]
  }

  predicate IsLeast(x: nat, s: set<nat>) {
    x in s && forall y <- s :: x <= y
  }

  lemma {:induction false} LeastExists(s: set<nat>)
    requires s != {}
    ensures exists x :: IsLeast(x, s)
    decreases s
  {
    var some :| some in s;
    var rest := s - {some};
    assert forall y <- s :: y == some || y in rest;
    if rest == {} {
      assert IsLeast(some, s);
    } else {
      LeastExists(rest);
      var x :| IsLeast(x, rest);
      assert IsLeast(some, s) || IsLeast(x, s);
    }
  }

  function Least(s: set<nat>): (x: nat)
    requires s != {}
    ensures IsLeast(x, s)
  {
    LeastExists(s);
    var x :| IsLeast(x, s);
    x
  }

  function Listed(s: set<nat>): (r: seq<nat>)
    ensures Rises(r) && |r| == |s|
    ensures forall x :: x in r <==> x in s
  {
    if s == {} then [] else [Least(s)] + Listed(s - {Least(s)})
  }
}
