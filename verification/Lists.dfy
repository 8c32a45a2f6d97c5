/** Unlinking from a list. */
module Lists {

  /** The list without the first `x`. */
  function Without(list: seq<nat>, x: nat): seq<nat> {
    if list == [] then []
    else if list[0] == x then list[1..]
    else [list[0]] + Without(list[1..], x)
  }

  lemma {:induction false} WithoutOne(list: seq<nat>, x: nat)
    requires x in list
    ensures multiset(Without(list, x)) == multiset(list) - multiset{x}
  {
    assert list == [list[0]] + list[1..];
    if list[0] != x {
      WithoutOne(list[1..], x);
    }
  }
}
