/** Queues of waiter ids, each id at most once. */
module Waiters {

  predicate Distinct(ids: seq<nat>) { forall i, j :: 0 <= i < j < |ids| ==> ids[i] != ids[j] }

  /** `retain(|w| w != id)`, and the removal of a list node. */
  function Without(ids: seq<nat>, id: nat): (r: seq<nat>)
    ensures forall x :: x in r ==> x in ids
  {
    if ids == [] then [] else if ids[0] == id then Without(ids[1..], id) else [ids[0]] + Without(ids[1..], id)
  }

  /** The others stay, in their order. */
  lemma {:induction false} WithoutKeeps(ids: seq<nat>, id: nat)
    requires Distinct(ids)
    ensures Distinct(Without(ids, id))
    ensures forall x :: x in Without(ids, id) <==> x in ids && x != id
    ensures id !in ids ==> Without(ids, id) == ids
    ensures id in ids ==> |Without(ids, id)| == |ids| - 1
  {
    if ids != [] {
      WithoutKeeps(ids[1..], id);
      assert ids == [ids[0]] + ids[1..];
      assert ids[0] !in ids[1..];
      var r := Without(ids[1..], id);
      assert ids[0] !in r;
      if ids[0] != id {
        forall i, j | 0 <= i < j < |[ids[0]] + r| ensures ([ids[0]] + r)[i] != ([ids[0]] + r)[j] {
          if i > 0 { assert r[i - 1] != r[j - 1]; } else { assert r[j - 1] in r; }
        }
      }
    }
  }

  lemma AppendDistinct(ids: seq<nat>, id: nat)
    requires Distinct(ids) && id !in ids
    ensures Distinct(ids + [id])
  {
  }

  lemma TailDistinct(ids: seq<nat>)
    requires Distinct(ids) && ids != []
    ensures Distinct(ids[1..]) && ids[0] !in ids[1..]
  {
  }
}
