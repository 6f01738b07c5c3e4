/**
 * Building a Python dict from (key, value) pairs in order, as `dict(pairs)`
 * or a loop of `d[k] = v` does: a repeated key keeps its last value.
 */
module Assoc {

  /** The dict that writing the pairs of `ps` one after another leaves. */
  function LastWins<K, V>(ps: seq<(K, V)>): map<K, V> {
    if ps == [] then map[]
    else LastWins(ps[..|ps| - 1])[ps[|ps| - 1].0 := ps[|ps| - 1].1]
  }

  /**
   * The keys are those of the pairs, and each maps to the value of a pair
   * after which that key never occurs again.
   */
  lemma {:induction false} LastWinsMeaning<K, V>(ps: seq<(K, V)>)
    ensures forall k :: k in LastWins(ps) <==> exists i :: 0 <= i < |ps| && ps[i].0 == k
    ensures forall k :: k in LastWins(ps) ==>
      exists i :: (0 <= i < |ps| && ps[i] == (k, LastWins(ps)[k])
        && forall j :: i < j < |ps| ==> ps[j].0 != k)
  {
    if ps != [] {
      var init := ps[..|ps| - 1];
      var last := ps[|ps| - 1];
      LastWinsMeaning(init);
      assert forall i :: 0 <= i < |init| ==> init[i] == ps[i];
      forall k | k in LastWins(ps)
        ensures exists i :: (0 <= i < |ps| && ps[i] == (k, LastWins(ps)[k])
          && forall j :: i < j < |ps| ==> ps[j].0 != k)
      {
        if k == last.0 {
          assert ps[|ps| - 1] == (k, LastWins(ps)[k]);
        } else {
          var i :| 0 <= i < |init| && init[i] == (k, LastWins(init)[k])
            && forall j :: i < j < |init| ==> init[j].0 != k;
          assert ps[i] == (k, LastWins(ps)[k]);
        }
      }
    }
  }

  /** The value kept for a key is the one at its last occurrence. */
  lemma LastWinsAt<K, V>(ps: seq<(K, V)>, i: nat)
    requires i < |ps|
    requires forall j :: i < j < |ps| ==> ps[j].0 != ps[i].0
    ensures ps[i].0 in LastWins(ps) && LastWins(ps)[ps[i].0] == ps[i].1
  {
    LastWinsMeaning(ps);
    var k := ps[i].0;
    var i' :| 0 <= i' < |ps| && ps[i'] == (k, LastWins(ps)[k]) && forall j :: i' < j < |ps| ==> ps[j].0 != k;
    assert i' == i;
  }
}
