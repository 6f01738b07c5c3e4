/**
 * `TripletsPreprocessor.__call__` of
 * deeppavlov/models/graph2text/triplets_preprocessor.py: every set of
 * (from, relation, to) triplets becomes a jointGT-like record with its
 * position as `id`, a knowledge base `kbs` keyed "E0", "E1", ... and a text.
 */
module TripletsPreprocessor {
  import opened Wrappers
  import opened Text
  import opened Json

  /** Why a batch is rejected; each names the triplet set where it happens. */
  datatype TripletError =
    | ValueError(setId: nat)  // a triplet of the set does not unpack into three values
    | IndexError(setId: nat)  // `true_texts` has no text for the set

  /** Every triplet of the set has exactly three elements. */
  predicate AllTriples(ts: seq<seq<string>>) {
    forall k :: 0 <= k < |ts| ==> |ts[k]| == 3
  }

  /** `"E" + str(i)`. */
  function EntityId(i: nat): string {
    "E" + NatToString(i)
  }

  /** Different triplets get different keys. */
  lemma EntityIdInjective(i: nat, j: nat)
    requires EntityId(i) == EntityId(j)
    ensures i == j
  {
    assert EntityId(i)[1..] == NatToString(i);
    assert EntityId(j)[1..] == NatToString(j);
    IntToStringInjective(i, j);
  }

  /** The knowledge-base entry `[to, to, [[relation, from]]]` of a triplet. */
  function Entry(t: seq<string>): Json
    requires |t| == 3
  {
    JList([JStr(t[2]), JStr(t[2]), JList([JList([JStr(t[1]), JStr(t[0])])])])
  }

  /** The `kbs` dict the inner loop builds. */
  function Kbs(ts: seq<seq<string>>): map<string, Json>
    requires AllTriples(ts)
  {
    if ts == [] then map[]
    else
      var init := ts[..|ts| - 1];
      assert forall k :: 0 <= k < |init| ==> init[k] == ts[k];
      Kbs(init)[EntityId(|ts| - 1) := Entry(ts[|ts| - 1])]
  }

  /** `kbs` has one key per triplet: "E" followed by its position. */
  lemma {:induction false} KbsKeys(ts: seq<seq<string>>)
    requires AllTriples(ts)
    ensures forall key :: key in Kbs(ts) <==> exists i :: 0 <= i < |ts| && EntityId(i) == key
  {
    if ts != [] {
      var n := |ts| - 1;
      var init := ts[..n];
      assert forall k :: 0 <= k < |init| ==> init[k] == ts[k];
      KbsKeys(init);
    }
  }

  /** The key of a triplet holds that triplet's entry. */
  lemma {:induction false} KbsAt(ts: seq<seq<string>>, i: nat)
    requires AllTriples(ts) && i < |ts|
    ensures EntityId(i) in Kbs(ts) && Kbs(ts)[EntityId(i)] == Entry(ts[i])
  {
    var n := |ts| - 1;
    if i < n {
      var init := ts[..n];
      assert forall k :: 0 <= k < |init| ==> init[k] == ts[k];
      KbsAt(init, i);
      if EntityId(i) == EntityId(n) {
        EntityIdInjective(i, n);
      }
    }
  }

  /** The record of set `i` with its text, or why it cannot be built. */
  function SetRecord(i: nat, ts: seq<seq<string>>, trueTexts: Option<seq<string>>): Result<Json, TripletError> {
    if !AllTriples(ts) then Failure(ValueError(i))
    else if trueTexts.Some? && i >= |trueTexts.value| then Failure(IndexError(i))
    else
      var text := if trueTexts.None? then "dummy text." else trueTexts.value[i];
      Success(JObject(map["id" := JInt(i), "kbs" := JObject(Kbs(ts)), "text" := JStr(text)]))
  }

  /** The whole batch: the records in order, or the error of the first set that fails. */
  function Preprocessed(triplets: seq<seq<seq<string>>>, trueTexts: Option<seq<string>>): Result<seq<Json>, TripletError> {
    if triplets == [] then Success([])
    else
      var n := |triplets| - 1;
      match Preprocessed(triplets[..n], trueTexts)
      case Failure(e) => Failure(e)
      case Success(rs) =>
        match SetRecord(n, triplets[n], trueTexts)
        case Failure(e) => Failure(e)
        case Success(j) => Success(rs + [j])
  }

  /** A set that can be turned into a record. */
  predicate SetOk(i: nat, ts: seq<seq<string>>, trueTexts: Option<seq<string>>) {
    AllTriples(ts) && (trueTexts.Some? ==> i < |trueTexts.value|)
  }

  /**
   * The batch succeeds iff every set does, with one record per set whose
   * `id` is its position, whose `kbs` are its triplets' entries and whose
   * text is "dummy text." without `true_texts` and the set's text with it.
   */
  lemma {:induction false} PreprocessedSuccess(triplets: seq<seq<seq<string>>>, trueTexts: Option<seq<string>>)
    ensures Preprocessed(triplets, trueTexts).Success? <==> forall i :: 0 <= i < |triplets| ==> SetOk(i, triplets[i], trueTexts)
    ensures Preprocessed(triplets, trueTexts).Success? ==>
      var rs := Preprocessed(triplets, trueTexts).value;
      && |rs| == |triplets|
      && forall i :: 0 <= i < |rs| ==>
           && AllTriples(triplets[i])
           && rs[i] == JObject(map["id" := JInt(i), "kbs" := JObject(Kbs(triplets[i])),
                                   "text" := JStr(if trueTexts.None? then "dummy text." else trueTexts.value[i])])
  {
    if triplets != [] {
      var n := |triplets| - 1;
      var init := triplets[..n];
      PreprocessedSuccess(init, trueTexts);
      assert forall i :: 0 <= i < n ==> init[i] == triplets[i];
      var pre := Preprocessed(init, trueTexts);
      var last := SetRecord(n, triplets[n], trueTexts);
      if Preprocessed(triplets, trueTexts).Success? {
        var rs := Preprocessed(triplets, trueTexts).value;
        assert pre.Success? && last.Success? && rs == pre.value + [last.value];
        forall i | 0 <= i < |rs|
          ensures && AllTriples(triplets[i])
                  && rs[i] == JObject(map["id" := JInt(i), "kbs" := JObject(Kbs(triplets[i])),
                                          "text" := JStr(if trueTexts.None? then "dummy text." else trueTexts.value[i])])
        {
          if i < n {
            assert rs[i] == pre.value[i];
          }
        }
      }
    }
  }

  /** A failure names the first set that cannot be turned into a record, and says why. */
  lemma {:induction false} PreprocessedFailure(triplets: seq<seq<seq<string>>>, trueTexts: Option<seq<string>>)
    ensures Preprocessed(triplets, trueTexts).Failure? ==>
      var e := Preprocessed(triplets, trueTexts).error;
      && e.setId < |triplets|
      && (forall i :: 0 <= i < e.setId ==> SetOk(i, triplets[i], trueTexts))
      && (e.ValueError? <==> !AllTriples(triplets[e.setId]))
      && (e.IndexError? ==> trueTexts.Some? && e.setId >= |trueTexts.value|)
  {
    if triplets != [] {
      var n := |triplets| - 1;
      var init := triplets[..n];
      PreprocessedFailure(init, trueTexts);
      PreprocessedSuccess(init, trueTexts);
      assert forall i :: 0 <= i < n ==> init[i] == triplets[i];
    }
  }

  /** Once a prefix of the batch fails, the batch fails with the same error. */
  lemma {:induction false} PreprocessedPrefix(triplets: seq<seq<seq<string>>>, trueTexts: Option<seq<string>>, m: nat)
    requires m <= |triplets| && Preprocessed(triplets[..m], trueTexts).Failure?
    ensures Preprocessed(triplets, trueTexts) == Preprocessed(triplets[..m], trueTexts)
  {
    if m < |triplets| {
      var n := |triplets| - 1;
      assert triplets[..n][..m] == triplets[..m];
      PreprocessedPrefix(triplets[..n], trueTexts, m);
    } else {
      assert triplets[..m] == triplets;
    }
  }

  /** The inner loop: the set's `kbs`, or None when a triplet does not unpack into three values. */
  method BuildKbs(ts: seq<seq<string>>) returns (r: Option<map<string, Json>>)
    ensures r.Some? <==> AllTriples(ts)
    ensures r.Some? ==> AllTriples(ts) && r.value == Kbs(ts)
  {
    var kbs: map<string, Json> := map[];
    var k := 0;
    while k < |ts|
      invariant 0 <= k <= |ts|
      invariant AllTriples(ts[..k]) && kbs == Kbs(ts[..k])
    {
      if |ts[k]| != 3 {
        return None;
      }
      KbsStep(ts, k);
      kbs := kbs[EntityId(k) := Entry(ts[k])];
      k := k + 1;
    }
    assert ts[..k] == ts;
    r := Some(kbs);
  }

  /** One more triplet adds its entry under the next key. */
  lemma KbsStep(ts: seq<seq<string>>, k: nat)
    requires k < |ts| && AllTriples(ts[..k]) && |ts[k]| == 3
    ensures AllTriples(ts[..k + 1])
    ensures Kbs(ts[..k + 1]) == Kbs(ts[..k])[EntityId(k) := Entry(ts[k])]
  {
    assert ts[..k + 1][..k] == ts[..k];
  }

  /** `__call__`: one record per set, in order; the first failing set raises. */
  method Call(triplets: seq<seq<seq<string>>>, trueTexts: Option<seq<string>>) returns (r: Result<seq<Json>, TripletError>)
    ensures r == Preprocessed(triplets, trueTexts)
  {
    var result: seq<Json> := [];
    var i := 0;
    while i < |triplets|
      invariant 0 <= i <= |triplets|
      invariant Preprocessed(triplets[..i], trueTexts) == Success(result)
    {
      assert triplets[..i + 1][..i] == triplets[..i];
      var kbs := BuildKbs(triplets[i]);
      if kbs.None? {
        PreprocessedPrefix(triplets, trueTexts, i + 1);
        return Failure(ValueError(i));
      }
      var text: string;
      if trueTexts.None? {
        text := "dummy text.";
      } else {
        if i >= |trueTexts.value| {
          PreprocessedPrefix(triplets, trueTexts, i + 1);
          return Failure(IndexError(i));
        }
        text := trueTexts.value[i];
      }
      result := result + [JObject(map["id" := JInt(i), "kbs" := JObject(kbs.value), "text" := JStr(text)])];
      i := i + 1;
    }
    assert triplets[..i] == triplets;
    r := Success(result);
  }
}
