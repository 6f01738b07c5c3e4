/**
 * The default dialogue-state tracker: a history of (slot, value) pairs
 * restricted to known slot names, the latest value per slot, and a 0/1
 * feature per slot name telling whether that slot has been seen.
 */
module DefaultTracker {
  import opened Assoc

  /** What `update_state` may be handed. */
  datatype Slots =
    | SlotList(pairs: seq<(string, string)>)  // a list of (slot, value) pairs
    | SlotDict(items: seq<(string, string)>)  // a dict, as its items in insertion order
    | Unsupported                             // any other type: the history is left alone

  /** The pairs of `ps` whose slot is one of `slotNames`, in order. */
  function Filtered(slotNames: seq<string>, ps: seq<(string, string)>): (r: seq<(string, string)>)
    ensures |r| <= |ps|
  {
    if ps == [] then []
    else Filtered(slotNames, ps[..|ps| - 1]) + (if ps[|ps| - 1].0 in slotNames then [ps[|ps| - 1]] else [])
  }

  /** `Filtered` keeps exactly the pairs with a known slot name. */
  lemma {:induction false} FilteredMembers(slotNames: seq<string>, ps: seq<(string, string)>)
    ensures forall p :: p in Filtered(slotNames, ps) <==> p in ps && p.0 in slotNames
  {
    if ps != [] {
      var init := ps[..|ps| - 1];
      FilteredMembers(slotNames, init);
      assert ps == init + [ps[|ps| - 1]];
    }
  }

  /** Filtering twice is filtering once. */
  lemma {:induction false} FilteredIdempotent(slotNames: seq<string>, ps: seq<(string, string)>)
    ensures Filtered(slotNames, Filtered(slotNames, ps)) == Filtered(slotNames, ps)
  {
    if ps != [] {
      var init := ps[..|ps| - 1];
      var last := ps[|ps| - 1];
      FilteredIdempotent(slotNames, init);
      var f := Filtered(slotNames, init);
      if last.0 in slotNames {
        assert Filtered(slotNames, ps) == f + [last];
        assert (f + [last])[..|f + [last]| - 1] == f;
        assert Filtered(slotNames, f + [last]) == Filtered(slotNames, f) + [last];
      } else {
        assert Filtered(slotNames, ps) == f;
      }
    }
  }

  /** `_binary_features`: 1 at `i` when `slotNames[i]` has a value, 0 otherwise. */
  ghost function Features(slotNames: seq<string>, history: seq<(string, string)>): (f: seq<int>)
    ensures |f| == |slotNames|
  {
    seq(|slotNames|, i requires 0 <= i < |slotNames| => if slotNames[i] in LastWins(history) then 1 else 0)
  }

  /** A feature is 1 iff its slot occurs in the history, and 0 otherwise. */
  lemma FeaturesMeaning(slotNames: seq<string>, history: seq<(string, string)>, i: nat)
    requires i < |slotNames|
    ensures Features(slotNames, history)[i] == 1 <==> exists k :: 0 <= k < |history| && history[k].0 == slotNames[i]
    ensures Features(slotNames, history)[i] == 0 <==> !exists k :: 0 <= k < |history| && history[k].0 == slotNames[i]
  {
    LastWinsMeaning(history);
  }

  /** With no history every feature is 0. */
  lemma FeaturesOfEmpty(slotNames: seq<string>)
    ensures Features(slotNames, []) == seq(|slotNames|, _ => 0)
  {
    assert LastWins<string, string>([]) == map[];
    var f := Features(slotNames, []);
    assert forall i :: 0 <= i < |f| ==> f[i] == 0;
  }

  class Tracker {
    const slotNames: seq<string>
    var history: seq<(string, string)>
    var currFeats: seq<int>

    /** The features always describe the history, which holds only known slots. */
    ghost predicate Valid()
      reads this
    {
      && currFeats == Features(slotNames, history)
      && forall k :: 0 <= k < |history| ==> history[k].0 in slotNames
    }

    /** `__init__`: keeps the slot names and resets the state. */
    constructor (names: seq<string>)
      ensures Valid()
      ensures slotNames == names && history == [] && currFeats == seq(|names|, _ => 0)
    {
      slotNames := names;
      history := [];
      currFeats := seq(|names|, _ => 0);
      FeaturesOfEmpty(names);
    }

    /** `state_size`: one feature per slot name. */
    function StateSize(): (n: nat)
      ensures n == |slotNames|
    {
      |slotNames|
    }

    /** `num_features`: the same as `state_size`, the length of the feature vector. */
    function NumFeatures(): (n: nat)
      reads this
      requires Valid()
      ensures n == StateSize() == |currFeats|
    {
      StateSize()
    }

    /** `reset_state`: no history and all-zero features, one per slot name. */
    method ResetState()
      modifies this
      ensures Valid()
      ensures history == [] && currFeats == seq(|slotNames|, _ => 0)
    {
      history := [];
      currFeats := seq(|slotNames|, _ => 0);
      FeaturesOfEmpty(slotNames);
    }

    /**
     * `update_state`: extends the history by the known-slot pairs of a list
     * or dict (nothing for any other type) and recomputes the features.
     */
    method UpdateState(slots: Slots)
      requires Valid()
      modifies this
      ensures Valid()
      ensures history == old(history) + Added(slotNames, slots)
      ensures currFeats == Features(slotNames, history)
    {
      if !slots.Unsupported? {
        var ps := Items(slots);
        ghost var h0 := history;
        var n := 0;
        while n < |ps|
          invariant 0 <= n <= |ps|
          invariant history == h0 + Filtered(slotNames, ps[..n])
          invariant forall k :: 0 <= k < |history| ==> history[k].0 in slotNames
        {
          assert ps[..n + 1][..n] == ps[..n];
          if ps[n].0 in slotNames {
            history := history + [ps[n]];
          }
          n := n + 1;
        }
        assert ps[..n] == ps;
      }
      currFeats := BinaryFeatures();
    }

    /** `get_state`: the latest value of every slot in the history. */
    method GetState() returns (lasts: map<string, string>)
      ensures lasts == LastWins(history)
      ensures forall s :: s in lasts <==> exists k :: 0 <= k < |history| && history[k].0 == s
    {
      lasts := map[];
      var n := 0;
      while n < |history|
        invariant 0 <= n <= |history|
        invariant lasts == LastWins(history[..n])
      {
        assert history[..n + 1][..n] == history[..n];
        assert LastWins(history[..n + 1]) == LastWins(history[..n])[history[n].0 := history[n].1];
        lasts := lasts[history[n].0 := history[n].1];
        n := n + 1;
      }
      assert history[..n] == history;
      LastWinsMeaning(history);
    }

    /** `_binary_features`: fills a zero vector with 1 at each slot that has a value. */
    method BinaryFeatures() returns (feats: seq<int>)
      ensures feats == Features(slotNames, history)
    {
      var a := new int[|slotNames|](_ => 0);
      var lasts := GetState();
      var i := 0;
      while i < a.Length
        invariant 0 <= i <= a.Length
        invariant forall j :: 0 <= j < i ==> a[j] == (if slotNames[j] in lasts then 1 else 0)
        invariant forall j :: i <= j < a.Length ==> a[j] == 0
      {
        if slotNames[i] in lasts {
          a[i] := 1;
        }
        i := i + 1;
      }
      feats := a[..];
    }

    /** `__call__`: the current features, one 0/1 entry per slot name, telling whether it was seen. */
    method Call() returns (feats: seq<int>)
      requires Valid()
      ensures |feats| == |slotNames|
      ensures forall i :: 0 <= i < |slotNames| ==>
        (feats[i] == 1 <==> exists k :: 0 <= k < |history| && history[k].0 == slotNames[i])
      ensures forall i :: 0 <= i < |slotNames| ==> feats[i] == 0 || feats[i] == 1
    {
      feats := currFeats;
      forall i | 0 <= i < |slotNames|
        ensures feats[i] == 1 <==> exists k :: 0 <= k < |history| && history[k].0 == slotNames[i]
      {
        FeaturesMeaning(slotNames, history, i);
      }
    }
  }

  /** What `update_state` appends: the known-slot pairs of a list or dict, nothing for any other type. */
  function Added(slotNames: seq<string>, slots: Slots): (r: seq<(string, string)>)
    ensures forall k :: 0 <= k < |r| ==> r[k].0 in slotNames
  {
    if slots.Unsupported? then [] else (FilteredMembers(slotNames, Items(slots)); Filtered(slotNames, Items(slots)))
  }

  /** The pairs a list or dict argument carries. */
  function Items(slots: Slots): seq<(string, string)>
    requires !slots.Unsupported?
  {
    match slots
    case SlotList(ps) => ps
    case SlotDict(ps) => ps
  }
}
