/**
 * `ClassificationDataset` of deeppavlov/datasets/classification_dataset.py:
 * a dict of named fields of examples, where the constructor optionally
 * merges several fields into a new one and then optionally splits a field.
 *
 * The split itself (`_split_data`, a random split by proportions) is a
 * parameter `split`; what is modelled is when it runs, on what, and the
 * checks around it.
 */
module ClassificationDataset {
  import opened Wrappers

  /** The part of `__init__` that fails. */
  datatype DatasetError =
    | IOError(message: string)  // a merge or split request without its target names
    | KeyError(key: string)     // a field to merge that the data does not have
    | TypeError                 // split proportions that are None cannot be iterated

  const MergeMessage := "Given fields to merge BUT not given name of merged field"
  const SplitMessage := "Given field to split BUT not given names of split fields"

  type Fields<T> = map<string, seq<T>>

  /** The first of `names` that is not a field of `data`. */
  function FirstMissing<T>(data: Fields<T>, names: seq<string>): (r: Option<string>)
    ensures r.None? <==> forall k :: 0 <= k < |names| ==> names[k] in data
    ensures r.Some? ==> r.value in names && r.value !in data
  {
    if names == [] then None
    else if names[0] !in data then Some(names[0])
    else FirstMissing(data, names[1..])
  }

  /** The fields `names` of `data`, concatenated in list order. */
  function Concat<T>(data: Fields<T>, names: seq<string>): seq<T>
    requires forall k :: 0 <= k < |names| ==> names[k] in data
  {
    if names == [] then [] else Concat(data, names[..|names| - 1]) + data[names[|names| - 1]]
  }

  function TotalLength<T>(data: Fields<T>, names: seq<string>): nat
    requires forall k :: 0 <= k < |names| ==> names[k] in data
  {
    if names == [] then 0 else TotalLength(data, names[..|names| - 1]) + |data[names[|names| - 1]]|
  }

  /** `_merge_data`: a copy of the data with `merged` set to the concatenation of the original fields. */
  function Merged<T>(data: Fields<T>, names: seq<string>, merged: string): Result<Fields<T>, DatasetError> {
    match FirstMissing(data, names)
    case Some(name) => Failure(KeyError(name))
    case None => Success(data[merged := Concat(data, names)])
  }

  /**
   * Merging succeeds iff every listed field exists; then the merged field
   * holds their original values one after another (so as many examples as
   * they have together), and every other field is unchanged.
   */
  lemma MergedMeaning<T>(data: Fields<T>, names: seq<string>, merged: string)
    ensures Merged(data, names, merged).Success? <==> forall k :: 0 <= k < |names| ==> names[k] in data
    ensures Merged(data, names, merged).Failure? ==>
      Merged(data, names, merged).error.KeyError? && Merged(data, names, merged).error.key in names
      && Merged(data, names, merged).error.key !in data
    ensures Merged(data, names, merged).Success? ==>
      var d := Merged(data, names, merged).value;
      && d.Keys == data.Keys + {merged}
      && d[merged] == Concat(data, names)
      && |d[merged]| == TotalLength(data, names)
      && forall f :: f in data && f != merged ==> d[f] == data[f]
  {
    if FirstMissing(data, names).None? {
      ConcatLength(data, names);
    }
  }

  lemma {:induction false} ConcatLength<T>(data: Fields<T>, names: seq<string>)
    requires forall k :: 0 <= k < |names| ==> names[k] in data
    ensures |Concat(data, names)| == TotalLength(data, names)
  {
    if names != [] {
      ConcatLength(data, names[..|names| - 1]);
    }
  }

  /** Every example of a merged field comes from one of the listed fields, and every example of those is in it. */
  lemma {:induction false} ConcatMembers<T>(data: Fields<T>, names: seq<string>)
    requires forall k :: 0 <= k < |names| ==> names[k] in data
    ensures forall x :: x in Concat(data, names) <==> exists k :: 0 <= k < |names| && x in data[names[k]]
  {
    if names != [] {
      var init := names[..|names| - 1];
      ConcatMembers(data, init);
      assert forall k :: 0 <= k < |init| ==> init[k] == names[k];
    }
  }

  /**
   * What `__init__` leaves in `data`: the merge first, when asked for, then
   * the split, when asked for, applied to the merged data.
   */
  function Initialized<T>(data: Fields<T>,
                          fieldsToMerge: Option<seq<string>>, mergedField: Option<string>,
                          fieldToSplit: Option<string>, splitFields: Option<seq<string>>,
                          splitProportions: Option<seq<real>>,
                          split: (Fields<T>, string, seq<string>, seq<real>) -> Fields<T>): Result<Fields<T>, DatasetError> {
    var m :=
      if fieldsToMerge.None? then Success(data)
      else if mergedField.None? then Failure(IOError(MergeMessage))
      else Merged(data, fieldsToMerge.value, mergedField.value);
    if m.Failure? || fieldToSplit.None? then m
    else if splitFields.None? then Failure(IOError(SplitMessage))
    else if splitProportions.None? then Failure(TypeError)
    else Success(split(m.value, fieldToSplit.value, splitFields.value, splitProportions.value))
  }

  /** A merge request without a merged-field name is an IOError, before anything about splitting. */
  lemma MergeWithoutTarget<T>(data: Fields<T>, fieldsToMerge: Option<seq<string>>,
                              fieldToSplit: Option<string>, splitFields: Option<seq<string>>,
                              splitProportions: Option<seq<real>>,
                              split: (Fields<T>, string, seq<string>, seq<real>) -> Fields<T>)
    requires fieldsToMerge.Some?
    ensures Initialized(data, fieldsToMerge, None, fieldToSplit, splitFields, splitProportions, split)
      == Failure(IOError(MergeMessage))
  {
  }

  /**
   * Once the merge (if any) went through, a split request without target
   * names is an IOError; with them, the split sees the merged data.
   */
  lemma SplitAfterMerge<T>(data: Fields<T>, names: seq<string>, merged: string,
                           fieldToSplit: string, splitFields: Option<seq<string>>,
                           splitProportions: Option<seq<real>>,
                           split: (Fields<T>, string, seq<string>, seq<real>) -> Fields<T>)
    requires forall k :: 0 <= k < |names| ==> names[k] in data
    ensures var r := Initialized(data, Some(names), Some(merged), Some(fieldToSplit), splitFields, splitProportions, split);
      && (splitFields.None? ==> r == Failure(IOError(SplitMessage)))
      && (splitFields.Some? && splitProportions.Some? ==>
            r == Success(split(data[merged := Concat(data, names)], fieldToSplit, splitFields.value, splitProportions.value)))
  {
    MergedMeaning(data, names, merged);
  }

  /** Without merge or split requests the data is kept as given. */
  lemma NothingRequested<T>(data: Fields<T>, mergedField: Option<string>, splitFields: Option<seq<string>>,
                            splitProportions: Option<seq<real>>,
                            split: (Fields<T>, string, seq<string>, seq<real>) -> Fields<T>)
    ensures Initialized(data, None, mergedField, None, splitFields, splitProportions, split) == Success(data)
  {
  }

  class Dataset<T> {
    var data: Fields<T>

    /** `super().__init__(data)`: the base class is not part of this model; its handling is taken to keep the fields as passed. */
    constructor (data: Fields<T>)
      ensures this.data == data
    {
      this.data := data;
    }

    /**
     * `__init__`: the dataset of the data, merged when asked and then split
     * when asked; each failed request raises instead.
     */
    static method Create(data: Fields<T>,
                         fieldsToMerge: Option<seq<string>>, mergedField: Option<string>,
                         fieldToSplit: Option<string>, splitFields: Option<seq<string>>,
                         splitProportions: Option<seq<real>>,
                         split: (Fields<T>, string, seq<string>, seq<real>) -> Fields<T>)
      returns (r: Result<Dataset<T>, DatasetError>)
      ensures var i := Initialized(data, fieldsToMerge, mergedField, fieldToSplit, splitFields, splitProportions, split);
        && (r.Success? <==> i.Success?)
        && (r.Success? ==> fresh(r.value) && r.value.data == i.value)
        && (r.Failure? ==> r.error == i.error)
    {
      var d := new Dataset(data);
      var o := d.Configure(fieldsToMerge, mergedField, fieldToSplit, splitFields, splitProportions, split);
      if o.Fail? {
        return Failure(o.error);
      }
      r := Success(d);
    }

    /** The checks and the merge-then-split of `__init__`, after the data has been taken. */
    method Configure(fieldsToMerge: Option<seq<string>>, mergedField: Option<string>,
                     fieldToSplit: Option<string>, splitFields: Option<seq<string>>,
                     splitProportions: Option<seq<real>>,
                     split: (Fields<T>, string, seq<string>, seq<real>) -> Fields<T>) returns (o: Outcome<DatasetError>)
      modifies this
      ensures var r := Initialized(old(data), fieldsToMerge, mergedField, fieldToSplit, splitFields, splitProportions, split);
        && (o.Pass? <==> r.Success?)
        && (r.Success? ==> data == r.value)
        && (r.Failure? ==> o.error == r.error)
    {
      if fieldsToMerge.Some? {
        if mergedField.Some? {
          var m := MergeData(fieldsToMerge.value, mergedField.value);
          if m.Fail? {
            return m;
          }
        } else {
          return Fail(IOError(MergeMessage));
        }
      }
      if fieldToSplit.Some? {
        if splitFields.Some? {
          if splitProportions.None? {
            return Fail(TypeError);
          }
          data := split(data, fieldToSplit.value, splitFields.value, splitProportions.value);
        } else {
          return Fail(IOError(SplitMessage));
        }
      }
      o := Pass;
    }

    /**
     * `_merge_data`: a copy of the data whose `merged` field is the fields
     * `names` of the original data, appended one by one, replaces the data;
     * a missing field raises KeyError and leaves the data as it was.
     */
    method MergeData(names: seq<string>, merged: string) returns (o: Outcome<DatasetError>)
      modifies this
      ensures o.Pass? <==> Merged(old(data), names, merged).Success?
      ensures o.Pass? ==> data == Merged(old(data), names, merged).value
      ensures o.Fail? ==> o.error == Merged(old(data), names, merged).error && data == old(data)
    {
      var copy := data[merged := []];
      var k := 0;
      while k < |names|
        invariant 0 <= k <= |names|
        invariant forall j :: 0 <= j < k ==> names[j] in data
        invariant FirstMissing(data, names) == FirstMissing(data, names[k..])
        invariant copy == data[merged := Concat(data, names[..k])]
      {
        if names[k] !in data {
          return Fail(KeyError(names[k]));
        }
        assert names[k..][1..] == names[k + 1..];
        assert names[..k + 1][..k] == names[..k];
        copy := copy[merged := copy[merged] + data[names[k]]];
        k := k + 1;
      }
      assert names[..k] == names;
      data := copy;
      o := Pass;
    }
  }
}
