/**
 * The token <-> index vocabulary: `SimpleVocabulary` in
 * deeppavlov/core/data/simple_vocab.py.
 *
 * The vocabulary keeps a list index -> token (`i2t`), a dictionary
 * token -> index (`t2i`, a Python defaultdict whose default is the index of
 * the unknown token) and the token frequencies it was built from. It is
 * filled by `Fit` from a corpus or by `Load` from saved lines.
 */
module SimpleVocab {
  import opened Wrappers
  import opened Text
  import opened Assoc

  // ---------------------------------------------------------------------
  // The corpus that `fit` counts
  // ---------------------------------------------------------------------

  /** A nested batch of strings, as `flatten_str_batch` walks it. */
  datatype StrBatch = Leaf(token: string) | Node(children: seq<StrBatch>)

  function Flatten(b: StrBatch): seq<string>
    decreases b
  {
    match b
    case Leaf(t) => [t]
    case Node(cs) => FlattenAll(cs)
  }

  function FlattenAll(bs: seq<StrBatch>): seq<string>
    decreases bs
  {
    if bs == [] then [] else Flatten(bs[0]) + FlattenAll(bs[1..])
  }

  /** `chain(*args)`: the samples of every positional argument, in order. */
  function Chain(args: seq<seq<StrBatch>>): seq<StrBatch> {
    if args == [] then [] else args[0] + Chain(args[1..])
  }

  /** `filter(None, tokens)`: the empty string is dropped, everything else kept. */
  function DropEmpty(s: seq<string>): (r: seq<string>)
    ensures "" !in r
    ensures forall t :: t in r <==> t in s && t != ""
  {
    if s == [] then [] else (if s[0] == "" then [] else [s[0]]) + DropEmpty(s[1..])
  }

  /** The tokens `fit` counts. */
  function Corpus(args: seq<seq<StrBatch>>): (r: seq<string>)
    ensures "" !in r
  {
    DropEmpty(FlattenAll(Chain(args)))
  }

  // ---------------------------------------------------------------------
  // Counter and Counter.most_common
  // ---------------------------------------------------------------------

  ghost predicate NoDuplicates<T>(s: seq<T>) {
    forall i, j :: 0 <= i < j < |s| ==> s[i] != s[j]
  }

  /** The distinct tokens in order of first occurrence (a Counter's key order). */
  function Distinct(s: seq<string>): (r: seq<string>)
    ensures forall t :: t in r <==> t in s
    ensures NoDuplicates(r)
  {
    if s == [] then []
    else
      var d := Distinct(s[..|s| - 1]);
      assert forall t :: t in s <==> t in s[..|s| - 1] || t == s[|s| - 1];
      if s[|s| - 1] in d then d else d + [s[|s| - 1]]
  }

  /** `Counter(tokens)` as a map. */
  function Counts(s: seq<string>): (m: map<string, int>)
    ensures forall t :: t in m <==> t in s
  {
    map t | t in s :: Count(s, t)
  }

  /** `Counter(tokens).items()`: each distinct token with its frequency. */
  function Tally(s: seq<string>): (r: seq<(string, nat)>)
    ensures |r| == |Distinct(s)|
    ensures forall k :: 0 <= k < |r| ==> r[k].0 == Distinct(s)[k] && r[k].1 == Count(s, r[k].0)
  {
    var d := Distinct(s);
    seq(|d|, k requires 0 <= k < |d| => (d[k], Count(s, d[k])))
  }

  ghost predicate SortedByFreq(s: seq<(string, nat)>) {
    forall i, j :: 0 <= i < j < |s| ==> s[i].1 >= s[j].1
  }

  ghost predicate DistinctTokens(s: seq<(string, nat)>) {
    forall i, j :: 0 <= i < j < |s| ==> s[i].0 != s[j].0
  }

  /** Inserts `x` after every entry at least as frequent: one step of a stable sort. */
  function InsertByFreq(s: seq<(string, nat)>, x: (string, nat)): (r: seq<(string, nat)>)
    ensures |r| == |s| + 1
  {
    if s == [] then [x]
    else if s[0].1 >= x.1 then [s[0]] + InsertByFreq(s[1..], x)
    else [x] + s
  }

  lemma {:induction false} InsertByFreqMultiset(s: seq<(string, nat)>, x: (string, nat))
    ensures multiset(InsertByFreq(s, x)) == multiset(s) + multiset{x}
  {
    if s != [] && s[0].1 >= x.1 {
      InsertByFreqMultiset(s[1..], x);
      assert s == [s[0]] + s[1..];
    }
  }

  lemma {:induction false} InsertByFreqSorted(s: seq<(string, nat)>, x: (string, nat))
    requires SortedByFreq(s)
    ensures SortedByFreq(InsertByFreq(s, x))
  {
    if s != [] && s[0].1 >= x.1 {
      var rest := InsertByFreq(s[1..], x);
      InsertByFreqSorted(s[1..], x);
      InsertByFreqMultiset(s[1..], x);
      forall y | y in rest ensures y.1 <= s[0].1 {
        assert y in multiset(s[1..]) + multiset{x};
      }
    }
  }

  lemma {:induction false} InsertByFreqDistinct(s: seq<(string, nat)>, x: (string, nat))
    requires DistinctTokens(s) && forall k :: 0 <= k < |s| ==> s[k].0 != x.0
    ensures DistinctTokens(InsertByFreq(s, x))
  {
    if s != [] && s[0].1 >= x.1 {
      var rest := InsertByFreq(s[1..], x);
      InsertByFreqDistinct(s[1..], x);
      InsertByFreqMultiset(s[1..], x);
      forall y | y in rest ensures y.0 != s[0].0 {
        assert y in multiset(s[1..]) + multiset{x};
      }
    }
  }

  /** `sorted(items, key=count, reverse=True)`: a stable sort by decreasing frequency. */
  function SortByFreq(s: seq<(string, nat)>): (r: seq<(string, nat)>)
    ensures |r| == |s|
  {
    if s == [] then [] else InsertByFreq(SortByFreq(s[..|s| - 1]), s[|s| - 1])
  }

  /** The sort is a permutation, in non-increasing frequency order, and repeats no token. */
  lemma SortByFreqProperties(s: seq<(string, nat)>)
    ensures multiset(SortByFreq(s)) == multiset(s)
    ensures SortedByFreq(SortByFreq(s))
    ensures DistinctTokens(s) ==> DistinctTokens(SortByFreq(s))
  {
    SortByFreqPermutation(s);
    SortByFreqSorted(s);
    if DistinctTokens(s) {
      SortByFreqDistinct(s);
    }
  }

  lemma {:induction false} SortByFreqPermutation(s: seq<(string, nat)>)
    ensures multiset(SortByFreq(s)) == multiset(s)
  {
    if s != [] {
      var init := s[..|s| - 1];
      SortByFreqPermutation(init);
      assert s == init + [s[|s| - 1]];
      InsertByFreqMultiset(SortByFreq(init), s[|s| - 1]);
    }
  }

  lemma {:induction false} SortByFreqSorted(s: seq<(string, nat)>)
    ensures SortedByFreq(SortByFreq(s))
  {
    if s != [] {
      var init := s[..|s| - 1];
      SortByFreqSorted(init);
      InsertByFreqSorted(SortByFreq(init), s[|s| - 1]);
    }
  }

  lemma {:induction false} SortByFreqDistinct(s: seq<(string, nat)>)
    requires DistinctTokens(s)
    ensures DistinctTokens(SortByFreq(s))
  {
    if s != [] {
      var init := s[..|s| - 1];
      var last := s[|s| - 1];
      var sorted := SortByFreq(init);
      assert DistinctTokens(init) by {
        forall i, j | 0 <= i < j < |init| ensures init[i].0 != init[j].0 {
          assert init[i] == s[i] && init[j] == s[j];
        }
      }
      SortByFreqDistinct(init);
      SortByFreqPermutation(init);
      forall k | 0 <= k < |sorted| ensures sorted[k].0 != last.0 {
        assert sorted[k] in multiset(init);
        var i :| 0 <= i < |init| && init[i] == sorted[k];
        assert s[i] == init[i];
      }
      InsertByFreqDistinct(sorted, last);
    }
  }

  /** `Counter(tokens).most_common()`. */
  function MostCommon(s: seq<string>): seq<(string, nat)> {
    SortByFreq(Tally(s))
  }

  /** The entries of `ps` whose frequency reaches `minFreq`, in order. */
  function Frequent(ps: seq<(string, nat)>, minFreq: int): (r: seq<(string, nat)>)
    ensures |r| <= |ps|
  {
    if ps == [] then []
    else Frequent(ps[..|ps| - 1], minFreq) + (if ps[|ps| - 1].1 >= minFreq then [ps[|ps| - 1]] else [])
  }

  /** `Frequent` keeps exactly the entries that reach `minFreq`. */
  lemma {:induction false} FrequentMembers(ps: seq<(string, nat)>, minFreq: int)
    ensures forall x :: x in Frequent(ps, minFreq) <==> x in ps && x.1 >= minFreq
  {
    if ps != [] {
      var init := ps[..|ps| - 1];
      FrequentMembers(init, minFreq);
      assert ps == init + [ps[|ps| - 1]];
    }
  }

  /** `Frequent` keeps the order of a list sorted by frequency. */
  lemma {:induction false} FrequentSorted(ps: seq<(string, nat)>, minFreq: int)
    requires SortedByFreq(ps)
    ensures SortedByFreq(Frequent(ps, minFreq))
  {
    if ps != [] {
      var init := ps[..|ps| - 1];
      var last := ps[|ps| - 1];
      FrequentSorted(init, minFreq);
      FrequentMembers(init, minFreq);
      var r0 := Frequent(init, minFreq);
      forall x | x in r0 ensures x.1 >= last.1 {
        var k :| 0 <= k < |init| && init[k] == x;
        assert ps[k] == x;
      }
    }
  }

  /** `Frequent` repeats no token of a list that repeats none. */
  lemma {:induction false} FrequentDistinct(ps: seq<(string, nat)>, minFreq: int)
    requires DistinctTokens(ps)
    ensures DistinctTokens(Frequent(ps, minFreq))
  {
    if ps != [] {
      var init := ps[..|ps| - 1];
      var last := ps[|ps| - 1];
      FrequentDistinct(init, minFreq);
      FrequentMembers(init, minFreq);
      var r0 := Frequent(init, minFreq);
      forall x | x in r0 ensures x.0 != last.0 {
        var k :| 0 <= k < |init| && init[k] == x;
        assert ps[k] == x;
      }
    }
  }

  /** `[t for t, f in most_common()[:max_tokens] if f >= min_freq]` with frequencies. */
  function Selected(tokens: seq<string>, maxTokens: nat, minFreq: int): seq<(string, nat)> {
    var mc := MostCommon(tokens);
    Frequent(mc[..Min(maxTokens, |mc|)], minFreq)
  }

  function Firsts(ps: seq<(string, int)>): (r: seq<string>)
    ensures |r| == |ps| && forall k :: 0 <= k < |ps| ==> r[k] == ps[k].0
  {
    seq(|ps|, k requires 0 <= k < |ps| => ps[k].0)
  }

  /** The index -> token list that `fit` builds. */
  function FitTokens(specials: seq<string>, tokens: seq<string>, maxTokens: nat, minFreq: int): seq<string> {
    specials + Firsts(Selected(tokens, maxTokens, minFreq))
  }

  lemma MostCommonEntries(tokens: seq<string>)
    ensures forall x :: x in MostCommon(tokens) <==> x in Tally(tokens)
    ensures forall x :: x in Tally(tokens) ==> x.0 in tokens && x.1 == Count(tokens, x.0)
    ensures DistinctTokens(MostCommon(tokens))
  {
    var t := Tally(tokens);
    SortByFreqProperties(t);
    assert forall x :: x in MostCommon(tokens) <==> x in multiset(t);
    forall x | x in t ensures x.0 in tokens && x.1 == Count(tokens, x.0) {
      var k :| 0 <= k < |t| && t[k] == x;
    }
    assert DistinctTokens(t);
  }

  /** The `max_tokens` most common entries are ordered, distinct and counted. */
  lemma TopOfMostCommon(tokens: seq<string>, maxTokens: nat)
    ensures var mc := MostCommon(tokens); var top := mc[..Min(maxTokens, |mc|)];
      && SortedByFreq(top) && DistinctTokens(top)
      && forall x :: x in top ==> x.0 in tokens && x.1 == Count(tokens, x.0)
  {
    var mc := MostCommon(tokens);
    var top := mc[..Min(maxTokens, |mc|)];
    MostCommonEntries(tokens);
    SortByFreqProperties(Tally(tokens));
    assert forall x :: x in top ==> x in mc;
  }

  /**
   * Each non-special entry `fit` adds is a non-empty corpus token with its
   * corpus frequency, which reaches `min_freq`; there are at most `max_tokens`.
   */
  lemma FitSelectionEntries(tokens: seq<string>, maxTokens: nat, minFreq: int)
    requires "" !in tokens
    ensures var sel := Selected(tokens, maxTokens, minFreq);
      && |sel| <= maxTokens
      && forall k :: 0 <= k < |sel| ==>
           sel[k].0 in tokens && sel[k].0 != "" && sel[k].1 == Count(tokens, sel[k].0) && sel[k].1 >= minFreq
  {
    var mc := MostCommon(tokens);
    var top := mc[..Min(maxTokens, |mc|)];
    TopOfMostCommon(tokens, maxTokens);
    FrequentMembers(top, minFreq);
    var sel := Selected(tokens, maxTokens, minFreq);
    forall k | 0 <= k < |sel|
      ensures sel[k].0 in tokens && sel[k].1 == Count(tokens, sel[k].0) && sel[k].1 >= minFreq
    {
      assert sel[k] in sel;
    }
  }

  /** The non-special entries `fit` adds come in non-increasing frequency order, without repetition. */
  lemma FitSelectionOrder(tokens: seq<string>, maxTokens: nat, minFreq: int)
    ensures var sel := Selected(tokens, maxTokens, minFreq);
      && (forall i, j :: 0 <= i < j < |sel| ==> sel[i].1 >= sel[j].1)
      && (forall i, j :: 0 <= i < j < |sel| ==> sel[i].0 != sel[j].0)
  {
    var mc := MostCommon(tokens);
    var top := mc[..Min(maxTokens, |mc|)];
    TopOfMostCommon(tokens, maxTokens);
    FrequentSorted(top, minFreq);
    FrequentDistinct(top, minFreq);
  }

  /** With room for every distinct token, `fit` keeps every token frequent enough. */
  lemma FitSelectionComplete(tokens: seq<string>, maxTokens: nat, minFreq: int)
    requires maxTokens >= |Distinct(tokens)|
    ensures forall t :: t in tokens && Count(tokens, t) >= minFreq ==> t in Firsts(Selected(tokens, maxTokens, minFreq))
  {
    var mc := MostCommon(tokens);
    MostCommonEntries(tokens);
    assert mc[..Min(maxTokens, |mc|)] == mc;
    var sel := Selected(tokens, maxTokens, minFreq);
    FrequentMembers(mc, minFreq);
    forall t | t in tokens && Count(tokens, t) >= minFreq ensures t in Firsts(sel) {
      var d := Distinct(tokens);
      var k :| 0 <= k < |d| && d[k] == t;
      var x := Tally(tokens)[k];
      assert x in Tally(tokens) && x.0 == t;
      assert x in sel;
      var j :| 0 <= j < |sel| && sel[j] == x;
      assert Firsts(sel)[j] == t;
    }
  }

  // ---------------------------------------------------------------------
  // The index of a token
  // ---------------------------------------------------------------------

  /** The last position of `t` in `s`: where the last `_t2i[t] = count` pointed. */
  function LastIndex(s: seq<string>, t: string): (i: nat)
    requires t in s
    ensures i < |s| && s[i] == t
    ensures forall j :: i < j < |s| ==> s[j] != t
  {
    if s[|s| - 1] == t then |s| - 1 else LastIndex(s[..|s| - 1], t)
  }

  lemma LastIndexAppend(s: seq<string>, u: string, t: string)
    requires t in s + [u]
    ensures LastIndex(s + [u], t) == if t == u then |s| else LastIndex(s, t)
  {
    assert (s + [u])[..|s|] == s;
  }

  /** The index `t2i` gives a token: its last position, or the default index. */
  function Resolve(i2t: seq<string>, t: string, unk: nat): int {
    if t in i2t then LastIndex(i2t, t) else unk
  }

  /** `t2i` agrees with `i2t`: every listed token is a key, and every key maps to `Resolve`. */
  ghost predicate Consistent(i2t: seq<string>, t2i: map<string, int>, unk: nat) {
    && (forall t :: t in t2i ==> t2i[t] == Resolve(i2t, t, unk))
    && (forall k :: 0 <= k < |i2t| ==> i2t[k] in t2i)
  }

  /** For every listed token, `i2t[t2i[t]] == t`, and no later position holds `t`. */
  lemma IndexRoundTrip(i2t: seq<string>, t2i: map<string, int>, unk: nat, t: string)
    requires Consistent(i2t, t2i, unk) && t in i2t
    ensures t in t2i && 0 <= t2i[t] < |i2t| && i2t[t2i[t]] == t
    ensures forall j :: t2i[t] < j < |i2t| ==> i2t[j] != t
  {
    var k :| 0 <= k < |i2t| && i2t[k] == t;
    assert i2t[k] in t2i;
  }

  // ---------------------------------------------------------------------
  // Lookup of keys and of nested batches
  // ---------------------------------------------------------------------

  datatype Key = IntKey(i: int) | StrKey(s: string) | OtherKey
  datatype Batch = Scalar(key: Key) | Items(items: seq<Batch>)
  datatype Looked = Token(token: string) | Index(index: int) | Looked(items: seq<Looked>)
  datatype LookupError = IndexOutOfRange(index: int) | NotImplementedForType

  /**
   * `__getitem__` without its side effect: an int is a (Python, possibly
   * negative) position in `i2t`, a str gives its index, anything else raises.
   */
  function LookupKey(i2t: seq<string>, unk: nat, key: Key): (r: Result<Looked, LookupError>)
    ensures key.IntKey? && -|i2t| <= key.i < 0 ==> r == Success(Token(i2t[|i2t| + key.i]))
    ensures key.IntKey? && 0 <= key.i < |i2t| ==> r == Success(Token(i2t[key.i]))
    ensures key.IntKey? && !(-|i2t| <= key.i < |i2t|) ==> r == Failure(IndexOutOfRange(key.i))
    ensures key.StrKey? && key.s in i2t ==> r.Success? && r.value.Index? && 0 <= r.value.index < |i2t| && i2t[r.value.index] == key.s
    ensures key.StrKey? && key.s !in i2t ==> r == Success(Index(unk))
    ensures key.OtherKey? ==> r == Failure(NotImplementedForType)
  {
    match key
    case IntKey(i) =>
      if 0 <= i < |i2t| then Success(Token(i2t[i]))
      else if -|i2t| <= i < 0 then Success(Token(i2t[|i2t| + i]))
      else Failure(IndexOutOfRange(i))
    case StrKey(s) => Success(Index(Resolve(i2t, s, unk)))
    case OtherKey => Failure(NotImplementedForType)
  }

  /** `self(batch)` without side effects: the first failure in batch order, or the looked-up batch. */
  function Lookup(i2t: seq<string>, unk: nat, b: Batch): Result<Looked, LookupError>
    decreases b
  {
    match b
    case Scalar(k) => LookupKey(i2t, unk, k)
    case Items(bs) =>
      match LookupAll(i2t, unk, bs)
      case Success(ls) => Success(Looked(ls))
      case Failure(e) => Failure(e)
  }

  function LookupAll(i2t: seq<string>, unk: nat, bs: seq<Batch>): Result<seq<Looked>, LookupError>
    decreases bs
  {
    if bs == [] then Success([])
    else
      match LookupAll(i2t, unk, bs[..|bs| - 1])
      case Failure(e) => Failure(e)
      case Success(ls) =>
        match Lookup(i2t, unk, bs[|bs| - 1])
        case Failure(e) => Failure(e)
        case Success(l) => Success(ls + [l])
  }

  /** A looked-up batch has the nesting of the batch: lists stay lists of the same length. */
  ghost predicate SameShape(b: Batch, l: Looked)
    decreases b
  {
    match b
    case Scalar(k) => (k.IntKey? && l.Token?) || (k.StrKey? && l.Index?)
    case Items(bs) => l.Looked? && |l.items| == |bs| && forall k :: 0 <= k < |bs| ==> SameShape(bs[k], l.items[k])
  }

  lemma {:induction false} LookupPreservesShape(i2t: seq<string>, unk: nat, b: Batch)
    ensures Lookup(i2t, unk, b).Success? ==> SameShape(b, Lookup(i2t, unk, b).value)
    decreases b, 1
  {
    match b
    case Scalar(k) =>
    case Items(bs) => LookupAllPreservesShape(i2t, unk, bs);
  }

  lemma {:induction false} LookupAllPreservesShape(i2t: seq<string>, unk: nat, bs: seq<Batch>)
    ensures LookupAll(i2t, unk, bs).Success? ==>
      |LookupAll(i2t, unk, bs).value| == |bs| &&
      forall k :: 0 <= k < |bs| ==> SameShape(bs[k], LookupAll(i2t, unk, bs).value[k])
    decreases bs, 0
  {
    if bs != [] {
      LookupAllPreservesShape(i2t, unk, bs[..|bs| - 1]);
      LookupPreservesShape(i2t, unk, bs[|bs| - 1]);
    }
  }

  /** `__getitem__` with its side effect: a missing str key is inserted with the default index. */
  function GetItemStep(i2t: seq<string>, t2i: map<string, int>, unk: nat, key: Key): (Result<Looked, LookupError>, map<string, int>) {
    match key
    case StrKey(s) =>
      var m := if s in t2i then t2i else t2i[s := unk];
      (Success(Index(m[s])), m)
    case _ => (LookupKey(i2t, unk, key), t2i)
  }

  /** `self(batch)` threading the defaultdict through the lookups, in batch order. */
  function CallStep(i2t: seq<string>, t2i: map<string, int>, unk: nat, b: Batch): (Result<Looked, LookupError>, map<string, int>)
    decreases b
  {
    match b
    case Scalar(k) => GetItemStep(i2t, t2i, unk, k)
    case Items(bs) =>
      var (r, m) := CallAllStep(i2t, t2i, unk, bs);
      (if r.Success? then Success(Looked(r.value)) else Failure(r.error), m)
  }

  function CallAllStep(i2t: seq<string>, t2i: map<string, int>, unk: nat, bs: seq<Batch>): (Result<seq<Looked>, LookupError>, map<string, int>)
    decreases bs
  {
    if bs == [] then (Success([]), t2i)
    else
      var (rs, m) := CallAllStep(i2t, t2i, unk, bs[..|bs| - 1]);
      if rs.Failure? then (rs, m)
      else
        var (r, m') := CallStep(i2t, m, unk, bs[|bs| - 1]);
        if r.Failure? then (Failure(r.error), m') else (Success(rs.value + [r.value]), m')
  }

  /**
   * Under a consistent table the stateful lookup returns what the pure
   * `Lookup` says, the table stays consistent, and keys are only added.
   */
  lemma {:induction false} CallStepIsLookup(i2t: seq<string>, t2i: map<string, int>, unk: nat, b: Batch)
    requires Consistent(i2t, t2i, unk)
    ensures CallStep(i2t, t2i, unk, b).0 == Lookup(i2t, unk, b)
    ensures Consistent(i2t, CallStep(i2t, t2i, unk, b).1, unk)
    ensures t2i.Keys <= CallStep(i2t, t2i, unk, b).1.Keys
    decreases b, 1
  {
    match b
    case Scalar(k) =>
      if k.StrKey? && k.s !in t2i {
        assert k.s !in i2t;
      }
    case Items(bs) => CallAllStepIsLookupAll(i2t, t2i, unk, bs);
  }

  lemma {:induction false} CallAllStepIsLookupAll(i2t: seq<string>, t2i: map<string, int>, unk: nat, bs: seq<Batch>)
    requires Consistent(i2t, t2i, unk)
    ensures CallAllStep(i2t, t2i, unk, bs).0 == LookupAll(i2t, unk, bs)
    ensures Consistent(i2t, CallAllStep(i2t, t2i, unk, bs).1, unk)
    ensures t2i.Keys <= CallAllStep(i2t, t2i, unk, bs).1.Keys
    decreases bs, 0
  {
    if bs != [] {
      CallAllStepIsLookupAll(i2t, t2i, unk, bs[..|bs| - 1]);
      var (rs, m) := CallAllStep(i2t, t2i, unk, bs[..|bs| - 1]);
      if rs.Success? {
        CallStepIsLookup(i2t, m, unk, bs[|bs| - 1]);
      }
    }
  }

  /** Once a prefix of the batch fails, the rest of it is not looked at. */
  lemma {:induction false} CallAllStepFailureSticks(i2t: seq<string>, t2i: map<string, int>, unk: nat, bs: seq<Batch>, k: nat)
    requires k <= |bs| && CallAllStep(i2t, t2i, unk, bs[..k]).0.Failure?
    ensures CallAllStep(i2t, t2i, unk, bs) == CallAllStep(i2t, t2i, unk, bs[..k])
    decreases |bs| - k
  {
    if k < |bs| {
      assert bs[..k + 1][..k] == bs[..k];
      CallAllStepFailureSticks(i2t, t2i, unk, bs, k + 1);
    } else {
      assert bs[..k] == bs;
    }
  }

  // ---------------------------------------------------------------------
  // The saved file, one line per token
  // ---------------------------------------------------------------------

  /** `'{}\t{:d}\n'.format(token, cnt)`. */
  function SaveLine(token: string, cnt: int): string {
    token + "\t" + IntToString(cnt) + "\n"
  }

  /** `token, cnt = ln.split('\t', 1)` followed by `int(cnt)`; None where either raises ValueError. */
  function ParseLine(ln: string): Option<(string, int)> {
    if '\t' !in ln then None
    else
      var i := FirstIndex(ln, '\t');
      match ParseInt(ln[i + 1..])
      case None => None
      case Some(c) => Some((ln[..i], c))
  }

  /** Each line's parse, in order. */
  function Parsed(lines: seq<string>): (os: seq<Option<(string, int)>>)
    ensures |os| == |lines| && forall j :: 0 <= j < |lines| ==> os[j] == ParseLine(lines[j])
  {
    seq(|lines|, j requires 0 <= j < |lines| => ParseLine(lines[j]))
  }

  /** Every pair, or the position of the first line that raised. */
  function Collect(os: seq<Option<(string, int)>>): Result<seq<(string, int)>, nat> {
    if os == [] then Success([])
    else
      match os[0]
      case None => Failure(0)
      case Some(p) =>
        match Collect(os[1..])
        case Failure(n) => Failure(n + 1)
        case Success(ps) => Success([p] + ps)
  }

  /** Every line parsed, or the position of the first line that raises. */
  function ParseLines(lines: seq<string>): Result<seq<(string, int)>, nat> {
    Collect(Parsed(lines))
  }

  /** The first missing parse is the one reported. */
  lemma {:induction false} CollectFirstNone(os: seq<Option<(string, int)>>, n: nat)
    requires n < |os| && os[n].None? && forall j :: 0 <= j < n ==> os[j].Some?
    ensures Collect(os) == Failure(n)
  {
    if n > 0 {
      var tail := os[1..];
      assert forall j :: 0 <= j < n - 1 ==> tail[j] == os[j + 1];
      CollectFirstNone(tail, n - 1);
    }
  }

  /** Parses that all succeed collect into their pairs, in order. */
  lemma {:induction false} CollectAll(os: seq<Option<(string, int)>>, ps: seq<(string, int)>)
    requires |ps| == |os| && forall j :: 0 <= j < |os| ==> os[j] == Some(ps[j])
    ensures Collect(os) == Success(ps)
  {
    if os != [] {
      var tail := os[1..];
      assert forall j :: 0 <= j < |tail| ==> tail[j] == os[j + 1];
      CollectAll(tail, ps[1..]);
      assert ps == [ps[0]] + ps[1..];
    }
  }

  /** A collection fails iff some parse is missing. */
  lemma {:induction false} CollectSuccess(os: seq<Option<(string, int)>>)
    ensures Collect(os).Success? <==> forall j :: 0 <= j < |os| ==> os[j].Some?
    ensures Collect(os).Success? ==> |Collect(os).value| == |os| && forall j :: 0 <= j < |os| ==> os[j] == Some(Collect(os).value[j])
  {
    if os != [] {
      var tail := os[1..];
      CollectSuccess(tail);
      assert forall j :: 1 <= j < |os| ==> os[j] == tail[j - 1];
      if os[0].Some? && Collect(tail).Success? {
        assert Collect(os).value == [os[0].value] + Collect(tail).value;
      }
    }
  }

  /** A failed collection names the first missing parse. */
  lemma {:induction false} CollectFailure(os: seq<Option<(string, int)>>)
    ensures Collect(os).Failure? ==>
      (Collect(os).error < |os| && os[Collect(os).error].None? && forall j :: 0 <= j < Collect(os).error ==> os[j].Some?)
  {
    if os != [] {
      var tail := os[1..];
      CollectFailure(tail);
      assert forall j :: 1 <= j < |os| ==> os[j] == tail[j - 1];
    }
  }

  /** Reading succeeds iff every line parses. */
  lemma ParseLinesSuccess(lines: seq<string>)
    ensures ParseLines(lines).Success? <==> forall j :: 0 <= j < |lines| ==> ParseLine(lines[j]).Some?
  {
    CollectSuccess(Parsed(lines));
  }

  /** A successful read yields each line's pair, in order. */
  lemma ParseLinesValues(lines: seq<string>)
    requires ParseLines(lines).Success?
    ensures |ParseLines(lines).value| == |lines|
    ensures forall j :: 0 <= j < |lines| ==> ParseLine(lines[j]) == Some(ParseLines(lines).value[j])
  {
    CollectSuccess(Parsed(lines));
  }

  /** A failed read names the first line that does not parse. */
  lemma ParseLinesFailure(lines: seq<string>)
    ensures ParseLines(lines).Failure? ==>
      (ParseLines(lines).error < |lines|
       && ParseLine(lines[ParseLines(lines).error]).None?
       && forall j :: 0 <= j < ParseLines(lines).error ==> ParseLine(lines[j]).Some?)
  {
    CollectFailure(Parsed(lines));
  }

  /** `zip(tokens, freqs)`, which stops at the shorter list. */
  function Zip(tokens: seq<string>, freqs: seq<int>): (r: seq<(string, int)>)
    ensures |r| == Min(|tokens|, |freqs|)
    ensures forall k :: 0 <= k < |r| ==> r[k] == (tokens[k], freqs[k])
  {
    seq(Min(|tokens|, |freqs|), k requires 0 <= k < Min(|tokens|, |freqs|) => (tokens[k], freqs[k]))
  }

  /** What loading keeps of the saved pairs, in their order. */
  function KeptOnLoad(ps: seq<(string, int)>, specials: seq<string>, minFreq: int): (r: seq<string>)
    ensures |r| <= |ps|
  {
    if ps == [] then []
    else
      var last := ps[|ps| - 1];
      KeptOnLoad(ps[..|ps| - 1], specials, minFreq) + (if last.1 >= minFreq || last.0 in specials then [last.0] else [])
  }

  /** Loading keeps exactly the tokens whose count reaches `minFreq` or that are special. */
  lemma {:induction false} KeptOnLoadMeaning(ps: seq<(string, int)>, specials: seq<string>, minFreq: int)
    ensures forall k :: 0 <= k < |ps| && (ps[k].1 >= minFreq || ps[k].0 in specials) ==> ps[k].0 in KeptOnLoad(ps, specials, minFreq)
    ensures forall t :: t in KeptOnLoad(ps, specials, minFreq) ==>
      exists k :: 0 <= k < |ps| && ps[k].0 == t && (ps[k].1 >= minFreq || t in specials)
  {
    if ps != [] {
      var n := |ps| - 1;
      var init := ps[..n];
      KeptOnLoadMeaning(init, specials, minFreq);
      assert forall k :: 0 <= k < n ==> init[k] == ps[k];
      var r0 := KeptOnLoad(init, specials, minFreq);
      var r := KeptOnLoad(ps, specials, minFreq);
      forall t | t in r
        ensures exists k :: 0 <= k < |ps| && ps[k].0 == t && (ps[k].1 >= minFreq || t in specials)
      {
        if t in r0 {
          var k :| 0 <= k < n && init[k].0 == t && (init[k].1 >= minFreq || t in specials);
          assert ps[k] == init[k];
        } else {
          assert ps[n].0 == t;
        }
      }
    }
  }

  /** When every pair qualifies, loading keeps every token, in order. */
  lemma {:induction false} KeptOnLoadAll(ps: seq<(string, int)>, specials: seq<string>, minFreq: int)
    requires forall k :: 0 <= k < |ps| ==> ps[k].1 >= minFreq || ps[k].0 in specials
    ensures KeptOnLoad(ps, specials, minFreq) == Firsts(ps)
  {
    if ps != [] {
      var n := |ps| - 1;
      var init := ps[..n];
      assert forall k :: 0 <= k < n ==> init[k] == ps[k];
      KeptOnLoadAll(init, specials, minFreq);
      assert Firsts(ps) == Firsts(init) + [ps[n].0];
    }
  }

  /** One more pair: its token is kept after the earlier ones when its count reaches `minFreq` or it is special. */
  lemma KeptOnLoadStep(ps: seq<(string, int)>, specials: seq<string>, minFreq: int, n: nat)
    requires n < |ps|
    ensures KeptOnLoad(ps[..n + 1], specials, minFreq) ==
      KeptOnLoad(ps[..n], specials, minFreq) + (if ps[n].1 >= minFreq || ps[n].0 in specials then [ps[n].0] else [])
  {
    assert ps[..n + 1][..n] == ps[..n];
  }

  /** The frequency `save` writes for a token: a Counter answers 0 for a missing key. */
  function FreqOf(freqs: Option<map<string, int>>, t: string): int {
    if freqs.Some? && t in freqs.value then freqs.value[t] else 0
  }

  function SavedLines(i2t: seq<string>, freqs: Option<map<string, int>>): (lines: seq<string>)
    ensures |lines| == |i2t|
    ensures forall n :: 0 <= n < |i2t| ==> lines[n] == SaveLine(i2t[n], FreqOf(freqs, i2t[n]))
  {
    seq(|i2t|, n requires 0 <= n < |i2t| => SaveLine(i2t[n], FreqOf(freqs, i2t[n])))
  }

  /** The (token, count) pairs `save` writes, in index order. */
  function SavedEntries(i2t: seq<string>, freqs: Option<map<string, int>>): seq<(string, int)> {
    seq(|i2t|, j requires 0 <= j < |i2t| => (i2t[j], FreqOf(freqs, i2t[j])))
  }

  lemma SavedLinesSnoc(i2t: seq<string>, freqs: Option<map<string, int>>, n: nat)
    requires n < |i2t|
    ensures SavedLines(i2t[..n + 1], freqs) == SavedLines(i2t[..n], freqs) + [SaveLine(i2t[n], FreqOf(freqs, i2t[n]))]
  {
    assert i2t[..n + 1] == i2t[..n] + [i2t[n]];
    SavedLinesAppend(i2t[..n], i2t[n], freqs);
  }

  lemma SavedLinesAppend(ts: seq<string>, t: string, freqs: Option<map<string, int>>)
    ensures SavedLines(ts + [t], freqs) == SavedLines(ts, freqs) + [SaveLine(t, FreqOf(freqs, t))]
  {
    var a := SavedLines(ts + [t], freqs);
    var b := SavedLines(ts, freqs) + [SaveLine(t, FreqOf(freqs, t))];
    forall j | 0 <= j < |a| ensures a[j] == b[j] {
      if j < |ts| {
        assert (ts + [t])[j] == ts[j];
      }
    }
  }

  lemma ParseSaveLine(token: string, cnt: int)
    requires '\t' !in token
    ensures ParseLine(SaveLine(token, cnt)) == Some((token, cnt))
  {
    var ln := SaveLine(token, cnt);
    var rest := IntToString(cnt) + "\n";
    assert ln == token + ['\t'] + rest;
    FirstIndexAfterPrefix(token, '\t', rest);
    assert ln[|token| + 1..] == IntToString(cnt) + "\n";
    assert ln[..|token|] == token;
    ParseIntOfIntToString(cnt);
  }

  /** A token without tab, newline or carriage return, which a saved line keeps apart from the next. */
  predicate Plain(token: string) {
    '\t' !in token && '\n' !in token && '\r' !in token
  }

  /** A saved line of a plain token ends in its only newline. */
  lemma SaveLineIsLine(token: string, cnt: int)
    requires Plain(token)
    ensures IsLine(SaveLine(token, cnt))
  {
    var ln := SaveLine(token, cnt);
    var d := IntToString(cnt);
    assert forall c :: c in d ==> c == '-' || IsDigit(c);
    assert ln[..|ln| - 1] == token + "\t" + d;
  }

  /** The saved file, read back line by line, gives each entry with its saved frequency. */
  lemma {:induction false} SavedLinesParse(i2t: seq<string>, freqs: Option<map<string, int>>)
    requires forall k :: 0 <= k < |i2t| ==> Plain(i2t[k])
    ensures FileLines(Concat(SavedLines(i2t, freqs))) == SavedLines(i2t, freqs)
    ensures ParseLines(SavedLines(i2t, freqs)) == Success(SavedEntries(i2t, freqs))
  {
    var lines := SavedLines(i2t, freqs);
    forall j | 0 <= j < |lines| ensures IsLine(lines[j]) && ParseLine(lines[j]) == Some((i2t[j], FreqOf(freqs, i2t[j]))) {
      SaveLineIsLine(i2t[j], FreqOf(freqs, i2t[j]));
      ParseSaveLine(i2t[j], FreqOf(freqs, i2t[j]));
    }
    FileLinesOfWritten(lines);
    ParseLinesSuccess(lines);
    ParseLinesValues(lines);
    assert ParseLines(lines).value == SavedEntries(i2t, freqs);
  }

  /** A token holding a newline does not survive: its saved line is read back as two. */
  lemma NewlineTokenSplits(a: string, b: string, freqs: Option<map<string, int>>)
    requires Plain(a) && Plain(b)
    ensures var t := a + "\n" + b; var read := FileLines(Concat(SavedLines([t], freqs)));
      read == [a + "\n", SaveLine(b, FreqOf(freqs, t))] && read != SavedLines([t], freqs)
  {
    var t := a + "\n" + b;
    var c := FreqOf(freqs, t);
    var two := [a + "\n", SaveLine(b, c)];
    assert (a + "\n")[..|a|] == a;
    SaveLineIsLine(b, c);
    assert Concat(two) == a + "\n" + Concat(two[1..]);
    assert Concat(two[1..]) == SaveLine(b, c) + Concat([]);
    assert Concat(two) == SaveLine(t, c);
    assert SavedLines([t], freqs) == [SaveLine(t, c)];
    assert Concat([SaveLine(t, c)]) == SaveLine(t, c) + Concat([]);
    assert Concat(SavedLines([t], freqs)) == Concat(two);
    FileLinesOfWritten(two);
  }

  /**
   * Saving and loading back with the same special tokens and `min_freq`
   * reproduces the index -> token list, provided every token is plain and
   * was kept for a reason loading accepts too.
   */
  lemma {:induction false} SaveLoadRoundTrip(i2t: seq<string>, freqs: Option<map<string, int>>, specials: seq<string>, minFreq: int)
    requires forall k :: 0 <= k < |i2t| ==> Plain(i2t[k])
    requires forall k :: 0 <= k < |i2t| ==> i2t[k] in specials || FreqOf(freqs, i2t[k]) >= minFreq
    ensures ParseLines(FileLines(Concat(SavedLines(i2t, freqs)))).Success?
    ensures KeptOnLoad(ParseLines(FileLines(Concat(SavedLines(i2t, freqs)))).value, specials, minFreq) == i2t
  {
    SavedLinesParse(i2t, freqs);
    var ps := ParseLines(SavedLines(i2t, freqs)).value;
    KeptAll(ps, i2t, freqs, specials, minFreq);
  }

  /** Pairs carrying the tokens of `i2t`, each of which loading accepts, are all kept. */
  lemma KeptAll(ps: seq<(string, int)>, i2t: seq<string>, freqs: Option<map<string, int>>, specials: seq<string>, minFreq: int)
    requires |ps| == |i2t| && forall j :: 0 <= j < |ps| ==> ps[j] == (i2t[j], FreqOf(freqs, i2t[j]))
    requires forall k :: 0 <= k < |i2t| ==> i2t[k] in specials || FreqOf(freqs, i2t[k]) >= minFreq
    ensures KeptOnLoad(ps, specials, minFreq) == i2t
  {
    forall k | 0 <= k < |ps| ensures ps[k].1 >= minFreq || ps[k].0 in specials {
      assert ps[k] == (i2t[k], FreqOf(freqs, i2t[k]));
    }
    KeptOnLoadAll(ps, specials, minFreq);
    assert Firsts(ps) == i2t;
  }

  /** A vocabulary built by `fit` survives `save` then `load` unchanged. */
  lemma {:induction false} FitThenSaveLoad(specials: seq<string>, tokens: seq<string>, maxTokens: nat, minFreq: int)
    requires "" !in tokens
    requires forall k :: 0 <= k < |specials| ==> Plain(specials[k])
    requires forall t :: t in tokens ==> Plain(t)
    ensures var i2t := FitTokens(specials, tokens, maxTokens, minFreq);
      var lines := FileLines(Concat(SavedLines(i2t, Some(Counts(tokens)))));
      ParseLines(lines).Success? && KeptOnLoad(ParseLines(lines).value, specials, minFreq) == i2t
  {
    var sel := Selected(tokens, maxTokens, minFreq);
    var i2t := FitTokens(specials, tokens, maxTokens, minFreq);
    FitSelectionEntries(tokens, maxTokens, minFreq);
    forall k | 0 <= k < |i2t| ensures Plain(i2t[k]) && (i2t[k] in specials || FreqOf(Some(Counts(tokens)), i2t[k]) >= minFreq) {
      if k >= |specials| {
        var j := k - |specials|;
        assert i2t[k] == sel[j].0;
      }
    }
    SaveLoadRoundTrip(i2t, Some(Counts(tokens)), specials, minFreq);
  }

  // ---------------------------------------------------------------------
  // The vocabulary object
  // ---------------------------------------------------------------------

  /** The state of `load_path` when `load` runs. */
  datatype LoadTarget =
    | NoLoadPath                     // load_path is None
    | ExistingFile(text: string)     // load_path is a file holding this text
    | MissingFile(parentIsDir: bool) // load_path is not a file

  datatype VocabError =
    | DefaultTokenNotSpecial  // ValueError from special_tokens.index(default_token)
    | LoadPathNotProvided     // ConfigError: `load_path` ... is not provided
    | LoadPathMissing         // ConfigError: provided `load_path` doesn't exist
    | MalformedLine(line: nat) // ValueError while reading that line

  /** The reading loop of `load`: the tokens and counts of the lines, or the first line that raises. */
  method ReadLines(lines: seq<string>) returns (r: Result<(seq<string>, seq<int>), nat>)
    ensures r.Failure? <==> ParseLines(lines).Failure?
    ensures r.Failure? ==> r.error == ParseLines(lines).error
    ensures r.Success? ==> |r.value.0| == |r.value.1| && Zip(r.value.0, r.value.1) == ParseLines(lines).value
  {
    var tokens: seq<string> := [];
    var counts: seq<int> := [];
    for n := 0 to |lines|
      invariant ParsedAs(lines[..n], tokens, counts)
    {
      var parsed := ParseLine(lines[n]);
      if parsed.None? {
        FirstMalformed(lines, tokens, counts, n);
        return Failure(n);
      }
      ParsedAsSnoc(lines, tokens, counts, n, parsed.value);
      tokens := tokens + [parsed.value.0];
      counts := counts + [parsed.value.1];
    }
    assert lines[..|lines|] == lines;
    ParsedAll(lines, tokens, counts);
    r := Success((tokens, counts));
  }

  /** Each of `lines` parses to the token and count at its position. */
  ghost predicate ParsedAs(lines: seq<string>, tokens: seq<string>, counts: seq<int>) {
    && |tokens| == |lines| && |counts| == |lines|
    && forall j :: 0 <= j < |lines| ==> ParseLine(lines[j]) == Some((tokens[j], counts[j]))
  }

  lemma ParsedAsSnoc(lines: seq<string>, tokens: seq<string>, counts: seq<int>, n: nat, p: (string, int))
    requires n < |lines| && ParsedAs(lines[..n], tokens, counts) && ParseLine(lines[n]) == Some(p)
    ensures ParsedAs(lines[..n + 1], tokens + [p.0], counts + [p.1])
  {
    assert forall j :: 0 <= j < n ==> lines[..n + 1][j] == lines[..n][j];
  }

  /** The first line that does not parse is the one reported. */
  lemma FirstMalformed(lines: seq<string>, tokens: seq<string>, counts: seq<int>, n: nat)
    requires n < |lines| && ParsedAs(lines[..n], tokens, counts) && ParseLine(lines[n]).None?
    ensures ParseLines(lines) == Failure(n)
  {
    var os := Parsed(lines);
    assert forall j :: 0 <= j < n ==> os[j] == ParseLine(lines[..n][j]);
    CollectFirstNone(os, n);
  }

  /** Lines that all parse give their tokens and counts, paired in order. */
  lemma ParsedAll(lines: seq<string>, tokens: seq<string>, counts: seq<int>)
    requires ParsedAs(lines, tokens, counts)
    ensures ParseLines(lines) == Success(Zip(tokens, counts))
  {
    var ps := Zip(tokens, counts);
    assert |ps| == |lines|;
    CollectAll(Parsed(lines), ps);
  }

  /** `unk_index`: the position of `unk_token` among the special tokens, or 0. */
  function UnkIndexOf(specials: seq<string>, unkToken: Option<string>): (i: nat)
    ensures unkToken.Some? && unkToken.value in specials ==>
      i < |specials| && specials[i] == unkToken.value && forall j :: 0 <= j < i ==> specials[j] != unkToken.value
    ensures !(unkToken.Some? && unkToken.value in specials) ==> i == 0
  {
    if unkToken.Some? && unkToken.value in specials then FirstIndex(specials, unkToken.value) else 0
  }

  class SimpleVocabulary {
    const specialTokens: seq<string>
    const defaultToken: Option<string>
    const maxTokens: nat
    const minFreq: int
    const padWithZeros: bool
    const unkToken: Option<string>

    var freqs: Option<map<string, int>>
    var t2i: map<string, int>
    var i2t: seq<string>
    var count: int

    /** The index an unknown string gets: fixed, because the special tokens never change. */
    function UnkIndex(): nat {
      UnkIndexOf(specialTokens, unkToken)
    }

    ghost predicate Valid()
      reads this
    {
      && count == |i2t|
      && Consistent(i2t, t2i, UnkIndex())
      && (freqs.None? ==> i2t == [])
    }

    /** `__init__` once `reset` cannot raise (see `New`), without loading. */
    constructor (specialTokens: seq<string>, defaultToken: Option<string>, maxTokens: nat, minFreq: int,
                 padWithZeros: bool, unkToken: Option<string>)
      requires defaultToken.None? || defaultToken.value in specialTokens
      ensures Valid()
      ensures this.specialTokens == specialTokens && this.defaultToken == defaultToken
      ensures this.maxTokens == maxTokens && this.minFreq == minFreq
      ensures this.padWithZeros == padWithZeros && this.unkToken == unkToken
      ensures i2t == [] && t2i == map[] && count == 0 && freqs.None?
    {
      this.specialTokens := specialTokens;
      this.defaultToken := defaultToken;
      this.maxTokens := maxTokens;
      this.minFreq := minFreq;
      this.padWithZeros := padWithZeros;
      this.unkToken := unkToken;
      freqs := None;
      t2i := map[];
      i2t := [];
      count := 0;
    }

    /**
     * `SimpleVocabulary(...)`: raises when the default token is not special,
     * and loads at construction when a load path is given.
     */
    static method New(specialTokens: seq<string>, defaultToken: Option<string>, maxTokens: nat, minFreq: int,
                      padWithZeros: bool, unkToken: Option<string>, target: LoadTarget)
      returns (r: Result<SimpleVocabulary, VocabError>)
      ensures r.Failure? && r.error == DefaultTokenNotSpecial <==> defaultToken.Some? && defaultToken.value !in specialTokens
      ensures r.Success? ==> (fresh(r.value) && r.value.Valid() && r.value.specialTokens == specialTokens
        && r.value.unkToken == unkToken && r.value.minFreq == minFreq && r.value.maxTokens == maxTokens)
      ensures r.Success? && target.NoLoadPath? ==> r.value.i2t == [] && r.value.t2i == map[]
      ensures target.ExistingFile? && ParseLines(FileLines(target.text)).Success? && !(defaultToken.Some? && defaultToken.value !in specialTokens) ==>
        r.Success? && r.value.i2t == KeptOnLoad(ParseLines(FileLines(target.text)).value, specialTokens, minFreq)
      ensures target.ExistingFile? && ParseLines(FileLines(target.text)).Failure? && !(defaultToken.Some? && defaultToken.value !in specialTokens) ==>
        r == Failure(MalformedLine(ParseLines(FileLines(target.text)).error))
      ensures target.MissingFile? && !(defaultToken.Some? && defaultToken.value !in specialTokens) ==>
        if target.parentIsDir then r.Success? && r.value.i2t == [] && r.value.t2i == map[]
        else r == Failure(LoadPathMissing)
    {
      if defaultToken.Some? && defaultToken.value !in specialTokens {
        return Failure(DefaultTokenNotSpecial);
      }
      var v := new SimpleVocabulary(specialTokens, defaultToken, maxTokens, minFreq, padWithZeros, unkToken);
      if target.NoLoadPath? {
        return Success(v);
      }
      var outcome := v.Load(target);
      if outcome.Fail? {
        return Failure(outcome.error);
      }
      return Success(v);
    }

    /** `reset`: an empty vocabulary. */
    method Reset()
      requires Valid()
      modifies this
      ensures Valid()
      ensures i2t == [] && t2i == map[] && count == 0 && freqs.None?
    {
      freqs := None;
      t2i := map[];
      i2t := [];
      count := 0;
    }

    /** `_t2i[token] = count; _i2t.append(token); count += 1`. */
    method Append(token: string)
      requires Valid() && freqs.Some?
      modifies this
      ensures Valid() && freqs == old(freqs)
      ensures i2t == old(i2t) + [token] && t2i == old(t2i)[token := old(count)] && count == old(count) + 1
    {
      forall t | t in i2t + [token]
        ensures LastIndex(i2t + [token], t) == if t == token then |i2t| else LastIndex(i2t, t)
      {
        LastIndexAppend(i2t, token, t);
      }
      t2i := t2i[token := count];
      i2t := i2t + [token];
      count := count + 1;
    }

    /** The special-token loop of `fit`: appends `ts` in order. */
    method AppendAll(ts: seq<string>)
      requires Valid() && freqs.Some?
      modifies this
      ensures Valid() && freqs == old(freqs)
      ensures i2t == old(i2t) + ts
      ensures forall t :: t in t2i <==> t in old(t2i) || t in ts
    {
      ghost var i2t0 := i2t;
      ghost var keys0 := t2i.Keys;
      var k := 0;
      while k < |ts|
        invariant 0 <= k <= |ts|
        invariant Valid() && freqs == old(freqs)
        invariant i2t == i2t0 + ts[..k]
        invariant forall t :: t in t2i <==> t in keys0 || t in ts[..k]
      {
        assert ts[..k + 1] == ts[..k] + [ts[k]];
        Append(ts[k]);
        k := k + 1;
      }
      assert ts[..k] == ts;
    }

    /** The most-common loop of `fit`: appends the tokens of `top` whose frequency reaches `min_freq`. */
    method AppendFrequent(top: seq<(string, nat)>)
      requires Valid() && freqs.Some?
      modifies this
      ensures Valid() && freqs == old(freqs)
      ensures i2t == old(i2t) + Firsts(Frequent(top, minFreq))
      ensures forall t :: t in t2i <==> t in old(t2i) || t in Firsts(Frequent(top, minFreq))
    {
      ghost var i2t0 := i2t;
      ghost var keys0 := t2i.Keys;
      var n := 0;
      while n < |top|
        invariant 0 <= n <= |top|
        invariant Valid() && freqs == old(freqs)
        invariant i2t == i2t0 + Firsts(Frequent(top[..n], minFreq))
        invariant forall t :: t in t2i <==> t in keys0 || t in Firsts(Frequent(top[..n], minFreq))
      {
        var (token, freq) := top[n];
        assert top[..n + 1][..n] == top[..n];
        ghost var before := Firsts(Frequent(top[..n], minFreq));
        if freq >= minFreq {
          assert Firsts(Frequent(top[..n + 1], minFreq)) == before + [token];
          Append(token);
        } else {
          assert Frequent(top[..n + 1], minFreq) == Frequent(top[..n], minFreq);
        }
        n := n + 1;
      }
      assert top[..n] == top;
    }

    /**
     * `fit(*args)`: the special tokens first, in their order, then the most
     * common corpus tokens as `FitTokens` selects them.
     */
    method Fit(args: seq<seq<StrBatch>>)
      requires Valid()
      modifies this
      ensures Valid()
      ensures i2t == FitTokens(specialTokens, Corpus(args), maxTokens, minFreq)
      ensures i2t[..|specialTokens|] == specialTokens
      ensures forall t :: t in t2i <==> t in i2t
      ensures freqs == Some(Counts(Corpus(args)))
    {
      Reset();
      var tokens := Corpus(args);
      freqs := Some(Counts(tokens));
      AppendAll(specialTokens);
      assert i2t == specialTokens;
      var mc := MostCommon(tokens);
      AppendFrequent(mc[..Min(maxTokens, |mc|)]);
      assert i2t == specialTokens + Firsts(Selected(tokens, maxTokens, minFreq));
      assert i2t[..|specialTokens|] == specialTokens;
    }

    /** The loop of `_add_tokens_with_freqs`: appends the tokens that loading keeps, in order. */
    method AppendKept(ps: seq<(string, int)>)
      requires Valid() && freqs.Some?
      modifies this
      ensures Valid() && freqs == old(freqs)
      ensures i2t == old(i2t) + KeptOnLoad(ps, specialTokens, minFreq)
      ensures forall t :: t in t2i <==> t in old(t2i) || t in KeptOnLoad(ps, specialTokens, minFreq)
    {
      ghost var i2t0 := i2t;
      ghost var keys0 := t2i.Keys;
      var n := 0;
      while n < |ps|
        invariant 0 <= n <= |ps|
        invariant Valid() && freqs == old(freqs)
        invariant i2t == i2t0 + KeptOnLoad(ps[..n], specialTokens, minFreq)
        invariant forall t :: t in t2i <==> t in keys0 || t in KeptOnLoad(ps[..n], specialTokens, minFreq)
      {
        var (token, freq) := ps[n];
        ghost var before := KeptOnLoad(ps[..n], specialTokens, minFreq);
        KeptOnLoadStep(ps, specialTokens, minFreq, n);
        if freq >= minFreq || token in specialTokens {
          Append(token);
          assert i2t == i2t0 + (before + [token]);
          assert forall t :: t in before + [token] <==> t in before || t == token;
        }
        n := n + 1;
      }
      assert ps[..n] == ps;
    }

    /** `_add_tokens_with_freqs`: records `dict(zip(tokens, freqs))` and appends the pairs loading keeps, in their order. */
    method AddTokensWithFreqs(tokens: seq<string>, counts: seq<int>)
      requires Valid()
      modifies this
      ensures Valid()
      ensures freqs == Some(LastWins(Zip(tokens, counts)))
      ensures i2t == old(i2t) + KeptOnLoad(Zip(tokens, counts), specialTokens, minFreq)
      ensures forall t :: t in t2i <==> t in old(t2i) || t in i2t
    {
      var ps := Zip(tokens, counts);
      freqs := Some(LastWins(ps));
      ghost var i2t0 := i2t;
      AppendKept(ps);
      assert forall t :: t in i2t0 ==> t in old(t2i);
    }

    /** `load`: reads saved `token\tcount` lines; a malformed line leaves the vocabulary empty. */
    method Load(target: LoadTarget) returns (r: Outcome<VocabError>)
      requires Valid()
      modifies this
      ensures Valid()
      ensures target.NoLoadPath? ==> r == Fail(LoadPathNotProvided) && i2t == [] && t2i == map[] && freqs.None?
      ensures target.MissingFile? ==> (r == if target.parentIsDir then Pass else Fail(LoadPathMissing)) && i2t == [] && t2i == map[] && freqs.None?
      ensures target.ExistingFile? && ParseLines(FileLines(target.text)).Failure? ==>
        r == Fail(MalformedLine(ParseLines(FileLines(target.text)).error)) && i2t == [] && t2i == map[] && freqs.None?
      ensures target.ExistingFile? && ParseLines(FileLines(target.text)).Success? ==>
        r == Pass && i2t == KeptOnLoad(ParseLines(FileLines(target.text)).value, specialTokens, minFreq)
        && freqs == Some(LastWins(ParseLines(FileLines(target.text)).value))
        && forall t :: t in t2i <==> t in i2t
    {
      Reset();
      match target
      case NoLoadPath =>
        return Fail(LoadPathNotProvided);
      case MissingFile(parentIsDir) =>
        return if parentIsDir then Pass else Fail(LoadPathMissing);
      case ExistingFile(text) =>
        var read := ReadLines(FileLines(text));
        if read.Failure? {
          return Fail(MalformedLine(read.error));
        }
        AddTokensWithFreqs(read.value.0, read.value.1);
        return Pass;
    }

    /** `save`: the text written, one `token\tcount\n` line per index, in index order. */
    method Save() returns (text: string)
      requires Valid()
      ensures text == Concat(SavedLines(i2t, freqs))
    {
      text := "";
      var n := 0;
      while n < |i2t|
        invariant 0 <= n <= |i2t|
        invariant text == Concat(SavedLines(i2t[..n], freqs))
      {
        var ln := SaveLine(i2t[n], FreqOf(freqs, i2t[n]));
        SavedLinesSnoc(i2t, freqs, n);
        ConcatSnoc(SavedLines(i2t[..n], freqs), ln);
        text := text + ln;
        n := n + 1;
      }
      assert i2t[..n] == i2t;
    }

    /** `__getitem__`: a str key that is not in `t2i` is inserted with the default index. */
    method GetItem(key: Key) returns (r: Result<Looked, LookupError>)
      requires Valid()
      modifies this`t2i
      ensures Valid()
      ensures r == LookupKey(i2t, UnkIndex(), key)
      ensures (r, t2i) == GetItemStep(i2t, old(t2i), UnkIndex(), key)
      ensures key.StrKey? ==> key.s in t2i
    {
      match key
      case IntKey(i) =>
        if 0 <= i < |i2t| {
          r := Success(Token(i2t[i]));
        } else if -|i2t| <= i < 0 {
          r := Success(Token(i2t[|i2t| + i]));
        } else {
          r := Failure(IndexOutOfRange(i));
        }
      case StrKey(s) =>
        CallStepIsLookup(i2t, t2i, UnkIndex(), Scalar(key));
        if s !in t2i {
          t2i := t2i[s := UnkIndex()];
        }
        r := Success(Index(t2i[s]));
      case OtherKey =>
        r := Failure(NotImplementedForType);
    }

    /**
     * `__call__` without zero padding: scalars are looked up directly,
     * lists element by element in order; the first failure is raised.
     */
    method Call(batch: Batch) returns (r: Result<Looked, LookupError>)
      requires Valid()
      modifies this`t2i
      ensures Valid()
      ensures (r, t2i) == CallStep(i2t, old(t2i), UnkIndex(), batch)
      ensures r == Lookup(i2t, UnkIndex(), batch)
      decreases batch
    {
      CallStepIsLookup(i2t, t2i, UnkIndex(), batch);
      match batch
      case Scalar(k) =>
        r := GetItem(k);
      case Items(bs) =>
        ghost var t2i0 := t2i;
        var out: seq<Looked> := [];
        var n := 0;
        while n < |bs|
          invariant 0 <= n <= |bs|
          invariant Valid()
          invariant CallAllStep(i2t, t2i0, UnkIndex(), bs[..n]) == (Success(out), t2i)
        {
          assert bs[..n + 1][..n] == bs[..n] && bs[..n + 1][n] == bs[n];
          var l := Call(bs[n]);
          if l.Failure? {
            CallAllStepFailureSticks(i2t, t2i0, UnkIndex(), bs, n + 1);
            return Failure(l.error);
          }
          out := out + [l.value];
          n := n + 1;
        }
        assert bs[..n] == bs;
        r := Success(Looked(out));
    }

    /** `__contains__`: a key of `t2i`, which includes every listed token. */
    function Contains(item: string): (b: bool)
      reads this
      requires Valid()
      ensures item in i2t ==> b
    {
      assert item in i2t ==> exists k :: 0 <= k < |i2t| && i2t[k] == item;
      item in t2i
    }

    /** `__len__`: the length of the index -> token list, which is `count`. */
    function Len(): (n: nat)
      reads this
      requires Valid()
      ensures n == count
    {
      |i2t|
    }
  }
}
