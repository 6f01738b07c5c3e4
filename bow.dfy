/**
 * The bag-of-words encoder of new_hcn/models/bow.py: one counter per
 * vocabulary entry, incremented for every space-separated word of the
 * utterance found in the vocabulary, at the word's first position there.
 */
module Bow {
  import opened Text

  /** The counts after reading `words`, starting from all zeros. */
  function BowOf(words: seq<string>, vocab: seq<string>): (b: seq<int>)
    ensures |b| == |vocab|
  {
    if words == [] then seq(|vocab|, _ => 0)
    else
      var b := BowOf(words[..|words| - 1], vocab);
      var w := words[|words| - 1];
      if w in vocab then b[FirstIndex(vocab, w) := b[FirstIndex(vocab, w)] + 1] else b
  }

  /** How many of the words are in the vocabulary. */
  function Known(words: seq<string>, vocab: seq<string>): (n: nat)
    ensures n <= |words|
  {
    if words == [] then 0
    else Known(words[..|words| - 1], vocab) + (if words[|words| - 1] in vocab then 1 else 0)
  }

  function Sum(s: seq<int>): int {
    if s == [] then 0 else s[0] + Sum(s[1..])
  }

  /**
   * The counter at a first occurrence of a word in the vocabulary is the
   * number of times that word was read; the counter at a repeated entry
   * stays 0.
   */
  lemma {:induction false} BowAt(words: seq<string>, vocab: seq<string>, i: nat)
    requires i < |vocab|
    ensures BowOf(words, vocab)[i] == if FirstIndex(vocab, vocab[i]) == i then Count(words, vocab[i]) else 0
  {
    if words != [] {
      var init := words[..|words| - 1];
      var w := words[|words| - 1];
      BowAt(init, vocab, i);
      assert words == init + [w];
      CountAppend(init, [w], vocab[i]);
      if w in vocab && FirstIndex(vocab, w) == i {
        assert w == vocab[i];
      }
      if w == vocab[i] {
        assert w in vocab;
      }
    }
  }

  /** Every counter is non-negative. */
  lemma {:induction false} BowNonNegative(words: seq<string>, vocab: seq<string>)
    ensures forall i :: 0 <= i < |vocab| ==> BowOf(words, vocab)[i] >= 0
  {
    forall i | 0 <= i < |vocab| ensures BowOf(words, vocab)[i] >= 0 {
      BowAt(words, vocab, i);
    }
  }

  /** A word outside the vocabulary changes nothing. */
  lemma BowIgnoresUnknown(words: seq<string>, vocab: seq<string>, w: string)
    requires w !in vocab
    ensures BowOf(words + [w], vocab) == BowOf(words, vocab)
  {
    assert (words + [w])[..|words|] == words;
  }

  lemma {:induction false} SumIncrement(s: seq<int>, i: nat)
    requires i < |s|
    ensures Sum(s[i := s[i] + 1]) == Sum(s) + 1
  {
    if i > 0 {
      SumIncrement(s[1..], i - 1);
      assert s[i := s[i] + 1][1..] == s[1..][i - 1 := s[1..][i - 1] + 1];
    }
  }

  lemma {:induction false} SumZeros(n: nat)
    ensures Sum(seq(n, _ => 0)) == 0
  {
    if n > 0 {
      SumZeros(n - 1);
      assert seq(n, _ => 0)[1..] == seq(n - 1, _ => 0);
    }
  }

  /** The counters add up to the number of words that are in the vocabulary. */
  lemma {:induction false} BowSum(words: seq<string>, vocab: seq<string>)
    ensures Sum(BowOf(words, vocab)) == Known(words, vocab)
  {
    if words == [] {
      SumZeros(|vocab|);
    } else {
      BowSum(words[..|words| - 1], vocab);
      var w := words[|words| - 1];
      if w in vocab {
        SumIncrement(BowOf(words[..|words| - 1], vocab), FirstIndex(vocab, w));
      }
    }
  }

  /** `_encode`: split the utterance on single spaces and count the known words into a zero vector. */
  method Encode(utterance: string, vocab: seq<string>) returns (bow: seq<int>)
    ensures bow == BowOf(Split(utterance, ' '), vocab)
  {
    var words := Split(utterance, ' ');
    var a := new int[|vocab|](_ => 0);
    var k := 0;
    while k < |words|
      invariant 0 <= k <= |words|
      invariant a[..] == BowOf(words[..k], vocab)
    {
      assert words[..k + 1][..k] == words[..k];
      var w := words[k];
      if w in vocab {
        var idx := FirstIndex(vocab, w);
        a[idx] := a[idx] + 1;
      }
      k := k + 1;
    }
    assert words[..k] == words;
    bow := a[..];
  }

  /** `infer`: the encoding, one non-negative count per vocabulary entry. */
  method Infer(utterance: string, vocab: seq<string>) returns (bow: seq<int>)
    ensures bow == BowOf(Split(utterance, ' '), vocab)
    ensures |bow| == |vocab| && forall i :: 0 <= i < |bow| ==> bow[i] >= 0
    ensures Sum(bow) == Known(Split(utterance, ' '), vocab)
  {
    bow := Encode(utterance, vocab);
    BowNonNegative(Split(utterance, ' '), vocab);
    BowSum(Split(utterance, ' '), vocab);
  }
}
