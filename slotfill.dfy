/**
 * The slot-filling component `DstcSlotFillingNetwork` of
 * deeppavlov/models/ner/slotfill.py: BIO chunking of tagged tokens into
 * (entity, slot) pairs, per-utterance slot dictionaries, and the check of
 * saved graph parameters and vocabularies against the current ones.
 *
 * The tagging network, the regex tokenizer and the fuzzy normalisation
 * `ner2slot` are parameters.
 */
module SlotFill {
  import opened Wrappers
  import opened Text
  import opened Json
  import opened Assoc

  // ---------------------------------------------------------------------
  // Tags
  // ---------------------------------------------------------------------

  predicate StartsWith(s: string, p: string) {
    |p| <= |s| && s[..|p|] == p
  }

  /** `tag.split('-')[-1].strip()`: the entity type a tag names. */
  function TagType(tag: string): string {
    var pieces := Split(tag, '-');
    Strip(pieces[|pieces| - 1])
  }

  /** `tag.split('-')[0]`: the B / I / O part of a tag. */
  function TagPrefix(tag: string): string {
    Split(tag, '-')[0]
  }

  /** A non-empty entity type without dashes or surrounding whitespace. */
  predicate IsEntityType(t: string) {
    t != "" && '-' !in t && Strip(t) == t
  }

  /** A tag of a BIO sequence: `O`, `B-<type>` or `I-<type>`. */
  predicate WellFormedTag(tag: string) {
    tag == "O" || (|tag| >= 2 && (tag[..2] == "B-" || tag[..2] == "I-") && IsEntityType(tag[2..]))
  }

  /** What the loop body reads off one tag. */
  datatype Reading = Reading(begins: bool, prefix: string, typ: string)

  /** `tag.startswith('B-')`, `tag.split('-')[0]` and `tag.split('-')[-1].strip()`. */
  function Read(tag: string): Reading {
    Reading(StartsWith(tag, "B-"), TagPrefix(tag), TagType(tag))
  }

  function ReadAll(tags: seq<string>): (rs: seq<Reading>)
    ensures |rs| == |tags| && forall i :: 0 <= i < |tags| ==> rs[i] == Read(tags[i])
  {
    seq(|tags|, i requires 0 <= i < |tags| => Read(tags[i]))
  }

  /** How the chunker reads `O`. */
  lemma OutsideTag()
    ensures Read("O") == Reading(false, "O", "O")
  {
    assert "O"[1..] == "" && "O"[0] == 'O';
    assert Split("", '-') == [""];
    assert Split("O", '-') == [['O'] + Split("", '-')[0]] + Split("", '-')[1..];
    assert ['O'] + "" == "O";
    assert Split("O", '-') == ["O"];
    assert StripLeft("O") == "O";
    assert StripRight("O") == "O";
  }

  /** How the chunker reads a well-formed `B-<type>` or `I-<type>` tag. */
  lemma EntityTag(tag: string)
    requires |tag| >= 2 && (tag[..2] == "B-" || tag[..2] == "I-") && IsEntityType(tag[2..])
    ensures Read(tag) == Reading(tag[..2] == "B-", if tag[..2] == "B-" then "B" else "I", tag[2..])
  {
    SplitEntityTag(tag);
    assert tag[..2] == "B-" ==> [tag[0]] == "B";
    assert tag[..2] == "I-" ==> [tag[0]] == "I";
  }

  /** A `B-<type>` or `I-<type>` tag splits at its one dash. */
  lemma SplitEntityTag(tag: string)
    requires |tag| >= 2 && (tag[..2] == "B-" || tag[..2] == "I-") && IsEntityType(tag[2..])
    ensures Split(tag, '-') == [[tag[0]], tag[2..]]
  {
    var t := tag[2..];
    SplitWithoutSeparator(t, '-');
    var tail := tag[1..];
    assert tail[0] == tag[..2][1] == '-' && tail[1..] == t;
    var rest := Split(tail, '-');
    assert rest == [""] + Split(t, '-');
    assert rest == ["", t];
    assert tag[0] == tag[..2][0] != '-';
    assert Split(tag, '-') == [[tag[0]] + rest[0]] + rest[1..];
    assert [tag[0]] + rest[0] == [tag[0]] && rest[1..] == [t];
  }

  /** A tag beginning with `B-` has `B` as its first piece. */
  lemma BeginTag(tag: string)
    requires StartsWith(tag, "B-")
    ensures TagPrefix(tag) == "B"
  {
    var tail := tag[1..];
    assert tail[0] == '-';
    assert Split(tail, '-')[0] == "";
    assert tag[0] == 'B';
    assert TagPrefix(tag) == [tag[0]] + Split(tail, '-')[0];
  }

  /** A reading the loop can meet: a `B-` tag has first piece `B`. */
  predicate Possible(r: Reading) {
    r.begins ==> r.prefix == "B"
  }

  lemma ReadPossible(tag: string)
    ensures Possible(Read(tag))
  {
    if StartsWith(tag, "B-") {
      BeginTag(tag);
    }
  }

  // ---------------------------------------------------------------------
  // _chunk_finder as a scan over the tagged tokens
  // ---------------------------------------------------------------------

  /** An entity: the positions of its tokens, the tokens themselves, and its slot name. */
  datatype Chunk = Chunk(indices: seq<nat>, words: seq<string>, slot: string)

  /**
   * The variables of the loop: `prev_tag`, `chunk_tokens` (with the
   * positions it was taken from) and the entities and slots emitted so far.
   */
  datatype Scan = Scan(prevTag: string, openIdx: seq<nat>, openWords: seq<string>, closed: seq<Chunk>)

  /** `if len(chunk_tokens) > 0`: emit the open chunk with `prev_tag` as its slot. */
  function Close(sc: Scan): Scan {
    if |sc.openWords| > 0 then Scan(sc.prevTag, [], [], sc.closed + [Chunk(sc.openIdx, sc.openWords, sc.prevTag)])
    else sc
  }

  /** `chunk_tokens.append(token)` for the token at position `i`. */
  function Extend(sc: Scan, i: nat, token: string): Scan {
    sc.(openIdx := sc.openIdx + [i], openWords := sc.openWords + [token])
  }

  /** One iteration of the loop, for `token` at position `i` whose tag reads `r`. */
  function Step(sc: Scan, i: nat, token: string, r: Reading): Scan {
    var afterB := if r.begins then Extend(Close(sc), i, token) else sc;
    var afterI :=
      if r.prefix != "I" then afterB
      else if r.typ != afterB.prevTag then Close(afterB)
      else Extend(afterB, i, token);
    var afterO := if r.prefix == "O" then Close(afterI) else afterI;
    afterO.(prevTag := r.typ)
  }

  /** The loop state after the first `n` tagged tokens. */
  function ScanTags(tokens: seq<string>, rs: seq<Reading>, n: nat): Scan
    requires n <= |tokens| && n <= |rs|
  {
    if n == 0 then Scan("", [], [], []) else Step(ScanTags(tokens, rs, n - 1), n - 1, tokens[n - 1], rs[n - 1])
  }

  /** The chunks `_chunk_finder` reports: the scan over `zip(tokens, tags)`, then the last open chunk. */
  function Found(tokens: seq<string>, tags: seq<string>): seq<Chunk> {
    Close(ScanTags(tokens, ReadAll(tags), Min(|tokens|, |tags|))).closed
  }

  /** The entity strings: `' '.join(chunk_tokens)` for each chunk. */
  function Entities(cs: seq<Chunk>): (r: seq<string>)
    ensures |r| == |cs| && forall k :: 0 <= k < |cs| ==> r[k] == Join(" ", cs[k].words)
  {
    seq(|cs|, k requires 0 <= k < |cs| => Join(" ", cs[k].words))
  }

  function SlotNames(cs: seq<Chunk>): (r: seq<string>)
    ensures |r| == |cs| && forall k :: 0 <= k < |cs| ==> r[k] == cs[k].slot
  {
    seq(|cs|, k requires 0 <= k < |cs| => cs[k].slot)
  }

  /** All token positions of the chunks, in order. */
  function AllIndices(cs: seq<Chunk>): seq<nat> {
    if cs == [] then [] else AllIndices(cs[..|cs| - 1]) + cs[|cs| - 1].indices
  }

  /** The positions a scan has taken into chunks, closed or open. */
  function Taken(sc: Scan): seq<nat> {
    AllIndices(sc.closed) + sc.openIdx
  }


  /** The words of a chunk are the tokens at its positions. */
  predicate WordsAt(tokens: seq<string>, idx: seq<nat>, words: seq<string>) {
    |words| == |idx| && forall k :: 0 <= k < |idx| ==> idx[k] < |tokens| && words[k] == tokens[idx[k]]
  }

  /** The facts the scan keeps about positions and words, whatever the tags. */
  ghost predicate Good(tokens: seq<string>, sc: Scan, n: nat) {
    && Increasing(Taken(sc))
    && (forall k :: 0 <= k < |Taken(sc)| ==> Taken(sc)[k] < n)
    && WordsAt(tokens, sc.openIdx, sc.openWords)
    && (forall c :: c in sc.closed ==> |c.indices| > 0 && WordsAt(tokens, c.indices, c.words))
  }

  lemma CloseGood(tokens: seq<string>, sc: Scan, n: nat)
    requires Good(tokens, sc, n)
    ensures Good(tokens, Close(sc), n) && Taken(Close(sc)) == Taken(sc)
    ensures Close(sc).openIdx == [] && Close(sc).prevTag == sc.prevTag
  {
    if |sc.openWords| > 0 {
      var cs := sc.closed + [Chunk(sc.openIdx, sc.openWords, sc.prevTag)];
      assert cs[..|cs| - 1] == sc.closed;
    }
  }

  lemma ExtendGood(tokens: seq<string>, sc: Scan, i: nat)
    requires Good(tokens, sc, i) && i < |tokens|
    ensures Good(tokens, Extend(sc, i, tokens[i]), i + 1) && Taken(Extend(sc, i, tokens[i])) == Taken(sc) + [i]
  {
    var e := Extend(sc, i, tokens[i]);
    assert Taken(e) == AllIndices(sc.closed) + (sc.openIdx + [i]);
    assert Taken(e) == Taken(sc) + [i];
  }

  lemma WidenGood(tokens: seq<string>, sc: Scan, n: nat)
    requires Good(tokens, sc, n)
    ensures Good(tokens, sc, n + 1)
  {
  }

  /** One step keeps `Good`, takes position `i` or nothing, and takes the token of a `B-` tag. */
  lemma StepGood(tokens: seq<string>, sc: Scan, i: nat, r: Reading)
    requires Good(tokens, sc, i) && i < |tokens| && Possible(r)
    ensures Good(tokens, Step(sc, i, tokens[i], r), i + 1)
    ensures r.begins ==> Taken(Step(sc, i, tokens[i], r)) == Taken(sc) + [i]
    ensures Taken(Step(sc, i, tokens[i], r)) == Taken(sc)
         || Taken(Step(sc, i, tokens[i], r)) == Taken(sc) + [i]
  {
    var token := tokens[i];
    CloseGood(tokens, sc, i);
    var afterB := if r.begins then Extend(Close(sc), i, token) else sc;
    if r.begins {
      ExtendGood(tokens, Close(sc), i);
    } else {
      WidenGood(tokens, sc, i);
    }
    assert Good(tokens, afterB, i + 1);
    CloseGood(tokens, afterB, i + 1);
    var afterI :=
      if r.prefix != "I" then afterB
      else if r.typ != afterB.prevTag then Close(afterB)
      else Extend(afterB, i, token);
    if r.prefix == "I" && r.typ == afterB.prevTag {
      // a `B-` tag never reaches here, so nothing was taken yet at `i`
      assert afterB == sc;
      ExtendGood(tokens, sc, i);
    }
    assert Good(tokens, afterI, i + 1);
    CloseGood(tokens, afterI, i + 1);
  }

  /** Positions only grow, stay below the scanned length, and every `B-` token is taken. */
  lemma {:induction false} ScanGood(tokens: seq<string>, rs: seq<Reading>, n: nat)
    requires n <= |tokens| && n <= |rs| && forall i :: 0 <= i < |rs| ==> Possible(rs[i])
    ensures Good(tokens, ScanTags(tokens, rs, n), n)
    ensures forall i :: 0 <= i < n && rs[i].begins ==> i in Taken(ScanTags(tokens, rs, n))
  {
    if n > 0 {
      var sc := ScanTags(tokens, rs, n - 1);
      ScanGood(tokens, rs, n - 1);
      StepGood(tokens, sc, n - 1, rs[n - 1]);
      var t := Taken(ScanTags(tokens, rs, n));
      assert forall i :: 0 <= i < n - 1 && rs[i].begins ==> i in t;
    }
  }

  /** A strictly increasing sequence of positions below `n` has at most `n` elements. */
  lemma {:induction false} IncreasingBelow(s: seq<nat>, n: nat)
    requires Increasing(s) && forall k :: 0 <= k < |s| ==> s[k] < n
    ensures |s| <= n
  {
    if s != [] {
      var last := s[|s| - 1];
      IncreasingBelow(s[..|s| - 1], last);
    }
  }

  lemma ReadAllPossible(tags: seq<string>)
    ensures forall i :: 0 <= i < |tags| ==> Possible(ReadAll(tags)[i])
  {
    forall i | 0 <= i < |tags| ensures Possible(ReadAll(tags)[i]) {
      ReadPossible(tags[i]);
    }
  }

  /** The positions of every chunk occur among all positions. */
  lemma {:induction false} AllIndicesContains(cs: seq<Chunk>, c: Chunk)
    requires c in cs
    ensures forall x :: x in c.indices ==> x in AllIndices(cs)
  {
    var last := cs[|cs| - 1];
    if c != last {
      assert c in cs[..|cs| - 1];
      AllIndicesContains(cs[..|cs| - 1], c);
    }
  }

  /**
   * The reported chunks are non-empty and hold the tokens at their
   * positions; the positions are distinct and increasing across chunks, so at
   * most `min(len(tokens), len(tags))` tokens are used in all; and every `B-`
   * token within that range belongs to a chunk.
   */
  lemma FoundBounds(tokens: seq<string>, tags: seq<string>)
    ensures var n := Min(|tokens|, |tags|); var all := AllIndices(Found(tokens, tags));
      && Increasing(all)
      && (forall k :: 0 <= k < |all| ==> all[k] < n)
      && |all| <= n
      && (forall c :: c in Found(tokens, tags) ==> |c.indices| > 0 && WordsAt(tokens, c.indices, c.words))
      && (forall i :: 0 <= i < n && StartsWith(tags[i], "B-") ==> i in all)
  {
    var n := Min(|tokens|, |tags|);
    var rs := ReadAll(tags);
    var sc := ScanTags(tokens, rs, n);
    ReadAllPossible(tags);
    ScanGood(tokens, rs, n);
    CloseGood(tokens, sc, n);
    assert AllIndices(Found(tokens, tags)) == Taken(Close(sc));
    IncreasingBelow(AllIndices(Found(tokens, tags)), n);
  }

  /** Tags that neither begin nor continue an entity produce no entities. */
  lemma {:induction false} ScanNone(tokens: seq<string>, rs: seq<Reading>, n: nat)
    requires n <= |tokens| && n <= |rs|
    requires forall i :: 0 <= i < n ==> !rs[i].begins && rs[i].prefix != "I"
    ensures ScanTags(tokens, rs, n).openWords == [] && ScanTags(tokens, rs, n).closed == []
  {
    if n > 0 {
      ScanNone(tokens, rs, n - 1);
    }
  }

  /** An all-`O` tag sequence, or an empty one, yields no entities. */
  lemma FoundNoneForOutside(tokens: seq<string>, tags: seq<string>)
    requires forall i :: 0 <= i < |tags| ==> tags[i] == "O"
    ensures Found(tokens, tags) == []
  {
    OutsideTag();
    ScanNone(tokens, ReadAll(tags), Min(|tokens|, |tags|));
  }

  /** Consecutive positions. */
  predicate Contiguous(s: seq<nat>) {
    |s| > 0 && forall k :: 0 <= k < |s| ==> s[k] == s[0] + k
  }

  /** A reading of a BIO tag: `O`, or `B`/`I` with its type. */
  predicate BioReading(r: Reading) {
    (!r.begins && r.prefix == "O" && r.typ == "O") || (r.begins && r.prefix == "B") || (!r.begins && r.prefix == "I")
  }

  /** Under BIO tags: every chunk is a run of consecutive positions whose tags all carry the chunk's slot. */
  ghost predicate RunsOfType(rs: seq<Reading>, sc: Scan, n: nat)
    requires n <= |rs|
  {
    && (forall c :: c in sc.closed ==>
          Contiguous(c.indices) && forall x :: x in c.indices ==> x < n && rs[x].typ == c.slot)
    && (|sc.openIdx| == |sc.openWords|)
    && (sc.openIdx != [] ==>
          Contiguous(sc.openIdx) && sc.openIdx[|sc.openIdx| - 1] + 1 == n
          && forall x :: x in sc.openIdx ==> x < n && rs[x].typ == sc.prevTag)
    && (n > 0 ==> sc.prevTag == rs[n - 1].typ)
  }

  lemma {:induction false} ScanRuns(tokens: seq<string>, rs: seq<Reading>, n: nat)
    requires n <= |tokens| && n <= |rs|
    requires forall i :: 0 <= i < n ==> BioReading(rs[i])
    ensures RunsOfType(rs, ScanTags(tokens, rs, n), n)
  {
    if n > 0 {
      var i := n - 1;
      var r := rs[i];
      var sc := ScanTags(tokens, rs, i);
      ScanRuns(tokens, rs, i);
      var c := Close(sc);
      CloseRuns(rs, sc, i);
      if r.prefix == "O" {
        assert ScanTags(tokens, rs, n) == c.(prevTag := r.typ);
        ClosedRunsNext(rs, c, i);
      } else if r.begins {
        assert ScanTags(tokens, rs, n) == Scan(r.typ, [i], [tokens[i]], c.closed);
        BeginRunsNext(rs, c, i, tokens[i]);
      } else if r.typ != sc.prevTag {
        assert ScanTags(tokens, rs, n) == c.(prevTag := r.typ);
        ClosedRunsNext(rs, c, i);
      } else {
        assert ScanTags(tokens, rs, n) == Extend(sc, i, tokens[i]);
        ExtendRunsNext(rs, sc, i, tokens[i]);
      }
    }
  }

  /** Emitting the open chunk keeps the runs. */
  lemma CloseRuns(rs: seq<Reading>, sc: Scan, n: nat)
    requires n <= |rs| && RunsOfType(rs, sc, n)
    ensures RunsOfType(rs, Close(sc), n) && Close(sc).openIdx == []
  {
  }

  /** With no open chunk, a tag that opens none keeps the runs one position further. */
  lemma ClosedRunsNext(rs: seq<Reading>, sc: Scan, i: nat)
    requires i < |rs| && RunsOfType(rs, sc, i) && sc.openIdx == []
    ensures RunsOfType(rs, sc.(prevTag := rs[i].typ), i + 1)
  {
  }

  /** A `B-` tag opens a run of one position, of its own type. */
  lemma BeginRunsNext(rs: seq<Reading>, sc: Scan, i: nat, token: string)
    requires i < |rs| && RunsOfType(rs, sc, i) && sc.openIdx == []
    ensures RunsOfType(rs, Scan(rs[i].typ, [i], [token], sc.closed), i + 1)
  {
  }

  /** An `I-` tag of the open run's type extends it by one position. */
  lemma ExtendRunsNext(rs: seq<Reading>, sc: Scan, i: nat, token: string)
    requires i < |rs| && RunsOfType(rs, sc, i) && rs[i].typ == sc.prevTag
    ensures RunsOfType(rs, Extend(sc, i, token), i + 1)
  {
    var e := Extend(sc, i, token);
    if sc.openIdx != [] {
      assert Contiguous(e.openIdx) by {
        forall k | 0 <= k < |e.openIdx| ensures e.openIdx[k] == e.openIdx[0] + k {
          if k < |sc.openIdx| {
            assert e.openIdx[k] == sc.openIdx[k];
          }
        }
      }
    }
    forall x | x in e.openIdx ensures x < i + 1 && rs[x].typ == e.prevTag {
      if x != i {
        assert x in sc.openIdx;
      }
    }
  }

  lemma BioReadings(tags: seq<string>, n: nat)
    requires n <= |tags| && forall i :: 0 <= i < n ==> WellFormedTag(tags[i])
    ensures forall i :: 0 <= i < n ==> BioReading(ReadAll(tags)[i]) && ReadAll(tags)[i].typ == TagType(tags[i])
  {
    forall i | 0 <= i < n ensures BioReading(ReadAll(tags)[i]) {
      if tags[i] == "O" {
        OutsideTag();
      } else {
        EntityTag(tags[i]);
      }
    }
  }

  /** A chunk whose positions are the run `a..a+|indices|` inside the first `n` tokens, and whose words are that slice. */
  predicate SliceChunk(tokens: seq<string>, c: Chunk, n: nat) {
    && Contiguous(c.indices)
    && c.indices[0] + |c.indices| <= n <= |tokens|
    && c.words == tokens[c.indices[0]..c.indices[0] + |c.indices|]
  }

  /**
   * Under BIO tags every entity is the space-join of a run `tokens[a..b]`
   * whose tags all have the entity's slot as their type.
   */
  lemma FoundRuns(tokens: seq<string>, tags: seq<string>)
    requires forall i :: 0 <= i < Min(|tokens|, |tags|) ==> WellFormedTag(tags[i])
    ensures forall c :: c in Found(tokens, tags) ==>
      && SliceChunk(tokens, c, Min(|tokens|, |tags|))
      && (forall x :: x in c.indices ==> TagType(tags[x]) == c.slot)
  {
    var n := Min(|tokens|, |tags|);
    FoundTypes(tokens, tags);
    FoundBounds(tokens, tags);
    RunsAreSlices(tokens, Found(tokens, tags), n);
  }

  /** Under BIO tags every chunk is a run of positions whose tags have the chunk's slot as their type. */
  lemma FoundTypes(tokens: seq<string>, tags: seq<string>)
    requires forall i :: 0 <= i < Min(|tokens|, |tags|) ==> WellFormedTag(tags[i])
    ensures forall c :: c in Found(tokens, tags) ==>
      Contiguous(c.indices) && forall x :: x in c.indices ==> x < Min(|tokens|, |tags|) && TagType(tags[x]) == c.slot
  {
    var n := Min(|tokens|, |tags|);
    var rs := ReadAll(tags);
    BioReadings(tags, n);
    ScanRuns(tokens, rs, n);
    var sc := ScanTags(tokens, rs, n);
    CloseRuns(rs, sc, n);
    var cs := Close(sc).closed;
    assert cs == Found(tokens, tags);
    forall c | c in cs
      ensures Contiguous(c.indices) && forall x :: x in c.indices ==> x < n && TagType(tags[x]) == c.slot
    {
      assert forall x :: x in c.indices ==> x < n && rs[x].typ == c.slot;
    }
  }

  lemma RunsAreSlices(tokens: seq<string>, cs: seq<Chunk>, n: nat)
    requires n <= |tokens|
    requires forall c :: c in cs ==> Contiguous(c.indices) && forall x :: x in c.indices ==> x < n
    requires forall c :: c in cs ==> WordsAt(tokens, c.indices, c.words)
    ensures forall c :: c in cs ==> SliceChunk(tokens, c, n)
  {
    forall c | c in cs ensures SliceChunk(tokens, c, n) {
      var last := c.indices[|c.indices| - 1];
      assert last in c.indices;
      RunWords(tokens, c.indices, c.words);
    }
  }

  /** The words at a run of positions are a slice of the tokens. */
  lemma RunWords(tokens: seq<string>, idx: seq<nat>, words: seq<string>)
    requires Contiguous(idx) && WordsAt(tokens, idx, words)
    ensures idx[0] + |idx| <= |tokens| && words == tokens[idx[0]..idx[0] + |idx|]
  {
    assert idx[|idx| - 1] < |tokens|;
    var slice := tokens[idx[0]..idx[0] + |idx|];
    forall k | 0 <= k < |words| ensures words[k] == slice[k] {
      assert idx[k] == idx[0] + k;
    }
  }

  /** The loop variables hold what the scan `sc` describes. */
  ghost predicate Mirrors(sc: Scan, prevTag: string, chunkTokens: seq<string>, entities: seq<string>, slots: seq<string>) {
    prevTag == sc.prevTag && chunkTokens == sc.openWords && entities == Entities(sc.closed) && slots == SlotNames(sc.closed)
  }

  /** `_chunk_finder(tokens, tags)`: the entities and their slots, one pair per reported chunk. */
  method ChunkFinder(tokens: seq<string>, tags: seq<string>) returns (entities: seq<string>, slots: seq<string>)
    ensures entities == Entities(Found(tokens, tags))
    ensures slots == SlotNames(Found(tokens, tags))
    ensures |entities| == |slots|
  {
    var n := Min(|tokens|, |tags|);
    var prevTag := "";
    var chunkTokens: seq<string> := [];
    entities := [];
    slots := [];
    ghost var rs := ReadAll(tags);
    var i := 0;
    while i < n
      invariant 0 <= i <= n
      invariant Mirrors(ScanTags(tokens, rs, i), prevTag, chunkTokens, entities, slots)
    {
      prevTag, chunkTokens, entities, slots := ChunkNext(tokens, tags, i, prevTag, chunkTokens, entities, slots);
      i := i + 1;
    }
    ghost var sc := ScanTags(tokens, rs, n);
    CloseOutputs(sc);
    entities, slots, chunkTokens := Flush(entities, slots, chunkTokens, prevTag);
  }

  /** The loop body of `_chunk_finder`: the token and tag at position `i` are scanned. */
  method ChunkNext(tokens: seq<string>, tags: seq<string>, i: nat,
                   prevTag: string, chunkTokens: seq<string>, entities: seq<string>, slots: seq<string>)
    returns (prevTag': string, chunkTokens': seq<string>, entities': seq<string>, slots': seq<string>)
    requires i < |tokens| && i < |tags|
    requires Mirrors(ScanTags(tokens, ReadAll(tags), i), prevTag, chunkTokens, entities, slots)
    ensures Mirrors(ScanTags(tokens, ReadAll(tags), i + 1), prevTag', chunkTokens', entities', slots')
  {
    ghost var sc := ScanTags(tokens, ReadAll(tags), i);
    var r := Read(tags[i]);
    ReadPossible(tags[i]);
    prevTag', chunkTokens', entities', slots' := ChunkStep(sc, i, tokens[i], r.begins, r.prefix, r.typ, prevTag, chunkTokens, entities, slots);
  }

  /**
   * One pass of the loop body of `_chunk_finder`, for `token` at position
   * `i` whose tag starts with `B-` (`begins`), has first piece `prefix` and
   * type `curTag`.
   */
  method ChunkStep(ghost sc: Scan, ghost i: nat, token: string, begins: bool, prefix: string, curTag: string,
                   prevTag: string, chunkTokens: seq<string>, entities: seq<string>, slots: seq<string>)
    returns (prevTag': string, chunkTokens': seq<string>, entities': seq<string>, slots': seq<string>)
    requires Possible(Reading(begins, prefix, curTag))
    requires Mirrors(sc, prevTag, chunkTokens, entities, slots)
    ensures Mirrors(Step(sc, i, token, Reading(begins, prefix, curTag)), prevTag', chunkTokens', entities', slots')
  {
    chunkTokens', entities', slots' := chunkTokens, entities, slots;
    ghost var s := sc;
    if begins {
      CloseOutputs(s);
      entities', slots', chunkTokens' := Flush(entities', slots', chunkTokens', prevTag);
      chunkTokens' := chunkTokens' + [token];
      s := Extend(Close(s), i, token);
    }
    if prefix == "I" {
      if curTag != prevTag {
        CloseOutputs(s);
        entities', slots', chunkTokens' := Flush(entities', slots', chunkTokens', prevTag);
        s := Close(s);
      } else {
        chunkTokens' := chunkTokens' + [token];
        s := Extend(s, i, token);
      }
    }
    if prefix == "O" {
      CloseOutputs(s);
      entities', slots', chunkTokens' := Flush(entities', slots', chunkTokens', prevTag);
      s := Close(s);
    }
    prevTag' := curTag;
    StepCases(sc, i, token, Reading(begins, prefix, curTag));
  }

  /** `Step` spelled out by the kind of tag. */
  lemma StepCases(sc: Scan, i: nat, token: string, r: Reading)
    requires Possible(r)
    ensures r.begins ==> Step(sc, i, token, r) == Extend(Close(sc), i, token).(prevTag := r.typ)
    ensures !r.begins && r.prefix == "I" && r.typ != sc.prevTag ==> Step(sc, i, token, r) == Close(sc).(prevTag := r.typ)
    ensures !r.begins && r.prefix == "I" && r.typ == sc.prevTag ==> Step(sc, i, token, r) == Extend(sc, i, token).(prevTag := r.typ)
    ensures !r.begins && r.prefix == "O" ==> Step(sc, i, token, r) == Close(sc).(prevTag := r.typ)
    ensures !r.begins && r.prefix != "I" && r.prefix != "O" ==> Step(sc, i, token, r) == sc.(prevTag := r.typ)
  {
  }

  /** Closing appends the joined open chunk and its slot to the outputs, if it is not empty. */
  lemma CloseOutputs(sc: Scan)
    ensures Entities(Close(sc).closed) == Entities(sc.closed) + (if |sc.openWords| > 0 then [Join(" ", sc.openWords)] else [])
    ensures SlotNames(Close(sc).closed) == SlotNames(sc.closed) + (if |sc.openWords| > 0 then [sc.prevTag] else [])
    ensures Close(sc).openWords == (if |sc.openWords| > 0 then [] else sc.openWords)
    ensures Close(sc).prevTag == sc.prevTag
  {
  }

  /** `if len(chunk_tokens) > 0`: append the joined chunk and its slot, and empty the chunk. */
  method Flush(entities: seq<string>, slots: seq<string>, chunkTokens: seq<string>, prevTag: string)
    returns (entities': seq<string>, slots': seq<string>, chunkTokens': seq<string>)
    ensures |chunkTokens| > 0 ==>
      entities' == entities + [Join(" ", chunkTokens)] && slots' == slots + [prevTag] && chunkTokens' == []
    ensures |chunkTokens| == 0 ==> entities' == entities && slots' == slots && chunkTokens' == chunkTokens
  {
    entities', slots', chunkTokens' := entities, slots, chunkTokens;
    if |chunkTokens| > 0 {
      entities' := entities + [Join(" ", chunkTokens)];
      slots' := slots + [prevTag];
      chunkTokens' := [];
    }
  }

  // ---------------------------------------------------------------------
  // predict_slots
  // ---------------------------------------------------------------------

  /** The writes `slot_values[slot] = ner2slot(entity, slot)` over `zip(entities, slots)`, in order. */
  function SlotWrites(entities: seq<string>, slots: seq<string>, normalize: (string, string) -> string): (ps: seq<(string, string)>)
    ensures |ps| == Min(|entities|, |slots|)
    ensures forall k :: 0 <= k < |ps| ==> ps[k] == (slots[k], normalize(entities[k], slots[k]))
  {
    seq(Min(|entities|, |slots|), k requires 0 <= k < Min(|entities|, |slots|) => (slots[k], normalize(entities[k], slots[k])))
  }

  /** The dictionary `predict_slots` returns; `normalize` stands for `ner2slot`. */
  function SlotValues(tokens: seq<string>, tags: seq<string>, normalize: (string, string) -> string): map<string, string> {
    var cs := Found(tokens, tags);
    LastWins(SlotWrites(Entities(cs), SlotNames(cs), normalize))
  }

  /** `predict_slots`: chunk the utterance, then normalise each entity into its slot. */
  method PredictSlots(tokens: seq<string>, tags: seq<string>, normalize: (string, string) -> string)
    returns (values: map<string, string>)
    ensures values == SlotValues(tokens, tags, normalize)
  {
    var entities, slots := ChunkFinder(tokens, tags);
    values := WriteSlots(entities, slots, normalize);
  }

  /** The loop `for entity, slot in zip(entities, slots): slot_values[slot] = ner2slot(entity, slot)`. */
  method WriteSlots(entities: seq<string>, slots: seq<string>, normalize: (string, string) -> string)
    returns (values: map<string, string>)
    requires |entities| == |slots|
    ensures values == LastWins(SlotWrites(entities, slots, normalize))
  {
    ghost var ps := SlotWrites(entities, slots, normalize);
    values := map[];
    var k := 0;
    while k < |entities|
      invariant 0 <= k <= |entities|
      invariant values == LastWins(ps[..k])
    {
      assert ps[..k + 1][..k] == ps[..k];
      values := values[slots[k] := normalize(entities[k], slots[k])];
      k := k + 1;
    }
    assert ps[..k] == ps;
  }

  /**
   * The slots filled are exactly those of the entities found, and a slot
   * found several times holds the normalised value of its last entity.
   */
  lemma SlotValuesMeaning(tokens: seq<string>, tags: seq<string>, normalize: (string, string) -> string)
    ensures forall s :: s in SlotValues(tokens, tags, normalize) <==> s in SlotNames(Found(tokens, tags))
    ensures forall k :: 0 <= k < |Found(tokens, tags)| && LastOfSlot(Found(tokens, tags), k) ==>
      var c := Found(tokens, tags)[k];
      c.slot in SlotValues(tokens, tags, normalize) && SlotValues(tokens, tags, normalize)[c.slot] == normalize(Join(" ", c.words), c.slot)
  {
    var cs := Found(tokens, tags);
    var ps := SlotWrites(Entities(cs), SlotNames(cs), normalize);
    LastWinsMeaning(ps);
    assert forall s :: s in SlotNames(cs) <==> exists k :: 0 <= k < |ps| && ps[k].0 == s by {
      forall s | s in SlotNames(cs) ensures exists k :: 0 <= k < |ps| && ps[k].0 == s {
        var k :| 0 <= k < |cs| && SlotNames(cs)[k] == s;
        assert ps[k].0 == s;
      }
    }
    forall k | 0 <= k < |cs| && LastOfSlot(cs, k)
      ensures cs[k].slot in LastWins(ps) && LastWins(ps)[cs[k].slot] == normalize(Join(" ", cs[k].words), cs[k].slot)
    {
      LastWinsAt(ps, k);
    }
  }

  /** No chunk after the `k`-th has its slot. */
  predicate LastOfSlot(cs: seq<Chunk>, k: nat)
    requires k < |cs|
  {
    forall j :: k < j < |cs| ==> cs[j].slot != cs[k].slot
  }

  // ---------------------------------------------------------------------
  // __call__
  // ---------------------------------------------------------------------

  /** A batch of raw utterances, or of utterances already split into tokens. */
  datatype Batch = Texts(texts: seq<string>) | TokenLists(lists: seq<seq<string>>)

  /** `batch[0]` on an empty batch. */
  datatype CallError = IndexError

  /** The token lists of a batch; raw texts are stripped and tokenized. */
  function Utterances(batch: Batch, tokenize: string -> seq<string>): (us: seq<seq<string>>)
    ensures |us| == (if batch.Texts? then |batch.texts| else |batch.lists|)
  {
    match batch
    case Texts(ts) => seq(|ts|, i requires 0 <= i < |ts| => tokenize(Strip(ts[i])))
    case TokenLists(ls) => ls
  }

  /** `m`: the positions of the non-empty utterances, in order. */
  function NonEmpty(us: seq<seq<string>>): (m: seq<nat>)
    ensures forall j :: 0 <= j < |m| ==> m[j] < |us|
  {
    if us == [] then [] else NonEmpty(us[..|us| - 1]) + (if us[|us| - 1] != [] then [|us| - 1] else [])
  }

  /** `m` lists every non-empty utterance, and only those, in increasing order. */
  lemma {:induction false} NonEmptyMeaning(us: seq<seq<string>>)
    ensures Increasing(NonEmpty(us))
    ensures forall i :: i in NonEmpty(us) <==> 0 <= i < |us| && us[i] != []
  {
    if us != [] {
      var init := us[..|us| - 1];
      NonEmptyMeaning(init);
      assert forall i :: 0 <= i < |init| ==> init[i] == us[i];
    }
  }

  /** `[batch[i] for i in m]`. */
  function Pick(us: seq<seq<string>>, m: seq<nat>): (kept: seq<seq<string>>)
    requires forall j :: 0 <= j < |m| ==> m[j] < |us|
    ensures |kept| == |m| && forall j :: 0 <= j < |m| ==> kept[j] == us[m[j]]
  {
    seq(|m|, j requires 0 <= j < |m| => us[m[j]])
  }

  /** The network is handed the non-empty utterances and nothing else. */
  lemma PickNonEmpty(us: seq<seq<string>>)
    ensures forall u :: u in Pick(us, NonEmpty(us)) ==> u != [] && u in us
    ensures |Pick(us, NonEmpty(us))| == |us| - Count(us, [])
  {
    NonEmptyMeaning(us);
    NonEmptyCount(us);
  }

  lemma {:induction false} NonEmptyCount(us: seq<seq<string>>)
    ensures |NonEmpty(us)| == |us| - Count(us, [])
  {
    if us != [] {
      NonEmptyCount(us[..|us| - 1]);
      CountAppend(us[..|us| - 1], [us[|us| - 1]], []);
      assert us[..|us| - 1] + [us[|us| - 1]] == us;
    }
  }

  /** `predict_slots` as a function of the tokens and tags of one utterance. */
  function SlotsFor(normalize: (string, string) -> string): (f: (seq<string>, seq<string>) -> map<string, string>)
    ensures forall tokens, tags :: f(tokens, tags) == SlotValues(tokens, tags, normalize)
  {
    (tokens, tags) => SlotValues(tokens, tags, normalize)
  }

  /**
   * `slots` after the first `n` writes `slots[m[j]] = slotsOf(batch[j], tags_batch[j])`,
   * starting from one empty dict per utterance.
   */
  function Filled(us: seq<seq<string>>, m: seq<nat>, tagsBatch: seq<seq<string>>,
                  slotsOf: (seq<string>, seq<string>) -> map<string, string>, n: nat): (out: seq<map<string, string>>)
    requires n <= |m| && n <= |tagsBatch|
    requires forall j :: 0 <= j < |m| ==> m[j] < |us|
    ensures |out| == |us|
  {
    if n == 0 then seq(|us|, _ => map[])
    else Filled(us, m, tagsBatch, slotsOf, n - 1)[m[n - 1] := slotsOf(us[m[n - 1]], tagsBatch[n - 1])]
  }

  /** The value `__call__` returns, or the error it raises. */
  function CallResult(batch: Batch, tokenize: string -> seq<string>, predict: seq<seq<string>> -> seq<seq<string>>,
                      normalize: (string, string) -> string): Result<seq<map<string, string>>, CallError>
  {
    var us := Utterances(batch, tokenize);
    if us == [] then Failure(IndexError)
    else
      var m := NonEmpty(us);
      var tagsBatch := predict(Pick(us, m));
      Success(Filled(us, m, tagsBatch, SlotsFor(normalize), Min(|m|, |tagsBatch|)))
  }

  /**
   * `__call__`: one slot dictionary per utterance; `predict` stands for the
   * tagging network, `tokenize` for `tokenize_reg`, `normalize` for `ner2slot`.
   */
  method Call(batch: Batch, tokenize: string -> seq<string>, predict: seq<seq<string>> -> seq<seq<string>>,
              normalize: (string, string) -> string)
    returns (r: Result<seq<map<string, string>>, CallError>)
    ensures r == CallResult(batch, tokenize, predict, normalize)
  {
    var us := Utterances(batch, tokenize);
    if |us| == 0 {
      return Failure(IndexError);
    }
    var m := NonEmpty(us);
    var out: seq<map<string, string>> := seq(|us|, _ => map[]);
    if m != [] {
      var tags := predict(Pick(us, m));
      out := FillSlots(us, m, tags, normalize);
    }
    r := Success(out);
  }

  /**
   * `slots = [{}] * len(batch)` followed by the loop over
   * `zip(m, batch, tags_batch)` that assigns `slots[i]`.
   */
  method FillSlots(us: seq<seq<string>>, m: seq<nat>, tags: seq<seq<string>>, normalize: (string, string) -> string)
    returns (out: seq<map<string, string>>)
    requires forall j :: 0 <= j < |m| ==> m[j] < |us|
    ensures out == Filled(us, m, tags, SlotsFor(normalize), Min(|m|, |tags|))
  {
    var n := if |m| < |tags| then |m| else |tags|;
    out := Filled(us, m, tags, SlotsFor(normalize), 0);  // `[{}] * len(batch)`
    for j := 0 to n
      invariant out == Filled(us, m, tags, SlotsFor(normalize), j)
    {
      out := FillNext(us, m, tags, normalize, j, out);
    }
  }

  /** The loop body of `FillSlots`: utterance `m[j]` gets the slots of its tags. */
  method FillNext(us: seq<seq<string>>, m: seq<nat>, tags: seq<seq<string>>, normalize: (string, string) -> string,
                  j: nat, out: seq<map<string, string>>)
    returns (out': seq<map<string, string>>)
    requires forall k :: 0 <= k < |m| ==> m[k] < |us|
    requires j < |m| && j < |tags| && out == Filled(us, m, tags, SlotsFor(normalize), j)
    ensures out' == Filled(us, m, tags, SlotsFor(normalize), j + 1)
  {
    var values := PredictSlots(us[m[j]], tags[j], normalize);
    FilledStep(us, m, tags, SlotsFor(normalize), j, values);
    out' := out[m[j] := values];
  }

  /** One more write of the loop in `FillSlots`. */
  lemma FilledStep(us: seq<seq<string>>, m: seq<nat>, tags: seq<seq<string>>,
                   slotsOf: (seq<string>, seq<string>) -> map<string, string>, j: nat, values: map<string, string>)
    requires j < |m| && j < |tags|
    requires forall k :: 0 <= k < |m| ==> m[k] < |us|
    requires values == slotsOf(us[m[j]], tags[j])
    ensures Filled(us, m, tags, slotsOf, j + 1) == Filled(us, m, tags, slotsOf, j)[m[j] := values]
  {
  }

  /** `__call__` raises exactly on an empty batch, and otherwise returns one dict per utterance. */
  lemma CallShape(batch: Batch, tokenize: string -> seq<string>, predict: seq<seq<string>> -> seq<seq<string>>,
                  normalize: (string, string) -> string)
    ensures CallResult(batch, tokenize, predict, normalize).Failure? <==> Utterances(batch, tokenize) == []
    ensures CallResult(batch, tokenize, predict, normalize).Success? ==>
      |CallResult(batch, tokenize, predict, normalize).value| == |Utterances(batch, tokenize)|
  {
  }

  /** Untouched positions keep their empty dict; a written position holds the slots of its utterance. */
  lemma {:induction false} FilledAt(us: seq<seq<string>>, m: seq<nat>, tagsBatch: seq<seq<string>>,
                                    slotsOf: (seq<string>, seq<string>) -> map<string, string>, n: nat)
    requires n <= |m| && n <= |tagsBatch|
    requires forall j :: 0 <= j < |m| ==> m[j] < |us|
    requires Increasing(m)
    ensures forall i :: 0 <= i < |us| && i !in m[..n] ==> Filled(us, m, tagsBatch, slotsOf, n)[i] == map[]
    ensures forall j :: 0 <= j < n ==> Filled(us, m, tagsBatch, slotsOf, n)[m[j]] == slotsOf(us[m[j]], tagsBatch[j])
  {
    if n > 0 {
      FilledAt(us, m, tagsBatch, slotsOf, n - 1);
      assert m[..n] == m[..n - 1] + [m[n - 1]];
    }
  }

  /**
   * An empty utterance gets `{}`; the `j`-th non-empty one gets the slots
   * predicted from the `j`-th tag list the network returns.
   */
  lemma CallValues(batch: Batch, tokenize: string -> seq<string>, predict: seq<seq<string>> -> seq<seq<string>>,
                   normalize: (string, string) -> string)
    requires Utterances(batch, tokenize) != []
    ensures var us := Utterances(batch, tokenize);
      var out := CallResult(batch, tokenize, predict, normalize).value;
      && (forall i :: 0 <= i < |us| && us[i] == [] ==> out[i] == map[])
      && (forall j :: 0 <= j < |NonEmpty(us)| && j < |predict(Pick(us, NonEmpty(us)))| ==>
            out[NonEmpty(us)[j]] == SlotValues(us[NonEmpty(us)[j]], predict(Pick(us, NonEmpty(us)))[j], normalize))
  {
    var us := Utterances(batch, tokenize);
    var m := NonEmpty(us);
    var tagsBatch := predict(Pick(us, m));
    var n := Min(|m|, |tagsBatch|);
    NonEmptyMeaning(us);
    FilledAt(us, m, tagsBatch, SlotsFor(normalize), n);
    forall i | 0 <= i < |us| && us[i] == [] ensures i !in m[..n] {
      assert i !in m;
    }
  }

  // ---------------------------------------------------------------------
  // save_params / load_params
  // ---------------------------------------------------------------------

  /** `GRAPH_PARAMS`: the options that fix the shape of the network graph. */
  const GraphParams: seq<string> := ["n_filters", "filter_width", "token_embeddings_dim", "char_embeddings_dim",
                                     "use_char_embeddings", "use_batch_norm", "use_crf", "net_type",
                                     "char_filter_width", "cell_type"]

  /** `VOCABS`: the vocabularies the network is built over. */
  const VocabNames: seq<string> := ["word_vocab", "char_vocab", "tag_vocab"]

  /** The exceptions the parameter check raises, with the key or parameter they name. */
  datatype ParamError = KeyError(key: string) | ValueError(name: string)

  /** The first of `names` that is not a vocabulary (`self.opt[vocab]` raises on it). */
  function FirstMissing(vocabs: map<string, seq<string>>, names: seq<string>): Option<string> {
    if names == [] then None
    else if names[0] !in vocabs then Some(names[0])
    else FirstMissing(vocabs, names[1..])
  }

  /** The saved dict: every graph parameter (None when unset) and every vocabulary's token list. */
  function Saved(opt: map<string, Json>, vocabs: map<string, seq<string>>): map<string, Json> {
    (map p | p in GraphParams :: Get(opt, p)) + (map v | v in VocabNames && v in vocabs :: Strings(vocabs[v]))
  }

  /** What `save_params` writes, or the missing vocabulary it stops at. */
  function SaveResult(opt: map<string, Json>, vocabs: map<string, seq<string>>): Result<map<string, Json>, ParamError> {
    match FirstMissing(vocabs, VocabNames)
    case Some(v) => Failure(KeyError(v))
    case None => Success(Saved(opt, vocabs))
  }

  /**
   * `save_params` with the options `opt` (vocabularies apart) and the
   * vocabularies as their index-to-token lists. Writing the file is left to
   * the caller.
   */
  method SaveParams(opt: map<string, Json>, vocabs: map<string, seq<string>>) returns (r: Result<map<string, Json>, ParamError>)
    ensures r == SaveResult(opt, vocabs)
  {
    var saved := map p | p in GraphParams :: Get(opt, p);
    var k := 0;
    assert saved == SavedUpTo(opt, vocabs, 0);
    while k < |VocabNames|
      invariant 0 <= k <= |VocabNames|
      invariant FirstMissing(vocabs, VocabNames) == FirstMissing(vocabs, VocabNames[k..])
      invariant saved == SavedUpTo(opt, vocabs, k)
    {
      var v := VocabNames[k];
      if v !in vocabs {
        return Failure(KeyError(v));
      }
      assert VocabNames[k..][1..] == VocabNames[k + 1..];
      SavedStep(opt, vocabs, k);
      saved := saved[v := Strings(vocabs[v])];
      k := k + 1;
    }
    assert VocabNames[..k] == VocabNames;
    r := Success(saved);
  }

  /** The saved dict once the first `k` vocabularies are written. */
  function SavedUpTo(opt: map<string, Json>, vocabs: map<string, seq<string>>, k: nat): map<string, Json>
    requires k <= |VocabNames|
  {
    (map p | p in GraphParams :: Get(opt, p)) + (map v | v in VocabNames[..k] && v in vocabs :: Strings(vocabs[v]))
  }

  /** Writing vocabulary `k` extends the saved dict by it. */
  lemma SavedStep(opt: map<string, Json>, vocabs: map<string, seq<string>>, k: nat)
    requires k < |VocabNames| && VocabNames[k] in vocabs
    ensures SavedUpTo(opt, vocabs, k)[VocabNames[k] := Strings(vocabs[VocabNames[k]])] == SavedUpTo(opt, vocabs, k + 1)
  {
    assert VocabNames[..k + 1] == VocabNames[..k] + [VocabNames[k]];
  }

  /** The graph-parameter loop of `load_params`: the first parameter missing from, or unequal to, the saved one. */
  function CheckGraph(opt: map<string, Json>, params: map<string, Json>, ps: seq<string>): Outcome<ParamError> {
    if ps == [] then Pass
    else if ps[0] !in params then Fail(KeyError(ps[0]))
    else if !PyEqual(Get(opt, ps[0]), params[ps[0]]) then Fail(ValueError(ps[0]))
    else CheckGraph(opt, params, ps[1..])
  }

  /** The vocabulary loop of `load_params`: the first vocabulary missing on either side, or unequal. */
  function CheckVocabs(vocabs: map<string, seq<string>>, params: map<string, Json>, vs: seq<string>): Outcome<ParamError> {
    if vs == [] then Pass
    else if vs[0] !in vocabs || vs[0] !in params then Fail(KeyError(vs[0]))
    else if !PyEqual(Strings(vocabs[vs[0]]), params[vs[0]]) then Fail(ValueError(vs[0]))
    else CheckVocabs(vocabs, params, vs[1..])
  }

  /** What `load_params` does: nothing when no parameters were saved, else both checks in turn. */
  function LoadResult(opt: map<string, Json>, vocabs: map<string, seq<string>>, saved: Option<map<string, Json>>): Outcome<ParamError> {
    match saved
    case None => Pass
    case Some(params) =>
      match CheckGraph(opt, params, GraphParams)
      case Fail(e) => Fail(e)
      case Pass => CheckVocabs(vocabs, params, VocabNames)
  }

  /**
   * `load_params`, with the saved file as the decoded dict it holds, or
   * `None` when there is no file.
   */
  method LoadParams(opt: map<string, Json>, vocabs: map<string, seq<string>>, saved: Option<map<string, Json>>)
    returns (r: Outcome<ParamError>)
    ensures r == LoadResult(opt, vocabs, saved)
  {
    if saved.None? {
      return Pass;
    }
    var params := saved.value;
    var k := 0;
    while k < |GraphParams|
      invariant 0 <= k <= |GraphParams|
      invariant CheckGraph(opt, params, GraphParams) == CheckGraph(opt, params, GraphParams[k..])
    {
      var p := GraphParams[k];
      assert GraphParams[k..][1..] == GraphParams[k + 1..];
      if p !in params {
        return Fail(KeyError(p));
      }
      if !PyEqual(Get(opt, p), params[p]) {
        return Fail(ValueError(p));
      }
      k := k + 1;
    }
    k := 0;
    while k < |VocabNames|
      invariant 0 <= k <= |VocabNames|
      invariant CheckVocabs(vocabs, params, VocabNames) == CheckVocabs(vocabs, params, VocabNames[k..])
    {
      var v := VocabNames[k];
      assert VocabNames[k..][1..] == VocabNames[k + 1..];
      if v !in vocabs || v !in params {
        return Fail(KeyError(v));
      }
      if !PyEqual(Strings(vocabs[v]), params[v]) {
        return Fail(ValueError(v));
      }
      k := k + 1;
    }
    r := Pass;
  }

  /** The graph check passes iff every parameter is saved and equal to the configured one. */
  lemma {:induction false} CheckGraphPass(opt: map<string, Json>, params: map<string, Json>, ps: seq<string>)
    ensures CheckGraph(opt, params, ps) == Pass <==>
      forall p :: p in ps ==> p in params && PyEqual(Get(opt, p), params[p])
  {
    if ps != [] {
      CheckGraphPass(opt, params, ps[1..]);
      assert forall p :: p in ps <==> p == ps[0] || p in ps[1..];
    }
  }

  /** A failing graph check names a listed parameter that is missing from, or differs from, the saved one. */
  lemma {:induction false} CheckGraphFail(opt: map<string, Json>, params: map<string, Json>, ps: seq<string>)
    requires CheckGraph(opt, params, ps).Fail?
    ensures match CheckGraph(opt, params, ps).error
      case KeyError(p) => p in ps && p !in params
      case ValueError(p) => p in ps && p in params && !PyEqual(Get(opt, p), params[p])
  {
    if ps[0] in params && PyEqual(Get(opt, ps[0]), params[ps[0]]) {
      CheckGraphFail(opt, params, ps[1..]);
    }
  }

  /** The vocabulary check passes iff every vocabulary exists, is saved, and has the saved token list. */
  lemma {:induction false} CheckVocabsPass(vocabs: map<string, seq<string>>, params: map<string, Json>, vs: seq<string>)
    ensures CheckVocabs(vocabs, params, vs) == Pass <==>
      forall v :: v in vs ==> v in vocabs && v in params && PyEqual(Strings(vocabs[v]), params[v])
  {
    if vs != [] {
      CheckVocabsPass(vocabs, params, vs[1..]);
      assert forall v :: v in vs <==> v == vs[0] || v in vs[1..];
    }
  }

  /** A failing vocabulary check names a listed vocabulary that is missing on a side, or differs from the saved list. */
  lemma {:induction false} CheckVocabsFail(vocabs: map<string, seq<string>>, params: map<string, Json>, vs: seq<string>)
    requires CheckVocabs(vocabs, params, vs).Fail?
    ensures match CheckVocabs(vocabs, params, vs).error
      case KeyError(v) => v in vs && (v !in vocabs || v !in params)
      case ValueError(v) => v in vs && v in vocabs && v in params && !PyEqual(Strings(vocabs[v]), params[v])
  {
    if vs[0] in vocabs && vs[0] in params && PyEqual(Strings(vocabs[vs[0]]), params[vs[0]]) {
      CheckVocabsFail(vocabs, params, vs[1..]);
    }
  }

  /**
   * `load_params` passes iff nothing was saved, or every graph parameter and
   * every vocabulary agrees with the saved one.
   */
  lemma LoadPassIff(opt: map<string, Json>, vocabs: map<string, seq<string>>, saved: Option<map<string, Json>>)
    ensures LoadResult(opt, vocabs, saved) == Pass <==>
      || saved.None?
      || (&& (forall p :: p in GraphParams ==> p in saved.value && PyEqual(Get(opt, p), saved.value[p]))
          && (forall v :: v in VocabNames ==> v in vocabs && v in saved.value && PyEqual(Strings(vocabs[v]), saved.value[v])))
  {
    if saved.Some? {
      CheckGraphPass(opt, saved.value, GraphParams);
      CheckVocabsPass(vocabs, saved.value, VocabNames);
    }
  }

  /** A ValueError from `load_params` names a graph parameter or vocabulary that differs from the saved one. */
  lemma LoadValueError(opt: map<string, Json>, vocabs: map<string, seq<string>>, saved: Option<map<string, Json>>)
    requires LoadResult(opt, vocabs, saved).Fail? && LoadResult(opt, vocabs, saved).error.ValueError?
    ensures var p := LoadResult(opt, vocabs, saved).error.name;
      && saved.Some? && p in saved.value
      && ((p in GraphParams && !PyEqual(Get(opt, p), saved.value[p]))
          || (p in VocabNames && p in vocabs && !PyEqual(Strings(vocabs[p]), saved.value[p])))
  {
    var params := saved.value;
    if CheckGraph(opt, params, GraphParams).Fail? {
      CheckGraphFail(opt, params, GraphParams);
    } else {
      CheckVocabsFail(vocabs, params, VocabNames);
    }
  }

  /** No vocabulary is missing exactly when the first missing one does not exist. */
  lemma {:induction false} FirstMissingNone(vocabs: map<string, seq<string>>, names: seq<string>)
    ensures FirstMissing(vocabs, names) == None <==> forall v :: v in names ==> v in vocabs
  {
    if names != [] {
      FirstMissingNone(vocabs, names[1..]);
      assert forall v :: v in names <==> v == names[0] || v in names[1..];
    }
  }

  /** `save_params` then `load_params` with the same options and vocabularies raises nothing. */
  lemma SaveThenLoad(opt: map<string, Json>, vocabs: map<string, seq<string>>)
    requires SaveResult(opt, vocabs).Success?
    ensures LoadResult(opt, vocabs, Some(SaveResult(opt, vocabs).value)) == Pass
  {
    var s := SaveResult(opt, vocabs).value;
    FirstMissingNone(vocabs, VocabNames);
    forall p | p in GraphParams ensures p in s && PyEqual(Get(opt, p), s[p]) {
      SavedGraphParam(opt, vocabs, p);
      PyEqualReflexive(Get(opt, p));
    }
    forall v | v in VocabNames ensures v in vocabs && v in s && PyEqual(Strings(vocabs[v]), s[v]) {
      SavedVocab(opt, vocabs, v);
      PyEqualReflexive(Strings(vocabs[v]));
    }
    LoadPassIff(opt, vocabs, Some(s));
  }

  /** A graph parameter is saved as the option's value: no vocabulary shares its name. */
  lemma SavedGraphParam(opt: map<string, Json>, vocabs: map<string, seq<string>>, p: string)
    requires p in GraphParams
    ensures p in Saved(opt, vocabs) && Saved(opt, vocabs)[p] == Get(opt, p)
  {
    assert p !in VocabNames;
  }

  /** A vocabulary is saved as its token list. */
  lemma SavedVocab(opt: map<string, Json>, vocabs: map<string, seq<string>>, v: string)
    requires v in VocabNames && v in vocabs
    ensures v in Saved(opt, vocabs) && Saved(opt, vocabs)[v] == Strings(vocabs[v])
  {
  }
}
