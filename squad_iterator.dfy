/**
 * `SquadIterator` of deeppavlov/dataset_iterators/squad_iterator.py: SQuAD
 * data (articles of paragraphs of questions with answers) is flattened into
 * one ((context, question), (answer texts, answer starts)) entry per
 * question, and `split` does this to the train, valid and test fields.
 */
module SquadIterator {
  import opened Wrappers

  datatype Answer = Answer(text: string, answerStart: int)
  datatype Qa = Qa(question: string, answers: seq<Answer>)
  datatype Paragraph = Paragraph(context: string, qas: seq<Qa>)
  datatype Article = Article(paragraphs: seq<Paragraph>)

  /** A SQuAD-format dict: its `data` list of articles. */
  datatype SquadData = SquadData(articles: seq<Article>)

  /** ((context, question), (answer texts, answer starts)). */
  type Cqa = ((string, string), (seq<string>, seq<int>))

  /**
   * A field of the iterator: the data it was given (None standing for
   * None or an empty dict) or, once split, the extracted list.
   */
  datatype Field = Raw(data: Option<SquadData>) | Extracted(cqas: seq<Cqa>)

  /** `data['data']` on a non-empty list. */
  datatype SquadError = TypeError

  function AnswerTexts(answers: seq<Answer>): (ts: seq<string>)
    ensures |ts| == |answers| && forall k :: 0 <= k < |answers| ==> ts[k] == answers[k].text
  {
    seq(|answers|, k requires 0 <= k < |answers| => answers[k].text)
  }

  function AnswerStarts(answers: seq<Answer>): (ss: seq<int>)
    ensures |ss| == |answers| && forall k :: 0 <= k < |answers| ==> ss[k] == answers[k].answerStart
  {
    seq(|answers|, k requires 0 <= k < |answers| => answers[k].answerStart)
  }

  /** The entry of one question of a paragraph with this context. */
  function Entry(context: string, qa: Qa): Cqa {
    ((context, qa.question), (AnswerTexts(qa.answers), AnswerStarts(qa.answers)))
  }

  /** The entries of a paragraph, one per question in order. */
  function ParagraphCqas(p: Paragraph): (cs: seq<Cqa>)
    ensures |cs| == |p.qas| && forall k :: 0 <= k < |p.qas| ==> cs[k] == Entry(p.context, p.qas[k])
  {
    seq(|p.qas|, k requires 0 <= k < |p.qas| => Entry(p.context, p.qas[k]))
  }

  /** The entries of paragraphs, one paragraph after another. */
  function ParagraphsCqas(ps: seq<Paragraph>): seq<Cqa> {
    if ps == [] then [] else ParagraphsCqas(ps[..|ps| - 1]) + ParagraphCqas(ps[|ps| - 1])
  }

  /** The entries of articles, one article after another. */
  function ArticlesCqas(arts: seq<Article>): seq<Cqa> {
    if arts == [] then [] else ArticlesCqas(arts[..|arts| - 1]) + ParagraphsCqas(arts[|arts| - 1].paragraphs)
  }

  /** `_extract_cqas` on a field: [] for falsy data, the entries for SQuAD data, TypeError on a filled list. */
  function Extract(f: Field): Result<seq<Cqa>, SquadError> {
    match f
    case Raw(None) => Success([])
    case Raw(Some(d)) => Success(ArticlesCqas(d.articles))
    case Extracted(cs) => if cs == [] then Success([]) else Failure(TypeError)
  }

  function QaCount(ps: seq<Paragraph>): nat {
    if ps == [] then 0 else QaCount(ps[..|ps| - 1]) + |ps[|ps| - 1].qas|
  }

  /** The number of questions over all paragraphs of all articles. */
  function TotalQas(arts: seq<Article>): nat {
    if arts == [] then 0 else TotalQas(arts[..|arts| - 1]) + QaCount(arts[|arts| - 1].paragraphs)
  }

  lemma {:induction false} ParagraphsCount(ps: seq<Paragraph>)
    ensures |ParagraphsCqas(ps)| == QaCount(ps)
  {
    if ps != [] {
      ParagraphsCount(ps[..|ps| - 1]);
    }
  }

  /** There is one entry per question. */
  lemma {:induction false} ArticlesCount(arts: seq<Article>)
    ensures |ArticlesCqas(arts)| == TotalQas(arts)
  {
    if arts != [] {
      ArticlesCount(arts[..|arts| - 1]);
      ParagraphsCount(arts[|arts| - 1].paragraphs);
    }
  }

  /** Flattening respects order: the entries of two runs of articles are those of the first, then the second. */
  lemma {:induction false} ArticlesAppend(xs: seq<Article>, ys: seq<Article>)
    ensures ArticlesCqas(xs + ys) == ArticlesCqas(xs) + ArticlesCqas(ys)
    decreases |ys|
  {
    if ys == [] {
      assert xs + ys == xs;
    } else {
      var n := |ys| - 1;
      var zs := xs + ys;
      var last := ParagraphsCqas(ys[n].paragraphs);
      assert zs[..|zs| - 1] == xs + ys[..n] && zs[|zs| - 1] == ys[n];
      ArticlesAppend(xs, ys[..n]);
      calc {
        ArticlesCqas(zs);
        ArticlesCqas(xs + ys[..n]) + last;
        ArticlesCqas(xs) + ArticlesCqas(ys[..n]) + last;
        ArticlesCqas(xs) + (ArticlesCqas(ys[..n]) + last);
      }
    }
  }

  /** An entry's origin: the question `q` of paragraph `p` of article `a`. */
  predicate From(arts: seq<Article>, c: Cqa, a: int, p: int, q: int) {
    && 0 <= a < |arts| && 0 <= p < |arts[a].paragraphs| && 0 <= q < |arts[a].paragraphs[p].qas|
    && c == Entry(arts[a].paragraphs[p].context, arts[a].paragraphs[p].qas[q])
  }

  lemma {:induction false} ParagraphsEntries(ps: seq<Paragraph>)
    ensures forall c :: c in ParagraphsCqas(ps) ==>
      exists p, q :: 0 <= p < |ps| && 0 <= q < |ps[p].qas| && c == Entry(ps[p].context, ps[p].qas[q])
  {
    if ps != [] {
      var init := ps[..|ps| - 1];
      ParagraphsEntries(init);
      forall c | c in ParagraphsCqas(ps)
        ensures exists p, q :: 0 <= p < |ps| && 0 <= q < |ps[p].qas| && c == Entry(ps[p].context, ps[p].qas[q])
      {
        if c in ParagraphsCqas(init) {
          var p, q :| 0 <= p < |init| && 0 <= q < |init[p].qas| && c == Entry(init[p].context, init[p].qas[q]);
          assert ps[p] == init[p];
        } else {
          var last := ps[|ps| - 1];
          var q :| 0 <= q < |last.qas| && ParagraphCqas(last)[q] == c;
        }
      }
    }
  }

  /**
   * Every entry is some question's: its context is that question's
   * paragraph's, its question that question, and it has as many answer
   * starts as answer texts, one pair per answer.
   */
  lemma {:induction false} ArticlesEntries(arts: seq<Article>)
    ensures forall c :: c in ArticlesCqas(arts) ==> exists a, p, q :: From(arts, c, a, p, q)
    ensures forall c :: c in ArticlesCqas(arts) ==> |c.1.0| == |c.1.1|
  {
    if arts != [] {
      var init := arts[..|arts| - 1];
      var last := arts[|arts| - 1];
      ArticlesEntries(init);
      ParagraphsEntries(last.paragraphs);
      forall c | c in ArticlesCqas(arts) ensures (exists a, p, q :: From(arts, c, a, p, q)) && |c.1.0| == |c.1.1| {
        if c in ArticlesCqas(init) {
          var a, p, q :| From(init, c, a, p, q);
          assert arts[a] == init[a];
          assert From(arts, c, a, p, q);
        } else {
          var p, q :| 0 <= p < |last.paragraphs| && 0 <= q < |last.paragraphs[p].qas|
            && c == Entry(last.paragraphs[p].context, last.paragraphs[p].qas[q]);
          assert From(arts, c, |arts| - 1, p, q);
        }
      }
    }
  }

  /** The innermost loop: the texts and starts of the answers, in order. */
  method ExtractAnswers(answers: seq<Answer>) returns (texts: seq<string>, starts: seq<int>)
    ensures texts == AnswerTexts(answers) && starts == AnswerStarts(answers)
  {
    texts, starts := [], [];
    var k := 0;
    while k < |answers|
      invariant 0 <= k <= |answers|
      invariant texts == AnswerTexts(answers[..k]) && starts == AnswerStarts(answers[..k])
    {
      texts := texts + [answers[k].text];
      starts := starts + [answers[k].answerStart];
      k := k + 1;
    }
    assert answers[..k] == answers;
  }

  /** The loop over a paragraph's questions. */
  method ExtractParagraph(p: Paragraph) returns (cqas: seq<Cqa>)
    ensures cqas == ParagraphCqas(p)
  {
    cqas := [];
    var k := 0;
    while k < |p.qas|
      invariant 0 <= k <= |p.qas|
      invariant cqas == ParagraphCqas(Paragraph(p.context, p.qas[..k]))
    {
      var texts, starts := ExtractAnswers(p.qas[k].answers);
      cqas := cqas + [((p.context, p.qas[k].question), (texts, starts))];
      k := k + 1;
    }
    assert p.qas[..k] == p.qas;
  }

  /** The loops over articles and their paragraphs. */
  method ExtractArticles(arts: seq<Article>) returns (cqas: seq<Cqa>)
    ensures cqas == ArticlesCqas(arts)
  {
    cqas := [];
    var i := 0;
    while i < |arts|
      invariant 0 <= i <= |arts|
      invariant cqas == ArticlesCqas(arts[..i])
    {
      assert arts[..i + 1][..i] == arts[..i];
      var ps := arts[i].paragraphs;
      var j := 0;
      ghost var before := cqas;
      while j < |ps|
        invariant 0 <= j <= |ps|
        invariant cqas == before + ParagraphsCqas(ps[..j])
      {
        assert ps[..j + 1][..j] == ps[..j];
        var more := ExtractParagraph(ps[j]);
        cqas := cqas + more;
        j := j + 1;
      }
      assert ps[..j] == ps;
      i := i + 1;
    }
    assert arts[..i] == arts;
  }

  /** `_extract_cqas`: [] unless the data is truthy, else one entry per question; `data['data']` fails on a filled list. */
  method ExtractCqas(f: Field) returns (r: Result<seq<Cqa>, SquadError>)
    ensures r == Extract(f)
    ensures f == Raw(None) ==> r == Success([])
  {
    match f
    case Raw(None) => r := Success([]);
    case Raw(Some(d)) =>
      var cqas := ExtractArticles(d.articles);
      r := Success(cqas);
    case Extracted(cs) =>
      r := if cs == [] then Success([]) else Failure(TypeError);
  }

  class Iterator {
    var train: Field
    var valid: Field
    var test: Field

    constructor (train: Field, valid: Field, test: Field)
      ensures this.train == train && this.valid == valid && this.test == test
    {
      this.train := train;
      this.valid := valid;
      this.test := test;
    }

    /**
     * `split`: train, valid and test, in this order, are each replaced by
     * their extracted entries; a failure leaves the fields after it as they were.
     */
    method Split() returns (r: Outcome<SquadError>)
      modifies this
      ensures r.Pass? <==> Extract(old(train)).Success? && Extract(old(valid)).Success? && Extract(old(test)).Success?
      ensures r.Pass? ==> train == Extracted(Extract(old(train)).value)
      ensures r.Pass? ==> valid == Extracted(Extract(old(valid)).value)
      ensures r.Pass? ==> test == Extracted(Extract(old(test)).value)
      ensures Extract(old(train)).Failure? ==> r == Fail(Extract(old(train)).error)
      ensures Extract(old(train)).Failure? ==> train == old(train) && valid == old(valid) && test == old(test)
      ensures Extract(old(train)).Success? && Extract(old(valid)).Failure? ==>
        && r == Fail(Extract(old(valid)).error)
        && train == Extracted(Extract(old(train)).value) && valid == old(valid) && test == old(test)
      ensures Extract(old(train)).Success? && Extract(old(valid)).Success? && Extract(old(test)).Failure? ==>
        && r == Fail(Extract(old(test)).error)
        && train == Extracted(Extract(old(train)).value) && valid == Extracted(Extract(old(valid)).value)
        && test == old(test)
    {
      var t := ExtractCqas(train);
      if t.Failure? {
        return Fail(t.error);
      }
      train := Extracted(t.value);
      var v := ExtractCqas(valid);
      if v.Failure? {
        return Fail(v.error);
      }
      valid := Extracted(v.value);
      var s := ExtractCqas(test);
      if s.Failure? {
        return Fail(s.error);
      }
      test := Extracted(s.value);
      r := Pass;
    }
  }
}
