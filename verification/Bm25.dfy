/** The lexical index over code chunks: tables fitted once, and a search that
    must agree with a plain scan of the chunks. Scores are exact reals. */
module Bm25 {
  import opened Ranking

  type Term = string

  /** A chunk with the terms of its content and of its symbol name. */
  datatype Doc = Doc(chunk: string, content: seq<Term>, symbol: seq<Term>)

  /** The natural logarithm and the three constants of the formula. */
  datatype Formula = Formula(ln: real -> real, symbolWeight: real, k1: real, b: real)

  const SYMBOL_WEIGHT := 5.0
  const K1 := 1.5
  const B := 0.75

  ghost predicate Logarithm(ln: real -> real) {
    && ln(1.0) == 0.0
    && forall x, y | 0.0 < x < y :: ln(x) < ln(y)
  }

  ghost predicate Proper(f: Formula) {
    Logarithm(f.ln) && f.symbolWeight > 0.0 && f.k1 > 0.0 && 0.0 <= f.b <= 1.0
  }

  // ---------- The plain scan ----------

  predicate Has(d: Doc, t: Term) { t in d.content || t in d.symbol }

  function Occurrences(s: seq<Term>, t: Term): nat {
    if s == [] then 0 else Occurrences(s[..|s| - 1], t) + if s[|s| - 1] == t then 1 else 0
  }

  /** Terms of the symbol name count with their own weight. */
  function Weight(w: real, content: seq<Term>, symbol: seq<Term>, t: Term): real {
    Occurrences(content, t) as real + w * Occurrences(symbol, t) as real
  }

  function Frequency(f: Formula, d: Doc, t: Term): real { Weight(f.symbolWeight, d.content, d.symbol, t) }

  function Length(d: Doc): nat { |d.content| + |d.symbol| }

  function TotalLength(docs: seq<Doc>): nat {
    if docs == [] then 0 else TotalLength(docs[..|docs| - 1]) + Length(docs[|docs| - 1])
  }

  function AverageLength(docs: seq<Doc>): real
    requires docs != []
  {
    TotalLength(docs) as real / |docs| as real
  }

  /** How many chunks contain the term. */
  function DocumentFrequency(docs: seq<Doc>, t: Term): (n: nat)
    ensures n <= |docs|
  {
    if docs == [] then 0 else DocumentFrequency(docs[..|docs| - 1], t) + if Has(docs[|docs| - 1], t) then 1 else 0
  }

  function Idf(ln: real -> real, n: nat, df: nat): real
    requires df <= n
  {
    ln((n as real - df as real + 0.5) / (df as real + 0.5) + 1.0)
  }

  /** What a chunk's length, relative to the average, adds to the denominator. */
  function LengthTerm(f: Formula, ratio: real): real { f.k1 * Norm(f.b, ratio) }

  function Norm(b: real, ratio: real): real { 1.0 - b + b * ratio }

  function Saturation(k1: real, tf: real, lengthTerm: real): real
    requires tf + lengthTerm != 0.0
  {
    tf * (k1 + 1.0) / (tf + lengthTerm)
  }

  // ---------- Facts about the formula ----------

  lemma {:induction false} OccursWhenIn(s: seq<Term>, t: Term)
    ensures Occurrences(s, t) > 0 <==> t in s
  {
    if s != [] {
      OccursWhenIn(s[..|s| - 1], t);
      assert s == s[..|s| - 1] + [s[|s| - 1]];
    }
  }

  lemma {:induction false} OccurrencesCount(s: seq<Term>, t: Term)
    ensures Occurrences(s, t) == multiset(s)[t]
  {
    if s != [] {
      OccurrencesCount(s[..|s| - 1], t);
      assert s == s[..|s| - 1] + [s[|s| - 1]];
    }
  }

  lemma FrequencyIsPositive(f: Formula, d: Doc, t: Term)
    requires Proper(f)
    ensures Frequency(f, d, t) > 0.0 <==> Has(d, t)
  {
    OccursWhenIn(d.content, t);
    OccursWhenIn(d.symbol, t);
  }

  lemma {:induction false} TotalCoversEach(docs: seq<Doc>, d: Doc)
    requires d in docs
    ensures TotalLength(docs) >= Length(d)
  {
    if docs[|docs| - 1] != d {
      assert d in docs[..|docs| - 1];
      TotalCoversEach(docs[..|docs| - 1], d);
    }
  }

  /** The average is only divided by for a chunk that has a term, and then it is positive. */
  lemma AverageIsPositive(docs: seq<Doc>, d: Doc, t: Term)
    requires d in docs && Has(d, t)
    ensures AverageLength(docs) > 0.0 && Length(d) > 0
  {
    TotalCoversEach(docs, d);
  }

  lemma {:induction false} FrequencyCounts(docs: seq<Doc>, t: Term)
    ensures DocumentFrequency(docs, t) == |set i | 0 <= i < |docs| && Has(docs[i], t)|
  {
    hide Has;
    var all := set i | 0 <= i < |docs| && Has(docs[i], t);
    if docs != [] {
      var n := |docs| - 1;
      FrequencyCounts(docs[..n], t);
      var before := set i | 0 <= i < |docs[..n]| && Has(docs[..n][i], t);
      assert all == if Has(docs[n], t) then before + {n} else before;
    }
  }

  /** Every inverse document frequency is positive, also for a term in every chunk. */
  lemma IdfIsPositive(ln: real -> real, n: nat, df: nat)
    requires Logarithm(ln) && df <= n
    ensures Idf(ln, n, df) > 0.0
  {
    var a, b := n as real - df as real + 0.5, df as real + 0.5;
    assert a / b > 0.0;
    assert ln(1.0) < ln(a / b + 1.0);
  }

  lemma Cancel(x: real, y: real, c: real)
    requires c != 0.0 && x * c == y * c
    ensures x == y
  {
    assert (x - y) * c == 0.0;
  }

  lemma SaturationIsBelow(k1: real, tf: real, lengthTerm: real)
    requires tf > 0.0 && lengthTerm > 0.0 && k1 > 0.0
    ensures 0.0 < Saturation(k1, tf, lengthTerm) < k1 + 1.0
  {
    var k, sum := k1 + 1.0, tf + lengthTerm;
    var q, rest := tf * k / sum, k * lengthTerm / sum;
    assert tf * k > 0.0 && k * lengthTerm > 0.0;
    assert q > 0.0 && rest > 0.0;
    assert q * sum == tf * k && rest * sum == k * lengthTerm;
    Distribute(k, tf, lengthTerm);
    Distribute(sum, q, rest);
    Cancel(q + rest, k, sum);
    assert Saturation(k1, tf, lengthTerm) == q;
  }

  lemma Distribute(c: real, x: real, y: real)
    ensures (x + y) * c == c * (x + y) == c * x + c * y
  {
  }

  lemma ProductIsPositive(x: real, y: real)
    requires x > 0.0 && y > 0.0
    ensures x * y > 0.0
  {
  }

  lemma NormIsPositive(b: real, ratio: real)
    requires 0.0 <= b <= 1.0 && ratio > 0.0
    ensures Norm(b, ratio) > 0.0
  {
    if b > 0.0 { ProductIsPositive(b, ratio); }
  }

  lemma LengthTermIsPositive(f: Formula, ratio: real)
    requires Proper(f) && ratio > 0.0
    ensures LengthTerm(f, ratio) > 0.0
  {
    hide Norm;
    NormIsPositive(f.b, ratio);
    ProductIsPositive(f.k1, Norm(f.b, ratio));
  }

  function LengthRatio(docs: seq<Doc>, d: Doc, t: Term): (ratio: real)
    requires d in docs && Has(d, t)
    ensures ratio > 0.0
  {
    AverageIsPositive(docs, d, t);
    Length(d) as real / AverageLength(docs)
  }

  function Saturated(f: Formula, docs: seq<Doc>, d: Doc, t: Term): (r: real)
    requires Proper(f) && d in docs && Has(d, t)
    ensures 0.0 < r < f.k1 + 1.0
  {
    FrequencyIsPositive(f, d, t);
    var tf, lengthTerm := Frequency(f, d, t), LengthTerm(f, LengthRatio(docs, d, t));
    LengthTermIsPositive(f, LengthRatio(docs, d, t));
    SaturationIsBelow(f.k1, tf, lengthTerm);
    Saturation(f.k1, tf, lengthTerm)
  }

  /** The share of one query term in one chunk's score. */
  function Contribution(f: Formula, docs: seq<Doc>, d: Doc, t: Term): real
    requires Proper(f) && d in docs && Has(d, t)
  {
    Idf(f.ln, |docs|, DocumentFrequency(docs, t)) * Saturated(f, docs, d, t)
  }

  lemma ScaledBetween(c: real, x: real, y: real)
    requires c > 0.0 && 0.0 < x < y
    ensures 0.0 < c * x < c * y
  {
    assert c * (y - x) > 0.0;
  }

  /** However often the term occurs, its share is positive and stays below its
      inverse document frequency times k1 + 1. */
  lemma ContributionIsBounded(f: Formula, docs: seq<Doc>, d: Doc, t: Term)
    requires Proper(f) && d in docs && Has(d, t)
    ensures 0.0 < Contribution(f, docs, d, t) < Idf(f.ln, |docs|, DocumentFrequency(docs, t)) * (f.k1 + 1.0)
  {
    hide Saturated, Idf;
    IdfIsPositive(f.ln, |docs|, DocumentFrequency(docs, t));
    ScaledBetween(Idf(f.ln, |docs|, DocumentFrequency(docs, t)), Saturated(f, docs, d, t), f.k1 + 1.0);
  }

  // ---------- What makes a chunk score higher ----------

  lemma QuotientFalls(a: real, b: real, c: real)
    requires a > 0.0 && 0.0 < b < c
    ensures a / c < a / b
  {
    var x, y := a / b, a / c;
    assert x * b == a && y * c == a && y > 0.0;
    if x <= y { ScaledBetween(y, b, c); ProductsOrdered(x, y, b); }
  }

  lemma ProductsOrdered(x: real, y: real, b: real)
    requires x <= y && b > 0.0
    ensures x * b <= y * b
  {
    assert (y - x) * b >= 0.0;
  }

  lemma QuotientRises(a: real, b: real, c: real)
    requires a < b && c > 0.0
    ensures a / c < b / c
  {
    var x, y := a / c, b / c;
    assert x * c == a && y * c == b;
    if y <= x { ProductsOrdered(y, x, c); }
  }

  lemma SameSum(x: real, b: real)
    requires b > 0.0
    ensures x / b + 1.0 == (x + b) / b
  {
    Distribute(1.0 / b, x, b);
  }

  /** The inverse document frequency in one quotient: chunks over chunks with the term. */
  lemma IdfIsRarity(ln: real -> real, n: nat, df: nat)
    requires df <= n
    ensures Idf(ln, n, df) == ln((n as real + 1.0) / (df as real + 0.5))
  {
    SameSum(n as real - df as real + 0.5, df as real + 0.5);
  }

  /** The rarer a term, the higher its weight. */
  lemma IdfFalls(ln: real -> real, n: nat, a: nat, b: nat)
    requires Logarithm(ln) && a < b <= n
    ensures Idf(ln, n, a) > Idf(ln, n, b) > 0.0
  {
    IdfIsRarity(ln, n, a);
    IdfIsRarity(ln, n, b);
    IdfIsPositive(ln, n, b);
    var top, few, many := n as real + 1.0, a as real + 0.5, b as real + 0.5;
    QuotientFalls(top, few, many);
    assert 0.0 < top / many < top / few;
  }

  lemma Commutes(x: real, y: real)
    ensures x * y == y * x
  {
  }

  lemma QuotientTimes(x: real, y: real)
    requires y != 0.0
    ensures x / y * y == x
  {
  }

  /** More of a term counts for more. */
  lemma SaturationRises(k1: real, a: real, b: real, lengthTerm: real)
    requires 0.0 < a < b && lengthTerm > 0.0 && k1 > 0.0
    ensures Saturation(k1, a, lengthTerm) < Saturation(k1, b, lengthTerm)
  {
    var k, x, y := k1 + 1.0, Saturation(k1, a, lengthTerm), Saturation(k1, b, lengthTerm);
    SaturationIsBelow(k1, a, lengthTerm);
    QuotientTimes(a * k, a + lengthTerm);
    QuotientTimes(b * k, b + lengthTerm);
    assert x * (a + lengthTerm) == a * k && y * (b + lengthTerm) == b * k;
    hide Saturation;
    if y <= x { RisesByTheRest(k, x, y, a, b, lengthTerm); }
  }

  lemma RisesByTheRest(k: real, x: real, y: real, a: real, b: real, c: real)
    requires 0.0 < a < b && c > 0.0 && 0.0 < x < k && x * (a + c) == a * k && y * (b + c) == b * k
    ensures x < y
  {
    Distribute(x, a + c, b - a);
    assert a + c + (b - a) == b + c;
    Distribute(k, a, b - a);
    assert a + (b - a) == b;
    ScaledBetween(b - a, x, k);
    Commutes(b - a, x);
    Commutes(b - a, k);
    Commutes(a, k);
    Commutes(b, k);
    Commutes(x, a + c);
    assert x * (b + c) < y * (b + c);
    if y <= x { ProductsOrdered(y, x, b + c); }
  }

  lemma SaturationFalls(k1: real, tf: real, a: real, b: real)
    requires tf > 0.0 && 0.0 < a < b && k1 > 0.0
    ensures Saturation(k1, tf, b) < Saturation(k1, tf, a)
  {
    ProductIsPositive(tf, k1 + 1.0);
    QuotientFalls(tf * (k1 + 1.0), tf + a, tf + b);
  }

  /** With b above zero a longer chunk has the larger length term, and a chunk of
      average length has k1. */
  lemma LengthTermRises(f: Formula, a: real, b: real)
    requires Proper(f) && f.b > 0.0 && 0.0 < a < b
    ensures 0.0 < LengthTerm(f, a) < LengthTerm(f, b)
  {
    NormIsPositive(f.b, a);
    ScaledBetween(f.b, a, b);
    assert Norm(f.b, a) < Norm(f.b, b);
    hide Norm;
    ScaledBetween(f.k1, Norm(f.b, a), Norm(f.b, b));
  }

  lemma AverageLengthCountsK1(f: Formula)
    ensures LengthTerm(f, 1.0) == f.k1
  {
  }

  lemma SaturatedIs(f: Formula, docs: seq<Doc>, d: Doc, t: Term)
    requires Proper(f) && d in docs && Has(d, t)
    ensures Frequency(f, d, t) > 0.0 && LengthTerm(f, LengthRatio(docs, d, t)) > 0.0
    ensures Saturated(f, docs, d, t) == Saturation(f.k1, Frequency(f, d, t), LengthTerm(f, LengthRatio(docs, d, t)))
  {
    FrequencyIsPositive(f, d, t);
    LengthTermIsPositive(f, LengthRatio(docs, d, t));
  }

  /** Of two terms with the same weight in a chunk, the rarer contributes more. */
  lemma RarerTermContributesMore(f: Formula, docs: seq<Doc>, d: Doc, rare: Term, common: Term)
    requires Proper(f) && d in docs && Has(d, rare) && Has(d, common)
    requires Frequency(f, d, rare) == Frequency(f, d, common)
    requires DocumentFrequency(docs, rare) < DocumentFrequency(docs, common)
    ensures Contribution(f, docs, d, rare) > Contribution(f, docs, d, common)
  {
    hide Idf, Saturated, Saturation, LengthTerm, Frequency;
    var n, a, b := |docs|, DocumentFrequency(docs, rare), DocumentFrequency(docs, common);
    IdfFalls(f.ln, n, a, b);
    SaturatedIs(f, docs, d, rare);
    SaturatedIs(f, docs, d, common);
    var s := Saturated(f, docs, d, rare);
    assert s == Saturated(f, docs, d, common);
    ScaledBetween(s, Idf(f.ln, n, b), Idf(f.ln, n, a));
    Commutes(s, Idf(f.ln, n, b));
    Commutes(s, Idf(f.ln, n, a));
  }

  lemma SaturationDecides(f: Formula, docs: seq<Doc>, d: Doc, e: Doc, t: Term)
    requires Proper(f) && d in docs && e in docs && Has(d, t) && Has(e, t)
    requires Saturated(f, docs, d, t) < Saturated(f, docs, e, t)
    ensures Contribution(f, docs, d, t) < Contribution(f, docs, e, t)
  {
    hide Idf, Saturated;
    IdfIsPositive(f.ln, |docs|, DocumentFrequency(docs, t));
    ScaledBetween(Idf(f.ln, |docs|, DocumentFrequency(docs, t)), Saturated(f, docs, d, t), Saturated(f, docs, e, t));
  }

  /** Of two chunks of the same length, the one in which the term weighs more gets more for it. */
  lemma MoreWeightContributesMore(f: Formula, docs: seq<Doc>, d: Doc, e: Doc, t: Term)
    requires Proper(f) && d in docs && e in docs && Has(d, t) && Has(e, t) && Length(d) == Length(e)
    requires Frequency(f, d, t) < Frequency(f, e, t)
    ensures Contribution(f, docs, d, t) < Contribution(f, docs, e, t)
  {
    assert LengthRatio(docs, d, t) == LengthRatio(docs, e, t);
    SaturatedIs(f, docs, d, t);
    SaturatedIs(f, docs, e, t);
    hide Saturated, Saturation, LengthTerm, Frequency, LengthRatio, Contribution;
    SaturationRises(f.k1, Frequency(f, d, t), Frequency(f, e, t), LengthTerm(f, LengthRatio(docs, d, t)));
    SaturationDecides(f, docs, d, e, t);
  }

  lemma LongerChunkHasLargerRatio(docs: seq<Doc>, d: Doc, e: Doc, t: Term)
    requires d in docs && e in docs && Has(d, t) && Has(e, t) && Length(d) < Length(e)
    ensures LengthRatio(docs, d, t) < LengthRatio(docs, e, t)
  {
    AverageIsPositive(docs, d, t);
    QuotientRises(Length(d) as real, Length(e) as real, AverageLength(docs));
  }

  /** Of two chunks in which the term weighs the same, the shorter one gets more for it. */
  lemma ShorterChunkContributesMore(f: Formula, docs: seq<Doc>, d: Doc, e: Doc, t: Term)
    requires Proper(f) && f.b > 0.0 && d in docs && e in docs && Has(d, t) && Has(e, t) && Length(d) < Length(e)
    requires Frequency(f, d, t) == Frequency(f, e, t)
    ensures Contribution(f, docs, d, t) > Contribution(f, docs, e, t)
  {
    hide Saturated, Saturation, LengthTerm, Frequency, LengthRatio, Contribution;
    var x, y := LengthRatio(docs, d, t), LengthRatio(docs, e, t);
    LongerChunkHasLargerRatio(docs, d, e, t);
    LengthTermRises(f, x, y);
    SaturatedIs(f, docs, d, t);
    SaturatedIs(f, docs, e, t);
    SaturationFalls(f.k1, Frequency(f, d, t), LengthTerm(f, x), LengthTerm(f, y));
    SaturationDecides(f, docs, e, d, t);
  }

  function Score(f: Formula, docs: seq<Doc>, d: Doc, terms: seq<Term>): real
    requires Proper(f) && d in docs
  {
    if terms == [] then 0.0
    else
      var t := terms[|terms| - 1];
      Score(f, docs, d, terms[..|terms| - 1]) + if Has(d, t) then Contribution(f, docs, d, t) else 0.0
  }

  /** The share of one query term, nothing when the chunk does not have it. */
  function Share(f: Formula, docs: seq<Doc>, d: Doc, t: Term): real
    requires Proper(f) && d in docs
  {
    if Has(d, t) then Contribution(f, docs, d, t) else 0.0
  }

  /** A score is the sum of the shares: a longer query adds what its own terms bring, and a
      term asked for twice counts twice. */
  lemma {:induction false} ScoresAddUp(f: Formula, docs: seq<Doc>, d: Doc, a: seq<Term>, b: seq<Term>)
    requires Proper(f) && d in docs
    ensures Score(f, docs, d, a + b) == Score(f, docs, d, a) + Score(f, docs, d, b)
    ensures |b| == 1 ==> Score(f, docs, d, b) == Share(f, docs, d, b[0])
  {
    hide Contribution;
    if b == [] {
      assert a + b == a;
    } else {
      var before := b[..|b| - 1];
      ScoresAddUp(f, docs, d, a, before);
      assert (a + b)[..|a + b| - 1] == a + before;
    }
  }

  predicate Shares(d: Doc, terms: seq<Term>) { exists t :: t in terms && Has(d, t) }

  /** A chunk scores exactly when it shares a term with the query. */
  lemma {:induction false} ScoresExactlyWhenShared(f: Formula, docs: seq<Doc>, d: Doc, terms: seq<Term>)
    requires Proper(f) && d in docs
    ensures Score(f, docs, d, terms) >= 0.0
    ensures Score(f, docs, d, terms) > 0.0 <==> Shares(d, terms)
  {
    if terms != [] {
      var before, t := terms[..|terms| - 1], terms[|terms| - 1];
      ScoresExactlyWhenShared(f, docs, d, before);
      assert forall u :: u in terms <==> u in before || u == t;
      if Has(d, t) { ContributionIsBounded(f, docs, d, t); }
    }
  }

  // ---------- The scan ----------

  function Hits(f: Formula, docs: seq<Doc>, terms: seq<Term>, n: nat): seq<Scored<Doc>>
    requires Proper(f) && n <= |docs|
  {
    if n == 0 then []
    else
      var score := Score(f, docs, docs[n - 1], terms);
      Hits(f, docs, terms, n - 1) + if score > 0.0 then [Scored(docs[n - 1], score)] else []
  }

  lemma {:induction false} HitsAreTheSharing(f: Formula, docs: seq<Doc>, terms: seq<Term>, n: nat)
    requires Proper(f) && n <= |docs|
    ensures forall h :: h in Hits(f, docs, terms, n) <==>
              h.item in docs[..n] && Shares(h.item, terms) && h.score == Score(f, docs, h.item, terms)
  {
    if n > 0 {
      HitsAreTheSharing(f, docs, terms, n - 1);
      ScoresExactlyWhenShared(f, docs, docs[n - 1], terms);
      assert docs[..n] == docs[..n - 1] + [docs[n - 1]];
    }
  }

  /** What `search` returns. */
  function Search(f: Formula, docs: seq<Doc>, terms: seq<Term>, topN: nat): seq<Scored<Doc>>
    requires Proper(f)
  {
    Best(Hits(f, docs, terms, |docs|), topN)
  }

  /** The answer to a query, before the cut: exactly the chunks that share a term
      with it. The cut keeps the best of them, in descending score. */
  lemma SearchAgreesWithScan(f: Formula, docs: seq<Doc>, terms: seq<Term>, topN: nat)
    returns (dropped: seq<Scored<Doc>>)
    requires Proper(f)
    ensures var r := Search(f, docs, terms, topN);
            && Descending(r) && |r| <= topN && (dropped != [] ==> |r| == topN)
            && multiset(r + dropped) == multiset(Hits(f, docs, terms, |docs|))
            && (forall i, j | 0 <= i < |r| && 0 <= j < |dropped| :: r[i].score >= dropped[j].score)
            && forall d :: (exists h :: h in r + dropped && h.item == d) <==> d in docs && Shares(d, terms)
  {
    var hits := Hits(f, docs, terms, |docs|);
    dropped := BestAreKept(hits, topN);
    var r := Search(f, docs, terms, topN);
    HitsAreTheSharing(f, docs, terms, |docs|);
    assert docs[..|docs|] == docs;
    assert multiset(r + dropped) == multiset(hits);
    forall d ensures (exists h :: h in r + dropped && h.item == d) <==> d in docs && Shares(d, terms) {
      if d in docs && Shares(d, terms) {
        var h := Scored(d, Score(f, docs, d, terms));
        assert h in hits && h in multiset(hits) && h in r + dropped;
      }
      forall h | h in r + dropped ensures h in hits { assert h in multiset(r + dropped); }
    }
  }

  // ---------- The object ----------

  /** The term weights of one chunk. */
  ghost predicate Weighs(w: real, tf: map<Term, real>, content: seq<Term>, symbol: seq<Term>) {
    && (forall t :: t in tf <==> t in content || t in symbol)
    && (forall t | t in tf :: tf[t] == Weight(w, content, symbol, t))
  }

  lemma OccurrencesOfMore(s: seq<Term>, t: Term, u: Term)
    ensures Occurrences(s + [t], u) == Occurrences(s, u) + if u == t then 1 else 0
    ensures u !in s ==> Occurrences(s, u) == 0
  {
    assert (s + [t])[..|s|] == s;
    OccursWhenIn(s, u);
  }

  lemma OneMore(w: real, n: nat)
    ensures w * (n + 1) as real == w * n as real + w
  {
  }

  lemma WeightOfMore(w: real, content: seq<Term>, symbol: seq<Term>, t: Term, u: Term)
    ensures Weight(w, content + [t], symbol, u) == Weight(w, content, symbol, u) + if u == t then 1.0 else 0.0
    ensures Weight(w, content, symbol + [t], u) == Weight(w, content, symbol, u) + if u == t then w else 0.0
    ensures u !in content && u !in symbol ==> Weight(w, content, symbol, u) == 0.0
  {
    hide Occurrences;
    OccurrencesOfMore(content, t, u);
    OccurrencesOfMore(symbol, t, u);
    OneMore(w, Occurrences(symbol, u));
  }

  method Bump(tf: map<Term, real>, t: Term, by_: real) returns (r: map<Term, real>)
    ensures r.Keys == tf.Keys + {t}
    ensures forall u | u in r :: r[u] == (if u in tf then tf[u] else 0.0) + if u == t then by_ else 0.0
  {
    r := tf[t := (if t in tf then tf[t] else 0.0) + by_];
  }

  method AddContent(w: real, tf: map<Term, real>, content: seq<Term>, symbol: seq<Term>, t: Term)
    returns (r: map<Term, real>)
    requires Weighs(w, tf, content, symbol)
    ensures Weighs(w, r, content + [t], symbol)
  {
    hide Weight;
    r := Bump(tf, t, 1.0);
    forall u | u in r ensures r[u] == Weight(w, content + [t], symbol, u) { WeightOfMore(w, content, symbol, t, u); }
  }

  method AddSymbol(w: real, tf: map<Term, real>, content: seq<Term>, symbol: seq<Term>, t: Term)
    returns (r: map<Term, real>)
    requires Weighs(w, tf, content, symbol)
    ensures Weighs(w, r, content, symbol + [t])
  {
    hide Weight;
    r := Bump(tf, t, w);
    forall u | u in r ensures r[u] == Weight(w, content, symbol + [t], u) { WeightOfMore(w, content, symbol, t, u); }
  }

  method TermWeights(w: real, d: Doc) returns (tf: map<Term, real>)
    ensures Weighs(w, tf, d.content, d.symbol)
  {
    tf := map[];
    for i := 0 to |d.content|
      invariant Weighs(w, tf, d.content[..i], [])
    {
      tf := AddContent(w, tf, d.content[..i], [], d.content[i]);
      assert d.content[..i + 1] == d.content[..i] + [d.content[i]];
    }
    assert d.content[..|d.content|] == d.content;
    for i := 0 to |d.symbol|
      invariant Weighs(w, tf, d.content, d.symbol[..i])
    {
      tf := AddSymbol(w, tf, d.content, d.symbol[..i], d.symbol[i]);
      assert d.symbol[..i + 1] == d.symbol[..i] + [d.symbol[i]];
    }
    assert d.symbol[..|d.symbol|] == d.symbol;
  }

  ghost predicate CountsDocuments(df: map<Term, nat>, docs: seq<Doc>) {
    && (forall t :: t in df <==> DocumentFrequency(docs, t) > 0)
    && (forall t | t in df :: df[t] == DocumentFrequency(docs, t))
  }

  lemma CountOfMore(docs: seq<Doc>, d: Doc, t: Term)
    ensures DocumentFrequency(docs + [d], t) == DocumentFrequency(docs, t) + if Has(d, t) then 1 else 0
  {
    assert (docs + [d])[..|docs|] == docs;
  }

  method CountTerms(df: map<Term, nat>, tf: map<Term, real>) returns (r: map<Term, nat>)
    ensures forall t :: t in r <==> t in df || t in tf
    ensures forall t :: t in r ==> r[t] == (if t in df then df[t] else 0) + if t in tf then 1 else 0
  {
    r := df;
    var keys := tf.Keys;
    while keys != {}
      invariant keys <= tf.Keys
      invariant forall t :: t in r <==> t in df || (t in tf && t !in keys)
      invariant forall t :: t in r ==> r[t] == (if t in df then df[t] else 0) + if t in tf && t !in keys then 1 else 0
      decreases |keys|
    {
      var t :| t in keys;
      r := r[t := (if t in r then r[t] else 0) + 1];
      keys := keys - {t};
    }
  }

  lemma CountedOneMore(df: map<Term, nat>, r: map<Term, nat>, docs: seq<Doc>, d: Doc, w: real, tf: map<Term, real>)
    requires CountsDocuments(df, docs) && Weighs(w, tf, d.content, d.symbol)
    requires forall t :: t in r <==> t in df || t in tf
    requires forall t :: t in r ==> r[t] == (if t in df then df[t] else 0) + if t in tf then 1 else 0
    ensures CountsDocuments(r, docs + [d])
  {
    forall t ensures DocumentFrequency(docs + [d], t) == DocumentFrequency(docs, t) + if t in tf then 1 else 0 {
      CountOfMore(docs, d, t);
    }
    hide DocumentFrequency, Weight;
  }

  /** One row of counts and one length for each of the first chunks. */
  ghost predicate Rows(w: real, docs: seq<Doc>, counts: seq<map<Term, real>>, lengths: seq<nat>) {
    && |counts| == |lengths| <= |docs|
    && (forall i | 0 <= i < |counts| :: Weighs(w, counts[i], docs[i].content, docs[i].symbol))
    && (forall i | 0 <= i < |counts| :: lengths[i] == Length(docs[i]))
  }

  lemma RowsGrow(w: real, docs: seq<Doc>, counts: seq<map<Term, real>>, lengths: seq<nat>, tf: map<Term, real>)
    requires Rows(w, docs, counts, lengths) && |counts| < |docs|
    requires Weighs(w, tf, docs[|counts|].content, docs[|counts|].symbol)
    ensures Rows(w, docs, counts + [tf], lengths + [Length(docs[|counts|])])
  {
    hide Weighs;
  }

  class SimpleBM25Index {
    const f: Formula
    const docs: seq<Doc>
    var counts: seq<map<Term, real>>
    var lengths: seq<nat>
    var df: map<Term, nat>
    var idf: map<Term, real>
    var avgdl: real

    /** The counting tables say what a scan of the first `n` chunks would say. */
    ghost predicate Counted(n: nat)
      requires n <= |docs|
      reads this
    {
      |counts| == n && Rows(f.symbolWeight, docs, counts, lengths) && CountsDocuments(df, docs[..n])
    }

    /** Every table says what a scan of the chunks would say. */
    ghost predicate Fitted()
      reads this
    {
      && Counted(|docs|)
      && idf.Keys == df.Keys
      && (forall t | t in idf :: idf[t] == Idf(f.ln, |docs|, DocumentFrequency(docs, t)))
      && (docs != [] ==> avgdl == AverageLength(docs))
    }

    constructor (ln: real -> real, docs: seq<Doc>, symbolWeight: real := SYMBOL_WEIGHT, k1: real := K1, b: real := B)
      ensures Fitted() && f == Formula(ln, symbolWeight, k1, b) && this.docs == docs
    {
      this.f, this.docs := Formula(ln, symbolWeight, k1, b), docs;
      counts, lengths, df, idf, avgdl := [], [], map[], map[], 0.0;
      new;
      if |docs| > 0 { Fit(); }
    }

    /** One round of the first loop of `_fit`. */
    method AddDocument(i: nat, total: nat) returns (longer: nat)
      requires i < |docs| && Counted(i) && total == TotalLength(docs[..i])
      modifies this`counts, this`lengths, this`df
      ensures Counted(i + 1) && longer == TotalLength(docs[..i + 1])
    {
      var d := docs[i];
      assert docs[..i + 1] == docs[..i] + [d] && docs[..i + 1][..i] == docs[..i];
      var tf := TermWeights(f.symbolWeight, d);
      RowsGrow(f.symbolWeight, docs, counts, lengths, tf);
      counts := counts + [tf];
      lengths := lengths + [|d.content| + |d.symbol|];
      longer := total + |d.content| + |d.symbol|;
      ghost var was := df;
      df := CountTerms(df, tf);
      CountedOneMore(was, df, docs[..i], d, f.symbolWeight, tf);
      hide Rows, Weighs, CountsDocuments;
    }

    method Fit()
      requires docs != [] && counts == [] && lengths == [] && df == map[] && idf == map[]
      modifies this
      ensures Fitted()
    {
      var total := 0;
      assert docs[..0] == [];
      for i := 0 to |docs|
        invariant Counted(i) && idf == map[] && total == TotalLength(docs[..i])
      {
        hide Weighs, CountsDocuments, TotalLength;
        total := AddDocument(i, total);
      }
      assert docs[..|docs|] == docs;
      hide Weighs, TotalLength, Idf;
      avgdl := total as real / |docs| as real;
      FitIdf();
    }

    method FitIdf()
      requires CountsDocuments(df, docs) && idf == map[]
      modifies this`idf
      ensures idf.Keys == df.Keys
      ensures forall t | t in idf :: idf[t] == Idf(f.ln, |docs|, DocumentFrequency(docs, t))
    {
      var keys := df.Keys;
      while keys != {}
        invariant keys <= df.Keys && idf.Keys == df.Keys - keys
        invariant forall t | t in idf :: idf[t] == Idf(f.ln, |docs|, DocumentFrequency(docs, t))
        decreases |keys|
      {
        var t :| t in keys;
        idf := idf[t := Idf(f.ln, |docs|, df[t])];
        keys := keys - {t};
      }
    }

    /** The innermost lines of `search`: the formula on the fitted tables. */
    method TermScore(i: nat, t: Term) returns (score: real)
      requires Fitted() && Proper(f) && i < |docs| && t in counts[i]
      ensures Has(docs[i], t) && score == Contribution(f, docs, docs[i], t)
    {
      hide Saturation, LengthTerm, Weight, Idf;
      assert docs[..|docs|] == docs;
      assert Weighs(f.symbolWeight, counts[i], docs[i].content, docs[i].symbol);
      CountOfOne(docs, i, t);
      FrequencyIsPositive(f, docs[i], t);
      AverageIsPositive(docs, docs[i], t);
      var tf, ratio := counts[i][t], lengths[i] as real / avgdl;
      assert tf == Frequency(f, docs[i], t) && ratio == LengthRatio(docs, docs[i], t);
      LengthTermIsPositive(f, ratio);
      score := idf[t] * Saturation(f.k1, tf, LengthTerm(f, ratio));
    }

    method DocumentScore(i: nat, terms: seq<Term>) returns (score: real)
      requires Fitted() && Proper(f) && i < |docs|
      ensures score == Score(f, docs, docs[i], terms)
    {
      score := 0.0;
      for j := 0 to |terms|
        invariant score == Score(f, docs, docs[i], terms[..j])
      {
        var t := terms[j];
        assert terms[..j + 1][..j] == terms[..j];
        assert t in counts[i] <==> Has(docs[i], t) by {
          assert Weighs(f.symbolWeight, counts[i], docs[i].content, docs[i].symbol);
        }
        if t in counts[i] {
          var share := TermScore(i, t);
          score := score + share;
        }
      }
      assert terms[..|terms|] == terms;
    }

    /** `terms` lists the distinct terms of the query, in any order. */
    method SearchFor(terms: seq<Term>, topN: nat) returns (r: seq<Scored<Doc>>)
      requires Fitted() && Proper(f)
      ensures r == Search(f, docs, terms, topN)
    {
      var results := [];
      for i := 0 to |docs|
        invariant results == Hits(f, docs, terms, i)
      {
        var score := DocumentScore(i, terms);
        if score > 0.0 { results := results + [Scored(docs[i], score)]; }
      }
      r := SortDescending(results);
      if |r| > topN { r := r[..topN]; }
    }
  }

  lemma {:induction false} CountOfOne(docs: seq<Doc>, i: nat, t: Term)
    requires i < |docs| && Has(docs[i], t)
    ensures DocumentFrequency(docs, t) > 0
  {
    if i < |docs| - 1 { CountOfOne(docs[..|docs| - 1], i, t); }
  }
}
