/** Okapi BM25 keyword scoring over a set of chunks (ai/bm25-search.ts).
    The scorer keeps one in-memory index and rebuilds it only when the
    number of chunks it is asked about changes. */
module Bm25 {
  import opened Common
  import opened Seqs
  import opened Sorting

  /** Term-frequency saturation. */
  const K1: real := 1.2
  /** Document-length normalisation. */
  const B: real := 0.75

  /** Library text operations the scorer relies on and that are not modelled
      here: `String.prototype.toLowerCase`, the `natural` word tokenizer and
      the English stopword test of the `stopword` package. */
  datatype TextOps = TextOps(
    lower: string -> string,
    tokenize: string -> seq<string>,
    isStopword: string -> bool)

  predicate EndsWith(s: string, suffix: string)
  {
    |suffix| <= |s| && s[|s| - |suffix|..] == suffix
  }

  /** True when one of the four suffix rules fires for `token`. */
  predicate HasStemSuffix(token: string)
  {
    EndsWith(token, "ing") || EndsWith(token, "ed") || EndsWith(token, "es")
    || (EndsWith(token, "s") && |token| > 3)
  }

  /** Light suffix stripping: at most one suffix is removed, the rules are
      tried in the order "ing", "ed", "es", "s" (the last only for tokens
      longer than three characters). */
  function Stem(token: string): (r: string)
    ensures r <= token
    ensures |token| - |r| <= 3
    ensures r == token <==> !HasStemSuffix(token)
    ensures EndsWith(token, "ing") ==> r + "ing" == token
    ensures !EndsWith(token, "ing") && EndsWith(token, "ed") ==> r + "ed" == token
    ensures (!EndsWith(token, "ing") && !EndsWith(token, "ed") && EndsWith(token, "es"))
              ==> r + "es" == token
    ensures (!EndsWith(token, "ing") && !EndsWith(token, "ed") && !EndsWith(token, "es")
             && EndsWith(token, "s") && |token| > 3)
              ==> r + "s" == token
  {
    if EndsWith(token, "ing") then token[..|token| - 3]
    else if EndsWith(token, "ed") then token[..|token| - 2]
    else if EndsWith(token, "es") then token[..|token| - 2]
    else if EndsWith(token, "s") && |token| > 3 then token[..|token| - 1]
    else token
  }

  /** `removeStopwords(tokens, eng)`: the tokens that are not stopwords. */
  function RemoveStopwords(ops: TextOps, tokens: seq<string>): (r: seq<string>)
    ensures IsSubseq(r, tokens)
    ensures forall t :: t in r ==> t in tokens && !ops.isStopword(t)
  {
    var r := Filter(tokens, (w: string) => !ops.isStopword(w));
    SubseqMembers(r, tokens);
    r
  }

  /** Lower-case, tokenize, drop stopwords, stem, and keep tokens longer than
      two characters. */
  function Preprocess(ops: TextOps, text: string): (r: seq<string>)
    ensures forall t :: t in r ==> |t| > 2
    ensures |r| <= |ops.tokenize(ops.lower(text))|
  {
    var filtered := RemoveStopwords(ops, ops.tokenize(ops.lower(text)));
    var stemmed := seq(|filtered|, i requires 0 <= i < |filtered| => Stem(filtered[i]));
    Filter(stemmed, (t: string) => |t| > 2)
  }

  /** Each preprocessed token is the stem of a non-stopword token of the
      lower-cased text. */
  lemma PreprocessOrigin(ops: TextOps, text: string, t: string)
    requires t in Preprocess(ops, text)
    ensures exists w :: w in ops.tokenize(ops.lower(text)) && !ops.isStopword(w) && t == Stem(w)
  {
    var filtered := RemoveStopwords(ops, ops.tokenize(ops.lower(text)));
    var stemmed := seq(|filtered|, i requires 0 <= i < |filtered| => Stem(filtered[i]));
    var r := Filter(stemmed, (t: string) => |t| > 2);
    assert r == Preprocess(ops, text);
    SubseqMembers(r, stemmed);
    var i :| 0 <= i < |stemmed| && stemmed[i] == t;
    assert filtered[i] in filtered;
  }

  // ---------------------------------------------------------------------
  // The index

  datatype Document = Document(id: string, tokens: seq<string>, termFreq: map<string, nat>, docLength: nat)

  datatype Index = Index(
    documents: seq<Document>,
    totalDocs: nat,
    avgDocLength: real,
    termDocFreq: map<string, nat>)

  /** Occurrences of each token of a document. */
  function TermCounts(tokens: seq<string>): (m: map<string, nat>)
    ensures m.Keys == set t | t in tokens
  {
    map t | t in tokens :: multiset(tokens)[t]
  }

  function DocumentOf(ops: TextOps, c: Chunk): Document
  {
    var tokens := Preprocess(ops, c.content);
    Document(c.id, tokens, TermCounts(tokens), |tokens|)
  }

  /** `DocumentOf` for a fixed text pipeline. */
  function DocumentOfWith(ops: TextOps): Chunk -> Document
  {
    c => DocumentOf(ops, c)
  }

  /** The document entries of `chunks`, one per chunk and in chunk order. */
  function Documents(ops: TextOps, chunks: seq<Chunk>): (docs: seq<Document>)
    ensures |docs| == |chunks|
    ensures forall i :: 0 <= i < |chunks| ==> docs[i] == DocumentOf(ops, chunks[i])
  {
    Map(chunks, DocumentOfWith(ops))
  }

  /** One more chunk adds its document at the end. */
  lemma DocumentsSnoc(ops: TextOps, chunks: seq<Chunk>, i: nat)
    requires i < |chunks|
    ensures Documents(ops, chunks[..i + 1]) == Documents(ops, chunks[..i]) + [DocumentOf(ops, chunks[i])]
  {
    MapSnoc(chunks, DocumentOfWith(ops), i);
  }

  function TotalLength(docs: seq<Document>): nat
  {
    if docs == [] then 0 else TotalLength(docs[..|docs| - 1]) + docs[|docs| - 1].docLength
  }

  /** Number of documents whose tokens contain `t`. */
  function DocsContaining(docs: seq<Document>, t: string): (n: nat)
    ensures n <= |docs|
  {
    if docs == [] then 0
    else DocsContaining(docs[..|docs| - 1], t) + (if t in docs[|docs| - 1].tokens then 1 else 0)
  }

  /** Adds one to the count of every term in `terms`. */
  function AddTerms(m: map<string, nat>, terms: set<string>): map<string, nat>
  {
    map t | t in m.Keys + terms :: (if t in m then m[t] else 0) + (if t in terms then 1 else 0)
  }

  /** The `termDocFreq` map after the build loop has seen `docs`. */
  function DocFreqs(docs: seq<Document>): map<string, nat>
  {
    if docs == [] then map[]
    else AddTerms(DocFreqs(docs[..|docs| - 1]), TermSet(docs[|docs| - 1].tokens))
  }

  /** `new Set(tokens)`. */
  function TermSet(tokens: seq<string>): (ts: set<string>)
    ensures forall t :: t in ts <==> t in tokens
  {
    set t | t in tokens
  }

  /** `total / count`; a build over no chunks divides 0 by 0, which is NaN in
      JavaScript and is represented here by 0. */
  function Average(total: nat, count: nat): (r: real)
    ensures r >= 0.0
    ensures count > 0 && total > 0 ==> r > 0.0
  {
    if count == 0 then 0.0 else total as real / count as real
  }

  /** The index `buildIndex(chunks)` produces. */
  function IndexOf(ops: TextOps, chunks: seq<Chunk>): Index
  {
    var docs := Documents(ops, chunks);
    Index(docs, |chunks|, Average(TotalLength(docs), |chunks|), DocFreqs(docs))
  }

  /** Every document of the index appears in the total length. */
  lemma {:induction false} TotalLengthBound(docs: seq<Document>, i: nat)
    requires i < |docs|
    ensures docs[i].docLength <= TotalLength(docs)
  {
    if i < |docs| - 1 {
      TotalLengthBound(docs[..|docs| - 1], i);
    }
  }

  /** Document frequency counts documents, not occurrences: a term is in the
      map exactly when some document contains it, and its count is the
      number of documents containing it, between 1 and the document count. */
  lemma {:induction false} DocFreqsCount(docs: seq<Document>, t: string)
    ensures t in DocFreqs(docs) <==> DocsContaining(docs, t) > 0
    ensures t in DocFreqs(docs) ==> DocFreqs(docs)[t] == DocsContaining(docs, t)
    ensures t in DocFreqs(docs) ==> 1 <= DocFreqs(docs)[t] <= |docs|
  {
    if docs != [] {
      DocFreqsCount(docs[..|docs| - 1], t);
    }
  }

  /** What scoring needs of an index: every document with a term has a
      positive average length to be divided by. */
  ghost predicate Coherent(idx: Index)
  {
    idx.avgDocLength >= 0.0 &&
    forall d, t :: d in idx.documents && t in d.termFreq ==> idx.avgDocLength > 0.0
  }

  /** `buildIndex` records one entry per chunk in input order, with its token
      count, and counts every chunk; the average length is the total token
      count over the chunk count; the result is fit for scoring. */
  lemma IndexOfFacts(ops: TextOps, chunks: seq<Chunk>)
    ensures IndexOf(ops, chunks).totalDocs == |chunks|
    ensures |IndexOf(ops, chunks).documents| == |chunks|
    ensures forall i :: 0 <= i < |chunks| ==>
              IndexOf(ops, chunks).documents[i] == DocumentOf(ops, chunks[i])
    ensures |chunks| > 0 ==>
              IndexOf(ops, chunks).avgDocLength
              == TotalLength(IndexOf(ops, chunks).documents) as real / |chunks| as real
    ensures Coherent(IndexOf(ops, chunks))
  {
    var idx := IndexOf(ops, chunks);
    var docs := idx.documents;
    assert idx.avgDocLength == Average(TotalLength(docs), |chunks|);
    forall d, t | d in docs && t in d.termFreq ensures idx.avgDocLength > 0.0 {
      var i :| 0 <= i < |docs| && docs[i] == d;
      var toks := Preprocess(ops, chunks[i].content);
      assert d == Document(chunks[i].id, toks, TermCounts(toks), |toks|);
      assert t in toks;
      TotalLengthBound(docs, i);
    }
  }

  // ---------------------------------------------------------------------
  // Scoring

  /** `doc.termFreq.get(term) || 0`. */
  function Tf(d: Document, t: string): nat
  {
    if t in d.termFreq then d.termFreq[t] else 0
  }

  /** `calculateIDF`: zero without an index or for a term no document has;
      otherwise `ln((N - df + 0.5) / (df + 0.5))`. */
  function Idf(idx: Option<Index>, ln: real -> real, t: string): (r: real)
    ensures idx.None? ==> r == 0.0
    ensures idx.Some? && (t !in idx.value.termDocFreq || idx.value.termDocFreq[t] == 0) ==> r == 0.0
    ensures idx.Some? && t in idx.value.termDocFreq && idx.value.termDocFreq[t] > 0 ==>
              var n := idx.value.totalDocs as real;
              var df := idx.value.termDocFreq[t] as real;
              r == ln((n - df + 0.5) / (df + 0.5))
  {
    match idx
    case None => 0.0
    case Some(index) =>
      var docFreq := if t in index.termDocFreq then index.termDocFreq[t] else 0;
      if docFreq == 0 then 0.0
      else ln((index.totalDocs as real - docFreq as real + 0.5) / (docFreq as real + 0.5))
  }

  /** `k1·(1 − b + b·dl/avgdl)`: the length-normalised saturation constant. */
  function LengthNorm(docLength: nat, avgDocLength: real): (c: real)
    requires avgDocLength > 0.0
    ensures c >= K1 * (1.0 - B)
    ensures docLength as real <= avgDocLength ==> c <= K1
  {
    var lengthRatio := docLength as real / avgDocLength;
    assert lengthRatio >= 0.0;
    assert docLength as real <= avgDocLength ==> lengthRatio <= 1.0;
    K1 * (1.0 - B + B * lengthRatio)
  }

  /** The BM25 term weight `tf·(k1+1) / (tf + k1·(1 − b + b·dl/avgdl))`. */
  function TermWeight(tf: nat, docLength: nat, avgDocLength: real): real
    requires avgDocLength > 0.0
  {
    (tf as real * (K1 + 1.0)) / (tf as real + LengthNorm(docLength, avgDocLength))
  }

  /** What one query term adds to a document's score. */
  function Contribution(idx: Index, ln: real -> real, t: string, d: Document): real
    requires Coherent(idx) && d in idx.documents
  {
    var tf := Tf(d, t);
    if tf == 0 then 0.0 else Idf(Some(idx), ln, t) * TermWeight(tf, d.docLength, idx.avgDocLength)
  }

  /** BM25 score of a document: the contributions of the query terms, one per
      occurrence in the query. */
  function Score(idx: Index, ln: real -> real, queryTerms: seq<string>, d: Document): real
    requires Coherent(idx) && d in idx.documents
  {
    if queryTerms == [] then 0.0
    else Score(idx, ln, queryTerms[..|queryTerms| - 1], d) + Contribution(idx, ln, queryTerms[|queryTerms| - 1], d)
  }

  /** A document that shares no term with the query scores zero. */
  lemma {:induction false} ScoreNoSharedTerm(idx: Index, ln: real -> real, queryTerms: seq<string>, d: Document)
    requires Coherent(idx) && d in idx.documents
    requires forall t :: t in queryTerms ==> t !in d.termFreq
    ensures Score(idx, ln, queryTerms, d) == 0.0
  {
    if queryTerms != [] {
      ScoreNoSharedTerm(idx, ln, queryTerms[..|queryTerms| - 1], d);
    }
  }

  /** The score of a concatenated query is the sum of the scores. */
  lemma {:induction false} ScoreAppend(idx: Index, ln: real -> real, q1: seq<string>, q2: seq<string>, d: Document)
    requires Coherent(idx) && d in idx.documents
    ensures Score(idx, ln, q1 + q2, d) == Score(idx, ln, q1, d) + Score(idx, ln, q2, d)
    decreases |q2|
  {
    if q2 == [] {
      assert q1 + q2 == q1;
    } else {
      assert (q1 + q2)[..|q1 + q2| - 1] == q1 + q2[..|q2| - 1];
      ScoreAppend(idx, ln, q1, q2[..|q2| - 1], d);
    }
  }

  /** Repeating the query doubles every score: a repeated query term is
      counted once per occurrence. */
  lemma RepeatedQueryDoublesScore(idx: Index, ln: real -> real, queryTerms: seq<string>, d: Document)
    requires Coherent(idx) && d in idx.documents
    ensures Score(idx, ln, queryTerms + queryTerms, d) == 2.0 * Score(idx, ln, queryTerms, d)
  {
    ScoreAppend(idx, ln, queryTerms, queryTerms, d);
  }

  /** For a fixed document length, a larger term frequency never gives a
      smaller term weight, and the weight stays below k1 + 1. */
  lemma TermWeightMonotone(tf1: nat, tf2: nat, docLength: nat, avgDocLength: real)
    requires avgDocLength > 0.0 && tf1 <= tf2
    ensures TermWeight(tf1, docLength, avgDocLength) <= TermWeight(tf2, docLength, avgDocLength)
    ensures TermWeight(tf2, docLength, avgDocLength) < K1 + 1.0
  {
    var c := LengthNorm(docLength, avgDocLength);
    SaturationMonotone(tf1 as real, tf2 as real, c);
  }

  /** `x·(k1+1)/(x + c)` grows with `x` and stays below `k1 + 1`. */
  lemma SaturationMonotone(x1: real, x2: real, c: real)
    requires 0.0 <= x1 <= x2 && c > 0.0
    ensures x1 * (K1 + 1.0) / (x1 + c) <= x2 * (K1 + 1.0) / (x2 + c)
    ensures x2 * (K1 + 1.0) / (x2 + c) < K1 + 1.0
  {
    var k := K1 + 1.0;
    var n1, d1, n2, d2 := x1 * k, x1 + c, x2 * k, x2 + c;
    CrossExpand(x1, x2, c, k);
    CrossExpand(x2, x1, c, k);
    MulMonotone(x1, x2, c);
    MulMonotone(c * x1, c * x2, k);
    DivCompare(n1, d1, n2, d2);
    assert x2 * k < (x2 + c) * k by { MulStrict(x2 + c, x2, k); }
    DivBelow(x2 * k, x2 + c, k);
  }

  lemma DivCompare(a: real, b: real, c: real, d: real)
    requires b > 0.0 && d > 0.0 && a * d <= c * b
    ensures a / b <= c / d
  {
    var q1, q2 := a / b, c / d;
    assert q1 * b == a;
    assert q2 * d == c;
    assert q1 * (b * d) == a * d;
    assert q2 * (b * d) == c * b;
    if q1 > q2 {
      MulStrict(q1, q2, b * d);
      assert false;
    }
  }

  lemma CrossExpand(x: real, y: real, c: real, k: real)
    ensures (x * k) * (y + c) == k * (x * y) + k * (c * x)
  {
  }

  lemma MulMonotone(a: real, b: real, p: real)
    requires a <= b && p >= 0.0
    ensures p * a <= p * b
  {
    MulNonneg(p, b - a);
    assert p * b - p * a == p * (b - a);
  }

  lemma MulNonneg(a: real, b: real)
    requires a >= 0.0 && b >= 0.0
    ensures a * b >= 0.0
  {
  }

  lemma MulStrict(a: real, b: real, p: real)
    requires a > b && p > 0.0
    ensures a * p > b * p
  {
  }

  lemma DivBelow(a: real, p: real, k: real)
    requires p > 0.0 && a < p * k
    ensures a / p < k
  {
    var q := a / p;
    assert q * p == a;
    if q >= k {
      assert q * p >= k * p;
    }
  }

  // ---------------------------------------------------------------------
  // Search

  /** A scored chunk before ranking. */
  datatype Hit = Hit(chunk: Chunk, score: real)

  datatype Bm25Result = Bm25Result(chunk: Chunk, score: real, rank: nat)

  /** Scores every indexed document in index order; documents whose id is
      not among `chunks` are skipped and only positive scores are kept. */
  function Hits(idx: Index, ln: real -> real, queryTerms: seq<string>, chunks: seq<Chunk>, docs: seq<Document>): (hs: seq<Hit>)
    requires Coherent(idx) && forall d :: d in docs ==> d in idx.documents
    ensures |hs| <= |docs|
    ensures forall h :: h in hs ==> h.score > 0.0 && h.chunk in chunks
  {
    if docs == [] then []
    else
      var d := docs[|docs| - 1];
      var rest := Hits(idx, ln, queryTerms, chunks, docs[..|docs| - 1]);
      match FindById(chunks, d.id)
      case None => rest
      case Some(c) =>
        var s := Score(idx, ln, queryTerms, d);
        if s > 0.0 then rest + [Hit(c, s)] else rest
  }

  /** The hits are exactly the documents of `docs` whose chunk is known
      and whose score is positive, each with that chunk and that score. */
  lemma {:induction false} HitsFacts(idx: Index, ln: real -> real, queryTerms: seq<string>, chunks: seq<Chunk>, docs: seq<Document>)
    requires Coherent(idx) && forall d :: d in docs ==> d in idx.documents
    ensures forall h :: h in Hits(idx, ln, queryTerms, chunks, docs) ==>
              exists d :: d in docs && FindById(chunks, d.id) == Some(h.chunk) && h.score == Score(idx, ln, queryTerms, d)
    ensures forall d :: d in docs && FindById(chunks, d.id).Some? && Score(idx, ln, queryTerms, d) > 0.0 ==>
              Hit(FindById(chunks, d.id).value, Score(idx, ln, queryTerms, d)) in Hits(idx, ln, queryTerms, chunks, docs)
  {
    if docs != [] {
      var n := |docs| - 1;
      var d := docs[n];
      HitsFacts(idx, ln, queryTerms, chunks, docs[..n]);
      assert forall x :: x in docs <==> x in docs[..n] || x == d;
      var rest := Hits(idx, ln, queryTerms, chunks, docs[..n]);
      var hs := Hits(idx, ln, queryTerms, chunks, docs);
      assert forall h :: h in rest ==> h in hs;
      forall h | h in hs
        ensures exists d' :: d' in docs && FindById(chunks, d'.id) == Some(h.chunk) && h.score == Score(idx, ln, queryTerms, d')
      {
        if h !in rest {
          assert FindById(chunks, d.id) == Some(h.chunk) && h.score == Score(idx, ln, queryTerms, d);
        } else {
          var d' :| d' in docs[..n] && FindById(chunks, d'.id) == Some(h.chunk) && h.score == Score(idx, ln, queryTerms, d');
          assert d' in docs;
        }
      }
    }
  }

  /** Sorted by score, largest first (stable), cut at `topK`, ranked 1..n. */
  function Ranked(hits: seq<Hit>, topK: int): (rs: seq<Bm25Result>)
    ensures |rs| <= |hits|
    ensures topK >= 0 ==> |rs| == Min(topK, |hits|)
    ensures topK < 0 ==> |rs| == Max(0, |hits| + topK)
    ensures forall i :: 0 <= i < |rs| ==> rs[i].rank == i + 1 && Hit(rs[i].chunk, rs[i].score) in hits
    ensures forall i, j :: 0 <= i < j < |rs| ==> rs[i].score >= rs[j].score
  {
    var sorted := SortDesc(hits, (h: Hit) => h.score);
    var top := Slice(sorted, topK);
    assert forall h :: h in top ==> h in hits by {
      forall h | h in top ensures h in hits {
        SortDescMembers(hits, (h: Hit) => h.score, h);
      }
    }
    seq(|top|, i requires 0 <= i < |top| => Bm25Result(top[i].chunk, top[i].score, i + 1))
  }

  /** Whether the ranked list carries the hit `h`. */
  ghost predicate ReturnsHit(rs: seq<Bm25Result>, h: Hit)
  {
    exists i :: 0 <= i < |rs| && Hit(rs[i].chunk, rs[i].score) == h
  }

  /** The cut keeps the best hits: a hit left out scores no more than any
      hit that was kept. */
  lemma RankedKeepsBest(hits: seq<Hit>, topK: int)
    ensures var rs := Ranked(hits, topK);
      forall h :: h in hits && !ReturnsHit(rs, h) ==> forall i :: 0 <= i < |rs| ==> h.score <= rs[i].score
  {
    var key := (h: Hit) => h.score;
    var sorted := SortDesc(hits, key);
    var top := Slice(sorted, topK);
    var rs := Ranked(hits, topK);
    assert |rs| == |top| && forall i :: 0 <= i < |rs| ==> rs[i].chunk == top[i].chunk && rs[i].score == top[i].score;
    forall h, i | h in hits && !ReturnsHit(rs, h) && 0 <= i < |rs| ensures h.score <= rs[i].score {
      SortDescMembers(hits, key, h);
      var p :| 0 <= p < |sorted| && sorted[p] == h;
      if p < |top| {
        assert false;
      }
      assert top[i] == sorted[i];
      assert key(sorted[i]) >= key(sorted[p]);
    }
  }

  /** What `search` returns for a given index. */
  function SearchSpec(ops: TextOps, ln: real -> real, idx: Option<Index>, query: string, chunks: seq<Chunk>, topK: int): seq<Bm25Result>
    requires idx.Some? ==> Coherent(idx.value)
  {
    if chunks == [] || idx.None? || Preprocess(ops, query) == [] then []
    else Ranked(Hits(idx.value, ln, Preprocess(ops, query), chunks, idx.value.documents), topK)
  }

  /** Each result is the chunk of an indexed document, with that
      document's score. */
  ghost predicate FromDocuments(rs: seq<Bm25Result>, idx: Index, ln: real -> real, q: seq<string>, chunks: seq<Chunk>)
    requires Coherent(idx)
  {
    forall i :: 0 <= i < |rs| ==>
      exists d :: d in idx.documents && FindById(chunks, d.id) == Some(rs[i].chunk)
                  && rs[i].score == Score(idx, ln, q, d)
  }

  /** Every indexed document whose chunk is known and whose score is
      positive is returned, unless `topK` results were returned that all
      score at least as high. */
  ghost predicate NoBetterLeftOut(rs: seq<Bm25Result>, idx: Index, ln: real -> real, q: seq<string>, chunks: seq<Chunk>, topK: int)
    requires Coherent(idx)
  {
    forall d :: d in idx.documents && FindById(chunks, d.id).Some? && Score(idx, ln, q, d) > 0.0 ==>
      || ReturnsHit(rs, Hit(FindById(chunks, d.id).value, Score(idx, ln, q, d)))
      || ((topK >= 0 ==> |rs| == topK) && forall i :: 0 <= i < |rs| ==> Score(idx, ln, q, d) <= rs[i].score)
  }

  /** Every search result has a positive score and comes from `chunks`;
      scores do not increase down the list, ranks are 1..n, at most `topK`
      results are returned, and nothing is returned for an empty chunk list
      or a query that preprocesses to no terms. `SearchSpecComplete` ties
      the results to the documents' scores. */
  lemma SearchSpecProperties(ops: TextOps, ln: real -> real, idx: Option<Index>, query: string, chunks: seq<Chunk>, topK: int)
    requires idx.Some? ==> Coherent(idx.value)
    ensures var rs := SearchSpec(ops, ln, idx, query, chunks, topK);
      && (chunks == [] || Preprocess(ops, query) == [] ==> rs == [])
      && (topK >= 0 ==> |rs| <= topK)
      && (forall i :: 0 <= i < |rs| ==> rs[i].score > 0.0 && rs[i].rank == i + 1 && rs[i].chunk in chunks)
      && (forall i, j :: 0 <= i < j < |rs| ==> rs[i].score >= rs[j].score)
  {
    var q := Preprocess(ops, query);
    if chunks != [] && idx.Some? && q != [] {
      RankedHitsFacts(idx.value, ln, q, chunks, topK);
    }
  }

  /** With an index, every search result is the chunk of an indexed
      document with that document's score, and every indexed document
      whose chunk is known and whose score is positive is returned, unless
      `topK` results were returned that all score at least as high. */
  lemma SearchSpecComplete(ops: TextOps, ln: real -> real, idx: Index, query: string, chunks: seq<Chunk>, topK: int)
    requires Coherent(idx) && chunks != [] && Preprocess(ops, query) != []
    ensures FromDocuments(SearchSpec(ops, ln, Some(idx), query, chunks, topK), idx, ln, Preprocess(ops, query), chunks)
    ensures NoBetterLeftOut(SearchSpec(ops, ln, Some(idx), query, chunks, topK), idx, ln, Preprocess(ops, query), chunks, topK)
  {
    RankedHitsFacts(idx, ln, Preprocess(ops, query), chunks, topK);
  }

  /** `SearchSpecProperties` for the ranked hits of a non-empty query. */
  lemma RankedHitsFacts(idx: Index, ln: real -> real, q: seq<string>, chunks: seq<Chunk>, topK: int)
    requires Coherent(idx)
    ensures var rs := Ranked(Hits(idx, ln, q, chunks, idx.documents), topK);
      && (topK >= 0 ==> |rs| <= topK)
      && (forall i :: 0 <= i < |rs| ==> rs[i].score > 0.0 && rs[i].rank == i + 1 && rs[i].chunk in chunks)
      && (forall i, j :: 0 <= i < j < |rs| ==> rs[i].score >= rs[j].score)
      && FromDocuments(rs, idx, ln, q, chunks)
      && NoBetterLeftOut(rs, idx, ln, q, chunks, topK)
  {
    var hits := Hits(idx, ln, q, chunks, idx.documents);
    HitsFacts(idx, ln, q, chunks, idx.documents);
    RankedFromHits(hits, topK, idx, ln, q, chunks);
    RankedKeepsBest(hits, topK);
    RankedNoBetterLeftOut(hits, topK, idx, ln, q, chunks);
  }

  /** Ranking hits that come from indexed documents keeps that origin. */
  lemma RankedFromHits(hits: seq<Hit>, topK: int, idx: Index, ln: real -> real, q: seq<string>, chunks: seq<Chunk>)
    requires Coherent(idx)
    requires forall h :: h in hits ==> h.score > 0.0 && h.chunk in chunks
    requires forall h :: h in hits ==>
               exists d :: d in idx.documents && FindById(chunks, d.id) == Some(h.chunk) && h.score == Score(idx, ln, q, d)
    ensures var rs := Ranked(hits, topK);
      && (forall i :: 0 <= i < |rs| ==> rs[i].score > 0.0 && rs[i].chunk in chunks)
      && FromDocuments(rs, idx, ln, q, chunks)
  {
    var rs := Ranked(hits, topK);
    forall i | 0 <= i < |rs|
      ensures rs[i].score > 0.0 && rs[i].chunk in chunks
      ensures exists d :: d in idx.documents && FindById(chunks, d.id) == Some(rs[i].chunk)
                          && rs[i].score == Score(idx, ln, q, d)
    {
      assert Hit(rs[i].chunk, rs[i].score) in hits;
    }
  }

  /** A positive-scoring document whose chunk is known is a hit, so the cut
      either returns it or returns `topK` results at least as good. */
  lemma RankedNoBetterLeftOut(hits: seq<Hit>, topK: int, idx: Index, ln: real -> real, q: seq<string>, chunks: seq<Chunk>)
    requires Coherent(idx)
    requires forall d :: d in idx.documents && FindById(chunks, d.id).Some? && Score(idx, ln, q, d) > 0.0 ==>
               Hit(FindById(chunks, d.id).value, Score(idx, ln, q, d)) in hits
    requires var rs := Ranked(hits, topK);
      forall h :: h in hits && !ReturnsHit(rs, h) ==> forall i :: 0 <= i < |rs| ==> h.score <= rs[i].score
    ensures NoBetterLeftOut(Ranked(hits, topK), idx, ln, q, chunks, topK)
  {
    var rs := Ranked(hits, topK);
    forall d | d in idx.documents && FindById(chunks, d.id).Some? && Score(idx, ln, q, d) > 0.0
      ensures || ReturnsHit(rs, Hit(FindById(chunks, d.id).value, Score(idx, ln, q, d)))
              || ((topK >= 0 ==> |rs| == topK) && forall i :: 0 <= i < |rs| ==> Score(idx, ln, q, d) <= rs[i].score)
    {
      var h := Hit(FindById(chunks, d.id).value, Score(idx, ln, q, d));
      assert h in hits;
      if !ReturnsHit(rs, h) && topK >= 0 {
        assert |rs| < |hits| by {
          if |rs| == |hits| {
            RankedAll(hits, topK, h);
          }
        }
      }
    }
  }

  /** A cut that keeps as many results as there are hits keeps every hit. */
  lemma RankedAll(hits: seq<Hit>, topK: int, h: Hit)
    requires h in hits && |Ranked(hits, topK)| == |hits|
    ensures ReturnsHit(Ranked(hits, topK), h)
  {
    var key := (h: Hit) => h.score;
    var sorted := SortDesc(hits, key);
    var top := Slice(sorted, topK);
    var rs := Ranked(hits, topK);
    SortDescMembers(hits, key, h);
    var p :| 0 <= p < |sorted| && sorted[p] == h;
    assert top == sorted;
    assert Hit(rs[p].chunk, rs[p].score) == h;
  }

  /** A query that only one indexed document matches puts that document's
      chunk first with its positive score. */
  lemma SoleMatchRankedFirst(ops: TextOps, ln: real -> real, idx: Index, query: string, chunks: seq<Chunk>, topK: int, d0: Document)
    requires Coherent(idx) && chunks != [] && topK >= 1 && Preprocess(ops, query) != []
    requires d0 in idx.documents && FindById(chunks, d0.id).Some?
    requires Score(idx, ln, Preprocess(ops, query), d0) > 0.0
    requires forall d :: d in idx.documents && Score(idx, ln, Preprocess(ops, query), d) > 0.0 ==> d == d0
    ensures var rs := SearchSpec(ops, ln, Some(idx), query, chunks, topK);
      && rs != []
      && rs[0] == Bm25Result(FindById(chunks, d0.id).value, Score(idx, ln, Preprocess(ops, query), d0), 1)
  {
    SearchSpecComplete(ops, ln, idx, query, chunks, topK);
    SearchSpecProperties(ops, ln, Some(idx), query, chunks, topK);
    var rs := SearchSpec(ops, ln, Some(idx), query, chunks, topK);
    var q := Preprocess(ops, query);
    assert rs != [];
    var d :| d in idx.documents && FindById(chunks, d.id) == Some(rs[0].chunk) && rs[0].score == Score(idx, ln, q, d);
    assert d == d0;
  }

  /** The keyword scorer, with its cached index. */
  class BM25Search {
    const ops: TextOps
    const ln: real -> real
    var index: Option<Index>

    ghost predicate Valid()
      reads this
    {
      index.Some? ==> Coherent(index.value)
    }

    constructor (ops: TextOps, ln: real -> real)
      ensures Valid() && this.ops == ops && this.ln == ln && index == None
    {
      this.ops := ops;
      this.ln := ln;
      index := None;
    }

    /** `buildIndex`: replaces the cached index with the index of `chunks`. */
    method BuildIndex(chunks: seq<Chunk>)
      modifies this
      ensures index == Some(IndexOf(ops, chunks)) && Valid()
    {
      var documents: seq<Document> := [];
      var termDocFreq: map<string, nat> := map[];
      var totalDocLength: nat := 0;
      for i := 0 to |chunks|
        invariant documents == Documents(ops, chunks[..i])
        invariant termDocFreq == DocFreqs(documents)
        invariant totalDocLength == TotalLength(documents)
      {
        var tokens := Preprocess(ops, chunks[i].content);
        var termFreq := CountTerms(tokens);
        termDocFreq := CountDocument(termDocFreq, tokens);
        var doc := Document(chunks[i].id, tokens, termFreq, |tokens|);
        DocumentsSnoc(ops, chunks, i);
        ghost var before := documents;
        documents := documents + [doc];
        assert documents[..|documents| - 1] == before;
        totalDocLength := totalDocLength + |tokens|;
      }
      assert chunks[..|chunks|] == chunks;
      index := Some(Index(documents, |chunks|, Average(totalDocLength, |chunks|), termDocFreq));
      IndexOfFacts(ops, chunks);
    }

    /** `calculateBM25Score`: accumulates the contribution of each query term
        into the document's score. */
    method CalculateBm25Score(queryTerms: seq<string>, docIndex: nat) returns (score: real)
      requires Valid()
      requires index.Some? ==> docIndex < |index.value.documents|
      ensures index.None? ==> score == 0.0
      ensures index.Some? ==> score == Score(index.value, ln, queryTerms, index.value.documents[docIndex])
    {
      if index.None? {
        return 0.0;
      }
      var idx := index.value;
      var doc := idx.documents[docIndex];
      score := 0.0;
      for i := 0 to |queryTerms|
        invariant score == Score(idx, ln, queryTerms[..i], doc)
      {
        var term := queryTerms[i];
        assert queryTerms[..i + 1][..i] == queryTerms[..i];
        var termFreq := Tf(doc, term);
        if termFreq != 0 {
          var idf := Idf(index, ln, term);
          var numerator := termFreq as real * (K1 + 1.0);
          var denominator := termFreq as real + K1 * (1.0 - B + B * (doc.docLength as real / idx.avgDocLength));
          assert denominator == termFreq as real + LengthNorm(doc.docLength, idx.avgDocLength);
          score := score + idf * (numerator / denominator);
        }
      }
      assert queryTerms[..|queryTerms|] == queryTerms;
    }

    /** Lines 166-205 of `search`: score every indexed document, keep the
        positive ones, sort, cut and rank. */
    method RankDocuments(queryTerms: seq<string>, chunks: seq<Chunk>, topK: int) returns (results: seq<Bm25Result>)
      requires Valid() && index.Some?
      ensures results == Ranked(Hits(index.value, ln, queryTerms, chunks, index.value.documents), topK)
      ensures topK >= 0 ==> |results| <= topK
      ensures forall i :: 0 <= i < |results| ==>
                results[i].score > 0.0 && results[i].rank == i + 1 && results[i].chunk in chunks
      ensures forall i, j :: 0 <= i < j < |results| ==> results[i].score >= results[j].score
    {
      var idx := index.value;
      var hits: seq<Hit> := [];
      for i := 0 to |idx.documents|
        invariant hits == Hits(idx, ln, queryTerms, chunks, idx.documents[..i])
      {
        var doc := idx.documents[i];
        assert idx.documents[..i + 1][..i] == idx.documents[..i];
        var chunk := FindById(chunks, doc.id);
        if chunk.Some? {
          var score := CalculateBm25Score(queryTerms, i);
          if score > 0.0 {
            hits := hits + [Hit(chunk.value, score)];
          }
        }
      }
      assert idx.documents[..|idx.documents|] == idx.documents;
      results := Ranked(hits, topK);
      forall i | 0 <= i < |results| ensures results[i].score > 0.0 && results[i].chunk in chunks {
        assert Hit(results[i].chunk, results[i].score) in hits;
      }
    }

    /** `search`: rebuilds the index when there is none or when the chunk
        count differs from the indexed count, then ranks the chunks. */
    method Search(query: string, chunks: seq<Chunk>, topK: int) returns (results: seq<Bm25Result>)
      requires Valid()
      modifies this
      ensures Valid()
      ensures chunks == [] ==> index == old(index)
      ensures (chunks != [] && (old(index).None? || old(index).value.totalDocs != |chunks|))
                ==> index == Some(IndexOf(ops, chunks))
      ensures (chunks != [] && old(index).Some? && old(index).value.totalDocs == |chunks|)
                ==> index == old(index)
      ensures results == SearchSpec(ops, ln, index, query, chunks, topK)
    {
      if chunks == [] {
        return [];
      }
      if index.None? || index.value.totalDocs != |chunks| {
        BuildIndex(chunks);
      }
      if index.None? {
        return [];
      }
      var queryTerms := Preprocess(ops, query);
      if |queryTerms| == 0 {
        return [];
      }
      results := RankDocuments(queryTerms, chunks, topK);
    }
  }

  /** Lines 69-74 of `buildIndex`: the term frequencies of one document. */
  method CountTerms(tokens: seq<string>) returns (termFreq: map<string, nat>)
    ensures termFreq == TermCounts(tokens)
    ensures forall t :: t in termFreq ==> termFreq[t] == multiset(tokens)[t] >= 1
  {
    termFreq := map[];
    for j := 0 to |tokens|
      invariant termFreq == TermCounts(tokens[..j])
    {
      CountStep(tokens, j);
      termFreq := termFreq[tokens[j] := (if tokens[j] in termFreq then termFreq[tokens[j]] else 0) + 1];
    }
    assert tokens[..|tokens|] == tokens;
  }

  /** Lines 77-80 of `buildIndex`: one more document for every distinct term
      it contains, however often the term occurs in it. */
  method CountDocument(termDocFreq: map<string, nat>, tokens: seq<string>) returns (updated: map<string, nat>)
    ensures updated == AddTerms(termDocFreq, TermSet(tokens))
    ensures forall t :: t in updated <==> t in termDocFreq || t in tokens
    ensures forall t :: t in tokens ==> updated[t] == (if t in termDocFreq then termDocFreq[t] else 0) + 1
    ensures forall t :: t in termDocFreq && t !in tokens ==> updated[t] == termDocFreq[t]
  {
    var uniqueTerms := TermSet(tokens);
    var pending := uniqueTerms;
    updated := termDocFreq;
    while pending != {}
      invariant pending <= uniqueTerms
      invariant updated == AddTerms(termDocFreq, uniqueTerms - pending)
      decreases pending
    {
      var t :| t in pending;
      AddTermsStep(termDocFreq, uniqueTerms - pending, t);
      updated := updated[t := (if t in updated then updated[t] else 0) + 1];
      assert uniqueTerms - (pending - {t}) == (uniqueTerms - pending) + {t};
      pending := pending - {t};
    }
    assert uniqueTerms - pending == uniqueTerms;
  }

  /** One more token adds one to its count and leaves the others. */
  lemma CountStep(tokens: seq<string>, j: nat)
    requires j < |tokens|
    ensures var m := TermCounts(tokens[..j]);
      TermCounts(tokens[..j + 1]) == m[tokens[j] := (if tokens[j] in m then m[tokens[j]] else 0) + 1]
  {
    var t := tokens[j];
    assert tokens[..j + 1] == tokens[..j] + [t];
    assert multiset(tokens[..j + 1]) == multiset(tokens[..j]) + multiset{t};
    var m := TermCounts(tokens[..j]);
    if t !in m {
      assert t !in tokens[..j];
    }
  }

  /** Counting one more term of the current document's term set. */
  lemma AddTermsStep(m: map<string, nat>, done: set<string>, t: string)
    requires t !in done
    ensures var a := AddTerms(m, done);
      AddTerms(m, done + {t}) == a[t := (if t in a then a[t] else 0) + 1]
  {
  }
}
