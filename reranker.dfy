/** Re-ranking of retrieved documents by a language model
    (ai/gemini-reranker.ts): the model's reply is taken as given, and this
    module maps it back onto the candidate documents, with the fallbacks for
    an unusable reply and for a failed call. */
module Reranker {
  import opened Common
  import opened Seqs
  import opened Sorting

  /** The free-form metadata carried along with a document. */
  type Metadata = map<string, string>

  datatype Document = Document(content: string, score: real, metadata: Metadata)

  datatype RerankedResult = RerankedResult(
    content: string,
    score: real,
    metadata: Metadata,
    originalIndex: int,
    reasoning: Option<string>)

  /** One entry of the reply's `rankings` array; `documentIndex` is 1-based
      and `score` or `reasoning` may be missing. */
  datatype Ranking = Ranking(documentIndex: int, rank: real, score: Option<real>, reasoning: Option<string>)

  /** The reply after JSON extraction and parsing: not JSON at all, JSON
      without a `rankings` array, or the entries of that array. */
  datatype Reply = Unparseable | MissingRankings | Rankings(entries: seq<Ranking>)

  /** The model call either throws or answers. */
  datatype ModelCall = Threw | Replied(reply: Reply)

  /** `topK` and `includeReasoning` of the options (the contextual hints
      only shape the prompt). */
  datatype Options = Options(topK: Option<int>, includeReasoning: bool)

  /** The metrics, without the elapsed time. */
  datatype Metrics = Metrics(totalDocuments: nat, averageScoreChange: real, topDocumentChanged: bool)

  datatype RerankOutcome = RerankOutcome(rerankedDocuments: seq<RerankedResult>, metrics: Metrics)

  const ParseFallbackReason := "Parsing failed, using original order"
  const CallFallbackReason := "Fallback: Reranking failed, using original order"

  /** `options?.topK || Math.min(10, documents.length)`: a missing or zero
      `topK` falls back to ten, or fewer when there are fewer documents. */
  function TopK(options: Options, n: nat): (k: int)
    ensures options.topK.Some? && options.topK.value != 0 ==> k == options.topK.value
    ensures options.topK.None? || options.topK.value == 0 ==> k == Min(10, n) && 0 <= k <= 10
  {
    if options.topK.Some? && options.topK.value != 0 then options.topK.value else Min(10, n)
  }

  /** The first twenty documents are shown to the model. */
  function Candidates(documents: seq<Document>): (c: seq<Document>)
    ensures c <= documents && |c| == Min(20, |documents|)
  {
    Slice(documents, Min(20, |documents|))
  }

  /** `rankings.sort((a, b) => a.rank - b.rank)`: ascending by rank,
      stable, a permutation of the entries. */
  function SortByRank(entries: seq<Ranking>): (r: seq<Ranking>)
    ensures forall i, j :: 0 <= i < j < |r| ==> r[i].rank <= r[j].rank
    ensures multiset(r) == multiset(entries)
  {
    var r := SortDesc(entries, (e: Ranking) => -e.rank);
    assert forall i, j :: 0 <= i < j < |r| ==> -r[i].rank >= -r[j].rank;
    r
  }

  /** The sort by rank is stable: entries of equal rank keep their order
      in the reply. */
  lemma SortByRankStable(entries: seq<Ranking>, v: real, p: Ranking -> bool)
    requires forall e :: p(e) == (e.rank == v)
    ensures Filter(SortByRank(entries), p) == Filter(entries, p)
  {
    var key := (e: Ranking) => -e.rank;
    assert SortByRank(entries) == SortDesc(entries, key);
    SortDescStable(entries, key, -v, p);
  }

  /** Whether an entry's 1-based index selects one of `n` candidates. */
  function SelectsCandidate(n: nat): Ranking -> bool
  {
    (e: Ranking) => 1 <= e.documentIndex <= n
  }

  /** The result an entry stands for, or nothing when its index selects no
      candidate. */
  function ResultOf(e: Ranking, candidates: seq<Document>, includeReasoning: bool): (r: Option<RerankedResult>)
    ensures r.Some? <==> SelectsCandidate(|candidates|)(e)
    ensures r.Some? ==>
              && r.value.originalIndex == e.documentIndex - 1
              && r.value.content == candidates[e.documentIndex - 1].content
              && r.value.metadata == candidates[e.documentIndex - 1].metadata
              && r.value.score == e.score.GetOr(0.0)
              && r.value.reasoning == (if includeReasoning then e.reasoning else None)
  {
    var docIndex := e.documentIndex - 1;
    if 0 <= docIndex < |candidates| then
      var originalDoc := candidates[docIndex];
      Some(RerankedResult(originalDoc.content, e.score.GetOr(0.0), originalDoc.metadata, docIndex,
                          if includeReasoning then e.reasoning else None))
    else None
  }

  /** `.map(...)` then `.filter(Boolean)` over entries already sorted. */
  function Kept(sorted: seq<Ranking>, candidates: seq<Document>, includeReasoning: bool): seq<RerankedResult>
  {
    if sorted == [] then []
    else
      var rest := Kept(sorted[..|sorted| - 1], candidates, includeReasoning);
      match ResultOf(sorted[|sorted| - 1], candidates, includeReasoning)
      case Some(r) => rest + [r]
      case None => rest
  }

  /** A result kept from a sorted list comes from one of its entries. */
  lemma {:induction false} KeptFacts(sorted: seq<Ranking>, candidates: seq<Document>, includeReasoning: bool)
    ensures var r := Kept(sorted, candidates, includeReasoning);
      && |r| == CountIf(sorted, SelectsCandidate(|candidates|))
      && forall x :: x in r ==> exists e :: e in sorted && ResultOf(e, candidates, includeReasoning) == Some(x)
  {
    if sorted != [] {
      var n := |sorted| - 1;
      KeptFacts(sorted[..n], candidates, includeReasoning);
      var r := Kept(sorted, candidates, includeReasoning);
      forall x | x in r ensures exists e :: e in sorted && ResultOf(e, candidates, includeReasoning) == Some(x) {
        if x in Kept(sorted[..n], candidates, includeReasoning) {
          var e :| e in sorted[..n] && ResultOf(e, candidates, includeReasoning) == Some(x);
          assert e in sorted;
        } else {
          assert ResultOf(sorted[n], candidates, includeReasoning) == Some(x);
        }
      }
    }
  }

  /** The entries of a sorted list whose index selects a candidate, in
      their order: the entries the kept results stand for. */
  function Origins(sorted: seq<Ranking>, n: nat): (o: seq<Ranking>)
    ensures forall e :: e in o ==> e in sorted && SelectsCandidate(n)(e)
  {
    if sorted == [] then []
    else
      var rest := Origins(sorted[..|sorted| - 1], n);
      assert forall e :: e in rest ==> e in sorted by {
        assert forall e :: e in sorted[..|sorted| - 1] ==> e in sorted;
      }
      if SelectsCandidate(n)(sorted[|sorted| - 1]) then rest + [sorted[|sorted| - 1]] else rest
  }

  /** The kept results are, position by position, the results of the
      selecting entries, which appear in the sorted list in the same
      order. */
  lemma {:induction false} KeptOrigins(sorted: seq<Ranking>, candidates: seq<Document>, includeReasoning: bool)
    ensures var r := Kept(sorted, candidates, includeReasoning);
            var o := Origins(sorted, |candidates|);
      && |r| == |o|
      && (forall i :: 0 <= i < |o| ==> ResultOf(o[i], candidates, includeReasoning) == Some(r[i]))
      && IsSubseq(o, sorted)
  {
    if sorted == [] {
    } else {
      var n := |sorted| - 1;
      var last := sorted[n];
      KeptOrigins(sorted[..n], candidates, includeReasoning);
      var o' := Origins(sorted[..n], |candidates|);
      assert sorted == sorted[..n] + [last];
      if SelectsCandidate(|candidates|)(last) {
        SubseqSnoc(o', sorted[..n], last);
      } else {
        SubseqExtend(o', sorted[..n], last);
      }
    }
  }

  /** A subsequence of a list ascending by rank ascends by rank. */
  lemma {:induction false} SubseqAscending(s: seq<Ranking>, t: seq<Ranking>)
    requires IsSubseq(s, t)
    requires forall i, j :: 0 <= i < j < |t| ==> t[i].rank <= t[j].rank
    ensures forall i, j :: 0 <= i < j < |s| ==> s[i].rank <= s[j].rank
    decreases |t|
  {
    if s == [] {
    } else if s[0] == t[0] && IsSubseq(s[1..], t[1..]) {
      SubseqAscending(s[1..], t[1..]);
      SubseqMembers(s[1..], t[1..]);
      forall j | 0 < j < |s| ensures s[0].rank <= s[j].rank {
        assert s[j] == s[1..][j - 1];
        assert s[j] in t[1..];
        var k :| 0 <= k < |t[1..]| && t[1..][k] == s[j];
        assert t[k + 1] == s[j];
      }
    } else {
      SubseqAscending(s, t[1..]);
    }
  }

  /** The fallback of `parseRerankingResponse`: the candidates in their own
      order with their own scores. */
  function ParseFallback(candidates: seq<Document>): (r: seq<RerankedResult>)
    ensures |r| == |candidates|
    ensures forall i :: 0 <= i < |r| ==>
              r[i] == RerankedResult(candidates[i].content, candidates[i].score, candidates[i].metadata,
                                     i, Some(ParseFallbackReason))
  {
    seq(|candidates|, i requires 0 <= i < |candidates| =>
      RerankedResult(candidates[i].content, candidates[i].score, candidates[i].metadata, i, Some(ParseFallbackReason)))
  }

  /** `parseRerankingResponse`. */
  function ParseResponse(reply: Reply, candidates: seq<Document>, includeReasoning: bool): seq<RerankedResult>
  {
    match reply
    case Rankings(entries) => Kept(SortByRank(entries), candidates, includeReasoning)
    case _ => ParseFallback(candidates)
  }

  /** A usable reply yields one result per entry whose index selects a
      candidate — duplicates included, in ascending rank order — each
      carrying that candidate's content and metadata, its 0-based index,
      the entry's score (0 when missing) and the entry's reasoning only
      when reasoning was asked for. */
  lemma ParseRankingsFacts(entries: seq<Ranking>, candidates: seq<Document>, includeReasoning: bool)
    ensures var r := ParseResponse(Rankings(entries), candidates, includeReasoning);
      && |r| == CountIf(entries, SelectsCandidate(|candidates|))
      && |r| <= |entries|
      && forall x :: x in r ==>
           && 0 <= x.originalIndex < |candidates|
           && x.content == candidates[x.originalIndex].content
           && x.metadata == candidates[x.originalIndex].metadata
           && (!includeReasoning ==> x.reasoning.None?)
           && exists e :: e in entries && e.documentIndex == x.originalIndex + 1 && x.score == e.score.GetOr(0.0)
  {
    var sorted := SortByRank(entries);
    KeptFacts(sorted, candidates, includeReasoning);
    CountIfPermutation(sorted, entries, SelectsCandidate(|candidates|));
    KeptFields(sorted, entries, candidates, includeReasoning);
  }

  /** Each result kept from a reordering of `entries` carries its
      candidate's content and metadata and the score of an entry naming
      that candidate. */
  lemma KeptFields(sorted: seq<Ranking>, entries: seq<Ranking>, candidates: seq<Document>, includeReasoning: bool)
    requires multiset(sorted) == multiset(entries)
    requires forall x :: x in Kept(sorted, candidates, includeReasoning) ==>
               exists e :: e in sorted && ResultOf(e, candidates, includeReasoning) == Some(x)
    ensures forall x :: x in Kept(sorted, candidates, includeReasoning) ==>
           && 0 <= x.originalIndex < |candidates|
           && x.content == candidates[x.originalIndex].content
           && x.metadata == candidates[x.originalIndex].metadata
           && (!includeReasoning ==> x.reasoning.None?)
           && exists e :: e in entries && e.documentIndex == x.originalIndex + 1 && x.score == e.score.GetOr(0.0)
  {
    forall x | x in Kept(sorted, candidates, includeReasoning)
      ensures && 0 <= x.originalIndex < |candidates|
              && x.content == candidates[x.originalIndex].content
              && x.metadata == candidates[x.originalIndex].metadata
              && (!includeReasoning ==> x.reasoning.None?)
              && exists e :: e in entries && e.documentIndex == x.originalIndex + 1 && x.score == e.score.GetOr(0.0)
    {
      var e :| e in sorted && ResultOf(e, candidates, includeReasoning) == Some(x);
      assert e in multiset(sorted);
      assert e in entries;
    }
  }

  /** The results come in ascending order of the ranks the model gave
      them: the i-th result stands for the i-th selecting entry, and those
      entries ascend by rank. */
  lemma ParseRankingsOrder(entries: seq<Ranking>, candidates: seq<Document>, includeReasoning: bool)
    ensures var r := ParseResponse(Rankings(entries), candidates, includeReasoning);
            var o := Origins(SortByRank(entries), |candidates|);
      && |o| == |r|
      && (forall i :: 0 <= i < |o| ==> o[i] in entries && ResultOf(o[i], candidates, includeReasoning) == Some(r[i]))
      && (forall i, j :: 0 <= i < j < |o| ==> o[i].rank <= o[j].rank)
  {
    var sorted := SortByRank(entries);
    KeptOrigins(sorted, candidates, includeReasoning);
    var o := Origins(sorted, |candidates|);
    SubseqAscending(o, sorted);
    forall i | 0 <= i < |o| ensures o[i] in entries {
      assert o[i] in sorted;
      assert o[i] in multiset(sorted);
    }
  }

  /** Every entry whose index selects a candidate shows up in the results. */
  lemma ParseRankingsComplete(entries: seq<Ranking>, candidates: seq<Document>, includeReasoning: bool, e: Ranking)
    requires e in entries && SelectsCandidate(|candidates|)(e)
    ensures ResultOf(e, candidates, includeReasoning).value in ParseResponse(Rankings(entries), candidates, includeReasoning)
  {
    var sorted := SortByRank(entries);
    assert e in multiset(entries);
    KeptContains(sorted, candidates, includeReasoning, e);
  }

  lemma {:induction false} KeptContains(sorted: seq<Ranking>, candidates: seq<Document>, includeReasoning: bool, e: Ranking)
    requires e in sorted && ResultOf(e, candidates, includeReasoning).Some?
    ensures ResultOf(e, candidates, includeReasoning).value in Kept(sorted, candidates, includeReasoning)
  {
    var n := |sorted| - 1;
    if sorted[n] != e {
      assert e in sorted[..n];
      KeptContains(sorted[..n], candidates, includeReasoning, e);
    }
  }

  function AbsR(x: real): (r: real)
    ensures r >= 0.0 && (r == x || r == -x)
  {
    if x < 0.0 then -x else x
  }

  /** `originalDocuments[originalIndex]?.score || 0`. */
  function OriginalScore(documents: seq<Document>, oi: int): (score: real)
    ensures 0 <= oi < |documents| ==> score == documents[oi].score
    ensures !(0 <= oi < |documents|) ==> score == 0.0
  {
    if 0 <= oi < |documents| then documents[oi].score else 0.0
  }

  /** `Math.abs(reranked.score - originalScore)` for each result, the
      original score looked up by `originalIndex` (0 when out of range). */
  function ScoreChanges(documents: seq<Document>, results: seq<RerankedResult>): (changes: seq<real>)
    ensures |changes| == |results|
    ensures forall i :: 0 <= i < |results| ==> changes[i] >= 0.0
    ensures forall i :: 0 <= i < |results| ==>
              (changes[i] == 0.0 <==> results[i].score == OriginalScore(documents, results[i].originalIndex))
    ensures forall i :: 0 <= i < |results| ==>
              changes[i] == results[i].score - OriginalScore(documents, results[i].originalIndex)
              || changes[i] == OriginalScore(documents, results[i].originalIndex) - results[i].score
  {
    seq(|results|, i requires 0 <= i < |results| =>
      AbsR(results[i].score - OriginalScore(documents, results[i].originalIndex)))
  }

  /** `calculateMetrics`. */
  function CalculateMetrics(documents: seq<Document>, results: seq<RerankedResult>): (m: Metrics)
    ensures m.totalDocuments == |documents|
    ensures results == [] ==> m.averageScoreChange == 0.0
    ensures results != [] ==> m.averageScoreChange * (|results| as real) == Sum(ScoreChanges(documents, results))
    ensures m.topDocumentChanged <==> results != [] && results[0].originalIndex != 0
  {
    var changes := ScoreChanges(documents, results);
    var average := if |changes| > 0 then Sum(changes) / (|changes| as real) else 0.0;
    assert |changes| > 0 ==> average * (|changes| as real) == Sum(changes);
    Metrics(
      |documents|,
      average,
      if |results| > 0 then results[0].originalIndex != 0 else false)
  }

  /** A sum of non-negative values with a positive one is positive. */
  lemma {:induction false} SumPositive(s: seq<real>, k: nat)
    requires forall i :: 0 <= i < |s| ==> s[i] >= 0.0
    requires k < |s| && s[k] > 0.0
    ensures Sum(s) > 0.0
  {
    var n := |s| - 1;
    if k == n {
      SumNonnegative(s[..n]);
    } else {
      SumPositive(s[..n], k);
    }
  }

  /** The average change of score is 0 exactly when every result keeps the
      score of the document it points at (0 for an index out of range). */
  lemma AverageScoreChangeZero(documents: seq<Document>, results: seq<RerankedResult>)
    ensures CalculateMetrics(documents, results).averageScoreChange == 0.0
            <==> forall i :: 0 <= i < |results| ==> results[i].score == OriginalScore(documents, results[i].originalIndex)
  {
    var changes := ScoreChanges(documents, results);
    var m := CalculateMetrics(documents, results);
    if forall i :: 0 <= i < |results| ==> results[i].score == OriginalScore(documents, results[i].originalIndex) {
      SumZeros(changes);
    } else {
      var k :| 0 <= k < |results| && results[k].score != OriginalScore(documents, results[k].originalIndex);
      SumPositive(changes, k);
      assert m.averageScoreChange * (|results| as real) > 0.0;
    }
  }

  lemma {:induction false} SumNonnegative(s: seq<real>)
    requires forall i :: 0 <= i < |s| ==> s[i] >= 0.0
    ensures Sum(s) >= 0.0
  {
    if s != [] {
      SumNonnegative(s[..|s| - 1]);
    }
  }

  lemma {:induction false} SumZeros(s: seq<real>)
    requires forall i :: 0 <= i < |s| ==> s[i] == 0.0
    ensures Sum(s) == 0.0
  {
    if s != [] {
      SumZeros(s[..|s| - 1]);
    }
  }

  /** The average change of score is never negative. */
  lemma AverageScoreChangeNonnegative(documents: seq<Document>, results: seq<RerankedResult>)
    ensures CalculateMetrics(documents, results).averageScoreChange >= 0.0
  {
    var changes := ScoreChanges(documents, results);
    SumNonnegative(changes);
    if |changes| > 0 {
      var n := |changes| as real;
      var q := Sum(changes) / n;
      assert q * n == Sum(changes);
    }
  }

  /** When the reply cannot be used, nothing moves: the average change is 0
      and the top document is unchanged. */
  lemma ParseFallbackMetrics(documents: seq<Document>)
    ensures CalculateMetrics(documents, ParseFallback(Candidates(documents))) == Metrics(|documents|, 0.0, false)
  {
    var candidates := Candidates(documents);
    var results := ParseFallback(candidates);
    var changes := ScoreChanges(documents, results);
    forall i | 0 <= i < |changes| ensures changes[i] == 0.0 {
      assert documents[i] == candidates[i];
    }
    SumZeros(changes);
  }

  /** The catch branch of `rerank`: the first `topK` documents in their own
      order. */
  function CallFallback(documents: seq<Document>, topK: int): (r: seq<RerankedResult>)
    ensures |r| == |Slice(documents, topK)|
    ensures forall i :: 0 <= i < |r| ==>
              r[i] == RerankedResult(documents[i].content, documents[i].score, documents[i].metadata,
                                     i, Some(CallFallbackReason))
  {
    var shown := Slice(documents, topK);
    seq(|shown|, i requires 0 <= i < |shown| =>
      RerankedResult(shown[i].content, shown[i].score, shown[i].metadata, i, Some(CallFallbackReason)))
  }

  /** `rerank`, without the elapsed time. */
  function Rerank(documents: seq<Document>, options: Options, call: ModelCall): RerankOutcome
  {
    var topK := TopK(options, |documents|);
    match call
    case Threw =>
      RerankOutcome(CallFallback(documents, topK), Metrics(|documents|, 0.0, false))
    case Replied(reply) =>
      var candidates := Candidates(documents);
      var results := ParseResponse(reply, candidates, options.includeReasoning);
      RerankOutcome(Slice(results, topK), CalculateMetrics(documents, results))
  }

  /** Whatever happens, every returned result points at one of the
      documents shown to the model (or, after a failed call, one of the
      documents) and at most `topK` results come back; the metrics count
      all documents and are computed before the cut to `topK`; a failed
      call reports no change. */
  lemma RerankFacts(documents: seq<Document>, options: Options, call: ModelCall)
    ensures var out := Rerank(documents, options, call);
            var topK := TopK(options, |documents|);
      && (topK >= 0 ==> |out.rerankedDocuments| <= topK)
      && out.metrics.totalDocuments == |documents|
      && out.metrics.averageScoreChange >= 0.0
      && (forall x :: x in out.rerankedDocuments ==> 0 <= x.originalIndex < |documents|)
      && (call.Replied? ==> forall x :: x in out.rerankedDocuments ==> x.originalIndex < 20)
      && (call.Threw? ==> out.metrics == Metrics(|documents|, 0.0, false))
      && (call.Replied? ==>
            out.metrics == CalculateMetrics(documents, ParseResponse(call.reply, Candidates(documents), options.includeReasoning)))
  {
    var topK := TopK(options, |documents|);
    var out := Rerank(documents, options, call);
    if call.Replied? {
      var candidates := Candidates(documents);
      var results := ParseResponse(call.reply, candidates, options.includeReasoning);
      AverageScoreChangeNonnegative(documents, results);
      if call.reply.Rankings? {
        ParseRankingsFacts(call.reply.entries, candidates, options.includeReasoning);
      }
      forall x | x in out.rerankedDocuments ensures 0 <= x.originalIndex < |candidates| {
        assert x in results;
      }
    } else {
      forall x | x in out.rerankedDocuments ensures 0 <= x.originalIndex < |documents| {
        var i :| 0 <= i < |out.rerankedDocuments| && out.rerankedDocuments[i] == x;
      }
    }
  }

  /** `quickRerank`: the first ten documents, no reasoning; the caller's
      `topK` defaults to 5. */
  function QuickRerank(documents: seq<Document>, topK: int, call: ModelCall): RerankOutcome
  {
    Rerank(Slice(documents, 10), Options(Some(topK), false), call)
  }

  /** Only the first ten documents can come back, and a reply the model
      gave never carries reasoning. */
  lemma QuickRerankFacts(documents: seq<Document>, topK: int, call: ModelCall)
    ensures var out := QuickRerank(documents, topK, call);
      && out.metrics.totalDocuments == Min(10, |documents|)
      && (forall x :: x in out.rerankedDocuments ==> 0 <= x.originalIndex < Min(10, |documents|))
      && (topK > 0 ==> |out.rerankedDocuments| <= topK)
      && (call.Replied? && call.reply.Rankings? ==> forall x :: x in out.rerankedDocuments ==> x.reasoning.None?)
  {
    var shown := Slice(documents, 10);
    RerankFacts(shown, Options(Some(topK), false), call);
    if call.Replied? && call.reply.Rankings? {
      var candidates := Candidates(shown);
      ParseRankingsFacts(call.reply.entries, candidates, false);
      var results := ParseResponse(call.reply, candidates, false);
      forall x | x in QuickRerank(documents, topK, call).rerankedDocuments ensures x.reasoning.None? {
        assert x in results;
      }
    }
  }

  /** `detailedRerank`: all documents, with reasoning, default `topK`. */
  function DetailedRerank(documents: seq<Document>, call: ModelCall): RerankOutcome
  {
    Rerank(documents, Options(None, true), call)
  }

  /** At most ten results come back (fewer when there are fewer
      documents), each pointing at one of the first twenty documents. */
  lemma DetailedRerankFacts(documents: seq<Document>, call: ModelCall)
    ensures var out := DetailedRerank(documents, call);
      && |out.rerankedDocuments| <= Min(10, |documents|)
      && (forall x :: x in out.rerankedDocuments ==> 0 <= x.originalIndex < Min(20, |documents|))
  {
    RerankFacts(documents, Options(None, true), call);
  }
}
