/** Fusion of semantic-similarity results with BM25 results into one ranked
    list (ai/hybrid-search.ts), with a query-dependent semantic weight α. */
module Hybrid {
  import opened Common
  import opened Seqs
  import opened Sorting
  import opened JsMap
  import opened Bm25

  /** A chunk with its embedding similarity to the query, computed outside
      the fusion engine. */
  datatype SemanticResult = SemanticResult(chunk: Chunk, similarity: real, rank: int)

  /** Which normalised scores of a fused result are positive. */
  datatype Source = SourceSemantic | SourceBm25 | SourceBoth

  datatype HybridResult = HybridResult(
    chunk: Chunk,
    hybridScore: real,
    semanticScore: real,
    bm25Score: real,
    rank: int,
    source: Source)

  datatype Config = Config(
    alpha: real,
    topK: int,
    semanticThreshold: real,
    bm25Threshold: real,
    enableAdaptiveWeighting: bool)

  /** The caller's overrides of the defaults. */
  datatype PartialConfig = PartialConfig(
    alpha: Option<real>,
    topK: Option<int>,
    semanticThreshold: Option<real>,
    bm25Threshold: Option<real>,
    enableAdaptiveWeighting: Option<bool>)

  const DefaultConfig := Config(0.7, 10, 0.3, 0.1, true)

  /** `{ ...base, ...overrides }`: a field the caller gives replaces the
      base's, a missing one keeps it. */
  function Override(base: Config, p: PartialConfig): (c: Config)
    ensures p == PartialConfig(None, None, None, None, None) ==> c == base
    ensures p.alpha.None? ==> c.alpha == base.alpha
    ensures p.topK.None? ==> c.topK == base.topK
    ensures p.semanticThreshold.None? ==> c.semanticThreshold == base.semanticThreshold
    ensures p.bm25Threshold.None? ==> c.bm25Threshold == base.bm25Threshold
    ensures p.enableAdaptiveWeighting.None? ==> c.enableAdaptiveWeighting == base.enableAdaptiveWeighting
    ensures p.alpha.Some? ==> c.alpha == p.alpha.value
    ensures p.topK.Some? ==> c.topK == p.topK.value
    ensures p.semanticThreshold.Some? ==> c.semanticThreshold == p.semanticThreshold.value
    ensures p.bm25Threshold.Some? ==> c.bm25Threshold == p.bm25Threshold.value
    ensures p.enableAdaptiveWeighting.Some? ==> c.enableAdaptiveWeighting == p.enableAdaptiveWeighting.value
  {
    Config(
      p.alpha.GetOr(base.alpha),
      p.topK.GetOr(base.topK),
      p.semanticThreshold.GetOr(base.semanticThreshold),
      p.bm25Threshold.GetOr(base.bm25Threshold),
      p.enableAdaptiveWeighting.GetOr(base.enableAdaptiveWeighting))
  }

  /** Applying the same overrides twice is applying them once, and a field
      given twice keeps the later value. */
  lemma OverrideTwice(base: Config, p: PartialConfig, q: PartialConfig)
    ensures Override(Override(base, p), p) == Override(base, p)
    ensures q.alpha.Some? ==> Override(Override(base, p), q).alpha == q.alpha.value
    ensures q.topK.Some? ==> Override(Override(base, p), q).topK == q.topK.value
    ensures q.semanticThreshold.Some? ==> Override(Override(base, p), q).semanticThreshold == q.semanticThreshold.value
    ensures q.bm25Threshold.Some? ==> Override(Override(base, p), q).bm25Threshold == q.bm25Threshold.value
    ensures q.enableAdaptiveWeighting.Some? ==>
              Override(Override(base, p), q).enableAdaptiveWeighting == q.enableAdaptiveWeighting.value
    ensures q.alpha.None? && p.alpha.Some? ==> Override(Override(base, p), q).alpha == p.alpha.value
  {
  }

  /** `{ ...defaults, ...config }`. */
  function WithDefaults(p: PartialConfig): (c: Config)
    ensures p.alpha.None? ==> c.alpha == 0.7
    ensures p.topK.None? ==> c.topK == 10
    ensures p.semanticThreshold.None? ==> c.semanticThreshold == 0.3
    ensures p.bm25Threshold.None? ==> c.bm25Threshold == 0.1
    ensures p.enableAdaptiveWeighting.None? ==> c.enableAdaptiveWeighting
    ensures p.alpha.Some? ==> c.alpha == p.alpha.value
    ensures p.topK.Some? ==> c.topK == p.topK.value
    ensures p.semanticThreshold.Some? ==> c.semanticThreshold == p.semanticThreshold.value
    ensures p.bm25Threshold.Some? ==> c.bm25Threshold == p.bm25Threshold.value
    ensures p.enableAdaptiveWeighting.Some? ==> c.enableAdaptiveWeighting == p.enableAdaptiveWeighting.value
  {
    Override(DefaultConfig, p)
  }

  // ---------------------------------------------------------------------
  // Adaptive weighting

  /** Outcomes of the regular-expression tests `getAdaptiveAlpha` runs on the
      query (the regex engine itself is not modelled):
      exactTerm      — an all-capitals word, a number of two or more digits, or an e-mail-like string;
      quotedPhrase   — a double-quoted phrase;
      technicalTerm  — api, endpoint, function, method, class or interface;
      questionWord   — the query starts with an interrogative word;
      conceptualTerm — concept, principle, idea, theory, approach or strategy. */
  datatype QueryPatterns = QueryPatterns(
    exactTerm: bool,
    quotedPhrase: bool,
    technicalTerm: bool,
    questionWord: bool,
    conceptualTerm: bool)

  /** `query.split(" ").length`: one more than the number of spaces. */
  function WordCount(query: string): (n: nat)
    ensures n >= 1
    ensures (forall i :: 0 <= i < |query| ==> query[i] != ' ') ==> n == 1
  {
    if query == [] then 1
    else WordCount(query[..|query| - 1]) + (if query[|query| - 1] == ' ' then 1 else 0)
  }

  predicate FavoursKeywords(query: string, m: QueryPatterns)
  {
    m.exactTerm || m.quotedPhrase || WordCount(query) <= 2 || m.technicalTerm
  }

  predicate FavoursSemantic(query: string, m: QueryPatterns)
  {
    WordCount(query) >= 6 || m.questionWord || m.conceptualTerm
  }

  /** `getAdaptiveAlpha`: the keyword rule lowers α by 0.3 (not below 0.3),
      then the semantic rule raises it by 0.2 (not above 0.9); both apply
      when both match. */
  function AdaptiveAlpha(cfg: Config, query: string, m: QueryPatterns): (alpha: real)
    ensures !cfg.enableAdaptiveWeighting ==> alpha == cfg.alpha
    ensures (cfg.enableAdaptiveWeighting && !FavoursKeywords(query, m) && !FavoursSemantic(query, m))
              ==> alpha == cfg.alpha
    ensures (cfg.enableAdaptiveWeighting && FavoursKeywords(query, m) && !FavoursSemantic(query, m))
              ==> alpha == MaxR(0.3, cfg.alpha - 0.3)
    ensures (cfg.enableAdaptiveWeighting && !FavoursKeywords(query, m) && FavoursSemantic(query, m))
              ==> alpha == MinR(0.9, cfg.alpha + 0.2)
    ensures (cfg.enableAdaptiveWeighting && FavoursKeywords(query, m) && FavoursSemantic(query, m))
              ==> alpha == MinR(0.9, MaxR(0.3, cfg.alpha - 0.3) + 0.2)
  {
    if !cfg.enableAdaptiveWeighting then cfg.alpha
    else
      var afterKeywordRule := if FavoursKeywords(query, m) then MaxR(0.3, cfg.alpha - 0.3) else cfg.alpha;
      if FavoursSemantic(query, m) then MinR(0.9, afterKeywordRule + 0.2) else afterKeywordRule
  }

  /** A base α in [0.3, 0.9] stays in [0.3, 0.9]; with adaptive weighting on,
      a semantic-looking query never gets α above 0.9, and a keyword-looking
      query that is not semantic-looking never gets α below 0.3. */
  lemma AdaptiveAlphaRange(cfg: Config, query: string, m: QueryPatterns)
    ensures 0.3 <= cfg.alpha <= 0.9 ==> 0.3 <= AdaptiveAlpha(cfg, query, m) <= 0.9
    ensures cfg.enableAdaptiveWeighting && FavoursSemantic(query, m) ==> AdaptiveAlpha(cfg, query, m) <= 0.9
    ensures (cfg.enableAdaptiveWeighting && FavoursKeywords(query, m) && !FavoursSemantic(query, m))
              ==> AdaptiveAlpha(cfg, query, m) >= 0.3
  {
  }

  /** A question of three to five words that matches no keyword pattern,
      such as "What is your pricing?", moves the default α of 0.7 up to 0.9. */
  lemma MidLengthQuestionFavoursSemantic(query: string)
    requires 3 <= WordCount(query) <= 5
    ensures AdaptiveAlpha(DefaultConfig, query, QueryPatterns(false, false, false, true, false)) == 0.9
  {
  }

  /** A one-word query such as "SKU-4821" that matches the exact-term pattern
      moves the default α of 0.7 down to 0.4. */
  lemma ProductCodeFavoursKeywords()
    ensures AdaptiveAlpha(DefaultConfig, "SKU-4821", QueryPatterns(true, false, false, false, false)) == 0.4
  {
    assert WordCount("SKU-4821") == 1;
  }

  /** "Why?" is both a one-word query and a question: the keyword rule
      lowers the default α to 0.4 and the semantic rule then raises it to
      0.6. */
  lemma OneWordQuestionMeetsBothRules()
    ensures AdaptiveAlpha(DefaultConfig, "Why?", QueryPatterns(false, false, false, true, false)) == 0.6
  {
    assert WordCount("Why?") == 1;
  }

  // ---------------------------------------------------------------------
  // Normalisation

  function SeqMin(s: seq<real>): (m: real)
    requires s != []
    ensures m in s && forall x :: x in s ==> m <= x
  {
    if |s| == 1 then s[0]
    else
      var m := SeqMin(s[..|s| - 1]);
      assert forall x :: x in s ==> x in s[..|s| - 1] || x == s[|s| - 1];
      MinR(m, s[|s| - 1])
  }

  function SeqMax(s: seq<real>): (m: real)
    requires s != []
    ensures m in s && forall x :: x in s ==> x <= m
  {
    if |s| == 1 then s[0]
    else
      var m := SeqMax(s[..|s| - 1]);
      assert forall x :: x in s ==> x in s[..|s| - 1] || x == s[|s| - 1];
      MaxR(m, s[|s| - 1])
  }

  predicate AllEqual(s: seq<real>)
  {
    forall i :: 0 <= i < |s| ==> s[i] == s[0]
  }

  /** `normalizeScores`: min-max normalisation; a list whose values are all
      equal (one value included) maps every value to 1. */
  function Normalize(scores: seq<real>): (r: seq<real>)
    ensures |r| == |scores|
    ensures scores != [] ==> forall i :: 0 <= i < |scores| ==> r[i] == Scaled(scores[i], SeqMin(scores), SeqMax(scores))
  {
    if scores == [] then []
    else
      var lo, hi := SeqMin(scores), SeqMax(scores);
      seq(|scores|, i requires 0 <= i < |scores| => Scaled(scores[i], lo, hi))
  }

  /** One normalised score: `(x − min) / (max − min)`, or 1 when the range is empty. */
  function Scaled(x: real, lo: real, hi: real): real
  {
    if hi == lo then 1.0 else (x - lo) / (hi - lo)
  }

  lemma DivMonotone(x: real, y: real, d: real)
    requires d > 0.0 && x <= y
    ensures x / d <= y / d
  {
    assert y / d - x / d == (y - x) / d;
  }

  /** A score between the minimum and the maximum scales into [0, 1], the
      minimum to 0 and the maximum to 1. */
  lemma ScaledRange(x: real, lo: real, hi: real)
    requires lo <= x <= hi
    ensures 0.0 <= Scaled(x, lo, hi) <= 1.0
    ensures lo < hi && x == lo ==> Scaled(x, lo, hi) == 0.0
    ensures x == hi ==> Scaled(x, lo, hi) == 1.0
  {
    if lo < hi {
      DivMonotone(0.0, x - lo, hi - lo);
      DivMonotone(x - lo, hi - lo, hi - lo);
      DivSelf(hi - lo);
    }
  }

  /** A positive number divided by itself is 1. */
  lemma DivSelf(d: real)
    requires d > 0.0
    ensures d / d == 1.0
  {
    var q := d / d;
    assert q * d == d;
  }

  /** Scaling keeps the order of scores. */
  lemma ScaledMonotone(x: real, y: real, lo: real, hi: real)
    requires lo <= hi && x <= y
    ensures Scaled(x, lo, hi) <= Scaled(y, lo, hi)
  {
    if lo < hi {
      DivMonotone(x - lo, y - lo, hi - lo);
    }
  }

  /** Scores that are all equal normalise to 1; otherwise they normalise
      into [0, 1], the minimum to 0 and the maximum to 1. */
  lemma {:induction false} NormalizeRange(scores: seq<real>, i: nat)
    requires i < |scores|
    ensures AllEqual(scores) ==> Normalize(scores)[i] == 1.0
    ensures 0.0 <= Normalize(scores)[i] <= 1.0
    ensures !AllEqual(scores) && scores[i] == SeqMin(scores) ==> Normalize(scores)[i] == 0.0
    ensures scores[i] == SeqMax(scores) ==> Normalize(scores)[i] == 1.0
  {
    var lo, hi := SeqMin(scores), SeqMax(scores);
    assert scores[i] in scores;
    ScaledRange(scores[i], lo, hi);
    if AllEqual(scores) {
      assert hi == lo by {
        var j :| 0 <= j < |scores| && scores[j] == lo;
        var k :| 0 <= k < |scores| && scores[k] == hi;
      }
    }
    if !AllEqual(scores) {
      assert lo < hi by {
        if lo == hi {
          forall j | 0 <= j < |scores| ensures scores[j] == scores[0] {
            assert scores[j] in scores && scores[0] in scores;
          }
        }
      }
    }
  }

  /** Normalisation keeps the order of the scores. */
  lemma NormalizeMonotone(scores: seq<real>, i: nat, j: nat)
    requires i < |scores| && j < |scores| && scores[i] <= scores[j]
    ensures Normalize(scores)[i] <= Normalize(scores)[j]
  {
    assert scores[0] in scores;
    ScaledMonotone(scores[i], scores[j], SeqMin(scores), SeqMax(scores));
  }

  // ---------------------------------------------------------------------
  // Fusion

  /** What the BM25 map keeps of a keyword result. */
  datatype Bm25Entry = Bm25Entry(score: real, rank: int)

  /** `semanticMap` after the `forEach` over `rs`: the results at or above
      the threshold, keyed by chunk id; a later result for the same id
      replaces the earlier one in place (see `SemanticMapOrigin`). */
  function SemanticMap(rs: seq<SemanticResult>, threshold: real): (m: OrderedMap<SemanticResult>)
    ensures Valid(m)
    ensures forall k :: k in m.values ==>
              m.values[k].chunk.id == k && m.values[k].similarity >= threshold && m.values[k] in rs
    ensures forall r :: r in rs && r.similarity >= threshold ==> r.chunk.id in m.values
  {
    if rs == [] then Empty()
    else
      var m := SemanticMap(rs[..|rs| - 1], threshold);
      var r := rs[|rs| - 1];
      assert forall x :: x in rs <==> x in rs[..|rs| - 1] || x == r;
      if r.similarity >= threshold then Set(m, r.chunk.id, r) else m
  }

  /** The entry the BM25 map holds for `k`: that of the last result with
      id `k` at or above the threshold. */
  ghost predicate LastBm25Entry(rs: seq<Bm25Result>, threshold: real, k: string, e: Bm25Entry)
  {
    exists i :: 0 <= i < |rs| && rs[i].chunk.id == k && rs[i].score >= threshold
                && e == Bm25Entry(rs[i].score, rs[i].rank)
                && forall j :: i < j < |rs| ==> rs[j].chunk.id != k || rs[j].score < threshold
  }

  /** `bm25Map` after the `forEach` over `rs`: the results at or above the
      threshold, keyed by chunk id; a later result for the same id
      replaces the earlier one (see `Bm25MapOrigin`). */
  function Bm25Map(rs: seq<Bm25Result>, threshold: real): (m: OrderedMap<Bm25Entry>)
    ensures Valid(m)
    ensures forall k :: k in m.values ==> m.values[k].score >= threshold
    ensures forall r :: r in rs && r.score >= threshold ==> r.chunk.id in m.values
  {
    if rs == [] then Empty()
    else
      var m := Bm25Map(rs[..|rs| - 1], threshold);
      var r := rs[|rs| - 1];
      assert forall x :: x in rs <==> x in rs[..|rs| - 1] || x == r;
      if r.score >= threshold then Set(m, r.chunk.id, Bm25Entry(r.score, r.rank)) else m
  }

  /** Every entry of the BM25 map is the score and rank of the last result
      with that chunk id at or above the threshold. */
  lemma {:induction false} Bm25MapOrigin(rs: seq<Bm25Result>, threshold: real)
    ensures forall k :: k in Bm25Map(rs, threshold).values ==>
              LastBm25Entry(rs, threshold, k, Bm25Map(rs, threshold).values[k])
  {
    if rs != [] {
      var n := |rs| - 1;
      var m := Bm25Map(rs[..n], threshold);
      Bm25MapOrigin(rs[..n], threshold);
      var r := rs[n];
      var m' := Bm25Map(rs, threshold);
      forall k | k in m'.values ensures LastBm25Entry(rs, threshold, k, m'.values[k]) {
        if r.score >= threshold && k == r.chunk.id {
          assert m'.values[k] == Bm25Entry(rs[n].score, rs[n].rank);
          assert rs[n].chunk.id == k;
        } else {
          assert k in m.values && m'.values[k] == m.values[k];
          assert LastBm25Entry(rs[..n], threshold, k, m.values[k]);
          LastBm25Snoc(rs, threshold, k, m.values[k]);
        }
      }
    }
  }

  /** A result that does not pass for `k` keeps `k`'s last entry. */
  lemma LastBm25Snoc(rs: seq<Bm25Result>, threshold: real, k: string, e: Bm25Entry)
    requires rs != [] && LastBm25Entry(rs[..|rs| - 1], threshold, k, e)
    requires rs[|rs| - 1].chunk.id != k || rs[|rs| - 1].score < threshold
    ensures LastBm25Entry(rs, threshold, k, e)
  {
    var n := |rs| - 1;
    var i :| 0 <= i < n && rs[..n][i].chunk.id == k && rs[..n][i].score >= threshold
             && e == Bm25Entry(rs[..n][i].score, rs[..n][i].rank)
             && forall j :: i < j < n ==> rs[..n][j].chunk.id != k || rs[..n][j].score < threshold;
    assert rs[i] == rs[..n][i];
    forall j | i < j < |rs| ensures rs[j].chunk.id != k || rs[j].score < threshold {
      if j < n { assert rs[j] == rs[..n][j]; }
    }
  }

  /** The result the semantic map holds for `k`: the last result with id
      `k` at or above the threshold. */
  ghost predicate LastSemanticResult(rs: seq<SemanticResult>, threshold: real, k: string, e: SemanticResult)
  {
    exists i :: 0 <= i < |rs| && rs[i].chunk.id == k && rs[i].similarity >= threshold && e == rs[i]
                && forall j :: i < j < |rs| ==> rs[j].chunk.id != k || rs[j].similarity < threshold
  }

  /** Every entry of the semantic map is the last result with that chunk id
      at or above the threshold. */
  lemma {:induction false} SemanticMapOrigin(rs: seq<SemanticResult>, threshold: real)
    ensures forall k :: k in SemanticMap(rs, threshold).values ==>
              LastSemanticResult(rs, threshold, k, SemanticMap(rs, threshold).values[k])
  {
    if rs != [] {
      var n := |rs| - 1;
      var m := SemanticMap(rs[..n], threshold);
      SemanticMapOrigin(rs[..n], threshold);
      var r := rs[n];
      var m' := SemanticMap(rs, threshold);
      forall k | k in m'.values ensures LastSemanticResult(rs, threshold, k, m'.values[k]) {
        if r.similarity >= threshold && k == r.chunk.id {
          assert m'.values[k] == rs[n];
        } else {
          assert k in m.values && m'.values[k] == m.values[k];
          assert LastSemanticResult(rs[..n], threshold, k, m.values[k]);
          LastSemanticSnoc(rs, threshold, k, m.values[k]);
        }
      }
    }
  }

  /** A result that does not pass for `k` keeps `k`'s last result. */
  lemma LastSemanticSnoc(rs: seq<SemanticResult>, threshold: real, k: string, e: SemanticResult)
    requires rs != [] && LastSemanticResult(rs[..|rs| - 1], threshold, k, e)
    requires rs[|rs| - 1].chunk.id != k || rs[|rs| - 1].similarity < threshold
    ensures LastSemanticResult(rs, threshold, k, e)
  {
    var n := |rs| - 1;
    var i :| 0 <= i < n && rs[..n][i].chunk.id == k && rs[..n][i].similarity >= threshold && e == rs[..n][i]
             && forall j :: i < j < n ==> rs[..n][j].chunk.id != k || rs[..n][j].similarity < threshold;
    assert rs[i] == rs[..n][i];
    forall j | i < j < |rs| ensures rs[j].chunk.id != k || rs[j].similarity < threshold {
      if j < n { assert rs[j] == rs[..n][j]; }
    }
  }

  /** The similarities of a semantic map, in iteration order. */
  function Similarities(m: OrderedMap<SemanticResult>): (s: seq<real>)
    requires Valid(m)
    ensures |s| == |m.order|
  {
    seq(|m.order|, i requires 0 <= i < |m.order| => m.values[m.order[i]].similarity)
  }

  /** The scores of a BM25 map, in iteration order. */
  function Bm25Scores(m: OrderedMap<Bm25Entry>): (s: seq<real>)
    requires Valid(m)
    ensures |s| == |m.order|
  {
    seq(|m.order|, i requires 0 <= i < |m.order| => m.values[m.order[i]].score)
  }

  /** A normalised-score map: the i-th key gets the i-th normalised score.
      Only lookups are made in it, so its iteration order is not kept. */
  function ScoreMap(keys: seq<string>, norm: seq<real>): (m: map<string, real>)
    requires |keys| == |norm|
    ensures forall k :: k in m <==> k in keys
  {
    if keys == [] then map[]
    else
      var n := |keys| - 1;
      assert forall k :: k in keys <==> k in keys[..n] || k == keys[n];
      ScoreMap(keys[..n], norm[..n])[keys[n] := norm[n]]
  }

  /** With distinct keys, the score stored under the i-th key is the i-th
      normalised score. */
  lemma {:induction false} ScoreMapAt(keys: seq<string>, norm: seq<real>, i: nat)
    requires |keys| == |norm| && Distinct(keys) && i < |keys|
    ensures ScoreMap(keys, norm)[keys[i]] == norm[i]
  {
    var n := |keys| - 1;
    if i < n {
      assert keys[i] != keys[n];
      ScoreMapAt(keys[..n], norm[..n], i);
    }
  }

  /** `new Set([...a, ...b])` iterated in insertion order. */
  function Dedup(s: seq<string>): (r: seq<string>)
    ensures Distinct(r)
    ensures forall x :: x in r <==> x in s
  {
    if s == [] then []
    else
      var r := Dedup(s[..|s| - 1]);
      assert forall x :: x in s <==> x in s[..|s| - 1] || x == s[|s| - 1];
      if s[|s| - 1] in r then r else r + [s[|s| - 1]]
  }

  /** `x` occurs in `s` before any occurrence of `y`. */
  ghost predicate OccursBefore(s: seq<string>, x: string, y: string)
  {
    exists p :: 0 <= p < |s| && s[p] == x && forall q :: 0 <= q <= p ==> s[q] != y
  }

  /** The ids keep the order of their first occurrences in the input. */
  lemma {:induction false} DedupFirstOccurrence(s: seq<string>)
    ensures forall i, j :: 0 <= i < j < |Dedup(s)| ==> OccursBefore(s, Dedup(s)[i], Dedup(s)[j])
  {
    if s != [] {
      var n := |s| - 1;
      var prefix := s[..n];
      var r := Dedup(prefix);
      DedupFirstOccurrence(prefix);
      forall i, j | 0 <= i < j < |Dedup(s)| ensures OccursBefore(s, Dedup(s)[i], Dedup(s)[j]) {
        if j < |r| {
          assert Dedup(s)[i] == r[i] && Dedup(s)[j] == r[j];
          var p :| 0 <= p < |prefix| && prefix[p] == r[i] && forall q :: 0 <= q <= p ==> prefix[q] != r[j];
          assert s[p] == r[i];
          forall q | 0 <= q <= p ensures s[q] != r[j] { assert s[q] == prefix[q]; }
        } else {
          assert s[n] !in r && Dedup(s) == r + [s[n]];
          assert Dedup(s)[i] == r[i] && Dedup(s)[j] == s[n];
          assert r[i] in prefix;
          var p :| 0 <= p < |prefix| && prefix[p] == r[i];
          assert s[p] == r[i];
          forall q | 0 <= q <= p ensures s[q] != s[n] {
            assert s[q] == prefix[q] && prefix[q] in prefix;
          }
        }
      }
    }
  }

  /** The state the fusion loop reads: the filtered maps and the normalised
      score maps. */
  datatype Tables = Tables(
    semantic: OrderedMap<SemanticResult>,
    bm25: OrderedMap<Bm25Entry>,
    semanticNorm: map<string, real>,
    bm25Norm: map<string, real>)

  function TablesOf(semanticResults: seq<SemanticResult>, bm25Results: seq<Bm25Result>, cfg: Config): (t: Tables)
    ensures Valid(t.semantic) && Valid(t.bm25)
    ensures forall k :: k in t.semantic.values ==> t.semantic.values[k].chunk.id == k
  {
    var sem := SemanticMap(semanticResults, cfg.semanticThreshold);
    var bm := Bm25Map(bm25Results, cfg.bm25Threshold);
    Tables(sem, bm,
      ScoreMap(sem.order, Normalize(Similarities(sem))),
      ScoreMap(bm.order, Normalize(Bm25Scores(bm))))
  }

  /** `semanticScoreMap.get(id) || 0`. */
  function NormSemantic(t: Tables, id: string): real
  {
    if id in t.semanticNorm then t.semanticNorm[id] else 0.0
  }

  /** `bm25ScoreMap.get(id) || 0`. */
  function NormBm25(t: Tables, id: string): real
  {
    if id in t.bm25Norm then t.bm25Norm[id] else 0.0
  }

  function SourceOf(semanticScore: real, bm25Score: real): Source
  {
    if semanticScore > 0.0 && bm25Score > 0.0 then SourceBoth
    else if semanticScore > 0.0 then SourceSemantic
    else SourceBm25
  }

  /** The fused score of one id. */
  function HybridScore(alpha: real, t: Tables, id: string): real
  {
    alpha * NormSemantic(t, id) + (1.0 - alpha) * NormBm25(t, id)
  }

  /** The chunk of an id: the one stored with its semantic result, else the
      first chunk with that id. */
  function ChunkOf(t: Tables, chunks: seq<Chunk>, id: string): Option<Chunk>
  {
    if id in t.semantic.values then Some(t.semantic.values[id].chunk) else FindById(chunks, id)
  }

  /** A fused result carries the weighted sum of the normalised scores, a
      positive score, the provenance of the normalised scores, the raw
      scores, and the chunk of its id. */
  ghost predicate WellFused(h: HybridResult, alpha: real, t: Tables, chunks: seq<Chunk>)
  {
    var id := h.chunk.id;
    && h.hybridScore == HybridScore(alpha, t, id)
    && h.hybridScore > 0.0
    && h.source == SourceOf(NormSemantic(t, id), NormBm25(t, id))
    && h.semanticScore == (if id in t.semantic.values then t.semantic.values[id].similarity else 0.0)
    && h.bm25Score == (if id in t.bm25.values then t.bm25.values[id].score else 0.0)
    && ChunkOf(t, chunks, id) == Some(h.chunk)
    && (id in t.semantic.values || id in t.bm25.values)
  }

  /** The result for one id, or nothing when its score is not positive or no
      chunk has the id. */
  function FuseOne(id: string, alpha: real, t: Tables, chunks: seq<Chunk>): Option<HybridResult>
  {
    var s := NormSemantic(t, id);
    var b := NormBm25(t, id);
    var chunk := ChunkOf(t, chunks, id);
    if chunk.Some? && HybridScore(alpha, t, id) > 0.0 then
      Some(HybridResult(chunk.value, HybridScore(alpha, t, id),
        if id in t.semantic.values then t.semantic.values[id].similarity else 0.0,
        if id in t.bm25.values then t.bm25.values[id].score else 0.0,
        0, SourceOf(s, b)))
    else None
  }

  /** `hybridResults` after the `forEach` over `ids`. */
  function Fused(ids: seq<string>, alpha: real, t: Tables, chunks: seq<Chunk>): seq<HybridResult>
  {
    if ids == [] then []
    else
      var rest := Fused(ids[..|ids| - 1], alpha, t, chunks);
      match FuseOne(ids[|ids| - 1], alpha, t, chunks)
      case None => rest
      case Some(h) => rest + [h]
  }

  /** Sort by hybrid score (largest first, stable), number the ranks 1..n,
      and cut at `topK`. */
  function RankAndCut(hs: seq<HybridResult>, topK: int): seq<HybridResult>
  {
    var sorted := SortDesc(hs, (h: HybridResult) => h.hybridScore);
    var ranked := seq(|sorted|, i requires 0 <= i < |sorted| => sorted[i].(rank := i + 1));
    Slice(ranked, topK)
  }

  /** The results of lines 130-259 of `search`, given α and the BM25 results. */
  function FusionSpec(alpha: real, semanticResults: seq<SemanticResult>, bm25Results: seq<Bm25Result>,
                      chunks: seq<Chunk>, cfg: Config): seq<HybridResult>
  {
    var t := TablesOf(semanticResults, bm25Results, cfg);
    RankAndCut(Fused(Dedup(t.semantic.order + t.bm25.order), alpha, t, chunks), cfg.topK)
  }

  /** Every fused result is well formed and has the chunk of one of the
      fused ids; no two results share a chunk id; and every id whose fused
      score is positive and whose chunk is known yields a result. */
  lemma {:induction false} FusedFacts(ids: seq<string>, alpha: real, t: Tables, chunks: seq<Chunk>)
    requires forall k :: k in t.semantic.values ==> t.semantic.values[k].chunk.id == k
    requires Distinct(ids)
    requires forall id :: id in ids ==> id in t.semantic.values || id in t.bm25.values
    ensures forall h :: h in Fused(ids, alpha, t, chunks) ==> WellFused(h, alpha, t, chunks) && h.chunk.id in ids
    ensures DistinctBy(Fused(ids, alpha, t, chunks), (h: HybridResult) => h.chunk.id)
    ensures forall id :: id in ids && FuseOne(id, alpha, t, chunks).Some? ==>
              FuseOne(id, alpha, t, chunks).value in Fused(ids, alpha, t, chunks)
  {
    if ids != [] {
      var n := |ids| - 1;
      var id := ids[n];
      var rest := Fused(ids[..n], alpha, t, chunks);
      FusedFacts(ids[..n], alpha, t, chunks);
      assert forall x :: x in ids <==> x in ids[..n] || x == id;
      assert id !in ids[..n];
      var one := FuseOne(id, alpha, t, chunks);
      if one.Some? {
        assert one.value.chunk.id == id;
        assert WellFused(one.value, alpha, t, chunks);
        var all := rest + [one.value];
        assert Fused(ids, alpha, t, chunks) == all;
        forall i, j | 0 <= i < j < |all| ensures all[i].chunk.id != all[j].chunk.id {
          if j == |all| - 1 {
            assert all[i] in rest;
          }
        }
      }
    }
  }

  /** Ranking keeps distinct chunk ids distinct, orders the results by
      score, numbers them 1..n, returns at most `topK` of them, and changes
      nothing in a result but its rank. */
  lemma RankAndCutFacts(hs: seq<HybridResult>, topK: int)
    requires DistinctBy(hs, (h: HybridResult) => h.chunk.id)
    ensures var rs := RankAndCut(hs, topK);
      && DistinctBy(rs, (h: HybridResult) => h.chunk.id)
      && (forall i, j :: 0 <= i < j < |rs| ==> rs[i].hybridScore >= rs[j].hybridScore)
      && (forall i :: 0 <= i < |rs| ==> rs[i].rank == i + 1)
      && (forall i :: 0 <= i < |rs| ==> exists h :: h in hs && rs[i] == h.(rank := i + 1))
      && (topK >= 0 ==> |rs| == Min(topK, |hs|))
      && (topK < 0 ==> |rs| == Max(0, |hs| + topK))
  {
    var key := (h: HybridResult) => h.hybridScore;
    var id := (h: HybridResult) => h.chunk.id;
    var sorted := SortDesc(hs, key);
    SortDescDistinct(hs, key, id);
    var ranked := seq(|sorted|, i requires 0 <= i < |sorted| => sorted[i].(rank := i + 1));
    var rs := Slice(ranked, topK);
    assert rs == RankAndCut(hs, topK);
    assert forall i :: 0 <= i < |rs| ==> rs[i] == ranked[i];
    RankedPrefixFacts(sorted, rs);
    forall i | 0 <= i < |rs| ensures exists h :: h in hs && rs[i] == h.(rank := i + 1) {
      SortDescMembers(hs, key, sorted[i]);
      assert sorted[i] in hs && rs[i] == sorted[i].(rank := i + 1);
    }
  }

  /** Whether a result for chunk id `id` was returned. */
  ghost predicate ReturnsId(rs: seq<HybridResult>, id: string)
  {
    exists i :: 0 <= i < |rs| && rs[i].chunk.id == id
  }

  /** The cut keeps the best: a result whose chunk id was not returned
      scores no more than any returned one, and then a non-negative `topK`
      results were returned. */
  lemma RankAndCutKeepsBest(hs: seq<HybridResult>, topK: int)
    ensures var rs := RankAndCut(hs, topK);
      forall h :: h in hs && !ReturnsId(rs, h.chunk.id) ==>
        && (topK >= 0 ==> |rs| == topK)
        && forall i :: 0 <= i < |rs| ==> h.hybridScore <= rs[i].hybridScore
  {
    var key := (h: HybridResult) => h.hybridScore;
    var sorted := SortDesc(hs, key);
    var ranked := seq(|sorted|, i requires 0 <= i < |sorted| => sorted[i].(rank := i + 1));
    var rs := Slice(ranked, topK);
    assert rs == RankAndCut(hs, topK);
    assert |rs| <= |sorted| && forall i :: 0 <= i < |rs| ==> rs[i] == sorted[i].(rank := i + 1);
    forall h | h in hs && !ReturnsId(rs, h.chunk.id)
      ensures topK >= 0 ==> |rs| == topK
      ensures forall i :: 0 <= i < |rs| ==> h.hybridScore <= rs[i].hybridScore
    {
      SortDescMembers(hs, key, h);
      var p :| 0 <= p < |sorted| && sorted[p] == h;
      if p < |rs| {
        assert false;
      }
      PrefixLeftOut(sorted, rs, p);
    }
  }

  /** An element of a list sorted by score that lies beyond a numbered
      prefix scores no more than any element of the prefix. */
  lemma PrefixLeftOut(sorted: seq<HybridResult>, rs: seq<HybridResult>, p: int)
    requires SortedDesc(sorted, (h: HybridResult) => h.hybridScore)
    requires |rs| <= p < |sorted|
    requires forall i :: 0 <= i < |rs| ==> rs[i] == sorted[i].(rank := i + 1)
    ensures forall i :: 0 <= i < |rs| ==> sorted[p].hybridScore <= rs[i].hybridScore
  {
    forall i | 0 <= i < |rs| ensures sorted[p].hybridScore <= rs[i].hybridScore {
      assert rs[i].hybridScore == sorted[i].hybridScore;
    }
  }

  /** A numbered prefix of a list sorted by score with distinct chunk ids
      keeps both properties and carries the ranks 1..n. */
  lemma RankedPrefixFacts(sorted: seq<HybridResult>, rs: seq<HybridResult>)
    requires SortedDesc(sorted, (h: HybridResult) => h.hybridScore)
    requires DistinctBy(sorted, (h: HybridResult) => h.chunk.id)
    requires |rs| <= |sorted| && forall i :: 0 <= i < |rs| ==> rs[i] == sorted[i].(rank := i + 1)
    ensures DistinctBy(rs, (h: HybridResult) => h.chunk.id)
    ensures forall i, j :: 0 <= i < j < |rs| ==> rs[i].hybridScore >= rs[j].hybridScore
    ensures forall i :: 0 <= i < |rs| ==> rs[i].rank == i + 1
  {
    forall i, j | 0 <= i < j < |rs|
      ensures rs[i].chunk.id != rs[j].chunk.id && rs[i].hybridScore >= rs[j].hybridScore
    {
      assert rs[i].chunk.id == sorted[i].chunk.id && rs[j].chunk.id == sorted[j].chunk.id;
      assert rs[i].hybridScore == sorted[i].hybridScore && rs[j].hybridScore == sorted[j].hybridScore;
    }
  }

  /** Every id of the tables that yields a fused result is returned,
      unless a non-negative `topK` results were returned that all score at
      least as high. */
  ghost predicate FusedNoBetterLeftOut(rs: seq<HybridResult>, alpha: real, t: Tables, chunks: seq<Chunk>, topK: int)
  {
    forall id :: (id in t.semantic.values || id in t.bm25.values) && FuseOne(id, alpha, t, chunks).Some? ==>
      || ReturnsId(rs, id)
      || ((topK >= 0 ==> |rs| == topK)
          && forall i :: 0 <= i < |rs| ==> FuseOne(id, alpha, t, chunks).value.hybridScore <= rs[i].hybridScore)
  }

  /** The fused results: each chunk id at most once; each score is
      `α·normSem + (1−α)·normBm25` and positive; `source` is "both" exactly
      when both normalised scores are positive; the reported scores are the
      raw ones; only ids that cleared a threshold take part; scores do not
      increase down the list, ranks are 1..n and at most `topK` results are
      returned. */
  lemma FusionProperties(alpha: real, semanticResults: seq<SemanticResult>, bm25Results: seq<Bm25Result>,
                         chunks: seq<Chunk>, cfg: Config)
    ensures var rs := FusionSpec(alpha, semanticResults, bm25Results, chunks, cfg);
            var t := TablesOf(semanticResults, bm25Results, cfg);
      && DistinctBy(rs, (h: HybridResult) => h.chunk.id)
      && (forall h :: h in rs ==> WellFused(h, alpha, t, chunks))
      && (forall h :: h in rs ==> (h.source == SourceBoth <==> NormSemantic(t, h.chunk.id) > 0.0 && NormBm25(t, h.chunk.id) > 0.0))
      && (forall i, j :: 0 <= i < j < |rs| ==> rs[i].hybridScore >= rs[j].hybridScore)
      && (forall i :: 0 <= i < |rs| ==> rs[i].rank == i + 1)
      && (cfg.topK >= 0 ==> |rs| <= cfg.topK)
      && FusedNoBetterLeftOut(rs, alpha, t, chunks, cfg.topK)
  {
    var t := TablesOf(semanticResults, bm25Results, cfg);
    var ids := Dedup(t.semantic.order + t.bm25.order);
    assert forall id :: id in ids <==> id in t.semantic.values || id in t.bm25.values;
    FusionOn(ids, alpha, t, chunks, cfg.topK);
    FusionOnComplete(ids, alpha, t, chunks, cfg.topK);
    assert RankAndCut(Fused(ids, alpha, t, chunks), cfg.topK)
           == FusionSpec(alpha, semanticResults, bm25Results, chunks, cfg);
  }

  /** `FusionProperties` for any distinct ids drawn from the tables. */
  lemma FusionOn(ids: seq<string>, alpha: real, t: Tables, chunks: seq<Chunk>, topK: int)
    requires forall k :: k in t.semantic.values ==> t.semantic.values[k].chunk.id == k
    requires Distinct(ids)
    requires forall id :: id in ids ==> id in t.semantic.values || id in t.bm25.values
    ensures var rs := RankAndCut(Fused(ids, alpha, t, chunks), topK);
      && DistinctBy(rs, (h: HybridResult) => h.chunk.id)
      && (forall h :: h in rs ==> WellFused(h, alpha, t, chunks))
      && (forall h :: h in rs ==> (h.source == SourceBoth <==> NormSemantic(t, h.chunk.id) > 0.0 && NormBm25(t, h.chunk.id) > 0.0))
      && (forall i, j :: 0 <= i < j < |rs| ==> rs[i].hybridScore >= rs[j].hybridScore)
      && (forall i :: 0 <= i < |rs| ==> rs[i].rank == i + 1)
      && (topK >= 0 ==> |rs| <= topK)
  {
    var hs := Fused(ids, alpha, t, chunks);
    FusedFacts(ids, alpha, t, chunks);
    RankAndCutFacts(hs, topK);
    RankedWellFused(hs, RankAndCut(hs, topK), alpha, t, chunks);
  }

  /** When `ids` covers the tables, no id that yields a fused result is
      left out unless it lost to the results that were kept. */
  lemma FusionOnComplete(ids: seq<string>, alpha: real, t: Tables, chunks: seq<Chunk>, topK: int)
    requires forall k :: k in t.semantic.values ==> t.semantic.values[k].chunk.id == k
    requires Distinct(ids)
    requires forall id :: id in ids <==> id in t.semantic.values || id in t.bm25.values
    ensures FusedNoBetterLeftOut(RankAndCut(Fused(ids, alpha, t, chunks), topK), alpha, t, chunks, topK)
  {
    FusedFacts(ids, alpha, t, chunks);
    RankAndCutKeepsBest(Fused(ids, alpha, t, chunks), topK);
    FusedLeftOut(ids, alpha, t, chunks, topK);
  }

  /** An id left out of the cut lost to the results that were kept. */
  lemma FusedLeftOut(ids: seq<string>, alpha: real, t: Tables, chunks: seq<Chunk>, topK: int)
    requires forall k :: k in t.semantic.values ==> t.semantic.values[k].chunk.id == k
    requires forall id :: id in t.semantic.values || id in t.bm25.values ==> id in ids
    requires forall id :: id in ids && FuseOne(id, alpha, t, chunks).Some? ==>
               FuseOne(id, alpha, t, chunks).value in Fused(ids, alpha, t, chunks)
    requires var rs := RankAndCut(Fused(ids, alpha, t, chunks), topK);
      forall h :: h in Fused(ids, alpha, t, chunks) && !ReturnsId(rs, h.chunk.id) ==>
        && (topK >= 0 ==> |rs| == topK)
        && forall i :: 0 <= i < |rs| ==> h.hybridScore <= rs[i].hybridScore
    ensures FusedNoBetterLeftOut(RankAndCut(Fused(ids, alpha, t, chunks), topK), alpha, t, chunks, topK)
  {
    var rs := RankAndCut(Fused(ids, alpha, t, chunks), topK);
    forall id | (id in t.semantic.values || id in t.bm25.values) && FuseOne(id, alpha, t, chunks).Some?
      ensures || ReturnsId(rs, id)
              || ((topK >= 0 ==> |rs| == topK)
                  && forall i :: 0 <= i < |rs| ==> FuseOne(id, alpha, t, chunks).value.hybridScore <= rs[i].hybridScore)
    {
      var h := FuseOne(id, alpha, t, chunks).value;
      assert h.chunk.id == id;
      assert h in Fused(ids, alpha, t, chunks);
    }
  }

  /** Renumbering well-fused results keeps them well fused. */
  lemma RankedWellFused(hs: seq<HybridResult>, rs: seq<HybridResult>, alpha: real, t: Tables, chunks: seq<Chunk>)
    requires forall h :: h in hs ==> WellFused(h, alpha, t, chunks)
    requires forall i :: 0 <= i < |rs| ==> exists h :: h in hs && rs[i] == h.(rank := i + 1)
    ensures forall h :: h in rs ==> WellFused(h, alpha, t, chunks)
  {
    forall h | h in rs ensures WellFused(h, alpha, t, chunks) {
      var i :| 0 <= i < |rs| && rs[i] == h;
      var h' :| h' in hs && rs[i] == h'.(rank := i + 1);
      assert WellFused(h', alpha, t, chunks);
    }
  }

  /** The fusion loop over one more id adds that id's result, if any. */
  lemma FusedSnoc(ids: seq<string>, i: nat, alpha: real, t: Tables, chunks: seq<Chunk>)
    requires i < |ids|
    ensures FuseOne(ids[i], alpha, t, chunks).None? ==>
              Fused(ids[..i + 1], alpha, t, chunks) == Fused(ids[..i], alpha, t, chunks)
    ensures FuseOne(ids[i], alpha, t, chunks).Some? ==>
              Fused(ids[..i + 1], alpha, t, chunks)
              == Fused(ids[..i], alpha, t, chunks) + [FuseOne(ids[i], alpha, t, chunks).value]
  {
    assert ids[..i + 1][..i] == ids[..i];
    assert ids[..i + 1][i] == ids[i];
  }

  /** A chunk id that is in the semantic list only and holds that list's
      strictly smallest similarity normalises to 0 there, so its fused score
      is 0 and it is left out of the results. */
  lemma SoleMinimumIsDropped(alpha: real, semanticResults: seq<SemanticResult>, bm25Results: seq<Bm25Result>,
                             chunks: seq<Chunk>, cfg: Config, i: nat)
    requires var t := TablesOf(semanticResults, bm25Results, cfg);
      && i < |t.semantic.order|
      && !AllEqual(Similarities(t.semantic))
      && Similarities(t.semantic)[i] == SeqMin(Similarities(t.semantic))
      && t.semantic.order[i] !in t.bm25.values
    ensures var t := TablesOf(semanticResults, bm25Results, cfg);
      && NormSemantic(t, t.semantic.order[i]) == 0.0
      && NormBm25(t, t.semantic.order[i]) == 0.0
      && FuseOne(t.semantic.order[i], alpha, t, chunks).None?
  {
    var t := TablesOf(semanticResults, bm25Results, cfg);
    var id := t.semantic.order[i];
    var sims := Similarities(t.semantic);
    NormalizeRange(sims, i);
    ScoreMapAt(t.semantic.order, Normalize(sims), i);
    assert t.semanticNorm == ScoreMap(t.semantic.order, Normalize(sims));
    assert NormSemantic(t, id) == 0.0;
    assert id !in t.bm25.order;
    assert t.bm25Norm == ScoreMap(t.bm25.order, Normalize(Bm25Scores(t.bm25)));
    assert NormBm25(t, id) == 0.0;
    assert HybridScore(alpha, t, id) == 0.0;
  }

  /** The `forEach` over the semantic results. */
  method BuildSemanticMap(semanticResults: seq<SemanticResult>, threshold: real)
    returns (m: OrderedMap<SemanticResult>)
    ensures m == SemanticMap(semanticResults, threshold)
  {
    m := Empty();
    for i := 0 to |semanticResults|
      invariant m == SemanticMap(semanticResults[..i], threshold)
    {
      assert semanticResults[..i + 1][..i] == semanticResults[..i];
      var result := semanticResults[i];
      if result.similarity >= threshold {
        m := Set(m, result.chunk.id, result);
      }
    }
    assert semanticResults[..|semanticResults|] == semanticResults;
  }

  /** The `forEach` over the BM25 results. */
  method BuildBm25Map(bm25Results: seq<Bm25Result>, threshold: real) returns (m: OrderedMap<Bm25Entry>)
    ensures m == Bm25Map(bm25Results, threshold)
  {
    m := Empty();
    for i := 0 to |bm25Results|
      invariant m == Bm25Map(bm25Results[..i], threshold)
    {
      assert bm25Results[..i + 1][..i] == bm25Results[..i];
      var result := bm25Results[i];
      if result.score >= threshold {
        m := Set(m, result.chunk.id, Bm25Entry(result.score, result.rank));
      }
    }
    assert bm25Results[..|bm25Results|] == bm25Results;
  }

  /** The `forEach` that stores each key's normalised score. */
  method BuildScoreMap(keys: seq<string>, norm: seq<real>) returns (m: map<string, real>)
    requires |keys| == |norm|
    ensures m == ScoreMap(keys, norm)
  {
    m := map[];
    for i := 0 to |keys|
      invariant m == ScoreMap(keys[..i], norm[..i])
    {
      assert keys[..i + 1][..i] == keys[..i];
      assert norm[..i + 1][..i] == norm[..i];
      m := m[keys[i] := norm[i]];
    }
    assert keys[..|keys|] == keys;
    assert norm[..|norm|] == norm;
  }

  /** Lines 130-191 of `search`: the filtered maps and the normalised
      score maps. */
  method BuildTables(semanticResults: seq<SemanticResult>, bm25Results: seq<Bm25Result>, cfg: Config)
    returns (t: Tables)
    ensures t == TablesOf(semanticResults, bm25Results, cfg)
  {
    var semanticMap := BuildSemanticMap(semanticResults, cfg.semanticThreshold);
    var bm25Map := BuildBm25Map(bm25Results, cfg.bm25Threshold);
    var semanticScoreMap := BuildScoreMap(semanticMap.order, Normalize(Similarities(semanticMap)));
    var bm25ScoreMap := BuildScoreMap(bm25Map.order, Normalize(Bm25Scores(bm25Map)));
    t := Tables(semanticMap, bm25Map, semanticScoreMap, bm25ScoreMap);
  }

  /** The `forEach` over the chunk ids that computes each hybrid score. */
  method FuseAll(allChunkIds: seq<string>, alpha: real, t: Tables, chunks: seq<Chunk>)
    returns (hybridResults: seq<HybridResult>)
    ensures hybridResults == Fused(allChunkIds, alpha, t, chunks)
  {
    hybridResults := [];
    for i := 0 to |allChunkIds|
      invariant hybridResults == Fused(allChunkIds[..i], alpha, t, chunks)
    {
      FusedSnoc(allChunkIds, i, alpha, t, chunks);
      var result := FuseChunk(allChunkIds[i], alpha, t, chunks);
      if result.Some? {
        hybridResults := hybridResults + [result.value];
      }
    }
    assert allChunkIds[..|allChunkIds|] == allChunkIds;
  }

  /** The body of that `forEach` for one chunk id: the result it pushes,
      if any. */
  method FuseChunk(chunkId: string, alpha: real, t: Tables, chunks: seq<Chunk>)
    returns (pushed: Option<HybridResult>)
    ensures pushed == FuseOne(chunkId, alpha, t, chunks)
  {
    var semanticScore := if chunkId in t.semanticNorm then t.semanticNorm[chunkId] else 0.0;
    var bm25Score := if chunkId in t.bm25Norm then t.bm25Norm[chunkId] else 0.0;
    var hybridScore := alpha * semanticScore + (1.0 - alpha) * bm25Score;
    var source := SourceOf(semanticScore, bm25Score);
    var chunk := if chunkId in t.semantic.values then Some(t.semantic.values[chunkId].chunk)
                 else FindById(chunks, chunkId);
    assert semanticScore == NormSemantic(t, chunkId) && bm25Score == NormBm25(t, chunkId);
    assert hybridScore == HybridScore(alpha, t, chunkId) && chunk == ChunkOf(t, chunks, chunkId);
    if chunk.Some? && hybridScore > 0.0 {
      pushed := Some(HybridResult(
        chunk.value,
        hybridScore,
        if chunkId in t.semantic.values then t.semantic.values[chunkId].similarity else 0.0,
        if chunkId in t.bm25.values then t.bm25.values[chunkId].score else 0.0,
        0,
        source));
    } else {
      pushed := None;
    }
  }

  /** The `forEach` that numbers the sorted results 1..n. */
  method AssignRanks(sorted: seq<HybridResult>) returns (ranked: seq<HybridResult>)
    ensures ranked == seq(|sorted|, i requires 0 <= i < |sorted| => sorted[i].(rank := i + 1))
  {
    ranked := sorted;
    for i := 0 to |ranked|
      invariant |ranked| == |sorted|
      invariant forall j :: 0 <= j < i ==> ranked[j] == sorted[j].(rank := j + 1)
      invariant forall j :: i <= j < |ranked| ==> ranked[j] == sorted[j]
    {
      ranked := ranked[i := ranked[i].(rank := i + 1)];
    }
  }

  /** Lines 130-259 of `search`: filter both result lists by their
      thresholds, normalise, fuse with weight `alpha`, sort, rank and cut. */
  method Fuse(alpha: real, semanticResults: seq<SemanticResult>, bm25Results: seq<Bm25Result>,
              chunks: seq<Chunk>, cfg: Config) returns (results: seq<HybridResult>)
    ensures results == FusionSpec(alpha, semanticResults, bm25Results, chunks, cfg)
  {
    var t := BuildTables(semanticResults, bm25Results, cfg);
    var allChunkIds := Dedup(t.semantic.order + t.bm25.order);
    var hybridResults := FuseAll(allChunkIds, alpha, t, chunks);
    var sorted := SortDesc(hybridResults, (h: HybridResult) => h.hybridScore);
    var ranked := AssignRanks(sorted);
    results := Slice(ranked, cfg.topK);
  }

  /** The fusion engine, with its own keyword scorer. */
  class HybridSearch {
    const bm25: BM25Search
    var config: Config

    ghost predicate Valid()
      reads this, bm25
    {
      bm25.Valid()
    }

    constructor (config: PartialConfig, ops: TextOps, ln: real -> real)
      ensures Valid() && fresh(bm25) && bm25.index == None && bm25.ops == ops && bm25.ln == ln
      ensures this.config == WithDefaults(config)
    {
      bm25 := new BM25Search(ops, ln);
      this.config := WithDefaults(config);
    }

    /** `search`: nothing for an empty chunk list; otherwise asks the keyword
        scorer for `2·topK` results (which may rebuild its index) and fuses
        them with the semantic results under the adaptive α. */
    method Search(query: string, patterns: QueryPatterns, chunks: seq<Chunk>, semanticResults: seq<SemanticResult>)
      returns (results: seq<HybridResult>)
      requires Valid()
      modifies bm25
      ensures Valid()
      ensures chunks == [] ==> results == [] && bm25.index == old(bm25.index)
      ensures chunks != [] ==>
                results == FusionSpec(AdaptiveAlpha(config, query, patterns), semanticResults,
                                      SearchSpec(bm25.ops, bm25.ln, bm25.index, query, chunks, config.topK * 2),
                                      chunks, config)
      ensures (chunks != [] && old(bm25.index).Some? && old(bm25.index).value.totalDocs == |chunks|)
                ==> bm25.index == old(bm25.index)
      ensures (chunks != [] && (old(bm25.index).None? || old(bm25.index).value.totalDocs != |chunks|))
                ==> bm25.index == Some(IndexOf(bm25.ops, chunks))
    {
      if chunks == [] {
        return [];
      }
      var alpha := AdaptiveAlpha(config, query, patterns);
      var bm25Results := bm25.Search(query, chunks, config.topK * 2);
      results := Fuse(alpha, semanticResults, bm25Results, chunks, config);
    }

    /** `updateConfig`: the given fields replace the current ones. */
    method UpdateConfig(newConfig: PartialConfig)
      requires Valid()
      modifies this
      ensures Valid()
      ensures config == Override(old(config), newConfig)
    {
      config := Override(config, newConfig);
    }
  }
}
