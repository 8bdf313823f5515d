# Retrieval and ranking core of a RAG business-chat assistant

This project models the part of the chat assistant that decides which
knowledge-base chunks go into the language model's prompt, and proves
properties of that model in Dafny. The chain is:

- **BM25 keyword scorer** (`Bm25`, bm25.dfy).
  - It preprocesses text: lower-case, tokenize, drop stopwords, strip one suffix, keep tokens longer than two characters.
  - It builds an index of term frequencies, document frequencies and the average document length.
  - It scores documents with Okapi BM25 (k1 = 1.2, b = 0.75), keeps the positive scores, then sorts, cuts and ranks them.
  - The scorer is a class whose cached index is rebuilt only when it is absent or the chunk count changes.
- **Hybrid fusion** (`Hybrid`, hybrid.dfy).
  - A query-dependent semantic weight α comes from two sequential, clamped rules.
  - Min-max normalisation maps a list whose values are all equal to all 1s.
  - Results are filtered by threshold and fused as `α·sem + (1−α)·bm25`.
  - Chunk ids are deduplicated in JavaScript `Map`/`Set` insertion order and zero scores are removed.
  - The results are then sorted, ranked and cut.
- **Prompt middleware** (`Rag`, rag.dfy).
  - The context size `getOptimalK` comes from a table and a chain of clamps.
  - A greedy diversity selector enforces a per-file cap and rejects near-duplicates.
  - Its fallback cascade runs diverse, then relaxed-diverse, then the raw top k.
  - The early returns of `transformParams` are modelled, along with the assembly of the augmented user message.
- **LLM re-ranker post-processing** (`Reranker`, reranker.dfy).
  - It chooses topK and the candidates, and maps a parsed `rankings` reply back onto the candidates.
  - It computes the metrics, and covers the parse-failure and exception fallbacks, `quickRerank` and `detailedRerank`.
- **File-selection update** (`FilesUpdate`, files_update.dfy): the `PATCH` handler's validation, authorisation and add/remove/other update of a configuration's `filePaths`.

Shared modules:

- `Common`: `Option`, the `Chunk` record and `Array.prototype.find` by id.
- `Seqs`: `filter`, `slice(0, end)` including a negative `end`, subsequences and counting.
- `Sorting`: the stable `Array.prototype.sort` with a numeric comparator, as an insertion sort.
- `JsMap`: a JavaScript `Map` whose `set` on an existing key keeps the key's iteration position.

Where the source mutates state, the model does too:

- **`BM25Search`** is a class with a mutable `index` field. `BuildIndex`, `CalculateBm25Score`, `RankDocuments` and `Search` are methods with loops, proved against specification functions (`IndexOf`, `Score`, `SearchSpec`).
- **`HybridSearch`** is a class that owns a `BM25Search`, with `Search` and `UpdateConfig`. The fusion is done by methods whose loops build the maps, fuse and rank. They are proved equal to `FusionSpec`.
- **The diversity loop** is the method `DiversityPass`. It keeps a per-file count map and an embedding list, and is proved equal to the function `Select`.
- **`transformParams`** is the method `TransformParams`, which pops and pushes the message list.

The re-ranker and the file update are pure in the source and are modelled as functions.

Inputs from outside the core are parameters:

- the tokenizer, lower-casing and stopword test (`TextOps`);
- `Math.log`;
- `cosineSimilarity`;
- the classifier, the hypothetical-answer embedding and the chunk lookup (`Services`);
- the re-ranker model's reply (`ModelCall`/`Reply`);
- the session and the configuration lookup of the update handler.

## Behaviour worth knowing

Each point below is what the code does, and the model follows it.

- **No quality-threshold stage.** `ai/rag-middleware.ts` sends the similarity-sorted chunks straight to diversity selection. No similarity-threshold filter, and no progressive relaxation of one, comes before it. The model has no such stage.
- **k can be exceeded when it is 0.** The context size is meant to be at most `min(k, 15, floor(0.4·available))`, but the selector checks the length only after the push. When fewer than three chunks are available, `k` is 0, yet the first candidate is still admitted and returned (`Rag.OptimalKZero`, `Rag.ZeroKAdmitsOne`; `Rag.TopKChunksFacts` bounds the result by `max(k, 1)`).
- **The lowest score can be dropped.** Min-max normalisation maps the strictly lowest score of a list to 0. A chunk that cleared only one threshold, holding that list's strictly lowest score, therefore gets a hybrid score of 0 and is dropped from the fusion (`Hybrid.SoleMinimumIsDropped`).
- **A higher term frequency can lower the BM25 score.** The IDF `ln((N − df + 0.5)/(df + 0.5))` is negative for a term in more than half of the documents. For such a term, a larger term frequency gives a larger weight and so a lower score. `Bm25.TermWeightMonotone` states the monotonicity of the weight itself, for a fixed document length, and not of the score.

## Model

| member | source | states |
|---|---|---|
| Common.FindById | ai/bm25-search.ts:172 | `chunks.find(c => c.id === id)`: the first chunk with that id, and None exactly when no chunk has it |
| Seqs.Filter | ai/bm25-search.ts:56 | `filter` keeps a subsequence of satisfying elements |
| Seqs.Slice | ai/bm25-search.ts:191 | `slice(0, end)` is a prefix of length `min(end, n)`, or `max(0, n + end)` for a negative `end` |
| Seqs.CountIfPermutation | ai/gemini-reranker.ts:190-211 | reordering a list does not change how many of its entries satisfy a test (used for the sort before the filter) |
| Sorting.SortDesc | ai/bm25-search.ts:189 | the sort by a descending key is ordered and a permutation of its input |
| Sorting.SortDescStable | ai/bm25-search.ts:189 | the sort is stable: for every key value, the elements with that key come out in their input order |
| Sorting.SortDescDistinct | ai/hybrid-search.ts:227 | sorting keeps distinct ids distinct |
| JsMap.Set | ai/hybrid-search.ts:137 | `Map.set`: the key maps to the value and other keys are unchanged; a new key is appended to the iteration order and an existing key keeps its place |
| JsMap.Get | ai/hybrid-search.ts:212 | `Map.get` returns undefined exactly for an absent key |
| Bm25.Stem | ai/bm25-search.ts:47-54 | at most one suffix is removed, tried in the order "ing", "ed", "es", then "s"; a token ending in "s" but none of the others, and longer than 3, loses exactly that one "s"; the result is a prefix, and the token is unchanged exactly when no rule fires |
| Bm25.RemoveStopwords | ai/bm25-search.ts:44 | the kept tokens are a subsequence with no stopword |
| Bm25.Preprocess | ai/bm25-search.ts:39-57 | every preprocessed token is longer than 2, and there are no more of them than raw tokens |
| Bm25.PreprocessOrigin | ai/bm25-search.ts:39-57 | each preprocessed token is the stem of a non-stopword token of the lower-cased text |
| Bm25.TermCounts | ai/bm25-search.ts:69-74 | the term-frequency map has exactly the document's tokens as keys |
| Bm25.Documents | ai/bm25-search.ts:67-88 | one document entry per chunk, in chunk order |
| Bm25.TermSet | ai/bm25-search.ts:77 | `new Set(tokens)` holds exactly the tokens |
| Bm25.Average | ai/bm25-search.ts:95 | the average document length is non-negative and positive when some document has tokens |
| Bm25.TotalLengthBound | ai/bm25-search.ts:89 | every document's length is counted in the total length |
| Bm25.DocFreqsCount | ai/bm25-search.ts:76-80 | `termDocFreq[t]` is the number of documents containing `t`, so 1 ≤ df ≤ totalDocs, and `t` is a key exactly when some document contains it |
| Bm25.IndexOfFacts | ai/bm25-search.ts:62-98 | the index has `totalDocs` = number of chunks, one entry per chunk in input order with `docLength` = its token count, and `avgDocLength` = total length / chunks |
| Bm25.Idf | ai/bm25-search.ts:103-112 | IDF is 0 without an index or for a term with document frequency 0, else `ln((N − df + 0.5)/(df + 0.5))` |
| Bm25.LengthNorm | ai/bm25-search.ts:133-134 | the length-normalised constant is at least `k1·(1−b)` and at most `k1` for documents no longer than average |
| Bm25.ScoreNoSharedTerm | ai/bm25-search.ts:123-125 | a document sharing no query term scores 0 |
| Bm25.ScoreAppend | ai/bm25-search.ts:117-140 | the score of a concatenated query is the sum of the two scores |
| Bm25.RepeatedQueryDoublesScore | ai/bm25-search.ts:123-137 | a repeated query term contributes once per occurrence: repeating the query doubles the score |
| Bm25.TermWeightMonotone | ai/bm25-search.ts:132-136 | at a fixed document length, the term weight grows with tf and stays below `k1 + 1` |
| Bm25.SaturationMonotone | ai/bm25-search.ts:132-134 | the saturation `x·(k1+1)/(x + c)` is monotone and bounded by `k1 + 1` |
| Bm25.Hits | ai/bm25-search.ts:171-182 | only documents whose id is among the chunks and whose score is positive are kept |
| Bm25.HitsFacts | ai/bm25-search.ts:166-182 | every hit is the chunk `find` returns for some document, with that document's BM25 score; every document with a known chunk and a positive score yields that hit |
| Bm25.Ranked | ai/bm25-search.ts:189-194 | the results are ordered by non-increasing score, ranked 1..n, and each is a hit; there are `min(topK, hits)` of them for `topK ≥ 0` and `max(0, hits + topK)` for a negative `topK` (`slice(0, topK)`) |
| Bm25.RankedKeepsBest | ai/bm25-search.ts:189-194 | a hit that is not returned scores no more than any returned result |
| Bm25.SearchSpecProperties | ai/bm25-search.ts:145-206 | `search` returns [] for no chunks or no surviving query term; otherwise its results have positive scores, come from the chunks, are non-increasing, are ranked 1..n and number at most topK |
| Bm25.RankedHitsFacts | ai/bm25-search.ts:166-194 | the ranked hits of an index: at most topK, positive, ranked 1..n, from the chunks, non-increasing, each carrying its document's score, and no better document left out |
| Bm25.SearchSpecComplete | ai/bm25-search.ts:145-206 | with chunks and a surviving query term, each result is a document's chunk with that document's score, and every document with a known chunk and a positive score is returned unless topK results were returned that all score at least as high |
| Bm25.SoleMatchRankedFirst | ai/bm25-search.ts:145-206 | when exactly one document scores above 0 and its chunk is known, a search with topK ≥ 1 returns that chunk first, with its score and rank 1 |
| Bm25.BM25Search.constructor | ai/bm25-search.ts:24-34 | a new scorer has no index |
| Bm25.BM25Search.BuildIndex | ai/bm25-search.ts:62-98 | the loop leaves exactly the index `IndexOf(chunks)` in the field |
| Bm25.BM25Search.CalculateBm25Score | ai/bm25-search.ts:117-140 | the accumulating loop returns the BM25 score of the document, or 0 without an index |
| Bm25.BM25Search.RankDocuments | ai/bm25-search.ts:166-205 | the scoring loop, sort and cut give the ranked hits: sorted, at most topK, ranks 1..n |
| Bm25.BM25Search.Search | ai/bm25-search.ts:145-206 | the index is kept for an empty chunk list or an unchanged chunk count, otherwise rebuilt from the chunks; the results are `SearchSpec` of the new index |
| Bm25.CountTerms | ai/bm25-search.ts:69-74 | each term's frequency is its number of occurrences, at least 1 |
| Bm25.CountDocument | ai/bm25-search.ts:76-80 | every distinct term of the document gains exactly one, and the other counts are unchanged |
| Hybrid.Override | ai/hybrid-search.ts:285-287 | `{ ...base, ...overrides }`: each given field replaces the base value, each field not given keeps it, and no overrides leave the config unchanged |
| Hybrid.OverrideTwice | ai/hybrid-search.ts:285-287 | overriding twice with the same fields changes nothing more; of two overrides, every field the later one gives wins, and an α given only by the earlier one survives |
| Hybrid.WithDefaults | ai/hybrid-search.ts:31-41 | each field the caller gives is used as given; each field not given takes its default: α 0.7, topK 10, thresholds 0.3 and 0.1, adaptive weighting on |
| Hybrid.WordCount | ai/hybrid-search.ts:61 | `split(" ").length` is at least 1, and exactly 1 without spaces |
| Hybrid.AdaptiveAlpha | ai/hybrid-search.ts:46-83 | with adaptive weighting off, α is the base; the keyword rule gives `max(0.3, α−0.3)`, then the semantic rule gives `min(0.9, ·+0.2)`; both apply when both match |
| Hybrid.AdaptiveAlphaRange | ai/hybrid-search.ts:55-80 | a base α in [0.3, 0.9] stays in [0.3, 0.9]; a semantic match never exceeds 0.9; a keyword-only match never falls below 0.3 |
| Hybrid.MidLengthQuestionFavoursSemantic | ai/hybrid-search.ts:55-80 | a 3-to-5-word question matching no keyword pattern moves the default α to 0.9 |
| Hybrid.ProductCodeFavoursKeywords | ai/hybrid-search.ts:55-66 | the one-word code "SKU-4821" moves the default α from 0.7 to 0.4 |
| Hybrid.OneWordQuestionMeetsBothRules | ai/hybrid-search.ts:55-80 | "Why?" triggers both rules in order, giving 0.6 |
| Hybrid.SeqMin | ai/hybrid-search.ts:91 | `Math.min(...scores)` is an element no larger than any element |
| Hybrid.SeqMax | ai/hybrid-search.ts:92 | `Math.max(...scores)` is an element no smaller than any element |
| Hybrid.Normalize | ai/hybrid-search.ts:88-97 | the output has the input's length (empty for empty), element-wise min-max scaled |
| Hybrid.ScaledRange | ai/hybrid-search.ts:94-96 | a value between min and max scales into [0, 1], the minimum to 0 and the maximum to 1 |
| Hybrid.ScaledMonotone | ai/hybrid-search.ts:96 | scaling keeps the order |
| Hybrid.NormalizeRange | ai/hybrid-search.ts:88-97 | all-equal scores normalise to 1; every normalised score is in [0, 1]; otherwise the minimum maps to 0 and the maximum to 1 |
| Hybrid.NormalizeMonotone | ai/hybrid-search.ts:88-97 | normalisation keeps the order of the scores |
| Hybrid.SemanticMap | ai/hybrid-search.ts:131-141 | only results with similarity ≥ the threshold are kept, keyed by chunk id, and every such result's id is present |
| Hybrid.SemanticMapOrigin | ai/hybrid-search.ts:135-141 | the result stored under each id is the last result for that id at or above the threshold, so its similarity is the one reported |
| Hybrid.Bm25Map | ai/hybrid-search.ts:143-153 | only results with score ≥ the threshold are kept, and every such result's id is present |
| Hybrid.Bm25MapOrigin | ai/hybrid-search.ts:143-153 | the entry under each id holds the score and rank of the last result for that id at or above the threshold |
| Hybrid.ScoreMap | ai/hybrid-search.ts:179-188 | the normalised-score map has exactly the map's keys |
| Hybrid.ScoreMapAt | ai/hybrid-search.ts:182-188 | with distinct keys, the i-th key gets the i-th normalised score |
| Hybrid.Dedup | ai/hybrid-search.ts:163-166 | `new Set([...a, ...b])` has no duplicates and the same members |
| Hybrid.DedupFirstOccurrence | ai/hybrid-search.ts:163-166 | the ids come in the order of their first occurrences in the input |
| Hybrid.TablesOf | ai/hybrid-search.ts:130-188 | both filtered maps are well-formed, and the semantic map is keyed by chunk id |
| Hybrid.FusedFacts | ai/hybrid-search.ts:193-224 | every fused result is well formed (score formula, positive score, source, raw scores, chunk); no chunk id appears twice; every id with a positive score and a known chunk yields a result |
| Hybrid.RankAndCutFacts | ai/hybrid-search.ts:226-232 | sort, rank and cut keep ids distinct, order by hybrid score, number ranks 1..n, change only the rank, and return `min(topK, n)` results for `topK ≥ 0` and `max(0, n + topK)` for a negative `topK` |
| Hybrid.RankAndCutKeepsBest | ai/hybrid-search.ts:226-232 | a result whose id is not returned scores no more than any returned one, and then a non-negative topK results were returned |
| Hybrid.FusionProperties | ai/hybrid-search.ts:130-259 | fused results: distinct ids; `hybridScore = α·normSem + (1−α)·normBm25 > 0`; source "both" exactly when both normalised scores are positive; raw scores reported; non-increasing; ranks 1..n; at most topK; and every id that cleared a threshold and fuses to a positive score with a known chunk is returned, unless topK results were returned that all score at least as high |
| Hybrid.FusionOn | ai/hybrid-search.ts:193-232 | over any distinct id list drawn from the two filtered maps, the fused, sorted and cut results have distinct ids, the fusion formula, the source rule, non-increasing scores, ranks 1..n and at most topK entries |
| Hybrid.FusionOnComplete | ai/hybrid-search.ts:163-232 | when the ids are exactly those of the two filtered maps, no id that fuses to a result is left out unless topK results were returned that all score at least as high |
| Hybrid.SoleMinimumIsDropped | ai/hybrid-search.ts:182-224 | a semantic-only id holding that list's strict minimum normalises to 0 and is not emitted |
| Hybrid.BuildSemanticMap | ai/hybrid-search.ts:135-141 | the `forEach` builds exactly `SemanticMap` |
| Hybrid.BuildBm25Map | ai/hybrid-search.ts:144-153 | the `forEach` builds exactly `Bm25Map` |
| Hybrid.BuildScoreMap | ai/hybrid-search.ts:182-188 | the `forEach` builds exactly `ScoreMap` |
| Hybrid.BuildTables | ai/hybrid-search.ts:130-188 | the maps built equal `TablesOf` |
| Hybrid.FuseAll | ai/hybrid-search.ts:193-224 | the fusion loop yields exactly `Fused` |
| Hybrid.FuseChunk | ai/hybrid-search.ts:194-223 | the loop body for one id pushes a result exactly when its chunk is known and its fused score is positive, and pushes `FuseOne`'s result |
| Hybrid.AssignRanks | ai/hybrid-search.ts:227-230 | the rank loop numbers the sorted results 1..n and changes nothing else |
| Hybrid.Fuse | ai/hybrid-search.ts:130-259 | the imperative fusion returns `FusionSpec` |
| Hybrid.HybridSearch.constructor | ai/hybrid-search.ts:31-41 | a new engine has the defaults overridden by the caller's config and a fresh scorer without an index |
| Hybrid.HybridSearch.Search | ai/hybrid-search.ts:102-260 | an empty chunk list gives [] and touches no index; otherwise the BM25 results for `2·topK` are fused under the adaptive α, with the scorer's index rebuilt only as its rule says |
| Hybrid.HybridSearch.UpdateConfig | ai/hybrid-search.ts:285-287 | the given fields replace the current config's |
| Rag.BaseK | ai/rag-middleware.ts:143-170 | the base size is in 4..10, 10 exactly for product questions, and 4 exactly for location, casual and other |
| Rag.OptimalK | ai/rag-middleware.ts:137-193 | k ≤ 15, k ≤ floor(0.4·available), and k ≤ 6 with fewer than 3 files or confidence below 0.7 |
| Rag.OptimalKUncapped | ai/rag-middleware.ts:172-192 | with no cap binding, k is the table value with its +4/+2/+2 adjustments, capped at 15 |
| Rag.OptimalKIsSmallestCap | ai/rag-middleware.ts:182-192 | k is exactly the smallest of the wanted size, 6 under a conservative rule, 40% of the chunks, and 15 |
| Rag.OptimalKZero | ai/rag-middleware.ts:143-192 | k is 0 exactly when fewer than 3 chunks are available |
| Rag.OptimalKMonotone | ai/rag-middleware.ts:187-192 | more available chunks never give a smaller k |
| Rag.DiversityConfigOf | ai/rag-middleware.ts:203-209 | 4 chunks per file for product questions, else 3; a ceiling of 0.9 for pricing, else 0.85 |
| Rag.AnyAbove | ai/rag-middleware.ts:224-228 | `some` is true exactly when an earlier embedding is above the ceiling |
| Rag.SelectFacts | ai/rag-middleware.ts:212-242 | a pass admits a subsequence of the sorted chunks, at most the per-file cap per file, no near-duplicate pair, and at most `max(k, 1)` chunks |
| Rag.SelectAfterStop | ai/rag-middleware.ts:238-241 | after the break, later chunks change nothing |
| Rag.RejectsMore | ai/rag-middleware.ts:217-231 | a chunk rejected by a selection is rejected by any extension of it |
| Rag.SelectMaximal | ai/rag-middleware.ts:216-242 | if the pass never reached k, every chunk left out breaks the file cap or is a near-duplicate |
| Rag.ZeroKAdmitsOne | ai/rag-middleware.ts:234-241 | with k = 0, the first chunk is still admitted |
| Rag.SelectFirst | ai/rag-middleware.ts:216-236 | the first chunk is always admitted |
| Rag.TopKChunksFacts | ai/rag-middleware.ts:244-278 | the context is a subsequence of the sorted chunks of at most `max(k,1)` chunks; the first pass stands when it holds ≥ floor(0.7k); a relaxed pass that stands obeys cap+2 and a 0.9 ceiling; fewer than floor(0.5k) means the raw top k |
| Rag.DiversityPass | ai/rag-middleware.ts:212-242 | the selection loop, with its count map and embedding list, returns exactly `Select` |
| Rag.ChooseContext | ai/rag-middleware.ts:244-278 | the reset-and-retry and final fallback return exactly `TopKChunks` |
| Rag.Texts | ai/rag-middleware.ts:60-62 | one text per text part: the count equals the number of text parts, and a string is among the texts exactly when the content has a text part holding it |
| Rag.JoinLines | ai/rag-middleware.ts:63 | `join("\n")` of nothing is empty and of one string is that string; otherwise its length is the total length plus one newline per neighbouring pair, and it starts with the first string and ends with the last |
| Rag.ScopedPaths | ai/rag-middleware.ts:122 | the i-th path is `apiKey + "/" + files[i]`, one per selected file |
| Rag.ChunkParts | ai/rag-middleware.ts:303-306 | one text part per chunk holding its content, in order |
| Rag.TransformSpecFacts | ai/rag-middleware.ts:40-311 | params come back unchanged exactly when there is no valid metadata, no last message from the user, or a classification that does not ask for context; otherwise the last message is replaced by the augmented one, which keeps its content and adds the preface, then each chosen chunk's text in order, and nothing else changes |
| Rag.TransformParams | ai/rag-middleware.ts:40-311 | the pop/push method returns exactly `TransformSpec` |
| Reranker.TopK | ai/gemini-reranker.ts:49 | a truthy `options.topK` is used as given; otherwise `min(10, n)` |
| Reranker.Candidates | ai/gemini-reranker.ts:57-60 | the candidates are the first `min(20, n)` documents |
| Reranker.SortByRank | ai/gemini-reranker.ts:190-191 | entries are in ascending rank and a permutation of the reply's |
| Reranker.SortByRankStable | ai/gemini-reranker.ts:191 | entries of equal rank keep their order in the reply, so ties decide the result order as the stable sort does |
| Reranker.ResultOf | ai/gemini-reranker.ts:192-209 | an entry yields a result exactly when its 1-based index selects a candidate; the result has `originalIndex = documentIndex − 1`, that candidate's content and metadata, score `ranking.score` or 0, and reasoning only when asked for |
| Reranker.KeptFacts | ai/gemini-reranker.ts:190-211 | the kept results number exactly the entries that select a candidate, and each comes from one of them |
| Reranker.KeptOrigins | ai/gemini-reranker.ts:190-211 | the i-th kept result is the result of the i-th selecting entry, and those entries are a subsequence of the sorted list |
| Reranker.ParseFallback | ai/gemini-reranker.ts:219-225 | parse failure gives the candidates in order with their own scores, `originalIndex` = position, and reasoning "Parsing failed, using original order" |
| Reranker.ParseRankingsFacts | ai/gemini-reranker.ts:183-213 | a usable reply gives one result per selecting entry, duplicates included (so no more than the entries); each points at a candidate, carries its content and metadata, has the score of an entry with that index, and has no reasoning unless asked for |
| Reranker.ParseRankingsOrder | ai/gemini-reranker.ts:189-211 | the results come in ascending order of the ranks of the entries they stand for |
| Reranker.ParseRankingsComplete | ai/gemini-reranker.ts:190-211 | every entry whose index selects a candidate shows up in the results |
| Reranker.ScoreChanges | ai/gemini-reranker.ts:234-238 | one change per result: the absolute difference between its score and the original score at its `originalIndex`, so never negative, and 0 exactly when the score is kept |
| Reranker.CalculateMetrics | ai/gemini-reranker.ts:229-257 | `totalDocuments` is the number of all documents; the average is 0 for no results and otherwise the sum of the changes divided by the number of results; `topDocumentChanged` holds exactly when the first result's `originalIndex` is not 0 |
| Reranker.AverageScoreChangeNonnegative | ai/gemini-reranker.ts:240-244 | the average score change is never negative |
| Reranker.AverageScoreChangeZero | ai/gemini-reranker.ts:234-244 | the average change is 0 exactly when every result keeps the original score at its `originalIndex` |
| Reranker.ParseFallbackMetrics | ai/gemini-reranker.ts:219-256 | after a parse failure the metrics report no score change and an unchanged top document |
| Reranker.CallFallback | ai/gemini-reranker.ts:95-104 | after an exception: the first topK documents in order, with their scores, `originalIndex = idx` and the fixed fallback reasoning |
| Reranker.RerankFacts | ai/gemini-reranker.ts:36-111 | at most topK results (topK ≥ 0); every result points at a document, and one of the first 20 after a reply; metrics count all documents, are computed before the cut, have a non-negative average, and report no change after an exception |
| Reranker.QuickRerankFacts | ai/gemini-reranker.ts:262-271 | only the first ten documents can come back, at most topK, and a parsed reply carries no reasoning |
| Reranker.DetailedRerankFacts | ai/gemini-reranker.ts:276-285 | at most `min(10, n)` results, each pointing at one of the first 20 documents |
| FilesUpdate.UpdatedFilePaths | app/frame/api/files/update/route.ts:29-36 | "add" gives the stored paths followed by the requested ones, lengths summed with duplicates kept; "remove" never lengthens the list; any other operation gives [] |
| FilesUpdate.Patch | app/frame/api/files/update/route.ts:4-43 | a missing operation or path list gives 400; otherwise no session, key or config gives 401; a write happens exactly for an authorised well-formed request; the 200 response echoes the list written under the caller's key |
| FilesUpdate.RemoveKeepsOthers | app/frame/api/files/update/route.ts:31-33 | "remove" keeps exactly the stored paths not requested, in their order and with their multiplicity |
| FilesUpdate.RemoveDisjointIsIdentity | app/frame/api/files/update/route.ts:31-33 | removing only paths that are not stored leaves the list unchanged |

## Left out

- **LLM, embedding and lookup calls** are inputs (`Services`, `ModelCall`, the session and configuration lookup). This covers the classifier, the hypothetical-answer generation, `embed`, the re-ranker call and the chunk and configuration lookups. Their latency, failures other than the re-ranker's exception, and their content are not modelled.
- **Library internals** are parameters. This covers `WordTokenizer`, `toLowerCase`, `removeStopwords`, `cosineSimilarity`, `Math.log`, `JSON.parse` and the fenced-block regex of the re-ranker, whose combined outcome is the `Reply` datatype. The regular-expression tests of `getAdaptiveAlpha` are boolean inputs (`QueryPatterns`); the word count they combine with is computed.
- **Floating point** is modelled as `real`. IEEE rounding is not modelled, and neither are NaN, Infinity and `toFixed`. For example, `avgDocLength` is 0/0 (NaN) for an index over no chunks, which the model takes as 0, and which `search` never uses. `Math.floor(k·0.7)`, `Math.floor(k·0.5)` and `Math.floor(n·0.4)` are exact integer divisions here.
- **Timing and logging.** `Date.now`, `processingTime` and all `console` output are not modelled.
- **Omitted components.** The re-ranker's credential check, its prompt builder and the module singletons are not modelled. Neither is the unused `preferSpreadAcrossSources` flag.
- **`getDebugInfo`** of both search classes only reports state and is not modelled.
- **In-place updates on values.** The sorts (`results.sort`, `hybridResults.sort`, `chunksWithSimilarity.sort`, `rankings.sort`) are stable sorts on sequence values rather than in place on an array, so aliasing of the sorted arrays is not captured. The same goes for the in-place `rank` writes (modelled as building a new sequence) and `messages.pop()`/`push` (modelled on a sequence value).
- **JSON input shapes.** Non-integer or non-numeric `documentIndex` or `rank` values in a reply are not modelled. Neither are non-array `filePaths` in a `PATCH` body, nor entries of `rankings` that are not objects.
- Reranker.RerankFacts: the bound `originalIndex < 20` after a reply and `< n` overall is stated, but the result count is bounded only by topK. A reply may repeat an index, so results can outnumber the documents.
- **String lengths.** JavaScript's `.length` counts UTF-16 code units; the model's `|s|` counts Unicode scalar values, so the two differ for characters outside the Basic Multilingual Plane. This affects the `> 100` and `> 200` question-length adjustments of `getOptimalK` (ai/rag-middleware.ts:197, passed by `Rag.TransformParams` and `Rag.ContextFor`) and the `length > 3` and `length > 2` token rules of the BM25 preprocessing (ai/bm25-search.ts:52,56).
- **Exceptions in the update handler.** `await request.json()` throws on a body that is not JSON, and the write `updateUserFilePaths` can fail. Both end the request with an exception rather than a response, and `FilesUpdate.Patch` has no outcome for them.
- Hybrid.Override: TypeScript's `Partial` admits a field set explicitly to `undefined`, which the spread copies over the base value (ai/hybrid-search.ts:39,286). The model's `None` stands for an absent field only and keeps the base value, here and in `Hybrid.WithDefaults` and `Hybrid.HybridSearch.UpdateConfig`.
- Bm25.Idf: `Math.log` is an uninterpreted parameter `ln`, so nothing about the sign of the IDF is stated (it is negative for terms in more than half of the documents).
