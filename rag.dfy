/** The retrieval-augmented prompt middleware (ai/rag-middleware.ts): it
    classifies the latest user message, sizes the context, picks diverse
    chunks with two fallbacks, and appends them to that message. */
module Rag {
  import opened Common
  import opened Seqs
  import opened Sorting

  // ---------------------------------------------------------------------
  // Classification and context size

  datatype QueryType =
    | ProductServiceInquiry
    | PricingCostQuestion
    | LocationHoursContact
    | BookingAppointment
    | SupportHelpQuestion
    | CompanyAboutInfo
    | GeneralInquiry
    | CasualStatement
    | Other

  datatype Complexity = Simple | Complex

  /** The classifier's verdict on the user message. */
  datatype Classification = Classification(
    queryType: QueryType,
    complexity: Complexity,
    requiresContext: bool,
    confidence: real)

  /** The starting context size for each inquiry type. */
  function BaseK(t: QueryType): (k: nat)
    ensures 4 <= k <= 10
    ensures k == 10 <==> t == ProductServiceInquiry
    ensures k == 4 <==> t in {LocationHoursContact, CasualStatement, Other}
  {
    match t
    case ProductServiceInquiry => 10
    case PricingCostQuestion => 6
    case LocationHoursContact => 4
    case BookingAppointment => 6
    case SupportHelpQuestion => 8
    case CompanyAboutInfo => 8
    case GeneralInquiry => 8
    case _ => 4
  }

  /** The context size before the caps: the base size, plus 4 for a complex
      question, plus 2 for more than 100 characters and 2 more for more than
      200. */
  function WantedK(c: Classification, questionLength: nat): nat
  {
    BaseK(c.queryType)
    + (if c.complexity == Complex then 4 else 0)
    + (if questionLength > 100 then 2 else 0)
    + (if questionLength > 200 then 2 else 0)
  }

  /** `Math.floor(availableChunks * 0.4)`. */
  function ChunkCap(availableChunks: nat): nat
  {
    (availableChunks * 2) / 5
  }

  /** `getOptimalK`: the wanted size, at most 6 when fewer than three files
      are selected or the classification is not confident, at most 40% of
      the available chunks, and at most 15. */
  function OptimalK(c: Classification, questionLength: nat, selectedFiles: nat, availableChunks: nat): (k: nat)
    ensures k <= 15
    ensures k <= ChunkCap(availableChunks)
    ensures selectedFiles < 3 ==> k <= 6
    ensures c.confidence < 0.7 ==> k <= 6
  {
    var baseK := BaseK(c.queryType);
    var baseK := if c.complexity == Complex then baseK + 4 else baseK;
    var baseK := if questionLength > 100 then baseK + 2 else baseK;
    var baseK := if questionLength > 200 then baseK + 2 else baseK;
    var baseK := if selectedFiles < 3 then Min(baseK, 6) else baseK;
    var maxK := ChunkCap(availableChunks);
    var baseK := if c.confidence < 0.7 then Min(baseK, 6) else baseK;
    Min(Min(baseK, maxK), 15)
  }

  /** When no cap binds, the size is the table value with its adjustments. */
  lemma OptimalKUncapped(c: Classification, questionLength: nat, selectedFiles: nat, availableChunks: nat)
    requires selectedFiles >= 3 && c.confidence >= 0.7 && availableChunks >= 38
    ensures OptimalK(c, questionLength, selectedFiles, availableChunks) == Min(WantedK(c, questionLength), 15)
  {
  }

  /** Every cap is an upper bound and nothing else lowers the size: the
      result is the smallest of the wanted size, 15, 40% of the chunks, and
      6 when a conservative rule applies. */
  lemma OptimalKIsSmallestCap(c: Classification, questionLength: nat, selectedFiles: nat, availableChunks: nat)
    ensures var conservative := selectedFiles < 3 || c.confidence < 0.7;
      OptimalK(c, questionLength, selectedFiles, availableChunks)
        == Min(Min(Min(WantedK(c, questionLength), if conservative then 6 else 15), ChunkCap(availableChunks)), 15)
  {
  }

  /** The context is empty exactly when fewer than three chunks are
      available, since every base size is at least 4. */
  lemma OptimalKZero(c: Classification, questionLength: nat, selectedFiles: nat, availableChunks: nat)
    ensures OptimalK(c, questionLength, selectedFiles, availableChunks) == 0 <==> availableChunks < 3
  {
    OptimalKIsSmallestCap(c, questionLength, selectedFiles, availableChunks);
  }

  /** More available chunks never shrink the context. */
  lemma OptimalKMonotone(c: Classification, questionLength: nat, selectedFiles: nat, a1: nat, a2: nat)
    requires a1 <= a2
    ensures OptimalK(c, questionLength, selectedFiles, a1) <= OptimalK(c, questionLength, selectedFiles, a2)
  {
    OptimalKIsSmallestCap(c, questionLength, selectedFiles, a1);
    OptimalKIsSmallestCap(c, questionLength, selectedFiles, a2);
  }

  // ---------------------------------------------------------------------
  // Diversity selection

  /** A chunk with its similarity to the hypothetical answer. */
  datatype Candidate = Candidate(chunk: Chunk, similarity: real)

  /** Cosine similarity of two embeddings (a library function). */
  type Cosine = (seq<real>, seq<real>) -> real

  /** The per-file cap and the near-duplicate ceiling of one pass. */
  datatype DiversityConfig = DiversityConfig(maxChunksPerFile: nat, contentSimilarityThreshold: real)

  /** Four chunks per file for product questions, otherwise three; a
      ceiling of 0.9 for pricing questions, otherwise 0.85. */
  function DiversityConfigOf(c: Classification): (cfg: DiversityConfig)
    ensures cfg.maxChunksPerFile == (if c.queryType == ProductServiceInquiry then 4 else 3)
    ensures cfg.contentSimilarityThreshold == (if c.queryType == PricingCostQuestion then 0.9 else 0.85)
  {
    DiversityConfig(
      if c.queryType == ProductServiceInquiry then 4 else 3,
      if c.queryType == PricingCostQuestion then 0.9 else 0.85)
  }

  /** The relaxed second pass: two more chunks per file, a ceiling of 0.9. */
  function Relaxed(cfg: DiversityConfig): DiversityConfig
  {
    DiversityConfig(cfg.maxChunksPerFile + 2, 0.9)
  }

  /** How many chunks of `sel` come from file `f`. */
  function FileCount(sel: seq<Candidate>, f: string): (n: nat)
    ensures n <= |sel|
  {
    if sel == [] then 0
    else FileCount(sel[..|sel| - 1], f) + (if sel[|sel| - 1].chunk.filePath == f then 1 else 0)
  }

  /** `selectedChunkEmbeddings`. */
  function Embeddings(sel: seq<Candidate>): (es: seq<seq<real>>)
    ensures |es| == |sel| && forall i :: 0 <= i < |sel| ==> es[i] == sel[i].chunk.embedding
  {
    seq(|sel|, i requires 0 <= i < |sel| => sel[i].chunk.embedding)
  }

  /** `embeddings.some(e => cosine(embedding, e) > threshold)`. */
  function AnyAbove(embeddings: seq<seq<real>>, embedding: seq<real>, threshold: real, cosine: Cosine): (b: bool)
    ensures b <==> exists j :: 0 <= j < |embeddings| && cosine(embedding, embeddings[j]) > threshold
  {
    if embeddings == [] then false
    else cosine(embedding, embeddings[0]) > threshold || AnyAbove(embeddings[1..], embedding, threshold, cosine)
  }

  /** A candidate passes when its file is under the cap and it is not too
      similar to a chunk already selected. */
  predicate Admits(sel: seq<Candidate>, c: Candidate, cfg: DiversityConfig, cosine: Cosine)
  {
    FileCount(sel, c.chunk.filePath) < cfg.maxChunksPerFile
    && !AnyAbove(Embeddings(sel), c.chunk.embedding, cfg.contentSimilarityThreshold, cosine)
  }

  /** The loop has left: the length test after a push found `k` chunks. */
  predicate Stopped(sel: seq<Candidate>, k: nat)
  {
    sel != [] && |sel| >= k
  }

  /** One iteration of the selection loop. */
  function Step(sel: seq<Candidate>, c: Candidate, k: nat, cfg: DiversityConfig, cosine: Cosine): seq<Candidate>
  {
    if Stopped(sel, k) then sel
    else if Admits(sel, c, cfg, cosine) then sel + [c]
    else sel
  }

  /** The chunks one pass of the selection loop admits. */
  function Select(cands: seq<Candidate>, k: nat, cfg: DiversityConfig, cosine: Cosine): seq<Candidate>
  {
    if cands == [] then []
    else Step(Select(cands[..|cands| - 1], k, cfg, cosine), cands[|cands| - 1], k, cfg, cosine)
  }

  /** No selected chunk is more similar than the ceiling to an earlier one. */
  ghost predicate NoNearDuplicates(sel: seq<Candidate>, threshold: real, cosine: Cosine)
  {
    forall i, j :: 0 <= i < j < |sel| ==> cosine(sel[j].chunk.embedding, sel[i].chunk.embedding) <= threshold
  }

  /** One pass admits a subsequence of the candidates, at most
      `maxChunksPerFile` per file, no near-duplicate of an earlier admitted
      chunk, and at most `k` chunks — or one chunk when `k` is 0, because
      the length test follows the push. */
  lemma {:induction false} SelectFacts(cands: seq<Candidate>, k: nat, cfg: DiversityConfig, cosine: Cosine)
    ensures var sel := Select(cands, k, cfg, cosine);
      && IsSubseq(sel, cands)
      && (forall f :: FileCount(sel, f) <= cfg.maxChunksPerFile)
      && NoNearDuplicates(sel, cfg.contentSimilarityThreshold, cosine)
      && |sel| <= Max(k, 1)
  {
    if cands == [] {
      assert IsSubseq([], cands);
    } else {
      var n := |cands| - 1;
      var prev := Select(cands[..n], k, cfg, cosine);
      SelectFacts(cands[..n], k, cfg, cosine);
      assert cands[..n] + [cands[n]] == cands;
      var c := cands[n];
      if !Stopped(prev, k) && Admits(prev, c, cfg, cosine) {
        SubseqSnoc(prev, cands[..n], c);
        AdmitKeepsInvariant(prev, c, cfg, cosine);
      } else {
        SubseqExtend(prev, cands[..n], c);
      }
    }
  }

  /** Admitting a chunk keeps the per-file cap and the similarity ceiling. */
  lemma AdmitKeepsInvariant(prev: seq<Candidate>, c: Candidate, cfg: DiversityConfig, cosine: Cosine)
    requires forall f :: FileCount(prev, f) <= cfg.maxChunksPerFile
    requires NoNearDuplicates(prev, cfg.contentSimilarityThreshold, cosine)
    requires Admits(prev, c, cfg, cosine)
    ensures forall f :: FileCount(prev + [c], f) <= cfg.maxChunksPerFile
    ensures NoNearDuplicates(prev + [c], cfg.contentSimilarityThreshold, cosine)
  {
    var sel := prev + [c];
    forall f ensures FileCount(sel, f) <= cfg.maxChunksPerFile {
      FileCountSnoc(prev, c, f);
    }
    forall i, j | 0 <= i < j < |sel|
      ensures cosine(sel[j].chunk.embedding, sel[i].chunk.embedding) <= cfg.contentSimilarityThreshold
    {
      if j == |sel| - 1 {
        assert Embeddings(prev)[i] == sel[i].chunk.embedding;
      } else {
        assert sel[i] == prev[i] && sel[j] == prev[j];
      }
    }
  }

  /** Appending a chunk counts it under its own file only. */
  lemma FileCountSnoc(sel: seq<Candidate>, c: Candidate, f: string)
    ensures FileCount(sel + [c], f) == FileCount(sel, f) + (if c.chunk.filePath == f then 1 else 0)
    ensures Embeddings(sel + [c]) == Embeddings(sel) + [c.chunk.embedding]
  {
    assert (sel + [c])[..|sel|] == sel;
  }

  /** The selection over one more candidate is one more step. */
  lemma SelectSnoc(cands: seq<Candidate>, i: nat, k: nat, cfg: DiversityConfig, cosine: Cosine)
    requires i < |cands|
    ensures Select(cands[..i + 1], k, cfg, cosine) == Step(Select(cands[..i], k, cfg, cosine), cands[i], k, cfg, cosine)
  {
    assert cands[..i + 1][..i] == cands[..i];
  }

  /** Once the loop has stopped, later candidates change nothing. */
  lemma {:induction false} SelectAfterStop(cands: seq<Candidate>, i: nat, k: nat, cfg: DiversityConfig, cosine: Cosine)
    requires i <= |cands| && Stopped(Select(cands[..i], k, cfg, cosine), k)
    ensures Select(cands, k, cfg, cosine) == Select(cands[..i], k, cfg, cosine)
  {
    if i < |cands| {
      var n := |cands| - 1;
      assert cands[..n][..i] == cands[..i];
      SelectAfterStop(cands[..n], i, k, cfg, cosine);
    } else {
      assert cands[..i] == cands;
    }
  }

  /** A larger selection rejects whatever a smaller one it extends rejects. */
  lemma RejectsMore(sel: seq<Candidate>, x: Candidate, c: Candidate, cfg: DiversityConfig, cosine: Cosine)
    requires !Admits(sel, c, cfg, cosine)
    ensures !Admits(sel + [x], c, cfg, cosine)
  {
    var sel' := sel + [x];
    assert sel'[..|sel'| - 1] == sel;
    if !(FileCount(sel, c.chunk.filePath) < cfg.maxChunksPerFile) {
    } else {
      var j :| 0 <= j < |sel| && cosine(c.chunk.embedding, Embeddings(sel)[j]) > cfg.contentSimilarityThreshold;
      assert Embeddings(sel')[j] == Embeddings(sel)[j];
    }
  }

  /** The selection is greedy and maximal: if the loop never reached `k`
      chunks, every candidate left out would break the file cap or be a
      near-duplicate of the final selection. */
  lemma {:induction false} SelectMaximal(cands: seq<Candidate>, k: nat, cfg: DiversityConfig, cosine: Cosine)
    ensures var sel := Select(cands, k, cfg, cosine);
      !Stopped(sel, k) ==> forall c :: c in cands && c !in sel ==> !Admits(sel, c, cfg, cosine)
  {
    if cands != [] {
      var n := |cands| - 1;
      var prev := Select(cands[..n], k, cfg, cosine);
      var sel := Select(cands, k, cfg, cosine);
      SelectMaximal(cands[..n], k, cfg, cosine);
      if !Stopped(sel, k) {
        assert !Stopped(prev, k);
        forall c | c in cands && c !in sel ensures !Admits(sel, c, cfg, cosine) {
          if c != cands[n] {
            assert c in cands[..n];
            assert c !in prev;
            if sel != prev {
              RejectsMore(prev, cands[n], c, cfg, cosine);
            }
          }
        }
      }
    }
  }

  /** `Math.floor(k * 0.7)`. */
  function SeventyPercent(k: nat): nat { (k * 7) / 10 }

  /** `Math.floor(k * 0.5)`. */
  function Half(k: nat): nat { k / 2 }

  /** The relaxed pass replaces the first when the first admitted fewer than
      70% of `k`. */
  function DiverseChunks(cands: seq<Candidate>, k: nat, cfg: DiversityConfig, cosine: Cosine): seq<Candidate>
  {
    var first := Select(cands, k, cfg, cosine);
    if |first| < SeventyPercent(k) then Select(cands, k, Relaxed(cfg), cosine) else first
  }

  /** `topKChunks`: the diverse list when it holds at least half of `k`,
      otherwise the first `k` candidates by similarity. */
  function TopKChunks(cands: seq<Candidate>, k: nat, cfg: DiversityConfig, cosine: Cosine): seq<Candidate>
  {
    var diverse := DiverseChunks(cands, k, cfg, cosine);
    if |diverse| >= Half(k) then diverse else Slice(cands, k)
  }

  /** The selected context is either a diverse pass — the first one, or the
      relaxed one when the first fell short of 70% — holding at least half
      of `k`, or the first `k` candidates; in every case it is a subsequence
      of the candidates of at most `max(k, 1)` chunks. */
  lemma TopKChunksFacts(cands: seq<Candidate>, k: nat, cfg: DiversityConfig, cosine: Cosine)
    ensures var r := TopKChunks(cands, k, cfg, cosine);
            var first := Select(cands, k, cfg, cosine);
      && IsSubseq(r, cands)
      && |r| <= Max(k, 1)
      && (|r| < Half(k) ==> r == cands)
      && (r != Slice(cands, k) ==> |r| >= Half(k))
      && (|first| >= SeventyPercent(k) ==> r == first)
      && ((|first| < SeventyPercent(k) && r != Slice(cands, k)) ==>
            && (forall f :: FileCount(r, f) <= cfg.maxChunksPerFile + 2)
            && NoNearDuplicates(r, 0.9, cosine))
  {
    var first := Select(cands, k, cfg, cosine);
    SelectFacts(cands, k, cfg, cosine);
    SelectFacts(cands, k, Relaxed(cfg), cosine);
    var diverse := DiverseChunks(cands, k, cfg, cosine);
    if |diverse| < Half(k) {
      var r := Slice(cands, k);
      assert r == cands[..|r|];
      SubseqPrefix(cands, |r|);
    }
  }

  /** A prefix is a subsequence. */
  lemma {:induction false} SubseqPrefix<T>(s: seq<T>, n: nat)
    requires n <= |s|
    ensures IsSubseq(s[..n], s)
  {
    if n == |s| {
      assert s[..n] == s;
      SubseqRefl(s);
    } else {
      SubseqPrefix(s[..|s| - 1], n);
      assert s[..|s| - 1][..n] == s[..n];
      SubseqExtend(s[..n], s[..|s| - 1], s[|s| - 1]);
      assert s[..|s| - 1] + [s[|s| - 1]] == s;
    }
  }

  /** With `k` = 0 the first candidate is still admitted, because the loop
      tests the length only after a push. */
  lemma ZeroKAdmitsOne(cands: seq<Candidate>, cfg: DiversityConfig, cosine: Cosine)
    requires cands != [] && cfg.maxChunksPerFile >= 1
    ensures Select(cands, 0, cfg, cosine) == [cands[0]]
  {
    SelectFirst(cands, 0, cfg, cosine);
    assert Stopped(Select(cands[..1], 0, cfg, cosine), 0);
    SelectAfterStop(cands, 1, 0, cfg, cosine);
  }

  /** The first candidate is always admitted when the cap is positive. */
  lemma SelectFirst(cands: seq<Candidate>, k: nat, cfg: DiversityConfig, cosine: Cosine)
    requires cands != [] && cfg.maxChunksPerFile >= 1
    ensures Select(cands[..1], k, cfg, cosine) == [cands[0]]
  {
    assert cands[..1][..0] == [];
  }

  /** One pass of the selection loop (lines 212-242, and again 251-271 with
      the relaxed configuration after the state is cleared). */
  method DiversityPass(cands: seq<Candidate>, k: nat, cfg: DiversityConfig, cosine: Cosine)
    returns (diverseChunks: seq<Candidate>)
    ensures diverseChunks == Select(cands, k, cfg, cosine)
  {
    diverseChunks := [];
    var fileChunkCounts: map<string, nat> := map[];
    var selectedChunkEmbeddings: seq<seq<real>> := [];
    for i := 0 to |cands|
      invariant diverseChunks == Select(cands[..i], k, cfg, cosine)
      invariant !Stopped(diverseChunks, k)
      invariant selectedChunkEmbeddings == Embeddings(diverseChunks)
      invariant forall f :: (if f in fileChunkCounts then fileChunkCounts[f] else 0) == FileCount(diverseChunks, f)
    {
      SelectSnoc(cands, i, k, cfg, cosine);
      var chunk := cands[i];
      var currentFileCount := if chunk.chunk.filePath in fileChunkCounts then fileChunkCounts[chunk.chunk.filePath] else 0;
      if currentFileCount >= cfg.maxChunksPerFile {
        continue;
      }
      var tooSimilarToExisting := AnyAbove(selectedChunkEmbeddings, chunk.chunk.embedding,
                                           cfg.contentSimilarityThreshold, cosine);
      if tooSimilarToExisting {
        continue;
      }
      ghost var before := diverseChunks;
      diverseChunks := diverseChunks + [chunk];
      selectedChunkEmbeddings := selectedChunkEmbeddings + [chunk.chunk.embedding];
      fileChunkCounts := fileChunkCounts[chunk.chunk.filePath := currentFileCount + 1];
      forall f ensures FileCount(diverseChunks, f) == FileCount(before, f) + (if chunk.chunk.filePath == f then 1 else 0) {
        FileCountSnoc(before, chunk, f);
      }
      if |diverseChunks| >= k {
        SelectAfterStop(cands, i + 1, k, cfg, cosine);
        return;
      }
    }
    assert cands[..|cands|] == cands;
  }

  /** Lines 203-278: the first pass, the relaxed pass when the first falls
      short of 70% of `k`, and the raw top `k` when the result is still
      below half of `k`. */
  method ChooseContext(cands: seq<Candidate>, k: nat, cfg: DiversityConfig, cosine: Cosine)
    returns (topKChunks: seq<Candidate>)
    ensures topKChunks == TopKChunks(cands, k, cfg, cosine)
  {
    var diverseChunks := DiversityPass(cands, k, cfg, cosine);
    if |diverseChunks| < SeventyPercent(k) {
      diverseChunks := DiversityPass(cands, k, Relaxed(cfg), cosine);
    }
    topKChunks := if |diverseChunks| >= Half(k) then diverseChunks else Slice(cands, k);
  }

  // ---------------------------------------------------------------------
  // Prompt assembly

  datatype Role = System | User | Assistant | Tool

  /** A message part: text, or anything else (an image, a file, a tool call). */
  datatype Part = TextPart(text: string) | NonTextPart

  datatype Message = Message(role: Role, content: seq<Part>)

  /** The validated provider metadata: the API key and the selected files. */
  datatype Selection = Selection(apiKey: string, files: seq<string>)

  /** The call parameters: the prompt, and the provider metadata when it
      passes validation. */
  datatype Params = Params(prompt: seq<Message>, selection: Option<Selection>)

  /** The services the middleware calls, as functions of their inputs: the
      classifier, the embedding of a hypothetical answer to the question,
      the chunk lookup by file path, and cosine similarity. */
  datatype Services = Services(
    classify: string -> Classification,
    hypotheticalEmbedding: string -> seq<real>,
    chunksByFilePaths: seq<string> -> seq<Chunk>,
    cosine: Cosine)

  const Preface := "Here is some relevant information that you can use to answer the question. Respond as if you are the business owner."

  /** The texts of the text parts, one per text part: exactly the texts
      of the content's text parts. */
  function Texts(content: seq<Part>): (ts: seq<string>)
    ensures |ts| <= |content|
    ensures |ts| == CountIf(content, (p: Part) => p.TextPart?)
    ensures forall t :: t in ts <==> TextPart(t) in content
  {
    if content == [] then []
    else
      var n := |content| - 1;
      var rest := Texts(content[..n]);
      assert forall x :: x in content <==> x in content[..n] || x == content[n];
      rest + (match content[n] case TextPart(t) => [t] case NonTextPart => [])
  }

  /** The total number of characters in `strings`. */
  function TotalLength(strings: seq<string>): (n: nat)
    ensures strings != [] ==> n >= |strings[0]| && n >= |strings[|strings| - 1]|
  {
    if strings == [] then 0
    else
      assert |strings| > 1 ==> strings[..|strings| - 1][0] == strings[0];
      TotalLength(strings[..|strings| - 1]) + |strings[|strings| - 1]|
  }

  /** `strings.join("\n")`: the strings with one newline between each
      neighbouring pair. */
  function JoinLines(strings: seq<string>): (s: string)
    ensures strings == [] ==> s == ""
    ensures |strings| == 1 ==> s == strings[0]
    ensures strings != [] ==> |s| == TotalLength(strings) + |strings| - 1
    ensures strings != [] ==> s[..|strings[0]|] == strings[0]
    ensures strings != [] ==> s[|s| - |strings[|strings| - 1]|..] == strings[|strings| - 1]
  {
    if strings == [] then ""
    else if |strings| == 1 then strings[0]
    else
      var n := |strings| - 1;
      var init := JoinLines(strings[..n]);
      assert strings[..n][0] == strings[0];
      var s := init + "\n" + strings[n];
      assert s[..|strings[0]|] == init[..|strings[0]|];
      s
  }

  /** The file paths under the caller's key: `${apiKey}/${path}`. */
  function ScopedPaths(sel: Selection): (paths: seq<string>)
    ensures |paths| == |sel.files|
    ensures forall i :: 0 <= i < |sel.files| ==> paths[i] == sel.apiKey + "/" + sel.files[i]
  {
    seq(|sel.files|, i requires 0 <= i < |sel.files| => sel.apiKey + "/" + sel.files[i])
  }

  /** The chunks of the selected files with their similarity to the
      hypothetical answer, most similar first (a stable sort). */
  function RankedCandidates(question: string, sel: Selection, services: Services): seq<Candidate>
  {
    var query := services.hypotheticalEmbedding(question);
    var chunks := services.chunksByFilePaths(ScopedPaths(sel));
    var scored := seq(|chunks|, i requires 0 <= i < |chunks| =>
                      Candidate(chunks[i], services.cosine(query, chunks[i].embedding)));
    SortDesc(scored, (c: Candidate) => c.similarity)
  }

  /** The chunks that go into the prompt for a question that needs context. */
  function ContextFor(question: string, c: Classification, sel: Selection, services: Services): seq<Candidate>
  {
    var cands := RankedCandidates(question, sel, services);
    var k := OptimalK(c, |question|, |sel.files|, |cands|);
    TopKChunks(cands, k, DiversityConfigOf(c), services.cosine)
  }

  /** The chunk texts as text parts, in selection order. */
  function ChunkParts(chunks: seq<Candidate>): (parts: seq<Part>)
    ensures |parts| == |chunks| && forall i :: 0 <= i < |chunks| ==> parts[i] == TextPart(chunks[i].chunk.content)
  {
    seq(|chunks|, i requires 0 <= i < |chunks| => TextPart(chunks[i].chunk.content))
  }

  /** The user message with the preface and the chunks appended. */
  function Augmented(recent: Message, chunks: seq<Candidate>): Message
  {
    Message(User, recent.content + [TextPart(Preface)] + ChunkParts(chunks))
  }

  /** Whether the classification asks for retrieval at all. */
  predicate NeedsContext(c: Classification)
  {
    c.requiresContext && c.queryType != Other
  }

  /** The text of a message: its text parts joined by newlines. */
  function QuestionOf(recent: Message): string
  {
    JoinLines(Texts(recent.content))
  }

  /** Whether `transformParams` retrieves context: valid metadata, a last
      message from the user, and a classification that asks for context. */
  predicate Retrieves(params: Params, services: Services)
  {
    && params.selection.Some?
    && params.prompt != []
    && params.prompt[|params.prompt| - 1].role == User
    && NeedsContext(services.classify(QuestionOf(params.prompt[|params.prompt| - 1])))
  }

  /** What `transformParams` returns. */
  function TransformSpec(params: Params, services: Services): Params
  {
    if params.selection.None? || params.prompt == [] then params
    else
      var recent := params.prompt[|params.prompt| - 1];
      if recent.role != User then params
      else
        var question := QuestionOf(recent);
        var c := services.classify(question);
        if !NeedsContext(c) then params
        else
          var chunks := ContextFor(question, c, params.selection.value, services);
          params.(prompt := params.prompt[..|params.prompt| - 1] + [Augmented(recent, chunks)])
  }

  /** `r` is `params` with its last message replaced by that message's
      content, then the preface, then the text of each of `chunks` in order,
      as a user message. */
  ghost predicate AugmentsLast(params: Params, r: Params, chunks: seq<Candidate>)
    requires params.prompt != []
  {
    var n := |params.prompt| - 1;
    var recent := params.prompt[n];
    && r.selection == params.selection
    && |r.prompt| == |params.prompt|
    && r.prompt[..n] == params.prompt[..n]
    && r.prompt[n].role == User
    && |r.prompt[n].content| == |recent.content| + 1 + |chunks|
    && r.prompt[n].content[..|recent.content|] == recent.content
    && r.prompt[n].content[|recent.content|] == TextPart(Preface)
    && forall i :: 0 <= i < |chunks| ==>
         r.prompt[n].content[|recent.content| + 1 + i] == TextPart(chunks[i].chunk.content)
  }

  /** Replacing the last message by its augmented form lays the prompt out
      as `AugmentsLast` says, and always changes the parameters. */
  lemma AugmentLastFacts(params: Params, chunks: seq<Candidate>)
    requires params.prompt != []
    ensures var n := |params.prompt| - 1;
      var r := params.(prompt := params.prompt[..n] + [Augmented(params.prompt[n], chunks)]);
      AugmentsLast(params, r, chunks) && r != params
  {
    var n := |params.prompt| - 1;
    var recent := params.prompt[n];
    var r := params.(prompt := params.prompt[..n] + [Augmented(recent, chunks)]);
    assert r.prompt[n] == Augmented(recent, chunks);
    assert |r.prompt[n].content| > |recent.content|;
  }

  /** The parameters come back unchanged exactly when no context is
      retrieved (no valid metadata, no last message from the user, or a
      classification that does not ask for context); otherwise only the last
      message changes: it is replaced by the augmented message, which keeps
      its content and gains the preface and then each chosen chunk's text,
      in selection order. */
  lemma TransformSpecFacts(params: Params, services: Services)
    ensures !Retrieves(params, services) ==> TransformSpec(params, services) == params
    ensures Retrieves(params, services) ==> TransformSpec(params, services) != params
    ensures Retrieves(params, services) ==>
        var n := |params.prompt| - 1;
        var question := QuestionOf(params.prompt[n]);
        var chunks := ContextFor(question, services.classify(question), params.selection.value, services);
        && TransformSpec(params, services) == params.(prompt := params.prompt[..n] + [Augmented(params.prompt[n], chunks)])
        && AugmentsLast(params, TransformSpec(params, services), chunks)
  {
    if Retrieves(params, services) {
      var n := |params.prompt| - 1;
      var question := QuestionOf(params.prompt[n]);
      var chunks := ContextFor(question, services.classify(question), params.selection.value, services);
      AugmentLastFacts(params, chunks);
    }
  }

  /** `transformParams`: pops the last message, puts it back on each early
      return, and otherwise pushes the augmented message in its place. */
  method TransformParams(params: Params, services: Services) returns (result: Params)
    ensures result == TransformSpec(params, services)
  {
    if params.selection.None? {
      return params;
    }
    var selection := params.selection.value;
    var messages := params.prompt;
    if messages == [] {
      return params;
    }
    var recentMessage := messages[|messages| - 1];
    messages := messages[..|messages| - 1];
    if recentMessage.role != User {
      messages := messages + [recentMessage];
      assert messages == params.prompt;
      return params;
    }
    var lastUserMessageContent := JoinLines(Texts(recentMessage.content));
    var classification := services.classify(lastUserMessageContent);
    if !classification.requiresContext || classification.queryType == Other {
      messages := messages + [recentMessage];
      assert messages == params.prompt;
      return params;
    }
    var chunksWithSimilarity := RankedCandidates(lastUserMessageContent, selection, services);
    var k := OptimalK(classification, |lastUserMessageContent|, |selection.files|, |chunksWithSimilarity|);
    var topKChunks := ChooseContext(chunksWithSimilarity, k, DiversityConfigOf(classification), services.cosine);
    messages := messages + [Augmented(recentMessage, topKChunks)];
    result := params.(prompt := messages);
  }
}
