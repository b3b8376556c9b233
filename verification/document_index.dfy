/** BM25 ranking of document chunks (`_bm25_rank` in services/retrieval-service/app/document_index.py), over
    the reals and for any logarithm. */
module DocumentIndex {
  import StableSort

  datatype ChunkRecord = ChunkRecord(docId: string, chunkIndex: nat, text: string, tokens: seq<string>)

  type Scored = (real, ChunkRecord)

  const K1 := 1.5
  const B := 0.75

  /** All that is assumed of `math.log`: it is increasing, and zero at one. */
  ghost predicate IsLog(log: real -> real) {
    log(1.0) == 0.0 && forall x, y | 0.0 < x < y :: log(x) < log(y)
  }

  // ----- the quantities of the formula

  function Count(term: string, tokens: seq<string>): nat {
    multiset(tokens)[term]
  }

  /** In how many chunks a term occurs. */
  function DocFreq(term: string, chunks: seq<ChunkRecord>): (df: nat)
    ensures df <= |chunks|
  {
    if chunks == [] then 0
    else DocFreq(term, chunks[..|chunks| - 1]) + (if Count(term, chunks[|chunks| - 1].tokens) > 0 then 1 else 0)
  }

  function TotalLength(chunks: seq<ChunkRecord>): nat {
    if chunks == [] then 0 else TotalLength(chunks[..|chunks| - 1]) + |chunks[|chunks| - 1].tokens|
  }

  function AverageLength(chunks: seq<ChunkRecord>): (avg: real)
    ensures avg >= 0.0
  {
    if chunks == [] then 0.0 else TotalLength(chunks) as real / |chunks| as real
  }

  function IdfOf(n: nat, df: nat, log: real -> real): real {
    log(1.0 + (n as real - df as real + 0.5) / (df as real + 0.5))
  }

  function Idf(term: string, chunks: seq<ChunkRecord>, log: real -> real): real {
    IdfOf(|chunks|, DocFreq(term, chunks), log)
  }

  function Denominator(f: nat, length: nat, avg: real): (d: real)
    requires f > 0 && avg >= 0.0
    ensures d > f as real
  {
    var lengthNorm := if avg != 0.0 then length as real / avg else 1.0;
    NotNegative(length as real, avg);
    f as real + K1 * (1.0 - B + B * lengthNorm)
  }

  lemma NotNegative(x: real, y: real)
    requires x >= 0.0 && y >= 0.0
    ensures y != 0.0 ==> x / y >= 0.0
  {
  }

  /** What a term adds to the score of a chunk that holds it `f` times. */
  function Weight(idf: real, f: nat, length: nat, avg: real): real
    requires avg >= 0.0
  {
    if f == 0 then 0.0 else idf * (f as real * (K1 + 1.0)) / Denominator(f, length, avg)
  }

  function Contribution(term: string, c: ChunkRecord, chunks: seq<ChunkRecord>, log: real -> real): real {
    Weight(Idf(term, chunks, log), Count(term, c.tokens), |c.tokens|, AverageLength(chunks))
  }

  function Score(query: seq<string>, c: ChunkRecord, chunks: seq<ChunkRecord>, log: real -> real): real {
    if query == [] then 0.0
    else Score(query[..|query| - 1], c, chunks, log) + Contribution(query[|query| - 1], c, chunks, log)
  }

  /** The bound no score reaches. */
  function IdfSum(query: seq<string>, chunks: seq<ChunkRecord>, log: real -> real): real {
    if query == [] then 0.0
    else IdfSum(query[..|query| - 1], chunks, log) + Idf(query[|query| - 1], chunks, log) * (K1 + 1.0)
  }

  /** The chunks of `some` with a positive score, paired with it. */
  function ScoredChunks(query: seq<string>, some: seq<ChunkRecord>, chunks: seq<ChunkRecord>, log: real -> real): seq<Scored> {
    if some == [] then []
    else
      var last := some[|some| - 1];
      var score := Score(query, last, chunks, log);
      ScoredChunks(query, some[..|some| - 1], chunks, log) + (if score > 0.0 then [(score, last)] else [])
  }

  predicate HigherFirst(a: Scored, b: Scored) {
    a.0 >= b.0
  }

  function Ranked(query: seq<string>, chunks: seq<ChunkRecord>, log: real -> real): seq<Scored> {
    StableSort.Sort(ScoredChunks(query, chunks, chunks, log), HigherFirst)
  }

  // ----- the loops; `query` lists the set of query tokens in the order it is iterated

  method CountDocuments(query: seq<string>, chunks: seq<ChunkRecord>) returns (docFreq: map<string, nat>)
    ensures forall term | term in query :: term in docFreq && docFreq[term] == DocFreq(term, chunks)
  {
    docFreq := map term | term in query :: 0;
    for i := 0 to |chunks|
      invariant forall term | term in query :: term in docFreq && docFreq[term] == DocFreq(term, chunks[..i])
    {
      assert chunks[..i + 1][..i] == chunks[..i];
      docFreq := CountInChunk(query, chunks[i], docFreq);
    }
    assert chunks[..|chunks|] == chunks;
  }

  /** Adds one to the frequency of every query token the chunk holds. */
  method CountInChunk(query: seq<string>, chunk: ChunkRecord, before: map<string, nat>) returns (docFreq: map<string, nat>)
    requires forall term | term in query :: term in before
    ensures forall term | term in query :: term in docFreq
    ensures forall term | term in query :: docFreq[term] == before[term] + (if Count(term, chunk.tokens) > 0 then 1 else 0)
  {
    docFreq := before;
    var rest := set term | term in query;
    while rest != {}
      invariant forall term | term in query :: term in docFreq
      invariant forall term | term in rest :: term in query
      invariant forall term | term in query ::
                  docFreq[term] == before[term] + (if term !in rest && Count(term, chunk.tokens) > 0 then 1 else 0)
      decreases |rest|
    {
      var term :| term in rest;
      if Count(term, chunk.tokens) > 0 {
        docFreq := docFreq[term := docFreq[term] + 1];
      }
      rest := rest - {term};
    }
  }

  method ScoreChunk(query: seq<string>, c: ChunkRecord, idf: map<string, real>, avgLen: real, ghost chunks: seq<ChunkRecord>, ghost log: real -> real)
    returns (score: real)
    requires avgLen == AverageLength(chunks) && forall term | term in query :: term in idf && idf[term] == Idf(term, chunks, log)
    ensures score == Score(query, c, chunks, log)
  {
    score := 0.0;
    hide Denominator, Idf, AverageLength, Count;
    for i := 0 to |query|
      invariant score == Score(query[..i], c, chunks, log)
    {
      assert query[..i + 1][..i] == query[..i];
      var term := query[i];
      assert term in query;
      var f := Count(term, c.tokens);
      if f != 0 {
        score := score + idf[term] * (f as real * (K1 + 1.0)) / Denominator(f, |c.tokens|, avgLen);
      }
    }
    assert query[..|query|] == query;
  }

  method Bm25Rank(query: seq<string>, chunks: seq<ChunkRecord>, log: real -> real) returns (scored: seq<Scored>)
    ensures scored == Ranked(query, chunks, log)
    ensures IsLog(log) ==> Descending(scored) && forall c :: c in chunks && Shares(query, c) <==> exists i :: 0 <= i < |scored| && scored[i].1 == c
    ensures IsLog(log) && StableSort.Distinct(query) ==> RarerFirst(query, chunks, scored) && BetterFirst(query, chunks, scored)
  {
    NothingScored(query, chunks, log);
    RankedAnswers(query, chunks, log);
    if |chunks| == 0 || |query| == 0 {
      return [];
    }
    var docFreq := CountDocuments(query, chunks);
    var idf := map term | term in query :: IdfOf(|chunks|, docFreq[term], log);
    var avgLen := AverageLength(chunks);
    assert forall term | term in query :: idf[term] == Idf(term, chunks, log);
    hide Idf, AverageLength, Score, IdfOf;
    scored := [];
    for i := 0 to |chunks|
      invariant scored == ScoredChunks(query, chunks[..i], chunks, log)
    {
      assert chunks[..i + 1][..i] == chunks[..i];
      var score := ScoreChunk(query, chunks[i], idf, avgLen, chunks, log);
      if score > 0.0 {
        scored := scored + [(score, chunks[i])];
      }
    }
    assert chunks[..|chunks|] == chunks;
    scored := StableSort.Sort(scored, HigherFirst);
  }

  lemma RankedAnswers(query: seq<string>, chunks: seq<ChunkRecord>, log: real -> real)
    ensures var ranked := Ranked(query, chunks, log);
            && (IsLog(log) ==> Descending(ranked) && forall c :: c in chunks && Shares(query, c) <==> exists i :: 0 <= i < |ranked| && ranked[i].1 == c)
            && (IsLog(log) && StableSort.Distinct(query) ==> RarerFirst(query, chunks, ranked) && BetterFirst(query, chunks, ranked))
  {
    if IsLog(log) {
      RankingIsExact(query, chunks, log);
      RankedScores(query, chunks, log, Ranked(query, chunks, log));
      if StableSort.Distinct(query) {
        RankingFavours(query, chunks, log);
      }
    }
  }

  lemma {:induction false} NoTokensNoScores(some: seq<ChunkRecord>, chunks: seq<ChunkRecord>, log: real -> real)
    ensures ScoredChunks([], some, chunks, log) == []
  {
    if some != [] {
      NoTokensNoScores(some[..|some| - 1], chunks, log);
    }
  }

  lemma NothingScored(query: seq<string>, chunks: seq<ChunkRecord>, log: real -> real)
    ensures |chunks| == 0 || |query| == 0 ==> Ranked(query, chunks, log) == []
  {
    if |query| == 0 {
      NoTokensNoScores(chunks, chunks, log);
    }
  }

  // ----- bounds

  lemma IdfIsPositive(term: string, chunks: seq<ChunkRecord>, log: real -> real)
    requires IsLog(log)
    ensures Idf(term, chunks, log) > 0.0
  {
    var n, df := |chunks| as real, DocFreq(term, chunks) as real;
    assert n - df + 0.5 > 0.0 && df + 0.5 > 0.0;
    PositiveQuotient(n - df + 0.5, df + 0.5);
    assert log(1.0) < log(1.0 + (n - df + 0.5) / (df + 0.5));
  }

  lemma PositiveQuotient(x: real, y: real)
    requires x > 0.0 && y > 0.0
    ensures x / y > 0.0
  {
  }

  lemma WeightBounds(idf: real, f: nat, length: nat, avg: real)
    requires idf > 0.0 && avg >= 0.0
    ensures 0.0 <= Weight(idf, f, length, avg) < idf * (K1 + 1.0)
    ensures Weight(idf, f, length, avg) > 0.0 <==> f > 0
  {
    if f > 0 {
      QuotientBelow(idf, f as real, Denominator(f, length, avg));
      hide Denominator;
    }
  }

  lemma QuotientBelow(idf: real, f: real, d: real)
    requires idf > 0.0 && 0.0 < f < d
    ensures 0.0 < idf * (f * (K1 + 1.0)) / d < idf * (K1 + 1.0)
  {
    var top, q := idf * (f * (K1 + 1.0)), idf * (f * (K1 + 1.0)) / d;
    var limit := idf * (K1 + 1.0);
    assert limit > 0.0 && top == limit * f;
    assert q * d == top;
    TimesLarger(limit, f, d);
    assert q * d < limit * d;
    TimesPositive(limit, q, d);
    TimesPositive(q, 0.0, d);
  }

  lemma TimesPositive(x: real, y: real, d: real)
    requires d > 0.0
    ensures x <= y ==> x * d <= y * d
  {
  }

  lemma TimesLarger(x: real, y: real, z: real)
    requires x > 0.0
    ensures y <= z ==> x * y <= x * z
    ensures y < z ==> x * y < x * z
  {
  }

  predicate Shares(query: seq<string>, c: ChunkRecord) {
    exists term | term in query :: term in c.tokens
  }

  lemma SharesSnoc(query: seq<string>, term: string, c: ChunkRecord)
    ensures Shares(query + [term], c) <==> Shares(query, c) || term in c.tokens
  {
    assert term in query + [term];
    if Shares(query, c) {
      var t :| t in query && t in c.tokens;
      assert t in query + [term];
    }
  }

  /** A score is positive exactly for a shared token, and stays strictly below the sum of the idf weights. */
  lemma {:induction false} ScoreBounds(query: seq<string>, c: ChunkRecord, chunks: seq<ChunkRecord>, log: real -> real)
    requires IsLog(log)
    ensures 0.0 <= Score(query, c, chunks, log) <= IdfSum(query, chunks, log)
    ensures query != [] ==> Score(query, c, chunks, log) < IdfSum(query, chunks, log)
    ensures Score(query, c, chunks, log) > 0.0 <==> Shares(query, c)
  {
    if query != [] {
      var front, term := query[..|query| - 1], query[|query| - 1];
      ScoreBounds(front, c, chunks, log);
      IdfIsPositive(term, chunks, log);
      WeightBounds(Idf(term, chunks, log), Count(term, c.tokens), |c.tokens|, AverageLength(chunks));
      SharesSnoc(front, term, c);
      assert query == front + [term];
      assert term in c.tokens <==> Count(term, c.tokens) > 0;
      hide Idf, Weight, AverageLength, Count, Shares;
    }
  }

  // ----- the ranking

  /** The chunks that share a token with the query, in their order. */
  function Sharing(query: seq<string>, some: seq<ChunkRecord>): seq<ChunkRecord> {
    if some == [] then []
    else
      var last := some[|some| - 1];
      Sharing(query, some[..|some| - 1]) + (if Shares(query, last) then [last] else [])
  }

  function WithScores(query: seq<string>, cs: seq<ChunkRecord>, chunks: seq<ChunkRecord>, log: real -> real): (r: seq<Scored>)
    ensures |r| == |cs| && forall i | 0 <= i < |cs| :: r[i] == (Score(query, cs[i], chunks, log), cs[i])
  {
    seq(|cs|, i requires 0 <= i < |cs| => (Score(query, cs[i], chunks, log), cs[i]))
  }

  lemma {:induction false} ScoredAreSharing(query: seq<string>, some: seq<ChunkRecord>, chunks: seq<ChunkRecord>, log: real -> real)
    requires IsLog(log)
    ensures ScoredChunks(query, some, chunks, log) == WithScores(query, Sharing(query, some), chunks, log)
  {
    if some != [] {
      var front, last := some[..|some| - 1], some[|some| - 1];
      ScoredAreSharing(query, front, chunks, log);
      ScoreBounds(query, last, chunks, log);
      hide Score, Shares;
    }
  }

  ghost predicate Descending(ranked: seq<Scored>) {
    forall i, j | 0 <= i < j < |ranked| :: ranked[i].0 >= ranked[j].0
  }

  /** The ranking holds exactly the chunks sharing a token with the query, each with its score, strictly
      below the bound; highest first, and equal scores in the order of the chunks. */
  lemma RankingIsExact(query: seq<string>, chunks: seq<ChunkRecord>, log: real -> real)
    requires IsLog(log)
    ensures var ranked := Ranked(query, chunks, log);
            var sharing := WithScores(query, Sharing(query, chunks), chunks, log);
            && multiset(ranked) == multiset(sharing) && Descending(ranked)
            && (forall entry :: StableSort.Ties(entry, sharing, HigherFirst) == StableSort.Ties(entry, ranked, HigherFirst))
            && (forall entry | entry in ranked :: 0.0 < entry.0 < IdfSum(query, chunks, log))
  {
    var ranked, sharing := Ranked(query, chunks, log), WithScores(query, Sharing(query, chunks), chunks, log);
    ScoredAreSharing(query, chunks, chunks, log);
    SharingShare(query, chunks);
    hide ScoredChunks, Score, IdfSum, Sharing, Shares;
    assert StableSort.TotalPreorder(HigherFirst);
    StableSort.SortIsStable(sharing, HigherFirst);
    forall i, j | 0 <= i < j < |ranked| ensures ranked[i].0 >= ranked[j].0 {
      assert HigherFirst(ranked[i], ranked[j]);
    }
    forall entry | entry in ranked ensures 0.0 < entry.0 < IdfSum(query, chunks, log) {
      assert entry in multiset(ranked);
      assert entry in sharing;
      ScoreBounds(query, entry.1, chunks, log);
      NotEmptyQuery(query, entry.1);
    }
  }

  lemma NotEmptyQuery(query: seq<string>, c: ChunkRecord)
    requires Shares(query, c)
    ensures query != []
  {
  }

  lemma {:induction false} SharingShare(query: seq<string>, some: seq<ChunkRecord>)
    ensures forall c :: c in Sharing(query, some) <==> c in some && Shares(query, c)
  {
    hide Shares;
    if some != [] {
      SharingShare(query, some[..|some| - 1]);
      assert some == some[..|some| - 1] + [some[|some| - 1]];
    }
  }

  // ----- what rare tokens, repeated tokens and short chunks are worth

  /** The places of the chunks that hold a term. */
  ghost function Holders(term: string, chunks: seq<ChunkRecord>): set<nat> {
    set i: nat | i < |chunks| && term in chunks[i].tokens
  }

  lemma {:induction false} DocFreqCountsHolders(term: string, chunks: seq<ChunkRecord>)
    ensures DocFreq(term, chunks) == |Holders(term, chunks)|
  {
    if chunks == [] {
      assert Holders(term, chunks) == {};
    } else {
      var front, last := chunks[..|chunks| - 1], chunks[|chunks| - 1];
      DocFreqCountsHolders(term, front);
      assert DocFreq(term, chunks) == |Holders(term, front)| + (if term in last.tokens then 1 else 0);
      hide DocFreq;
      assert Holders(term, chunks) == Holders(term, front) + (if term in last.tokens then {|front|} else {});
    }
  }

  lemma QuotientFalls(x: real, y: real, x': real, y': real)
    requires 0.0 < x' < x && 0.0 < y < y'
    ensures x' / y' < x / y
  {
    var q, q' := x / y, x' / y';
    assert q * y == x && q' * y' == x';
    PositiveQuotient(x', y');
    TimesLarger(q', y, y');
    assert q' * y < q * y;
    TimesPositive(q, q', y);
  }

  lemma IdfFalls(n: nat, df: nat, df': nat, log: real -> real)
    requires IsLog(log) && df < df' <= n
    ensures IdfOf(n, df', log) < IdfOf(n, df, log)
  {
    var x, y, x', y' := n as real - df as real + 0.5, df as real + 0.5, n as real - df' as real + 0.5, df' as real + 0.5;
    QuotientFalls(x, y, x', y');
    PositiveQuotient(x', y');
    assert log(1.0 + x' / y') < log(1.0 + x / y);
  }

  /** A term that fewer chunks hold has the strictly larger idf. */
  lemma RarerTermWeighsMore(rare: string, common: string, chunks: seq<ChunkRecord>, log: real -> real)
    requires IsLog(log) && |Holders(rare, chunks)| < |Holders(common, chunks)|
    ensures Idf(common, chunks, log) < Idf(rare, chunks, log)
  {
    DocFreqCountsHolders(rare, chunks);
    DocFreqCountsHolders(common, chunks);
    IdfFalls(|chunks|, DocFreq(rare, chunks), DocFreq(common, chunks), log);
  }

  /** The average length times the number of chunks is the sum of the lengths. */
  lemma {:induction false} AverageIsMean(front: seq<ChunkRecord>, last: ChunkRecord)
    ensures AverageLength([last]) == |last.tokens| as real
    ensures AverageLength(front + [last]) * (|front| + 1) as real == AverageLength(front) * |front| as real + |last.tokens| as real
  {
    var all := front + [last];
    assert all[..|all| - 1] == front && all[|all| - 1] == last;
    assert [last][..0] == [] && TotalLength([last]) == |last.tokens|;
    TimesQuotient(TotalLength(all) as real, |all| as real);
    if front != [] {
      TimesQuotient(TotalLength(front) as real, |front| as real);
    }
  }

  lemma TimesQuotient(x: real, y: real)
    requires y != 0.0
    ensures x / y * y == x
  {
  }

  lemma IdfOfHolders(term: string, chunks: seq<ChunkRecord>, log: real -> real)
    ensures var n, df := |chunks| as real, |Holders(term, chunks)| as real;
            Idf(term, chunks, log) == log(1.0 + (n - df + 0.5) / (df + 0.5))
  {
    DocFreqCountsHolders(term, chunks);
  }

  /** What a token adds to the score of a chunk, cleared of the fraction: `k1` is 1.5 and `b` is 0.75. */
  lemma ScoreOfToken(term: string, c: ChunkRecord, chunks: seq<ChunkRecord>, log: real -> real)
    ensures var f, length, avg := multiset(c.tokens)[term] as real, |c.tokens| as real, AverageLength(chunks);
            Score([term], c, chunks, log) * (f + 1.5 * (0.25 + 0.75 * (if avg == 0.0 then 1.0 else length / avg)))
            == Idf(term, chunks, log) * (f * 2.5)
  {
    assert [term][..0] == [];
    WeightCleared(Idf(term, chunks, log), Count(term, c.tokens), |c.tokens|, AverageLength(chunks));
    hide AverageLength, Weight, Idf;
  }

  // What the weight does with the count and with the length.

  lemma WeightOf(idf: real, f: nat, length: nat, avg: real) returns (norm: real)
    requires avg >= 0.0 && f > 0
    ensures norm > 0.0 && norm == K1 * (1.0 - B + B * (if avg != 0.0 then length as real / avg else 1.0))
    ensures Weight(idf, f, length, avg) * (f as real + norm) == idf * (f as real * (K1 + 1.0))
  {
    NotNegative(length as real, avg);
    norm := K1 * (1.0 - B + B * (if avg != 0.0 then length as real / avg else 1.0));
    TimesQuotient(idf * (f as real * (K1 + 1.0)), Denominator(f, length, avg));
  }

  lemma WeightCleared(idf: real, f: nat, length: nat, avg: real)
    requires avg >= 0.0
    ensures Weight(idf, f, length, avg) * (f as real + 1.5 * (0.25 + 0.75 * (if avg == 0.0 then 1.0 else length as real / avg))) == idf * (f as real * 2.5)
  {
    if f > 0 {
      var norm := WeightOf(idf, f, length, avg);
      hide Weight;
      var relative := if avg == 0.0 then 1.0 else length as real / avg;
      assert norm == 1.5 * (0.25 + 0.75 * relative);
      assert K1 + 1.0 == 2.5;
    }
  }

  lemma SameProduct(w: real, x: real, w': real, y: real)
    requires w * x == w' * y && 0.0 < y <= x && w > 0.0
    ensures w <= w' && (y < x ==> w < w')
  {
    TimesLarger(w, y, x);
    assert w * y <= w' * y;
    if w' < w {
      TimesLarger(y, w', w);
    }
  }

  lemma FractionGrows(a: real, f: real, c: real, f': real, c': real, w: real, w': real)
    requires a > 0.0 && 0.0 < f <= f' && 0.0 < c' <= c
    requires w * (f + c) == a * f && w' * (f' + c') == a * f' && w > 0.0
    ensures w <= w' && (f < f' || c' < c ==> w < w')
  {
    var x, y := (f + c) * f', (f' + c') * f;
    assert w * x == (a * f) * f' && w' * y == (a * f') * f;
    assert (a * f) * f' == (a * f') * f;
    assert x == f * f' + c * f' && y == f * f' + c' * f;
    TimesLarger(c, f, f');
    TimesPositive(c', c, f);
    TimesLarger(f, c', c);
    TimesPositive(0.0, f', f);
    TimesPositive(0.0, c', f);
    assert c * f' >= c * f >= c' * f > 0.0;
    SameProduct(w, x, w', y);
  }

  lemma NormGrows(length': nat, length: nat, avg: real)
    requires avg > 0.0 && length' <= length
    ensures length' as real / avg <= length as real / avg
    ensures length' < length ==> length' as real / avg < length as real / avg
  {
    var q, q' := length as real / avg, length' as real / avg;
    TimesQuotient(length as real, avg);
    TimesQuotient(length' as real, avg);
    TimesPositive(q, q', avg);
  }

  lemma WeightGrows(idf: real, f: nat, length: nat, f': nat, length': nat, avg: real)
    requires idf > 0.0 && avg >= 0.0 && f <= f' && length' <= length
    ensures Weight(idf, f, length, avg) <= Weight(idf, f', length', avg)
    ensures f < f' || (f > 0 && avg > 0.0 && length' < length) ==> Weight(idf, f, length, avg) < Weight(idf, f', length', avg)
  {
    WeightBounds(idf, f', length', avg);
    if f > 0 {
      WeightBounds(idf, f, length, avg);
      var c := WeightOf(idf, f, length, avg);
      var c' := WeightOf(idf, f', length', avg);
      if avg > 0.0 {
        NormGrows(length', length, avg);
      }
      var w, w', a := Weight(idf, f, length, avg), Weight(idf, f', length', avg), idf * (K1 + 1.0);
      hide Weight;
      assert w * (f as real + c) == a * f as real && w' * (f' as real + c') == a * f' as real;
      FractionGrows(a, f as real, c, f' as real, c', w, w');
    }
  }

  /** `d` is no longer than `c` and holds every token of the query at least as often. */
  ghost predicate AtLeastAsGood(query: seq<string>, c: ChunkRecord, d: ChunkRecord) {
    |d.tokens| <= |c.tokens| && forall term | term in query :: multiset(c.tokens)[term] <= multiset(d.tokens)[term]
  }

  ghost predicate Better(query: seq<string>, c: ChunkRecord, d: ChunkRecord) {
    || (exists term | term in query :: multiset(c.tokens)[term] < multiset(d.tokens)[term])
    || (|d.tokens| < |c.tokens| && exists term | term in query :: term in c.tokens)
  }

  /** Such a chunk never scores lower, and it scores strictly higher when it holds some token more often, or
      is shorter and the other one holds some token at all. */
  lemma {:induction false} BetterChunksScoreHigher(query: seq<string>, c: ChunkRecord, d: ChunkRecord, chunks: seq<ChunkRecord>, log: real -> real)
    requires IsLog(log) && c in chunks && AtLeastAsGood(query, c, d)
    ensures Score(query, c, chunks, log) <= Score(query, d, chunks, log)
    ensures Better(query, c, d) ==> Score(query, c, chunks, log) < Score(query, d, chunks, log)
  {
    if query != [] {
      var front, term := query[..|query| - 1], query[|query| - 1];
      BetterChunksScoreHigher(front, c, d, chunks, log);
      IdfIsPositive(term, chunks, log);
      assert query == front + [term];
      if c.tokens != [] {
        AverageIsPositive(c, chunks);
      }
      var idf, avg := Idf(term, chunks, log), AverageLength(chunks);
      hide Idf, AverageLength;
      WeightGrows(idf, Count(term, c.tokens), |c.tokens|, Count(term, d.tokens), |d.tokens|, avg);
      hide Weight;
      assert Better(query, c, d) ==> Better(front, c, d) || Better([term], c, d);
      assert term in c.tokens <==> Count(term, c.tokens) > 0;
    }
  }

  lemma {:induction false} AverageIsPositive(c: ChunkRecord, chunks: seq<ChunkRecord>)
    requires c in chunks && c.tokens != []
    ensures AverageLength(chunks) > 0.0
  {
    TotalIsPositive(c, chunks);
    PositiveQuotient(TotalLength(chunks) as real, |chunks| as real);
  }

  lemma {:induction false} TotalIsPositive(c: ChunkRecord, chunks: seq<ChunkRecord>)
    requires c in chunks
    ensures TotalLength(chunks) >= |c.tokens|
  {
    var front, last := chunks[..|chunks| - 1], chunks[|chunks| - 1];
    assert chunks == front + [last];
    if c in front {
      TotalIsPositive(c, front);
    }
  }

  // Chunks with one token of the query each.

  ghost predicate HoldsOnly(query: seq<string>, c: ChunkRecord, term: string, f: nat) {
    && f > 0 && term in query && multiset(c.tokens)[term] == f
    && forall other | other in query && other != term :: other !in c.tokens
  }

  lemma {:induction false} ScoreOfOnly(query: seq<string>, c: ChunkRecord, term: string, f: nat, chunks: seq<ChunkRecord>, log: real -> real)
    requires IsLog(log) && StableSort.Distinct(query) && HoldsOnly(query, c, term, f)
    ensures Score(query, c, chunks, log) == Weight(Idf(term, chunks, log), f, |c.tokens|, AverageLength(chunks))
  {
    var front, last := query[..|query| - 1], query[|query| - 1];
    assert query == front + [last];
    assert last in query && front == query[..|query| - 1];
    if last == term {
      assert term !in front;
      assert !Shares(front, c);
      ScoreBounds(front, c, chunks, log);
    } else {
      assert HoldsOnly(front, c, term, f);
      ScoreOfOnly(front, c, term, f, chunks, log);
      assert Count(last, c.tokens) == 0;
    }
    hide Idf, AverageLength, Shares;
  }

  lemma TimesIdf(low: real, high: real, f: nat, length: nat, avg: real)
    requires avg >= 0.0 && low < high && f > 0
    ensures Weight(low, f, length, avg) < Weight(high, f, length, avg)
  {
    var norm := WeightOf(low, f, length, avg);
    var norm' := WeightOf(high, f, length, avg);
    var w, w', d, t := Weight(low, f, length, avg), Weight(high, f, length, avg), f as real + norm, f as real * (K1 + 1.0);
    hide Weight;
    assert norm == norm';
    assert w * d == low * t && w' * d == high * t;
    TimesLarger(t, low, high);
    TimesPositive(w', w, d);
  }

  /** Of two chunks of equal length, each holding exactly one token of the query and equally often, the one
      with the rarer token scores strictly higher. */
  lemma RarerTokenScoresHigher(query: seq<string>, c: ChunkRecord, rare: string, d: ChunkRecord, common: string, f: nat, chunks: seq<ChunkRecord>, log: real -> real)
    requires IsLog(log) && StableSort.Distinct(query) && |c.tokens| == |d.tokens|
    requires HoldsOnly(query, c, rare, f) && HoldsOnly(query, d, common, f) && |Holders(rare, chunks)| < |Holders(common, chunks)|
    ensures Score(query, d, chunks, log) < Score(query, c, chunks, log)
  {
    ScoreOfOnly(query, c, rare, f, chunks, log);
    ScoreOfOnly(query, d, common, f, chunks, log);
    RarerTermWeighsMore(rare, common, chunks, log);
    TimesIdf(Idf(common, chunks, log), Idf(rare, chunks, log), f, |c.tokens|, AverageLength(chunks));
  }

  ghost predicate RarerFirst(query: seq<string>, chunks: seq<ChunkRecord>, ranked: seq<Scored>) {
    forall i, j, rare, common, f | 0 <= i < |ranked| && 0 <= j < |ranked|
        && HoldsOnly(query, ranked[i].1, rare, f) && HoldsOnly(query, ranked[j].1, common, f)
        && |ranked[i].1.tokens| == |ranked[j].1.tokens| && |Holders(rare, chunks)| < |Holders(common, chunks)| :: i < j
  }

  ghost predicate BetterFirst(query: seq<string>, chunks: seq<ChunkRecord>, ranked: seq<Scored>) {
    forall i, j | 0 <= i < |ranked| && 0 <= j < |ranked|
        && AtLeastAsGood(query, ranked[j].1, ranked[i].1) && Better(query, ranked[j].1, ranked[i].1) :: i < j
  }

  /** So it stands earlier in the ranking, and so does a better chunk. */
  lemma RankingFavours(query: seq<string>, chunks: seq<ChunkRecord>, log: real -> real)
    requires IsLog(log) && StableSort.Distinct(query)
    ensures RarerFirst(query, chunks, Ranked(query, chunks, log)) && BetterFirst(query, chunks, Ranked(query, chunks, log))
  {
    var ranked := Ranked(query, chunks, log);
    RankingIsExact(query, chunks, log);
    RankedScores(query, chunks, log, ranked);
    hide *;
    RarerStandFirst(query, chunks, log, ranked);
    BetterStandFirst(query, chunks, log, ranked);
  }

  lemma BetterStandFirst(query: seq<string>, chunks: seq<ChunkRecord>, log: real -> real, ranked: seq<Scored>)
    requires IsLog(log) && Descending(ranked)
    requires forall i | 0 <= i < |ranked| :: ranked[i].1 in chunks && ranked[i].0 == Score(query, ranked[i].1, chunks, log)
    ensures BetterFirst(query, chunks, ranked)
  {
    hide Score, AtLeastAsGood, Better, IsLog;
    forall i, j | 0 <= i < |ranked| && 0 <= j < |ranked|
        && AtLeastAsGood(query, ranked[j].1, ranked[i].1) && Better(query, ranked[j].1, ranked[i].1)
      ensures i < j
    {
      BetterChunksScoreHigher(query, ranked[j].1, ranked[i].1, chunks, log);
    }
  }

  lemma RarerStandFirst(query: seq<string>, chunks: seq<ChunkRecord>, log: real -> real, ranked: seq<Scored>)
    requires IsLog(log) && StableSort.Distinct(query) && Descending(ranked)
    requires forall i | 0 <= i < |ranked| :: ranked[i].0 == Score(query, ranked[i].1, chunks, log)
    ensures RarerFirst(query, chunks, ranked)
  {
    hide Score, HoldsOnly, Holders, IsLog;
    forall i, j, rare, common, f | 0 <= i < |ranked| && 0 <= j < |ranked|
        && HoldsOnly(query, ranked[i].1, rare, f) && HoldsOnly(query, ranked[j].1, common, f)
        && |ranked[i].1.tokens| == |ranked[j].1.tokens| && |Holders(rare, chunks)| < |Holders(common, chunks)|
      ensures i < j
    {
      RarerTokenScoresHigher(query, ranked[i].1, rare, ranked[j].1, common, f, chunks, log);
    }
  }

  /** Every entry of the ranking is a chunk with its own score. */
  lemma RankedScores(query: seq<string>, chunks: seq<ChunkRecord>, log: real -> real, ranked: seq<Scored>)
    requires IsLog(log) && ranked == Ranked(query, chunks, log)
    ensures forall i | 0 <= i < |ranked| :: ranked[i].1 in chunks && ranked[i].0 == Score(query, ranked[i].1, chunks, log)
    ensures forall c :: c in chunks && Shares(query, c) <==> exists i :: 0 <= i < |ranked| && ranked[i].1 == c
  {
    var sharing := Sharing(query, chunks);
    var scored := WithScores(query, sharing, chunks, log);
    RankingIsExact(query, chunks, log);
    SharingShare(query, chunks);
    hide Ranked, Score, Sharing, Shares, Descending, IdfSum;
    forall i | 0 <= i < |ranked| ensures ranked[i].1 in sharing && ranked[i].0 == Score(query, ranked[i].1, chunks, log) {
      assert ranked[i] in multiset(ranked);
      assert ranked[i] in scored;
    }
    forall c | c in sharing ensures exists i :: 0 <= i < |ranked| && ranked[i].1 == c {
      var k :| 0 <= k < |sharing| && sharing[k] == c;
      assert scored[k] in multiset(scored);
      assert scored[k] in ranked;
    }
  }

  // ----- the order in which a set is iterated

  lemma {:induction false} ScoreSplits(a: seq<string>, b: seq<string>, c: ChunkRecord, chunks: seq<ChunkRecord>, log: real -> real)
    ensures Score(a + b, c, chunks, log) == Score(a, c, chunks, log) + Score(b, c, chunks, log)
  {
    if b == [] {
      assert a + b == a;
    } else {
      var front := b[..|b| - 1];
      assert (a + b)[..|a + b| - 1] == a + front && (a + b)[|a + b| - 1] == b[|b| - 1];
      ScoreSplits(a, front, c, chunks, log);
      hide Contribution;
    }
  }

  lemma WithoutOne(front: seq<string>, term: string, before: seq<string>, after: seq<string>)
    requires multiset(front + [term]) == multiset(before + ([term] + after))
    ensures multiset(front) == multiset(before + after)
  {
    var x := multiset{term};
    assert multiset(front + [term]) == multiset(front) + x;
    assert multiset(before + ([term] + after)) == multiset(before) + x + multiset(after);
    assert multiset(front) == multiset(front) + x - x;
    assert multiset(before) + multiset(after) == multiset(before) + x + multiset(after) - x;
  }

  /** Two iteration orders of the same tokens give every chunk the same score. */
  lemma {:induction false} IterationOrderDoesNotMatter(query: seq<string>, other: seq<string>, c: ChunkRecord, chunks: seq<ChunkRecord>, log: real -> real)
    requires multiset(query) == multiset(other)
    ensures Score(query, c, chunks, log) == Score(other, c, chunks, log)
    decreases |query|
  {
    hide Contribution;
    if query == [] {
      assert |other| == |multiset(other)|;
    } else {
      var front, term := query[..|query| - 1], query[|query| - 1];
      assert query == front + [term];
      assert term in multiset(other);
      var i :| 0 <= i < |other| && other[i] == term;
      var before, after := other[..i], other[i + 1..];
      assert other == before + ([term] + after);
      WithoutOne(front, term, before, after);
      IterationOrderDoesNotMatter(front, before + after, c, chunks, log);
      ScoreSplits(before, [term] + after, c, chunks, log);
      ScoreSplits([term], after, c, chunks, log);
      ScoreSplits(before, after, c, chunks, log);
      ScoreSplits(front, [term], c, chunks, log);
    }
  }

  // ----- search results

  ghost predicate Monotone(round: real -> real) {
    forall x, y | x <= y :: round(x) <= round(y)
  }

  function Results(ranked: seq<Scored>, round: real -> real): (r: seq<Scored>)
    ensures |r| == |ranked| && forall i | 0 <= i < |r| :: r[i] == (round(ranked[i].0), ranked[i].1)
  {
    seq(|ranked|, i requires 0 <= i < |ranked| => (round(ranked[i].0), ranked[i].1))
  }

  /** Rounding the published scores keeps them in order. */
  lemma RoundedStaysDescending(ranked: seq<Scored>, round: real -> real)
    requires Descending(ranked) && Monotone(round)
    ensures Descending(Results(ranked, round))
  {
    var r := Results(ranked, round);
    forall i, j | 0 <= i < j < |r| ensures r[i].0 >= r[j].0 {
      assert round(ranked[j].0) <= round(ranked[i].0);
    }
  }
}
