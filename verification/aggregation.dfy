/** The body of `main` in scripts/similarity_with_aggregation.py: rank every
    chunk of a book against the genre table, tally each chunk's top 20 into
    per-genre votes and scores, and summarise the book as its 20 best-voted
    genres and a short, chunk-number-ordered detail line per chunk. Any chunk
    that raises ends the run with no summary at all. */
module Aggregation {
  import opened Basics
  import opened StableSort
  import opened Ranker
  import opened ChunkReport
  import opened VoteTally

  /** Characters of chunk text kept in a detail line. */
  const PreviewLimit: nat := 150
  /** Matches of a chunk's ranking kept in its detail line. */
  const DetailCount: nat := 5
  /** Genres kept in the summary. */
  const SummaryCount: nat := 20

  /** One genre of a detail line: its name, its parent and its similarity. */
  datatype TopGenre = TopGenre(subgenre: string, parent: string, similarity: real)

  /** One entry of `chunk_details`. */
  datatype ChunkDetail = ChunkDetail(chunkNumber: int, chunkPreview: string, top5Genres: seq<TopGenre>)

  /** One value of `genre_matches`. */
  datatype GenreMatch = GenreMatch(subgenre: string, parent: string, prototypeText: string, votes: nat, avgSimilarity: real)

  /** The printed result; `processing_complete` is always true and not kept. */
  datatype BookSummary = BookSummary(bookTitle: string, totalChunks: nat, top20Genres: seq<GenreMatch>, chunkDetails: seq<ChunkDetail>)

  /** One chunk's top 20: `chunk_data['embedding']` raises when the key is
      missing, and the ranking raises on the first row of another length. */
  function TopForChunk(chunk: Chunk, genres: seq<GenreRow>, sqrt: real -> real): Result<seq<Match>> {
    if chunk.embedding.None? then Err(MissingKey("embedding"))
    else RankedMatches(chunk.embedding.value, genres, sqrt)
  }

  /** Every chunk's top 20 in chunk order, or the error of the first chunk that raises. */
  function ChunkTops(chunks: seq<Chunk>, genres: seq<GenreRow>, sqrt: real -> real): (r: Result<seq<seq<Match>>>)
    ensures r.Ok? <==> forall i :: 0 <= i < |chunks| ==> TopForChunk(chunks[i], genres, sqrt).Ok?
    ensures r.Ok? ==> |r.value| == |chunks|
    ensures r.Ok? ==> forall i :: 0 <= i < |chunks| ==> TopForChunk(chunks[i], genres, sqrt) == Ok(r.value[i])
    ensures r.Err? ==> exists f :: && 0 <= f < |chunks|
                                   && TopForChunk(chunks[f], genres, sqrt) == Err(r.error)
                                   && forall i :: 0 <= i < f ==> TopForChunk(chunks[i], genres, sqrt).Ok?
  {
    if chunks == [] then Ok([])
    else
      var init := chunks[..|chunks| - 1];
      assert forall i :: 0 <= i < |init| ==> init[i] == chunks[i];
      match ChunkTops(init, genres, sqrt)
      case Err(e) => Err(e)
      case Ok(tops) =>
        match TopForChunk(chunks[|chunks| - 1], genres, sqrt)
        case Err(e) => Err(e)
        case Ok(top) => Ok(tops + [top])
  }

  /** All top-20 slots of all chunks, in the order the vote loop visits them. */
  function Flatten(tops: seq<seq<Match>>): seq<Match> {
    if tops == [] then [] else Flatten(tops[..|tops| - 1]) + tops[|tops| - 1]
  }

  /** The entries of `top_5_genres`. */
  function Brief(ms: seq<Match>): seq<TopGenre> {
    seq(|ms|, i requires 0 <= i < |ms| => TopGenre(ms[i].subgenre, ms[i].parentGenre, ms[i].similarity))
  }

  /** The detail line of the chunk at position `idx` with ranking `top`. */
  function DetailFor(chunk: Chunk, idx: nat, top: seq<Match>): ChunkDetail {
    ChunkDetail(chunk.chunkNumber.GetOr(idx + 1), Take(chunk.chunkText.GetOr(""), PreviewLimit), Brief(Take(top, DetailCount)))
  }

  /** The detail lines in chunk order, before sorting. */
  function Details(chunks: seq<Chunk>, tops: seq<seq<Match>>): seq<ChunkDetail>
    requires |chunks| == |tops|
  {
    seq(|chunks|, i requires 0 <= i < |chunks| => DetailFor(chunks[i], i, tops[i]))
  }

  function Sum(xs: seq<real>): real {
    if xs == [] then 0.0 else Sum(xs[..|xs| - 1]) + xs[|xs| - 1]
  }

  function Mean(xs: seq<real>): real
    requires xs != []
  {
    Sum(xs) / (|xs| as real)
  }

  /** The `genre_matches` value built from one `genre_votes` item. */
  function GenreMatchOf(name: string, e: VoteEntry): GenreMatch
    requires e.scores != []
  {
    GenreMatch(name, e.parent, e.prototype, e.votes, Mean(e.scores))
  }

  /** `genre_matches.values()`, in the dictionary's key order. */
  function Averages(t: Tally): seq<GenreMatch>
    requires ValidTally(t)
  {
    seq(|t.order|, i requires 0 <= i < |t.order| => GenreMatchOf(t.order[i], t.entries[t.order[i]]))
  }

  /** The averaged genres of a sequence of slots, in first-slot order. */
  function GenreAverages(slots: seq<Match>): seq<GenreMatch> {
    TallyOfValid(slots);
    Averages(TallyOf(slots))
  }

  /** The sort key `(votes, avg_similarity)`. */
  function RankOf(g: GenreMatch): (int, real) {
    (g.votes, g.avgSimilarity)
  }

  /** `reverse=True` on a tuple key: more votes first, then a higher average. */
  function Outranks(a: (int, real), b: (int, real)): bool {
    a.0 > b.0 || (a.0 == b.0 && a.1 > b.1)
  }

  lemma OutranksIsStrictTotalOrder()
    ensures StrictTotalOrder(Outranks)
  {
  }

  function ChunkNumberOf(d: ChunkDetail): int {
    d.chunkNumber
  }

  /** Ascending order of chunk numbers. */
  function Earlier(a: int, b: int): bool {
    a < b
  }

  lemma EarlierIsStrictTotalOrder()
    ensures StrictTotalOrder(Earlier)
  {
  }

  /** `sorted_genres[:20]` for the given slots. */
  function RankedGenres(slots: seq<Match>): seq<GenreMatch> {
    Take(Sort(GenreAverages(slots), RankOf, Outranks), SummaryCount)
  }

  /** The first chunk's book title, or 'Unknown' when it has none or there are no chunks. */
  function Title(chunks: seq<Chunk>): string {
    if chunks == [] then "Unknown" else chunks[0].bookTitle.GetOr("Unknown")
  }

  /** What the script prints for a list of chunks, or the error it reports. */
  function Summarize(chunks: seq<Chunk>, genres: seq<GenreRow>, sqrt: real -> real): Result<BookSummary> {
    match ChunkTops(chunks, genres, sqrt)
    case Err(e) => Err(e)
    case Ok(tops) =>
      Ok(BookSummary(
        Title(chunks),
        |chunks|,
        RankedGenres(Flatten(tops)),
        Sort(Details(chunks, tops), ChunkNumberOf, Earlier)))
  }

  lemma TallyOfAppend(slots: seq<Match>, m: Match)
    ensures TallyOf(slots + [m]) == Record(TallyOf(slots), m)
  {
    assert (slots + [m])[..|slots|] == slots;
  }

  lemma FlattenAppend(tops: seq<seq<Match>>, top: seq<Match>)
    ensures Flatten(tops + [top]) == Flatten(tops) + top
  {
    assert (tops + [top])[..|tops|] == tops;
  }

  /** When every chunk before `i` succeeds and chunk `i` raises, the run
      reports chunk `i`'s error. */
  lemma FirstFailure(chunks: seq<Chunk>, genres: seq<GenreRow>, sqrt: real -> real, i: nat)
    requires i < |chunks|
    requires forall k :: 0 <= k < i ==> TopForChunk(chunks[k], genres, sqrt).Ok?
    requires TopForChunk(chunks[i], genres, sqrt).Err?
    ensures Summarize(chunks, genres, sqrt) == Err(TopForChunk(chunks[i], genres, sqrt).error)
  {
    var r := ChunkTops(chunks, genres, sqrt);
    assert r.Err?;
    var f :| 0 <= f < |chunks| && TopForChunk(chunks[f], genres, sqrt) == Err(r.error) &&
      forall k :: 0 <= k < f ==> TopForChunk(chunks[k], genres, sqrt).Ok?;
    assert f == i;
  }

  /** When every chunk succeeds, the rankings are the chunks' own. */
  lemma AllChunksRanked(chunks: seq<Chunk>, genres: seq<GenreRow>, sqrt: real -> real, tops: seq<seq<Match>>)
    requires |tops| == |chunks|
    requires forall k :: 0 <= k < |chunks| ==> TopForChunk(chunks[k], genres, sqrt) == Ok(tops[k])
    ensures ChunkTops(chunks, genres, sqrt) == Ok(tops)
  {
    var r := ChunkTops(chunks, genres, sqrt);
    assert r.Ok?;
    assert r.value == tops;
  }

  /** The `for genre in top_20` loop: one vote per slot, in slot order. */
  method CountVotes(order: seq<string>, entries: map<string, VoteEntry>, top: seq<Match>, ghost slots: seq<Match>)
    returns (order': seq<string>, entries': map<string, VoteEntry>)
    requires Tally(order, entries) == TallyOf(slots)
    ensures Tally(order', entries') == TallyOf(slots + top)
  {
    order', entries' := order, entries;
    var j := 0;
    assert slots + top[..0] == slots;
    while j < |top|
      invariant 0 <= j <= |top|
      invariant Tally(order', entries') == TallyOf(slots + top[..j])
    {
      var g := top[j];
      ghost var before := Tally(order', entries');
      var key := g.subgenre;
      if key !in entries' {
        order' := order' + [key];
        entries' := entries'[key := Fresh];
      }
      var data := entries'[key];
      entries' := entries'[key := VoteEntry(data.votes + 1, data.scores + [g.similarity], g.parentGenre, g.prototypeText)];
      assert Tally(order', entries') == Record(before, g);
      SlotsStep(slots, top, j);
      TallyOfAppend(slots + top[..j], g);
      j := j + 1;
    }
    assert top[..j] == top;
  }

  lemma SlotsStep(slots: seq<Match>, top: seq<Match>, j: nat)
    requires j < |top|
    ensures slots + top[..j + 1] == (slots + top[..j]) + [top[j]]
  {
    assert top[..j + 1] == top[..j] + [top[j]];
  }

  /** The `for subgenre, data in genre_votes.items()` loop. */
  method AverageVotes(order: seq<string>, entries: map<string, VoteEntry>) returns (matches: seq<GenreMatch>)
    requires ValidTally(Tally(order, entries))
    ensures matches == Averages(Tally(order, entries))
  {
    matches := [];
    var k := 0;
    while k < |order|
      invariant 0 <= k <= |order|
      invariant |matches| == k
      invariant forall q :: 0 <= q < k ==> matches[q] == GenreMatchOf(order[q], entries[order[q]])
    {
      var name := order[k];
      var data := entries[name];
      matches := matches + [GenreMatch(name, data.parent, data.prototype, data.votes, Sum(data.scores) / (|data.scores| as real))];
      k := k + 1;
    }
  }

  /** The `for i, chunk in enumerate(chunks)` loop: rank each chunk, keep its
      detail and count its votes, stopping at the first chunk that raises. */
  method ScanChunks(chunks: seq<Chunk>, genres: seq<GenreRow>, sqrt: real -> real)
    returns (failure: Option<Error>, order: seq<string>, entries: map<string, VoteEntry>,
             details: seq<ChunkDetail>, ghost tops: seq<seq<Match>>)
    ensures failure.Some? ==> Summarize(chunks, genres, sqrt) == Err(failure.value)
    ensures failure.None? ==>
      && ChunkTops(chunks, genres, sqrt) == Ok(tops)
      && |tops| == |chunks|
      && details == Details(chunks, tops)
      && Tally(order, entries) == TallyOf(Flatten(tops))
  {
    order, entries, details, tops := [], map[], [], [];
    var i := 0;
    while i < |chunks|
      invariant 0 <= i <= |chunks|
      invariant ChunkTops(chunks[..i], genres, sqrt) == Ok(tops)
      invariant |tops| == i
      invariant details == Details(chunks[..i], tops)
      invariant Tally(order, entries) == TallyOf(Flatten(tops))
    {
      var chunk := chunks[i];
      if chunk.embedding.None? {
        FailureAt(chunks, genres, sqrt, i, tops);
        return Some(MissingKey("embedding")), order, entries, details, tops;
      }
      var chunkNum := chunk.chunkNumber.GetOr(i + 1);
      var chunkText := chunk.chunkText.GetOr("");
      var top20 := RankChunk(chunk.embedding.value, genres, sqrt);
      if top20.Err? {
        FailureAt(chunks, genres, sqrt, i, tops);
        return Some(top20.error), order, entries, details, tops;
      }
      var top := top20.value;
      details := details + [ChunkDetail(chunkNum, Take(chunkText, PreviewLimit), Brief(Take(top, DetailCount)))];
      order, entries := CountVotes(order, entries, top, Flatten(tops));
      ChunkStep(chunks, genres, sqrt, i, tops, top);
      DetailStep(chunks, i, tops, top);
      FlattenAppend(tops, top);
      tops := tops + [top];
      i := i + 1;
    }
    assert chunks[..i] == chunks;
    failure := None;
  }

  /** A chunk that raises after chunks that all succeeded decides the result. */
  lemma FailureAt(chunks: seq<Chunk>, genres: seq<GenreRow>, sqrt: real -> real, i: nat, tops: seq<seq<Match>>)
    requires i < |chunks|
    requires ChunkTops(chunks[..i], genres, sqrt) == Ok(tops)
    requires TopForChunk(chunks[i], genres, sqrt).Err?
    ensures Summarize(chunks, genres, sqrt) == Err(TopForChunk(chunks[i], genres, sqrt).error)
  {
    forall k | 0 <= k < i
      ensures TopForChunk(chunks[k], genres, sqrt).Ok?
    {
      assert chunks[..i][k] == chunks[k];
    }
    FirstFailure(chunks, genres, sqrt, i);
  }

  /** One more successful chunk extends the rankings. */
  lemma ChunkStep(chunks: seq<Chunk>, genres: seq<GenreRow>, sqrt: real -> real, i: nat, tops: seq<seq<Match>>, top: seq<Match>)
    requires i < |chunks|
    requires ChunkTops(chunks[..i], genres, sqrt) == Ok(tops)
    requires TopForChunk(chunks[i], genres, sqrt) == Ok(top)
    ensures ChunkTops(chunks[..i + 1], genres, sqrt) == Ok(tops + [top])
  {
    var p := chunks[..i + 1];
    assert p[..|p| - 1] == chunks[..i] && p[|p| - 1] == chunks[i];
  }

  /** One more chunk adds its detail line at the end. */
  lemma DetailStep(chunks: seq<Chunk>, i: nat, tops: seq<seq<Match>>, top: seq<Match>)
    requires i < |chunks| && |tops| == i
    ensures Details(chunks[..i + 1], tops + [top]) == Details(chunks[..i], tops) + [DetailFor(chunks[i], i, top)]
  {
    var d, d0 := Details(chunks[..i + 1], tops + [top]), Details(chunks[..i], tops);
    forall k | 0 <= k < i
      ensures d[k] == d0[k]
    {
      assert (tops + [top])[k] == tops[k];
    }
  }


  /** The chunk loop, the averaging loop, the two sorts and the result. */
  method AggregateBook(input: ChunksJson, genres: seq<GenreRow>, sqrt: real -> real) returns (r: Result<BookSummary>)
    ensures r == Summarize(AsChunkList(input), genres, sqrt)
  {
    var chunks := AsChunkList(input);
    var title := if chunks != [] then chunks[0].bookTitle.GetOr("Unknown") else "Unknown";
    var failure, order, entries, details, tops := ScanChunks(chunks, genres, sqrt);
    if failure.Some? {
      return Err(failure.value);
    }
    TallyOfValid(Flatten(tops));
    var matches := AverageVotes(order, entries);
    assert matches == GenreAverages(Flatten(tops));
    assert title == Title(chunks);
    var sortedGenres := Sort(matches, RankOf, Outranks);
    var sortedDetails := Sort(details, ChunkNumberOf, Earlier);
    r := Ok(BookSummary(title, |chunks|, Take(sortedGenres, SummaryCount), sortedDetails));
  }

  // ----- Properties of the summary -----

  /** An empty chunk list gives title 'Unknown', zero chunks and empty lists. */
  lemma SummarizeEmpty(genres: seq<GenreRow>, sqrt: real -> real)
    ensures Summarize([], genres, sqrt) == Ok(BookSummary("Unknown", 0, [], []))
  {
    var tops := ChunkTops([], genres, sqrt).value;
    assert tops == [];
    assert Flatten(tops) == [];
    assert GenreAverages(Flatten(tops)) == [];
  }

  /** The run fails exactly when some chunk has no embedding or some row's
      embedding differs in length from some chunk's embedding. */
  lemma SummarizeFails(chunks: seq<Chunk>, genres: seq<GenreRow>, sqrt: real -> real)
    ensures Summarize(chunks, genres, sqrt).Err? <==>
      exists i :: 0 <= i < |chunks| &&
        (chunks[i].embedding.None? ||
         exists k :: 0 <= k < |genres| && |genres[k].embedding| != |chunks[i].embedding.value|)
  {
    forall i | 0 <= i < |chunks| && chunks[i].embedding.Some? {
      RankedMatchesFails(chunks[i].embedding.value, genres, sqrt);
    }
  }

  /** A detail line keeps the chunk's number, or its 1-based position when it
      has none; the first 150 characters of its text; and the first five
      entries of its ranking, reduced to name, parent and similarity. */
  lemma DetailForFields(chunk: Chunk, idx: nat, top: seq<Match>)
    ensures var d := DetailFor(chunk, idx, top);
      var text := chunk.chunkText.GetOr("");
      && d.chunkNumber == (if chunk.chunkNumber.Some? then chunk.chunkNumber.value else idx + 1)
      && |d.chunkPreview| == Min(|text|, PreviewLimit)
      && d.chunkPreview <= text
      && |d.top5Genres| == Min(|top|, DetailCount)
      && forall j :: 0 <= j < |d.top5Genres| ==>
           d.top5Genres[j] == TopGenre(top[j].subgenre, top[j].parentGenre, top[j].similarity)
  {
  }

  /** A summary counts every chunk and holds one detail line per chunk, in
      ascending chunk number; lines with equal numbers keep chunk order. */
  lemma SummarizeDetails(chunks: seq<Chunk>, genres: seq<GenreRow>, sqrt: real -> real)
    ensures Summarize(chunks, genres, sqrt).Ok? ==>
      var d := Summarize(chunks, genres, sqrt).value.chunkDetails;
      var lines := Details(chunks, ChunkTops(chunks, genres, sqrt).value);
      && Summarize(chunks, genres, sqrt).value.totalChunks == |chunks| == |d|
      && (forall i, j :: 0 <= i < j < |d| ==> d[i].chunkNumber <= d[j].chunkNumber)
      && multiset(d) == multiset(lines)
      && StableFor(d, lines, ChunkNumberOf)
  {
    if Summarize(chunks, genres, sqrt).Ok? {
      var lines := Details(chunks, ChunkTops(chunks, genres, sqrt).value);
      EarlierIsStrictTotalOrder();
      SortCorrect(lines, ChunkNumberOf, Earlier);
    }
  }

  /** The averaged genres are the distinct names of the slots in order of
      first slot; each has as many votes as slots carrying it, the mean of
      those slots' similarities, and the parent and prototype of the last one. */
  lemma {:induction false} GenreAveragesMeaning(slots: seq<Match>)
    ensures var all := GenreAverages(slots);
      var names := Distinct(Names(slots));
      && |all| == |names|
      && forall i :: 0 <= i < |all| ==>
           && all[i].subgenre == names[i]
           && names[i] in Names(slots)
           && all[i].votes == Count(slots, names[i]) == |ScoresFor(slots, names[i])|
           && all[i].votes >= 1
           && all[i].avgSimilarity == Mean(ScoresFor(slots, names[i]))
           && all[i].parent == slots[LastIndex(slots, names[i])].parentGenre
           && all[i].prototypeText == slots[LastIndex(slots, names[i])].prototypeText
  {
    TallyOfValid(slots);
    TallyOrder(slots);
    DistinctMeaning(Names(slots));
    var t := TallyOf(slots);
    forall i | 0 <= i < |t.order|
      ensures t.order[i] in Names(slots)
      ensures t.entries[t.order[i]].votes == Count(slots, t.order[i]) == |ScoresFor(slots, t.order[i])| >= 1
      ensures t.entries[t.order[i]].scores == ScoresFor(slots, t.order[i])
      ensures t.entries[t.order[i]].parent == slots[LastIndex(slots, t.order[i])].parentGenre
      ensures t.entries[t.order[i]].prototype == slots[LastIndex(slots, t.order[i])].prototypeText
    {
      TallyEntries(slots, t.order[i]);
    }
  }

  /** The ranked genres of a sequence of slots (`sorted_genres[:20]`) number `min(D, 20)` for `D`
      distinct names; they are ordered by votes, then by average similarity,
      both descending; each is one of the averaged genres; genres with equal
      votes and average keep the order in which they were first met; and no
      genre left out outranks one kept. */
  lemma RankedGenresCorrect(slots: seq<Match>)
    ensures var top := RankedGenres(slots);
      var all := GenreAverages(slots);
      && |top| == Min(|Distinct(Names(slots))|, SummaryCount)
      && (forall i, j :: 0 <= i < j < |top| ==>
            top[i].votes > top[j].votes || (top[i].votes == top[j].votes && top[i].avgSimilarity >= top[j].avgSimilarity))
      && multiset(top) <= multiset(all)
      && (forall k :: WithKey(top, RankOf, k) <= WithKey(all, RankOf, k))
      && (forall g, i :: g in multiset(all) - multiset(top) && 0 <= i < |top| ==>
            g.votes < top[i].votes || (g.votes == top[i].votes && g.avgSimilarity <= top[i].avgSimilarity))
  {
    TallyOrder(slots);
    BestByRank(GenreAverages(slots));
  }

  /** The first `SummaryCount` genres by descending (votes, average). */
  lemma BestByRank(all: seq<GenreMatch>)
    ensures var top := Take(Sort(all, RankOf, Outranks), SummaryCount);
      && |top| == Min(|all|, SummaryCount)
      && (forall i, j :: 0 <= i < j < |top| ==>
            top[i].votes > top[j].votes || (top[i].votes == top[j].votes && top[i].avgSimilarity >= top[j].avgSimilarity))
      && multiset(top) <= multiset(all)
      && (forall k :: WithKey(top, RankOf, k) <= WithKey(all, RankOf, k))
      && (forall g, i :: g in multiset(all) - multiset(top) && 0 <= i < |top| ==>
            g.votes < top[i].votes || (g.votes == top[i].votes && g.avgSimilarity <= top[i].avgSimilarity))
  {
    var top := Take(Sort(all, RankOf, Outranks), SummaryCount);
    OutranksIsStrictTotalOrder();
    TopCorrect(all, SummaryCount, RankOf, Outranks);
    forall i, j | 0 <= i < j < |top|
      ensures top[i].votes > top[j].votes || (top[i].votes == top[j].votes && top[i].avgSimilarity >= top[j].avgSimilarity)
    {
      assert !Outranks(RankOf(top[j]), RankOf(top[i]));
    }
    forall g, i | g in multiset(all) - multiset(top) && 0 <= i < |top|
      ensures g.votes < top[i].votes || (g.votes == top[i].votes && g.avgSimilarity <= top[i].avgSimilarity)
    {
      assert !Outranks(RankOf(g), RankOf(top[i]));
    }
  }


  /** A name in two slots gets two votes, the later slot's parent and
      prototype, and the mean of both similarities. */
  lemma TwoSlotsExample()
    ensures GenreAverages([Match("Noir", "Crime", "dark", 0.9), Match("Noir", "Mystery", "shadow", 0.8)])
      == [GenreMatch("Noir", "Mystery", "shadow", 2, 0.85)]
  {
    SameNameTwice(Match("Noir", "Crime", "dark", 0.9), Match("Noir", "Mystery", "shadow", 0.8));
  }

  /** Two slots of one name give one genre with two votes, the mean of both
      scores, and the later slot's parent and prototype. */
  lemma SameNameTwice(x: Match, y: Match)
    requires x.subgenre == y.subgenre
    ensures GenreAverages([x, y]) == [GenreMatch(y.subgenre, y.parentGenre, y.prototypeText, 2, (x.similarity + y.similarity) / 2.0)]
  {
    SingleSlot(x);
    assert [x, y][..1] == [x];
    var t := TallyOf([x, y]);
    assert [x.similarity] + [y.similarity] == [x.similarity, y.similarity];
    assert t == Tally([x.subgenre], map[x.subgenre := VoteEntry(2, [x.similarity, y.similarity], y.parentGenre, y.prototypeText)]);
    PairMean(x.similarity, y.similarity);
  }

  lemma PairMean(u: real, v: real)
    ensures Mean([u, v]) == (u + v) / 2.0
  {
    assert [u, v][..1] == [u];
    assert Sum([u]) == u by {
      assert [u][..0] == [];
    }
  }


  /** Two genres met once each with equal similarity tie on votes and average,
      so they are ranked in the order of their slots: the ranking depends on the
      order of the chunks. */
  lemma TiesFollowChunkOrder(x: Match, y: Match)
    requires x.subgenre != y.subgenre
    requires x.similarity == y.similarity
    ensures var gx := GenreMatch(x.subgenre, x.parentGenre, x.prototypeText, 1, x.similarity);
      var gy := GenreMatch(y.subgenre, y.parentGenre, y.prototypeText, 1, y.similarity);
      && RankedGenres([x, y]) == [gx, gy]
      && RankedGenres([y, x]) == [gy, gx]
  {
    var gx := GenreMatch(x.subgenre, x.parentGenre, x.prototypeText, 1, x.similarity);
    var gy := GenreMatch(y.subgenre, y.parentGenre, y.prototypeText, 1, y.similarity);
    TwoNamesAverages(x, y);
    TwoNamesAverages(y, x);
    TiedPairKept(gx, gy);
    TiedPairKept(gy, gx);
  }

  /** Two genres of equal rank keep their order in the summary. */
  lemma TiedPairKept(a: GenreMatch, b: GenreMatch)
    requires RankOf(a) == RankOf(b)
    ensures Take(Sort([a, b], RankOf, Outranks), SummaryCount) == [a, b]
  {
    SortTwoTied(a, b, RankOf, Outranks);
    assert [a, b][..2] == [a, b];
  }



  /** The entry of a name met in one slot only. */
  function SoleEntry(m: Match): VoteEntry {
    VoteEntry(1, [m.similarity], m.parentGenre, m.prototypeText)
  }

  lemma SingleSlot(m: Match)
    ensures TallyOf([m]) == Tally([m.subgenre], map[m.subgenre := SoleEntry(m)])
  {
    assert [m][..0] == [];
    assert Fresh.scores + [m.similarity] == [m.similarity];
    assert [] + [m.subgenre] == [m.subgenre];
  }

  /** Two slots of two names give each name one vote and its own score. */
  lemma TwoNamesAverages(x: Match, y: Match)
    requires x.subgenre != y.subgenre
    ensures GenreAverages([x, y]) == [
      GenreMatch(x.subgenre, x.parentGenre, x.prototypeText, 1, x.similarity),
      GenreMatch(y.subgenre, y.parentGenre, y.prototypeText, 1, y.similarity)]
  {
    SingleSlot(x);
    assert [x, y][..1] == [x];
    assert Fresh.scores + [y.similarity] == [y.similarity];
    var t := TallyOf([x, y]);
    assert t.order == [x.subgenre, y.subgenre];
    assert t.entries[x.subgenre] == SoleEntry(x);
    assert t.entries[y.subgenre] == SoleEntry(y);
    SoleMean(x.similarity);
    SoleMean(y.similarity);
  }

  lemma SoleMean(v: real)
    ensures Mean([v]) == v
  {
    assert [v][..0] == [];
    assert Sum([v]) == v;
  }

  /** Sorting two rows of equal key leaves them in place. */
  lemma SortTwoTied<T, K>(a: T, b: T, key: T -> K, ahead: (K, K) -> bool)
    requires !ahead(key(a), key(a))
    requires key(a) == key(b)
    ensures Sort([a, b], key, ahead) == [a, b]
  {
    assert [a, b][1..] == [b];
    assert Sort([b], key, ahead) == [b] by {
      assert [b][1..] == [];
    }
    assert Insert(a, [b], key, ahead) == [a] + [b];
  }
}
