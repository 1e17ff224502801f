/** The per-chunk ranking: score one chunk's embedding against every row of the
    `subgenres` table, sort by similarity, highest first, and keep the top 20.
    The table is given as the rows the query returns, in that order, with each
    row's embedding already decoded from its JSON text. */
module Ranker {
  import opened Basics
  import opened StableSort
  import Cosine

  /** How many matches a chunk keeps. */
  const TopCount: nat := 20

  /** A row of the subgenre table: its id, parent genre, subgenre, prototype text and embedding. */
  datatype GenreRow = GenreRow(id: int, parentGenre: string, subGenre: string, prototypeText: string, embedding: seq<real>)

  /** One entry of `similarities` / `chunk_top_genres`. */
  datatype Match = Match(subgenre: string, parentGenre: string, prototypeText: string, similarity: real)

  /** Every row's embedding has the chunk embedding's length. */
  predicate Conformant(query: seq<real>, genres: seq<GenreRow>) {
    forall i :: 0 <= i < |genres| ==> |genres[i].embedding| == |query|
  }

  /** The row whose comparison raises: the first one of a different length. */
  function FirstMismatch(query: seq<real>, genres: seq<GenreRow>): (k: nat)
    requires !Conformant(query, genres)
    ensures k < |genres| && |genres[k].embedding| != |query|
    ensures forall i :: 0 <= i < k ==> |genres[i].embedding| == |query|
  {
    if |genres[0].embedding| != |query| then 0
    else
      assert !Conformant(query, genres[1..]) by {
        var j :| 0 <= j < |genres| && |genres[j].embedding| != |query|;
        assert genres[1..][j - 1] == genres[j];
      }
      1 + FirstMismatch(query, genres[1..])
  }

  /** The entry built for one row. */
  function ScoreRow(query: seq<real>, g: GenreRow, sqrt: real -> real): Match
    requires |g.embedding| == |query|
  {
    Match(g.subGenre, g.parentGenre, g.prototypeText, Cosine.CosineValue(query, g.embedding, sqrt))
  }

  /** One entry per row, in row order. */
  function Scored(query: seq<real>, genres: seq<GenreRow>, sqrt: real -> real): seq<Match>
    requires Conformant(query, genres)
  {
    seq(|genres|, i requires 0 <= i < |genres| => ScoreRow(query, genres[i], sqrt))
  }

  function SimilarityOf(m: Match): real { m.similarity }

  /** `reverse=True` on a numeric key: a higher similarity comes first. */
  function Higher(a: real, b: real): bool { a > b }

  lemma HigherIsStrictTotalOrder()
    ensures StrictTotalOrder(Higher)
  {
  }

  /** What one chunk's ranking yields: the error of the first row of the wrong
      length, or the first 20 entries of the stable sort by similarity. */
  function RankedMatches(query: seq<real>, genres: seq<GenreRow>, sqrt: real -> real): Result<seq<Match>> {
    if !Conformant(query, genres) then
      Err(LengthMismatch(|query|, |genres[FirstMismatch(query, genres)].embedding|))
    else
      Ok(Take(Sort(Scored(query, genres, sqrt), SimilarityOf, Higher), TopCount))
  }

  /** The `for genre_row in genres` loop: one `cosine_similarity` call and one
      appended entry per row, stopping at the first row that raises. */
  method ScoreGenres(query: seq<real>, genres: seq<GenreRow>, sqrt: real -> real) returns (r: Result<seq<Match>>)
    ensures r.Ok? <==> Conformant(query, genres)
    ensures r.Ok? ==> |r.value| == |genres|
    ensures r.Ok? ==> forall i :: 0 <= i < |genres| ==> r.value[i] == ScoreRow(query, genres[i], sqrt)
    ensures r.Err? ==> r.error == LengthMismatch(|query|, |genres[FirstMismatch(query, genres)].embedding|)
  {
    var similarities: seq<Match> := [];
    var i := 0;
    while i < |genres|
      invariant 0 <= i <= |genres|
      invariant |similarities| == i
      invariant forall j :: 0 <= j < i ==> |genres[j].embedding| == |query|
      invariant forall j :: 0 <= j < i ==> similarities[j] == ScoreRow(query, genres[j], sqrt)
    {
      var g := genres[i];
      var similarity := Cosine.Similarity(query, g.embedding, sqrt);
      if similarity.Err? {
        ghost var k := FirstMismatch(query, genres);
        assert k == i;
        return Err(similarity.error);
      }
      similarities := similarities + [Match(g.subGenre, g.parentGenre, g.prototypeText, similarity.value)];
      i := i + 1;
    }
    r := Ok(similarities);
  }

  /** Lines that score every row, sort and keep `[:20]`. */
  method RankChunk(query: seq<real>, genres: seq<GenreRow>, sqrt: real -> real) returns (r: Result<seq<Match>>)
    ensures r == RankedMatches(query, genres, sqrt)
  {
    var similarities := ScoreGenres(query, genres, sqrt);
    if similarities.Err? {
      return Err(similarities.error);
    }
    assert similarities.value == Scored(query, genres, sqrt);
    var sorted := Sort(similarities.value, SimilarityOf, Higher);
    r := Ok(Take(sorted, TopCount));
  }

  /** A successful ranking has `min(N, 20)` entries for `N` rows, is ordered by
      non-increasing similarity, draws every entry from a distinct row, keeps
      rows of equal similarity in table order (for every score, the rows kept
      are the first rows of the table with that score), and no row left out
      has a higher similarity than any row kept. */
  lemma RankedMatchesCorrect(query: seq<real>, genres: seq<GenreRow>, sqrt: real -> real)
    requires Conformant(query, genres)
    ensures RankedMatches(query, genres, sqrt).Ok?
    ensures var top := RankedMatches(query, genres, sqrt).value;
      var all := Scored(query, genres, sqrt);
      && |top| == Min(|genres|, TopCount)
      && (forall i, j :: 0 <= i < j < |top| ==> top[i].similarity >= top[j].similarity)
      && multiset(top) <= multiset(all)
      && (forall s :: WithKey(top, SimilarityOf, s) <= WithKey(all, SimilarityOf, s))
      && (forall m, i :: m in multiset(all) - multiset(top) && 0 <= i < |top| ==> m.similarity <= top[i].similarity)
  {
    var all := Scored(query, genres, sqrt);
    var top := Take(Sort(all, SimilarityOf, Higher), TopCount);
    assert RankedMatches(query, genres, sqrt) == Ok(top);
    HigherIsStrictTotalOrder();
    TopCorrect(all, TopCount, SimilarityOf, Higher);
    forall i, j | 0 <= i < j < |top|
      ensures top[i].similarity >= top[j].similarity
    {
      assert !Higher(SimilarityOf(top[j]), SimilarityOf(top[i]));
    }
    forall m, i | m in multiset(all) - multiset(top) && 0 <= i < |top|
      ensures m.similarity <= top[i].similarity
    {
      assert !Higher(SimilarityOf(m), SimilarityOf(top[i]));
    }
  }

  /** A ranking fails exactly when some row's embedding has a different
      length, and then it names the first such row's length. */
  lemma RankedMatchesFails(query: seq<real>, genres: seq<GenreRow>, sqrt: real -> real)
    ensures RankedMatches(query, genres, sqrt).Err? <==> exists k :: 0 <= k < |genres| && |genres[k].embedding| != |query|
    ensures RankedMatches(query, genres, sqrt).Err? ==>
      exists k :: 0 <= k < |genres| && |genres[k].embedding| != |query|
        && (forall i :: 0 <= i < k ==> |genres[i].embedding| == |query|)
        && RankedMatches(query, genres, sqrt).error == LengthMismatch(|query|, |genres[k].embedding|)
  {
    if !Conformant(query, genres) {
      var k := FirstMismatch(query, genres);
    }
  }
}
