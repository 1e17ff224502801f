/** `calculate_similarity_for_chunk(conn, chunk_data)`, which
    scripts/n8n_calculate_similarity.py and scripts/calculate_similarity_sqlite.py
    define with the same text, and the shapes of the chunks both scripts read. */
module ChunkReport {
  import opened Basics
  import opened Ranker

  /** A decoded chunk object: every key but `embedding` is read with a default. */
  datatype Chunk = Chunk(
    bookTitle: Option<string>,
    chunkNumber: Option<int>,
    chunkText: Option<string>,
    embedding: Option<seq<real>>)

  /** The top-level JSON value of a chunks file: a list, or a single chunk. */
  datatype ChunksJson = ChunkList(items: seq<Chunk>) | SingleChunk(item: Chunk)

  /** The dictionary returned for one chunk. */
  datatype ChunkResult = ChunkResult(bookTitle: string, chunkNumber: int, chunkText: string, topGenres: seq<Match>)

  /** What a run leaves behind: the result lines emitted in order, and the
      error that ended it, if any (reported as `{"error": ...}` with exit status 1). */
  datatype RunLog = RunLog(emitted: seq<ChunkResult>, failure: Option<Error>) {
    function ExitStatus(): int {
      if failure.None? then 0 else 1
    }
  }

  /** Length of the chunk text kept in a result (`[:500]`). */
  const TextLimit: nat := 500

  /** A list of chunks is used as it is; any other value is wrapped as a one-chunk list. */
  function AsChunkList(j: ChunksJson): seq<Chunk> {
    match j
    case ChunkList(items) => items
    case SingleChunk(item) => [item]
  }

  /** What `calculate_similarity_for_chunk` returns or raises for one chunk. */
  function ReportFor(chunk: Chunk, genres: seq<GenreRow>, sqrt: real -> real): Result<ChunkResult> {
    if chunk.embedding.None? then Err(MissingKey("embedding"))
    else
      match RankedMatches(chunk.embedding.value, genres, sqrt)
      case Err(e) => Err(e)
      case Ok(top) => Ok(ChunkResult(
        chunk.bookTitle.GetOr("Unknown"),
        chunk.chunkNumber.GetOr(0),
        Take(chunk.chunkText.GetOr(""), TextLimit),
        top))
  }

  method CalculateForChunk(chunk: Chunk, genres: seq<GenreRow>, sqrt: real -> real) returns (r: Result<ChunkResult>)
    ensures r == ReportFor(chunk, genres, sqrt)
  {
    if chunk.embedding.None? {
      return Err(MissingKey("embedding"));
    }
    var top20 := RankChunk(chunk.embedding.value, genres, sqrt);
    if top20.Err? {
      return Err(top20.error);
    }
    r := Ok(ChunkResult(
      chunk.bookTitle.GetOr("Unknown"),
      chunk.chunkNumber.GetOr(0),
      Take(chunk.chunkText.GetOr(""), TextLimit),
      top20.value));
  }

  /** A chunk fails exactly when it has no embedding or some row's embedding
      has a different length; otherwise the result takes the defaults
      'Unknown' and 0, keeps the first 500 characters of the text and carries
      the chunk's ranking. */
  lemma ReportForFields(chunk: Chunk, genres: seq<GenreRow>, sqrt: real -> real)
    ensures ReportFor(chunk, genres, sqrt).Err? <==>
      chunk.embedding.None? || exists k :: 0 <= k < |genres| && |genres[k].embedding| != |chunk.embedding.value|
    ensures chunk.embedding.None? ==> ReportFor(chunk, genres, sqrt) == Err(MissingKey("embedding"))
    ensures ReportFor(chunk, genres, sqrt).Ok? ==>
      var r := ReportFor(chunk, genres, sqrt).value;
      var text := chunk.chunkText.GetOr("");
      && r.bookTitle == (if chunk.bookTitle.Some? then chunk.bookTitle.value else "Unknown")
      && r.chunkNumber == (if chunk.chunkNumber.Some? then chunk.chunkNumber.value else 0)
      && |r.chunkText| == Min(|text|, TextLimit)
      && r.chunkText <= text
      && Ok(r.topGenres) == RankedMatches(chunk.embedding.value, genres, sqrt)
  {
    if chunk.embedding.Some? {
      RankedMatchesFails(chunk.embedding.value, genres, sqrt);
    }
  }

  /** A list is used as it is; any other value becomes a one-element list. */
  lemma AsChunkListWraps(j: ChunksJson)
    ensures j.SingleChunk? ==> AsChunkList(j) == [j.item]
    ensures j.ChunkList? ==> AsChunkList(j) == j.items
  {
  }
}
