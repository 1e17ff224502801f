/** `main` of scripts/n8n_calculate_similarity.py: read the chunks file, wrap a
    single chunk into a list, and write one JSON line per chunk to the results
    file. An exception ends the run; lines already written stay in the file. */
module N8nRunner {
  import opened Basics
  import opened Ranker
  import opened ChunkReport

  /** The run emits the report of every chunk up to the first one that fails,
      in input order; it succeeds exactly when every chunk succeeds, with one
      line per chunk, and otherwise ends with the error of the first failing chunk. */
  method Run(input: ChunksJson, genres: seq<GenreRow>, sqrt: real -> real) returns (log: RunLog)
    ensures var chunks := AsChunkList(input);
      && |log.emitted| <= |chunks|
      && (forall i :: 0 <= i < |log.emitted| ==> ReportFor(chunks[i], genres, sqrt) == Ok(log.emitted[i]))
      && (log.failure.None? <==> |log.emitted| == |chunks|)
      && (log.failure.Some? ==> ReportFor(chunks[|log.emitted|], genres, sqrt) == Err(log.failure.value))
  {
    var chunks := AsChunkList(input);
    var out: seq<ChunkResult> := [];
    var i := 0;
    while i < |chunks|
      invariant 0 <= i <= |chunks|
      invariant |out| == i
      invariant forall j :: 0 <= j < i ==> ReportFor(chunks[j], genres, sqrt) == Ok(out[j])
    {
      var result := CalculateForChunk(chunks[i], genres, sqrt);
      if result.Err? {
        return RunLog(out, Some(result.error));
      }
      out := out + [result.value];
      i := i + 1;
    }
    log := RunLog(out, None);
  }
}
