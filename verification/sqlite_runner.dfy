/** `main` of scripts/calculate_similarity_sqlite.py: read JSON lines from
    standard input, skip the lines that are blank once stripped, and print one
    result line per remaining line. An exception ends the run; lines already
    printed stand. Decoding a line is the parameter `parse`, which yields `None`
    where `json.loads` raises or the value is not an object. */
module SqliteRunner {
  import opened Basics
  import opened Ranker
  import opened ChunkReport

  /** Python's `str.isspace` for one character. */
  predicate IsSpace(c: char) {
    || ('\t' <= c <= '\r')
    || ('\U{1C}' <= c <= '\U{1F}')
    || c == ' ' || c == '\U{85}' || c == '\U{A0}' || c == '\U{1680}'
    || ('\U{2000}' <= c <= '\U{200A}')
    || c == '\U{2028}' || c == '\U{2029}' || c == '\U{202F}' || c == '\U{205F}' || c == '\U{3000}'
  }

  function TrimStart(s: string): string {
    if s != [] && IsSpace(s[0]) then TrimStart(s[1..]) else s
  }

  function TrimEnd(s: string): string {
    if s != [] && IsSpace(s[|s| - 1]) then TrimEnd(s[..|s| - 1]) else s
  }

  /** A line without its leading and trailing whitespace. */
  function Strip(s: string): string {
    TrimEnd(TrimStart(s))
  }

  ghost predicate AllSpace(s: string) {
    forall i :: 0 <= i < |s| ==> IsSpace(s[i])
  }

  lemma {:induction false} TrimStartEmpty(s: string)
    ensures TrimStart(s) == [] <==> AllSpace(s)
  {
    if s != [] && IsSpace(s[0]) {
      TrimStartEmpty(s[1..]);
      if AllSpace(s[1..]) {
        forall i | 0 <= i < |s| ensures IsSpace(s[i]) {
          if i > 0 { assert s[i] == s[1..][i - 1]; }
        }
      }
    }
  }

  lemma {:induction false} TrimEndKeepsNonSpace(s: string)
    requires s != [] && !IsSpace(s[0])
    ensures TrimEnd(s) != []
  {
    if IsSpace(s[|s| - 1]) {
      TrimEndKeepsNonSpace(s[..|s| - 1]);
    }
  }

  /** A line is skipped exactly when all of its characters are whitespace. */
  lemma StripEmpty(s: string)
    ensures Strip(s) == [] <==> AllSpace(s)
  {
    TrimStartEmpty(s);
    if TrimStart(s) != [] {
      TrimStartNonSpace(s);
      TrimEndKeepsNonSpace(TrimStart(s));
    }
  }

  lemma {:induction false} TrimStartNonSpace(s: string)
    requires TrimStart(s) != []
    ensures !IsSpace(TrimStart(s)[0])
  {
    if s != [] && IsSpace(s[0]) {
      TrimStartNonSpace(s[1..]);
    }
  }

  /** The lines that are not skipped, in input order. */
  function NonBlank(lines: seq<string>): seq<string> {
    if lines == [] then []
    else
      var last := lines[|lines| - 1];
      NonBlank(lines[..|lines| - 1]) + (if Strip(last) == [] then [] else [last])
  }

  /** Earlier lines keep their place among the kept lines. */
  lemma {:induction false} NonBlankPrefix(lines: seq<string>, i: nat)
    requires i <= |lines|
    ensures NonBlank(lines[..i]) <= NonBlank(lines)
  {
    if i < |lines| {
      var n := |lines|;
      assert lines[..n - 1][..i] == lines[..i];
      NonBlankPrefix(lines[..n - 1], i);
    } else {
      assert lines[..i] == lines;
    }
  }

  /** What one kept line yields: a decoding error, or the chunk's report. */
  function LineReport(line: string, genres: seq<GenreRow>, sqrt: real -> real, parse: string -> Option<Chunk>): Result<ChunkResult> {
    match parse(Strip(line))
    case None => Err(MalformedJson)
    case Some(chunk) => ReportFor(chunk, genres, sqrt)
  }

  /** Blank lines produce nothing; every other line produces its result line in
      order, up to the first line that fails, whose error ends the run. */
  method Run(lines: seq<string>, genres: seq<GenreRow>, sqrt: real -> real, parse: string -> Option<Chunk>) returns (log: RunLog)
    ensures var kept := NonBlank(lines);
      && |log.emitted| <= |kept|
      && (forall i :: 0 <= i < |log.emitted| ==> LineReport(kept[i], genres, sqrt, parse) == Ok(log.emitted[i]))
      && (log.failure.None? <==> |log.emitted| == |kept|)
      && (log.failure.Some? ==> LineReport(kept[|log.emitted|], genres, sqrt, parse) == Err(log.failure.value))
  {
    var out: seq<ChunkResult> := [];
    var i := 0;
    while i < |lines|
      invariant 0 <= i <= |lines|
      invariant |out| == |NonBlank(lines[..i])|
      invariant forall j :: 0 <= j < |out| ==> LineReport(NonBlank(lines[..i])[j], genres, sqrt, parse) == Ok(out[j])
    {
      assert lines[..i + 1][..i] == lines[..i];
      var line := Strip(lines[i]);
      if line == [] {
        i := i + 1;
        continue;
      }
      NonBlankPrefix(lines, i + 1);
      var chunk := parse(line);
      if chunk.None? {
        return RunLog(out, Some(MalformedJson));
      }
      var result := CalculateForChunk(chunk.value, genres, sqrt);
      if result.Err? {
        return RunLog(out, Some(result.error));
      }
      out := out + [result.value];
      i := i + 1;
    }
    assert lines[..i] == lines;
    log := RunLog(out, None);
  }
}
