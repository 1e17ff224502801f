# Genre similarity and aggregation, modelled in Dafny

This project models the scripts that tag a book with literary subgenres. The
book is cut into chunks, and each chunk carries an embedding vector. Every
chunk is compared by cosine similarity with every row of a reference table of
subgenres, each of which has its own embedding. The 20 most similar subgenres
form that chunk's ranking.

Four scripts use this ranking:

- `scripts/n8n_calculate_similarity.py` writes one result line per chunk of a chunks file.
- `scripts/calculate_similarity_sqlite.py` does the same for a stream of JSON lines.
- `scripts/similarity_with_aggregation.py` tallies votes across the top-20 lists of all chunks and summarises the book.
- `scripts/import_and_generate_embeddings.py` builds the reference table: it gives every spreadsheet row a prototype text and asks an embedding service for each text's vector.

Modules, in dependency order:

| module | file | what it holds |
|---|---|---|
| `Basics` | basics.dfy | `Option` for absent fields, `Result` and `Error` for the exceptions, `Take` for `s[:n]` |
| `StableSort` | stable_sort.dfy | Python's stable `sort`/`sorted`, with sortedness, permutation, stability and top-`n` proved |
| `Cosine` | cosine.dfy | `cosine_similarity` over mathematical reals, with `sqrt` as a parameter |
| `Ranker` | ranker.dfy | scoring every genre row and keeping the stable top 20 |
| `ChunkReport` | chunk_report.dfy | `calculate_similarity_for_chunk` and the chunk shapes |
| `N8nRunner` | n8n_runner.dfy | the chunk loop of the n8n script |
| `SqliteRunner` | sqlite_runner.dfy | the stdin line loop, with Python's `strip` |
| `VoteTally` | vote_tally.dfy | the `genre_votes` defaultdict and what it holds after any sequence of slots |
| `Aggregation` | aggregation.dfy | the book summary: votes, averages, the two sorts and the detail lines |
| `SubgenreImport` | subgenre_import.dfy | `create_prototype_text`, the column check and the two loops of the importer |

`cosine_similarity` has the same text in all three similarity scripts.
`calculate_similarity_for_chunk` has the same text in the n8n and sqlite
scripts. The aggregation script does not call it: it repeats the same scoring
loop, sort and cut to 20 inline in `main`, with a differently named list and
the dictionary keys in another order, which does not change the behaviour.
Each of these is modelled once. The table cites the copy it was read from.

The loops of the source are methods with `while` loops, each proved equal to a
function: the scoring loop, the two run loops, the vote loop, the averaging
loop, the chunk loop, and the record and embedding loops. The lemmas then
prove the source's promises about those functions. The prototype builder has
no loop, in the source or here. It is a method that appends the optional parts
one `if` at a time and joins them, proved equal to a function.

The list sorts (`similarities.sort`, `chunk_top_genres.sort`,
`chunk_details.sort` and the `sorted` call over the genre averages) are the
pure function `StableSort.Sort`. A method that sorts assigns its result to the
variable that held the list.

## Model

| member | source | states |
|---|---|---|
| Cosine.MismatchFails | scripts/similarity_with_aggregation.py:15-16 | the similarity raises exactly when the vector lengths differ, and the error names both lengths |
| Cosine.Symmetric | scripts/n8n_calculate_similarity.py:14-24 | swapping the arguments gives the same value when the lengths agree, and fails in the same cases otherwise |
| Cosine.DotSymmetric | scripts/n8n_calculate_similarity.py:17 | the dot product does not depend on the order of its arguments |
| Cosine.ZeroVectorSumSquares | scripts/similarity_with_aggregation.py:19-20 | an all-zero vector has squared norm zero |
| Cosine.ZeroVectorGivesZero | scripts/similarity_with_aggregation.py:19-23 | when either vector is all zeros and the lengths agree, the similarity is exactly 0.0 rather than an error |
| Cosine.DotSelf | scripts/similarity_with_aggregation.py:18-19 | a vector's dot product with itself equals its squared norm |
| Cosine.SelfSimilarityIsOne | scripts/similarity_with_aggregation.py:18-25 | a vector of non-zero norm has similarity exactly 1.0 with itself |
| StableSort.SortCorrect | scripts/similarity_with_aggregation.py:81 | the sort returns a permutation of its input, ordered by the key, with rows of equal key in their input order |
| StableSort.TopCorrect | scripts/similarity_with_aggregation.py:81-82 | the first `n` after sorting number `min(n, len)`, are ordered, are drawn from the input, are per key the first input rows with that key, and no row left out precedes a row kept |
| Ranker.FirstMismatch | scripts/n8n_calculate_similarity.py:38-42 | the row whose comparison raises is the first row whose embedding has another length |
| Ranker.HigherIsStrictTotalOrder | scripts/n8n_calculate_similarity.py:52 | `reverse=True` on a similarity is a strict total order |
| Ranker.ScoreGenres | scripts/n8n_calculate_similarity.py:35-49 | the scoring loop succeeds exactly when every row has the chunk's length; it then holds one entry per row in row order, and otherwise reports the first mismatching row |
| Ranker.RankChunk | scripts/n8n_calculate_similarity.py:35-53 | scoring, sorting and truncating give the chunk's ranking |
| Ranker.RankedMatchesCorrect | scripts/n8n_calculate_similarity.py:52-53 | a ranking has `min(N, 20)` entries for `N` rows, is non-increasing in similarity, draws each entry from a row, keeps rows of equal similarity in table order, and never leaves out a row more similar than one kept |
| Ranker.RankedMatchesFails | scripts/calculate_similarity_sqlite.py:38-42 | a ranking fails exactly when some row's length differs, naming the first such row's length |
| ChunkReport.CalculateForChunk | scripts/n8n_calculate_similarity.py:26-61 | the function returns the chunk's report or raises its error |
| ChunkReport.ReportForFields | scripts/n8n_calculate_similarity.py:35-61 | a chunk fails exactly when it has no embedding or a row's length differs; otherwise the defaults are 'Unknown' and 0, the text is cut to its first 500 characters, and the ranking is the chunk's |
| ChunkReport.AsChunkListWraps | scripts/n8n_calculate_similarity.py:75-77 | a list is used as it is, and any other value becomes a one-element list |
| N8nRunner.Run | scripts/n8n_calculate_similarity.py:75-99 | one line per chunk in input order up to the first chunk that raises; the run succeeds exactly when every chunk does, and otherwise ends with the first failing chunk's error |
| SqliteRunner.TrimStartEmpty | scripts/calculate_similarity_sqlite.py:70 | stripping the front leaves nothing exactly when every character is whitespace |
| SqliteRunner.StripEmpty | scripts/calculate_similarity_sqlite.py:70-72 | a line is skipped exactly when all of its characters are whitespace |
| SqliteRunner.NonBlankPrefix | scripts/calculate_similarity_sqlite.py:69-72 | the kept lines of an input prefix are a prefix of the kept lines |
| SqliteRunner.Run | scripts/calculate_similarity_sqlite.py:69-88 | blank lines produce nothing; each other line produces its result in order, up to the first line that fails to decode or raises, whose error ends the run |
| VoteTally.TallyOfValid | scripts/similarity_with_aggregation.py:97-103 | after any slots, every key appears once in key order, and its vote count equals the length of its score list, which is at least 1 |
| VoteTally.LastIndex | scripts/similarity_with_aggregation.py:102-103 | picks the last slot carrying a name, whose parent and prototype the dictionary keeps |
| VoteTally.FirstIndex | scripts/similarity_with_aggregation.py:54 | picks the first slot carrying a name, which fixes its place among the keys |
| VoteTally.AbsentName | scripts/similarity_with_aggregation.py:99-101 | a name that no slot carries has no votes and no scores |
| VoteTally.TallyKeys | scripts/similarity_with_aggregation.py:98-100 | the dictionary's keys are exactly the names carried by the slots |
| VoteTally.TallyEntries | scripts/similarity_with_aggregation.py:97-103 | a name's votes are the number of slots carrying it, its scores are those slots' similarities in order, and its parent and prototype come from the last such slot |
| VoteTally.TallyOrder | scripts/similarity_with_aggregation.py:98-100 | the keys are the distinct names in order of first occurrence |
| VoteTally.DistinctMeaning | scripts/similarity_with_aggregation.py:112 | those distinct names hold every name once, ordered by first occurrence |
| Aggregation.ChunkTops | scripts/similarity_with_aggregation.py:59-82 | every chunk's top 20 in chunk order exactly when no chunk raises, and otherwise the error of the first chunk that raises |
| Aggregation.FirstFailure | scripts/similarity_with_aggregation.py:59-71 | if every chunk before one succeeds and that one raises, the run reports that chunk's error |
| Aggregation.OutranksIsStrictTotalOrder | scripts/similarity_with_aggregation.py:122-126 | `(votes, avg_similarity)` with `reverse=True` is a strict total order |
| Aggregation.EarlierIsStrictTotalOrder | scripts/similarity_with_aggregation.py:129 | ascending chunk number is a strict total order |
| Aggregation.CountVotes | scripts/similarity_with_aggregation.py:98-103 | the vote loop leaves the dictionary that recording the chunk's slots after all earlier slots gives |
| Aggregation.AverageVotes | scripts/similarity_with_aggregation.py:111-119 | the averaging loop yields one entry per key, in key order, with the mean of the scores |
| Aggregation.ScanChunks | scripts/similarity_with_aggregation.py:59-103 | the chunk loop either stops with the error of the first chunk that raises, or leaves every chunk's ranking, one detail line per chunk in chunk order, and the dictionary of all slots in visiting order |
| Aggregation.AggregateBook | scripts/similarity_with_aggregation.py:54-138 | the whole aggregation body yields the summary of the chunk list, or the error of the first chunk that raises |
| Aggregation.SummarizeEmpty | scripts/similarity_with_aggregation.py:132-136 | no chunks give title 'Unknown', zero chunks and two empty lists |
| Aggregation.SummarizeFails | scripts/similarity_with_aggregation.py:60-71 | the run fails exactly when some chunk lacks an embedding or some row's length differs from a chunk's |
| Aggregation.DetailForFields | scripts/similarity_with_aggregation.py:61-95 | a detail line keeps the chunk's number or its 1-based position, the first 150 characters of the text, and the first `min(5, len)` entries of the ranking |
| Aggregation.SummarizeDetails | scripts/similarity_with_aggregation.py:129-136 | one detail line per chunk, `total_chunks` is the number of chunks, the lines are in ascending chunk number, and lines of equal number keep chunk order |
| Aggregation.GenreAveragesMeaning | scripts/similarity_with_aggregation.py:97-119 | the averaged genres are the distinct names in order of first slot, with votes equal to their slot count (at least 1), the mean of their scores, and the last slot's parent and prototype |
| Aggregation.RankedGenresCorrect | scripts/similarity_with_aggregation.py:121-135 | `top_20_genres` has `min(D, 20)` entries for `D` distinct names, descends by votes and then by average, draws each entry from the averaged genres, keeps first-encounter order among ties, and leaves out no genre that outranks one kept |
| Aggregation.BestByRank | scripts/similarity_with_aggregation.py:121-135 | for any list of averaged genres, the first 20 after the sort number `min(len, 20)`, descend by votes and then by average, come from the list, keep list order among ties, and leave out no genre that outranks one kept |
| Aggregation.TwoSlotsExample | scripts/similarity_with_aggregation.py:97-119 | a name in two slots gets 2 votes, the later slot's parent and prototype, and average 0.85 for scores 0.9 and 0.8 |
| Aggregation.SameNameTwice | scripts/similarity_with_aggregation.py:97-119 | two slots of one name give one genre with 2 votes, the mean of both scores, and the later slot's parent and prototype |
| Aggregation.TwoNamesAverages | scripts/similarity_with_aggregation.py:97-119 | two slots of different names give two genres in slot order, each with one vote and its own similarity as average |
| Aggregation.TiesFollowChunkOrder | scripts/similarity_with_aggregation.py:122-126 | for any two slots of different names and equal similarity, both genres get one vote and the same average, and the summary lists them in slot order, so swapping the two slots swaps them in the summary |
| SubgenreImport.Absent | scripts/import_and_generate_embeddings.py:88 | a column is reported missing exactly when it is required and absent |
| SubgenreImport.MissingColumnsExact | scripts/import_and_generate_embeddings.py:87-91 | `missing` is the absent ones of 'Parent Genre' and 'Sub Genre', in that order |
| SubgenreImport.Parts | scripts/import_and_generate_embeddings.py:39-62 | there are 1 to 6 parts, and the head comes first |
| SubgenreImport.JoinAppend | scripts/import_and_generate_embeddings.py:64 | joining one more part appends the separator and the part |
| SubgenreImport.CreatePrototypeText | scripts/import_and_generate_embeddings.py:37-64 | the conditional appends and the join give the joined parts |
| SubgenreImport.PrototypeSections | scripts/import_and_generate_embeddings.py:41-64 | the text is the head followed by '. ' and a tagged section for each present cell, in the fixed order description, key themes, common tropes, synonyms, exemplar prose |
| SubgenreImport.PrototypeHead | scripts/import_and_generate_embeddings.py:42-64 | the text begins with "parent - sub", and is exactly that when no optional cell is present |
| SubgenreImport.BuildRecords | scripts/import_and_generate_embeddings.py:101-113 | one record per row in row order, with the row's names, its prototype text and no embedding |
| SubgenreImport.GenerateEmbeddings | scripts/import_and_generate_embeddings.py:130-140 | each record gets the service's answer when it is truthy and is otherwise unchanged; `failed` lists, in order, the names whose answer was falsy |
| SubgenreImport.SuccessCount | scripts/import_and_generate_embeddings.py:169 | for records without embeddings, the number embedded afterwards is the total minus `len(failed)` |
| SubgenreImport.ImportSubgenres | scripts/import_and_generate_embeddings.py:86-140 | the column check, record building and embedding loop yield the run's outcome |
| SubgenreImport.ImportResultCorrect | scripts/import_and_generate_embeddings.py:86-140 | the run aborts exactly when a required column is missing; otherwise a non-empty sheet gives one record per row with its names and prototype, an embedding exactly when the answer was truthy, and `total - len(failed)` embedded records |

## Left out

- SQLite access, reading and writing files, `json.loads`/`json.dumps`, and the progress and summary prints are left out. The genre table is an input sequence of rows whose embeddings are already decoded. A row whose stored embedding is not valid JSON is therefore not modelled.
- Floating point is left out. Vectors and similarities are mathematical reals, so rounding, NaN and infinities are not modelled. `math.sqrt` is a parameter `sqrt`. A lemma that needs a property of it states that property as a precondition.
- Cosine.SelfSimilarityIsOne: requires a non-zero squared norm, and does not assume a non-zero vector. The step from a non-zero vector to a positive sum of squares is non-linear real arithmetic, and it is not proved here.
- JSON values of unexpected types are not modelled. Examples are a chunk number that is not an integer, a non-string text, and a top-level value that is neither an object nor a list. Chunk fields are typed `Option` values. In the line-based script, a line that does not decode to an object is `MalformedJson`.
- `sys.exit` status is not modelled as process behaviour. A run ends with a `RunLog` of the lines already emitted and the error, if any. The aggregation script emits nothing when it fails, which is the `Err` of its summary.
- The in-place list sorts (`similarities.sort`, `chunk_top_genres.sort`, `chunk_details.sort`) are the pure `StableSort.Sort`, and the result is reassigned. Sorting in place is not modelled. Each list is local to its function and has no other reference, so nothing else can see the change.
- The `processing_complete` field is always true, so it is not kept in `BookSummary`.
- The spreadsheet reader is not modelled. Rows arrive as `SheetRow` values. The two required cells are given as `str` renders them. An optional cell is `None` exactly where `pd.notna` is false.
- An empty sheet makes the importer index `subgenres[0]` and crash (line 120). This is modelled as the outcome `NoRows`.
- `get_embedding` is not modelled; it is the parameter `embed`. `embed` gives the same answer for the same prompt, and a raised request becomes `None`.
- The importer's interactive `input("Continue anyway?")` prompt (line 151) and the final JSON save (lines 157-160) are not modelled. `ImportResult` is the state just before the prompt.
- The summary is not independent of chunk order, and nothing here states that it is. Ties among genres follow first encounter (`Aggregation.TiesFollowChunkOrder`). A genre's parent and prototype come from its last slot. A missing chunk number defaults to the chunk's position.
- scripts/upload_server.py, scripts/serve_subgenres.py, the subgenre loaders, the chunk relays and scripts/generate_subgenre_embeddings.py are not part of this model. They are HTTP, file and subprocess glue.
