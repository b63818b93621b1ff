# docling_neo4j in Dafny

This is a model of the layout-aware retrieval pipeline of docling_neo4j.
PDFs are cut into chunks that keep their page and bounding box. The chunks
are written into a Neo4j graph of `Document`, `Chunk` and `Section` nodes,
joined by `CONTAINS`, `NEXT`, `HAS_SECTION` and `INCLUDES` relationships.
They are retrieved by vector similarity and widened to neighbouring chunks
along `NEXT`. The web layer turns `[chunk_id]` citations in an answer into
links to the PDF viewer.

The model has these modules:

- `Records`: the dictionaries that travel between stages, as datatypes.
  Chunk records, document metadata and parsed documents. The SHA-1 hasher is
  a function parameter of type `Hasher`.
- `Strings`: the Python string built-ins the code relies on: `strip`,
  `lower`, `split`, `replace` of one character, `join` and `str(int)`.
- `Collections`: sequence helpers with their lemmas. First-occurrence
  deduplication, a stable sort by key, `Take` for slicing, and key sets.
- `PdfParser` (`src/pipeline/pdf_parser.py`): chunk and document ids, the
  merged bounding box and page of a chunk (`extract_bbox`), its headings, and
  the chunk loop of `parse_pdf`. The Docling converter and chunker sit outside
  the model; their output is the input (`RawChunk`).
- `GraphStore`: the Neo4j store as a value. It has one map per node label,
  keyed by the label's unique property, and one set of typed edges. A write
  statement is an `Op`. `Apply` gives MERGE/SET/MATCH semantics: a MERGE of
  an edge whose MATCHed endpoints are missing writes nothing. `Run` runs a
  list of statements.
- `Ingestion` (`src/pipeline/neo4j_ingestion.py`):
  - `Plan` lists the statements one `ingest_document` call issues, including
    the point where the predecessor lookup raises `IndexError`.
  - Reference definitions give what the plan writes: `ChunkMap`,
    `FirstSections`, and the four edge sets.
  - The class `Neo4jIngestion` holds the store's state as fields. Its methods
    issue the statements one by one; each is proved to leave
    `Run(old state, plan)`.
  - Also covered: `ingest_documents`, `get_stats`, and the counting lemmas
    behind the statistics.
- `Retrieval` (`src/pipeline/retrieval.py`):
  - Each Cypher query is a relation between the store and the rows it may
    return (`IsSearchAnswer`, `IsExpandAnswer`, `IsLookupAnswer`). The store
    fixes the set of rows; `ORDER BY` fixes only a non-decreasing key.
  - The Python loops over those rows are methods proved against functions.
    These are `vector_search`, `expand_context` with its `seen_ids`, the
    query-variation merge, and `retrieve_with_context`.
- `LlmProcessor` (`src/pipeline/llm_processor.py`): the answer written
  without a model (`_fallback_answer`), the query variations, and the context
  handed to a model. The model call is a parameter.
- `Embeddings` (`src/pipeline/embeddings.py`): attaching vectors to chunks in
  place, with the encoder as a parameter.
- `Api` (`src/api/main.py`): `create_clickable_citations` (a `re.sub` over
  `\[([^\]]+)\]`), written as a left-to-right scan, and the file-name check
  of `upload_pdf`.
- `Pipeline`: the parser and the ingestion composed. It holds the finding
  below.

What the modules take from the code:

- The constants and where they come from:
  - similarity threshold `0.7` and default `top_k` of 10:
    `src/config.py:53-54`;
  - 12 hex characters of SHA-1 in every id, with the prefixes `c` and `doc`,
    and the 160-character text prefix in the chunk id:
    `src/pipeline/pdf_parser.py:37-42`;
  - the prefix `s` and the same 12 hex characters in a section id:
    `src/pipeline/neo4j_ingestion.py:27`.
- The fallback answer uses 200-character truncation and the first three
  results. The model context uses the first five results.
- The variation merge carries the comment "Re-rank by best score"
  (src/pipeline/retrieval.py:154), but the loop above it
  (src/pipeline/retrieval.py:150-152) keeps the first occurrence of each
  chunk, payload and score together, and the sort only reorders those. The
  model follows the code; `Retrieval.MergeKeepsFirstScore` shows the
  difference.
- A query row keeps the Section it was bound to, so that every (hit,
  document, section) binding is its own record, as the store returns them:
  a PDF uploaded twice gives two Documents and two Sections for one chunk,
  and a hit on it comes back four times (`Retrieval.DuplicateUploadRows`).
- The idempotence lemmas (`Ingestion.IngestIdempotent`,
  `GraphStore.RunIdempotent`) assume that every NEXT lookup looks
  backwards. Without that the code is not idempotent: a lookup of a later
  chunk finds no node on the first run and finds it on the second, so the
  second run adds a NEXT edge the first did not. For the parser's output,
  where `chunk_index` strictly increases along the list, one forward lookup
  puts the last chunk's lookup past the end, so such a call also raises
  `IndexError`.

## Model

| member | source | states |
|---|---|---|
| Records.ShortHash | src/pipeline/neo4j_ingestion.py:27 | a truncated digest is 12 lower-case hex characters |
| Strings.StripFacts | src/pipeline/pdf_parser.py:192 | the stripped text is a slice of the input between a whitespace prefix and a whitespace suffix, and neither starts nor ends with whitespace |
| Strings.StripEmptyIff | src/pipeline/pdf_parser.py:192-194 | a chunk text strips to nothing exactly when every character is whitespace |
| Strings.Lower | src/api/main.py:203 | maps each of `A`..`Z` to its lower-case letter and keeps every other character, so the length is kept |
| Strings.Words | src/pipeline/llm_processor.py:155 | `split()` yields only non-empty words without whitespace |
| Strings.WordsJoin | src/pipeline/llm_processor.py:155 | `split()` gives back non-empty whitespace-free words joined by single spaces, so the words are exactly the maximal non-whitespace runs |
| Strings.SplitOn | src/pipeline/llm_processor.py:172 | `split("\n")` yields at least one piece and no piece holds the separator |
| Strings.SplitJoin | src/api/main.py:133 | splitting on a character gives back the parts that were joined with it, when no part holds it |
| PdfParser.MakeChunkId | src/pipeline/pdf_parser.py:35-38 | a chunk id is `c` followed by 12 hex characters |
| PdfParser.ChunkIdUsesPrefix | src/pipeline/pdf_parser.py:37 | two texts on one page that agree on their first 160 characters get the same id |
| PdfParser.MakeDocId | src/pipeline/pdf_parser.py:40-42 | a document id is `doc` followed by 12 hex characters |
| PdfParser.MergeBoxes | src/pipeline/pdf_parser.py:63-71 | the merged box contains every collected box; no boxes give [0, 0, 0, 0] |
| PdfParser.MergeBoxesTight | src/pipeline/pdf_parser.py:64-69 | each side of the merged box is the side of some collected box, so the merged box is the tightest one |
| PdfParser.ProvBoxesSpec | src/pipeline/pdf_parser.py:49-61 | a box is collected exactly when it is the bbox of the first provenance entry of some item |
| PdfParser.LastPageSpec | src/pipeline/pdf_parser.py:47-52 | the page is 1 when no item has provenance; otherwise it is the page of the last item with provenance, 1 when that page is missing |
| PdfParser.ExtractBbox | src/pipeline/pdf_parser.py:44-73 | the loop returns the merge of the collected boxes and the last reported page |
| PdfParser.ExtractHeadings | src/pipeline/pdf_parser.py:75-86 | one string per heading, in order: the text attribute when there is one, the `str()` form otherwise; no headings give [] |
| PdfParser.ParseChunks | src/pipeline/pdf_parser.py:190-218 | the chunk loop returns the records `Emitted` defines: blank chunks are skipped, and `chunk_index` is the position among all chunks |
| PdfParser.EmittedCount | src/pipeline/pdf_parser.py:191-194 | one record per non-blank chunk |
| PdfParser.EmittedAt | src/pipeline/pdf_parser.py:191-218 | record p was built from the non-blank chunk at its `chunk_index`, and that index is at least p |
| PdfParser.EmittedIncreasing | src/pipeline/pdf_parser.py:214 | the `chunk_index` values strictly increase along the list |
| PdfParser.EmittedComplete | src/pipeline/pdf_parser.py:191-218 | every non-blank chunk yields a record |
| PdfParser.ChunkFacts | src/pipeline/pdf_parser.py:196-216 | a record holds the stripped non-empty text, the document id, the id from text and page, the headings, the token count, and box [0, 0, 0, 0] on page 1 without doc_items |
| PdfParser.NoBlankIndexed | src/pipeline/pdf_parser.py:214 | without blank chunks, `chunk_index` is the list position |
| PdfParser.RenumberedSpec | src/pipeline/pdf_parser.py:214 | numbering by emitted position changes only `chunk_index`, which becomes the list position |
| Pipeline.ParsePdf | src/pipeline/pdf_parser.py:163-231 | the metadata holds the path's document id, the file name and path, the title or else the stem, the page count or else 0; one chunk per non-blank chunker chunk |
| Pipeline.ParsedChunks | src/pipeline/pdf_parser.py:163-231 | `parse_pdf` uses the document id of the path; each chunk carries it and the stripped text of the chunk its index names; the title falls back to the stem and the page count to 0 |
| Pipeline.BlankChunks | src/pipeline/pdf_parser.py:192-194 | the inputs of the finding: which chunks count as blank |
| Pipeline.NoBlankChain | src/pipeline/neo4j_ingestion.py:82-92 | without blank chunks the parsed document ingests without error and its NEXT edges link list neighbours |
| Pipeline.AsWrittenSelfLoops | src/pipeline/neo4j_ingestion.py:82-92 | as written, one skipped leading blank chunk gives a NEXT self-loop on each of the two chunks and no edge from A to B unless their ids coincide |
| Pipeline.AsWrittenIndexError | src/pipeline/neo4j_ingestion.py:83-84 | as written, two skipped blank chunks make the lookup `chunks[chunk_index - 1]` raise |
| Pipeline.RenumberedIngestion | src/pipeline/pdf_parser.py:214 | numbered among emitted chunks, any chunker output ingests without error and idempotently; with distinct ids it gives the N - 1 neighbour NEXT edges |
| Pipeline.RenumberedBlankFirst | src/pipeline/pdf_parser.py:214 | on the self-loop input the corrected numbering gives the one edge A to B |
| GraphStore.RunNodes | src/pipeline/neo4j_ingestion.py:33-38 | MERGE plus SET overwrites a node's properties by key: the store's nodes are the old maps updated by the last write of each key |
| GraphStore.RunEdgesBounds | src/pipeline/neo4j_ingestion.py:73-76 | statements never remove edges and add only edges they merge |
| GraphStore.RunWellFormed | src/pipeline/neo4j_ingestion.py:73-76 | MATCH before MERGE keeps every edge between existing nodes of the right labels |
| GraphStore.RunKindEdges | src/pipeline/neo4j_ingestion.py:73-76 | when each merged edge of a kind has its endpoints written beforehand, exactly those edges are added |
| GraphStore.RunIdempotent | src/pipeline/neo4j_ingestion.py:33-130 | running a self-enabled statement list twice leaves the store as running it once |
| Ingestion.MakeSectionId | src/pipeline/neo4j_ingestion.py:24-27 | a section id is `s` followed by 12 hex characters |
| Ingestion.SectionIdOfJoin | src/pipeline/neo4j_ingestion.py:26 | the id depends on the headings only through their `:`-joined form |
| Ingestion.SectionPathsCollide | src/pipeline/neo4j_ingestion.py:26 | the heading path ["a:b"] and the path ["a", "b"] share one Section |
| Ingestion.PlanInduct | src/pipeline/neo4j_ingestion.py:50 | a property kept by every loop iteration holds after n of them |
| Ingestion.AdvanceFailed | src/pipeline/neo4j_ingestion.py:83-84 | an iteration raises if the loop already raised or its own predecessor lookup is out of range; after a raise nothing more is issued |
| Ingestion.PlanFailedStays | src/pipeline/neo4j_ingestion.py:50-84 | once the loop has raised, later chunks add nothing |
| Ingestion.PlanFailsIff | src/pipeline/neo4j_ingestion.py:83-84 | the call raises exactly when some chunk has `chunk_index - 1` past the end of the list |
| Ingestion.BackwardLinksNoFailure | src/pipeline/neo4j_ingestion.py:83-84 | if every `chunk_index` is at most its position plus one, the call never raises |
| Ingestion.PlanDocPuts | src/pipeline/neo4j_ingestion.py:33-45 | the plan writes exactly one Document node, even when it raises |
| Ingestion.PlanChunkPuts | src/pipeline/neo4j_ingestion.py:52-70 | the Chunk nodes written are `ChunkMap`: one per id, the last chunk with that id winning |
| Ingestion.PlanSectionPuts | src/pipeline/neo4j_ingestion.py:94-120 | the Section nodes written are `FirstSections`, and the cache holds exactly their ids |
| Ingestion.PlanEdgeSet | src/pipeline/neo4j_ingestion.py:72-130 | the edges merged are the CONTAINS, NEXT, HAS_SECTION and INCLUDES edge sets of the reference definitions |
| Ingestion.PlanEnabled | src/pipeline/neo4j_ingestion.py:73-130 | every MATCH finds its nodes: always for CONTAINS, HAS_SECTION and INCLUDES, and for NEXT when the lookups look backwards |
| Ingestion.SectionWrittenOnce | src/pipeline/neo4j_ingestion.py:98-120 | the cache makes each Section node and its HAS_SECTION edge be written at most once per call, both the same number of times |
| Ingestion.IngestDocumentNode | src/pipeline/neo4j_ingestion.py:33-45 | afterwards the store holds one Document node for `doc_id` with the metadata's properties; other documents are unchanged |
| Ingestion.IngestChunkNodes | src/pipeline/neo4j_ingestion.py:52-70 | every chunk id gets a node holding the last such chunk's properties; a missing text_for_embedding becomes the text and a missing embedding []; other Chunk nodes are unchanged |
| Ingestion.IngestContains | src/pipeline/neo4j_ingestion.py:73-80 | the new CONTAINS edges are exactly document to each chunk |
| Ingestion.IngestNextAtMost | src/pipeline/neo4j_ingestion.py:82-92 | a new NEXT edge only ever runs from `chunks[chunk_index - 1]` to a chunk with positive `chunk_index` |
| Ingestion.IngestNext | src/pipeline/neo4j_ingestion.py:82-92 | when the lookups look backwards, all of those NEXT edges are added |
| Ingestion.NextEdgesChain | src/pipeline/neo4j_ingestion.py:82-92 | when `chunk_index` is the list position, the NEXT edges link list neighbours |
| Ingestion.ChainCount | src/pipeline/neo4j_ingestion.py:82-92 | with distinct ids the neighbour chain has N - 1 edges |
| Ingestion.IngestNextChain | src/pipeline/neo4j_ingestion.py:82-92 | with the position numbering and distinct ids, a store without NEXT edges ends with exactly the N - 1 neighbour edges |
| Ingestion.IngestSections | src/pipeline/neo4j_ingestion.py:94-130 | Section nodes are the first per id; HAS_SECTION and INCLUDES are added for exactly the chunks with headings |
| Ingestion.IngestIdempotent | src/pipeline/neo4j_ingestion.py:29-130 | with backward lookups, ingesting the same document twice equals ingesting it once |
| Ingestion.BatchDocumentPuts | src/pipeline/neo4j_ingestion.py:132-137 | `ingest_documents` writes one Document node per doc_id, the last metadata winning |
| Ingestion.BatchDocuments | src/pipeline/neo4j_ingestion.py:132-137 | the store's documents afterwards are the old ones updated by those writes |
| Ingestion.BatchFailedStays | src/pipeline/neo4j_ingestion.py:134-136 | after a raising document, the later documents issue nothing |
| Ingestion.BatchEnabled | src/pipeline/neo4j_ingestion.py:132-137 | over a batch of documents with backward lookups, every MATCH finds its nodes |
| Ingestion.BatchIdempotent | src/pipeline/neo4j_ingestion.py:132-137 | re-running a whole batch changes nothing |
| Ingestion.ContainsCount | src/pipeline/neo4j_ingestion.py:73-80 | one CONTAINS edge per distinct chunk id |
| Ingestion.HasSectionIdsCount | src/pipeline/neo4j_ingestion.py:111-118 | one HAS_SECTION edge per distinct section id |
| Ingestion.HasSectionCount | src/pipeline/neo4j_ingestion.py:98-118 | as many HAS_SECTION edges as Section nodes written |
| Ingestion.IngestStats | src/pipeline/neo4j_ingestion.py:141-156 | after ingesting one document into an empty store, the stats show 1 document, chunk and CONTAINS counts equal to the distinct chunk ids, section count equal to the HAS_SECTION count, and N - 1 NEXT edges under position numbering with distinct ids |
| Ingestion.Neo4jIngestion.constructor | src/pipeline/neo4j_ingestion.py:16-19 | a service connected to a store holds that store's state |
| Ingestion.Neo4jIngestion.Execute | src/pipeline/neo4j_ingestion.py:33-130 | one `session.run` changes the state as `Apply` says |
| Ingestion.Neo4jIngestion.IssueSection | src/pipeline/neo4j_ingestion.py:94-130 | issues the section statements of one chunk and returns the updated cache |
| Ingestion.Neo4jIngestion.IssueChunk | src/pipeline/neo4j_ingestion.py:50-130 | the loop body issues `ChunkOps` and reports the IndexError |
| Ingestion.Neo4jIngestion.IngestDocument | src/pipeline/neo4j_ingestion.py:29-130 | `ingest_document` leaves the state `Run(old, DocumentPlan)` and raises exactly when the plan fails |
| Ingestion.Neo4jIngestion.IngestDocuments | src/pipeline/neo4j_ingestion.py:132-139 | `ingest_documents` leaves the state `Run(old, BatchPlan)` and stops at the first raising document |
| Ingestion.Neo4jIngestion.GetStats | src/pipeline/neo4j_ingestion.py:141-156 | node counts per label and relationship counts per type of the current store |
| Retrieval.VectorSearch | src/pipeline/retrieval.py:60-75 | one result per record, in record order |
| Retrieval.MkRowInjective | src/pipeline/retrieval.py:35-52 | two bindings give the same row exactly when chunk, document and section agree |
| Retrieval.RowRecord | src/pipeline/retrieval.py:60-75 | the record of a binding holds its chunk's and document's stored properties, and the headings of its Section or [] |
| Retrieval.VectorSearchSound | src/pipeline/retrieval.py:35-75 | every result is a hit at or above 0.7 whose chunk some Document CONTAINS, with the chunk's and document's stored properties; headings are [] without a Section and otherwise [] or those of a Section that INCLUDES the chunk; scores do not increase |
| Retrieval.VectorSearchComplete | src/pipeline/retrieval.py:35-52 | every hit at or above the threshold in a containing document is returned with that document and its score |
| Retrieval.VectorSearchDrops | src/pipeline/retrieval.py:36-39 | a hit below the threshold, or one no Document contains, yields no result |
| Retrieval.SearchRowPerBinding | src/pipeline/retrieval.py:35-52 | each (hit, containing document, including section or null) binding is at exactly one position of the answer |
| Retrieval.DuplicateUploadRows | src/pipeline/retrieval.py:35-52 | a chunk CONTAINED by two Documents and INCLUDED by two Sections gives at least four records for one hit |
| Retrieval.WindowInChunks | src/pipeline/retrieval.py:85-86 | the NEXT paths of a chunk reach only chunks |
| Retrieval.WindowMonotone | src/pipeline/retrieval.py:85-86 | a wider window contains a narrower one |
| Retrieval.WindowOne | src/pipeline/retrieval.py:85-90 | window 1 is the target, its NEXT successors and its NEXT predecessors |
| Retrieval.ExpandContext | src/pipeline/retrieval.py:108-128 | the `seen_ids` loop keeps the first record per chunk id, flagged with membership in the requested ids |
| Retrieval.ExpandShape | src/pipeline/retrieval.py:87-128 | the expanded context has each id once, flags exactly the requested ids, and is ordered by chunkIndex |
| Retrieval.ExpandContents | src/pipeline/retrieval.py:81-106 | the ids returned are exactly the windows of requested ids that are contained Chunks; each entry holds its chunk's and document's stored properties and section headings as in `StoredRecord`, and its document CONTAINS a requested chunk whose window holds it |
| Retrieval.ExpandFirstWins | src/pipeline/retrieval.py:111-126 | each entry is the first record returned for its id |
| Retrieval.ExpandKeepsTargets | src/pipeline/retrieval.py:83-90 | every requested id that is a contained Chunk comes back flagged as a target |
| Retrieval.ExpandWindowMonotone | src/pipeline/retrieval.py:85-86 | a wider window returns every chunk a narrower one does |
| Retrieval.AppendUnseen | src/pipeline/retrieval.py:147-152 | the inner loop extends the first-occurrence list and the seen set by one variation's results |
| Retrieval.MergeVariations | src/pipeline/retrieval.py:146-156 | at most top_k results, each one of the variations' results |
| Retrieval.MergeResults | src/pipeline/retrieval.py:146-156 | the fan-out loop, the sort and the slice compute `MergeVariations` |
| Retrieval.MergeShape | src/pipeline/retrieval.py:146-156 | the merge returns at most top_k results with distinct ids in non-increasing score order, each the first occurrence of its id |
| Retrieval.MergeCut | src/pipeline/retrieval.py:154-156 | the slice keeps exactly min(top_k, distinct ids) results, and every distinct result it cuts scores no higher than every result it keeps |
| Retrieval.MergeStable | src/pipeline/retrieval.py:146-156 | for every score, the merged results with that score are a prefix of the de-duplicated results with that score, in their order (the sort is stable) |
| Collections.DedupOrder | src/pipeline/retrieval.py:146-152 | the de-duplicated results are in the order of their first occurrence |
| Retrieval.MergeKeepsAll | src/pipeline/retrieval.py:154-156 | with at most top_k distinct ids, none is dropped |
| Retrieval.MergeKeepsFirstScore | src/pipeline/retrieval.py:149-155 | a chunk seen with 0.75 and then 0.9 keeps 0.75 |
| Retrieval.RetrieveWithContext | src/pipeline/retrieval.py:130-187 | single search or merged variations (single search when expansion is off or raised); no results give empty context; context expansion only for a positive window |
| Retrieval.GetChunkById | src/pipeline/retrieval.py:210-224 | None exactly when no record comes back; otherwise the dictionary of one of the records |
| Retrieval.GetChunkByIdSpec | src/pipeline/retrieval.py:189-224 | None exactly when the chunk is missing or no Document contains it; otherwise the requested chunk with its stored properties (text, page, box, index), a containing document's id, file name and path, and [] or the headings of an including Section as headings |
| Api.ChunkMap | src/api/main.py:126 | the map's keys are exactly the ids of the chunks |
| Api.ChunkMapLast | src/api/main.py:126 | the dictionary keeps the last chunk with an id |
| Api.MatchAt | src/api/main.py:137 | a match is `[`, a non-empty run without `]`, then `]` |
| Api.CitationMatches | src/api/main.py:137 | every non-empty bracketed text without `]` is a match |
| Api.SubCitation | src/api/main.py:137 | a leading match goes to the replacer and the scan resumes after it |
| Api.KnownCitation | src/api/main.py:129-134 | a citation of a known chunk becomes its anchor |
| Api.UnknownCitation | src/api/main.py:135 | a citation of an unknown id is copied exactly as matched |
| Api.AnchorText | src/api/main.py:134 | the anchor's visible text is still `[chunk_id]` |
| Api.CreateClickableCitations | src/api/main.py:121-137 | with no chunks, or in a text where no citation matches, the answer comes back unchanged |
| Api.ViewerUrlFields | src/api/main.py:133 | the link starts with the document and page, ends with the chunk id, and holds the joined box values in between |
| Api.ViewerUrlBox | src/api/main.py:133 | when no rendered value holds `,`, the box part of the link splits into the four values l, t, r, b |
| Api.NoBrackets | src/api/main.py:137 | a text in which no citation matches at any position comes back unchanged |
| Api.NoCitationExamples | src/api/main.py:137 | text without `[` holds no citation, and neither does `[]` or an unclosed `[` |
| Api.SubIdentity | src/api/main.py:135-137 | a replacer that returns every match as it was leaves the text unchanged |
| Api.NoChunksIdentity | src/api/main.py:121-137 | with no chunks the answer is unchanged |
| Api.CheckUpload | src/api/main.py:202-208 | status 400 exactly when the lower-cased name does not end in `.pdf`; otherwise the file is saved as `{input}/{uuid}_{name}`: that prefix, that suffix, and nothing between them |
| Api.UploadIgnoresCase | src/api/main.py:203 | names equal up to case get the same verdict |
| LlmProcessor.Truncate | src/pipeline/llm_processor.py:111 | texts over 200 characters keep their first 200 plus `...`; other texts are unchanged |
| LlmProcessor.FallbackAnswer | src/pipeline/llm_processor.py:101-114 | the fixed message without results; otherwise the header and the numbered items joined by newlines |
| LlmProcessor.FallbackShape | src/pipeline/llm_processor.py:106-114 | the header names the query; there is one item per result up to three, numbered from 1, each ending in `[chunk_id]` |
| LlmProcessor.StrippedLines | src/pipeline/llm_processor.py:173 | the kept lines are non-empty stripped reply lines, and every reply line that strips to something non-empty is kept |
| LlmProcessor.StrippedLinesAppend | src/pipeline/llm_processor.py:173 | the comprehension keeps the order of the lines: the lines of a concatenation are the lines of its parts, concatenated |
| LlmProcessor.StrippedLine | src/pipeline/llm_processor.py:173 | one line gives its stripped form, or nothing when that is empty |
| LlmProcessor.GenerateQueryVariations | src/pipeline/llm_processor.py:146-178 | the query comes first and 1 to 4 variations come back; without a client they are the distinct simple rewrites; with OpenAI the others are non-empty reply lines; Ollama or a failed call gives only the query |
| LlmProcessor.BuildContext | src/pipeline/llm_processor.py:44-54 | the context is the entries of the first five results joined by blank lines |
| LlmProcessor.ContextShape | src/pipeline/llm_processor.py:44-52 | each entry opens with `[chunk_id] (Page n, ` and ends with the text; only the first five results count |
| LlmProcessor.GenerateAnswerWithCitations | src/pipeline/llm_processor.py:38-99 | the fallback without a client or results; otherwise the model's reply, or the fallback when the call raises |
| Embeddings.GenerateEmbeddingsBatch | src/pipeline/embeddings.py:38-47 | the empty batch gives [] without calling the encoder; any other batch gives the encoder's vectors |
| Embeddings.WithEmbeddingsSpec | src/pipeline/embeddings.py:63-65 | the zip gives chunk i vector i while both lists last, and changes nothing else |
| Embeddings.EmbeddedSpec | src/pipeline/embeddings.py:49-69 | with one vector per text, every chunk gets the vector of its text_for_embedding (or text), and nothing else changes |
| Embeddings.EmbeddedEmpty | src/pipeline/embeddings.py:51-52 | an empty chunk list comes back unchanged |
| Embeddings.AddEmbeddingsToChunks | src/pipeline/embeddings.py:49-69 | the array afterwards holds `Embedded` of its old contents |
| Embeddings.AddEmbeddingsToDocuments | src/pipeline/embeddings.py:71-79 | each document's chunk list is replaced by its embedded form; its metadata stays |
| Embeddings.DocumentsKeepShape | src/pipeline/embeddings.py:71-79 | an embedded document keeps its metadata and its number of chunks |

## Left out

- The Neo4j driver, sessions and connection settings are not modelled; the store is a value. The uniqueness constraints that src/pipeline/neo4j_setup.py creates are taken as given: an id names at most one node.
- The vector index is not modelled. Its answer to `db.index.vector.queryNodes` (a list of distinct hits with scores) is an input.
- Docling's converter and its HybridChunker, and the tokenizer, are not modelled. Their output (chunk texts, doc items, headings, token counts) is an input.
- SHA-1 is a function parameter. UTF-8 encoding is not modelled.
- File I/O is not modelled. This covers `export_markdown`, `export_chunks`, `parse_directory`'s glob and the upload's file copy; the background task of the upload is left out too.
- HTTP routing, FastAPI models, `get_chunk`, `get_document_pdf`, `check_upload_status` and `health_check` are not modelled.
- The LLM clients are not modelled. A model reply is a parameter (`None` when the call raises). The prompt text goes into the model call, so only the context layout is modelled.
- `extract_query_intent` is left out: without a client it returns a fixed dictionary, and with one it returns whatever the model gives.
- The sentence encoder is not modelled. It is a parameter. The dimension check (`EMBEDDING_DIMENSION = 384`) is left out because it only prints.
- `print` output and timestamps are not modelled.
- Retrieval.GetChunkByIdSpec: `result.single()` also warns when more than one record comes back; the model takes the first record and does not model the warning.
- LlmProcessor.GenerateQueryVariations: `list(set(...))` has no fixed order; the model returns the distinct rewrites in first-occurrence order and states only which strings come back.
- Retrieval.VectorSearchSound: `ORDER BY` leaves the order of equal keys to the store; the model fixes only non-increasing scores (and, for expansion, non-decreasing chunkIndex).
- Api.ViewerUrlBox: Python's `str` of a float is a parameter (`showReal`), so the box values are stated as its results. The default box `[0, 0, 0, 0]` (src/pipeline/pdf_parser.py:71 and 197) holds ints, which Python renders `0,0,0,0`; the model's boxes hold reals, so that box goes through `showReal` like any other.
- Strings.Lower: only `A`..`Z` are lowered. Python's `str.lower` lowers every cased character and can change the length (`İ` becomes two characters). The upload check is not affected: only ASCII characters lower to `.`, `p`, `d` and `f`.
- LlmProcessor.GenerateQueryVariations: because of the ASCII-only `Strings.Lower`, a query with upper-case letters outside ASCII (such as "Über?") gets a different lower-case variation than Python's `query.lower()`.
- Embeddings.AddEmbeddingsToChunks: chunk dictionaries are values in an array, so aliasing between a dictionary in two lists is not modelled.
- Integer widths do not matter here: every number the code computes is a Python int or a float passed through.

## Findings

| source | as written | input that shows it | evidently intended | confidence | as-written member | corrected member |
|---|---|---|---|---|---|---|
| src/pipeline/pdf_parser.py:214 | `chunk_index` is the position among all chunks the chunker produced, blank ones included. `ingest_document` reads it as a position in the list it received, from which the blank ones are gone (`chunks[chunk_index - 1]`, neo4j_ingestion.py:84). | Chunker texts `["  ", "A", "B"]` give NEXT self-loops on A and on B and no edge from A to B. `["", "", "A"]` makes `chunks[1]` raise IndexError. | `chunk_index` counts emitted chunks, so NEXT links list neighbours | high; not executed | Pipeline.AsWrittenSelfLoops, Pipeline.AsWrittenIndexError | Pipeline.RenumberedIngestion, Pipeline.RenumberedBlankFirst |
