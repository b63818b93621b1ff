/** Retrieval over the document graph: the three Cypher queries of the
    retriever as relations between a store and the rows it may return (the
    store fixes which rows, not always their order), and the Python loops
    that turn rows into results, merge query variations and assemble the
    answer. */
module Retrieval {
  import opened Records
  import opened GraphStore
  import opened Collections

  /** Minimum similarity for a hit (src/config.py). */
  const SIMILARITY_THRESHOLD: real := 0.7

  /** Default number of hits asked of the index (src/config.py). */
  const TOP_K_RESULTS: nat := 10

  /** One hit of the vector index: a chunk node and its similarity. */
  datatype Hit = Hit(chunkId: string, score: real)

  /** The index returns distinct nodes. */
  predicate DistinctHits(hits: seq<Hit>)
  {
    forall i, j :: 0 <= i < j < |hits| ==> hits[i].chunkId != hits[j].chunkId
  }

  // ---------------------------------------------------------------------
  // The graph patterns the queries match

  /** Documents d with (d:Document)-[:CONTAINS]->(c). */
  function ContainingDocs(g: Graph, c: string): set<string>
  {
    set d | d in g.documents && Edge(Contains, d, c) in g.edges
  }

  /** Sections s with (s:Section)-[:INCLUDES]->(c). */
  function IncludingSections(g: Graph, c: string): set<string>
  {
    set s | s in g.sections && Edge(Includes, s, c) in g.edges
  }

  /** What OPTIONAL MATCH binds s to: each including section, or null when
      there is none. */
  function SectionChoices(g: Graph, c: string): (r: set<Option<string>>)
    ensures r != {}
  {
    var ss := IncludingSections(g, c);
    if ss == {} then {None}
    else
      var opts := set y | y in ss :: Some(y);
      var x :| x in ss;
      assert Some(x) in opts;
      opts
  }

  /** The columns every query returns for one (chunk, document, section)
      binding; the headings are null when no section was bound. The bound
      section's id is kept too, so that two bindings that differ only in
      their section are two rows, as the store returns them; the record
      built from a row does not show it. */
  datatype ChunkRow = ChunkRow(
    chunkId: string, chunk: ChunkAttrs, docId: string, doc: DocAttrs, headings: Option<seq<string>>,
    section: Option<string>)

  function MkRow(g: Graph, c: string, d: string, s: Option<string>): ChunkRow
    requires c in g.chunks && d in g.documents
    requires s.Some? ==> s.value in g.sections
  {
    ChunkRow(c, g.chunks[c], d, g.documents[d],
             if s.Some? then Some(g.sections[s.value].headings) else None, s)
  }

  /** Each binding gives its own row: equal rows come from equal bindings. */
  lemma MkRowInjective(g: Graph, c: string, d: string, s: Option<string>,
                       c': string, d': string, s': Option<string>)
    requires c in g.chunks && d in g.documents && (s.Some? ==> s.value in g.sections)
    requires c' in g.chunks && d' in g.documents && (s'.Some? ==> s'.value in g.sections)
    ensures MkRow(g, c, d, s) == MkRow(g, c', d', s') <==> c == c' && d == d' && s == s'
  {
  }

  lemma SectionChoicesFacts(g: Graph, c: string, s: Option<string>)
    requires s in SectionChoices(g, c)
    ensures s.Some? ==> s.value in IncludingSections(g, c) && s.value in g.sections
    ensures s.None? <==> IncludingSections(g, c) == {}
  {
  }

  /** A row and its position in a list are different things: rows are
      compared as values. */
  predicate DistinctRows<T(==)>(rows: seq<T>)
  {
    forall i, j :: 0 <= i < j < |rows| ==> rows[i] != rows[j]
  }

  function Elements<T>(xs: seq<T>): set<T>
  {
    set i | 0 <= i < |xs| :: xs[i]
  }

  // ---------------------------------------------------------------------
  // vector_search

  datatype SearchRow = SearchRow(row: ChunkRow, score: real)

  function NegScore(r: SearchRow): real
  {
    -r.score
  }

  /** The bindings of the vector_search query: each hit at or above the
      threshold whose chunk a Document CONTAINS, once per containing
      document and per including section (or null). */
  function SearchJoin(g: Graph, hits: seq<Hit>): set<SearchRow>
  {
    set h, d, s | h in hits && h.score >= SIMILARITY_THRESHOLD && h.chunkId in g.chunks
                  && d in ContainingDocs(g, h.chunkId) && s in SectionChoices(g, h.chunkId)
      :: SearchRow(MkRow(g, h.chunkId, d, s), h.score)
  }

  /** The store may return the bindings in any order that is non-increasing
      in score (ORDER BY score DESC), each binding once. */
  predicate IsSearchAnswer(g: Graph, hits: seq<Hit>, rows: seq<SearchRow>)
  {
    Elements(rows) == SearchJoin(g, hits) && DistinctRows(rows) && SortedBy(rows, NegScore)
  }

  /** The record dictionary of a result; a null or empty headings list reads
      as []. */
  datatype ChunkRecord = ChunkRecord(
    chunkId: string, text: string, pageNum: int, bbox: Box, chunkIndex: int,
    docId: string, filename: string, filepath: string, sectionHeadings: seq<string>)

  function ToRecord(r: ChunkRow): ChunkRecord
  {
    ChunkRecord(r.chunkId, r.chunk.text, r.chunk.pageNum, r.chunk.bbox, r.chunk.chunkIndex,
                r.docId, r.doc.filename, r.doc.filepath, r.headings.GetOr([]))
  }

  /** A record whose chunk and document are stored, carrying their
      properties; the headings are [] when no Section INCLUDES the chunk and
      are otherwise [] or the headings of one Section that does. */
  predicate StoredRecord(g: Graph, x: ChunkRecord)
  {
    x.chunkId in g.chunks && x.docId in g.documents
    && x.text == g.chunks[x.chunkId].text && x.pageNum == g.chunks[x.chunkId].pageNum
    && x.bbox == g.chunks[x.chunkId].bbox && x.chunkIndex == g.chunks[x.chunkId].chunkIndex
    && x.filename == g.documents[x.docId].filename && x.filepath == g.documents[x.docId].filepath
    && (IncludingSections(g, x.chunkId) == {} ==> x.sectionHeadings == [])
    && (x.sectionHeadings == []
        || exists s :: s in IncludingSections(g, x.chunkId) && x.sectionHeadings == g.sections[s].headings)
  }

  /** The record of any binding is a stored record. */
  lemma RowRecord(g: Graph, c: string, d: string, s: Option<string>)
    requires c in g.chunks && d in g.documents && s in SectionChoices(g, c)
    requires s.Some? ==> s.value in g.sections
    ensures StoredRecord(g, ToRecord(MkRow(g, c, d, s)))
    ensures ToRecord(MkRow(g, c, d, s)).chunkId == c && ToRecord(MkRow(g, c, d, s)).docId == d
  {
    SectionChoicesFacts(g, c, s);
  }

  datatype SearchResult = SearchResult(rec: ChunkRecord, score: real)

  function ResultNegScore(r: SearchResult): real
  {
    -r.score
  }

  function ResultId(r: SearchResult): string
  {
    r.rec.chunkId
  }

  function ToResult(r: SearchRow): SearchResult
  {
    SearchResult(ToRecord(r.row), r.score)
  }

  function ResultsOf(rows: seq<SearchRow>): (rs: seq<SearchResult>)
    ensures |rs| == |rows|
  {
    seq(|rows|, i requires 0 <= i < |rows| => ToResult(rows[i]))
  }

  /** vector_search: one result dictionary per record, in record order. */
  method VectorSearch(rows: seq<SearchRow>) returns (results: seq<SearchResult>)
    ensures results == ResultsOf(rows)
  {
    results := [];
    for i := 0 to |rows|
      invariant results == ResultsOf(rows[..i])
    {
      assert rows[..i + 1] == rows[..i] + [rows[i]];
      results := results + [ToResult(rows[i])];
    }
    assert rows[..|rows|] == rows;
  }

  lemma SearchRowFacts(g: Graph, hits: seq<Hit>, r: SearchRow)
    requires r in SearchJoin(g, hits)
    ensures r.score >= SIMILARITY_THRESHOLD
    ensures Hit(r.row.chunkId, r.score) in hits
    ensures r.row.chunkId in g.chunks && r.row.chunk == g.chunks[r.row.chunkId]
    ensures r.row.docId in g.documents && r.row.doc == g.documents[r.row.docId]
    ensures Edge(Contains, r.row.docId, r.row.chunkId) in g.edges
    ensures r.row.headings.None? <==> IncludingSections(g, r.row.chunkId) == {}
    ensures r.row.headings.Some? ==>
      exists s :: s in IncludingSections(g, r.row.chunkId) && r.row.headings.value == g.sections[s].headings
    ensures StoredRecord(g, ToRecord(r.row))
  {
    var h, d, s :| h in hits && h.score >= SIMILARITY_THRESHOLD && h.chunkId in g.chunks
                   && d in ContainingDocs(g, h.chunkId) && s in SectionChoices(g, h.chunkId)
                   && r == SearchRow(MkRow(g, h.chunkId, d, s), h.score);
    assert h == Hit(r.row.chunkId, r.score);
    SectionChoicesFacts(g, h.chunkId, s);
    RowRecord(g, h.chunkId, d, s);
    if s.Some? {
      assert s.value in IncludingSections(g, h.chunkId);
    }
  }

  /** Every result is a hit at or above SIMILARITY_THRESHOLD whose chunk a
      Document CONTAINS, carrying that chunk's and that document's
      properties, with [] as headings when no Section INCLUDES the chunk;
      the results are ordered by non-increasing score. */
  lemma VectorSearchSound(g: Graph, hits: seq<Hit>, rows: seq<SearchRow>)
    requires IsSearchAnswer(g, hits, rows)
    ensures var rs := ResultsOf(rows);
      SortedBy(rs, ResultNegScore)
      && forall i :: 0 <= i < |rs| ==>
        var r := rs[i].rec;
        rs[i].score >= SIMILARITY_THRESHOLD
        && Hit(r.chunkId, rs[i].score) in hits
        && r.docId in ContainingDocs(g, r.chunkId) && StoredRecord(g, r)
  {
    var rs := ResultsOf(rows);
    forall i | 0 <= i < |rs|
      ensures rs[i].score >= SIMILARITY_THRESHOLD && Hit(rs[i].rec.chunkId, rs[i].score) in hits
      ensures rs[i].rec.docId in ContainingDocs(g, rs[i].rec.chunkId) && StoredRecord(g, rs[i].rec)
    {
      assert rows[i] in Elements(rows);
      SearchRowFacts(g, hits, rows[i]);
    }
    forall i, j | 0 <= i < j < |rs| ensures ResultNegScore(rs[i]) <= ResultNegScore(rs[j]) {
      assert NegScore(rows[i]) <= NegScore(rows[j]);
    }
  }

  /** Nothing above the threshold is lost: every such hit contained in a
      Document d is returned with d and its score. */
  lemma VectorSearchComplete(g: Graph, hits: seq<Hit>, rows: seq<SearchRow>, h: Hit, d: string)
    requires IsSearchAnswer(g, hits, rows)
    requires h in hits && h.score >= SIMILARITY_THRESHOLD && h.chunkId in g.chunks
    requires d in ContainingDocs(g, h.chunkId)
    ensures exists i :: 0 <= i < |rows| && ResultsOf(rows)[i].rec.chunkId == h.chunkId
                        && ResultsOf(rows)[i].rec.docId == d && ResultsOf(rows)[i].score == h.score
  {
    var cs := SectionChoices(g, h.chunkId);
    var s :| s in cs;
    var r := SearchRow(MkRow(g, h.chunkId, d, s), h.score);
    assert r in SearchJoin(g, hits);
    assert r in Elements(rows);
    var i :| 0 <= i < |rows| && rows[i] == r;
    assert ResultsOf(rows)[i] == ToResult(r);
  }

  /** A hit below the threshold, or one no Document contains, yields no
      result. */
  lemma VectorSearchDrops(g: Graph, hits: seq<Hit>, rows: seq<SearchRow>, h: Hit)
    requires IsSearchAnswer(g, hits, rows) && DistinctHits(hits) && h in hits
    requires h.score < SIMILARITY_THRESHOLD || h.chunkId !in g.chunks || ContainingDocs(g, h.chunkId) == {}
    ensures forall i :: 0 <= i < |rows| ==> ResultsOf(rows)[i].rec.chunkId != h.chunkId
  {
    forall i | 0 <= i < |rows| ensures ResultsOf(rows)[i].rec.chunkId != h.chunkId {
      assert rows[i] in Elements(rows);
      SearchRowFacts(g, hits, rows[i]);
    }
  }

  /** The answer holds one row for each (hit, document, section) binding,
      at exactly one position. */
  lemma SearchRowPerBinding(g: Graph, hits: seq<Hit>, rows: seq<SearchRow>, h: Hit, d: string,
                            s: Option<string>)
    requires IsSearchAnswer(g, hits, rows)
    requires h in hits && h.score >= SIMILARITY_THRESHOLD && h.chunkId in g.chunks
    requires d in ContainingDocs(g, h.chunkId) && s in SectionChoices(g, h.chunkId)
    ensures exists i :: 0 <= i < |rows| && rows[i] == SearchRow(MkRow(g, h.chunkId, d, s), h.score)
    ensures forall i, j :: 0 <= i < |rows| && 0 <= j < |rows|
                           && rows[i] == SearchRow(MkRow(g, h.chunkId, d, s), h.score) && rows[j] == rows[i]
                           ==> i == j
  {
    var r := SearchRow(MkRow(g, h.chunkId, d, s), h.score);
    assert r in SearchJoin(g, hits);
    assert r in Elements(rows);
  }

  /** A PDF uploaded twice: two Documents CONTAIN the chunk and two Sections
      INCLUDE it, so a hit on it comes back as four records, one per
      (document, section) pair, even when the two sections carry the same
      headings. */
  lemma DuplicateUploadRows(g: Graph, hits: seq<Hit>, rows: seq<SearchRow>, h: Hit,
                            d1: string, d2: string, s1: string, s2: string)
    requires IsSearchAnswer(g, hits, rows)
    requires h in hits && h.score >= SIMILARITY_THRESHOLD && h.chunkId in g.chunks
    requires d1 != d2 && d1 in ContainingDocs(g, h.chunkId) && d2 in ContainingDocs(g, h.chunkId)
    requires s1 != s2 && s1 in IncludingSections(g, h.chunkId) && s2 in IncludingSections(g, h.chunkId)
    ensures |rows| >= 4
  {
    assert Some(s1) in SectionChoices(g, h.chunkId) && Some(s2) in SectionChoices(g, h.chunkId);
    var r11 := SearchRow(MkRow(g, h.chunkId, d1, Some(s1)), h.score);
    var r12 := SearchRow(MkRow(g, h.chunkId, d1, Some(s2)), h.score);
    var r21 := SearchRow(MkRow(g, h.chunkId, d2, Some(s1)), h.score);
    var r22 := SearchRow(MkRow(g, h.chunkId, d2, Some(s2)), h.score);
    SearchRowPerBinding(g, hits, rows, h, d1, Some(s1));
    SearchRowPerBinding(g, hits, rows, h, d1, Some(s2));
    SearchRowPerBinding(g, hits, rows, h, d2, Some(s1));
    SearchRowPerBinding(g, hits, rows, h, d2, Some(s2));
    var i11 :| 0 <= i11 < |rows| && rows[i11] == r11;
    var i12 :| 0 <= i12 < |rows| && rows[i12] == r12;
    var i21 :| 0 <= i21 < |rows| && rows[i21] == r21;
    var i22 :| 0 <= i22 < |rows| && rows[i22] == r22;
    assert r11.row.docId != r21.row.docId && r11.row.section != r12.row.section;
    assert r12.row.docId != r22.row.docId && r21.row.section != r22.row.section;
    assert r11.row.docId != r22.row.docId && r12.row.docId != r21.row.docId;
  }

  // ---------------------------------------------------------------------
  // expand_context

  /** NEXT successors and predecessors of a set of chunks. */
  function Succ(g: Graph, s: set<string>): set<string>
  {
    set e | e in g.edges && e.kind == Next && e.src in s && e.dst in g.chunks :: e.dst
  }

  function Pred(g: Graph, s: set<string>): set<string>
  {
    set e | e in g.edges && e.kind == Next && e.dst in s && e.src in g.chunks :: e.src
  }

  /** (t)-[:NEXT*0..k]->(next): chunks reachable from t in at most k hops,
      t itself included. */
  function Forward(g: Graph, t: string, k: nat): set<string>
  {
    if k == 0 then {t} else Forward(g, t, k - 1) + Succ(g, Forward(g, t, k - 1))
  }

  /** (prev)-[:NEXT*1..k]->(t): chunks reaching t in 1 to k hops. */
  function Backward(g: Graph, t: string, k: nat): set<string>
  {
    if k == 0 then {} else Backward(g, t, k - 1) + Pred(g, Backward(g, t, k - 1) + {t})
  }

  /** prev_chunks + [target] + next_chunks */
  function Window(g: Graph, t: string, k: nat): set<string>
  {
    Backward(g, t, k) + {t} + Forward(g, t, k)
  }

  lemma {:induction false} WindowInChunks(g: Graph, t: string, k: nat)
    requires t in g.chunks
    ensures Forward(g, t, k) <= g.chunks.Keys && Backward(g, t, k) <= g.chunks.Keys
  {
    if k > 0 {
      WindowInChunks(g, t, k - 1);
    }
  }

  /** One hop more reaches at least as far. */
  lemma WindowGrowsByOne(g: Graph, t: string, k: nat)
    ensures Window(g, t, k) <= Window(g, t, k + 1)
  {
  }

  lemma {:induction false} WindowMonotone(g: Graph, t: string, k: nat, k': nat)
    requires k <= k'
    ensures Window(g, t, k) <= Window(g, t, k')
    decreases k' - k
  {
    if k < k' {
      WindowGrowsByOne(g, t, k);
      WindowMonotone(g, t, k + 1, k');
    }
  }

  /** With window 1: the target, its NEXT successors and its NEXT
      predecessors. */
  lemma WindowOne(g: Graph, t: string)
    ensures Window(g, t, 1) == {t} + Succ(g, {t}) + Pred(g, {t})
  {
    assert Forward(g, t, 1) == {t} + Succ(g, {t});
    assert Backward(g, t, 1) == Pred(g, {t});
  }

  function ChunkIndexKey(r: ChunkRow): real
  {
    r.chunk.chunkIndex as real
  }

  function RowId(r: ChunkRow): string
  {
    r.chunkId
  }

  /** The bindings of the expand_context query: for every target that is a
      Chunk some Document CONTAINS, every chunk of its window paired with
      that document, then with each including section (or null). */
  function ExpandJoin(g: Graph, targets: seq<string>, k: nat): set<ChunkRow>
  {
    set t, c, d, s | t in targets && t in g.chunks && d in ContainingDocs(g, t)
                     && c in Window(g, t, k) && c in g.chunks && s in SectionChoices(g, c)
      :: MkRow(g, c, d, s)
  }

  /** After WITH DISTINCT chunk, d the rows are ordered by chunkIndex. */
  predicate IsExpandAnswer(g: Graph, targets: seq<string>, k: nat, rows: seq<ChunkRow>)
  {
    Elements(rows) == ExpandJoin(g, targets, k) && DistinctRows(rows) && SortedBy(rows, ChunkIndexKey)
  }

  /** Document d CONTAINS a requested Chunk whose window holds c. */
  predicate Reached(g: Graph, targets: seq<string>, k: nat, d: string, c: string)
  {
    exists t :: t in targets && t in g.chunks && d in ContainingDocs(g, t) && c in Window(g, t, k)
  }

  /** The chunk ids the query can return. */
  function ExpandIds(g: Graph, targets: seq<string>, k: nat): set<string>
  {
    set t, c | t in targets && t in g.chunks && ContainingDocs(g, t) != {}
               && c in Window(g, t, k) && c in g.chunks :: c
  }

  datatype ExpandedChunk = ExpandedChunk(rec: ChunkRecord, isTarget: bool)

  function ExpandedId(x: ExpandedChunk): string
  {
    x.rec.chunkId
  }

  function ExpandedIndexKey(x: ExpandedChunk): real
  {
    x.rec.chunkIndex as real
  }

  function ToExpanded(r: ChunkRow, targets: seq<string>): ExpandedChunk
  {
    ExpandedChunk(ToRecord(r), r.chunkId in targets)
  }

  /** Each row as an expanded-context entry. */
  function ExpandAll(rows: seq<ChunkRow>, targets: seq<string>): (xs: seq<ExpandedChunk>)
    ensures |xs| == |rows|
    ensures forall i :: 0 <= i < |rows| ==> xs[i] == ToExpanded(rows[i], targets)
  {
    if rows == [] then []
    else ExpandAll(rows[..|rows| - 1], targets) + [ToExpanded(rows[|rows| - 1], targets)]
  }

  lemma ExpandAllSnoc(rows: seq<ChunkRow>, r: ChunkRow, targets: seq<string>)
    ensures ExpandAll(rows + [r], targets) == ExpandAll(rows, targets) + [ToExpanded(r, targets)]
  {
    assert (rows + [r])[..|rows|] == rows;
  }

  /** The first row per chunk id, flagged with membership in the targets. */
  function ExpandedOf(rows: seq<ChunkRow>, targets: seq<string>): seq<ExpandedChunk>
  {
    ExpandAll(DedupBy(rows, RowId), targets)
  }

  /** expand_context: the loop over the records with its seen_ids set. */
  method ExpandContext(rows: seq<ChunkRow>, targets: seq<string>) returns (expanded: seq<ExpandedChunk>)
    ensures expanded == ExpandedOf(rows, targets)
  {
    expanded := [];
    var seenIds: set<string> := {};
    ghost var kept: seq<ChunkRow> := [];
    for i := 0 to |rows|
      invariant kept == DedupBy(rows[..i], RowId)
      invariant seenIds == KeySet(rows[..i], RowId)
      invariant expanded == ExpandAll(kept, targets)
    {
      var r := rows[i];
      assert rows[..i + 1] == rows[..i] + [r];
      DedupSnoc(rows[..i], r, RowId);
      KeySetSnoc(rows[..i], r, RowId);
      if r.chunkId !in seenIds {
        seenIds := seenIds + {r.chunkId};
        ExpandAllSnoc(kept, r, targets);
        expanded := expanded + [ExpandedChunk(ToRecord(r), r.chunkId in targets)];
        kept := kept + [r];
      }
    }
    assert rows[..|rows|] == rows;
  }

  lemma ExpandRowFacts(g: Graph, targets: seq<string>, k: nat, r: ChunkRow)
    requires r in ExpandJoin(g, targets, k)
    ensures r.chunkId in g.chunks && r.chunk == g.chunks[r.chunkId]
    ensures r.docId in g.documents && r.doc == g.documents[r.docId]
    ensures r.chunkId in ExpandIds(g, targets, k)
    ensures Reached(g, targets, k, r.docId, r.chunkId) && StoredRecord(g, ToRecord(r))
  {
    var t, c, d, s :| t in targets && t in g.chunks && d in ContainingDocs(g, t)
                      && c in Window(g, t, k) && c in g.chunks && s in SectionChoices(g, c)
                      && r == MkRow(g, c, d, s);
    assert c in ExpandIds(g, targets, k);
    SectionChoicesFacts(g, c, s);
    RowRecord(g, c, d, s);
  }

  lemma ExpandIdRow(g: Graph, targets: seq<string>, k: nat, c: string)
    requires c in ExpandIds(g, targets, k)
    ensures exists r :: r in ExpandJoin(g, targets, k) && r.chunkId == c
  {
    var t :| t in targets && t in g.chunks && ContainingDocs(g, t) != {}
             && c in Window(g, t, k) && c in g.chunks;
    var d :| d in ContainingDocs(g, t);
    var s :| s in SectionChoices(g, c);
    SectionChoicesFacts(g, c, s);
    assert MkRow(g, c, d, s) in ExpandJoin(g, targets, k);
  }

  lemma ExpandedIds(rows: seq<ChunkRow>, targets: seq<string>)
    ensures KeySet(ExpandedOf(rows, targets), ExpandedId) == KeySet(rows, RowId)
  {
    var d := DedupBy(rows, RowId);
    var xs := ExpandedOf(rows, targets);
    forall c | c in KeySet(xs, ExpandedId) ensures c in KeySet(d, RowId) {
      KeySetWitness(xs, ExpandedId, c);
      var i :| 0 <= i < |xs| && ExpandedId(xs[i]) == c;
      assert RowId(d[i]) == c;
    }
    forall c | c in KeySet(d, RowId) ensures c in KeySet(xs, ExpandedId) {
      KeySetWitness(d, RowId, c);
      var i :| 0 <= i < |d| && RowId(d[i]) == c;
      assert ExpandedId(xs[i]) == c;
    }
  }

  /** The expanded context holds each chunk id once, flags exactly the
      requested ids as targets, and is ordered by chunkIndex. */
  lemma ExpandShape(g: Graph, targets: seq<string>, k: nat, rows: seq<ChunkRow>)
    requires IsExpandAnswer(g, targets, k, rows)
    ensures var xs := ExpandedOf(rows, targets);
      (forall i, j :: 0 <= i < j < |xs| ==> xs[i].rec.chunkId != xs[j].rec.chunkId)
      && (forall i :: 0 <= i < |xs| ==> (xs[i].isTarget <==> xs[i].rec.chunkId in targets))
      && SortedBy(xs, ExpandedIndexKey)
  {
    var d := DedupBy(rows, RowId);
    var xs := ExpandedOf(rows, targets);
    DedupSorted(rows, RowId, ChunkIndexKey);
    forall i, j | 0 <= i < j < |xs| ensures ExpandedIndexKey(xs[i]) <= ExpandedIndexKey(xs[j]) {
      assert ChunkIndexKey(d[i]) <= ChunkIndexKey(d[j]);
    }
    forall i, j | 0 <= i < j < |xs| ensures xs[i].rec.chunkId != xs[j].rec.chunkId {
      assert RowId(d[i]) != RowId(d[j]);
    }
  }

  /** The expanded context covers exactly the windows of the targets that
      are Chunks some Document CONTAINS; each entry carries the properties
      of the first record returned for its id. */
  lemma ExpandContents(g: Graph, targets: seq<string>, k: nat, rows: seq<ChunkRow>)
    requires IsExpandAnswer(g, targets, k, rows)
    ensures KeySet(ExpandedOf(rows, targets), ExpandedId) == ExpandIds(g, targets, k)
    ensures forall i :: 0 <= i < |ExpandedOf(rows, targets)| ==>
      var x := ExpandedOf(rows, targets)[i].rec;
      StoredRecord(g, x) && Reached(g, targets, k, x.docId, x.chunkId)
  {
    ExpandedIds(rows, targets);
    ExpandRowIds(g, targets, k, rows);
    ExpandKeptRows(g, targets, k, rows);
  }

  /** The rows carry exactly the chunk ids the query can return. */
  lemma ExpandRowIds(g: Graph, targets: seq<string>, k: nat, rows: seq<ChunkRow>)
    requires IsExpandAnswer(g, targets, k, rows)
    ensures KeySet(rows, RowId) == ExpandIds(g, targets, k)
  {
    forall c | c in KeySet(rows, RowId) ensures c in ExpandIds(g, targets, k) {
      KeySetWitness(rows, RowId, c);
      var i :| 0 <= i < |rows| && RowId(rows[i]) == c;
      assert rows[i] in Elements(rows);
      ExpandRowFacts(g, targets, k, rows[i]);
    }
    forall c | c in ExpandIds(g, targets, k) ensures c in KeySet(rows, RowId) {
      ExpandIdRow(g, targets, k, c);
      var r :| r in ExpandJoin(g, targets, k) && r.chunkId == c;
      assert r in Elements(rows);
      var i :| 0 <= i < |rows| && rows[i] == r;
      assert RowId(rows[i]) == c;
    }
  }

  /** The first row kept per chunk id gives a stored record of a document
      that reached it. */
  lemma ExpandKeptRows(g: Graph, targets: seq<string>, k: nat, rows: seq<ChunkRow>)
    requires IsExpandAnswer(g, targets, k, rows)
    ensures forall i :: 0 <= i < |ExpandedOf(rows, targets)| ==>
      var x := ExpandedOf(rows, targets)[i].rec;
      StoredRecord(g, x) && Reached(g, targets, k, x.docId, x.chunkId)
  {
    var d := DedupBy(rows, RowId);
    var xs := ExpandedOf(rows, targets);
    DedupSubset(rows, RowId);
    forall i | 0 <= i < |xs|
      ensures StoredRecord(g, xs[i].rec) && Reached(g, targets, k, xs[i].rec.docId, xs[i].rec.chunkId)
    {
      assert xs[i].rec == ToRecord(d[i]);
      assert d[i] in rows;
      assert d[i] in Elements(rows);
      ExpandRowFacts(g, targets, k, d[i]);
    }
  }

  lemma ExpandFirstWins(rows: seq<ChunkRow>, targets: seq<string>, i: nat)
    requires i < |ExpandedOf(rows, targets)|
    ensures ExpandedId(ExpandedOf(rows, targets)[i]) in KeySet(rows, RowId)
    ensures ExpandedOf(rows, targets)[i].rec
         == ToRecord(rows[FirstIndex(rows, RowId, ExpandedId(ExpandedOf(rows, targets)[i]))])
  {
    DedupKeepsFirst(rows, RowId, i);
  }

  /** Every target that is a Chunk some Document CONTAINS comes back,
      flagged as a target. */
  lemma ExpandKeepsTargets(g: Graph, targets: seq<string>, k: nat, rows: seq<ChunkRow>, t: string)
    requires IsExpandAnswer(g, targets, k, rows)
    requires t in targets && t in g.chunks && ContainingDocs(g, t) != {}
    ensures exists i :: 0 <= i < |ExpandedOf(rows, targets)| &&
              ExpandedOf(rows, targets)[i].rec.chunkId == t && ExpandedOf(rows, targets)[i].isTarget
  {
    assert t in Window(g, t, k);
    assert t in ExpandIds(g, targets, k);
    ExpandContents(g, targets, k, rows);
    var xs := ExpandedOf(rows, targets);
    KeySetWitness(xs, ExpandedId, t);
    var i :| 0 <= i < |xs| && ExpandedId(xs[i]) == t;
    ExpandShape(g, targets, k, rows);
  }

  /** A wider window returns every chunk a narrower one does. */
  lemma ExpandWindowMonotone(g: Graph, targets: seq<string>, k: nat, k': nat,
                             rows: seq<ChunkRow>, rows': seq<ChunkRow>)
    requires k <= k'
    requires IsExpandAnswer(g, targets, k, rows) && IsExpandAnswer(g, targets, k', rows')
    ensures KeySet(ExpandedOf(rows, targets), ExpandedId) <= KeySet(ExpandedOf(rows', targets), ExpandedId)
  {
    ExpandContents(g, targets, k, rows);
    ExpandContents(g, targets, k', rows');
    forall c | c in ExpandIds(g, targets, k) ensures c in ExpandIds(g, targets, k') {
      var t :| t in targets && t in g.chunks && ContainingDocs(g, t) != {}
               && c in Window(g, t, k) && c in g.chunks;
      WindowMonotone(g, t, k, k');
    }
  }

  // ---------------------------------------------------------------------
  // retrieve_with_context

  function ResultIds(rs: seq<SearchResult>): (ids: seq<string>)
    ensures |ids| == |rs|
  {
    seq(|rs|, i requires 0 <= i < |rs| => rs[i].rec.chunkId)
  }

  /** The per-variation result lists merged: first occurrence per chunk id,
      stable-sorted by descending score, cut to top_k. */
  function MergeVariations(lists: seq<seq<SearchResult>>, topK: nat): (m: seq<SearchResult>)
    ensures |m| <= topK
    ensures forall i :: 0 <= i < |m| ==> m[i] in Flatten(lists)
  {
    var d := DedupBy(Flatten(lists), ResultId);
    var s := SortBy(d, ResultNegScore);
    DedupSubset(Flatten(lists), ResultId);
    SortBySubset(d, ResultNegScore);
    Take(s, topK)
  }

  /** The inner loop: the results of one variation appended past
      seen_chunks. */
  method AppendUnseen(all: seq<SearchResult>, seenChunks: set<string>, ghost before: seq<SearchResult>,
                      results: seq<SearchResult>)
    returns (all': seq<SearchResult>, seenChunks': set<string>)
    requires all == DedupBy(before, ResultId) && seenChunks == KeySet(before, ResultId)
    ensures all' == DedupBy(before + results, ResultId)
    ensures seenChunks' == KeySet(before + results, ResultId)
  {
    all', seenChunks' := all, seenChunks;
    assert before + results[..0] == before;
    for j := 0 to |results|
      invariant all' == DedupBy(before + results[..j], ResultId)
      invariant seenChunks' == KeySet(before + results[..j], ResultId)
    {
      var r := results[j];
      UnseenStep(before, results, j);
      if r.rec.chunkId !in seenChunks' {
        seenChunks' := seenChunks' + {r.rec.chunkId};
        all' := all' + [r];
      }
    }
    assert results[..|results|] == results;
  }

  /** One more result seen by the inner loop. */
  lemma UnseenStep(before: seq<SearchResult>, results: seq<SearchResult>, j: nat)
    requires j < |results|
    ensures var xs := before + results[..j];
      DedupBy(before + results[..j + 1], ResultId)
        == (if results[j].rec.chunkId in KeySet(xs, ResultId) then DedupBy(xs, ResultId)
            else DedupBy(xs, ResultId) + [results[j]])
      && KeySet(before + results[..j + 1], ResultId) == KeySet(xs, ResultId) + {results[j].rec.chunkId}
  {
    var xs := before + results[..j];
    assert before + results[..j + 1] == xs + [results[j]];
    DedupSnoc(xs, results[j], ResultId);
    KeySetSnoc(xs, results[j], ResultId);
  }

  /** The fan-out loop with seen_chunks, the sort and the slice. */
  method MergeResults(lists: seq<seq<SearchResult>>, topK: nat) returns (all: seq<SearchResult>)
    ensures all == MergeVariations(lists, topK)
  {
    all := [];
    var seenChunks: set<string> := {};
    for v := 0 to |lists|
      invariant all == DedupBy(Flatten(lists[..v]), ResultId)
      invariant seenChunks == KeySet(Flatten(lists[..v]), ResultId)
    {
      all, seenChunks := AppendUnseen(all, seenChunks, Flatten(lists[..v]), lists[v]);
      assert lists[..v + 1] == lists[..v] + [lists[v]];
      FlattenSnoc(lists[..v], lists[v]);
    }
    assert lists[..|lists|] == lists;
    all := SortBy(all, ResultNegScore);
    all := Take(all, topK);
  }

  /** The merged list holds each chunk id once, by non-increasing score, at
      most top_k of them, each with the score of its first occurrence. */
  lemma MergeShape(lists: seq<seq<SearchResult>>, topK: nat)
    ensures var m := MergeVariations(lists, topK);
      |m| <= topK
      && SortedBy(m, ResultNegScore)
      && (forall i, j :: 0 <= i < j < |m| ==> m[i].rec.chunkId != m[j].rec.chunkId)
      && forall i :: 0 <= i < |m| ==>
           m[i].rec.chunkId in KeySet(Flatten(lists), ResultId)
           && m[i] == Flatten(lists)[FirstIndex(Flatten(lists), ResultId, m[i].rec.chunkId)]
  {
    var f := Flatten(lists);
    var d := DedupBy(f, ResultId);
    var s := SortBy(d, ResultNegScore);
    var m := Take(s, topK);
    SortBySorted(d, ResultNegScore);
    forall i, j | 0 <= i < j < |m| ensures ResultNegScore(m[i]) <= ResultNegScore(m[j]) {
      assert m[i] == s[i] && m[j] == s[j];
    }
    forall i | 0 <= i < |m|
      ensures m[i].rec.chunkId in KeySet(f, ResultId)
      ensures m[i] == f[FirstIndex(f, ResultId, m[i].rec.chunkId)]
    {
      assert m[i] == s[i];
      assert s[i] in multiset(d);
      var p :| 0 <= p < |d| && d[p] == s[i];
      DedupKeepsFirst(f, ResultId, p);
    }
    SortByDistinct(d, ResultNegScore, ResultId);
    forall i, j | 0 <= i < j < |m| ensures m[i].rec.chunkId != m[j].rec.chunkId {
      assert m[i] == s[i] && m[j] == s[j];
      assert ResultId(s[i]) != ResultId(s[j]);
    }
  }

  /** The slice keeps exactly min(top_k, distinct ids) results, and every
      distinct result it cuts scores no higher than every result it keeps. */
  lemma MergeCut(lists: seq<seq<SearchResult>>, topK: nat)
    ensures var d := DedupBy(Flatten(lists), ResultId);
      var m := MergeVariations(lists, topK);
      |m| == (if |d| <= topK then |d| else topK)
      && forall x, y :: x in d && x !in m && y in m ==> x.score <= y.score
  {
    var d := DedupBy(Flatten(lists), ResultId);
    var s := SortBy(d, ResultNegScore);
    var m := MergeVariations(lists, topK);
    assert m == s[..|m|];
    SortBySorted(d, ResultNegScore);
    SortBySubset(d, ResultNegScore);
    SortedCut(s, |m|, ResultNegScore);
  }

  /** Results of equal score keep their relative order through the sort,
      and the slice keeps the leading ones: for every score, the merged
      results with that score are a prefix of the de-duplicated results
      with that score, which are in order of first occurrence. */
  lemma MergeStable(lists: seq<seq<SearchResult>>, topK: nat, v: real)
    ensures var fm := FilterKey(MergeVariations(lists, topK), ResultNegScore, v);
      var fd := FilterKey(DedupBy(Flatten(lists), ResultId), ResultNegScore, v);
      |fm| <= |fd| && fm == fd[..|fm|]
  {
    var d := DedupBy(Flatten(lists), ResultId);
    var s := SortBy(d, ResultNegScore);
    var m := MergeVariations(lists, topK);
    assert m == s[..|m|];
    SortByStable(d, ResultNegScore, v);
    FilterKeyPrefix(s, |m|, ResultNegScore, v);
  }

  /** When the variations turn up at most top_k distinct chunks, all of
      them are kept. */
  lemma MergeKeepsAll(lists: seq<seq<SearchResult>>, topK: nat)
    requires |DedupBy(Flatten(lists), ResultId)| <= topK
    ensures KeySet(MergeVariations(lists, topK), ResultId) == KeySet(Flatten(lists), ResultId)
  {
    var d := DedupBy(Flatten(lists), ResultId);
    var s := SortBy(d, ResultNegScore);
    assert MergeVariations(lists, topK) == s;
    forall c | c in KeySet(d, ResultId) ensures c in KeySet(s, ResultId) {
      KeySetWitness(d, ResultId, c);
      var i :| 0 <= i < |d| && ResultId(d[i]) == c;
      assert d[i] in multiset(s);
    }
    forall c | c in KeySet(s, ResultId) ensures c in KeySet(d, ResultId) {
      KeySetWitness(s, ResultId, c);
      var i :| 0 <= i < |s| && ResultId(s[i]) == c;
      assert s[i] in multiset(d);
    }
  }

  /** The merge keeps the first score seen for a chunk, not the best one. */
  lemma MergeKeepsFirstScore(rec: ChunkRecord)
    ensures MergeVariations([[SearchResult(rec, 0.75)], [SearchResult(rec, 0.9)]], TOP_K_RESULTS)
         == [SearchResult(rec, 0.75)]
  {
    var a := SearchResult(rec, 0.75);
    var b := SearchResult(rec, 0.9);
    FlattenPair(a, b);
    DedupPair(a, b, ResultId);
    assert SortBy([a], ResultNegScore) == [a];
  }

  lemma FlattenPair<T>(a: T, b: T)
    ensures Flatten([[a], [b]]) == [a, b]
  {
    assert [[a], [b]][..1] == [[a]];
    assert [[a]][..0] == [];
    assert Flatten([[a]]) == Flatten([]) + [a];
  }

  lemma DedupPair<T, K>(a: T, b: T, key: T -> K)
    requires key(a) == key(b)
    ensures DedupBy([a, b], key) == [a]
  {
    assert [a, b][..1] == [a];
    assert [a][..0] == [];
    assert DedupBy([a], key) == [a];
    assert KeySet([a], key) == {key(a)};
  }

  datatype RetrievalResult = RetrievalResult(
    query: string, results: seq<SearchResult>, expandedContext: seq<ExpandedChunk>)

  /** retrieve_with_context. vector_search and expand_context are given as
      functions of their arguments; variations is what the query expansion
      produced, None when anything in the try block raised. */
  method RetrieveWithContext(
    query: string, topK: nat, contextWindow: int, useQueryExpansion: bool,
    variations: Option<seq<string>>,
    search: string -> seq<SearchResult>,
    expand: (seq<string>, nat) -> seq<ExpandedChunk>)
    returns (r: RetrievalResult)
    ensures r.query == query
    ensures !useQueryExpansion || variations.None? ==> r.results == search(query)
    ensures useQueryExpansion && variations.Some? ==>
      r.results == MergeVariations(seq(|variations.value|, i requires 0 <= i < |variations.value| =>
                                         search(variations.value[i])), topK)
    ensures r.results == [] ==> r.expandedContext == []
    ensures r.results != [] && contextWindow > 0 ==>
      r.expandedContext == expand(ResultIds(r.results), contextWindow as nat)
    ensures contextWindow <= 0 ==> r.expandedContext == []
  {
    var allResults: seq<SearchResult>;
    if useQueryExpansion {
      match variations
      case Some(vs) =>
        allResults := MergeResults(seq(|vs|, i requires 0 <= i < |vs| => search(vs[i])), topK);
      case None =>
        allResults := search(query);
    } else {
      allResults := search(query);
    }
    if allResults == [] {
      return RetrievalResult(query, [], []);
    }
    var chunkIds := ResultIds(allResults);
    var expanded: seq<ExpandedChunk> := [];
    if contextWindow > 0 {
      expanded := expand(chunkIds, contextWindow as nat);
    }
    r := RetrievalResult(query, allResults, expanded);
  }

  // ---------------------------------------------------------------------
  // get_chunk_by_id

  /** The bindings of the get_chunk_by_id query. */
  function LookupJoin(g: Graph, c: string): set<ChunkRow>
  {
    set d, s | c in g.chunks && d in ContainingDocs(g, c) && s in SectionChoices(g, c) :: MkRow(g, c, d, s)
  }

  predicate IsLookupAnswer(g: Graph, c: string, rows: seq<ChunkRow>)
  {
    Elements(rows) == LookupJoin(g, c) && DistinctRows(rows)
  }

  /** result.single(): the first record, or None when there is none. */
  function GetChunkById(rows: seq<ChunkRow>): (r: Option<ChunkRecord>)
    ensures r.None? <==> rows == []
    ensures r.Some? ==> exists i :: 0 <= i < |rows| && r.value == ToRecord(rows[i])
  {
    if rows == [] then None else Some(ToRecord(rows[0]))
  }

  /** None exactly when the chunk does not exist or no Document contains it;
      otherwise the chunk's own properties and a containing document. */
  lemma GetChunkByIdSpec(g: Graph, c: string, rows: seq<ChunkRow>)
    requires IsLookupAnswer(g, c, rows)
    ensures GetChunkById(rows).None? <==> c !in g.chunks || ContainingDocs(g, c) == {}
    ensures GetChunkById(rows).Some? ==>
      var x := GetChunkById(rows).value;
      x.chunkId == c && x.docId in ContainingDocs(g, c) && StoredRecord(g, x)
  {
    if c in g.chunks && ContainingDocs(g, c) != {} {
      var d :| d in ContainingDocs(g, c);
      var s :| s in SectionChoices(g, c);
      assert MkRow(g, c, d, s) in LookupJoin(g, c);
    }
    if rows != [] {
      assert rows[0] in Elements(rows);
      var d, s :| c in g.chunks && d in ContainingDocs(g, c) && s in SectionChoices(g, c)
                  && rows[0] == MkRow(g, c, d, s);
      SectionChoicesFacts(g, c, s);
      RowRecord(g, c, d, s);
    }
  }
}
