/** The parser and the ingestion put together: what parse_pdf hands to
    ingest_document, and what the NEXT lookup makes of it. The parser
    numbers a chunk by its position among all chunks the chunker produced,
    blank ones included, while the ingestion reads chunk_index as a
    position in the list it got, from which the blank ones are gone. */
module Pipeline {
  import opened Records
  import opened Strings
  import opened GraphStore
  import opened Ingestion
  import opened PdfParser

  /** parse_pdf without the converter: the chunker's chunks, the file's
      path, name and stem, and the converter's title and page count when
      it reports them. */
  function ParsePdf(sha1: Hasher, path: string, name: string, stem: string, title: Option<string>,
                    pageCount: Option<int>, raws: seq<RawChunk>, tokenize: string -> nat): (d: ParsedDoc)
    ensures d.metadata.docId == MakeDocId(sha1, path)
    ensures d.metadata.filename == name && d.metadata.filepath == path
    ensures d.metadata.title == (if title.Some? then title.value else stem)
    ensures d.metadata.pageCount == (if pageCount.Some? then pageCount.value else 0)
    ensures |d.chunks| == NonBlankCount(raws, |raws|) <= |raws|
  {
    var docId := MakeDocId(sha1, path);
    EmittedCount(Builder(sha1, docId, tokenize), raws, |raws|);
    NonBlankAtMost(raws, |raws|);
    ParsedDoc(DocMetadata(docId, name, path, title.GetOr(stem), pageCount.GetOr(0)),
              Emitted(Builder(sha1, docId, tokenize), raws, |raws|))
  }

  /** Every parsed chunk carries the document's id and the stripped text
      of a non-blank chunker chunk, and its chunk_index names that chunk. */
  lemma ParsedChunks(sha1: Hasher, path: string, name: string, stem: string, title: Option<string>,
                     pageCount: Option<int>, raws: seq<RawChunk>, tokenize: string -> nat, p: nat)
    requires p < |ParsePdf(sha1, path, name, stem, title, pageCount, raws, tokenize).chunks|
    ensures var d := ParsePdf(sha1, path, name, stem, title, pageCount, raws, tokenize);
      var c := d.chunks[p];
      d.metadata.docId == MakeDocId(sha1, path) && c.docId == d.metadata.docId
      && p <= c.chunkIndex < |raws| && c.text == Strip(raws[c.chunkIndex].text) && c.text != []
      && (title.None? ==> d.metadata.title == stem)
      && (pageCount.None? ==> d.metadata.pageCount == 0)
  {
    var docId := MakeDocId(sha1, path);
    var build := Builder(sha1, docId, tokenize);
    EmittedAt(build, raws, |raws|, p);
    var c := Emitted(build, raws, |raws|)[p];
    ChunkFacts(sha1, docId, tokenize, raws[c.chunkIndex]);
  }

  /** Without blank chunks the numbering agrees with the list, so the
      NEXT writes form the chain. */
  lemma NoBlankChain(sha1: Hasher, docId: string, tokenize: string -> nat, raws: seq<RawChunk>,
                     meta: DocMetadata, g: Graph)
    requires forall i :: 0 <= i < |raws| ==> !Blank(raws[i])
    ensures var cs := Emitted(Builder(sha1, docId, tokenize), raws, |raws|);
      IndexedByPosition(cs) && !DocumentPlan(sha1, meta, cs).failed
      && KindEdges(Run(g, DocumentPlan(sha1, meta, cs).ops).edges, Next)
         == KindEdges(g.edges, Next) + ChainEdges(cs, |cs|)
  {
    var cs := Emitted(Builder(sha1, docId, tokenize), raws, |raws|);
    NoBlankIndexed(Builder(sha1, docId, tokenize), raws, |raws|);
    BackwardLinksNoFailure(sha1, meta, cs);
    IngestNext(sha1, g, meta, cs);
    NextEdgesChain(cs);
  }

  // ---------------------------------------------------------------------
  // The numbering as written

  const Plain := ChunkMeta([], [])

  /** A blank chunk, then the chunks "A" and "B". */
  const BlankFirst: seq<RawChunk> := [RawChunk("  ", Plain), RawChunk("A", Plain), RawChunk("B", Plain)]

  /** Two blank chunks, then the chunk "A". */
  const TwoBlankFirst: seq<RawChunk> := [RawChunk("", Plain), RawChunk("", Plain), RawChunk("A", Plain)]

  lemma BlankChunks()
    ensures Blank(RawChunk("  ", Plain)) && Blank(RawChunk("", Plain))
    ensures !Blank(RawChunk("A", Plain)) && !Blank(RawChunk("B", Plain))
  {
    assert LStrip("  ") == LStrip(" ") == LStrip("");
    assert LStrip("A") == "A" && RStrip("A") == "A";
    assert LStrip("B") == "B" && RStrip("B") == "B";
  }

  /** After one skipped chunk every lookup chunks[chunk_index - 1] lands on
      the chunk itself: a store without NEXT edges ends with a NEXT
      self-loop on A and one on B, and an edge from A to B only if their
      ids coincide. */
  lemma AsWrittenSelfLoops(sha1: Hasher, docId: string, tokenize: string -> nat, meta: DocMetadata, g: Graph)
    requires KindEdges(g.edges, Next) == {}
    ensures var cs := Emitted(Builder(sha1, docId, tokenize), BlankFirst, 3);
      var next := KindEdges(Run(g, DocumentPlan(sha1, meta, cs).ops).edges, Next);
      |cs| == 2 && cs[0].text == "A" && cs[1].text == "B"
      && next == {Edge(Next, cs[0].chunkId, cs[0].chunkId), Edge(Next, cs[1].chunkId, cs[1].chunkId)}
      && (Edge(Next, cs[0].chunkId, cs[1].chunkId) in next <==> cs[0].chunkId == cs[1].chunkId)
  {
    BlankChunks();
    var build := Builder(sha1, docId, tokenize);
    var cs := Emitted(build, BlankFirst, 3);
    assert Blank(BlankFirst[0]) && !Blank(BlankFirst[1]) && !Blank(BlankFirst[2]);
    assert Emitted(build, BlankFirst, 1) == [];
    assert Emitted(build, BlankFirst, 2) == [build(BlankFirst[1]).(chunkIndex := 1)];
    assert cs == [build(BlankFirst[1]).(chunkIndex := 1), build(BlankFirst[2]).(chunkIndex := 2)];
    ChunkFacts(sha1, docId, tokenize, BlankFirst[1]);
    ChunkFacts(sha1, docId, tokenize, BlankFirst[2]);
    assert Strip(BlankFirst[1].text) == "A" && Strip(BlankFirst[2].text) == "B";
    IngestNext(sha1, g, meta, cs);
    assert NextEdges(cs, 2) == {NextEdge(cs, cs[0]), NextEdge(cs, cs[1])};
  }

  /** After two skipped chunks the lookup is out of range: the call
      raises IndexError while writing the only chunk. */
  lemma AsWrittenIndexError(sha1: Hasher, docId: string, tokenize: string -> nat, meta: DocMetadata)
    ensures var cs := Emitted(Builder(sha1, docId, tokenize), TwoBlankFirst, 3);
      |cs| == 1 && cs[0].chunkIndex == 2 && DocumentPlan(sha1, meta, cs).failed
  {
    BlankChunks();
    var build := Builder(sha1, docId, tokenize);
    var cs := Emitted(build, TwoBlankFirst, 3);
    assert Blank(TwoBlankFirst[0]) && Blank(TwoBlankFirst[1]) && !Blank(TwoBlankFirst[2]);
    assert Emitted(build, TwoBlankFirst, 1) == [];
    assert Emitted(build, TwoBlankFirst, 2) == [];
    assert cs == [build(TwoBlankFirst[2]).(chunkIndex := 2)];
    assert PrevMissing(cs, cs[0]);
    PlanFailsIff(sha1, meta, cs, |cs|);
  }

  // ---------------------------------------------------------------------
  // The numbering the ingestion expects

  /** parse_pdf with chunk_index counted among the emitted chunks. */
  function ParsePdfRenumbered(sha1: Hasher, path: string, name: string, stem: string, title: Option<string>,
                              pageCount: Option<int>, raws: seq<RawChunk>, tokenize: string -> nat): ParsedDoc
  {
    var docId := MakeDocId(sha1, path);
    ParsedDoc(DocMetadata(docId, name, path, title.GetOr(stem), pageCount.GetOr(0)),
              EmittedRenumbered(Builder(sha1, docId, tokenize), raws, |raws|))
  }

  /** With consecutive numbering, whatever the chunker produced: the
      document differs from the as-written one only in chunk_index, the
      ingestion never raises, re-ingesting changes nothing, and with
      distinct ids a store without NEXT edges ends with the N - 1 edges
      between neighbours. */
  lemma RenumberedIngestion(sha1: Hasher, path: string, name: string, stem: string, title: Option<string>,
                            pageCount: Option<int>, raws: seq<RawChunk>, tokenize: string -> nat, g: Graph)
    ensures var d := ParsePdfRenumbered(sha1, path, name, stem, title, pageCount, raws, tokenize);
      var a := ParsePdf(sha1, path, name, stem, title, pageCount, raws, tokenize);
      var ops := DocumentPlan(sha1, d.metadata, d.chunks).ops;
      d.metadata == a.metadata && |d.chunks| == |a.chunks|
      && (forall p :: 0 <= p < |d.chunks| ==> d.chunks[p] == a.chunks[p].(chunkIndex := p))
      && IndexedByPosition(d.chunks)
      && !DocumentPlan(sha1, d.metadata, d.chunks).failed
      && Run(Run(g, ops), ops) == Run(g, ops)
      && (DistinctIds(d.chunks) && |d.chunks| > 0 && KindEdges(g.edges, Next) == {} ==>
            KindEdges(Run(g, ops).edges, Next) == ChainEdges(d.chunks, |d.chunks|)
            && |KindEdges(Run(g, ops).edges, Next)| == |d.chunks| - 1)
  {
    var d := ParsePdfRenumbered(sha1, path, name, stem, title, pageCount, raws, tokenize);
    var build := Builder(sha1, MakeDocId(sha1, path), tokenize);
    RenumberedSpec(build, raws, |raws|);
    assert IndexedByPosition(d.chunks);
    BackwardLinksNoFailure(sha1, d.metadata, d.chunks);
    IngestIdempotent(sha1, g, d.metadata, d.chunks);
    if DistinctIds(d.chunks) && |d.chunks| > 0 && KindEdges(g.edges, Next) == {} {
      IngestNextChain(sha1, g, d.metadata, d.chunks);
    }
  }

  /** On the input that gave self-loops, the renumbered chunks get the one
      edge from A to B. */
  lemma RenumberedBlankFirst(sha1: Hasher, docId: string, tokenize: string -> nat, meta: DocMetadata, g: Graph)
    requires KindEdges(g.edges, Next) == {}
    ensures var cs := EmittedRenumbered(Builder(sha1, docId, tokenize), BlankFirst, 3);
      |cs| == 2 && cs[0].text == "A" && cs[1].text == "B"
      && KindEdges(Run(g, DocumentPlan(sha1, meta, cs).ops).edges, Next)
         == {Edge(Next, cs[0].chunkId, cs[1].chunkId)}
  {
    BlankChunks();
    var build := Builder(sha1, docId, tokenize);
    var cs := EmittedRenumbered(build, BlankFirst, 3);
    assert Blank(BlankFirst[0]) && !Blank(BlankFirst[1]) && !Blank(BlankFirst[2]);
    assert EmittedRenumbered(build, BlankFirst, 1) == [];
    assert EmittedRenumbered(build, BlankFirst, 2) == [build(BlankFirst[1]).(chunkIndex := 0)];
    assert cs == [build(BlankFirst[1]).(chunkIndex := 0), build(BlankFirst[2]).(chunkIndex := 1)];
    ChunkFacts(sha1, docId, tokenize, BlankFirst[1]);
    ChunkFacts(sha1, docId, tokenize, BlankFirst[2]);
    assert Strip(BlankFirst[1].text) == "A" && Strip(BlankFirst[2].text) == "B";
    IngestNext(sha1, g, meta, cs);
    assert NextEdges(cs, 2) == {NextEdge(cs, cs[1])};
  }
}
