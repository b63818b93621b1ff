/** The PDF parser without the converter and the chunker: content-addressed
    identifiers, the merged bounding box and page of a chunk, its headings,
    and the loop that turns the chunker's output into chunk records. */
module PdfParser {
  import opened Records
  import opened Strings

  /** "c" and 12 hex characters of the digest of "{page}:{text[:160]}". */
  function MakeChunkId(sha1: Hasher, text: string, page: int): (id: string)
    ensures |id| == 13 && id[0] == 'c'
    ensures forall i :: 1 <= i < |id| ==> IsHexDigit(id[i])
  {
    var prefix := if |text| <= 160 then text else text[..160];
    "c" + ShortHash(sha1, IntToString(page) + ":" + prefix)
  }

  /** Only the page and the first 160 characters matter: two texts on one
      page that agree on those share an id. */
  lemma ChunkIdUsesPrefix(sha1: Hasher, t1: string, t2: string, page: int)
    requires |t1| >= 160 && |t2| >= 160 && t1[..160] == t2[..160]
    ensures MakeChunkId(sha1, t1, page) == MakeChunkId(sha1, t2, page)
  {
    if |t1| == 160 { assert t1 == t1[..160]; }
    if |t2| == 160 { assert t2 == t2[..160]; }
  }

  /** "doc" and 12 hex characters of the digest of the path string. */
  function MakeDocId(sha1: Hasher, path: string): (id: string)
    ensures |id| == 15 && id[..3] == "doc"
    ensures forall i :: 3 <= i < |id| ==> IsHexDigit(id[i])
  {
    "doc" + ShortHash(sha1, path)
  }

  // ---------------------------------------------------------------------
  // What the chunker hands over

  /** A provenance entry; page_no and bbox may be missing. */
  datatype Prov = Prov(pageNo: Option<int>, bbox: Option<Box>)

  /** A document item; a missing prov attribute reads as no entries. */
  datatype DocItem = DocItem(prov: seq<Prov>)

  /** A heading is an object with a text attribute or anything else, which
      is rendered with str(). */
  datatype Heading = TextHeading(text: string) | OtherHeading(repr: string)

  /** The chunk metadata; missing doc_items or headings read as empty. */
  datatype ChunkMeta = ChunkMeta(docItems: seq<DocItem>, headings: seq<Heading>)

  datatype RawChunk = RawChunk(text: string, meta: ChunkMeta)

  // ---------------------------------------------------------------------
  // extract_bbox

  /** The boxes collected: the bbox of the first provenance entry of every
      item that has one. */
  function ProvBoxes(items: seq<DocItem>): seq<Box>
  {
    if items == [] then []
    else
      var item := items[|items| - 1];
      ProvBoxes(items[..|items| - 1])
      + if item.prov != [] && item.prov[0].bbox.Some? then [item.prov[0].bbox.value] else []
  }

  /** The page reported: that of the first provenance entry of the last
      item that has provenance, 1 when that entry has no page or no item
      has provenance. */
  function LastPage(items: seq<DocItem>): int
  {
    if items == [] then 1
    else
      var item := items[|items| - 1];
      if item.prov != [] then item.prov[0].pageNo.GetOr(1) else LastPage(items[..|items| - 1])
  }

  predicate Inside(b: Box, m: Box)
  {
    m.l <= b.l && b.t <= m.t && b.r <= m.r && m.b <= b.b
  }

  function Min(x: real, y: real): real
  {
    if x <= y then x else y
  }

  function Max(x: real, y: real): real
  {
    if x >= y then x else y
  }

  /** [min l, max t, max r, min b] over the boxes, [0, 0, 0, 0] for none. */
  function MergeBoxes(bs: seq<Box>): (m: Box)
    ensures bs == [] ==> m == ZeroBox
    ensures forall i :: 0 <= i < |bs| ==> Inside(bs[i], m)
  {
    if bs == [] then ZeroBox
    else if |bs| == 1 then bs[0]
    else
      var h := MergeBoxes(bs[..|bs| - 1]);
      var b := bs[|bs| - 1];
      Box(Min(h.l, b.l), Max(h.t, b.t), Max(h.r, b.r), Min(h.b, b.b))
  }

  /** Each side of the merged box is a side of some input box, so it is the
      smallest box containing them all. */
  lemma {:induction false} MergeBoxesTight(bs: seq<Box>)
    requires bs != []
    ensures exists i :: 0 <= i < |bs| && bs[i].l == MergeBoxes(bs).l
    ensures exists i :: 0 <= i < |bs| && bs[i].t == MergeBoxes(bs).t
    ensures exists i :: 0 <= i < |bs| && bs[i].r == MergeBoxes(bs).r
    ensures exists i :: 0 <= i < |bs| && bs[i].b == MergeBoxes(bs).b
  {
    if |bs| > 1 {
      var init := bs[..|bs| - 1];
      var n := |bs| - 1;
      MergeBoxesTight(init);
      var il :| 0 <= il < |init| && init[il].l == MergeBoxes(init).l;
      var it :| 0 <= it < |init| && init[it].t == MergeBoxes(init).t;
      var ir :| 0 <= ir < |init| && init[ir].r == MergeBoxes(init).r;
      var ib :| 0 <= ib < |init| && init[ib].b == MergeBoxes(init).b;
      assert bs[il] == init[il] && bs[it] == init[it] && bs[ir] == init[ir] && bs[ib] == init[ib];
      var m := MergeBoxes(bs);
      assert m.l == bs[il].l || m.l == bs[n].l;
      assert m.t == bs[it].t || m.t == bs[n].t;
      assert m.r == bs[ir].r || m.r == bs[n].r;
      assert m.b == bs[ib].b || m.b == bs[n].b;
    } else {
      assert MergeBoxes(bs) == bs[0];
    }
  }

  /** The boxes collected are exactly the first-provenance boxes. */
  lemma {:induction false} ProvBoxesSpec(items: seq<DocItem>, b: Box)
    ensures b in ProvBoxes(items) <==>
      exists j :: 0 <= j < |items| && items[j].prov != [] && items[j].prov[0].bbox == Some(b)
  {
    if items != [] {
      var n := |items| - 1;
      ProvBoxesSpec(items[..n], b);
      if b in ProvBoxes(items[..n]) {
        var j :| 0 <= j < n && items[..n][j].prov != [] && items[..n][j].prov[0].bbox == Some(b);
        assert items[j] == items[..n][j];
      }
      if exists j :: 0 <= j < |items| && items[j].prov != [] && items[j].prov[0].bbox == Some(b) {
        var j :| 0 <= j < |items| && items[j].prov != [] && items[j].prov[0].bbox == Some(b);
        if j < n {
          assert items[..n][j] == items[j];
        }
      }
    }
  }

  /** The page of the last item with provenance. */
  lemma {:induction false} LastPageAt(items: seq<DocItem>, j: nat)
    requires j < |items| && items[j].prov != []
    requires forall k :: j < k < |items| ==> items[k].prov == []
    ensures LastPage(items) == items[j].prov[0].pageNo.GetOr(1)
  {
    var n := |items| - 1;
    if j < n {
      assert items[n].prov == [];
      var pre := items[..n];
      assert pre[j] == items[j];
      forall k | j < k < n ensures pre[k].prov == [] {
        assert pre[k] == items[k];
      }
      LastPageAt(pre, j);
    }
  }

  /** No item with provenance: page 1. */
  lemma {:induction false} LastPageNone(items: seq<DocItem>)
    requires forall j :: 0 <= j < |items| ==> items[j].prov == []
    ensures LastPage(items) == 1
  {
    if items != [] {
      var pre := items[..|items| - 1];
      forall j | 0 <= j < |pre| ensures pre[j].prov == [] {
        assert pre[j] == items[j];
      }
      LastPageNone(pre);
    }
  }

  /** Page 1 unless some item has provenance; otherwise the page of the
      last such item's first entry. */
  lemma LastPageSpec(items: seq<DocItem>)
    ensures (forall j :: 0 <= j < |items| ==> items[j].prov == []) ==> LastPage(items) == 1
    ensures forall j :: 0 <= j < |items| && items[j].prov != []
                        && (forall k :: j < k < |items| ==> items[k].prov == []) ==>
      LastPage(items) == items[j].prov[0].pageNo.GetOr(1)
  {
    forall j | 0 <= j < |items| && items[j].prov != [] && (forall k :: j < k < |items| ==> items[k].prov == [])
      ensures LastPage(items) == items[j].prov[0].pageNo.GetOr(1)
    {
      LastPageAt(items, j);
    }
    if forall j :: 0 <= j < |items| ==> items[j].prov == [] {
      LastPageNone(items);
    }
  }

  /** extract_bbox: the loop over the items, then the min/max merge. */
  method ExtractBbox(items: seq<DocItem>) returns (bbox: Box, pageNum: int)
    ensures bbox == MergeBoxes(ProvBoxes(items)) && pageNum == LastPage(items)
  {
    var allBboxes: seq<Box> := [];
    pageNum := 1;
    for i := 0 to |items|
      invariant allBboxes == ProvBoxes(items[..i])
      invariant pageNum == LastPage(items[..i])
    {
      var item := items[i];
      assert items[..i + 1] == items[..i] + [item];
      assert (items[..i] + [item])[..i] == items[..i];
      if item.prov != [] {
        var prov := item.prov[0];
        pageNum := prov.pageNo.GetOr(1);
        if prov.bbox.Some? {
          allBboxes := allBboxes + [prov.bbox.value];
        }
      }
    }
    assert items[..|items|] == items;
    bbox := MergeBoxes(allBboxes);
  }

  // ---------------------------------------------------------------------
  // extract_headings

  function HeadingText(h: Heading): string
  {
    match h
    case TextHeading(t) => t
    case OtherHeading(r) => r
  }

  function HeadingsOf(meta: ChunkMeta): (hs: seq<string>)
    ensures |hs| == |meta.headings|
  {
    seq(|meta.headings|, i requires 0 <= i < |meta.headings| => HeadingText(meta.headings[i]))
  }

  /** extract_headings: one string per heading, in order. */
  method ExtractHeadings(meta: ChunkMeta) returns (headings: seq<string>)
    ensures |headings| == |meta.headings|
    ensures forall i :: 0 <= i < |headings| ==> headings[i] == HeadingText(meta.headings[i])
    ensures meta.headings == [] ==> headings == []
  {
    headings := [];
    for i := 0 to |meta.headings|
      invariant |headings| == i
      invariant forall j :: 0 <= j < i ==> headings[j] == HeadingText(meta.headings[j])
    {
      headings := headings + [HeadingText(meta.headings[i])];
    }
  }

  // ---------------------------------------------------------------------
  // The chunk loop of parse_pdf

  /** The record the loop builds for one chunk, with chunk_index still
      0; the loop then sets it. */
  function BaseChunk(sha1: Hasher, docId: string, tokenize: string -> nat, raw: RawChunk): ChunkData
  {
    var text := Strip(raw.text);
    var items := raw.meta.docItems;
    var bbox := if items != [] then MergeBoxes(ProvBoxes(items)) else ZeroBox;
    var page := if items != [] then LastPage(items) else 1;
    ChunkData(MakeChunkId(sha1, text, page), docId, text, page, bbox, HeadingsOf(raw.meta),
              0, tokenize(text), None, None)
  }

  /** The chunk builder of one document, as a function of the chunk. */
  function Builder(sha1: Hasher, docId: string, tokenize: string -> nat): RawChunk -> ChunkData
  {
    raw => BaseChunk(sha1, docId, tokenize, raw)
  }

  /** The chunker's chunk number i is blank: it strips to nothing. */
  predicate Blank(raw: RawChunk)
  {
    Strip(raw.text) == []
  }

  /** The records emitted for the chunker's first n chunks: blank chunks
      are skipped, and chunk_index is the position among ALL of them. */
  function Emitted(build: RawChunk -> ChunkData, raws: seq<RawChunk>, n: nat): seq<ChunkData>
    requires n <= |raws|
  {
    if n == 0 then []
    else
      Emitted(build, raws, n - 1)
      + if Blank(raws[n - 1]) then [] else [build(raws[n - 1]).(chunkIndex := n - 1)]
  }

  /** The record built for a non-blank chunk at loop position idx. */
  method BuildChunk(sha1: Hasher, docId: string, tokenize: string -> nat, raw: RawChunk,
                    chunkText: string, idx: nat) returns (chunkData: ChunkData)
    requires chunkText == Strip(raw.text)
    ensures chunkData == BaseChunk(sha1, docId, tokenize, raw).(chunkIndex := idx)
  {
    var bbox := ZeroBox;
    var pageNum := 1;
    if raw.meta.docItems != [] {
      bbox, pageNum := ExtractBbox(raw.meta.docItems);
    }
    var headings := ExtractHeadings(raw.meta);
    chunkData := ChunkData(MakeChunkId(sha1, chunkText, pageNum), docId, chunkText, pageNum, bbox,
                           headings, idx, tokenize(chunkText), None, None);
  }

  /** One iteration of the chunk loop: strip chunk idx, skip it when
      blank, otherwise build its record and append it. */
  method EmitChunk(sha1: Hasher, docId: string, tokenize: string -> nat, raws: seq<RawChunk>, idx: nat,
                   chunks: seq<ChunkData>) returns (chunks': seq<ChunkData>)
    requires idx < |raws| && chunks == Emitted(Builder(sha1, docId, tokenize), raws, idx)
    ensures chunks' == Emitted(Builder(sha1, docId, tokenize), raws, idx + 1)
  {
    var raw := raws[idx];
    var chunkText := Strip(raw.text);
    if chunkText == [] {
      EmittedStep(Builder(sha1, docId, tokenize), raws, idx, []);
      return chunks;
    }
    var chunkData := BuildChunk(sha1, docId, tokenize, raw, chunkText, idx);
    EmittedStep(Builder(sha1, docId, tokenize), raws, idx, [chunkData]);
    chunks' := chunks + [chunkData];
  }

  /** The chunk loop: enumerate, strip, skip, build, append. */
  method ParseChunks(sha1: Hasher, docId: string, raws: seq<RawChunk>, tokenize: string -> nat)
    returns (chunks: seq<ChunkData>)
    ensures chunks == Emitted(Builder(sha1, docId, tokenize), raws, |raws|)
  {
    chunks := [];
    for idx := 0 to |raws|
      invariant chunks == Emitted(Builder(sha1, docId, tokenize), raws, idx)
    {
      chunks := EmitChunk(sha1, docId, tokenize, raws, idx, chunks);
    }
  }

  /** One step of Emitted, with the record appended for chunk n given. */
  lemma EmittedStep(build: RawChunk -> ChunkData, raws: seq<RawChunk>, n: nat, c: seq<ChunkData>)
    requires n < |raws|
    requires Blank(raws[n]) ==> c == []
    requires !Blank(raws[n]) ==> c == [build(raws[n]).(chunkIndex := n)]
    ensures Emitted(build, raws, n + 1) == Emitted(build, raws, n) + c
  {
  }

  function NonBlankCount(raws: seq<RawChunk>, n: nat): nat
    requires n <= |raws|
  {
    if n == 0 then 0 else NonBlankCount(raws, n - 1) + if Blank(raws[n - 1]) then 0 else 1
  }

  lemma {:induction false} NonBlankAtMost(raws: seq<RawChunk>, n: nat)
    requires n <= |raws|
    ensures NonBlankCount(raws, n) <= n
  {
    if n > 0 {
      NonBlankAtMost(raws, n - 1);
    }
  }

  /** One record per non-blank chunk. */
  lemma {:induction false} EmittedCount(build: RawChunk -> ChunkData, raws: seq<RawChunk>, n: nat)
    requires n <= |raws|
    ensures |Emitted(build, raws, n)| == NonBlankCount(raws, n)
  {
    if n > 0 {
      EmittedCount(build, raws, n - 1);
    }
  }

  /** Every emitted record is the record built for the chunker's chunk at
      its chunk_index, which is non-blank, and the index is never smaller
      than the list position. */
  lemma {:induction false} EmittedAt(build: RawChunk -> ChunkData, raws: seq<RawChunk>, n: nat, p: nat)
    requires n <= |raws| && p < |Emitted(build, raws, n)|
    ensures var c := Emitted(build, raws, n)[p];
      0 <= c.chunkIndex < n && p <= c.chunkIndex && !Blank(raws[c.chunkIndex])
      && c == build(raws[c.chunkIndex]).(chunkIndex := c.chunkIndex)
  {
    var init := Emitted(build, raws, n - 1);
    if p < |init| {
      EmittedAt(build, raws, n - 1, p);
    } else {
      EmittedCount(build, raws, n - 1);
      NonBlankAtMost(raws, n - 1);
    }
  }

  /** The emitted indices strictly increase. */
  lemma {:induction false} EmittedIncreasing(build: RawChunk -> ChunkData, raws: seq<RawChunk>, n: nat, p: nat, q: nat)
    requires n <= |raws| && p < q < |Emitted(build, raws, n)|
    ensures Emitted(build, raws, n)[p].chunkIndex < Emitted(build, raws, n)[q].chunkIndex
  {
    var init := Emitted(build, raws, n - 1);
    if q < |init| {
      EmittedIncreasing(build, raws, n - 1, p, q);
    } else {
      EmittedAt(build, raws, n - 1, p);
    }
  }

  /** No non-blank chunk is lost. */
  lemma {:induction false} EmittedComplete(build: RawChunk -> ChunkData, raws: seq<RawChunk>, n: nat, i: nat)
    requires i < n <= |raws| && !Blank(raws[i])
    ensures exists p :: 0 <= p < |Emitted(build, raws, n)| && Emitted(build, raws, n)[p].chunkIndex == i
  {
    var cs := Emitted(build, raws, n);
    var init := Emitted(build, raws, n - 1);
    if i < n - 1 {
      EmittedComplete(build, raws, n - 1, i);
      var p :| 0 <= p < |init| && init[p].chunkIndex == i;
      assert cs[p] == init[p];
    } else {
      assert cs[|init|].chunkIndex == n - 1;
    }
  }

  /** The fields of a built record: the stripped text, the document's id,
      the id computed from text and page, headings in order, and box
      [0, 0, 0, 0] on page 1 when the chunk has no doc_items. */
  lemma ChunkFacts(sha1: Hasher, docId: string, tokenize: string -> nat, raw: RawChunk)
    requires !Blank(raw)
    ensures var c := Builder(sha1, docId, tokenize)(raw);
      c.text == Strip(raw.text) && c.text != [] && c.docId == docId
      && c.chunkId == MakeChunkId(sha1, c.text, c.pageNum)
      && c.headings == HeadingsOf(raw.meta) && c.tokenCount == tokenize(c.text)
      && (raw.meta.docItems == [] ==> c.bbox == ZeroBox && c.pageNum == 1)
      && (raw.meta.docItems != [] ==> c.pageNum == LastPage(raw.meta.docItems)
                                      && c.bbox == MergeBoxes(ProvBoxes(raw.meta.docItems)))
      && c.textForEmbedding.None? && c.embedding.None?
  {
  }

  /** Without blank chunks chunk_index is the list position. */
  lemma {:induction false} NoBlankIndexed(build: RawChunk -> ChunkData, raws: seq<RawChunk>, n: nat)
    requires n <= |raws|
    requires forall i :: 0 <= i < n ==> !Blank(raws[i])
    ensures |Emitted(build, raws, n)| == n
    ensures forall p :: 0 <= p < n ==> Emitted(build, raws, n)[p].chunkIndex == p
  {
    if n > 0 {
      NoBlankIndexed(build, raws, n - 1);
    }
  }

  // ---------------------------------------------------------------------
  // Numbering by emitted position

  /** The same records numbered by their position in the emitted list. */
  function EmittedRenumbered(build: RawChunk -> ChunkData, raws: seq<RawChunk>, n: nat): seq<ChunkData>
    requires n <= |raws|
  {
    if n == 0 then []
    else
      var init := EmittedRenumbered(build, raws, n - 1);
      init + if Blank(raws[n - 1]) then [] else [build(raws[n - 1]).(chunkIndex := |init|)]
  }

  /** Renumbering changes chunk_index and nothing else, and makes it the
      list position. */
  lemma {:induction false} RenumberedSpec(build: RawChunk -> ChunkData, raws: seq<RawChunk>, n: nat)
    requires n <= |raws|
    ensures var a := Emitted(build, raws, n);
      var b := EmittedRenumbered(build, raws, n);
      |b| == |a| && forall p :: 0 <= p < |a| ==> b[p] == a[p].(chunkIndex := p)
  {
    if n > 0 {
      RenumberedSpec(build, raws, n - 1);
      var a := Emitted(build, raws, n);
      var b := EmittedRenumbered(build, raws, n);
      var ia := Emitted(build, raws, n - 1);
      var ib := EmittedRenumbered(build, raws, n - 1);
      forall p | 0 <= p < |a| ensures b[p] == a[p].(chunkIndex := p) {
        if p < |ia| {
          assert a[p] == ia[p] && b[p] == ib[p];
        }
      }
    }
  }
}
