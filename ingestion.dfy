/** Graph ingestion: the writes ingest_document issues for one parsed
    document, as a list of statements (Plan), and the class that executes
    them against the store. */
module Ingestion {
  import opened Records
  import opened Strings
  import opened GraphStore
  import Collections

  function DocAttrsOf(m: DocMetadata): DocAttrs
  {
    DocAttrs(m.filename, m.filepath, m.title, m.pageCount)
  }

  /** The properties SET on a Chunk node; textForEmbedding falls back to the
      text and the embedding to the empty list when the key is missing. */
  function ChunkAttrsOf(c: ChunkData): ChunkAttrs
  {
    ChunkAttrs(c.text, c.textForEmbedding.GetOr(c.text), c.pageNum, c.bbox,
               c.chunkIndex, c.tokenCount, c.embedding.GetOr([]))
  }

  /** "{doc_id}:{':'.join(headings)}" */
  function SectionKey(docId: string, headings: seq<string>): string
  {
    docId + ":" + Join(headings, ":")
  }

  /** "s" followed by the first 12 hex characters of the key's digest. */
  function MakeSectionId(sha1: Hasher, docId: string, headings: seq<string>): (id: string)
    ensures |id| == 13 && id[0] == 's'
    ensures forall i :: 1 <= i < |id| ==> IsHexDigit(id[i])
  {
    "s" + ShortHash(sha1, SectionKey(docId, headings))
  }

  /** The section id sees the headings only through their ':'-joined form. */
  lemma SectionIdOfJoin(sha1: Hasher, docId: string, h1: seq<string>, h2: seq<string>)
    requires Join(h1, ":") == Join(h2, ":")
    ensures MakeSectionId(sha1, docId, h1) == MakeSectionId(sha1, docId, h2)
  {
  }

  /** Two different heading paths can share one Section: a heading that
      itself contains ':' reads like two headings. */
  lemma SectionPathsCollide(sha1: Hasher, docId: string)
    ensures ["a:b"] != ["a", "b"]
    ensures MakeSectionId(sha1, docId, ["a:b"]) == MakeSectionId(sha1, docId, ["a", "b"])
  {
    assert Join(["a", "b"], ":") == "a" + ":" + Join(["b"], ":");
    assert Join(["a", "b"], ":") == "a:b";
    assert SectionKey(docId, ["a:b"]) == SectionKey(docId, ["a", "b"]);
    assert ["a:b"][0] != ["a", "b"][0];
  }

  // ---------------------------------------------------------------------
  // The statements of one ingest_document call

  /** What the loop carries from chunk to chunk: the statements issued so
      far, the section cache, and whether an IndexError ended the call. */
  datatype Progress = Progress(ops: seq<Op>, cache: set<string>, failed: bool)

  function SectionIdOf(sha1: Hasher, meta: DocMetadata, c: ChunkData): string
  {
    MakeSectionId(sha1, meta.docId, c.headings)
  }

  /** chunks[chunk_index - 1] is out of range and raises IndexError. */
  predicate PrevMissing(cs: seq<ChunkData>, c: ChunkData)
  {
    c.chunkIndex > 0 && c.chunkIndex - 1 >= |cs|
  }

  function DocOp(meta: DocMetadata): Op
  {
    UpsertDocument(meta.docId, DocAttrsOf(meta))
  }

  function ChunkOp(c: ChunkData): Op
  {
    UpsertChunk(c.chunkId, ChunkAttrsOf(c))
  }

  function ContainsEdge(meta: DocMetadata, c: ChunkData): Edge
  {
    Edge(Contains, meta.docId, c.chunkId)
  }

  function NextEdge(cs: seq<ChunkData>, c: ChunkData): Edge
    requires 0 < c.chunkIndex <= |cs|
  {
    Edge(Next, cs[c.chunkIndex - 1].chunkId, c.chunkId)
  }

  function HasSectionEdge(sha1: Hasher, meta: DocMetadata, c: ChunkData): Edge
  {
    Edge(HasSection, meta.docId, SectionIdOf(sha1, meta, c))
  }

  function IncludesEdge(sha1: Hasher, meta: DocMetadata, c: ChunkData): Edge
  {
    Edge(Includes, SectionIdOf(sha1, meta, c), c.chunkId)
  }

  function SectionOp(sha1: Hasher, meta: DocMetadata, c: ChunkData): Op
  {
    UpsertSection(SectionIdOf(sha1, meta, c), SectionAttrs(c.headings, meta.docId))
  }

  function NextOps(cs: seq<ChunkData>, c: ChunkData): seq<Op>
    requires !PrevMissing(cs, c)
  {
    if c.chunkIndex > 0 then [MergeEdge(NextEdge(cs, c))] else []
  }

  /** The section statements: node and HAS_SECTION only for an id not yet
      in the cache, INCLUDES for every chunk with headings. */
  function SectionOps(sha1: Hasher, meta: DocMetadata, c: ChunkData, cache: set<string>): seq<Op>
  {
    if c.headings == [] then []
    else if SectionIdOf(sha1, meta, c) in cache then [MergeEdge(IncludesEdge(sha1, meta, c))]
    else [SectionOp(sha1, meta, c)] + [MergeEdge(HasSectionEdge(sha1, meta, c))]
         + [MergeEdge(IncludesEdge(sha1, meta, c))]
  }

  function CacheAfter(sha1: Hasher, meta: DocMetadata, c: ChunkData, cache: set<string>): set<string>
  {
    if c.headings == [] then cache else cache + {SectionIdOf(sha1, meta, c)}
  }

  /** The statements the loop body issues for chunk i. The chunk node and
      its CONTAINS edge are written before the predecessor lookup, so they
      survive an IndexError. */
  function ChunkOps(sha1: Hasher, meta: DocMetadata, cs: seq<ChunkData>, i: nat, cache: set<string>): Progress
    requires i < |cs|
  {
    var c := cs[i];
    var base := [ChunkOp(c)] + [MergeEdge(ContainsEdge(meta, c))];
    if PrevMissing(cs, c) then Progress(base, cache, true)
    else Progress(base + NextOps(cs, c) + SectionOps(sha1, meta, c, cache),
                  CacheAfter(sha1, meta, c, cache), false)
  }

  /** The progress after one more loop iteration, for chunks[i]; once the
      loop has raised nothing more is issued. */
  function Advance(sha1: Hasher, meta: DocMetadata, cs: seq<ChunkData>, p: Progress, i: nat): Progress
    requires i < |cs|
  {
    if p.failed then p
    else
      var s := ChunkOps(sha1, meta, cs, i, p.cache);
      Progress(p.ops + s.ops, s.cache, s.failed)
  }

  /** The statements issued for the document and its first n chunks. */
  function Plan(sha1: Hasher, meta: DocMetadata, cs: seq<ChunkData>, n: nat): Progress
    requires n <= |cs|
  {
    if n == 0 then Progress([DocOp(meta)], {}, false)
    else Advance(sha1, meta, cs, Plan(sha1, meta, cs, n - 1), n - 1)
  }

  /** Induction along the chunk loop: a property of the progress that holds
      before the loop and that every iteration keeps holds after n
      iterations. */
  lemma {:induction false} PlanInduct(sha1: Hasher, meta: DocMetadata, cs: seq<ChunkData>, n: nat,
                                      I: (nat, Progress) -> bool)
    requires n <= |cs|
    requires I(0, Plan(sha1, meta, cs, 0))
    requires forall i: nat, p: Progress :: i < n && I(i, p) ==> I(i + 1, Advance(sha1, meta, cs, p, i))
    ensures I(n, Plan(sha1, meta, cs, n))
  {
    if n > 0 {
      PlanInduct(sha1, meta, cs, n - 1, I);
    }
  }

  // ---------------------------------------------------------------------
  // Reference definitions of what the plan writes

  /** Chunk properties by id, the last chunk with an id winning. */
  function ChunkMap(cs: seq<ChunkData>, n: nat): map<string, ChunkAttrs>
    requires n <= |cs|
  {
    if n == 0 then map[] else ChunkMap(cs, n - 1)[cs[n - 1].chunkId := ChunkAttrsOf(cs[n - 1])]
  }

  /** Section properties by id, the first chunk with headings giving an id
      winning. */
  function FirstSections(sha1: Hasher, meta: DocMetadata, cs: seq<ChunkData>, n: nat): map<string, SectionAttrs>
    requires n <= |cs|
  {
    if n == 0 then map[]
    else
      var m := FirstSections(sha1, meta, cs, n - 1);
      var c := cs[n - 1];
      if c.headings == [] || SectionIdOf(sha1, meta, c) in m then m
      else m[SectionIdOf(sha1, meta, c) := SectionAttrs(c.headings, meta.docId)]
  }

  function ContainsEdges(meta: DocMetadata, cs: seq<ChunkData>, n: nat): set<Edge>
    requires n <= |cs|
  {
    set p | 0 <= p < n :: ContainsEdge(meta, cs[p])
  }

  /** One NEXT edge per chunk with a positive chunk_index, from the chunk at
      list position chunk_index - 1. */
  function NextEdges(cs: seq<ChunkData>, n: nat): set<Edge>
    requires n <= |cs|
  {
    set p | 0 <= p < n && 0 < cs[p].chunkIndex <= |cs| :: NextEdge(cs, cs[p])
  }

  function HasSectionEdges(sha1: Hasher, meta: DocMetadata, cs: seq<ChunkData>, n: nat): set<Edge>
    requires n <= |cs|
  {
    set p | 0 <= p < n && cs[p].headings != [] :: HasSectionEdge(sha1, meta, cs[p])
  }

  function IncludesEdges(sha1: Hasher, meta: DocMetadata, cs: seq<ChunkData>, n: nat): set<Edge>
    requires n <= |cs|
  {
    set p | 0 <= p < n && cs[p].headings != [] :: IncludesEdge(sha1, meta, cs[p])
  }

  /** Each chunk's predecessor lookup lands on an earlier chunk or on the
      chunk itself: chunk_index <= position + 1. */
  predicate BackwardLinks(cs: seq<ChunkData>)
  {
    forall p :: 0 <= p < |cs| ==> cs[p].chunkIndex <= p + 1
  }

  /** chunk_index equals list position. */
  predicate IndexedByPosition(cs: seq<ChunkData>)
  {
    forall p :: 0 <= p < |cs| ==> cs[p].chunkIndex == p
  }

  predicate DistinctIds(cs: seq<ChunkData>)
  {
    forall p, q :: 0 <= p < q < |cs| ==> cs[p].chunkId != cs[q].chunkId
  }

  // ---------------------------------------------------------------------
  // Failure

  /** One iteration fails when the loop had already raised or its own
      predecessor lookup is out of range. */
  lemma AdvanceFailed(sha1: Hasher, meta: DocMetadata, cs: seq<ChunkData>, p: Progress, i: nat, q: Progress)
    requires i < |cs| && q == Advance(sha1, meta, cs, p, i)
    ensures q.failed == (p.failed || PrevMissing(cs, cs[i]))
    ensures p.failed ==> q == p
  {
  }

  lemma PlanFailedStays(sha1: Hasher, meta: DocMetadata, cs: seq<ChunkData>, n: nat, m: nat)
    requires n <= m <= |cs| && Plan(sha1, meta, cs, n).failed
    ensures Plan(sha1, meta, cs, m) == Plan(sha1, meta, cs, n)
  {
    var P := (j: nat) => n <= j <= |cs| ==> Plan(sha1, meta, cs, j) == Plan(sha1, meta, cs, n);
    forall j: nat | 0 < j <= m && P(j - 1) ensures P(j) {
      if n < j {
        AdvanceFailed(sha1, meta, cs, Plan(sha1, meta, cs, j - 1), j - 1, Plan(sha1, meta, cs, j));
      }
    }
    Collections.Induct(P, m);
  }

  /** The call fails exactly when some chunk's predecessor lookup is out of
      range, and then it stops at the first such chunk. */
  lemma PlanFailsIff(sha1: Hasher, meta: DocMetadata, cs: seq<ChunkData>, n: nat)
    requires n <= |cs|
    ensures Plan(sha1, meta, cs, n).failed <==> exists p :: 0 <= p < n && PrevMissing(cs, cs[p])
  {
    var I := (i: nat, p: Progress) => i <= |cs| ==>
      (p.failed <==> exists r :: 0 <= r < i && PrevMissing(cs, cs[r]));
    forall i: nat, p: Progress | i < n && I(i, p) ensures I(i + 1, Advance(sha1, meta, cs, p, i)) {
      AdvanceFailed(sha1, meta, cs, p, i, Advance(sha1, meta, cs, p, i));
      if PrevMissing(cs, cs[i]) {
        assert 0 <= i < i + 1 && PrevMissing(cs, cs[i]);
      } else if exists r :: 0 <= r < i + 1 && PrevMissing(cs, cs[r]) {
        var r :| 0 <= r < i + 1 && PrevMissing(cs, cs[r]);
        assert r < i;
      }
    }
    PlanInduct(sha1, meta, cs, n, I);
  }

  lemma BackwardLinksNoFailure(sha1: Hasher, meta: DocMetadata, cs: seq<ChunkData>)
    requires BackwardLinks(cs)
    ensures !Plan(sha1, meta, cs, |cs|).failed
  {
    PlanFailsIff(sha1, meta, cs, |cs|);
  }

  // ---------------------------------------------------------------------
  // What each piece writes

  lemma PutsOne(op: Op)
    ensures DocPuts([op]) == if op.UpsertDocument? then map[op.docId := op.doc] else map[]
    ensures ChunkPuts([op]) == if op.UpsertChunk? then map[op.chunkId := op.chunk] else map[]
    ensures SectionPuts([op]) == if op.UpsertSection? then map[op.sectionId := op.section] else map[]
    ensures EdgeSet([op]) == if op.MergeEdge? then {op.edge} else {}
  {
    assert [op][..0] == [];
  }

  lemma PutsTwo(a: Op, b: Op)
    ensures DocPuts([a] + [b]) == DocPuts([a]) + DocPuts([b])
    ensures ChunkPuts([a] + [b]) == ChunkPuts([a]) + ChunkPuts([b])
    ensures SectionPuts([a] + [b]) == SectionPuts([a]) + SectionPuts([b])
    ensures EdgeSet([a] + [b]) == EdgeSet([a]) + EdgeSet([b])
  {
    PutsAppend([a], [b]);
  }

  lemma BasePuts(meta: DocMetadata, c: ChunkData)
    ensures var base := [ChunkOp(c)] + [MergeEdge(ContainsEdge(meta, c))];
      DocPuts(base) == map[] && SectionPuts(base) == map[]
      && ChunkPuts(base) == map[c.chunkId := ChunkAttrsOf(c)]
      && EdgeSet(base) == {ContainsEdge(meta, c)}
  {
    PutsTwo(ChunkOp(c), MergeEdge(ContainsEdge(meta, c)));
    PutsOne(ChunkOp(c));
    PutsOne(MergeEdge(ContainsEdge(meta, c)));
  }

  lemma NextPuts(cs: seq<ChunkData>, c: ChunkData)
    requires !PrevMissing(cs, c)
    ensures DocPuts(NextOps(cs, c)) == map[] && ChunkPuts(NextOps(cs, c)) == map[]
    ensures SectionPuts(NextOps(cs, c)) == map[]
    ensures EdgeSet(NextOps(cs, c)) == if c.chunkIndex > 0 then {NextEdge(cs, c)} else {}
  {
    if c.chunkIndex > 0 {
      PutsOne(MergeEdge(NextEdge(cs, c)));
    }
  }

  lemma SectionPutsOf(sha1: Hasher, meta: DocMetadata, c: ChunkData, cache: set<string>)
    ensures var ops := SectionOps(sha1, meta, c, cache);
      DocPuts(ops) == map[] && ChunkPuts(ops) == map[]
      && SectionPuts(ops) == (if c.headings != [] && SectionIdOf(sha1, meta, c) !in cache
                              then map[SectionIdOf(sha1, meta, c) := SectionAttrs(c.headings, meta.docId)]
                              else map[])
      && EdgeSet(ops) == (if c.headings == [] then {}
                          else if SectionIdOf(sha1, meta, c) in cache then {IncludesEdge(sha1, meta, c)}
                          else {HasSectionEdge(sha1, meta, c), IncludesEdge(sha1, meta, c)})
  {
    var s := SectionOp(sha1, meta, c);
    var h := MergeEdge(HasSectionEdge(sha1, meta, c));
    var i := MergeEdge(IncludesEdge(sha1, meta, c));
    PutsOne(s);
    PutsOne(h);
    PutsOne(i);
    if c.headings != [] && SectionIdOf(sha1, meta, c) !in cache {
      PutsTwo(s, h);
      PutsAppend([s] + [h], [i]);
    }
  }

  /** The writes of one loop iteration that completes. */
  lemma StepPuts(sha1: Hasher, meta: DocMetadata, cs: seq<ChunkData>, i: nat, cache: set<string>)
    requires i < |cs| && !PrevMissing(cs, cs[i])
    ensures var ops := ChunkOps(sha1, meta, cs, i, cache).ops;
      var c := cs[i];
      DocPuts(ops) == map[]
      && ChunkPuts(ops) == map[c.chunkId := ChunkAttrsOf(c)]
      && SectionPuts(ops) == SectionPuts(SectionOps(sha1, meta, c, cache))
      && EdgeSet(ops) == {ContainsEdge(meta, c)} + EdgeSet(NextOps(cs, c))
                         + EdgeSet(SectionOps(sha1, meta, c, cache))
  {
    var c := cs[i];
    var base := [ChunkOp(c)] + [MergeEdge(ContainsEdge(meta, c))];
    BasePuts(meta, c);
    NextPuts(cs, c);
    SectionPutsOf(sha1, meta, c, cache);
    PutsAppend(base, NextOps(cs, c));
    PutsAppend(base + NextOps(cs, c), SectionOps(sha1, meta, c, cache));
  }

  // ---------------------------------------------------------------------
  // The plan against the reference definitions

  /** An iteration writes no Document node. */
  lemma AdvanceDocPuts(sha1: Hasher, meta: DocMetadata, cs: seq<ChunkData>, p: Progress, i: nat, q: Progress)
    requires i < |cs| && q == Advance(sha1, meta, cs, p, i)
    ensures DocPuts(q.ops) == DocPuts(p.ops)
  {
    if !p.failed {
      var s := ChunkOps(sha1, meta, cs, i, p.cache);
      PutsAppend(p.ops, s.ops);
      if PrevMissing(cs, cs[i]) {
        BasePuts(meta, cs[i]);
      } else {
        StepPuts(sha1, meta, cs, i, p.cache);
      }
      assert DocPuts(p.ops) + map[] == DocPuts(p.ops);
    }
  }

  /** One Document write, whatever happens later. */
  lemma PlanDocPuts(sha1: Hasher, meta: DocMetadata, cs: seq<ChunkData>, n: nat)
    requires n <= |cs|
    ensures DocPuts(Plan(sha1, meta, cs, n).ops) == map[meta.docId := DocAttrsOf(meta)]
  {
    var m := map[meta.docId := DocAttrsOf(meta)];
    var I := (i: nat, p: Progress) => DocPuts(p.ops) == m;
    PutsOne(DocOp(meta));
    forall i: nat, p: Progress | i < n && I(i, p) ensures I(i + 1, Advance(sha1, meta, cs, p, i)) {
      AdvanceDocPuts(sha1, meta, cs, p, i, Advance(sha1, meta, cs, p, i));
    }
    PlanInduct(sha1, meta, cs, n, I);
  }

  lemma MapAddOne<K, V>(m: map<K, V>, k: K, v: V)
    ensures m + map[k := v] == m[k := v]
  {
  }

  /** An iteration that completes writes its chunk's node. */
  lemma AdvanceChunkPuts(sha1: Hasher, meta: DocMetadata, cs: seq<ChunkData>, p: Progress, i: nat, q: Progress)
    requires i < |cs| && q == Advance(sha1, meta, cs, p, i)
    requires !q.failed
    ensures !p.failed
    ensures ChunkPuts(q.ops) == ChunkPuts(p.ops)[cs[i].chunkId := ChunkAttrsOf(cs[i])]
  {
    var s := ChunkOps(sha1, meta, cs, i, p.cache);
    PutsAppend(p.ops, s.ops);
    StepPuts(sha1, meta, cs, i, p.cache);
    MapAddOne(ChunkPuts(p.ops), cs[i].chunkId, ChunkAttrsOf(cs[i]));
  }

  lemma PlanChunkPuts(sha1: Hasher, meta: DocMetadata, cs: seq<ChunkData>, n: nat)
    requires n <= |cs| && !Plan(sha1, meta, cs, n).failed
    ensures ChunkPuts(Plan(sha1, meta, cs, n).ops) == ChunkMap(cs, n)
  {
    var I := (i: nat, p: Progress) => i <= |cs| && !p.failed ==> ChunkPuts(p.ops) == ChunkMap(cs, i);
    PutsOne(DocOp(meta));
    forall i: nat, p: Progress | i < n && I(i, p) ensures I(i + 1, Advance(sha1, meta, cs, p, i)) {
      var q := Advance(sha1, meta, cs, p, i);
      if !q.failed {
        AdvanceChunkPuts(sha1, meta, cs, p, i, q);
      }
    }
    PlanInduct(sha1, meta, cs, n, I);
  }

  /** An iteration that completes keeps the section cache equal to the keys
      of the sections written so far. */
  lemma AdvanceSectionPuts(sha1: Hasher, meta: DocMetadata, cs: seq<ChunkData>, p: Progress, i: nat, q: Progress)
    requires i < |cs| && q == Advance(sha1, meta, cs, p, i)
    requires !q.failed
    requires SectionPuts(p.ops) == FirstSections(sha1, meta, cs, i)
    requires p.cache == FirstSections(sha1, meta, cs, i).Keys
    ensures SectionPuts(q.ops) == FirstSections(sha1, meta, cs, i + 1)
      && q.cache == FirstSections(sha1, meta, cs, i + 1).Keys
  {
    var s := ChunkOps(sha1, meta, cs, i, p.cache);
    PutsAppend(p.ops, s.ops);
    StepPuts(sha1, meta, cs, i, p.cache);
    FirstSectionsStep(sha1, meta, cs, i + 1, p.cache);
  }

  /** The section cache holds exactly the sections written so far, and each
      was written with the headings of the first chunk that produced it. */
  lemma PlanSectionPuts(sha1: Hasher, meta: DocMetadata, cs: seq<ChunkData>, n: nat)
    requires n <= |cs| && !Plan(sha1, meta, cs, n).failed
    ensures SectionPuts(Plan(sha1, meta, cs, n).ops) == FirstSections(sha1, meta, cs, n)
    ensures Plan(sha1, meta, cs, n).cache == FirstSections(sha1, meta, cs, n).Keys
  {
    var I := (i: nat, p: Progress) => i <= |cs| && !p.failed ==>
      SectionPuts(p.ops) == FirstSections(sha1, meta, cs, i) && p.cache == FirstSections(sha1, meta, cs, i).Keys;
    PutsOne(DocOp(meta));
    forall i: nat, p: Progress | i < n && I(i, p) ensures I(i + 1, Advance(sha1, meta, cs, p, i)) {
      var q := Advance(sha1, meta, cs, p, i);
      if !q.failed {
        AdvanceFailed(sha1, meta, cs, p, i, q);
        AdvanceSectionPuts(sha1, meta, cs, p, i, q);
      }
    }
    PlanInduct(sha1, meta, cs, n, I);
  }

  lemma FirstSectionsStep(sha1: Hasher, meta: DocMetadata, cs: seq<ChunkData>, n: nat, cache: set<string>)
    requires 0 < n <= |cs| && cache == FirstSections(sha1, meta, cs, n - 1).Keys
    ensures FirstSections(sha1, meta, cs, n)
         == FirstSections(sha1, meta, cs, n - 1) + SectionPuts(SectionOps(sha1, meta, cs[n - 1], cache))
    ensures FirstSections(sha1, meta, cs, n).Keys == CacheAfter(sha1, meta, cs[n - 1], cache)
  {
    var c := cs[n - 1];
    var m := FirstSections(sha1, meta, cs, n - 1);
    SectionPutsOf(sha1, meta, c, cache);
    if c.headings != [] && SectionIdOf(sha1, meta, c) !in cache {
      MapAddOne(m, SectionIdOf(sha1, meta, c), SectionAttrs(c.headings, meta.docId));
    } else {
      assert m + map[] == m;
    }
  }

  lemma {:induction false} FirstSectionsKeys(sha1: Hasher, meta: DocMetadata, cs: seq<ChunkData>, n: nat)
    requires n <= |cs|
    ensures FirstSections(sha1, meta, cs, n).Keys
         == set p | 0 <= p < n && cs[p].headings != [] :: SectionIdOf(sha1, meta, cs[p])
  {
    if n > 0 {
      FirstSectionsKeys(sha1, meta, cs, n - 1);
    }
  }

  /** Every stored Section belongs to the document, carries non-empty
      headings, and its headings hash to its own id. */
  lemma {:induction false} FirstSectionsValues(sha1: Hasher, meta: DocMetadata, cs: seq<ChunkData>, n: nat)
    requires n <= |cs|
    ensures forall sid :: sid in FirstSections(sha1, meta, cs, n) ==>
      var a := FirstSections(sha1, meta, cs, n)[sid];
      a.docId == meta.docId && a.headings != [] && MakeSectionId(sha1, meta.docId, a.headings) == sid
  {
    if n > 0 {
      FirstSectionsValues(sha1, meta, cs, n - 1);
    }
  }

  /** An iteration that completes adds its chunk's edges. */
  lemma AdvanceEdgeSet(sha1: Hasher, meta: DocMetadata, cs: seq<ChunkData>, p: Progress, i: nat, q: Progress)
    requires i < |cs| && q == Advance(sha1, meta, cs, p, i)
    requires !q.failed
    requires p.cache == FirstSections(sha1, meta, cs, i).Keys
    requires EdgeSet(p.ops) == ContainsEdges(meta, cs, i) + NextEdges(cs, i)
                               + HasSectionEdges(sha1, meta, cs, i) + IncludesEdges(sha1, meta, cs, i)
    ensures EdgeSet(q.ops)
         == ContainsEdges(meta, cs, i + 1) + NextEdges(cs, i + 1)
            + HasSectionEdges(sha1, meta, cs, i + 1) + IncludesEdges(sha1, meta, cs, i + 1)
  {
    var c := cs[i];
    var s := ChunkOps(sha1, meta, cs, i, p.cache).ops;
    PutsAppend(p.ops, s);
    StepPuts(sha1, meta, cs, i, p.cache);
    ContainsStep(meta, cs, i + 1);
    NextStep(cs, i + 1);
    SectionEdgesStep(sha1, meta, cs, i + 1, p.cache);
    EdgeSetsCombine(EdgeSet(q.ops), EdgeSet(p.ops), EdgeSet(s),
      ContainsEdges(meta, cs, i), NextEdges(cs, i),
      HasSectionEdges(sha1, meta, cs, i), IncludesEdges(sha1, meta, cs, i),
      {ContainsEdge(meta, c)}, EdgeSet(NextOps(cs, c)), EdgeSet(SectionOps(sha1, meta, c, p.cache)),
      ContainsEdges(meta, cs, i + 1), NextEdges(cs, i + 1),
      HasSectionEdges(sha1, meta, cs, i + 1), IncludesEdges(sha1, meta, cs, i + 1));
  }

  /** What the first i iterations have written, when they did not raise. */
  predicate EdgesSoFar(sha1: Hasher, meta: DocMetadata, cs: seq<ChunkData>, i: nat, p: Progress)
  {
    i <= |cs| && !p.failed ==>
      SectionPuts(p.ops) == FirstSections(sha1, meta, cs, i) && p.cache == FirstSections(sha1, meta, cs, i).Keys
      && EdgeSet(p.ops) == ContainsEdges(meta, cs, i) + NextEdges(cs, i)
                           + HasSectionEdges(sha1, meta, cs, i) + IncludesEdges(sha1, meta, cs, i)
  }

  lemma EdgesSoFarStep(sha1: Hasher, meta: DocMetadata, cs: seq<ChunkData>, i: nat, p: Progress, q: Progress)
    requires i < |cs| && EdgesSoFar(sha1, meta, cs, i, p) && q == Advance(sha1, meta, cs, p, i)
    ensures EdgesSoFar(sha1, meta, cs, i + 1, q)
  {
    if !q.failed {
      AdvanceFailed(sha1, meta, cs, p, i, q);
      AdvanceSectionPuts(sha1, meta, cs, p, i, q);
      AdvanceEdgeSet(sha1, meta, cs, p, i, q);
    }
  }

  lemma EdgesSoFarZero(sha1: Hasher, meta: DocMetadata, cs: seq<ChunkData>)
    ensures EdgesSoFar(sha1, meta, cs, 0, Plan(sha1, meta, cs, 0))
  {
    PutsOne(DocOp(meta));
  }

  lemma {:induction false} EdgesSoFarAll(sha1: Hasher, meta: DocMetadata, cs: seq<ChunkData>, n: nat)
    requires n <= |cs|
    ensures EdgesSoFar(sha1, meta, cs, n, Plan(sha1, meta, cs, n))
  {
    if n == 0 {
      EdgesSoFarZero(sha1, meta, cs);
    } else {
      EdgesSoFarAll(sha1, meta, cs, n - 1);
      EdgesSoFarStep(sha1, meta, cs, n - 1, Plan(sha1, meta, cs, n - 1), Plan(sha1, meta, cs, n));
    }
  }

  lemma PlanEdgeSet(sha1: Hasher, meta: DocMetadata, cs: seq<ChunkData>, n: nat)
    requires n <= |cs| && !Plan(sha1, meta, cs, n).failed
    ensures EdgeSet(Plan(sha1, meta, cs, n).ops)
         == ContainsEdges(meta, cs, n) + NextEdges(cs, n)
            + HasSectionEdges(sha1, meta, cs, n) + IncludesEdges(sha1, meta, cs, n)
  {
    EdgesSoFarAll(sha1, meta, cs, n);
  }

  /** The set algebra of one plan step. */
  lemma EdgeSetsCombine<T>(total: set<T>, prev: set<T>, step: set<T>,
                           c: set<T>, n: set<T>, h: set<T>, i: set<T>, ce: set<T>, ne: set<T>, se: set<T>,
                           c': set<T>, n': set<T>, h': set<T>, i': set<T>)
    requires total == prev + step && prev == c + n + h + i && step == ce + ne + se
    requires c' == c + ce && n' == n + ne && h' + i' == h + i + se
    ensures total == c' + n' + h' + i'
  {
    UnionShuffle(c, n, h, i, ce, ne, se);
  }

  lemma UnionShuffle<T>(c: set<T>, n: set<T>, h: set<T>, i: set<T>, ce: set<T>, ne: set<T>, se: set<T>)
    ensures (c + n + h + i) + (ce + ne + se) == (c + ce) + (n + ne) + ((h + i) + se)
  {
  }

  lemma ContainsStep(meta: DocMetadata, cs: seq<ChunkData>, n: nat)
    requires 0 < n <= |cs|
    ensures ContainsEdges(meta, cs, n) == ContainsEdges(meta, cs, n - 1) + {ContainsEdge(meta, cs[n - 1])}
  {
  }

  lemma NextStep(cs: seq<ChunkData>, n: nat)
    requires 0 < n <= |cs| && !PrevMissing(cs, cs[n - 1])
    ensures NextEdges(cs, n) == NextEdges(cs, n - 1) + EdgeSet(NextOps(cs, cs[n - 1]))
  {
    NextPuts(cs, cs[n - 1]);
  }

  lemma SectionEdgesStep(sha1: Hasher, meta: DocMetadata, cs: seq<ChunkData>, n: nat, cache: set<string>)
    requires 0 < n <= |cs|
    requires cache == FirstSections(sha1, meta, cs, n - 1).Keys
    ensures HasSectionEdges(sha1, meta, cs, n) + IncludesEdges(sha1, meta, cs, n)
         == HasSectionEdges(sha1, meta, cs, n - 1) + IncludesEdges(sha1, meta, cs, n - 1)
            + EdgeSet(SectionOps(sha1, meta, cs[n - 1], cache))
  {
    var c := cs[n - 1];
    SectionPutsOf(sha1, meta, c, cache);
    if c.headings != [] {
      IncludesStep(sha1, meta, cs, n);
      HasSectionStep(sha1, meta, cs, n);
      if SectionIdOf(sha1, meta, c) in cache {
        CachedHasSection(sha1, meta, cs, n, cache);
      }
    } else {
      NoHeadingsStep(sha1, meta, cs, n);
    }
  }

  lemma HasSectionStep(sha1: Hasher, meta: DocMetadata, cs: seq<ChunkData>, n: nat)
    requires 0 < n <= |cs| && cs[n - 1].headings != []
    ensures HasSectionEdges(sha1, meta, cs, n)
         == HasSectionEdges(sha1, meta, cs, n - 1) + {HasSectionEdge(sha1, meta, cs[n - 1])}
  {
  }

  lemma NoHeadingsStep(sha1: Hasher, meta: DocMetadata, cs: seq<ChunkData>, n: nat)
    requires 0 < n <= |cs| && cs[n - 1].headings == []
    ensures IncludesEdges(sha1, meta, cs, n) == IncludesEdges(sha1, meta, cs, n - 1)
    ensures HasSectionEdges(sha1, meta, cs, n) == HasSectionEdges(sha1, meta, cs, n - 1)
  {
  }

  /** A cached section id already has its HAS_SECTION edge. */
  lemma CachedHasSection(sha1: Hasher, meta: DocMetadata, cs: seq<ChunkData>, n: nat, cache: set<string>)
    requires 0 < n <= |cs| && cache == FirstSections(sha1, meta, cs, n - 1).Keys
    requires SectionIdOf(sha1, meta, cs[n - 1]) in cache
    ensures HasSectionEdge(sha1, meta, cs[n - 1]) in HasSectionEdges(sha1, meta, cs, n - 1)
  {
    var c := cs[n - 1];
    FirstSectionsKeys(sha1, meta, cs, n - 1);
    var q :| 0 <= q < n - 1 && cs[q].headings != [] && SectionIdOf(sha1, meta, cs[q]) == SectionIdOf(sha1, meta, c);
    assert HasSectionEdge(sha1, meta, cs[q]) == HasSectionEdge(sha1, meta, c);
  }

  lemma IncludesStep(sha1: Hasher, meta: DocMetadata, cs: seq<ChunkData>, n: nat)
    requires 0 < n <= |cs| && cs[n - 1].headings != []
    ensures IncludesEdges(sha1, meta, cs, n)
         == IncludesEdges(sha1, meta, cs, n - 1) + {IncludesEdge(sha1, meta, cs[n - 1])}
  {
  }

  // ---------------------------------------------------------------------
  // Which edges find their endpoints

  lemma KeysGrow(a: seq<Op>, b: seq<Op>)
    ensures DocPuts(a).Keys <= DocPuts(a + b).Keys
    ensures ChunkPuts(a).Keys <= ChunkPuts(a + b).Keys
    ensures SectionPuts(a).Keys <= SectionPuts(a + b).Keys
  {
    PutsAppend(a, b);
  }

  /** The section statements of a chunk find their endpoints once the
      document and the chunk are written and the cache lists only written
      sections. */
  lemma SectionOpsEnabled(sha1: Hasher, meta: DocMetadata, c: ChunkData, cache: set<string>, pre: seq<Op>, k: EdgeKind)
    requires meta.docId in DocPuts(pre) && c.chunkId in ChunkPuts(pre)
    requires cache <= SectionPuts(pre).Keys
    ensures EnabledAfter(pre, SectionOps(sha1, meta, c, cache), k)
  {
    var sid := SectionIdOf(sha1, meta, c);
    var inc := MergeEdge(IncludesEdge(sha1, meta, c));
    if c.headings == [] {
    } else if sid in cache {
      EnabledSingleton(pre, inc, k);
    } else {
      var so := SectionOp(sha1, meta, c);
      var hs := MergeEdge(HasSectionEdge(sha1, meta, c));
      EnabledSingleton(pre, so, k);
      PutsAppend(pre, [so]);
      PutsOne(so);
      EnabledSingleton(pre + [so], hs, k);
      EnabledAppend(pre, [so], [hs], k);
      KeysGrow(pre + [so], [hs]);
      assert pre + [so] + [hs] == pre + ([so] + [hs]);
      EnabledSingleton(pre + ([so] + [hs]), inc, k);
      EnabledAppend(pre, [so] + [hs], [inc], k);
    }
  }

  /** The statements of one loop iteration find their endpoints, given the
      document and the cached sections are written before it and, for NEXT,
      the predecessor is written before it or is the chunk itself. */
  lemma StepEnabled(sha1: Hasher, meta: DocMetadata, cs: seq<ChunkData>, i: nat, cache: set<string>,
                    pre: seq<Op>, k: EdgeKind)
    requires i < |cs|
    requires meta.docId in DocPuts(pre) && cache <= SectionPuts(pre).Keys
    requires k == Next && 0 < cs[i].chunkIndex <= |cs| ==>
      cs[cs[i].chunkIndex - 1].chunkId == cs[i].chunkId || cs[cs[i].chunkIndex - 1].chunkId in ChunkPuts(pre)
    ensures EnabledAfter(pre, ChunkOps(sha1, meta, cs, i, cache).ops, k)
  {
    var c := cs[i];
    var u := ChunkOp(c);
    var ce := MergeEdge(ContainsEdge(meta, c));
    var base := [u] + [ce];
    EnabledSingleton(pre, u, k);
    PutsAppend(pre, [u]);
    PutsOne(u);
    EnabledSingleton(pre + [u], ce, k);
    EnabledAppend(pre, [u], [ce], k);
    assert pre + [u] + [ce] == pre + base;
    KeysGrow(pre + [u], [ce]);
    if !PrevMissing(cs, c) {
      var next := NextOps(cs, c);
      if c.chunkIndex > 0 {
        EnabledSingleton(pre + base, next[0], k);
        assert next == [next[0]];
      }
      EnabledAppend(pre, base, next, k);
      KeysGrow(pre + base, next);
      assert pre + base + next == pre + (base + next);
      KeysGrow(pre, base + next);
      SectionOpsEnabled(sha1, meta, c, cache, pre + (base + next), k);
      EnabledAppend(pre, base + next, SectionOps(sha1, meta, c, cache), k);
    }
  }

  lemma {:induction false} ChunkMapKeys(cs: seq<ChunkData>, n: nat)
    requires n <= |cs|
    ensures ChunkMap(cs, n).Keys == set p | 0 <= p < n :: cs[p].chunkId
  {
    if n > 0 {
      ChunkMapKeys(cs, n - 1);
    }
  }

  /** An iteration that completes keeps every cached section id written. */
  lemma AdvanceCacheWritten(sha1: Hasher, meta: DocMetadata, cs: seq<ChunkData>, p: Progress, i: nat, q: Progress)
    requires i < |cs| && q == Advance(sha1, meta, cs, p, i)
    requires !q.failed && p.cache <= SectionPuts(p.ops).Keys
    ensures q.cache <= SectionPuts(q.ops).Keys
  {
    var s := ChunkOps(sha1, meta, cs, i, p.cache);
    PutsAppend(p.ops, s.ops);
    StepPuts(sha1, meta, cs, i, p.cache);
    SectionPutsOf(sha1, meta, cs[i], p.cache);
  }

  /** An iteration keeps every edge of kind k finding its endpoints, given
      the document, the cached sections and the earlier chunks are written. */
  lemma AdvanceEnabled(sha1: Hasher, meta: DocMetadata, cs: seq<ChunkData>, p: Progress, i: nat, q: Progress, k: EdgeKind)
    requires i < |cs| && q == Advance(sha1, meta, cs, p, i)
    requires SelfEnabledKind(p.ops, k)
    requires k == Next ==> BackwardLinks(cs)
    requires !p.failed ==> meta.docId in DocPuts(p.ops) && p.cache <= SectionPuts(p.ops).Keys
    requires !p.failed ==> forall q :: 0 <= q < i ==> cs[q].chunkId in ChunkPuts(p.ops)
    ensures SelfEnabledKind(q.ops, k)
  {
    if !p.failed {
      var c := cs[i];
      if k == Next && 0 < c.chunkIndex <= |cs| && c.chunkIndex - 1 < i {
        assert cs[c.chunkIndex - 1].chunkId in ChunkPuts(p.ops);
      }
      StepEnabled(sha1, meta, cs, i, p.cache, p.ops, k);
      assert [] + p.ops == p.ops;
      EnabledAppend([], p.ops, ChunkOps(sha1, meta, cs, i, p.cache).ops, k);
    }
  }

  /** What PlanEnabled carries through the chunk loop: the edges so far find
      their endpoints, and the document, the cached sections and the earlier
      chunks are written. */
  predicate EnabledSoFar(meta: DocMetadata, cs: seq<ChunkData>, i: nat, p: Progress, k: EdgeKind)
    requires i <= |cs|
  {
    SelfEnabledKind(p.ops, k)
    && (!p.failed ==> meta.docId in DocPuts(p.ops) && p.cache <= SectionPuts(p.ops).Keys
                      && forall r :: 0 <= r < i ==> cs[r].chunkId in ChunkPuts(p.ops))
  }

  lemma AdvanceEnabledSoFar(sha1: Hasher, meta: DocMetadata, cs: seq<ChunkData>, p: Progress, i: nat, q: Progress,
                            k: EdgeKind)
    requires i < |cs| && q == Advance(sha1, meta, cs, p, i)
    requires k == Next ==> BackwardLinks(cs)
    requires EnabledSoFar(meta, cs, i, p, k)
    ensures EnabledSoFar(meta, cs, i + 1, q, k)
  {
    AdvanceEnabled(sha1, meta, cs, p, i, q, k);
    if !q.failed {
      AdvanceFailed(sha1, meta, cs, p, i, q);
      AdvanceDocPuts(sha1, meta, cs, p, i, q);
      AdvanceCacheWritten(sha1, meta, cs, p, i, q);
      AdvanceChunkPuts(sha1, meta, cs, p, i, q);
    }
  }

  /** CONTAINS, HAS_SECTION and INCLUDES edges always find their endpoints;
      NEXT edges do when every predecessor lookup looks backwards. */
  lemma PlanEnabled(sha1: Hasher, meta: DocMetadata, cs: seq<ChunkData>, n: nat, k: EdgeKind)
    requires n <= |cs|
    requires k == Next ==> BackwardLinks(cs)
    ensures SelfEnabledKind(Plan(sha1, meta, cs, n).ops, k)
  {
    var I := (i: nat, p: Progress) => i <= |cs| ==> EnabledSoFar(meta, cs, i, p, k);
    EnabledSingleton([], DocOp(meta), k);
    PutsOne(DocOp(meta));
    forall i: nat, p: Progress | i < n && I(i, p) ensures I(i + 1, Advance(sha1, meta, cs, p, i)) {
      AdvanceEnabledSoFar(sha1, meta, cs, p, i, Advance(sha1, meta, cs, p, i), k);
    }
    PlanInduct(sha1, meta, cs, n, I);
  }

  lemma PlanSelfEnabled(sha1: Hasher, meta: DocMetadata, cs: seq<ChunkData>)
    requires BackwardLinks(cs)
    ensures SelfEnabled(Plan(sha1, meta, cs, |cs|).ops)
  {
    PlanEnabled(sha1, meta, cs, |cs|, Contains);
    PlanEnabled(sha1, meta, cs, |cs|, Next);
    PlanEnabled(sha1, meta, cs, |cs|, HasSection);
    PlanEnabled(sha1, meta, cs, |cs|, Includes);
  }

  // ---------------------------------------------------------------------
  // What one ingest_document call leaves in the store

  /** The statements of a whole ingest_document call. */
  function DocumentPlan(sha1: Hasher, meta: DocMetadata, cs: seq<ChunkData>): Progress
  {
    Plan(sha1, meta, cs, |cs|)
  }

  /** One iteration of the chunk loop that has not raised yet; if it
      raises, the document's plan ends there. */
  lemma PlanNext(sha1: Hasher, meta: DocMetadata, cs: seq<ChunkData>, i: nat, done: seq<Op>, cache: set<string>)
    requires i < |cs| && Plan(sha1, meta, cs, i) == Progress(done, cache, false)
    ensures var s := ChunkOps(sha1, meta, cs, i, cache);
      Plan(sha1, meta, cs, i + 1) == Progress(done + s.ops, s.cache, s.failed)
      && (s.failed ==> DocumentPlan(sha1, meta, cs) == Plan(sha1, meta, cs, i + 1))
  {
    if ChunkOps(sha1, meta, cs, i, cache).failed {
      PlanFailedStays(sha1, meta, cs, i + 1, |cs|);
    }
  }

  /** Exactly one Document node keyed by doc_id, holding the metadata;
      a node already there is overwritten, never duplicated. */
  lemma IngestDocumentNode(sha1: Hasher, g: Graph, meta: DocMetadata, cs: seq<ChunkData>)
    ensures Run(g, DocumentPlan(sha1, meta, cs).ops).documents
         == g.documents[meta.docId := DocAttrsOf(meta)]
    ensures Run(g, DocumentPlan(sha1, meta, cs).ops).documents[meta.docId]
         == DocAttrs(meta.filename, meta.filepath, meta.title, meta.pageCount)
  {
    RunNodes(g, DocumentPlan(sha1, meta, cs).ops);
    PlanDocPuts(sha1, meta, cs, |cs|);
    MapAddOne(g.documents, meta.docId, DocAttrsOf(meta));
  }

  /** No later chunk in the list has the same id. */
  predicate LastWithId(cs: seq<ChunkData>, p: nat)
    requires p < |cs|
  {
    forall q :: p < q < |cs| ==> cs[q].chunkId != cs[p].chunkId
  }

  lemma {:induction false} ChunkMapLast(cs: seq<ChunkData>, n: nat, p: nat)
    requires p < n <= |cs|
    requires forall q :: p < q < n ==> cs[q].chunkId != cs[p].chunkId
    ensures cs[p].chunkId in ChunkMap(cs, n) && ChunkMap(cs, n)[cs[p].chunkId] == ChunkAttrsOf(cs[p])
  {
    if p < n - 1 {
      ChunkMapLast(cs, n - 1, p);
    }
  }

  /** Every chunk becomes a Chunk node keyed by its id; the node of the last
      chunk with an id carries that chunk's properties, with the text
      standing in for a missing textForEmbedding and [] for a missing
      embedding. Other Chunk nodes are left alone. */
  lemma IngestChunkNodes(sha1: Hasher, g: Graph, meta: DocMetadata, cs: seq<ChunkData>)
    requires !DocumentPlan(sha1, meta, cs).failed
    ensures var r := Run(g, DocumentPlan(sha1, meta, cs).ops);
      r.chunks.Keys == g.chunks.Keys + (set p | 0 <= p < |cs| :: cs[p].chunkId)
      && (forall id :: id in g.chunks && id !in ChunkMap(cs, |cs|) ==> r.chunks[id] == g.chunks[id])
      && forall p :: 0 <= p < |cs| && LastWithId(cs, p) ==>
        var a := r.chunks[cs[p].chunkId];
        a.text == cs[p].text && a.pageNum == cs[p].pageNum && a.bbox == cs[p].bbox
        && a.chunkIndex == cs[p].chunkIndex && a.tokenCount == cs[p].tokenCount
        && a.textForEmbedding == (if cs[p].textForEmbedding.Some? then cs[p].textForEmbedding.value else cs[p].text)
        && a.embedding == (if cs[p].embedding.Some? then cs[p].embedding.value else [])
  {
    var ops := DocumentPlan(sha1, meta, cs).ops;
    RunNodes(g, ops);
    PlanChunkPuts(sha1, meta, cs, |cs|);
    ChunkMapKeys(cs, |cs|);
    forall p | 0 <= p < |cs| && LastWithId(cs, p)
      ensures Run(g, ops).chunks[cs[p].chunkId] == ChunkAttrsOf(cs[p])
    {
      ChunkMapLast(cs, |cs|, p);
    }
  }

  lemma KindsOfPlanEdges(sha1: Hasher, meta: DocMetadata, cs: seq<ChunkData>, n: nat)
    requires n <= |cs|
    ensures var es := ContainsEdges(meta, cs, n) + NextEdges(cs, n)
                      + HasSectionEdges(sha1, meta, cs, n) + IncludesEdges(sha1, meta, cs, n);
      KindEdges(es, Contains) == ContainsEdges(meta, cs, n)
      && KindEdges(es, Next) == NextEdges(cs, n)
      && KindEdges(es, HasSection) == HasSectionEdges(sha1, meta, cs, n)
      && KindEdges(es, Includes) == IncludesEdges(sha1, meta, cs, n)
  {
  }

  /** A CONTAINS edge from the document to every chunk, once per pair, and
      no other new CONTAINS edge. */
  lemma IngestContains(sha1: Hasher, g: Graph, meta: DocMetadata, cs: seq<ChunkData>)
    requires !DocumentPlan(sha1, meta, cs).failed
    ensures KindEdges(Run(g, DocumentPlan(sha1, meta, cs).ops).edges, Contains)
         == KindEdges(g.edges, Contains) + ContainsEdges(meta, cs, |cs|)
  {
    var ops := DocumentPlan(sha1, meta, cs).ops;
    PlanEnabled(sha1, meta, cs, |cs|, Contains);
    RunKindEdges(g, ops, Contains);
    PlanEdgeSet(sha1, meta, cs, |cs|);
    KindsOfPlanEdges(sha1, meta, cs, |cs|);
  }

  /** New NEXT edges go only from chunks[chunk_index - 1] to a chunk with a
      positive chunk_index, whatever the indices are. */
  lemma IngestNextAtMost(sha1: Hasher, g: Graph, meta: DocMetadata, cs: seq<ChunkData>)
    requires !DocumentPlan(sha1, meta, cs).failed
    ensures KindEdges(Run(g, DocumentPlan(sha1, meta, cs).ops).edges, Next)
         <= KindEdges(g.edges, Next) + NextEdges(cs, |cs|)
  {
    var ops := DocumentPlan(sha1, meta, cs).ops;
    RunEdgesBounds(g, ops);
    PlanEdgeSet(sha1, meta, cs, |cs|);
    KindsOfPlanEdges(sha1, meta, cs, |cs|);
  }

  /** When every predecessor lookup looks backwards all those edges exist. */
  lemma IngestNext(sha1: Hasher, g: Graph, meta: DocMetadata, cs: seq<ChunkData>)
    requires BackwardLinks(cs)
    ensures KindEdges(Run(g, DocumentPlan(sha1, meta, cs).ops).edges, Next)
         == KindEdges(g.edges, Next) + NextEdges(cs, |cs|)
  {
    var ops := DocumentPlan(sha1, meta, cs).ops;
    BackwardLinksNoFailure(sha1, meta, cs);
    PlanEnabled(sha1, meta, cs, |cs|, Next);
    RunKindEdges(g, ops, Next);
    PlanEdgeSet(sha1, meta, cs, |cs|);
    KindsOfPlanEdges(sha1, meta, cs, |cs|);
  }

  /** The NEXT edge between list neighbours p - 1 and p. */
  function ChainLink(cs: seq<ChunkData>, p: nat): Edge
    requires 0 < p < |cs|
  {
    Edge(Next, cs[p - 1].chunkId, cs[p].chunkId)
  }

  function ChainEdges(cs: seq<ChunkData>, n: nat): set<Edge>
    requires n <= |cs|
  {
    set p | 0 < p < n :: ChainLink(cs, p)
  }

  /** With chunk_index equal to list position, the NEXT edges are those
      between neighbours in the list. */
  lemma NextEdgesChain(cs: seq<ChunkData>)
    requires IndexedByPosition(cs)
    ensures NextEdges(cs, |cs|) == ChainEdges(cs, |cs|)
  {
    forall e | e in ChainEdges(cs, |cs|) ensures e in NextEdges(cs, |cs|) {
      var p :| 0 < p < |cs| && e == ChainLink(cs, p);
      assert cs[p].chunkIndex == p;
      assert e == NextEdge(cs, cs[p]);
    }
    forall e | e in NextEdges(cs, |cs|) ensures e in ChainEdges(cs, |cs|) {
      var p :| 0 <= p < |cs| && 0 < cs[p].chunkIndex <= |cs| && e == NextEdge(cs, cs[p]);
      assert cs[p].chunkIndex == p;
      assert e == ChainLink(cs, p);
    }
  }

  lemma ChainStep(cs: seq<ChunkData>, n: nat)
    requires 1 < n <= |cs| && DistinctIds(cs)
    ensures |ChainEdges(cs, n)| == |ChainEdges(cs, n - 1)| + 1
  {
    forall p | 0 < p < n - 1 ensures ChainLink(cs, p) != ChainLink(cs, n - 1) {
      assert cs[p].chunkId != cs[n - 1].chunkId;
    }
    assert ChainEdges(cs, n) == ChainEdges(cs, n - 1) + {ChainLink(cs, n - 1)};
  }

  /** Distinct chunk ids give n - 1 distinct neighbour edges. */
  lemma ChainCount(cs: seq<ChunkData>, n: nat)
    requires 0 < n <= |cs| && DistinctIds(cs)
    ensures |ChainEdges(cs, n)| == n - 1
  {
    var P := (j: nat) => j < |cs| ==> |ChainEdges(cs, j + 1)| == j;
    assert ChainEdges(cs, 1) == {};
    forall j: nat | 0 < j <= n - 1 && P(j - 1) ensures P(j) {
      if j < |cs| {
        ChainStep(cs, j + 1);
      }
    }
    Collections.Induct(P, n - 1);
  }

  /** The chain promised by the docstring: with chunk_index equal to list
      position and distinct ids, a store with no NEXT edges ends with
      exactly N - 1 of them, one between each pair of neighbours. */
  lemma IngestNextChain(sha1: Hasher, g: Graph, meta: DocMetadata, cs: seq<ChunkData>)
    requires IndexedByPosition(cs) && DistinctIds(cs) && |cs| > 0
    requires KindEdges(g.edges, Next) == {}
    ensures KindEdges(Run(g, DocumentPlan(sha1, meta, cs).ops).edges, Next) == ChainEdges(cs, |cs|)
    ensures |KindEdges(Run(g, DocumentPlan(sha1, meta, cs).ops).edges, Next)| == |cs| - 1
  {
    IngestNext(sha1, g, meta, cs);
    NextEdgesChain(cs);
    ChainCount(cs, |cs|);
  }

  /** The Section nodes written are the first ones per section id; every
      chunk with headings gets an INCLUDES edge from its section and its
      document a HAS_SECTION edge to it; chunks without headings get none. */
  lemma IngestSections(sha1: Hasher, g: Graph, meta: DocMetadata, cs: seq<ChunkData>)
    requires !DocumentPlan(sha1, meta, cs).failed
    ensures var r := Run(g, DocumentPlan(sha1, meta, cs).ops);
      r.sections == g.sections + FirstSections(sha1, meta, cs, |cs|)
      && KindEdges(r.edges, HasSection) == KindEdges(g.edges, HasSection) + HasSectionEdges(sha1, meta, cs, |cs|)
      && KindEdges(r.edges, Includes) == KindEdges(g.edges, Includes) + IncludesEdges(sha1, meta, cs, |cs|)
  {
    var ops := DocumentPlan(sha1, meta, cs).ops;
    RunNodes(g, ops);
    PlanSectionPuts(sha1, meta, cs, |cs|);
    PlanEnabled(sha1, meta, cs, |cs|, HasSection);
    PlanEnabled(sha1, meta, cs, |cs|, Includes);
    RunKindEdges(g, ops, HasSection);
    RunKindEdges(g, ops, Includes);
    PlanEdgeSet(sha1, meta, cs, |cs|);
    KindsOfPlanEdges(sha1, meta, cs, |cs|);
  }

  /** Statements that write the Section node sid. */
  function SectionWrites(ops: seq<Op>, sid: string): nat
  {
    if ops == [] then 0
    else SectionWrites(ops[..|ops| - 1], sid)
         + (if ops[|ops| - 1].UpsertSection? && ops[|ops| - 1].sectionId == sid then 1 else 0)
  }

  /** Statements that merge a HAS_SECTION edge into sid. */
  function HasSectionWrites(ops: seq<Op>, sid: string): nat
  {
    if ops == [] then 0
    else HasSectionWrites(ops[..|ops| - 1], sid)
         + (if ops[|ops| - 1].MergeEdge? && ops[|ops| - 1].edge.kind == HasSection
               && ops[|ops| - 1].edge.dst == sid then 1 else 0)
  }

  lemma {:induction false} WritesAppend(a: seq<Op>, b: seq<Op>, sid: string)
    ensures SectionWrites(a + b, sid) == SectionWrites(a, sid) + SectionWrites(b, sid)
    ensures HasSectionWrites(a + b, sid) == HasSectionWrites(a, sid) + HasSectionWrites(b, sid)
  {
    if b == [] {
      assert a + b == a;
    } else {
      var b' := b[..|b| - 1];
      assert (a + b)[..|a + b| - 1] == a + b';
      assert (a + b)[|a + b| - 1] == b[|b| - 1];
      WritesAppend(a, b', sid);
    }
  }

  lemma {:induction false} WritesOnlyPut(ops: seq<Op>, sid: string)
    requires sid !in SectionPuts(ops)
    ensures SectionWrites(ops, sid) == 0
  {
    if ops != [] {
      WritesOnlyPut(ops[..|ops| - 1], sid);
    }
  }

  lemma WritesOne(op: Op, sid: string)
    ensures SectionWrites([op], sid) == if op.UpsertSection? && op.sectionId == sid then 1 else 0
    ensures HasSectionWrites([op], sid)
         == if op.MergeEdge? && op.edge.kind == HasSection && op.edge.dst == sid then 1 else 0
  {
    assert [op][..0] == [];
  }

  lemma StepWrites(sha1: Hasher, meta: DocMetadata, cs: seq<ChunkData>, i: nat, cache: set<string>, sid: string)
    requires i < |cs|
    ensures var ops := ChunkOps(sha1, meta, cs, i, cache).ops;
      var isNew := !PrevMissing(cs, cs[i]) && cs[i].headings != []
                   && SectionIdOf(sha1, meta, cs[i]) !in cache && SectionIdOf(sha1, meta, cs[i]) == sid;
      SectionWrites(ops, sid) == (if isNew then 1 else 0)
      && HasSectionWrites(ops, sid) == (if isNew then 1 else 0)
  {
    var c := cs[i];
    var u := ChunkOp(c);
    var ce := MergeEdge(ContainsEdge(meta, c));
    WritesOne(u, sid);
    WritesOne(ce, sid);
    WritesAppend([u], [ce], sid);
    if !PrevMissing(cs, c) {
      var base := [u] + [ce];
      var next := NextOps(cs, c);
      var sec := SectionOps(sha1, meta, c, cache);
      if c.chunkIndex > 0 {
        WritesOne(next[0], sid);
        assert next == [next[0]];
      }
      WritesAppend(base, next, sid);
      WritesAppend(base + next, sec, sid);
      var so := SectionOp(sha1, meta, c);
      var hs := MergeEdge(HasSectionEdge(sha1, meta, c));
      var inc := MergeEdge(IncludesEdge(sha1, meta, c));
      WritesOne(inc, sid);
      if c.headings != [] && SectionIdOf(sha1, meta, c) !in cache {
        WritesOne(so, sid);
        WritesOne(hs, sid);
        WritesAppend([so], [hs], sid);
        WritesAppend([so] + [hs], [inc], sid);
      }
    }
  }

  /** An iteration keeps each section id's node and HAS_SECTION edge
      written at most once, both the same number of times. */
  lemma AdvanceWrites(sha1: Hasher, meta: DocMetadata, cs: seq<ChunkData>, p: Progress, i: nat, q: Progress, sid: string)
    requires i < |cs| && q == Advance(sha1, meta, cs, p, i)
    requires !p.failed ==> p.cache == SectionPuts(p.ops).Keys
    requires SectionWrites(p.ops, sid) <= 1 && HasSectionWrites(p.ops, sid) == SectionWrites(p.ops, sid)
    ensures SectionWrites(q.ops, sid) <= 1 && HasSectionWrites(q.ops, sid) == SectionWrites(q.ops, sid)
  {
    if !p.failed {
      WritesAppend(p.ops, ChunkOps(sha1, meta, cs, i, p.cache).ops, sid);
      StepWrites(sha1, meta, cs, i, p.cache, sid);
      if sid !in p.cache {
        WritesOnlyPut(p.ops, sid);
      }
    }
  }

  /** Within one call the Section node and its HAS_SECTION edge are written
      at most once per section id. */
  lemma SectionWrittenOnce(sha1: Hasher, meta: DocMetadata, cs: seq<ChunkData>, n: nat, sid: string)
    requires n <= |cs|
    ensures SectionWrites(Plan(sha1, meta, cs, n).ops, sid) <= 1
    ensures HasSectionWrites(Plan(sha1, meta, cs, n).ops, sid) == SectionWrites(Plan(sha1, meta, cs, n).ops, sid)
  {
    WritesSoFarAll(sha1, meta, cs, n, sid);
  }

  /** The section writes of the first i iterations, with the cache they
      leave when they did not raise. */
  predicate WritesSoFar(sha1: Hasher, meta: DocMetadata, cs: seq<ChunkData>, sid: string, i: nat, p: Progress)
  {
    i <= |cs| ==>
      SectionWrites(p.ops, sid) <= 1 && HasSectionWrites(p.ops, sid) == SectionWrites(p.ops, sid)
      && (!p.failed ==> SectionPuts(p.ops) == FirstSections(sha1, meta, cs, i)
                        && p.cache == FirstSections(sha1, meta, cs, i).Keys)
  }

  lemma WritesSoFarStep(sha1: Hasher, meta: DocMetadata, cs: seq<ChunkData>, sid: string, i: nat,
                        p: Progress, q: Progress)
    requires i < |cs| && WritesSoFar(sha1, meta, cs, sid, i, p) && q == Advance(sha1, meta, cs, p, i)
    ensures WritesSoFar(sha1, meta, cs, sid, i + 1, q)
  {
    AdvanceWrites(sha1, meta, cs, p, i, q, sid);
    if !q.failed {
      AdvanceFailed(sha1, meta, cs, p, i, q);
      AdvanceSectionPuts(sha1, meta, cs, p, i, q);
    }
  }

  lemma {:induction false} WritesSoFarAll(sha1: Hasher, meta: DocMetadata, cs: seq<ChunkData>, n: nat, sid: string)
    requires n <= |cs|
    ensures WritesSoFar(sha1, meta, cs, sid, n, Plan(sha1, meta, cs, n))
  {
    if n == 0 {
      WritesOne(DocOp(meta), sid);
      PutsOne(DocOp(meta));
    } else {
      WritesSoFarAll(sha1, meta, cs, n - 1, sid);
      WritesSoFarStep(sha1, meta, cs, sid, n - 1, Plan(sha1, meta, cs, n - 1), Plan(sha1, meta, cs, n));
    }
  }

  /** MERGE and SET make re-ingesting the same document a no-op, as long as
      every predecessor lookup looks backwards. */
  lemma IngestIdempotent(sha1: Hasher, g: Graph, meta: DocMetadata, cs: seq<ChunkData>)
    requires BackwardLinks(cs)
    ensures var ops := DocumentPlan(sha1, meta, cs).ops;
      Run(Run(g, ops), ops) == Run(g, ops)
  {
    PlanSelfEnabled(sha1, meta, cs);
    RunIdempotent(g, DocumentPlan(sha1, meta, cs).ops);
  }

  // ---------------------------------------------------------------------
  // The service object

  /** Neo4jIngestion: the store it writes to through its session, and the
      hash it names sections with. */
  class Neo4jIngestion {
    var documents: map<string, DocAttrs>
    var chunks: map<string, ChunkAttrs>
    var sections: map<string, SectionAttrs>
    var edges: set<Edge>
    const sha1: Hasher

    function State(): Graph
      reads this
    {
      Graph(documents, chunks, sections, edges)
    }

    /** A service connected to a store holding g. */
    constructor(sha1: Hasher, g: Graph)
      ensures State() == g && this.sha1 == sha1
    {
      this.sha1 := sha1;
      documents := g.documents;
      chunks := g.chunks;
      sections := g.sections;
      edges := g.edges;
    }

    /** session.run of one statement. */
    method Execute(op: Op)
      modifies this
      ensures State() == Apply(old(State()), op)
    {
      match op
      case UpsertDocument(id, a) => documents := documents[id := a];
      case UpsertChunk(id, a) => chunks := chunks[id := a];
      case UpsertSection(id, a) => sections := sections[id := a];
      case MergeEdge(e) =>
        if HasEndpoints(State(), e) {
          edges := edges + {e};
        }
    }

    /** Executes op and records it in the ghost log of issued statements. */
    method Issue(op: Op, ghost g0: Graph, ghost done: seq<Op>) returns (ghost done': seq<Op>)
      requires State() == Run(g0, done)
      modifies this
      ensures done' == done + [op] && State() == Run(g0, done')
    {
      Execute(op);
      RunSnoc(g0, done, op);
      done' := done + [op];
    }

    /** The section statements for one chunk with the section cache. */
    method IssueSection(meta: DocMetadata, c: ChunkData, cache: set<string>, ghost g0: Graph, ghost done: seq<Op>)
      returns (cache': set<string>, ghost done': seq<Op>)
      requires State() == Run(g0, done)
      modifies this
      ensures done' == done + SectionOps(sha1, meta, c, cache) && State() == Run(g0, done')
      ensures cache' == CacheAfter(sha1, meta, c, cache)
    {
      cache', done' := cache, done;
      if c.headings != [] {
        var sid := MakeSectionId(sha1, meta.docId, c.headings);
        if sid !in cache {
          done' := Issue(UpsertSection(sid, SectionAttrs(c.headings, meta.docId)), g0, done');
          done' := Issue(MergeEdge(Edge(HasSection, meta.docId, sid)), g0, done');
          cache' := cache + {sid};
        }
        done' := Issue(MergeEdge(Edge(Includes, sid, c.chunkId)), g0, done');
      }
    }

    /** The body of the chunk loop for chunks[i]. */
    method IssueChunk(meta: DocMetadata, cs: seq<ChunkData>, i: nat, cache: set<string>,
                      ghost g0: Graph, ghost done: seq<Op>)
      returns (raised: bool, cache': set<string>, ghost done': seq<Op>)
      requires i < |cs| && State() == Run(g0, done)
      modifies this
      ensures var s := ChunkOps(sha1, meta, cs, i, cache);
        done' == done + s.ops && cache' == s.cache && raised == s.failed
      ensures State() == Run(g0, done')
    {
      var c := cs[i];
      ghost var base := [ChunkOp(c)] + [MergeEdge(ContainsEdge(meta, c))];
      done' := Issue(ChunkOp(c), g0, done);
      done' := Issue(MergeEdge(ContainsEdge(meta, c)), g0, done');
      assert done' == done + base;
      if c.chunkIndex > 0 {
        if c.chunkIndex - 1 >= |cs| {
          return true, cache, done';
        }
        done' := Issue(MergeEdge(NextEdge(cs, c)), g0, done');
      }
      ghost var linked := done';
      assert linked == done + (base + NextOps(cs, c));
      raised := false;
      cache', done' := IssueSection(meta, c, cache, g0, done');
      assert done' == done + (base + NextOps(cs, c) + SectionOps(sha1, meta, c, cache));
    }

    /** ingest_document: the document node, then chunk by chunk its node,
        its CONTAINS edge, its NEXT edge and its section statements. The
        result says whether the predecessor lookup raised IndexError, which
        ends the call with the statements issued so far left in place. */
    method IngestDocument(meta: DocMetadata, cs: seq<ChunkData>) returns (raised: bool)
      modifies this
      ensures State() == Run(old(State()), DocumentPlan(sha1, meta, cs).ops)
      ensures raised == DocumentPlan(sha1, meta, cs).failed
    {
      ghost var g0 := State();
      ghost var done := Issue(DocOp(meta), g0, []);
      var cache: set<string> := {};
      for i := 0 to |cs|
        invariant Plan(sha1, meta, cs, i) == Progress(done, cache, false)
        invariant State() == Run(g0, done)
      {
        PlanNext(sha1, meta, cs, i, done, cache);
        raised, cache, done := IssueChunk(meta, cs, i, cache, g0, done);
        if raised {
          return;
        }
      }
      return false;
    }

    /** ingest_documents: the documents in order; an exception from one of
        them propagates and leaves the later ones unwritten. */
    method IngestDocuments(docs: seq<ParsedDoc>) returns (raised: bool)
      modifies this
      ensures State() == Run(old(State()), BatchPlan(sha1, docs, |docs|).ops)
      ensures raised == BatchPlan(sha1, docs, |docs|).failed
    {
      ghost var g0 := State();
      for i := 0 to |docs|
        invariant BatchPlan(sha1, docs, i) == Batch(BatchPlan(sha1, docs, i).ops, false)
        invariant State() == Run(g0, BatchPlan(sha1, docs, i).ops)
      {
        ghost var before := State();
        raised := IngestDocument(docs[i].metadata, docs[i].chunks);
        RunAppend(g0, BatchPlan(sha1, docs, i).ops, DocumentPlan(sha1, docs[i].metadata, docs[i].chunks).ops);
        if raised {
          BatchFailedStays(sha1, docs, i + 1, |docs|);
          return;
        }
      }
      return false;
    }

    /** get_stats: node counts per label and edge counts per type. */
    method GetStats() returns (stats: Stats)
      ensures stats == StatsOf(State())
    {
      stats := Stats(|documents|, |chunks|, |sections|,
                     |KindEdges(edges, Contains)|, |KindEdges(edges, Next)|,
                     |KindEdges(edges, HasSection)|, |KindEdges(edges, Includes)|);
    }
  }

  // ---------------------------------------------------------------------
  // Several documents

  /** The statements of ingest_documents over the first n documents, and
      whether one of them raised. */
  datatype Batch = Batch(ops: seq<Op>, failed: bool)

  /** One more document: nothing more once one has raised. */
  function BatchStep(sha1: Hasher, docs: seq<ParsedDoc>, b: Batch, i: nat): Batch
    requires i < |docs|
  {
    if b.failed then b
    else
      var d := DocumentPlan(sha1, docs[i].metadata, docs[i].chunks);
      Batch(b.ops + d.ops, d.failed)
  }

  function BatchPlan(sha1: Hasher, docs: seq<ParsedDoc>, n: nat): Batch
    requires n <= |docs|
  {
    if n == 0 then Batch([], false) else BatchStep(sha1, docs, BatchPlan(sha1, docs, n - 1), n - 1)
  }

  /** Induction along the document loop. */
  lemma {:induction false} BatchInduct(sha1: Hasher, docs: seq<ParsedDoc>, n: nat, I: (nat, Batch) -> bool)
    requires n <= |docs|
    requires I(0, BatchPlan(sha1, docs, 0))
    requires forall i: nat, b: Batch :: i < n && I(i, b) ==> I(i + 1, BatchStep(sha1, docs, b, i))
    ensures I(n, BatchPlan(sha1, docs, n))
  {
    if n > 0 {
      BatchInduct(sha1, docs, n - 1, I);
    }
  }

  lemma BatchFailedStays(sha1: Hasher, docs: seq<ParsedDoc>, n: nat, m: nat)
    requires n <= m <= |docs| && BatchPlan(sha1, docs, n).failed
    ensures BatchPlan(sha1, docs, m) == BatchPlan(sha1, docs, n)
  {
    var P := (j: nat) => n <= j <= |docs| ==> BatchPlan(sha1, docs, j) == BatchPlan(sha1, docs, n);
    forall j: nat | 0 < j <= m && P(j - 1) ensures P(j) {
      if n < j {
        assert BatchPlan(sha1, docs, j) == BatchStep(sha1, docs, BatchPlan(sha1, docs, j - 1), j - 1);
      }
    }
    Collections.Induct(P, m);
  }

  /** Document properties by doc_id, the last document with an id winning. */
  function MetaMap(docs: seq<ParsedDoc>, n: nat): map<string, DocAttrs>
    requires n <= |docs|
  {
    if n == 0 then map[]
    else MetaMap(docs, n - 1)[docs[n - 1].metadata.docId := DocAttrsOf(docs[n - 1].metadata)]
  }

  /** A document that is processed writes its Document node. */
  lemma BatchStepDocPuts(sha1: Hasher, docs: seq<ParsedDoc>, b: Batch, i: nat, c: Batch)
    requires i < |docs| && c == BatchStep(sha1, docs, b, i)
    requires !c.failed
    ensures !b.failed
    ensures DocPuts(c.ops)
         == DocPuts(b.ops)[docs[i].metadata.docId := DocAttrsOf(docs[i].metadata)]
  {
    var meta := docs[i].metadata;
    var d := DocumentPlan(sha1, meta, docs[i].chunks);
    PutsAppend(b.ops, d.ops);
    PlanDocPuts(sha1, meta, docs[i].chunks, |docs[i].chunks|);
    MapAddOne(DocPuts(b.ops), meta.docId, DocAttrsOf(meta));
  }

  /** Every document processed by ingest_documents has its Document node,
      even the one whose chunks raised; a re-ingested doc_id keeps the
      last metadata. */
  lemma BatchDocumentPuts(sha1: Hasher, docs: seq<ParsedDoc>, n: nat)
    requires n <= |docs| && !BatchPlan(sha1, docs, n).failed
    ensures DocPuts(BatchPlan(sha1, docs, n).ops) == MetaMap(docs, n)
  {
    var I := (i: nat, b: Batch) => i <= |docs| && !b.failed ==> DocPuts(b.ops) == MetaMap(docs, i);
    forall i: nat, b: Batch | i < n && I(i, b) ensures I(i + 1, BatchStep(sha1, docs, b, i)) {
      var c := BatchStep(sha1, docs, b, i);
      if !c.failed {
        BatchStepDocPuts(sha1, docs, b, i, c);
      }
    }
    BatchInduct(sha1, docs, n, I);
  }

  lemma BatchDocuments(sha1: Hasher, g: Graph, docs: seq<ParsedDoc>)
    requires !BatchPlan(sha1, docs, |docs|).failed
    ensures Run(g, BatchPlan(sha1, docs, |docs|).ops).documents == g.documents + MetaMap(docs, |docs|)
  {
    RunNodes(g, BatchPlan(sha1, docs, |docs|).ops);
    BatchDocumentPuts(sha1, docs, |docs|);
  }

  /** Written endpoints stay written when statements come before. */
  lemma EndpointsGrowFront(a: seq<Op>, b: seq<Op>, e: Edge)
    requires EndpointsPut(b, e)
    ensures EndpointsPut(a + b, e)
  {
    PutsAppend(a, b);
  }

  lemma {:induction false} EnabledShift(pre: seq<Op>, b: seq<Op>, k: EdgeKind)
    requires EnabledAfter([], b, k)
    ensures EnabledAfter(pre, b, k)
    decreases |b|
  {
    if b != [] {
      var b' := b[..|b| - 1];
      EnabledShift(pre, b', k);
      var op := b[|b| - 1];
      if op.MergeEdge? && op.edge.kind == k {
        assert [] + b' == b';
        EndpointsGrowFront(pre, b', op.edge);
      }
    }
  }

  /** A document whose lookups look backwards keeps every edge of kind k
      finding its endpoints. */
  lemma BatchStepEnabled(sha1: Hasher, docs: seq<ParsedDoc>, b: Batch, i: nat, c: Batch, k: EdgeKind)
    requires i < |docs| && c == BatchStep(sha1, docs, b, i)
    requires SelfEnabledKind(b.ops, k) && BackwardLinks(docs[i].chunks)
    ensures SelfEnabledKind(c.ops, k)
  {
    if !b.failed {
      var doc := docs[i];
      var d := DocumentPlan(sha1, doc.metadata, doc.chunks);
      PlanSelfEnabled(sha1, doc.metadata, doc.chunks);
      EnabledShift(b.ops, d.ops, k);
      assert [] + b.ops == b.ops;
      EnabledAppend([], b.ops, d.ops, k);
    }
  }

  lemma BatchEnabled(sha1: Hasher, docs: seq<ParsedDoc>, n: nat, k: EdgeKind)
    requires n <= |docs|
    requires forall i :: 0 <= i < |docs| ==> BackwardLinks(docs[i].chunks)
    ensures SelfEnabledKind(BatchPlan(sha1, docs, n).ops, k)
  {
    var I := (i: nat, b: Batch) => SelfEnabledKind(b.ops, k);
    forall i: nat, b: Batch | i < n && I(i, b) ensures I(i + 1, BatchStep(sha1, docs, b, i)) {
      BatchStepEnabled(sha1, docs, b, i, BatchStep(sha1, docs, b, i), k);
    }
    BatchInduct(sha1, docs, n, I);
  }

  /** Re-running a whole ingest_documents call is a no-op, as long as every
      document's predecessor lookups look backwards. */
  lemma BatchIdempotent(sha1: Hasher, g: Graph, docs: seq<ParsedDoc>)
    requires forall i :: 0 <= i < |docs| ==> BackwardLinks(docs[i].chunks)
    ensures var ops := BatchPlan(sha1, docs, |docs|).ops;
      Run(Run(g, ops), ops) == Run(g, ops)
  {
    var ops := BatchPlan(sha1, docs, |docs|).ops;
    BatchEnabled(sha1, docs, |docs|, Contains);
    BatchEnabled(sha1, docs, |docs|, Next);
    BatchEnabled(sha1, docs, |docs|, HasSection);
    BatchEnabled(sha1, docs, |docs|, Includes);
    RunIdempotent(g, ops);
  }

  // ---------------------------------------------------------------------
  // Statistics

  datatype Stats = Stats(
    documentCount: nat, chunkCount: nat, sectionCount: nat,
    containsCount: nat, nextCount: nat, hasSectionCount: nat, includesCount: nat)

  function StatsOf(g: Graph): Stats
  {
    Stats(|g.documents|, |g.chunks|, |g.sections|,
          |KindEdges(g.edges, Contains)|, |KindEdges(g.edges, Next)|,
          |KindEdges(g.edges, HasSection)|, |KindEdges(g.edges, Includes)|)
  }

  function ChunkIds(cs: seq<ChunkData>, n: nat): set<string>
    requires n <= |cs|
  {
    set p | 0 <= p < n :: cs[p].chunkId
  }

  /** One CONTAINS edge per distinct chunk id. */
  lemma ContainsCount(meta: DocMetadata, cs: seq<ChunkData>, n: nat)
    requires n <= |cs|
    ensures |ContainsEdges(meta, cs, n)| == |ChunkIds(cs, n)|
  {
    var f := (id: string) => Edge(Contains, meta.docId, id);
    forall e | e in ContainsEdges(meta, cs, n) ensures e in Collections.Image(ChunkIds(cs, n), f) {
      var p :| 0 <= p < n && e == ContainsEdge(meta, cs[p]);
      assert cs[p].chunkId in ChunkIds(cs, n);
    }
    forall e | e in Collections.Image(ChunkIds(cs, n), f) ensures e in ContainsEdges(meta, cs, n) {
      var id :| id in ChunkIds(cs, n) && e == f(id);
      var p :| 0 <= p < n && cs[p].chunkId == id;
      assert e == ContainsEdge(meta, cs[p]);
    }
    assert ContainsEdges(meta, cs, n) == Collections.Image(ChunkIds(cs, n), f);
    Collections.ImageCard(ChunkIds(cs, n), f);
  }

  function SectionIds(sha1: Hasher, meta: DocMetadata, cs: seq<ChunkData>, n: nat): set<string>
    requires n <= |cs|
  {
    set p | 0 <= p < n && cs[p].headings != [] :: SectionIdOf(sha1, meta, cs[p])
  }

  /** One HAS_SECTION edge per distinct section id. */
  lemma HasSectionIdsCount(sha1: Hasher, meta: DocMetadata, cs: seq<ChunkData>, n: nat)
    requires n <= |cs|
    ensures |HasSectionEdges(sha1, meta, cs, n)| == |SectionIds(sha1, meta, cs, n)|
  {
    var f := (sid: string) => Edge(HasSection, meta.docId, sid);
    var ids := SectionIds(sha1, meta, cs, n);
    forall e | e in HasSectionEdges(sha1, meta, cs, n) ensures e in Collections.Image(ids, f) {
      var p :| 0 <= p < n && cs[p].headings != [] && e == HasSectionEdge(sha1, meta, cs[p]);
      assert SectionIdOf(sha1, meta, cs[p]) in ids;
    }
    forall e | e in Collections.Image(ids, f) ensures e in HasSectionEdges(sha1, meta, cs, n) {
      var sid :| sid in ids && e == f(sid);
      var p :| 0 <= p < n && cs[p].headings != [] && SectionIdOf(sha1, meta, cs[p]) == sid;
      assert e == HasSectionEdge(sha1, meta, cs[p]);
    }
    assert HasSectionEdges(sha1, meta, cs, n) == Collections.Image(ids, f);
    Collections.ImageCard(ids, f);
  }

  lemma HasSectionCount(sha1: Hasher, meta: DocMetadata, cs: seq<ChunkData>, n: nat)
    requires n <= |cs|
    ensures |HasSectionEdges(sha1, meta, cs, n)| == |FirstSections(sha1, meta, cs, n)|
  {
    HasSectionIdsCount(sha1, meta, cs, n);
    FirstSectionsKeys(sha1, meta, cs, n);
    assert FirstSections(sha1, meta, cs, n).Keys == SectionIds(sha1, meta, cs, n);
    assert |FirstSections(sha1, meta, cs, n)| == |FirstSections(sha1, meta, cs, n).Keys|;
  }

  lemma StatsNodes(sha1: Hasher, meta: DocMetadata, cs: seq<ChunkData>)
    requires !DocumentPlan(sha1, meta, cs).failed
    ensures var st := StatsOf(Run(EmptyGraph, DocumentPlan(sha1, meta, cs).ops));
      st.documentCount == 1 && st.chunkCount == |ChunkIds(cs, |cs|)|
  {
    var r := Run(EmptyGraph, DocumentPlan(sha1, meta, cs).ops);
    IngestDocumentNode(sha1, EmptyGraph, meta, cs);
    assert r.documents == map[meta.docId := DocAttrsOf(meta)];
    IngestChunkNodes(sha1, EmptyGraph, meta, cs);
    assert r.chunks.Keys == ChunkIds(cs, |cs|);
    assert |r.chunks| == |r.chunks.Keys|;
  }

  lemma StatsContains(sha1: Hasher, meta: DocMetadata, cs: seq<ChunkData>)
    requires !DocumentPlan(sha1, meta, cs).failed
    ensures StatsOf(Run(EmptyGraph, DocumentPlan(sha1, meta, cs).ops)).containsCount == |ChunkIds(cs, |cs|)|
  {
    var r := Run(EmptyGraph, DocumentPlan(sha1, meta, cs).ops);
    IngestContains(sha1, EmptyGraph, meta, cs);
    assert KindEdges(EmptyGraph.edges, Contains) == {};
    assert KindEdges(r.edges, Contains) == ContainsEdges(meta, cs, |cs|);
    ContainsCount(meta, cs, |cs|);
  }

  lemma StatsSections(sha1: Hasher, meta: DocMetadata, cs: seq<ChunkData>)
    requires !DocumentPlan(sha1, meta, cs).failed
    ensures var st := StatsOf(Run(EmptyGraph, DocumentPlan(sha1, meta, cs).ops));
      st.sectionCount == st.hasSectionCount
  {
    var r := Run(EmptyGraph, DocumentPlan(sha1, meta, cs).ops);
    IngestSections(sha1, EmptyGraph, meta, cs);
    assert KindEdges(EmptyGraph.edges, HasSection) == {};
    assert EmptyGraph.sections + FirstSections(sha1, meta, cs, |cs|) == FirstSections(sha1, meta, cs, |cs|);
    HasSectionCount(sha1, meta, cs, |cs|);
  }

  /** get_stats after ingesting one document into an empty store: one
      document, one chunk node and one CONTAINS edge per distinct chunk id,
      one HAS_SECTION edge per Section node, and with chunk_index equal to
      list position and distinct ids a NEXT chain of N - 1 edges. */
  lemma IngestStats(sha1: Hasher, meta: DocMetadata, cs: seq<ChunkData>)
    requires !DocumentPlan(sha1, meta, cs).failed
    ensures var st := StatsOf(Run(EmptyGraph, DocumentPlan(sha1, meta, cs).ops));
      st.documentCount == 1
      && st.chunkCount == st.containsCount == |ChunkIds(cs, |cs|)|
      && st.sectionCount == st.hasSectionCount
      && (IndexedByPosition(cs) && DistinctIds(cs) && |cs| > 0 ==> st.nextCount == |cs| - 1)
  {
    StatsNodes(sha1, meta, cs);
    StatsContains(sha1, meta, cs);
    StatsSections(sha1, meta, cs);
    if IndexedByPosition(cs) && DistinctIds(cs) && |cs| > 0 {
      IngestNextChain(sha1, EmptyGraph, meta, cs);
    }
  }
}
