/** The Neo4j store as a value: one map per node label, keyed by the label's
    unique property (docId, chunkId, sectionId), and one set of typed edges.
    The uniqueness constraints the setup script creates make a key name at
    most one node, which is what a map says. */
module GraphStore {
  import opened Records

  datatype EdgeKind = Contains | Next | HasSection | Includes

  /** A relationship (src)-[:kind]->(dst), named by its endpoints' keys. */
  datatype Edge = Edge(kind: EdgeKind, src: string, dst: string)

  datatype DocAttrs = DocAttrs(filename: string, filepath: string, title: string, pageCount: int)

  datatype ChunkAttrs = ChunkAttrs(
    text: string,
    textForEmbedding: string,
    pageNum: int,
    bbox: Box,
    chunkIndex: int,
    tokenCount: int,
    embedding: seq<real>)

  datatype SectionAttrs = SectionAttrs(headings: seq<string>, docId: string)

  datatype Graph = Graph(
    documents: map<string, DocAttrs>,
    chunks: map<string, ChunkAttrs>,
    sections: map<string, SectionAttrs>,
    edges: set<Edge>)

  const EmptyGraph := Graph(map[], map[], map[], {})

  /** One write statement: MERGE of a node followed by SET of all its
      properties, or MATCH of two nodes followed by MERGE of an edge. */
  datatype Op =
    | UpsertDocument(docId: string, doc: DocAttrs)
    | UpsertChunk(chunkId: string, chunk: ChunkAttrs)
    | UpsertSection(sectionId: string, section: SectionAttrs)
    | MergeEdge(edge: Edge)

  /** The nodes an edge of this kind connects exist: (Document)->(Chunk) for
      CONTAINS, (Chunk)->(Chunk) for NEXT, (Document)->(Section) for
      HAS_SECTION, (Section)->(Chunk) for INCLUDES. */
  predicate HasEndpoints(g: Graph, e: Edge)
  {
    match e.kind
    case Contains => e.src in g.documents && e.dst in g.chunks
    case Next => e.src in g.chunks && e.dst in g.chunks
    case HasSection => e.src in g.documents && e.dst in g.sections
    case Includes => e.src in g.sections && e.dst in g.chunks
  }

  /** Every edge joins existing nodes of the right labels. */
  predicate WellFormed(g: Graph)
  {
    forall e :: e in g.edges ==> HasEndpoints(g, e)
  }

  /** The effect of one statement. A MATCH that finds no node makes the
      statement write nothing. */
  function Apply(g: Graph, op: Op): Graph
  {
    match op
    case UpsertDocument(id, a) => g.(documents := g.documents[id := a])
    case UpsertChunk(id, a) => g.(chunks := g.chunks[id := a])
    case UpsertSection(id, a) => g.(sections := g.sections[id := a])
    case MergeEdge(e) => if HasEndpoints(g, e) then g.(edges := g.edges + {e}) else g
  }

  /** The effect of a sequence of statements, in order. */
  function Run(g: Graph, ops: seq<Op>): Graph
  {
    if ops == [] then g else Apply(Run(g, ops[..|ops| - 1]), ops[|ops| - 1])
  }

  lemma RunSnoc(g: Graph, ops: seq<Op>, op: Op)
    ensures Run(g, ops + [op]) == Apply(Run(g, ops), op)
  {
    assert (ops + [op])[..|ops|] == ops;
  }

  /** Running two statement lists one after the other is running their
      concatenation. */
  lemma {:induction false} RunAppend(g: Graph, a: seq<Op>, b: seq<Op>)
    ensures Run(g, a + b) == Run(Run(g, a), b)
  {
    if b == [] {
      assert a + b == a;
    } else {
      var b' := b[..|b| - 1];
      assert (a + b)[..|a + b| - 1] == a + b';
      RunAppend(g, a, b');
    }
  }

  /** The document properties written by ops, the last write of a key
      winning. */
  function DocPuts(ops: seq<Op>): map<string, DocAttrs>
  {
    if ops == [] then map[]
    else
      var m := DocPuts(ops[..|ops| - 1]);
      match ops[|ops| - 1]
      case UpsertDocument(id, a) => m[id := a]
      case _ => m
  }

  function ChunkPuts(ops: seq<Op>): map<string, ChunkAttrs>
  {
    if ops == [] then map[]
    else
      var m := ChunkPuts(ops[..|ops| - 1]);
      match ops[|ops| - 1]
      case UpsertChunk(id, a) => m[id := a]
      case _ => m
  }

  function SectionPuts(ops: seq<Op>): map<string, SectionAttrs>
  {
    if ops == [] then map[]
    else
      var m := SectionPuts(ops[..|ops| - 1]);
      match ops[|ops| - 1]
      case UpsertSection(id, a) => m[id := a]
      case _ => m
  }

  /** The edges ops ask to merge. */
  function EdgeSet(ops: seq<Op>): set<Edge>
  {
    if ops == [] then {}
    else
      EdgeSet(ops[..|ops| - 1])
        + (match ops[|ops| - 1] case MergeEdge(e) => {e} case _ => {})
  }

  lemma PutsAppend(a: seq<Op>, b: seq<Op>)
    ensures DocPuts(a + b) == DocPuts(a) + DocPuts(b)
    ensures ChunkPuts(a + b) == ChunkPuts(a) + ChunkPuts(b)
    ensures SectionPuts(a + b) == SectionPuts(a) + SectionPuts(b)
    ensures EdgeSet(a + b) == EdgeSet(a) + EdgeSet(b)
  {
    DocPutsAppend(a, b);
    ChunkPutsAppend(a, b);
    SectionPutsAppend(a, b);
    EdgeSetAppend(a, b);
  }

  lemma {:induction false} DocPutsAppend(a: seq<Op>, b: seq<Op>)
    ensures DocPuts(a + b) == DocPuts(a) + DocPuts(b)
  {
    if b == [] {
      assert a + b == a;
    } else {
      var b' := b[..|b| - 1];
      assert (a + b)[..|a + b| - 1] == a + b';
      assert (a + b)[|a + b| - 1] == b[|b| - 1];
      DocPutsAppend(a, b');
    }
  }

  lemma {:induction false} ChunkPutsAppend(a: seq<Op>, b: seq<Op>)
    ensures ChunkPuts(a + b) == ChunkPuts(a) + ChunkPuts(b)
  {
    if b == [] {
      assert a + b == a;
    } else {
      var b' := b[..|b| - 1];
      assert (a + b)[..|a + b| - 1] == a + b';
      assert (a + b)[|a + b| - 1] == b[|b| - 1];
      ChunkPutsAppend(a, b');
    }
  }

  lemma {:induction false} SectionPutsAppend(a: seq<Op>, b: seq<Op>)
    ensures SectionPuts(a + b) == SectionPuts(a) + SectionPuts(b)
  {
    if b == [] {
      assert a + b == a;
    } else {
      var b' := b[..|b| - 1];
      assert (a + b)[..|a + b| - 1] == a + b';
      assert (a + b)[|a + b| - 1] == b[|b| - 1];
      SectionPutsAppend(a, b');
    }
  }

  lemma {:induction false} EdgeSetAppend(a: seq<Op>, b: seq<Op>)
    ensures EdgeSet(a + b) == EdgeSet(a) + EdgeSet(b)
  {
    if b == [] {
      assert a + b == a;
    } else {
      var b' := b[..|b| - 1];
      assert (a + b)[..|a + b| - 1] == a + b';
      assert (a + b)[|a + b| - 1] == b[|b| - 1];
      EdgeSetAppend(a, b');
    }
  }

  /** Node writes never depend on what the store holds: every key written
      ends up with its last written properties, every other node is kept. */
  lemma {:induction false} RunNodes(g: Graph, ops: seq<Op>)
    ensures Run(g, ops).documents == g.documents + DocPuts(ops)
    ensures Run(g, ops).chunks == g.chunks + ChunkPuts(ops)
    ensures Run(g, ops).sections == g.sections + SectionPuts(ops)
  {
    if ops != [] {
      var pre := ops[..|ops| - 1];
      RunNodes(g, pre);
      var r := Run(g, pre);
      match ops[|ops| - 1]
      case UpsertDocument(id, a) =>
        UpdateUnion(g.documents, DocPuts(pre), id, a);
      case UpsertChunk(id, a) =>
        UpdateUnion(g.chunks, ChunkPuts(pre), id, a);
      case UpsertSection(id, a) =>
        UpdateUnion(g.sections, SectionPuts(pre), id, a);
      case MergeEdge(e) =>
    }
  }

  lemma UpdateUnion<K, V>(m: map<K, V>, p: map<K, V>, k: K, v: V)
    ensures (m + p)[k := v] == m + p[k := v]
  {
  }

  /** Edges are only ever added, and only the ones asked for. */
  lemma {:induction false} RunEdgesBounds(g: Graph, ops: seq<Op>)
    ensures g.edges <= Run(g, ops).edges <= g.edges + EdgeSet(ops)
  {
    if ops != [] {
      RunEdgesBounds(g, ops[..|ops| - 1]);
    }
  }

  /** Writes keep every edge between existing nodes. */
  lemma {:induction false} RunWellFormed(g: Graph, ops: seq<Op>)
    requires WellFormed(g)
    ensures WellFormed(Run(g, ops))
  {
    if ops != [] {
      var g' := Run(g, ops[..|ops| - 1]);
      RunWellFormed(g, ops[..|ops| - 1]);
      RunNodes(g, ops[..|ops| - 1]);
      RunNodes(g, ops);
      forall e | e in Run(g, ops).edges ensures HasEndpoints(Run(g, ops), e) {
        assert e in g'.edges || HasEndpoints(g', e);
      }
    }
  }

  /** The endpoints of e are written by ops themselves. */
  predicate EndpointsPut(ops: seq<Op>, e: Edge)
  {
    HasEndpoints(Graph(DocPuts(ops), ChunkPuts(ops), SectionPuts(ops), {}), e)
  }

  /** Every edge of kind k that b merges finds both its endpoints written,
      either by pre or by an earlier statement of b, whatever the store held
      before pre. */
  predicate EnabledAfter(pre: seq<Op>, b: seq<Op>, k: EdgeKind)
    decreases |b|
  {
    b == [] ||
    (EnabledAfter(pre, b[..|b| - 1], k) &&
     (b[|b| - 1].MergeEdge? && b[|b| - 1].edge.kind == k ==>
        EndpointsPut(pre + b[..|b| - 1], b[|b| - 1].edge)))
  }

  predicate SelfEnabledKind(ops: seq<Op>, k: EdgeKind)
  {
    EnabledAfter([], ops, k)
  }

  lemma EnabledSingleton(pre: seq<Op>, op: Op, k: EdgeKind)
    requires op.MergeEdge? && op.edge.kind == k ==> EndpointsPut(pre, op.edge)
    ensures EnabledAfter(pre, [op], k)
  {
    assert [op][..0] == [];
    assert pre + [] == pre;
  }

  lemma {:induction false} EnabledAppend(pre: seq<Op>, a: seq<Op>, b: seq<Op>, k: EdgeKind)
    requires EnabledAfter(pre, a, k) && EnabledAfter(pre + a, b, k)
    ensures EnabledAfter(pre, a + b, k)
    decreases |b|
  {
    if b == [] {
      assert a + b == a;
    } else {
      var b' := b[..|b| - 1];
      assert (a + b)[..|a + b| - 1] == a + b';
      assert (a + b)[|a + b| - 1] == b[|b| - 1];
      assert pre + (a + b') == (pre + a) + b';
      EnabledAppend(pre, a, b', k);
    }
  }

  /** Written endpoints stay written. */
  lemma EndpointsGrow(a: seq<Op>, b: seq<Op>, e: Edge)
    requires EndpointsPut(a, e)
    ensures EndpointsPut(a + b, e)
  {
    PutsAppend(a, b);
  }

  predicate SelfEnabled(ops: seq<Op>)
  {
    SelfEnabledKind(ops, Contains) && SelfEnabledKind(ops, Next)
    && SelfEnabledKind(ops, HasSection) && SelfEnabledKind(ops, Includes)
  }

  function KindEdges(es: set<Edge>, k: EdgeKind): set<Edge>
  {
    set e | e in es && e.kind == k
  }

  lemma EndpointsPutMonotone(g: Graph, ops: seq<Op>, e: Edge)
    requires EndpointsPut(ops, e)
    ensures HasEndpoints(Run(g, ops), e)
  {
    RunNodes(g, ops);
  }

  /** When the edges of one kind are self-enabled, the store ends with exactly
      the edges of that kind it had plus those asked for. */
  lemma {:induction false} RunKindEdges(g: Graph, ops: seq<Op>, k: EdgeKind)
    requires SelfEnabledKind(ops, k)
    ensures KindEdges(Run(g, ops).edges, k) == KindEdges(g.edges, k) + KindEdges(EdgeSet(ops), k)
  {
    if ops != [] {
      var n := |ops| - 1;
      var pre := ops[..n];
      assert [] + pre == pre;
      RunKindEdges(g, pre, k);
      var r := Run(g, pre);
      PutsAppend(pre, [ops[n]]);
      assert ops == pre + [ops[n]];
      if ops[n].MergeEdge? && ops[n].edge.kind == k {
        EndpointsPutMonotone(g, pre, ops[n].edge);
        var e := ops[n].edge;
        assert Run(g, ops).edges == r.edges + {e};
        assert EdgeSet(ops) == EdgeSet(pre) + {e};
        assert KindEdges(r.edges + {e}, k) == KindEdges(r.edges, k) + {e};
        assert KindEdges(EdgeSet(pre) + {e}, k) == KindEdges(EdgeSet(pre), k) + {e};
      } else {
        assert KindEdges(Run(g, ops).edges, k) == KindEdges(r.edges, k);
        assert KindEdges(EdgeSet(ops), k) == KindEdges(EdgeSet(pre), k);
      }
    }
  }

  /** With every edge self-enabled, the final edge set is exact. */
  lemma RunEdgesExact(g: Graph, ops: seq<Op>)
    requires SelfEnabled(ops)
    ensures Run(g, ops).edges == g.edges + EdgeSet(ops)
  {
    RunKindEdges(g, ops, Contains);
    RunKindEdges(g, ops, Next);
    RunKindEdges(g, ops, HasSection);
    RunKindEdges(g, ops, Includes);
    var r := Run(g, ops).edges;
    forall e | e in g.edges + EdgeSet(ops) ensures e in r {
      assert e in KindEdges(g.edges, e.kind) + KindEdges(EdgeSet(ops), e.kind);
    }
    RunEdgesBounds(g, ops);
  }

  /** MERGE and SET make a self-enabled batch of writes idempotent: running
      it a second time changes nothing. */
  lemma RunIdempotent(g: Graph, ops: seq<Op>)
    requires SelfEnabled(ops)
    ensures Run(Run(g, ops), ops) == Run(g, ops)
  {
    var g1 := Run(g, ops);
    RunNodes(g, ops);
    RunNodes(g1, ops);
    RunEdgesExact(g, ops);
    RunEdgesExact(g1, ops);
    assert g1.documents + DocPuts(ops) == g1.documents;
    assert g1.chunks + ChunkPuts(ops) == g1.chunks;
    assert g1.sections + SectionPuts(ops) == g1.sections;
  }
}
