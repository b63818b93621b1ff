/** Attaching embeddings to parsed chunks. The sentence encoder is a
    parameter: a function from a batch of texts to a batch of vectors. */
module Embeddings {
  import opened Records

  type Encoder = seq<string> -> seq<seq<real>>

  /** generate_embeddings_batch: the empty batch is answered without
      calling the encoder. */
  function GenerateEmbeddingsBatch(texts: seq<string>, encode: Encoder): (r: seq<seq<real>>)
    ensures texts == [] ==> r == []
    ensures texts != [] ==> r == encode(texts)
  {
    if texts == [] then [] else encode(texts)
  }

  /** The text embedded for a chunk: text_for_embedding when present,
      text otherwise. */
  function EmbedText(c: ChunkData): string
  {
    c.textForEmbedding.GetOr(c.text)
  }

  function EmbedTexts(cs: seq<ChunkData>): (ts: seq<string>)
    ensures |ts| == |cs|
  {
    seq(|cs|, i requires 0 <= i < |cs| => EmbedText(cs[i]))
  }

  /** The chunks after the zip loop: chunk i gets vector i while both
      lists last. */
  function WithEmbeddings(cs: seq<ChunkData>, es: seq<seq<real>>): seq<ChunkData>
  {
    if cs == [] || es == [] then cs
    else [cs[0].(embedding := Some(es[0]))] + WithEmbeddings(cs[1..], es[1..])
  }

  /** The chunks as add_embeddings_to_chunks leaves them. */
  function Embedded(cs: seq<ChunkData>, encode: Encoder): seq<ChunkData>
  {
    WithEmbeddings(cs, GenerateEmbeddingsBatch(EmbedTexts(cs), encode))
  }

  /** Positional attachment: the list keeps its length, chunk i receives
      vector i when there is one, and no other field changes. */
  lemma {:induction false} WithEmbeddingsSpec(cs: seq<ChunkData>, es: seq<seq<real>>)
    ensures var r := WithEmbeddings(cs, es);
      |r| == |cs|
      && (forall i :: 0 <= i < |cs| && i < |es| ==> r[i].embedding == Some(es[i]))
      && (forall i :: 0 <= i < |cs| && |es| <= i ==> r[i] == cs[i])
      && forall i :: 0 <= i < |cs| ==> r[i].(embedding := cs[i].embedding) == cs[i]
  {
    if cs != [] && es != [] {
      WithEmbeddingsSpec(cs[1..], es[1..]);
      var r := WithEmbeddings(cs, es);
      var t := WithEmbeddings(cs[1..], es[1..]);
      assert r == [cs[0].(embedding := Some(es[0]))] + t;
      forall i | 0 < i < |cs|
        ensures i < |es| ==> r[i].embedding == Some(es[i])
        ensures |es| <= i ==> r[i] == cs[i]
        ensures r[i].(embedding := cs[i].embedding) == cs[i]
      {
        assert r[i] == t[i - 1] && cs[i] == cs[1..][i - 1];
      }
    }
  }

  /** With an encoder that answers one vector per text, every chunk gets
      the vector of its own text, and nothing else about it changes. */
  lemma EmbeddedSpec(cs: seq<ChunkData>, encode: Encoder)
    requires |encode(EmbedTexts(cs))| == |cs|
    ensures var r := Embedded(cs, encode);
      |r| == |cs|
      && forall i :: 0 <= i < |cs| ==>
           r[i].embedding == Some(encode(EmbedTexts(cs))[i])
           && EmbedTexts(cs)[i] == cs[i].textForEmbedding.GetOr(cs[i].text)
           && r[i].(embedding := cs[i].embedding) == cs[i]
  {
    if cs == [] {
      assert EmbedTexts(cs) == [];
    } else {
      WithEmbeddingsSpec(cs, encode(EmbedTexts(cs)));
    }
  }

  /** An empty chunk list comes back as it is. */
  lemma EmbeddedEmpty(encode: Encoder)
    ensures Embedded([], encode) == []
  {
    assert EmbedTexts([]) == [];
  }

  /** add_embeddings_to_chunks on the list in place. */
  method AddEmbeddingsToChunks(chunks: array<ChunkData>, encode: Encoder)
    modifies chunks
    ensures chunks[..] == Embedded(old(chunks[..]), encode)
  {
    if chunks.Length == 0 {
      return;
    }
    ghost var cs := chunks[..];
    var texts := EmbedTexts(chunks[..]);
    var embeddings := GenerateEmbeddingsBatch(texts, encode);
    WithEmbeddingsSpec(cs, embeddings);
    ghost var target := WithEmbeddings(cs, embeddings);
    var n := if chunks.Length < |embeddings| then chunks.Length else |embeddings|;
    for i := 0 to n
      invariant forall j :: 0 <= j < i ==> chunks[j] == target[j]
      invariant forall j :: i <= j < chunks.Length ==> chunks[j] == cs[j]
    {
      chunks[i] := chunks[i].(embedding := Some(embeddings[i]));
      assert target[i] == cs[i].(embedding := Some(embeddings[i])) by {
        assert target[i].embedding == Some(embeddings[i]);
        assert target[i].(embedding := cs[i].embedding) == cs[i];
      }
    }
    assert chunks[..] == target;
  }

  /** add_embeddings_to_documents: each document's chunk list is replaced
      by its embedded form; the documents and their metadata stay. */
  method AddEmbeddingsToDocuments(documents: array<ParsedDoc>, encode: Encoder)
    modifies documents
    ensures forall i :: 0 <= i < documents.Length ==>
      documents[i] == old(documents[i]).(chunks := Embedded(old(documents[i]).chunks, encode))
  {
    for i := 0 to documents.Length
      invariant forall j :: 0 <= j < i ==>
        documents[j] == old(documents[j]).(chunks := Embedded(old(documents[j]).chunks, encode))
      invariant forall j :: i <= j < documents.Length ==> documents[j] == old(documents[j])
    {
      documents[i] := documents[i].(chunks := Embedded(documents[i].chunks, encode));
    }
  }

  /** The whole batch: as many documents, each with its metadata and as
      many chunks. */
  lemma DocumentsKeepShape(d: ParsedDoc, encode: Encoder)
    ensures var e := d.(chunks := Embedded(d.chunks, encode));
      e.metadata == d.metadata && |e.chunks| == |d.chunks|
  {
    WithEmbeddingsSpec(d.chunks, GenerateEmbeddingsBatch(EmbedTexts(d.chunks), encode));
  }
}
