/** The values that travel through the pipeline: Python dictionaries with a
    fixed set of keys become datatypes, optional keys become Option fields. */
module Records {

  datatype Option<T> = None | Some(value: T)
  {
    /** Python's dict.get(key, default). */
    function GetOr(default: T): T
    {
      match this
      case None => default
      case Some(v) => v
    }
  }

  datatype Result<T> = Ok(value: T) | Err(message: string)

  predicate IsHexDigit(c: char)
  {
    ('0' <= c <= '9') || ('a' <= c <= 'f')
  }

  /** A SHA-1 hex digest: 40 lower-case hex characters. */
  type Digest = s: string | |s| == 40 && forall i :: 0 <= i < |s| ==> IsHexDigit(s[i])
    witness "0000000000000000000000000000000000000000"

  /** The hash is not modelled; every identifier is built from some function
      of this type. UTF-8 encoding is injective, so hashing the string stands
      for hashing its bytes. */
  type Hasher = string -> Digest

  /** The first 12 hex characters of the digest of s. */
  function ShortHash(sha1: Hasher, s: string): (h: string)
    ensures |h| == 12
    ensures forall i :: 0 <= i < |h| ==> IsHexDigit(h[i])
  {
    sha1(s)[..12]
  }

  /** A bounding box [l, t, r, b]. */
  datatype Box = Box(l: real, t: real, r: real, b: real)

  const ZeroBox := Box(0.0, 0.0, 0.0, 0.0)

  /** The metadata dictionary that parse_pdf builds for a document. */
  datatype DocMetadata = DocMetadata(
    docId: string, filename: string, filepath: string, title: string, pageCount: int)

  /** The chunk dictionary: the keys parse_pdf writes, plus the two optional
      keys the later stages read with .get (a missing "headings" key reads
      as the empty list, which the ingestion treats alike). */
  datatype ChunkData = ChunkData(
    chunkId: string,
    docId: string,
    text: string,
    pageNum: int,
    bbox: Box,
    headings: seq<string>,
    chunkIndex: int,
    tokenCount: int,
    textForEmbedding: Option<string>,
    embedding: Option<seq<real>>)

  /** A parsed document: {"metadata": ..., "chunks": [...]}. */
  datatype ParsedDoc = ParsedDoc(metadata: DocMetadata, chunks: seq<ChunkData>)
}
