/** The two pieces of the web layer with logic of their own: turning
    [chunk_id] citations in an answer into links to the viewer, and the
    file-name check of the upload route. */
module Api {
  import opened Records
  import opened Strings
  import opened Retrieval

  // ---------------------------------------------------------------------
  // create_clickable_citations

  /** The dictionary {chunk["chunk_id"]: chunk for chunk in chunks}: a later
      chunk with the same id replaces an earlier one. */
  function ChunkMap(chunks: seq<SearchResult>): (m: map<string, ChunkRecord>)
    ensures forall k :: k in m <==> exists i :: 0 <= i < |chunks| && chunks[i].rec.chunkId == k
  {
    if chunks == [] then map[]
    else
      var last := chunks[|chunks| - 1];
      ChunkMap(chunks[..|chunks| - 1])[last.rec.chunkId := last.rec]
  }

  /** The entry for an id is the record of the last chunk carrying it. */
  lemma {:induction false} ChunkMapLast(chunks: seq<SearchResult>, i: nat)
    requires i < |chunks|
    requires forall j :: i < j < |chunks| ==> chunks[j].rec.chunkId != chunks[i].rec.chunkId
    ensures ChunkMap(chunks)[chunks[i].rec.chunkId] == chunks[i].rec
  {
    var n := |chunks| - 1;
    if i < n {
      var init := chunks[..n];
      forall j | i < j < |init| ensures init[j].rec.chunkId != init[i].rec.chunkId {
        assert init[j] == chunks[j];
      }
      ChunkMapLast(init, i);
      assert init[i] == chunks[i];
    }
  }

  /** The four values of a box as str renders them; str on a float is a
      parameter. */
  function BoxValues(b: Box, showReal: real -> string): (vs: seq<string>)
    ensures |vs| == 4
  {
    [showReal(b.l), showReal(b.t), showReal(b.r), showReal(b.b)]
  }

  /** The bbox list rendered with ','.join(map(str, bbox)). */
  function BboxText(b: Box, showReal: real -> string): string
  {
    Join(BoxValues(b, showReal), ",")
  }

  /** The viewer URL of a cited chunk. */
  function ViewerUrl(c: ChunkRecord, chunkId: string, showReal: real -> string): string
  {
    "/viewer?doc=" + c.docId + "&page=" + IntToString(c.pageNum)
    + "&bbox=" + BboxText(c.bbox, showReal) + "&chunk=" + chunkId
  }

  /** The anchor that replaces a known citation. */
  function Anchor(c: ChunkRecord, chunkId: string, showReal: real -> string): string
  {
    "<a href=\"" + ViewerUrl(c, chunkId, showReal) + "\" target=\"_blank\">[" + chunkId + "]</a>"
  }

  /** If a match of \[([^\]]+)\] starts at the head of s, the length of its
      group: a run of at least one character other than ']' that is
      followed by ']'. */
  function MatchAt(s: string): (k: Option<nat>)
    ensures k.Some? ==> 0 < k.value && k.value + 2 <= |s| && s[0] == '[' && s[k.value + 1] == ']'
                        && ']' !in s[1..k.value + 1]
  {
    if s == [] || s[0] != '[' then None
    else
      var k := IndexOf(s[1..], ']');
      if 0 < k < |s| - 1 then Some(k) else None
  }

  /** The replacement function: the anchor for a known id, the match
      itself otherwise. */
  function Replace(x: string, m: map<string, ChunkRecord>, showReal: real -> string): string
  {
    if x in m then Anchor(m[x], x, showReal) else "[" + x + "]"
  }

  /** re.sub(r'\[([^\]]+)\]', replace, s) for a replacer that sees only
      the group: scan left to right, replace each match, resume after it. */
  function Sub(s: string, replace: string -> string): string
    decreases |s|
  {
    if s == [] then []
    else
      match MatchAt(s)
      case Some(k) => replace(s[1..k + 1]) + Sub(s[k + 2..], replace)
      case None => [s[0]] + Sub(s[1..], replace)
  }

  /** The replacer of create_clickable_citations over a chunk map. */
  function Replacer(m: map<string, ChunkRecord>, showReal: real -> string): string -> string
  {
    x => Replace(x, m, showReal)
  }

  /** create_clickable_citations(text, chunks). */
  function CreateClickableCitations(text: string, chunks: seq<SearchResult>, showReal: real -> string)
    : (r: string)
    ensures chunks == [] ==> r == text
    ensures NoCitation(text) ==> r == text
  {
    var f := Replacer(ChunkMap(chunks), showReal);
    var r := Sub(text, f);
    if chunks == [] then
      assert forall x :: f(x) == "[" + x + "]";
      SubIdentity(text, f);
      r
    else if NoCitation(text) then
      NoBrackets(text, f);
      r
    else
      r
  }

  /** No match of the citation pattern starts anywhere in s. */
  predicate NoCitation(s: string)
  {
    forall i :: 0 <= i < |s| ==> MatchAt(s[i..]).None?
  }

  /** A citation matches exactly when its content is non-empty and holds
      no ']'. */
  lemma CitationMatches(x: string, rest: string)
    requires x != [] && ']' !in x
    ensures MatchAt("[" + x + "]" + rest) == Some(|x|)
  {
    var s := "[" + x + "]" + rest;
    assert s[1..] == x + ("]" + rest);
    IndexOfPrefix(x, "]" + rest, ']');
  }

  lemma {:induction false} IndexOfPrefix(x: string, t: string, c: char)
    requires c !in x && t != [] && t[0] == c
    ensures IndexOf(x + t, c) == |x|
  {
    if x != [] {
      assert (x + t)[1..] == x[1..] + t;
      IndexOfPrefix(x[1..], t, c);
    } else {
      assert x + t == t;
    }
  }

  /** A citation at the head of the text is handed to the replacer, and
      the scan resumes after it. */
  lemma SubCitation(x: string, rest: string, replace: string -> string)
    requires x != [] && ']' !in x
    ensures Sub("[" + x + "]" + rest, replace) == replace(x) + Sub(rest, replace)
  {
    var s := "[" + x + "]" + rest;
    CitationMatches(x, rest);
    assert s[1..|x| + 1] == x;
    assert s[|x| + 2..] == rest;
  }

  /** A known citation becomes its anchor. */
  lemma KnownCitation(x: string, rest: string, chunks: seq<SearchResult>, showReal: real -> string)
    requires x != [] && ']' !in x
    requires exists i :: 0 <= i < |chunks| && chunks[i].rec.chunkId == x
    ensures var m := ChunkMap(chunks);
      CreateClickableCitations("[" + x + "]" + rest, chunks, showReal)
      == Anchor(m[x], x, showReal) + CreateClickableCitations(rest, chunks, showReal)
  {
    var m := ChunkMap(chunks);
    SubCitation(x, rest, Replacer(m, showReal));
    assert Replacer(m, showReal)(x) == Anchor(m[x], x, showReal);
  }

  /** The visible text of an anchor is still [x]. */
  lemma AnchorText(c: ChunkRecord, x: string, showReal: real -> string)
    ensures EndsWith(Anchor(c, x, showReal), "[" + x + "]</a>")
  {
    var a := Anchor(c, x, showReal);
    var tail := "[" + x + "]</a>";
    var head := "<a href=\"" + ViewerUrl(c, x, showReal) + "\" target=\"_blank\">";
    assert a == head + tail;
    assert a[|a| - |tail|..] == tail;
  }

  /** An unknown citation is copied exactly as matched. */
  lemma UnknownCitation(x: string, rest: string, chunks: seq<SearchResult>, showReal: real -> string)
    requires x != [] && ']' !in x
    requires forall i :: 0 <= i < |chunks| ==> chunks[i].rec.chunkId != x
    ensures CreateClickableCitations("[" + x + "]" + rest, chunks, showReal)
      == "[" + x + "]" + CreateClickableCitations(rest, chunks, showReal)
  {
    SubCitation(x, rest, Replacer(ChunkMap(chunks), showReal));
  }

  /** Text in which no citation matches comes back unchanged. */
  lemma {:induction false} NoBrackets(s: string, replace: string -> string)
    requires NoCitation(s)
    ensures Sub(s, replace) == s
  {
    if s != [] {
      assert s[0..] == s;
      forall i | 0 <= i < |s[1..]| ensures MatchAt(s[1..][i..]).None? {
        assert s[1..][i..] == s[i + 1..];
      }
      NoBrackets(s[1..], replace);
      assert [s[0]] + s[1..] == s;
    }
  }

  /** Text without '[' holds no citation, but so does "[]" or a '[' never
      closed. */
  lemma NoCitationExamples(s: string)
    requires '[' !in s
    ensures NoCitation(s) && NoCitation("[]") && NoCitation("see [1")
  {
    assert MatchAt("[]") == None by {
      assert "[]"[1..] == "]";
    }
    assert MatchAt("]") == None;
    assert MatchAt("see [1"[4..]) == None by {
      assert "see [1"[4..][1..] == "1";
      assert IndexOf("1", ']') == 1;
    }
    forall i | 0 <= i < |"see [1"| ensures MatchAt("see [1"[i..]).None? {
      if i != 4 {
        assert "see [1"[i..][0] == "see [1"[i];
      }
    }
  }

  /** A replacer that gives every match back as it was leaves the text
      unchanged. */
  lemma {:induction false} SubIdentity(s: string, replace: string -> string)
    requires forall x :: replace(x) == "[" + x + "]"
    ensures Sub(s, replace) == s
  {
    if s != [] {
      match MatchAt(s)
      case Some(k) =>
        SubIdentity(s[k + 2..], replace);
        MatchSplits(s, k);
      case None =>
        SubIdentity(s[1..], replace);
        assert [s[0]] + s[1..] == s;
    }
  }

  /** A match cuts the text into `[`, its group, `]` and the rest. */
  lemma MatchSplits(s: string, k: nat)
    requires MatchAt(s) == Some(k)
    ensures s == "[" + s[1..k + 1] + "]" + s[k + 2..]
  {
    assert s == s[..1] + s[1..k + 1] + s[k + 1..k + 2] + s[k + 2..];
  }

  /** With no chunks every match is unknown, so the text comes back
      unchanged whatever it holds. */
  lemma NoChunksIdentity(s: string, showReal: real -> string)
    ensures CreateClickableCitations(s, [], showReal) == s
  {
    SubIdentity(s, Replacer(ChunkMap([]), showReal));
  }

  /** The link names the chunk's document and page before the box, the
      chunk id after it, and the box text in between. */
  lemma ViewerUrlFields(c: ChunkRecord, chunkId: string, showReal: real -> string)
    ensures var u := ViewerUrl(c, chunkId, showReal);
      var pre := "/viewer?doc=" + c.docId + "&page=" + IntToString(c.pageNum) + "&bbox=";
      var suf := "&chunk=" + chunkId;
      StartsWith(u, pre) && EndsWith(u, suf) && |pre| + |suf| <= |u|
      && u[|pre|..|u| - |suf|] == BboxText(c.bbox, showReal)
  {
    var pre := "/viewer?doc=" + c.docId + "&page=" + IntToString(c.pageNum) + "&bbox=";
    var u := ViewerUrl(c, chunkId, showReal);
    assert u == pre + BboxText(c.bbox, showReal) + ("&chunk=" + chunkId);
  }

  /** When no rendered value contains ',', the box part of the link splits
      back into the four values in the order l, t, r, b. */
  lemma ViewerUrlBox(c: ChunkRecord, chunkId: string, showReal: real -> string)
    requires forall i :: 0 <= i < 4 ==> ',' !in BoxValues(c.bbox, showReal)[i]
    ensures var u := ViewerUrl(c, chunkId, showReal);
      var pre := "/viewer?doc=" + c.docId + "&page=" + IntToString(c.pageNum) + "&bbox=";
      var suf := "&chunk=" + chunkId;
      |pre| + |suf| <= |u|
      && SplitOn(u[|pre|..|u| - |suf|], ',') == BoxValues(c.bbox, showReal)
  {
    ViewerUrlFields(c, chunkId, showReal);
    SplitJoin(BoxValues(c.bbox, showReal), ',');
  }

  // ---------------------------------------------------------------------
  // upload_pdf

  datatype Upload = Rejected(status: int, detail: string) | Accepted(path: string)

  /** The check of upload_pdf: the lower-cased name must end in ".pdf";
      an accepted file is saved as {inputDir}/{fileId}_{filename}. The
      uuid is a parameter. */
  function CheckUpload(filename: string, fileId: string, inputDir: string): (u: Upload)
    ensures u.Rejected? <==> !EndsWith(Lower(filename), ".pdf")
    ensures u.Rejected? ==> u.status == 400
    ensures u.Accepted? ==> StartsWith(u.path, inputDir + "/" + fileId + "_")
                            && EndsWith(u.path, "_" + filename)
                            && |u.path| == |inputDir| + |fileId| + |filename| + 2
  {
    if !EndsWith(Lower(filename), ".pdf") then Rejected(400, "Only PDF files are allowed")
    else Accepted(inputDir + "/" + fileId + "_" + filename)
  }

  /** The check ignores case: names with one lower-case form are treated
      alike. */
  lemma UploadIgnoresCase(f1: string, f2: string, fileId: string, inputDir: string)
    requires Lower(f1) == Lower(f2)
    ensures CheckUpload(f1, fileId, inputDir).Accepted? == CheckUpload(f2, fileId, inputDir).Accepted?
  {
  }
}
