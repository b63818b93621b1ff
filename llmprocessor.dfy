/** The deterministic parts of the answer generator: the answer written
    without a language model, the query variations, and the choice and
    layout of the context handed to the model. The model calls themselves
    are parameters. */
module LlmProcessor {
  import opened Records
  import opened Strings
  import opened Collections
  import opened Retrieval

  /** The providers for which a client can be built; any other provider
      name, or a missing package, leaves the client unset. */
  datatype Provider = OpenAI | Ollama

  const NoResultsMessage: string := "No relevant information found in the documents."

  // ---------------------------------------------------------------------
  // _fallback_answer

  /** A result text cut to its first 200 characters plus "..." when it is
      longer than 200. */
  function Truncate(text: string): (r: string)
    ensures |text| <= 200 ==> r == text
    ensures |text| > 200 ==> |r| == 203 && r[..200] == text[..200] && EndsWith(r, "...")
  {
    if |text| > 200 then text[..200] + "..." else text
  }

  function FallbackHeader(query: string): string
  {
    "Based on the search for '" + query + "', here are the relevant findings:\n"
  }

  /** The numbered line for the result at position i (numbered from 1). */
  function FallbackItem(i: nat, r: SearchResult): string
  {
    "\n" + NatToString(i + 1) + ". " + Truncate(r.rec.text) + " [" + r.rec.chunkId + "]"
  }

  /** The parts joined with newlines: the header, then the first three
      results. */
  function FallbackParts(query: string, results: seq<SearchResult>): (parts: seq<string>)
    ensures |parts| == 1 + |Take(results, 3)|
  {
    var top := Take(results, 3);
    [FallbackHeader(query)] + seq(|top|, i requires 0 <= i < |top| => FallbackItem(i, top[i]))
  }

  function FallbackText(query: string, results: seq<SearchResult>): string
  {
    if results == [] then NoResultsMessage else Join(FallbackParts(query, results), "\n")
  }

  /** _fallback_answer: the loop over the first three results. */
  method FallbackAnswer(query: string, results: seq<SearchResult>) returns (answer: string)
    ensures results == [] ==> answer == NoResultsMessage
    ensures results != [] ==> answer == Join(FallbackParts(query, results), "\n")
  {
    if results == [] {
      return NoResultsMessage;
    }
    var top := Take(results, 3);
    var parts := [FallbackHeader(query)];
    for i := 0 to |top|
      invariant |parts| == i + 1 && parts[0] == FallbackHeader(query)
      invariant forall j :: 0 <= j < i ==> parts[j + 1] == FallbackItem(j, top[j])
    {
      parts := parts + [FallbackItem(i, top[i])];
    }
    assert parts == FallbackParts(query, results);
    answer := Join(parts, "\n");
  }

  /** The shape of the answer: a header naming the query, then one
      numbered item per result up to three, each ending with its chunk id
      in brackets. */
  lemma FallbackShape(query: string, results: seq<SearchResult>)
    requires results != []
    ensures var parts := FallbackParts(query, results);
      FallbackText(query, results) == Join(parts, "\n")
      && |parts| == 1 + (if |results| < 3 then |results| else 3)
      && StartsWith(parts[0], "Based on the search for '" + query + "'")
      && forall i :: 0 <= i < |parts| - 1 ==>
           StartsWith(parts[i + 1], "\n" + NatToString(i + 1) + ". ")
           && EndsWith(parts[i + 1], " [" + results[i].rec.chunkId + "]")
  {
    var parts := FallbackParts(query, results);
    var top := Take(results, 3);
    HeaderShape(query);
    forall i | 0 <= i < |parts| - 1
      ensures StartsWith(parts[i + 1], "\n" + NatToString(i + 1) + ". ")
      ensures EndsWith(parts[i + 1], " [" + results[i].rec.chunkId + "]")
    {
      assert top[i] == results[i];
      ItemShape(i, results[i]);
    }
  }

  lemma HeaderShape(query: string)
    ensures StartsWith(FallbackHeader(query), "Based on the search for '" + query + "'")
  {
    var head := "Based on the search for '" + query + "'";
    assert FallbackHeader(query) == head + "', here are the relevant findings:\n"[1..];
  }

  lemma ItemShape(i: nat, r: SearchResult)
    ensures StartsWith(FallbackItem(i, r), "\n" + NatToString(i + 1) + ". ")
    ensures EndsWith(FallbackItem(i, r), " [" + r.rec.chunkId + "]")
  {
    var head := "\n" + NatToString(i + 1) + ". ";
    var tail := " [" + r.rec.chunkId + "]";
    var x := FallbackItem(i, r);
    assert x == head + (Truncate(r.rec.text) + tail);
    assert x[..|head|] == head;
    assert x == (head + Truncate(r.rec.text)) + tail;
    assert x[|x| - |tail|..] == tail;
  }

  // ---------------------------------------------------------------------
  // generate_query_variations

  /** " ".join(query.split()[:5]). */
  function FirstWords(query: string): string
  {
    Join(Take(Words(query), 5), " ")
  }

  /** The four candidates of the client-less branch, in the order they
      are appended. */
  function SimpleCandidates(query: string): seq<string>
  {
    [query, Lower(query), RemoveChar(query, '?'), FirstWords(query)]
  }

  /** [q.strip() for q in lines if q.strip()]. */
  function StrippedLines(lines: seq<string>): (r: seq<string>)
    ensures |r| <= |lines|
    ensures forall i :: 0 <= i < |r| ==> r[i] != [] && r[i] in Elements(Map(lines, Strip))
    ensures forall i :: 0 <= i < |lines| && Strip(lines[i]) != [] ==> Strip(lines[i]) in r
  {
    if lines == [] then []
    else
      var s := Strip(lines[0]);
      var rest := StrippedLines(lines[1..]);
      assert Map(lines, Strip) == [s] + Map(lines[1..], Strip);
      (if s == [] then [] else [s]) + rest
  }

  /** The comprehension keeps the order of the lines: it maps a
      concatenation to the concatenation of its parts. */
  lemma {:induction false} StrippedLinesAppend(a: seq<string>, b: seq<string>)
    ensures StrippedLines(a + b) == StrippedLines(a) + StrippedLines(b)
  {
    if a == [] {
      assert a + b == b;
    } else {
      assert (a + b)[0] == a[0] && (a + b)[1..] == a[1..] + b;
      StrippedLinesAppend(a[1..], b);
    }
  }

  /** One line gives its stripped form, or nothing when that is empty. */
  lemma StrippedLine(l: string)
    ensures StrippedLines([l]) == if Strip(l) == [] then [] else [Strip(l)]
  {
    assert [l][1..] == [];
  }

  function Map(xs: seq<string>, f: string -> string): (r: seq<string>)
    ensures |r| == |xs| && forall i :: 0 <= i < |xs| ==> r[i] == f(xs[i])
  {
    seq(|xs|, i requires 0 <= i < |xs| => f(xs[i]))
  }

  /** generate_query_variations. Without a client the candidates are
      deduplicated; list(set(...)) has no fixed order, and the model keeps
      first occurrences. With an OpenAI client the reply is split into
      lines (None when the call raised); the Ollama branch adds nothing.
      At most four are returned. */
  method GenerateQueryVariations(query: string, client: Option<Provider>, reply: Option<string>)
    returns (variations: seq<string>)
    ensures query in variations && 1 <= |variations| <= 4
    ensures client.None? ==>
      (DistinctKeys(variations, (x: string) => x)
       && forall v :: v in variations <==> v in SimpleCandidates(query))
    ensures client.Some? ==>
      (variations[0] == query
       && (client == Some(OpenAI) && reply.Some? ==>
             forall i :: 1 <= i < |variations| ==>
               variations[i] != [] && variations[i] in Elements(Map(SplitOn(Strip(reply.value), '\n'), Strip)))
       && (client == Some(Ollama) || reply.None? ==> variations == [query]))
  {
    variations := [query];
    if client.None? {
      variations := variations + [Lower(query), RemoveChar(query, '?'), FirstWords(query)];
      var id := (x: string) => x;
      var d := DedupBy(variations, id);
      assert KeySet(d, id) == KeySet(variations, id);
      forall v ensures v in d <==> v in variations {
        if v in d {
          DedupSubset(variations, id);
        }
        if v in variations {
          var i :| 0 <= i < |variations| && variations[i] == v;
          assert id(variations[i]) in KeySet(d, id);
          KeySetWitness(d, id, v);
        }
      }
      assert query in d;
      return d;
    }
    if client == Some(OpenAI) && reply.Some? {
      var alt := SplitOn(Strip(reply.value), '\n');
      variations := variations + StrippedLines(alt);
    }
    assert variations[0] == query;
    variations := Take(variations, 4);
    assert variations[0] == query;
  }

  // ---------------------------------------------------------------------
  // generate_answer_with_citations

  /** One context entry: "[chunk_id] (Page n, h1 > h2): text". */
  function ContextPart(r: SearchResult): string
  {
    "[" + r.rec.chunkId + "] (Page " + IntToString(r.rec.pageNum) + ", "
    + Join(r.rec.sectionHeadings, " > ") + "): " + r.rec.text
  }

  /** The entries of the first five results. */
  function ContextParts(results: seq<SearchResult>): (parts: seq<string>)
    ensures |parts| == |Take(results, 5)|
  {
    var top := Take(results, 5);
    seq(|top|, i requires 0 <= i < |top| => ContextPart(top[i]))
  }

  /** The context loop: at most five entries, joined by blank lines. */
  method BuildContext(results: seq<SearchResult>) returns (context: string)
    ensures context == Join(ContextParts(results), "\n\n")
  {
    var top := Take(results, 5);
    var parts: seq<string> := [];
    for i := 0 to |top|
      invariant |parts| == i
      invariant forall j :: 0 <= j < i ==> parts[j] == ContextPart(top[j])
    {
      parts := parts + [ContextPart(top[i])];
    }
    assert parts == ContextParts(results);
    context := Join(parts, "\n\n");
  }

  /** Each entry opens with the cited id and page and closes with the
      result's text, and only the first five results are used. */
  lemma ContextShape(results: seq<SearchResult>)
    ensures var parts := ContextParts(results);
      |parts| == (if |results| < 5 then |results| else 5)
      && forall i :: 0 <= i < |parts| ==>
           StartsWith(parts[i], "[" + results[i].rec.chunkId + "] (Page " + IntToString(results[i].rec.pageNum) + ", ")
           && EndsWith(parts[i], "): " + results[i].rec.text)
    ensures |results| > 5 ==> ContextParts(results) == ContextParts(results[..5])
  {
    var parts := ContextParts(results);
    var top := Take(results, 5);
    forall i | 0 <= i < |parts|
      ensures StartsWith(parts[i], "[" + results[i].rec.chunkId + "] (Page " + IntToString(results[i].rec.pageNum) + ", ")
      ensures EndsWith(parts[i], "): " + results[i].rec.text)
    {
      var r := results[i];
      assert top[i] == r;
      var head := "[" + r.rec.chunkId + "] (Page " + IntToString(r.rec.pageNum) + ", ";
      var tail := "): " + r.rec.text;
      assert parts[i] == head + Join(r.rec.sectionHeadings, " > ") + tail;
    }
    if |results| > 5 {
      assert Take(results[..5], 5) == top;
    }
  }

  /** generate_answer_with_citations. The prompt and the chat call are one
      parameter: it gets the provider, the context and the query, and
      answers None when the call raises. */
  method GenerateAnswerWithCitations(query: string, results: seq<SearchResult>, client: Option<Provider>,
                                     llm: (Provider, string, string) -> Option<string>)
    returns (answer: string)
    ensures client.None? || results == [] ==> answer == FallbackText(query, results)
    ensures client.Some? && results != [] ==>
      answer == llm(client.value, Join(ContextParts(results), "\n\n"), query).GetOr(FallbackText(query, results))
  {
    if client.None? || results == [] {
      answer := FallbackAnswer(query, results);
      return;
    }
    var context := BuildContext(results);
    var reply := llm(client.value, context, query);
    if reply.Some? {
      answer := reply.value;
    } else {
      answer := FallbackAnswer(query, results);
    }
  }
}
