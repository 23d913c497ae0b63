/** The context formatter of `get_relevant_context`: the vector store's
    answer to a query becomes one delimited context block plus the list of
    its sources. The vector store itself is an oracle argument. */
module Context {
  import opened Strings

  /** One retrieved passage: a document and the `source` of its metadata. */
  datatype Passage = Passage(document: string, source: string)

  /** What the vector store answers: nothing at all (`None` or an empty
      dictionary), or the first row of its `documents` and of its
      `metadatas` (each metadata reduced to its `source` value). */
  datatype QueryResult = NoResults | Results(documents: seq<string>, sources: seq<string>)

  /** The formatter's `(context, sources)` pair. */
  datatype ContextBlock = ContextBlock(context: string, sources: seq<string>)

  /** The vector store, queried with a question and a number of results. */
  type Retriever = (string, nat) -> QueryResult

  /** The number of passages asked for by default. */
  const TopK: nat := 3

  /** The text placed between two rendered passages. */
  const Separator := "\n\n---\n\n"

  function Min(a: int, b: int): int {
    if a <= b then a else b
  }

  /** The passages the formatter uses: documents and sources zipped
      together, none when the answer is empty or has no documents. */
  function Passages(r: QueryResult): (ps: seq<Passage>)
    ensures r.NoResults? || r.documents == [] ==> ps == []
    ensures r.Results? ==> |ps| == Min(|r.documents|, |r.sources|)
    ensures r.Results? ==> forall i :: 0 <= i < |ps| ==> ps[i] == Passage(r.documents[i], r.sources[i])
  {
    match r
    case NoResults => []
    case Results(docs, srcs) =>
      if docs == [] then []
      else seq(Min(|docs|, |srcs|), i requires 0 <= i < Min(|docs|, |srcs|) => Passage(docs[i], srcs[i]))
  }

  /** The header line naming a passage's source. */
  function Tag(source: string): string {
    "[Source: " + source + "]\n"
  }

  /** One passage rendered with its source tag in front. */
  function Render(p: Passage): (b: string)
    ensures b != ""
  {
    Tag(p.source) + p.document
  }

  function RenderAll(ps: seq<Passage>): seq<string> {
    seq(|ps|, i requires 0 <= i < |ps| => Render(ps[i]))
  }

  function SourcesOf(ps: seq<Passage>): seq<string> {
    seq(|ps|, i requires 0 <= i < |ps| => ps[i].source)
  }

  /** The formatter's answer for one query result. */
  function FormatContext(r: QueryResult): (c: ContextBlock)
    ensures |c.sources| == |Passages(r)|
    ensures forall i :: 0 <= i < |c.sources| ==> c.sources[i] == Passages(r)[i].source
    ensures c.context == "" <==> Passages(r) == []
  {
    var ps := Passages(r);
    JoinEmptyIff(RenderAll(ps), Separator);
    ContextBlock(Join(RenderAll(ps), Separator), SourcesOf(ps))
  }

  /** With no answer, or no documents in it, the formatter returns an empty
      context and no sources. */
  lemma NoDocumentsNoContext(r: QueryResult)
    requires r.NoResults? || r.documents == []
    ensures FormatContext(r) == ContextBlock("", [])
  {
  }

  /** Every zipped passage appears in the context with its tag in front,
      and its document text occurs there verbatim. */
  lemma PassageInContext(r: QueryResult, i: nat) returns (k: nat)
    requires i < |Passages(r)|
    ensures InfixAt(Render(Passages(r)[i]), FormatContext(r).context, k)
    ensures InfixAt(Passages(r)[i].document, FormatContext(r).context,
                    k + |Tag(Passages(r)[i].source)|)
  {
    var ps := Passages(r);
    var p := ps[i];
    var tag := Tag(p.source);
    k := JoinPartAt(RenderAll(ps), Separator, i);
    InfixInside(p.document, tag, p.document, "", 0);
    assert tag + p.document + "" == Render(p);
    var context := FormatContext(r).context;
    assert context[k..k + |Render(p)|] == Render(p);
    assert context[k + |tag|..k + |tag| + |p.document|] == Render(p)[|tag|..|tag| + |p.document|];
  }

  /** `get_relevant_context`: query the store, then build the rendered
      parts and the source list in one pass and join the parts. */
  method GetRelevantContext(question: string, nResults: nat, retrieve: Retriever)
    returns (context: string, sources: seq<string>)
    ensures ContextBlock(context, sources) == FormatContext(retrieve(question, nResults))
  {
    var results := retrieve(question, nResults);
    if results.NoResults? || results.documents == [] {
      return "", [];
    }
    var docs, metas := results.documents, results.sources;
    var parts: seq<string> := [];
    sources := [];
    var i := 0;
    while i < |docs| && i < |metas|
      invariant i <= Min(|docs|, |metas|)
      invariant |parts| == i && |sources| == i
      invariant forall j :: 0 <= j < i ==> parts[j] == Render(Passage(docs[j], metas[j]))
      invariant forall j :: 0 <= j < i ==> sources[j] == metas[j]
    {
      parts := parts + [Render(Passage(docs[i], metas[i]))];
      sources := sources + [metas[i]];
      i := i + 1;
    }
    assert parts == RenderAll(Passages(results));
    assert sources == SourcesOf(Passages(results));
    context := Join(parts, Separator);
  }
}
