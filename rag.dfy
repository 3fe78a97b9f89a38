/** The knowledge-base side: the greedy word chunker, the normalisation of
    extracted PDF page text, ingestion of an upload into the `documents`
    table, and the context string built from the nearest stored chunks.
    PDF extraction, text decoding, the embedder and the vector search are not
    modelled: their results are parameters. */
module Rag {
  import opened Wrappers
  import opened PyStr

  const DefaultChunkSize := 500
  const MatchThreshold: real := 0.1
  const MatchCount: nat := 3
  const EmptyDocument := "Empty document"
  const IngestedMessage := "Document successfully ingested into Knowledge Base."
  const ContextSeparator := "\n---\n"

  // -----------------------------------------------------------------------
  // The chunker
  // -----------------------------------------------------------------------

  /** The running total the chunker keeps for a list of words: the sum of
      `len(word) + 1`. */
  function Cost(ws: seq<string>): nat {
    if ws == [] then 0 else Cost(ws[..|ws| - 1]) + |ws[|ws| - 1]| + 1
  }

  /** The groups of words the chunker emits for `words`, given the open
      group `cur` whose running total is `len`: each word joins the open
      group, and the group closes as soon as its total reaches `size`; a
      group still open at the end is emitted too. */
  function Greedy(words: seq<string>, size: int, cur: seq<string>, len: int): seq<seq<string>>
    decreases |words|
  {
    if words == [] then (if cur == [] then [] else [cur])
    else
      var cur', len' := cur + [words[0]], len + |words[0]| + 1;
      if len' >= size then [cur'] + Greedy(words[1..], size, [], 0)
      else Greedy(words[1..], size, cur', len')
  }

  /** The groups for a whole word list. */
  function Groups(words: seq<string>, size: int): seq<seq<string>> {
    Greedy(words, size, [], 0)
  }

  /** Each group joined by single spaces. */
  function JoinEach(groups: seq<seq<string>>): (r: seq<string>)
    ensures |r| == |groups|
    ensures forall i :: 0 <= i < |groups| ==> r[i] == JoinSpace(groups[i])
  {
    seq(|groups|, i requires 0 <= i < |groups| => JoinSpace(groups[i]))
  }

  /** The groups hold exactly the open group followed by the words. */
  lemma {:induction false} GreedyKeepsWords(words: seq<string>, size: int, cur: seq<string>, len: int)
    ensures Flatten(Greedy(words, size, cur, len)) == cur + words
    decreases |words|
  {
    if words == [] {
      if cur != [] {
        FlattenCons(cur, []);
      }
    } else {
      var cur', len' := cur + [words[0]], len + |words[0]| + 1;
      assert cur' + words[1..] == cur + words;
      if len' >= size {
        GreedyKeepsWords(words[1..], size, [], 0);
        FlattenCons(cur', Greedy(words[1..], size, [], 0));
        assert [] + words[1..] == words[1..];
      } else {
        GreedyKeepsWords(words[1..], size, cur', len');
      }
    }
  }

  /** The shape of the groups: none is empty, each consists of words, each
      but the last reaches `size`, and none reaches `size` before its last
      word. */
  predicate WellCut(groups: seq<seq<string>>, size: int) {
    && (forall i :: 0 <= i < |groups| ==> groups[i] != [])
    && (forall i :: 0 <= i < |groups| ==> forall j :: 0 <= j < |groups[i]| ==> IsWord(groups[i][j]))
    && (forall i :: 0 <= i < |groups| - 1 ==> Cost(groups[i]) >= size)
    && (forall i :: 0 <= i < |groups| ==> Cost(groups[i][..|groups[i]| - 1]) < size || |groups[i]| == 1)
  }

  /** A group that reaches `size` only at its last word can be put in
      front of well-cut groups. */
  lemma {:induction false} WellCutCons(g: seq<string>, rest: seq<seq<string>>, size: int)
    requires WellCut(rest, size)
    requires g != [] && forall j :: 0 <= j < |g| ==> IsWord(g[j])
    requires Cost(g) >= size
    requires Cost(g[..|g| - 1]) < size || |g| == 1
    ensures WellCut([g] + rest, size)
  {
    var r := [g] + rest;
    forall i | 0 <= i < |r|
      ensures r[i] != [] && (forall j :: 0 <= j < |r[i]| ==> IsWord(r[i][j]))
      ensures Cost(r[i][..|r[i]| - 1]) < size || |r[i]| == 1
      ensures i < |r| - 1 ==> Cost(r[i]) >= size
    {
      if i > 0 {
        assert r[i] == rest[i - 1];
      }
    }
  }

  lemma {:induction false} GreedyWellCut(words: seq<string>, size: int, cur: seq<string>, len: int)
    requires forall j :: 0 <= j < |words| ==> IsWord(words[j])
    requires forall j :: 0 <= j < |cur| ==> IsWord(cur[j])
    requires len == Cost(cur)
    requires cur != [] ==> len < size
    ensures WellCut(Greedy(words, size, cur, len), size)
    decreases |words|
  {
    if words == [] {
      if cur != [] {
        assert Greedy(words, size, cur, len) == [cur];
        assert Cost(cur) == Cost(cur[..|cur| - 1]) + |cur[|cur| - 1]| + 1;
      }
    } else {
      var cur', len' := cur + [words[0]], len + |words[0]| + 1;
      assert cur'[..|cur'| - 1] == cur;
      assert len' == Cost(cur');
      if len' >= size {
        GreedyWellCut(words[1..], size, [], 0);
        WellCutCons(cur', Greedy(words[1..], size, [], 0), size);
      } else {
        GreedyWellCut(words[1..], size, cur', len');
      }
    }
  }

  /** `_chunk_text(text, chunk_size)`: the words of `text`, cut greedily
      into groups and each group joined by single spaces. Concatenating the
      chunks' words gives back `text.split()`; no chunk is empty or has
      whitespace at either end; every chunk but the last reaches
      `chunk_size` and no chunk reaches it before its last word; blank
      text gives no chunks. */
  method ChunkText(text: string, chunkSize: int) returns (chunks: seq<string>)
    ensures chunks == JoinEach(Groups(Split(text), chunkSize))
    ensures Flatten(SplitEach(chunks)) == Split(text)
    ensures chunks == [] <==> AllSpace(text)
  {
    var words := Split(text);
    chunks := [];
    ghost var groups: seq<seq<string>> := [];
    var currentChunk: seq<string> := [];
    var currentLength := 0;
    for i := 0 to |words|
      invariant groups + Greedy(words[i..], chunkSize, currentChunk, currentLength) == Groups(words, chunkSize)
      invariant chunks == JoinEach(groups)
    {
      assert words[i..][1..] == words[i + 1..];
      currentLength := currentLength + |words[i]| + 1;
      currentChunk := currentChunk + [words[i]];
      if currentLength >= chunkSize {
        assert JoinEach(groups + [currentChunk]) == chunks + [JoinSpace(currentChunk)];
        chunks := chunks + [JoinSpace(currentChunk)];
        groups := groups + [currentChunk];
        currentChunk := [];
        currentLength := 0;
      }
    }
    assert words[|words|..] == [];
    if currentChunk != [] {
      assert JoinEach(groups + [currentChunk]) == chunks + [JoinSpace(currentChunk)];
      chunks := chunks + [JoinSpace(currentChunk)];
      groups := groups + [currentChunk];
    }
    ChunksOfText(text, chunkSize, chunks);
  }

  /** Joining non-empty groups of words gives trimmed chunks that split
      back into the same groups. */
  lemma {:induction false} JoinedGroups(groups: seq<seq<string>>)
    requires forall i :: 0 <= i < |groups| ==> groups[i] != []
    requires forall i :: 0 <= i < |groups| ==> forall j :: 0 <= j < |groups[i]| ==> IsWord(groups[i][j])
    ensures SplitEach(JoinEach(groups)) == groups
    ensures forall i :: 0 <= i < |groups| ==> Trimmed(JoinEach(groups)[i])
  {
    var chunks := JoinEach(groups);
    forall i | 0 <= i < |groups|
      ensures SplitEach(chunks)[i] == groups[i]
      ensures Trimmed(chunks[i])
    {
      SplitJoinSpace(groups[i]);
      JoinSpaceOfWords(groups[i]);
    }
  }

  /** The properties `ChunkText` promises, for the chunks it is defined by. */
  lemma {:induction false} ChunksOfText(text: string, size: int, chunks: seq<string>)
    requires chunks == JoinEach(Groups(Split(text), size))
    ensures Flatten(SplitEach(chunks)) == Split(text)
    ensures forall i :: 0 <= i < |chunks| ==> Trimmed(chunks[i])
    ensures forall i :: 0 <= i < |chunks| - 1 ==> Cost(Split(chunks[i])) >= size
    ensures forall i :: 0 <= i < |chunks| ==>
      |Split(chunks[i])| <= 1 || Cost(Split(chunks[i])[..|Split(chunks[i])| - 1]) < size
    ensures chunks == [] <==> AllSpace(text)
  {
    var words := Split(text);
    var groups := Groups(words, size);
    assert chunks == [] <==> AllSpace(text) by {
      SplitEmptyIffBlank(text);
      GreedyKeepsWords(words, size, [], 0);
      if groups == [] {
        assert words == Flatten(groups) == [];
      }
      if words == [] {
        assert groups == [];
      }
    }
    assert WellCut(groups, size) by {
      SplitWords(text);
      GreedyWellCut(words, size, [], 0);
    }
    assert Flatten(groups) == words by {
      GreedyKeepsWords(words, size, [], 0);
    }
    assert SplitEach(chunks) == groups by {
      JoinedGroups(groups);
    }
    assert forall i :: 0 <= i < |chunks| ==> Trimmed(chunks[i]) by {
      JoinedGroups(groups);
    }
    assert forall i :: 0 <= i < |chunks| ==> Split(chunks[i]) == groups[i] by {
      forall i | 0 <= i < |chunks| ensures Split(chunks[i]) == groups[i] {
        assert SplitEach(chunks)[i] == Split(chunks[i]);
      }
    }
  }

  // -----------------------------------------------------------------------
  // Ingestion
  // -----------------------------------------------------------------------

  /** The text one extracted PDF page contributes: its words joined by
      single spaces and a newline when the page text is non-empty, nothing
      otherwise. */
  function PageText(page: string): (r: string)
    ensures r == [] || r[|r| - 1] == '\n'
  {
    if page != "" then JoinSpace(Split(page)) + "\n" else ""
  }

  /** The document text of a PDF: the page texts concatenated. */
  function PdfText(pages: seq<string>): (r: string)
    ensures r == [] || r[|r| - 1] == '\n'
  {
    if pages == [] then "" else PdfText(pages[..|pages| - 1]) + PageText(pages[|pages| - 1])
  }

  /** A page contributes exactly its own words. */
  lemma {:induction false} PageTextWords(page: string)
    ensures Split(PageText(page)) == Split(page)
  {
    if page != "" {
      var joined := JoinSpace(Split(page));
      SpaceIsSpace();
      SplitWords(page);
      SplitJoinSpace(Split(page));
      SplitAppend(joined, "\n");
      assert Split("\n") == Split("\n"[1..]) == [];
    }
  }

  /** The words of the document text of a PDF are the words of its pages,
      in page order. */
  lemma {:induction false} PdfTextWords(pages: seq<string>)
    ensures Split(PdfText(pages)) == Flatten(SplitEach(pages))
  {
    if pages != [] {
      var init, last := pages[..|pages| - 1], pages[|pages| - 1];
      PdfTextWords(init);
      assert SplitEach(pages)[..|pages| - 1] == SplitEach(init);
      assert SplitEach(pages)[|pages| - 1] == Split(last);
      SpaceIsSpace();
      PageTextWords(last);
      SplitAppend(PdfText(init), PageText(last));
    }
  }

  /** The document text: the page texts of a `.pdf` upload, the decoded
      bytes of any other; extraction and decoding failures are passed on. */
  function DocumentText(filename: string, pages: Result<seq<string>, string>, decoded: Result<string, string>): Result<string, string> {
    if EndsWith(filename, ".pdf") then
      match pages
      case Success(ps) => Success(PdfText(ps))
      case Failure(e) => Failure(e)
    else decoded
  }

  /** One row of the `documents` table. */
  datatype DocumentRow = DocumentRow(content: string, filename: string)

  /** The rows of the chunks whose insert succeeds, in chunk order. */
  function StoredRows(chunks: seq<string>, filename: string, inserted: nat -> bool): (r: seq<DocumentRow>)
    ensures |r| <= |chunks|
  {
    if chunks == [] then []
    else
      var n := |chunks| - 1;
      StoredRows(chunks[..n], filename, inserted) + (if inserted(n) then [DocumentRow(chunks[n], filename)] else [])
  }

  /** The index of the first chunk whose embedding fails, among the first
      `n`; `n` when none of them fails. */
  function FirstFault(encoded: nat -> Fault, n: nat): (k: nat)
    ensures k <= n
    ensures k < n ==> encoded(k).Some?
    ensures forall j :: 0 <= j < k ==> encoded(j).None?
  {
    if n == 0 then 0
    else
      var k := FirstFault(encoded, n - 1);
      if k < n - 1 || encoded(n - 1).Some? then k else n
  }

  /** What `ingest_document` returns. */
  datatype IngestReport = IngestReport(filename: string, chunksProcessed: nat, message: string)

  /** The text-building part of `ingest_document`: the PDF pages' text,
      page by page, or the decoded upload; the reader's or the decoder's
      failure is passed on. */
  method ExtractText(filename: string, pages: Result<seq<string>, string>, decoded: Result<string, string>)
    returns (r: Result<string, string>)
    ensures r == DocumentText(filename, pages, decoded)
  {
    if EndsWith(filename, ".pdf") {
      if pages.Failure? {
        return Failure(pages.error);
      }
      var ps := pages.value;
      var content := "";
      for i := 0 to |ps|
        invariant content == PdfText(ps[..i])
      {
        assert ps[..i + 1][..i] == ps[..i];
        if ps[i] != "" {
          content := content + (JoinSpace(Split(ps[i])) + "\n");
        }
      }
      assert ps[..|ps|] == ps;
      return Success(content);
    } else {
      if decoded.Failure? {
        return Failure(decoded.error);
      }
      return Success(decoded.value);
    }
  }

  class RAGService {
    var documents: seq<DocumentRow>

    constructor()
      ensures documents == []
    {
      documents := [];
    }

    /** `ingest_document`: builds the document text, rejects a blank one
        with "Empty document", chunks it with the default size, then embeds
        and inserts each chunk in turn. A failed insert is skipped and the
        count covers only the inserts that succeeded; a failed embedding
        ends the call with its error, the chunks stored before it staying
        stored. `pages` is what the PDF reader extracts, `decoded` the UTF-8
        decoding of the upload, `encoded(i)` the outcome of embedding chunk
        i and `inserted(i)` whether its insert succeeds. */
    method IngestDocument(filename: string, pages: Result<seq<string>, string>, decoded: Result<string, string>,
                          encoded: nat -> Fault, inserted: nat -> bool)
      returns (r: Result<IngestReport, string>)
      modifies this`documents
      ensures DocumentText(filename, pages, decoded).Failure? ==>
        r == Failure(DocumentText(filename, pages, decoded).error) && documents == old(documents)
      ensures DocumentText(filename, pages, decoded).Success? && AllSpace(DocumentText(filename, pages, decoded).value) ==>
        r == Failure(EmptyDocument) && documents == old(documents)
      ensures DocumentText(filename, pages, decoded).Success? && !AllSpace(DocumentText(filename, pages, decoded).value) ==>
        var chunks := JoinEach(Groups(Split(DocumentText(filename, pages, decoded).value), DefaultChunkSize));
        var k := FirstFault(encoded, |chunks|);
        && documents == old(documents) + StoredRows(chunks[..k], filename, inserted)
        && (k < |chunks| ==> r == Failure(encoded(k).value))
        && (k == |chunks| ==>
              && r == Success(IngestReport(filename, |StoredRows(chunks, filename, inserted)|, IngestedMessage))
              && r.value.chunksProcessed <= |chunks|)
    {
      var text := ExtractText(filename, pages, decoded);
      if text.Failure? {
        return Failure(text.error);
      }
      var content := text.value;
      if AllSpace(content) {
        return Failure(EmptyDocument);
      }
      var chunks := ChunkText(content, DefaultChunkSize);
      var storedChunks, fault := StoreChunks(chunks, filename, encoded, inserted);
      if fault.Some? {
        return Failure(fault.value);
      }
      assert chunks[..|chunks|] == chunks;
      return Success(IngestReport(filename, storedChunks, IngestedMessage));
    }

    /** The embed-and-insert loop of `ingest_document`: chunk i is stored
        when its insert succeeds, and the loop stops at the first chunk
        whose embedding fails, returning that failure. */
    method StoreChunks(chunks: seq<string>, filename: string, encoded: nat -> Fault, inserted: nat -> bool)
      returns (storedChunks: nat, fault: Fault)
      modifies this`documents
      ensures var k := FirstFault(encoded, |chunks|);
        && documents == old(documents) + StoredRows(chunks[..k], filename, inserted)
        && storedChunks == |StoredRows(chunks[..k], filename, inserted)|
        && fault == (if k < |chunks| then encoded(k) else None)
    {
      storedChunks := 0;
      var i := 0;
      while i < |chunks|
        invariant i <= |chunks|
        invariant forall j :: 0 <= j < i ==> encoded(j).None?
        invariant documents == old(documents) + StoredRows(chunks[..i], filename, inserted)
        invariant storedChunks == |StoredRows(chunks[..i], filename, inserted)|
      {
        if encoded(i).Some? {
          assert FirstFault(encoded, |chunks|) == i;
          return storedChunks, encoded(i);
        }
        assert chunks[..i + 1][..i] == chunks[..i];
        if inserted(i) {
          documents := documents + [DocumentRow(chunks[i], filename)];
          storedChunks := storedChunks + 1;
        }
        i := i + 1;
      }
      assert FirstFault(encoded, |chunks|) == |chunks|;
      fault := None;
    }
  }

  // -----------------------------------------------------------------------
  // Retrieval
  // -----------------------------------------------------------------------

  /** The context built from the retrieved chunk contents: each followed by
      the separator line, in result order. */
  function Context(items: seq<string>): string {
    if items == [] then "" else Context(items[..|items| - 1]) + items[|items| - 1] + ContextSeparator
  }

  /** The context is the contents joined by the separator, with one more
      separator at the end. */
  lemma {:induction false} ContextIsJoin(items: seq<string>)
    requires items != []
    ensures Context(items) == Join(items, ContextSeparator) + ContextSeparator
  {
    if |items| > 1 {
      var init, last := items[..|items| - 1], items[|items| - 1];
      ContextIsJoin(init);
      assert items == init + [last];
      JoinSnoc(init, last, ContextSeparator);
    } else {
      assert items[..0] == [];
    }
  }

  /** `query_knowledge_base`: the embedding of the query (whose failure is
      raised), then the `match_documents` search with threshold 0.1 and
      count 3, whose failure gives the empty context. */
  method QueryKnowledgeBase(query: string, encodeFault: Fault, matchDocuments: (real, nat) -> Result<seq<string>, string>)
    returns (r: Result<string, string>)
    ensures encodeFault.Some? ==> r == Failure(encodeFault.value)
    ensures encodeFault.None? && matchDocuments(MatchThreshold, MatchCount).Failure? ==> r == Success("")
    ensures encodeFault.None? && matchDocuments(MatchThreshold, MatchCount).Success? ==>
      r == Success(Context(matchDocuments(MatchThreshold, MatchCount).value))
  {
    if encodeFault.Some? {
      return Failure(encodeFault.value);
    }
    var response := matchDocuments(MatchThreshold, MatchCount);
    if response.Failure? {
      return Success("");
    }
    var items := response.value;
    var context := "";
    for i := 0 to |items|
      invariant context == Context(items[..i])
    {
      assert items[..i + 1][..i] == items[..i];
      context := context + (items[i] + ContextSeparator);
    }
    assert items[..|items|] == items;
    return Success(context);
  }
}
