/** The text both formatters build: chunk contents, with a heading whenever the document changes. */
module Rendering {
  import opened Text
  import opened Chunks
  import opened Budgets

  /** The document the next chunk is compared with: that of the last chunk naming one. */
  function CurrentDocument(chunks: seq<RetrievedChunk>): string {
    if chunks == [] then ""
    else
      var c := chunks[|chunks| - 1];
      if c.documentID != "" then c.documentID else CurrentDocument(chunks[..|chunks| - 1])
  }

  function Title(c: RetrievedChunk): string {
    "--- Document: " + (if c.documentName == "" then c.documentID else c.documentName) + " ---\n"
  }

  /** A chunk of another document opens with its title, after a blank line unless it is the first. */
  function Heading(current: string, c: RetrievedChunk): string {
    if c.documentID == current || c.documentID == "" then ""
    else if current == "" then Title(c)
    else "\n" + Title(c)
  }

  function Rendered(chunks: seq<RetrievedChunk>): string {
    if chunks == [] then ""
    else
      var init, c := chunks[..|chunks| - 1], chunks[|chunks| - 1];
      Rendered(init) + Heading(CurrentDocument(init), c) + c.content + "\n"
  }

  /** The documents that the chunks name. */
  function DocumentsIn(chunks: seq<RetrievedChunk>): set<string> {
    set c | c in chunks && c.documentID != "" :: c.documentID
  }

  /** The current document has had its heading, hence has been counted. */
  lemma {:induction false} CurrentIsNamed(chunks: seq<RetrievedChunk>)
    ensures CurrentDocument(chunks) == "" || CurrentDocument(chunks) in DocumentsIn(chunks)
  {
    if chunks != [] {
      CurrentIsNamed(chunks[..|chunks| - 1]);
      assert chunks == chunks[..|chunks| - 1] + [chunks[|chunks| - 1]];
    }
  }

  /** One turn of the formatting loops: what is written, what is current and what is counted. */
  lemma RenderStep(chunks: seq<RetrievedChunk>, c: RetrievedChunk)
    ensures Rendered(chunks + [c]) == Rendered(chunks) + Heading(CurrentDocument(chunks), c) + c.content + "\n"
    ensures CurrentDocument(chunks + [c]) == if c.documentID != "" then c.documentID else CurrentDocument(chunks)
    ensures c.documentID != CurrentDocument(chunks) && c.documentID != "" ==>
              DocumentsIn(chunks + [c]) == DocumentsIn(chunks) + {c.documentID}
    ensures c.documentID == CurrentDocument(chunks) || c.documentID == "" ==>
              DocumentsIn(chunks + [c]) == DocumentsIn(chunks)
  {
    assert (chunks + [c])[..|chunks|] == chunks;
    CurrentIsNamed(chunks);
  }

  lemma Regroup(a: string, b: string, c: string)
    ensures a + b + c == a + (b + c)
  {
  }

  /** Writing a chunk: its heading if the document changes, its content and a newline. */
  method WriteChunk(text: string, current: string, chunk: RetrievedChunk) returns (written: string)
    ensures written == text + Heading(current, chunk) + chunk.content + "\n"
  {
    written := text;
    if chunk.documentID != current && chunk.documentID != "" {
      if current != "" {
        Regroup(text, "\n", Title(chunk));
        written := written + "\n";
      }
      written := written + Title(chunk);
    } else {
      assert text + "" == text;
    }
    written := written + chunk.content + "\n";
  }

  /** Writing a chunk after an opening and the chunks before it renders one chunk more. */
  lemma RenderOnto(opening: string, chunks: seq<RetrievedChunk>, c: RetrievedChunk)
    ensures opening + Rendered(chunks) + Heading(CurrentDocument(chunks), c) + c.content + "\n"
         == opening + Rendered(chunks + [c])
  {
    var r, h := Rendered(chunks), Heading(CurrentDocument(chunks), c);
    RenderStep(chunks, c);
    Regroup(opening, r, h);
    Regroup(opening, r + h, c.content);
    Regroup(opening, r + h + c.content, "\n");
  }

  /** The state of a formatting loop that has written the given chunks. */
  ghost predicate Written(opening: string, chunks: seq<RetrievedChunk>,
                          text: string, current: string, documents: set<string>) {
    text == opening + Rendered(chunks) && current == CurrentDocument(chunks) && documents == DocumentsIn(chunks)
  }

  /** One turn of a formatting loop. */
  method WriteNext(text: string, current: string, documents: set<string>, chunk: RetrievedChunk,
                   ghost opening: string, ghost chunks: seq<RetrievedChunk>)
    returns (text': string, current': string, documents': set<string>)
    requires Written(opening, chunks, text, current, documents)
    ensures Written(opening, chunks + [chunk], text', current', documents')
  {
    RenderStep(chunks, chunk);
    RenderOnto(opening, chunks, chunk);
    text' := WriteChunk(text, current, chunk);
    current', documents' := current, documents;
    if chunk.documentID != current && chunk.documentID != "" {
      current' := chunk.documentID;
      documents' := documents + {chunk.documentID};
    }
  }

  /** Bytes spent on headings. */
  function HeadingBytes(chunks: seq<RetrievedChunk>): nat {
    if chunks == [] then 0
    else
      var init := chunks[..|chunks| - 1];
      HeadingBytes(init) + Bytes(Heading(CurrentDocument(init), chunks[|chunks| - 1]))
  }

  function ContentBytes(c: RetrievedChunk): nat { Bytes(c.content) }

  /** Rendering conserves bytes: contents, headings and one newline a chunk. */
  lemma {:induction false} RenderedBytes(chunks: seq<RetrievedChunk>)
    ensures Bytes(Rendered(chunks)) == Total(chunks, ContentBytes) + HeadingBytes(chunks) + |chunks|
  {
    if chunks != [] {
      var init, c := chunks[..|chunks| - 1], chunks[|chunks| - 1];
      var heading := Heading(CurrentDocument(init), c);
      RenderedBytes(init);
      BytesConcat(Rendered(init), heading);
      BytesConcat(Rendered(init) + heading, c.content);
      BytesConcat(Rendered(init) + heading + c.content, "\n");
      AsciiBytes("\n");
    }
  }

  /** Estimating chunk by chunk loses up to three bytes a chunk to rounding. */
  lemma {:induction false} RoundingLoss(chunks: seq<RetrievedChunk>)
    ensures Total(chunks, ContentBytes) <= 4 * TotalTokens(chunks) + 3 * |chunks|
    ensures 4 * TotalTokens(chunks) <= Total(chunks, ContentBytes)
  {
    if chunks != [] {
      RoundingLoss(chunks[..|chunks| - 1]);
    }
  }

  /** What one more chunk adds to the text: its content and a newline, under the name of its document (its
      ID when it has no name) if that is not the document of the chunk before, with a blank line between. */
  lemma RenderedReads(chunks: seq<RetrievedChunk>, c: RetrievedChunk)
    ensures c.documentID == "" || c.documentID == CurrentDocument(chunks) ==>
              Rendered(chunks + [c]) == Rendered(chunks) + c.content + "\n"
    ensures c.documentID != "" && c.documentID != CurrentDocument(chunks) ==>
              Rendered(chunks + [c])
              == Rendered(chunks) + ((if CurrentDocument(chunks) == "" then "" else "\n")
                 + "--- Document: " + (if c.documentName == "" then c.documentID else c.documentName) + " ---\n")
                 + c.content + "\n"
  {
    RenderStep(chunks, c);
    assert Rendered(chunks) + "" == Rendered(chunks);
    if c.documentID != "" && c.documentID != CurrentDocument(chunks) {
      var name := if c.documentName == "" then c.documentID else c.documentName;
      if CurrentDocument(chunks) == "" {
        assert "" + "--- Document: " == "--- Document: ";
      } else {
        Regroup("\n", "--- Document: ", name);
        Regroup("\n", "--- Document: " + name, " ---\n");
      }
    }
  }

  /** The current document is that of the last chunk that names one. */
  lemma {:induction false} CurrentIsLast(chunks: seq<RetrievedChunk>, i: nat)
    requires i <= |chunks| && forall j | i < j < |chunks| :: chunks[j].documentID == ""
    ensures i < |chunks| && chunks[i].documentID != "" ==> CurrentDocument(chunks) == chunks[i].documentID
    ensures (forall j | 0 <= j < |chunks| :: chunks[j].documentID == "") ==> CurrentDocument(chunks) == ""
  {
    if chunks != [] {
      CurrentIsLast(chunks[..|chunks| - 1], if i < |chunks| then i else |chunks| - 1);
    }
  }
}
