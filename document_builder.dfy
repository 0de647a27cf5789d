/**
 * Document builders: each document starts with empty content and grows only
 * by appending a fixed piece of markup around each heading or paragraph. The
 * PDF and HTML builders use the same markup; the plain-text builder appends
 * the bare text and a newline. The three builder classes are one class
 * whose `kind` says which it is.
 */
module DocumentBuilder {

  datatype DocumentKind = PDFDocument | HTMLDocument | PlainTextDocument

  /** One call on a builder: `add_heading` or `add_paragraph`. */
  datatype Part = Heading(text: string) | Paragraph(text: string)

  function ClassName(kind: DocumentKind): string
  {
    match kind
    case PDFDocument => "PDFDocument"
    case HTMLDocument => "HTMLDocument"
    case PlainTextDocument => "PlainTextDocument"
  }

  /** What one call appends to the content. */
  function Markup(kind: DocumentKind, part: Part): string
  {
    if kind == PlainTextDocument then part.text + "\n"
    else if part.Heading? then "<h1>" + part.text + "</h1>\n"
    else "<p>" + part.text + "</p>\n"
  }

  /** The content after the calls `parts`, made in order on a new document. */
  function Render(kind: DocumentKind, parts: seq<Part>): string
  {
    if parts == [] then "" else Render(kind, parts[..|parts| - 1]) + Markup(kind, parts[|parts| - 1])
  }

  /** The PDF and HTML builders produce the same content for any sequence of calls. */
  lemma {:induction false} PdfMatchesHtml(parts: seq<Part>)
    ensures Render(PDFDocument, parts) == Render(HTMLDocument, parts)
  {
    if parts != [] {
      PdfMatchesHtml(parts[..|parts| - 1]);
    }
  }

  /** One more call appends its markup to what the earlier calls produced. */
  lemma RenderSnoc(kind: DocumentKind, parts: seq<Part>, part: Part)
    ensures Render(kind, parts + [part]) == Render(kind, parts) + Markup(kind, part)
  {
    assert (parts + [part])[..|parts|] == parts;
  }

  /** Later calls only append: the content so far is a prefix of the content after more calls. */
  lemma {:induction false} RenderGrows(kind: DocumentKind, parts: seq<Part>, more: seq<Part>)
    ensures Render(kind, parts) <= Render(kind, parts + more)
    decreases |more|
  {
    if more == [] {
      assert parts + more == parts;
    } else {
      var init, last := more[..|more| - 1], more[|more| - 1];
      assert parts + more == (parts + init) + [last];
      RenderGrows(kind, parts, init);
      RenderSnoc(kind, parts + init, last);
    }
  }

  /** A plain-text document is as long as its texts together plus one newline per call. */
  lemma {:induction false} PlainTextLength(parts: seq<Part>)
    ensures |Render(PlainTextDocument, parts)| == TextLength(parts) + |parts|
  {
    if parts != [] {
      PlainTextLength(parts[..|parts| - 1]);
    }
  }

  function TextLength(parts: seq<Part>): nat
  {
    if parts == [] then 0 else TextLength(parts[..|parts| - 1]) + |parts[|parts| - 1].text|
  }

  class Document {
    const kind: DocumentKind
    var content: string
    /** The calls made on this document so far. */
    ghost var parts: seq<Part>

    ghost predicate Valid()
      reads this
    {
      content == Render(kind, parts)
    }

    constructor (kind: DocumentKind)
      ensures this.kind == kind && content == "" && parts == [] && Valid()
    {
      this.kind := kind;
      content := "";
      parts := [];
    }

    method AddHeading(heading: string)
      requires Valid()
      modifies this
      ensures Valid() && parts == old(parts) + [Heading(heading)]
      ensures content == old(content) + Markup(kind, Heading(heading))
    {
      content := content + Markup(kind, Heading(heading));
      parts := parts + [Heading(heading)];
      assert parts[..|parts| - 1] == old(parts);
    }

    method AddParagraph(paragraph: string)
      requires Valid()
      modifies this
      ensures Valid() && parts == old(parts) + [Paragraph(paragraph)]
      ensures content == old(content) + Markup(kind, Paragraph(paragraph))
    {
      content := content + Markup(kind, Paragraph(paragraph));
      parts := parts + [Paragraph(paragraph)];
      assert parts[..|parts| - 1] == old(parts);
    }

    /** The class name, a colon and newline, then the content. */
    function ToString(): string
      reads this
    {
      ClassName(kind) + ":\n" + content
    }
  }

  /** The four calls `generate_document` makes. */
  const SampleParts: seq<Part> := [
    Heading("Sample Document"),
    Paragraph("This is a paragraph in the document."),
    Heading("Another Heading"),
    Paragraph("Another paragraph here.")
  ]

  lemma SamplePartsInOrder(before: seq<Part>)
    ensures before + [Heading("Sample Document")] + [Paragraph("This is a paragraph in the document.")]
            + [Heading("Another Heading")] + [Paragraph("Another paragraph here.")] == before + SampleParts
  {
  }

  class DocumentGenerator {
    const builder: Document

    constructor (builder: Document)
      ensures this.builder == builder
    {
      this.builder := builder;
    }

    /** Makes the four sample calls on the builder and returns that same builder. */
    method GenerateDocument() returns (document: Document)
      requires builder.Valid()
      modifies builder
      ensures document == builder && builder.Valid()
      ensures builder.parts == old(builder.parts) + SampleParts
    {
      ghost var before := builder.parts;
      builder.AddHeading("Sample Document");
      builder.AddParagraph("This is a paragraph in the document.");
      builder.AddHeading("Another Heading");
      builder.AddParagraph("Another paragraph here.");
      SamplePartsInOrder(before);
      return builder;
    }
  }

  /** The markup of the four sample calls on a PDF or HTML builder. */
  const SampleMarkup: string :=
    ("<h1>" + "Sample Document" + "</h1>\n")
    + ("<p>" + "This is a paragraph in the document." + "</p>\n")
    + ("<h1>" + "Another Heading" + "</h1>\n")
    + ("<p>" + "Another paragraph here." + "</p>\n")

  /** Four calls on a new document give their four pieces of markup in call order. */
  lemma RenderFour(kind: DocumentKind, a: Part, b: Part, c: Part, d: Part)
    ensures Render(kind, [a, b, c, d]) == Markup(kind, a) + Markup(kind, b) + Markup(kind, c) + Markup(kind, d)
  {
    var ma, mb, mc, md := Markup(kind, a), Markup(kind, b), Markup(kind, c), Markup(kind, d);
    assert Render(kind, [a]) == ma by {
      assert [a][..0] == [];
    }
    assert Render(kind, [a, b]) == ma + mb by {
      assert [a, b][..1] == [a];
    }
    assert Render(kind, [a, b, c]) == ma + mb + mc by {
      assert [a, b, c][..2] == [a, b];
    }
    assert [a, b, c, d][..3] == [a, b, c];
  }

  /** The sample calls on a new PDF or HTML builder: two headings and two paragraphs in tags, in call order. */
  lemma SampleRendered()
    ensures Render(PDFDocument, SampleParts) == SampleMarkup
    ensures Render(HTMLDocument, SampleParts) == SampleMarkup
  {
    var h1, p1 := Heading("Sample Document"), Paragraph("This is a paragraph in the document.");
    var h2, p2 := Heading("Another Heading"), Paragraph("Another paragraph here.");
    RenderFour(PDFDocument, h1, p1, h2, p2);
    assert SampleParts == [h1, p1, h2, p2];
    PdfMatchesHtml(SampleParts);
  }

  /** The text of the four sample calls on a plain-text builder. */
  const SampleText: string :=
    ("Sample Document" + "\n")
    + ("This is a paragraph in the document." + "\n")
    + ("Another Heading" + "\n")
    + ("Another paragraph here." + "\n")

  /** The sample calls on a new plain-text builder: the four texts, each on its own line, in call order. */
  lemma SampleTextRendered()
    ensures Render(PlainTextDocument, SampleParts) == SampleText
  {
    var h1, p1 := Heading("Sample Document"), Paragraph("This is a paragraph in the document.");
    var h2, p2 := Heading("Another Heading"), Paragraph("Another paragraph here.");
    RenderFour(PlainTextDocument, h1, p1, h2, p2);
    assert SampleParts == [h1, p1, h2, p2];
  }

  /** Runs the generator on a new builder of the given kind and returns the document it prints as. */
  method Generated(kind: DocumentKind) returns (printed: string)
    ensures printed == ClassName(kind) + ":\n" + Render(kind, SampleParts)
  {
    var builder := new Document(kind);
    var generator := new DocumentGenerator(builder);
    var document := generator.GenerateDocument();
    assert [] + SampleParts == SampleParts;
    printed := document.ToString();
  }

  /**
   * The demo's three documents, printed: each starts with its class name line;
   * the PDF and HTML ones hold the sample markup, the plain-text one the bare texts.
   */
  method Demo() returns (pdf: string, html: string, plain: string)
    ensures pdf == "PDFDocument:\n" + SampleMarkup
    ensures html == "HTMLDocument:\n" + SampleMarkup
    ensures plain == "PlainTextDocument:\n" + SampleText
  {
    SampleRendered();
    SampleTextRendered();
    pdf := Generated(PDFDocument);
    html := Generated(HTMLDocument);
    plain := Generated(PlainTextDocument);
  }
}
