/** Content extraction: the dispatch on the lower-cased file suffix and the
    shape of what each format's extractor returns. The format libraries
    themselves are opaque: a file is described by what each library would
    yield for it (its pieces of text, or an exception). */
module Parser {
  import opened Wrappers
  import opened Text
  import Config

  /** What a format library yields when asked to read a file. */
  datatype Read<T> = Unreadable | Readable(value: T)

  /** A spreadsheet cell value as the workbook reader returns it. */
  datatype Cell = NoValue | TextCell(s: string) | IntCell(n: int)

  /** A slide shape; `text` is present exactly when the shape has a text attribute. */
  datatype Shape = Shape(text: Option<string>)

  /** What each reader sees in one file. */
  datatype FileData = FileData(
    pdfPages: Read<seq<string>>,
    docxParagraphs: Read<seq<string>>,
    workbook: Read<seq<seq<seq<Cell>>>>,
    slides: Read<seq<seq<Shape>>>,
    utf8Text: Read<string>)

  /** The extractors the dispatch chooses between. */
  datatype Format = Pdf | Docx | Xlsx | Pptx | Markdown | PlainText

  /** The if-chain over the (already lower-cased) extension. */
  function FormatOf(ext: string): Option<Format>
  {
    if ext == ".pdf" then Some(Pdf)
    else if ext == ".docx" then Some(Docx)
    else if ext == ".xlsx" then Some(Xlsx)
    else if ext == ".pptx" then Some(Pptx)
    else if ext == ".md" then Some(Markdown)
    else if ext == ".txt" then Some(PlainText)
    else None
  }

  /** The extensions the extractor dispatches on are exactly the keys of the
      configured extension table. */
  lemma DispatchMatchesSupportedExtensions(ext: string)
    ensures FormatOf(ext).Some? <==> ext in Config.SupportedExtensions
  {
  }

  /** A cell is kept when Python would find it truthy. */
  predicate Truthy(c: Cell)
  {
    match c
    case NoValue => false
    case TextCell(s) => s != ""
    case IntCell(n) => n != 0
  }

  /** `str(cell)` */
  function CellText(c: Cell): string
  {
    match c
    case NoValue => "None"
    case TextCell(s) => s
    case IntCell(n) => IntToString(n)
  }

  /** The texts of the truthy cells of one row, in order. */
  function RowPieces(row: seq<Cell>): seq<string>
  {
    if |row| == 0 then []
    else RowPieces(row[..|row| - 1]) + (if Truthy(row[|row| - 1]) then [CellText(row[|row| - 1])] else [])
  }

  /** The pieces of one sheet, row after row. */
  function SheetPieces(rows: seq<seq<Cell>>): seq<string>
  {
    if |rows| == 0 then [] else SheetPieces(rows[..|rows| - 1]) + RowPieces(rows[|rows| - 1])
  }

  /** The pieces of a workbook, sheet after sheet. */
  function BookPieces(sheets: seq<seq<seq<Cell>>>): seq<string>
  {
    if |sheets| == 0 then [] else BookPieces(sheets[..|sheets| - 1]) + SheetPieces(sheets[|sheets| - 1])
  }

  /** The texts of the shapes that have one, in order. */
  function ShapePieces(shapes: seq<Shape>): seq<string>
  {
    if |shapes| == 0 then []
    else ShapePieces(shapes[..|shapes| - 1])
         + (if shapes[|shapes| - 1].text.Some? then [shapes[|shapes| - 1].text.value] else [])
  }

  /** The pieces of a deck, slide after slide. */
  function DeckPieces(slides: seq<seq<Shape>>): seq<string>
  {
    if |slides| == 0 then [] else DeckPieces(slides[..|slides| - 1]) + ShapePieces(slides[|slides| - 1])
  }

  /** The text an extractor returns: its pieces joined by single spaces, or
      the empty text when the library raised. */
  function JoinedOrEmpty(r: Read<seq<string>>): string
  {
    if r.Unreadable? then "" else Join(" ", r.value)
  }

  function WorkbookPieces(r: Read<seq<seq<seq<Cell>>>>): Read<seq<string>>
  {
    if r.Unreadable? then Unreadable else Readable(BookPieces(r.value))
  }

  function SlidesPieces(r: Read<seq<seq<Shape>>>): Read<seq<string>>
  {
    if r.Unreadable? then Unreadable else Readable(DeckPieces(r.value))
  }

  /** The content the chosen extractor returns for a file. */
  function ContentOf(f: Format, d: FileData): string
  {
    match f
    case Pdf => JoinedOrEmpty(d.pdfPages)
    case Docx => JoinedOrEmpty(d.docxParagraphs)
    case Xlsx => JoinedOrEmpty(WorkbookPieces(d.workbook))
    case Pptx => JoinedOrEmpty(SlidesPieces(d.slides))
    case Markdown => if d.utf8Text.Unreadable? then "" else d.utf8Text.value
    case PlainText => if d.utf8Text.Unreadable? then "" else d.utf8Text.value
  }

  /** `extract_content`: no file gives no result; otherwise the file name and
      the content of the extractor the lower-cased suffix selects, or the
      empty content for an unsupported suffix. */
  function Extract(name: string, file: Option<FileData>): (r: Option<(string, string)>)
    ensures r.None? <==> file.None?
    ensures r.Some? ==> r.value.0 == name
    ensures file.Some? && FormatOf(Lower(Suffix(name))).None? ==> r == Some((name, ""))
  {
    if file.None? then None
    else
      match FormatOf(Lower(Suffix(name)))
      case None => Some((name, ""))
      case Some(f) => Some((name, ContentOf(f, file.value)))
  }

  /** Every workbook piece is non-empty: falsy cells (no value, 0, "") are skipped. */
  lemma {:induction false} RowPiecesNonEmpty(row: seq<Cell>)
    ensures forall p :: p in RowPieces(row) ==> p != ""
    ensures |RowPieces(row)| == |set i | 0 <= i < |row| && Truthy(row[i])|
  {
    if |row| > 0 {
      var init := row[..|row| - 1];
      RowPiecesNonEmpty(init);
      var s := set i | 0 <= i < |init| && Truthy(init[i]);
      var t := set i | 0 <= i < |row| && Truthy(row[i]);
      if Truthy(row[|row| - 1]) {
        assert t == s + {|row| - 1};
        var last := row[|row| - 1];
        assert CellText(last) != "" by {
          if last.IntCell? { assert |IntToString(last.n)| > 0; }
        }
      } else {
        assert t == s;
      }
    }
  }

  /** Lower-casing a name does not move its last dot. */
  lemma {:induction false} LastDotLower(name: string)
    ensures LastDot(Lower(name)) == LastDot(name)
    decreases |name|
  {
    if |name| > 0 {
      assert Lower(name)[..|name| - 1] == Lower(name[..|name| - 1]);
      LastDotLower(name[..|name| - 1]);
    }
  }

  /** The dispatch is case-insensitive: a name and its lower-case form select
      the same extractor (".PDF" is read as PDF). */
  lemma DispatchIgnoresCase(name: string)
    ensures Lower(Suffix(Lower(name))) == Lower(Suffix(name))
  {
    LastDotLower(name);
    var i := LastDot(name);
    if 0 < i < |name| - 1 {
      assert Lower(name)[i..] == Lower(name[i..]);
    }
  }

  /** A concrete case of the above: an upper-case ".PDF" is read by the PDF extractor. */
  lemma UpperCasePdfIsPdf(d: FileData)
    ensures Extract("REPORT.PDF", Some(d)) == Some(("REPORT.PDF", JoinedOrEmpty(d.pdfPages)))
  {
    var name := "REPORT.PDF";
    assert name[6] == '.' && name[7] != '.' && name[8] != '.' && name[9] != '.';
    assert LastDot(name) == 6;
    assert Suffix("REPORT.PDF") == ".PDF";
    assert Lower(".PDF") == ".pdf";
  }

  /** `extract_text_from_pdf` */
  method ExtractTextFromPdf(r: Read<seq<string>>) returns (content: string)
    ensures content == JoinedOrEmpty(r)
  {
    if r.Unreadable? {
      return "";
    }
    var pages := r.value;
    var text: seq<string> := [];
    var i := 0;
    while i < |pages|
      invariant 0 <= i <= |pages|
      invariant text == pages[..i]
    {
      text := text + [pages[i]];
      i := i + 1;
    }
    assert pages[..|pages|] == pages;
    content := Join(" ", text);
  }

  /** `extract_text_from_docx` */
  method ExtractTextFromDocx(r: Read<seq<string>>) returns (content: string)
    ensures content == JoinedOrEmpty(r)
  {
    if r.Unreadable? {
      return "";
    }
    var paragraphs := r.value;
    var text: seq<string> := [];
    for i := 0 to |paragraphs|
      invariant text == paragraphs[..i]
    {
      text := text + [paragraphs[i]];
    }
    assert paragraphs[..|paragraphs|] == paragraphs;
    content := Join(" ", text);
  }

  /** `extract_text_from_xlsx`: every sheet, every row, every truthy cell. */
  method ExtractTextFromXlsx(r: Read<seq<seq<seq<Cell>>>>) returns (content: string)
    ensures content == JoinedOrEmpty(WorkbookPieces(r))
  {
    if r.Unreadable? {
      return "";
    }
    var sheets := r.value;
    var text: seq<string> := [];
    for s := 0 to |sheets|
      invariant text == BookPieces(sheets[..s])
    {
      var rows := sheets[s];
      for j := 0 to |rows|
        invariant text == BookPieces(sheets[..s]) + SheetPieces(rows[..j])
      {
        var row := rows[j];
        for k := 0 to |row|
          invariant text == BookPieces(sheets[..s]) + SheetPieces(rows[..j]) + RowPieces(row[..k])
        {
          assert row[..k + 1][..k] == row[..k];
          if Truthy(row[k]) {
            text := text + [CellText(row[k])];
          }
        }
        assert row[..|row|] == row;
        assert rows[..j + 1][..j] == rows[..j];
      }
      assert rows[..|rows|] == rows;
      assert sheets[..s + 1][..s] == sheets[..s];
    }
    assert sheets[..|sheets|] == sheets;
    content := Join(" ", text);
  }

  /** `extract_text_from_pptx`: every slide, every shape that has text. */
  method ExtractTextFromPptx(r: Read<seq<seq<Shape>>>) returns (content: string)
    ensures content == JoinedOrEmpty(SlidesPieces(r))
  {
    if r.Unreadable? {
      return "";
    }
    var slides := r.value;
    var text: seq<string> := [];
    for s := 0 to |slides|
      invariant text == DeckPieces(slides[..s])
    {
      var shapes := slides[s];
      for j := 0 to |shapes|
        invariant text == DeckPieces(slides[..s]) + ShapePieces(shapes[..j])
      {
        assert shapes[..j + 1][..j] == shapes[..j];
        if shapes[j].text.Some? {
          text := text + [shapes[j].text.value];
        }
      }
      assert shapes[..|shapes|] == shapes;
      assert slides[..s + 1][..s] == slides[..s];
    }
    assert slides[..|slides|] == slides;
    content := Join(" ", text);
  }

  /** `extract_text_from_markdown` and `extract_text_from_text`: the whole
      UTF-8 text, or the empty text when it cannot be read. */
  method ExtractTextFromText(r: Read<string>) returns (content: string)
    ensures r.Readable? ==> content == r.value
    ensures r.Unreadable? ==> content == ""
  {
    content := if r.Unreadable? then "" else r.value;
  }

  /** `extract_content` */
  method ExtractContent(name: string, file: Option<FileData>) returns (r: Option<(string, string)>)
    ensures r == Extract(name, file)
  {
    if file.None? {
      return None;
    }
    var d := file.value;
    var extension := Lower(Suffix(name));
    var content: string;
    if extension == ".pdf" {
      content := ExtractTextFromPdf(d.pdfPages);
    } else if extension == ".docx" {
      content := ExtractTextFromDocx(d.docxParagraphs);
    } else if extension == ".xlsx" {
      content := ExtractTextFromXlsx(d.workbook);
    } else if extension == ".pptx" {
      content := ExtractTextFromPptx(d.slides);
    } else if extension == ".md" {
      content := ExtractTextFromText(d.utf8Text);
    } else if extension == ".txt" {
      content := ExtractTextFromText(d.utf8Text);
    } else {
      return Some((name, ""));
    }
    r := Some((name, content));
  }
}
