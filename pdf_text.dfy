/**
 * Plain-text extraction from the parse tree that the PDF parser hands to the
 * resume-review handler: runs are concatenated and decoded per text item, items
 * are joined by a space within a page, and pages by a blank line.
 */
module PdfText {
  import opened Outcomes
  import opened JsString

  /** One styled run of characters, `r.T`. */
  datatype TextRun = TextRun(T: string)
  /** One positioned text item, `t.R`. */
  datatype TextItem = TextItem(R: seq<TextRun>)
  /** One page, `page.Texts`. */
  datatype Page = Page(Texts: seq<TextItem>)
  /** `pdfData.formImage`, whose `Pages` may be absent. */
  datatype FormImage = FormImage(Pages: Option<seq<Page>>)
  /** The parser's `pdfData`, whose `formImage` may be absent. */
  datatype PdfData = PdfData(formImage: Option<FormImage>)

  const PageSeparator: string := "\n\n"
  const ItemSeparator: string := " "

  /** `t.R.map((r) => r.T).join("")`, passed through the URI decoder. */
  function ItemText(item: TextItem, decode: string -> string): string {
    decode(Join(seq(|item.R|, i requires 0 <= i < |item.R| => item.R[i].T), ""))
  }

  /** `page.Texts.map(...)`: the decoded text of each item, in order. */
  function ItemTexts(page: Page, decode: string -> string): seq<string> {
    seq(|page.Texts|, i requires 0 <= i < |page.Texts| => ItemText(page.Texts[i], decode))
  }

  /** One page's text: its items' decoded text joined by a space. */
  function PageText(page: Page, decode: string -> string): string {
    Join(ItemTexts(page, decode), ItemSeparator)
  }

  /** `pages.map(...)`: the text of each page, in order. */
  function PageTexts(pages: seq<Page>, decode: string -> string): seq<string> {
    seq(|pages|, i requires 0 <= i < |pages| => PageText(pages[i], decode))
  }

  /** `pdfData?.formImage?.Pages`: the pages, or absent when any link of the chain is absent. */
  function PagesOf(pdf: Option<PdfData>): Option<seq<Page>> {
    if pdf.Some? && pdf.value.formImage.Some? then pdf.value.formImage.value.Pages else None
  }

  /**
   * The extracted text, `extractedText || ""`: absent pages give the empty string,
   * and the text is empty exactly when there is no page text to show at all.
   */
  function ExtractText(pdf: Option<PdfData>, decode: string -> string): (r: string)
    ensures PagesOf(pdf).None? ==> r == ""
    ensures r == "" <==>
      PagesOf(pdf).None? || |PagesOf(pdf).value| == 0 ||
      (|PagesOf(pdf).value| == 1 && PageText(PagesOf(pdf).value[0], decode) == "")
  {
    match PagesOf(pdf)
    case None => ""
    case Some(pages) =>
      var joined := Join(PageTexts(pages, decode), PageSeparator);
      JoinLength(PageTexts(pages, decode), PageSeparator);
      if joined == "" then "" else joined
  }

  /**
   * A single-page document yields that page's text alone, so when no decoded item
   * holds a line break the text holds none either: "\n\n" appears only between pages.
   */
  lemma SinglePageHasNoLineBreak(page: Page, decode: string -> string)
    requires forall i :: 0 <= i < |page.Texts| ==> '\n' !in ItemText(page.Texts[i], decode)
    ensures '\n' !in ExtractText(Some(PdfData(Some(FormImage(Some([page]))))), decode)
  {
    JoinAvoids(ItemTexts(page, decode), ItemSeparator, '\n');
  }

  /** The first `k` pages and the remaining pages are separated by exactly one blank line. */
  lemma PageBoundary(pages: seq<Page>, decode: string -> string, k: nat)
    requires 0 < k < |pages|
    ensures ExtractText(Some(PdfData(Some(FormImage(Some(pages))))), decode)
         == ExtractText(Some(PdfData(Some(FormImage(Some(pages[..k]))))), decode) + "\n\n"
          + ExtractText(Some(PdfData(Some(FormImage(Some(pages[k..]))))), decode)
  {
    var texts := PageTexts(pages, decode);
    JoinSplitAt(texts, PageSeparator, k);
    assert texts[..k] == PageTexts(pages[..k], decode);
    assert texts[k..] == PageTexts(pages[k..], decode);
  }

  /**
   * When every decoded item is blank the whole text is blank, so the handler's
   * `!text.trim()` check rejects the document.
   */
  lemma BlankItemsGiveBlankText(pdf: Option<PdfData>, decode: string -> string)
    requires PagesOf(pdf).Some?
    requires forall p, t :: 0 <= p < |PagesOf(pdf).value| && 0 <= t < |PagesOf(pdf).value[p].Texts| ==>
               IsBlank(ItemText(PagesOf(pdf).value[p].Texts[t], decode))
    ensures Trim(ExtractText(pdf, decode)) == ""
  {
    var pages := PagesOf(pdf).value;
    forall p | 0 <= p < |pages| ensures IsBlank(PageText(pages[p], decode)) {
      JoinBlank(ItemTexts(pages[p], decode), ItemSeparator);
    }
    JoinBlank(PageTexts(pages, decode), PageSeparator);
    TrimEmptyIffBlank(ExtractText(pdf, decode));
  }
}
