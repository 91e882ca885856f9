/** The content-block union of a section (types/content-blocks.ts): a shared envelope
    (`id`, `order`) around a closed set of variant payloads, the `is*Block` type guards and
    the `create*Block` factories. `crypto.randomUUID()` is replaced by an `id` argument. */
module ContentBlocks {
  import opened Common

  datatype BlockType =
    | Text | Heading | List | Table | Quote | Callout | Image | Chart | Code | Divider
    | FootnoteRef | ExhibitRef

  /** The value of the `type` discriminator for each variant. */
  function TypeTag(t: BlockType): string {
    match t
    case Text => "text"
    case Heading => "heading"
    case List => "list"
    case Table => "table"
    case Quote => "quote"
    case Callout => "callout"
    case Image => "image"
    case Chart => "chart"
    case Code => "code"
    case Divider => "divider"
    case FootnoteRef => "footnote_ref"
    case ExhibitRef => "exhibit_ref"
  }

  datatype ListItem = ListItem(text: string, checked: Option<bool>, children: Option<seq<ListItem>>)

  datatype Dataset = Dataset(datasetLabel: string, data: seq<int>, color: Option<string>)

  datatype TableStyle = TableStyle(bordered: Option<bool>, striped: Option<bool>, compact: Option<bool>)

  /** The variant-specific payload. Enumerated string fields (list type, callout variant,
      chart type, alignment, divider style) stay strings: stored JSON may hold any value,
      and the renderers have fallbacks for unknown ones. */
  datatype Body =
    | TextBody(content: string, alignment: Option<string>)
    | HeadingBody(level: int, text: string, anchorId: Option<string>)
    | ListBody(listType: string, items: seq<ListItem>)
    | TableBody(headers: seq<string>, rows: seq<seq<string>>, caption: Option<string>,
                tableStyle: Option<TableStyle>)
    | QuoteBody(text: string, author: Option<string>, source: Option<string>, citationId: Option<string>)
    | CalloutBody(variant: string, title: Option<string>, content: string, icon: Option<string>)
    | ImageBody(url: string, alt: string, caption: Option<string>, width: Option<int>,
                height: Option<int>, alignment: Option<string>, assetId: Option<string>)
    | ChartBody(chartType: string, labels: seq<string>, datasets: seq<Dataset>,
                title: Option<string>, caption: Option<string>, assetId: Option<string>)
    | CodeBody(language: string, code: string, showLineNumbers: Option<bool>,
               highlightLines: Option<seq<int>>, filename: Option<string>)
    | DividerBody(style: Option<string>)
    | FootnoteRefBody(footnoteId: string, number: int)
    | ExhibitRefBody(exhibitId: string, exhibitLabel: string)

  datatype ContentBlock = ContentBlock(id: string, order: int, body: Body)

  /** The discriminator of a block, determined by its payload. */
  function TypeOf(b: ContentBlock): BlockType {
    match b.body
    case TextBody(_, _) => Text
    case HeadingBody(_, _, _) => Heading
    case ListBody(_, _) => List
    case TableBody(_, _, _, _) => Table
    case QuoteBody(_, _, _, _) => Quote
    case CalloutBody(_, _, _, _) => Callout
    case ImageBody(_, _, _, _, _, _, _) => Image
    case ChartBody(_, _, _, _, _, _) => Chart
    case CodeBody(_, _, _, _, _) => Code
    case DividerBody(_) => Divider
    case FootnoteRefBody(_, _) => FootnoteRef
    case ExhibitRefBody(_, _) => ExhibitRef
  }

  // ---------------------------------------------------------------------------
  // Type guards: each compares the `type` string with its own tag, and holds exactly
  // for blocks of its own variant (the narrowing TypeScript relies on).

  function IsTextBlock(b: ContentBlock): (r: bool)
    ensures r <==> b.body.TextBody?
  {
    TypeTag(TypeOf(b)) == "text"
  }

  function IsHeadingBlock(b: ContentBlock): (r: bool)
    ensures r <==> b.body.HeadingBody?
  {
    TypeTag(TypeOf(b)) == "heading"
  }

  function IsListBlock(b: ContentBlock): (r: bool)
    ensures r <==> b.body.ListBody?
  {
    TypeTag(TypeOf(b)) == "list"
  }

  function IsTableBlock(b: ContentBlock): (r: bool)
    ensures r <==> b.body.TableBody?
  {
    TypeTag(TypeOf(b)) == "table"
  }

  function IsQuoteBlock(b: ContentBlock): (r: bool)
    ensures r <==> b.body.QuoteBody?
  {
    TypeTag(TypeOf(b)) == "quote"
  }

  function IsCalloutBlock(b: ContentBlock): (r: bool)
    ensures r <==> b.body.CalloutBody?
  {
    TypeTag(TypeOf(b)) == "callout"
  }

  function IsImageBlock(b: ContentBlock): (r: bool)
    ensures r <==> b.body.ImageBody?
  {
    TypeTag(TypeOf(b)) == "image"
  }

  function IsChartBlock(b: ContentBlock): (r: bool)
    ensures r <==> b.body.ChartBody?
  {
    TypeTag(TypeOf(b)) == "chart"
  }

  function IsCodeBlock(b: ContentBlock): (r: bool)
    ensures r <==> b.body.CodeBody?
  {
    TypeTag(TypeOf(b)) == "code"
  }

  function IsDividerBlock(b: ContentBlock): (r: bool)
    ensures r <==> b.body.DividerBody?
  {
    TypeTag(TypeOf(b)) == "divider"
  }

  function IsFootnoteRefBlock(b: ContentBlock): (r: bool)
    ensures r <==> b.body.FootnoteRefBody?
  {
    TypeTag(TypeOf(b)) == "footnote_ref"
  }

  function IsExhibitRefBlock(b: ContentBlock): (r: bool)
    ensures r <==> b.body.ExhibitRefBody?
  {
    TypeTag(TypeOf(b)) == "exhibit_ref"
  }

  // ---------------------------------------------------------------------------
  // Factories. Each fills in the id it is given, its own variant and the given order.

  type HeadingLevel = l: int | 1 <= l <= 6 witness 1

  /** The values the factories' optional arguments take when a caller leaves them out:
      order 0, empty text, heading level 2, a bullet list, an "info" callout, a bar chart
      and JavaScript code. */
  const DefaultOrder: int := 0
  const DefaultHeadingLevel: HeadingLevel := 2
  const DefaultListType: string := "bullet"
  const DefaultCalloutVariant: string := "info"
  const DefaultChartType: string := "bar"
  const DefaultLanguage: string := "javascript"

  function CreateTextBlock(id: string, content: string, order: int): (b: ContentBlock)
    ensures IsTextBlock(b) && b.id == id && b.order == order
    ensures b.body.content == content && b.body.alignment == None
  {
    ContentBlock(id, order, TextBody(content, None))
  }

  function CreateHeadingBlock(id: string, level: HeadingLevel, text: string, order: int): (b: ContentBlock)
    ensures IsHeadingBlock(b) && b.id == id && b.order == order
    ensures b.body.level == level && b.body.text == text && b.body.anchorId == None
  {
    ContentBlock(id, order, HeadingBody(level, text, None))
  }

  function CreateListBlock(id: string, listType: string, order: int): (b: ContentBlock)
    ensures IsListBlock(b) && b.id == id && b.order == order && b.body.listType == listType
    ensures |b.body.items| == 1 && b.body.items[0].text == ""
  {
    ContentBlock(id, order, ListBody(listType, [ListItem("", None, None)]))
  }

  function CreateTableBlock(id: string, order: int): (b: ContentBlock)
    ensures IsTableBlock(b) && b.id == id && b.order == order
    ensures b.body.headers == ["Column 1", "Column 2"]
    ensures |b.body.rows| == 1 && |b.body.rows[0]| == |b.body.headers|
    ensures forall c :: 0 <= c < |b.body.rows[0]| ==> b.body.rows[0][c] == ""
  {
    ContentBlock(id, order, TableBody(["Column 1", "Column 2"], [["", ""]], None, None))
  }

  function CreateQuoteBlock(id: string, text: string, order: int): (b: ContentBlock)
    ensures IsQuoteBlock(b) && b.id == id && b.order == order && b.body.text == text
    ensures b.body.author == None && b.body.source == None && b.body.citationId == None
  {
    ContentBlock(id, order, QuoteBody(text, None, None, None))
  }

  function CreateCalloutBlock(id: string, variant: string, content: string, order: int): (b: ContentBlock)
    ensures IsCalloutBlock(b) && b.id == id && b.order == order
    ensures b.body.variant == variant && b.body.content == content && b.body.title == None
  {
    ContentBlock(id, order, CalloutBody(variant, None, content, None))
  }

  function CreateImageBlock(id: string, url: string, alt: string, order: int): (b: ContentBlock)
    ensures IsImageBlock(b) && b.id == id && b.order == order
    ensures b.body.url == url && b.body.alt == alt && b.body.caption == None
  {
    ContentBlock(id, order, ImageBody(url, alt, None, None, None, None, None))
  }

  function CreateChartBlock(id: string, chartType: string, order: int): (b: ContentBlock)
    ensures IsChartBlock(b) && b.id == id && b.order == order && b.body.chartType == chartType
    ensures |b.body.datasets| == 1 && |b.body.labels| == |b.body.datasets[0].data| == 2
  {
    ContentBlock(id, order, ChartBody(chartType, ["Label 1", "Label 2"],
      [Dataset("Dataset 1", [10, 20], None)], None, None, None))
  }

  function CreateCodeBlock(id: string, language: string, code: string, order: int): (b: ContentBlock)
    ensures IsCodeBlock(b) && b.id == id && b.order == order
    ensures b.body.language == language && b.body.code == code
  {
    ContentBlock(id, order, CodeBody(language, code, None, None, None))
  }

  function CreateDividerBlock(id: string, order: int): (b: ContentBlock)
    ensures IsDividerBlock(b) && b.id == id && b.order == order && b.body.style == None
  {
    ContentBlock(id, order, DividerBody(None))
  }

  function CreateFootnoteRefBlock(id: string, footnoteId: string, number: int, order: int): (b: ContentBlock)
    ensures IsFootnoteRefBlock(b) && b.id == id && b.order == order
    ensures b.body.footnoteId == footnoteId && b.body.number == number
  {
    ContentBlock(id, order, FootnoteRefBody(footnoteId, number))
  }

  function CreateExhibitRefBlock(id: string, exhibitId: string, exhibitLabel: string, order: int): (b: ContentBlock)
    ensures IsExhibitRefBlock(b) && b.id == id && b.order == order
    ensures b.body.exhibitId == exhibitId && b.body.exhibitLabel == exhibitLabel
  {
    ContentBlock(id, order, ExhibitRefBody(exhibitId, exhibitLabel))
  }
}
