/** The editing logic of the block renderer (components/content-blocks/content-block-renderer.tsx):
    merging a partial update into a block, the list and table edit handlers, and the style
    fallbacks of callouts and dividers. Rendering itself is not modelled. */
module BlockRenderer {
  import opened Common
  import opened ContentBlocks

  // ===========================================================================
  // handleChange: `{ ...block, ...updates }`

  /** The partial updates the per-type renderers issue, one field each. */
  datatype Update =
    | SetContent(content: string)
    | SetText(text: string)
    | SetItems(items: seq<ListItem>)
    | SetHeaders(headers: seq<string>)
    | SetRows(rows: seq<seq<string>>)
    | SetAuthor(author: Option<string>)
    | SetTitle(title: Option<string>)
    | SetCaption(caption: Option<string>)
    | SetCode(code: string)

  /** The update names a field of the block's own variant (each renderer only issues
      updates for its own block type). */
  predicate Fits(b: ContentBlock, u: Update) {
    match u
    case SetContent(_) => b.body.TextBody? || b.body.CalloutBody?
    case SetText(_) => b.body.HeadingBody? || b.body.QuoteBody?
    case SetItems(_) => b.body.ListBody?
    case SetHeaders(_) => b.body.TableBody?
    case SetRows(_) => b.body.TableBody?
    case SetAuthor(_) => b.body.QuoteBody?
    case SetTitle(_) => b.body.CalloutBody?
    case SetCaption(_) => b.body.ImageBody?
    case SetCode(_) => b.body.CodeBody?
  }

  /** Both updates write the same field. */
  predicate SameField(u: Update, v: Update) {
    (u.SetContent? && v.SetContent?) || (u.SetText? && v.SetText?) || (u.SetItems? && v.SetItems?) ||
    (u.SetHeaders? && v.SetHeaders?) || (u.SetRows? && v.SetRows?) || (u.SetAuthor? && v.SetAuthor?) ||
    (u.SetTitle? && v.SetTitle?) || (u.SetCaption? && v.SetCaption?) || (u.SetCode? && v.SetCode?)
  }

  /** The block with the update's field overridden. */
  function Apply(b: ContentBlock, u: Update): (r: ContentBlock)
    requires Fits(b, u)
    ensures r.id == b.id && r.order == b.order && TypeOf(r) == TypeOf(b)
  {
    var body := match b.body
      case TextBody(_, alignment) => TextBody(u.content, alignment)
      case HeadingBody(level, _, anchorId) => HeadingBody(level, u.text, anchorId)
      case ListBody(listType, _) => ListBody(listType, u.items)
      case TableBody(headers, rows, caption, style) =>
        if u.SetHeaders? then TableBody(u.headers, rows, caption, style)
        else TableBody(headers, u.rows, caption, style)
      case QuoteBody(text, author, source, citationId) =>
        if u.SetText? then QuoteBody(u.text, author, source, citationId)
        else QuoteBody(text, u.author, source, citationId)
      case CalloutBody(variant, title, content, icon) =>
        if u.SetContent? then CalloutBody(variant, title, u.content, icon)
        else CalloutBody(variant, u.title, content, icon)
      case ImageBody(url, alt, _, width, height, alignment, assetId) =>
        ImageBody(url, alt, u.caption, width, height, alignment, assetId)
      case CodeBody(language, _, showLineNumbers, highlightLines, filename) =>
        CodeBody(language, u.code, showLineNumbers, highlightLines, filename)
      case _ => b.body;
    b.(body := body)
  }

  /** The block's current value of the field `u` writes, as an update. */
  function Read(b: ContentBlock, u: Update): (r: Update)
    requires Fits(b, u)
    ensures SameField(u, r) && Fits(b, r)
  {
    match u
    case SetContent(_) => SetContent(b.body.content)
    case SetText(_) => SetText(b.body.text)
    case SetItems(_) => SetItems(b.body.items)
    case SetHeaders(_) => SetHeaders(b.body.headers)
    case SetRows(_) => SetRows(b.body.rows)
    case SetAuthor(_) => SetAuthor(b.body.author)
    case SetTitle(_) => SetTitle(b.body.title)
    case SetCaption(_) => SetCaption(b.body.caption)
    case SetCode(_) => SetCode(b.body.code)
  }

  /** The merge overrides exactly one field: reading it back gives the new value, writing
      the current value back changes nothing (so no other field moved), and of two writes
      to one field the later wins. */
  lemma ApplyOverridesOneField(b: ContentBlock, u: Update, v: Update)
    requires Fits(b, u)
    ensures Read(Apply(b, u), u) == u
    ensures Apply(b, Read(b, u)) == b
    ensures SameField(u, v) ==> Fits(Apply(b, u), v) && Apply(Apply(b, u), v) == Apply(b, v)
  {
  }

  /** `handleChange`: hands the merged block to `onChange`, or does nothing without one. */
  function HandleChange(block: ContentBlock, updates: Update, hasOnChange: bool): (r: Option<ContentBlock>)
    requires Fits(block, updates)
    ensures r.Some? <==> hasOnChange
    ensures r.Some? ==> r.value == Apply(block, updates)
  {
    if hasOnChange then Some(Apply(block, updates)) else None
  }

  // ===========================================================================
  // List and table edits

  /** Editing the text of item `index` (`{ ...item, text }` in a copied array). */
  function EditListItem(items: seq<ListItem>, index: nat, text: string): (r: seq<ListItem>)
    requires index < |items|
    ensures |r| == |items|
    ensures r[index].text == text
    ensures r[index].checked == items[index].checked && r[index].children == items[index].children
    ensures forall j :: 0 <= j < |items| && j != index ==> r[j] == items[j]
  {
    items[index := items[index].(text := text)]
  }

  /** "+ Add item": one more item, with empty text. */
  function AddListItem(items: seq<ListItem>): (r: seq<ListItem>)
    ensures |r| == |items| + 1 && r[..|items|] == items
    ensures r[|items|].text == "" && r[|items|].checked == None && r[|items|].children == None
  {
    items + [ListItem("", None, None)]
  }

  /** Editing header `index` in a copied array. */
  function EditHeader(headers: seq<string>, index: nat, value: string): (r: seq<string>)
    requires index < |headers|
    ensures |r| == |headers| && r[index] == value
    ensures forall j :: 0 <= j < |headers| && j != index ==> r[j] == headers[j]
  {
    headers[index := value]
  }

  /** "+ Add row": one more row of as many empty cells as there are headers. */
  function AddRow(headers: seq<string>, rows: seq<seq<string>>): (r: seq<seq<string>>)
    ensures |r| == |rows| + 1 && r[..|rows|] == rows
    ensures |r[|rows|]| == |headers| && forall c :: 0 <= c < |headers| ==> r[|rows|][c] == ""
  {
    rows + [seq(|headers|, _ => "")]
  }

  /** Editing cell (row, col): the outer array is copied but the row is not, so the write
      lands in the row array the original block also holds. The returned rows are the
      very same row arrays, and the original block's cells show the new value too. */
  method EditCell(rows: seq<array<string>>, row: nat, col: nat, value: string)
    returns (newRows: seq<array<string>>)
    requires row < |rows| && col < rows[row].Length
    modifies rows[row]
    ensures newRows == rows
    ensures rows[row][..] == old(rows[row][..])[col := value]
    ensures forall k :: 0 <= k < |rows| && rows[k] != rows[row] ==> rows[k][..] == old(rows[k][..])
  {
    newRows := rows;
    newRows[row][col] := value;
  }

  // ===========================================================================
  // Style fallbacks

  const InfoClass: string := "bg-blue-50 border-blue-500 text-blue-900"
  const SolidClass: string := "border-t border-gray-300"

  /** The `variants` record. */
  function VariantClass(variant: string): Option<string> {
    if variant == "info" then Some(InfoClass)
    else if variant == "warning" then Some("bg-yellow-50 border-yellow-500 text-yellow-900")
    else if variant == "success" then Some("bg-green-50 border-green-500 text-green-900")
    else if variant == "error" then Some("bg-red-50 border-red-500 text-red-900")
    else if variant == "note" then Some("bg-gray-50 border-gray-500 text-gray-900")
    else None
  }

  /** `variants[block.variant] || variants.info`. */
  function CalloutClass(variant: string): (r: string)
    ensures r == InfoClass <==> variant == "info" || VariantClass(variant).None?
    ensures VariantClass(variant).Some? ==> r == VariantClass(variant).value
  {
    match VariantClass(variant)
    case Some(c) => if c != "" then c else InfoClass
    case None => InfoClass
  }

  /** The `styles` record. */
  function StyleClass(style: string): Option<string> {
    if style == "solid" then Some(SolidClass)
    else if style == "dashed" then Some("border-t border-dashed border-gray-300")
    else if style == "dotted" then Some("border-t border-dotted border-gray-300")
    else if style == "thick" then Some("border-t-2 border-gray-400")
    else None
  }

  /** `styles[block.style || 'solid'] || styles.solid`: a missing, empty or unknown style
      draws a solid line. */
  function DividerClass(style: Option<string>): (r: string)
    ensures !Truthy(style) ==> r == SolidClass
    ensures r == SolidClass <==> !Truthy(style) || style.value == "solid" || StyleClass(style.value).None?
  {
    var key := if Truthy(style) then style.value else "solid";
    match StyleClass(key)
    case Some(c) => if c != "" then c else SolidClass
    case None => SolidClass
  }
}
