/**
 * The element and page data model of the enhanced editor: a closed set of
 * six element kinds, elements with optional style and property bags, and
 * main pages that embed their subpages and keep a canvas of their own.
 */
module PageTypes {
  import opened Basics

  /** The closed variant set of an element's `type`. */
  datatype ElementType = PowerBi | Spreadsheet | Image | Text | Button | Html

  /** The tag each kind is stored under. */
  function TypeTag(t: ElementType): (s: string)
    ensures s != ""
  {
    match t
    case PowerBi => "powerbi"
    case Spreadsheet => "spreadsheet"
    case Image => "image"
    case Text => "text"
    case Button => "button"
    case Html => "html"
  }

  /** Reading a stored tag back: exactly six strings name a kind. */
  function ParseType(s: string): (r: Option<ElementType>)
    ensures r.Some? <==> s in ["powerbi", "spreadsheet", "image", "text", "button", "html"]
    ensures r.Some? ==> TypeTag(r.value) == s
  {
    if s == "powerbi" then Some(PowerBi)
    else if s == "spreadsheet" then Some(Spreadsheet)
    else if s == "image" then Some(Image)
    else if s == "text" then Some(Text)
    else if s == "button" then Some(Button)
    else if s == "html" then Some(Html)
    else None
  }

  lemma TypeTagRoundTrip(t: ElementType)
    ensures ParseType(TypeTag(t)) == Some(t)
  {
  }

  /** `styles` is always present; each of its keys may be absent. */
  datatype Styles = Styles(
    backgroundColor: Option<string>,
    textColor: Option<string>,
    fontSize: Option<int>,
    borderRadius: Option<int>,
    border: Option<string>,
    padding: Option<string>,
    margin: Option<string>)

  const NoStyles := Styles(None, None, None, None, None, None, None)

  /** The type-specific payload; each key may be absent. */
  datatype Properties = Properties(
    embedUrl: Option<string>,
    imageUrl: Option<string>,
    link: Option<string>,
    html: Option<string>,
    alt: Option<string>)

  const NoProperties := Properties(None, None, None, None, None)

  /**
   * A positioned, typed visual unit. It stores no owner: it belongs to a
   * page or subpage only by sitting in that page's `elements` list.
   */
  datatype PageElement = PageElement(
    id: string,
    kind: ElementType,
    content: string,
    x: int,
    y: int,
    width: int,
    height: int,
    styles: Styles,
    properties: Option<Properties>)

  /** A subpage is either a Power BI panel or a spreadsheet panel. */
  datatype SubPageType = SubPowerBi | SubSpreadsheet

  /** The element kind a subpage's embed corresponds to. */
  function SubPageElementType(t: SubPageType): (k: ElementType)
    ensures k == PowerBi || k == Spreadsheet
    ensures t == SubPowerBi <==> k == PowerBi
  {
    match t
    case SubPowerBi => PowerBi
    case SubSpreadsheet => Spreadsheet
  }

  datatype SubPage = SubPage(
    id: string,
    name: string,
    kind: SubPageType,
    embedUrl: string,
    elements: seq<PageElement>,
    classification: string,
    customHtml: Option<string>,
    createdAt: string,
    updatedAt: string)

  /** A main page: its own canvas plus the subpages it embeds. */
  datatype MainPage = MainPage(
    id: string,
    name: string,
    description: string,
    classification: string,
    powerbiBadgeUrl: Option<string>,
    spreadsheetBadgeUrl: Option<string>,
    elements: seq<PageElement>,
    subPages: seq<SubPage>,
    customHtml: Option<string>,
    createdAt: string,
    updatedAt: string)

  datatype PageCategory = PageCategory(id: string, name: string, color: string, icon: string)
}
