/**
 * What the evaluator sees of the web: a parsed page reduced to the parts its
 * heuristics inspect, and the outcome of an HTTP request. Fetching and HTML
 * parsing themselves are outside the model; a `Net` value answers every
 * request, the same way each time for the same URL.
 */
module Html {
  import opened Base

  /**
   * An `<a>` element: its text, its `.string` (present only when the element
   * holds a single piece of text) and its `href` attribute, if it has one.
   */
  datatype Anchor = Anchor(text: string, ownString: Option<string>, href: Option<string>)

  /** A `<button>` element: its text and its `.string`. */
  datatype Button = Button(text: string, ownString: Option<string>)

  /** A `<select>` element: its `name` attribute and the `value` attribute of each `<option>`. */
  datatype Select = Select(name: Option<string>, options: seq<Option<string>>)

  /** An `<input>` element and the attributes the search-widget test reads. */
  datatype Input = Input(kind: Option<string>, placeholder: Option<string>, ariaLabel: Option<string>)

  /**
   * A parsed page:
   * - `title`: the string of `<title>` ("" when there is none);
   * - `text`: the text of the whole document; `body`: the text of `<body>`, if any;
   * - `strings`: the stripped, non-empty text nodes in document order;
   * - the anchors, button texts, selects, inputs, image `alt` attributes,
   *   the number of tables and the `.string` of each `h1`-`h3` heading
   *   (`None` when the heading is empty or has several children);
   * - whether a `<nav>`, `<menu>` and `<footer>` element is present.
   */
  datatype Page = Page(
    title: string,
    text: string,
    body: Option<string>,
    strings: seq<string>,
    anchors: seq<Anchor>,
    buttons: seq<Button>,
    selects: seq<Select>,
    inputs: seq<Input>,
    imgAlts: seq<Option<string>>,
    tables: nat,
    headings: seq<Option<string>>,
    hasNav: bool,
    hasMenu: bool,
    hasFooter: bool)

  /** The outcome of one HTTP request: an exception, or a status code and the parsed body. */
  datatype Response = Raised | Response(status: int, page: Page)

  /** The network: the answer to a GET and to a HEAD request for each URL. */
  datatype Net = Net(get: string -> Response, head: string -> Response)

  /** `response.raise_for_status()` succeeds: no exception and a status below 400. */
  predicate Ok(r: Response) {
    r.Response? && r.status < 400
  }

  /** `url.startswith(('http://', 'https://'))` */
  predicate HasScheme(url: string) {
    IsPrefix("http://", url) || IsPrefix("https://", url)
  }
}
