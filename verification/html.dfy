/** Fetched pages and the lookups the parser makes on them.

    A parsed page is represented only by the answers to the fixed queries
    the parser asks of it (HTML parsing itself is not modelled):
    `find_all('div', {'class': 'lenta_news__day'})` becomes `dayBlocks`,
    `find('div', {'itemprop': 'articleBody'})` becomes `articleBody`,
    `find('div', {'class': 'text-article__inside'})` becomes `textInside`,
    and inside a block or container each `find` is an `Option` and each
    `find_all('p')` a sequence of paragraph texts. */
module Html {
  import opened Wrappers
  import opened Text

  /** The first `<a>` of a day block; `href` is `None` when the attribute
      is missing (`Tag.get('href')` returns `None`). */
  datatype Anchor = Anchor(href: Option<string>)

  /** One `lenta_news__day` block of a listing page. */
  datatype DayBlock = DayBlock(
    heading: Option<string>,   // text of the first <h3>
    link: Option<Anchor>,      // the first <a>
    title: Option<string>)     // text of the first lenta_news__day__list__item__title div

  /** A body container; `paragraphs` are the texts of its `<p>` elements in
      document order. */
  datatype Container = Container(paragraphs: seq<string>)

  datatype Document = Document(
    dayBlocks: seq<DayBlock>,
    articleBody: Option<Container>,
    textInside: Option<Container>)

  /** `bs('')`: a page with nothing on it. */
  const EmptyDocument: Document := Document([], None, None)

  /** An HTTP answer: its status code and its parsed body. */
  datatype Response = Response(status: int, body: Document)

  /** `requests.get`: what the network answers for each URL. */
  type Web = string -> Response

  /** The exceptions the parser can raise. */
  datatype Error =
    | ImportantPageUnavailable      // Exception('Could not parse important page')
    | NoneAttribute(name: string)   // AttributeError: 'NoneType' object has no attribute <name>
    | ConcatNone                    // TypeError: str + None

  /** `IzParser.get_response(url, important)`: a page is returned exactly
      when the status is 200 or the page is not important; an important page
      that does not answer 200 raises, any other page that does not answer
      200 comes back empty. */
  function GetResponse(web: Web, url: string, important: bool): (r: Result<Document, Error>)
    ensures r.Success? <==> web(url).status == 200 || !important
    ensures web(url).status == 200 ==> r == Success(web(url).body)
    ensures web(url).status != 200 && important ==> r == Failure(ImportantPageUnavailable)
    ensures web(url).status != 200 && !important ==> r == Success(EmptyDocument)
  {
    var response := web(url);
    if response.status == 200 then Success(response.body)
    else if important then Failure(ImportantPageUnavailable)
    else Success(EmptyDocument)
  }

  /** The article body container: the `itemprop=articleBody` div, and the
      `text-article__inside` div only when the first is missing. */
  function BodyContainer(doc: Document): (r: Option<Container>)
    ensures r.None? <==> doc.articleBody.None? && doc.textInside.None?
    ensures doc.articleBody.Some? ==> r == doc.articleBody
    ensures doc.articleBody.None? ==> r == doc.textInside
  {
    match doc.articleBody
    case Some(c) => Some(c)
    case None => doc.textInside
  }

  /** The text of an article page: its body container's paragraphs,
      cleaned and run together. With no container at all, `find_all` is
      called on `None` and raises. */
  function ExtractText(doc: Document): (r: Result<string, Error>)
    ensures r.Success? <==> doc.articleBody.Some? || doc.textInside.Some?
    ensures doc.articleBody.Some? ==>
              r == Success(JoinNormalized(doc.articleBody.value.paragraphs))
    ensures doc.articleBody.None? && doc.textInside.Some? ==>
              r == Success(JoinNormalized(doc.textInside.value.paragraphs))
    ensures r.Failure? ==> r.error == NoneAttribute("find_all")
    ensures r.Success? ==> '\n' !in r.value
  {
    match BodyContainer(doc)
    case Some(c) => Success(JoinNormalized(c.paragraphs))
    case None => Failure(NoneAttribute("find_all"))
  }

  /** `IzParser.parse_article_text(url)`: the article page is fetched as
      not important and its text extracted. */
  function ParseArticleText(web: Web, url: string): (r: Result<string, Error>)
    ensures web(url).status == 200 ==> r == ExtractText(web(url).body)
    ensures web(url).status != 200 ==> r == Failure(NoneAttribute("find_all"))
  {
    match GetResponse(web, url, false)
    case Success(doc) => ExtractText(doc)
    case Failure(e) => Failure(e)
  }

  /** The text of an article whose page has both containers comes from the
      `articleBody` one; the other is never consulted. */
  lemma PrimaryContainerWins(web: Web, url: string, other: Option<Container>)
    requires web(url).status == 200 && web(url).body.articleBody.Some?
    ensures var doc := web(url).body;
            ParseArticleText(web, url)
            == ExtractText(Document(doc.dayBlocks, doc.articleBody, other))
  {
  }
}
