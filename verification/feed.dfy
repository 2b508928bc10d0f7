/** What `IzParser.parse_articles_feed` computes for a listing page: one
    article record per day block, in block order, or the first exception a
    block raises. */
module Feed {
  import opened Wrappers
  import opened Text
  import opened Urls
  import opened Html

  /** The dictionary `{'title', 'date', 'url', 'text'}` built for one block. */
  datatype Article = Article(title: string, date: string, url: string, text: string)

  /** `dates(h)` stands for `str(DateDataParser(languages=['ru'])
      .get_date_data(h).date_obj)`, whose locale rules are not modelled. */
  type DateParser = string -> string

  /** The body of the loop over day blocks, for one block. The lookups fail
      in the order the source performs them: the `<h3>` text, the `<a>`, its
      `href`, the title text, and finally the article page itself. */
  function ParseBlock(web: Web, dates: DateParser, block: DayBlock): (r: Result<Article, Error>)
    ensures r.Success? <==>
              && block.heading.Some? && block.link.Some? && block.link.value.href.Some?
              && block.title.Some?
              && ParseArticleText(web, BaseUrl + block.link.value.href.value).Success?
    ensures r.Success? ==>
              && r.value.date == dates(block.heading.value)
              && r.value.url == BaseUrl + block.link.value.href.value
              && r.value.title == Normalize(block.title.value)
              && r.value.text == ParseArticleText(web, r.value.url).value
    ensures block.heading.None? ==> r == Failure(NoneAttribute("text"))
    ensures block.heading.Some? && block.link.None? ==> r == Failure(NoneAttribute("get"))
  {
    match block.heading
    case None => Failure(NoneAttribute("text"))
    case Some(heading) =>
      var date := dates(heading);
      match block.link
      case None => Failure(NoneAttribute("get"))
      case Some(anchor) =>
        match anchor.href
        case None => Failure(ConcatNone)
        case Some(href) =>
          var url := BaseUrl + href;
          match block.title
          case None => Failure(NoneAttribute("text"))
          case Some(rawTitle) =>
            var title := Normalize(rawTitle);
            match ParseArticleText(web, url)
            case Failure(e) => Failure(e)
            case Success(text) => Success(Article(title, date, url, text))
  }

  /** A loop that applies `step` to each item in order and stops at the
      first exception: the shape of the loop over day blocks. */
  function MapUntilError<A, B, E>(step: A -> Result<B, E>, items: seq<A>): (r: Result<seq<B>, E>)
    ensures r.Success? ==> |r.value| == |items|
  {
    if |items| == 0 then Success([])
    else
      match step(items[0])
      case Failure(e) => Failure(e)
      case Success(first) =>
        match MapUntilError(step, items[1..])
        case Failure(e) => Failure(e)
        case Success(rest) => Success([first] + rest)
  }

  /** The loop over all day blocks of a listing page: it succeeds exactly
      when every block does, and then record `k` is block `k`'s record. */
  function ParseBlocks(web: Web, dates: DateParser, blocks: seq<DayBlock>): (r: Result<seq<Article>, Error>)
    ensures r.Success? <==> forall k :: 0 <= k < |blocks| ==> ParseBlock(web, dates, blocks[k]).Success?
    ensures r.Success? ==>
              && |r.value| == |blocks|
              && forall k :: 0 <= k < |blocks| ==> ParseBlock(web, dates, blocks[k]) == Success(r.value[k])
  {
    var step := block => ParseBlock(web, dates, block);
    MapUntilErrorSucceeds(step, blocks);
    MapUntilError(step, blocks)
  }

  /** `IzParser.parse_articles_feed(url)`: the listing page is fetched as
      important, then its day blocks are parsed. */
  function ParseFeed(web: Web, dates: DateParser, url: string): (r: Result<seq<Article>, Error>)
    ensures web(url).status != 200 ==> r == Failure(ImportantPageUnavailable)
    ensures web(url).status == 200 ==> r == ParseBlocks(web, dates, web(url).body.dayBlocks)
  {
    match GetResponse(web, url, true)
    case Failure(e) => Failure(e)
    case Success(doc) => ParseBlocks(web, dates, doc.dayBlocks)
  }

  /** The loop succeeds exactly when every step does, and then result `k`
      is the result of step `k`. */
  lemma {:induction false} MapUntilErrorSucceeds<A, B, E>(step: A -> Result<B, E>, items: seq<A>)
    ensures MapUntilError(step, items).Success?
            <==> forall k :: 0 <= k < |items| ==> step(items[k]).Success?
    ensures MapUntilError(step, items).Success? ==>
              forall k :: 0 <= k < |items| ==> step(items[k]) == Success(MapUntilError(step, items).value[k])
  {
    if |items| > 0 {
      MapUntilErrorSucceeds(step, items[1..]);
      assert forall k :: 1 <= k < |items| ==> items[k] == items[1..][k - 1];
    }
  }

  /** When the steps before `k` succeed and step `k` raises, the loop raises
      that same exception. */
  lemma {:induction false} MapUntilErrorFirstFailure<A, B, E>(step: A -> Result<B, E>, items: seq<A>, k: nat)
    requires k < |items|
    requires forall j :: 0 <= j < k ==> step(items[j]).Success?
    requires step(items[k]).Failure?
    ensures MapUntilError(step, items) == Failure(step(items[k]).error)
  {
    if k > 0 {
      assert forall j :: 0 <= j < k - 1 ==> items[1..][j] == items[j + 1];
      MapUntilErrorFirstFailure(step, items[1..], k - 1);
    }
  }

  /** When every step succeeds, the loop's results are the steps' results,
      one per item, in item order. */
  lemma {:induction false} MapUntilErrorAll<A, B, E>(step: A -> Result<B, E>, items: seq<A>, results: seq<B>)
    requires |results| == |items|
    requires forall j :: 0 <= j < |items| ==> step(items[j]) == Success(results[j])
    ensures MapUntilError(step, items) == Success(results)
  {
    if |items| > 0 {
      assert forall j :: 0 <= j < |items| - 1 ==> items[1..][j] == items[j + 1];
      MapUntilErrorAll(step, items[1..], results[1..]);
      assert results == [results[0]] + results[1..];
    }
  }

  /** A listing page answering 200 yields exactly one record per day block,
      and record `k`'s URL is the origin followed by block `k`'s link. */
  lemma FeedRecordPerBlock(web: Web, dates: DateParser, url: string)
    requires ParseFeed(web, dates, url).Success?
    ensures var blocks := web(url).body.dayBlocks;
            var articles := ParseFeed(web, dates, url).value;
            web(url).status == 200
            && |articles| == |blocks|
            && forall k :: 0 <= k < |blocks| ==>
                 && blocks[k].link.Some? && blocks[k].link.value.href.Some?
                 && blocks[k].title.Some?
                 && articles[k].url == BaseUrl + blocks[k].link.value.href.value
                 && articles[k].title == Normalize(blocks[k].title.value)
                 && '\n' !in articles[k].title
  {
    MapUntilErrorSucceeds(block => ParseBlock(web, dates, block), web(url).body.dayBlocks);
  }

  /** An article page that does not answer 200 does not degrade to empty
      text: the block that links to it raises, and so does its listing page
      when the blocks before it parse. */
  lemma UnavailableArticleFailsFeed(web: Web, dates: DateParser, url: string, k: nat)
    requires web(url).status == 200
    requires var blocks := web(url).body.dayBlocks;
             && k < |blocks|
             && (forall j :: 0 <= j < k ==> ParseBlock(web, dates, blocks[j]).Success?)
             && blocks[k].heading.Some? && blocks[k].link.Some?
             && blocks[k].link.value.href.Some? && blocks[k].title.Some?
             && web(BaseUrl + blocks[k].link.value.href.value).status != 200
    ensures ParseFeed(web, dates, url) == Failure(NoneAttribute("find_all"))
  {
    MapUntilErrorFirstFailure(block => ParseBlock(web, dates, block), web(url).body.dayBlocks, k);
  }
}
