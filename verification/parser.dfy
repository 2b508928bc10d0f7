/** `IzParser`: the page loop of `start_parsing`, the block loop of
    `parse_articles_feed` and the insert loop of `commit_to_db`, each proved
    against the function that says what it computes. */
module Parser {
  import opened Wrappers
  import opened Seqs
  import opened Urls
  import opened Html
  import opened Feed
  import opened Store

  /** What each listing page parses to, by page number. */
  type PageParse = nat -> Result<seq<Article>, Error>

  /** Listing page `page` of `topic`, fetched and parsed. */
  function PageParser(web: Web, dates: DateParser, topic: string): PageParse
  {
    (page: nat) => ParseFeed(web, dates, PageUrl(topic, page))
  }

  /** What a run of the page loop leaves behind: the parsed pages that were
      committed, in page order, and the exception that ended the run early,
      if any. */
  datatype CrawlOutcome = CrawlOutcome(committed: seq<seq<Article>>, failure: Option<Error>)

  /** The page loop from `page` on: each page below `numPage` is parsed and
      committed in turn, and the first page that raises ends the loop. With
      no exception every remaining page is committed; an exception comes
      from a page below `numPage`. */
  function CrawlFrom(parse: PageParse, page: nat, numPage: int): (r: CrawlOutcome)
    ensures r.failure.None? ==> |r.committed| == if page < numPage then numPage - page else 0
    ensures r.failure.Some? ==> page + |r.committed| < numPage
    decreases numPage - page
  {
    if numPage <= page then CrawlOutcome([], None)
    else
      match parse(page)
      case Failure(e) => CrawlOutcome([], Some(e))
      case Success(articles) =>
        var rest := CrawlFrom(parse, page + 1, numPage);
        CrawlOutcome([articles] + rest.committed, rest.failure)
  }

  /** `start_parsing(numPage)` over `range(numPage)`: one committed page
      per page of the range when nothing raises, fewer otherwise. */
  function Crawl(web: Web, dates: DateParser, topic: string, numPage: int): (r: CrawlOutcome)
    ensures r.failure.None? ==> |r.committed| == if numPage < 0 then 0 else numPage
    ensures r.failure.Some? ==> |r.committed| < numPage
  {
    CrawlFrom(PageParser(web, dates, topic), 0, numPage)
  }

  /** The batches of rows the committed pages add, one transaction each. */
  function Batches(committed: seq<seq<Article>>): (batches: seq<seq<Row>>)
    ensures |batches| == |committed|
    ensures forall k :: 0 <= k < |committed| ==> batches[k] == RowsOf(committed[k])
  {
    seq(|committed|, k requires 0 <= k < |committed| => RowsOf(committed[k]))
  }

  /** The outcome of a run that has already committed `done` and goes on
      as `rest`. */
  function Resume(done: seq<seq<Article>>, rest: CrawlOutcome): CrawlOutcome
  {
    CrawlOutcome(done + rest.committed, rest.failure)
  }

  lemma ResumeEnded(done: seq<seq<Article>>, failure: Option<Error>)
    ensures Resume(done, CrawlOutcome([], failure)) == CrawlOutcome(done, failure)
  {
    assert done + [] == done;
  }

  lemma ResumeAfterPage(done: seq<seq<Article>>, articles: seq<Article>, rest: CrawlOutcome)
    ensures Resume(done, CrawlOutcome([articles] + rest.committed, rest.failure))
            == Resume(done + [articles], rest)
  {
    assert done + ([articles] + rest.committed) == (done + [articles]) + rest.committed;
  }

  /** One step of the page loop. */
  lemma CrawlFromStep(parse: PageParse, page: nat, numPage: int)
    requires page < numPage
    ensures parse(page).Failure? ==>
              CrawlFrom(parse, page, numPage) == CrawlOutcome([], Some(parse(page).error))
    ensures parse(page).Success? ==>
              var rest := CrawlFrom(parse, page + 1, numPage);
              CrawlFrom(parse, page, numPage) == CrawlOutcome([parse(page).value] + rest.committed, rest.failure)
  {
  }

  lemma BatchesAppend(done: seq<seq<Article>>, articles: seq<Article>)
    ensures Batches(done + [articles]) == Batches(done) + [RowsOf(articles)]
  {
  }

  /** The loop from `page` commits the pages `page, page + 1, ...` in order,
      each with what it parsed to; it goes up to `numPage` when no page
      raises and otherwise stops at the first page that raises. */
  lemma {:induction false} CrawlFromShape(parse: PageParse, page: nat, numPage: int)
    ensures var c := CrawlFrom(parse, page, numPage);
            && (forall k :: 0 <= k < |c.committed| ==> parse(page + k) == Success(c.committed[k]))
            && (c.failure.None? ==> |c.committed| == if page < numPage then numPage - page else 0)
            && (c.failure.Some? ==>
                  && page + |c.committed| < numPage
                  && parse(page + |c.committed|) == Failure(c.failure.value))
    decreases numPage - page
  {
    if page < numPage && parse(page).Success? {
      CrawlFromShape(parse, page + 1, numPage);
      var c := CrawlFrom(parse, page, numPage);
      var rest := CrawlFrom(parse, page + 1, numPage);
      assert c.committed == [parse(page).value] + rest.committed;
      forall k | 0 <= k < |c.committed|
        ensures parse(page + k) == Success(c.committed[k])
      {
        if k > 0 {
          assert c.committed[k] == rest.committed[k - 1];
        }
      }
    }
  }

  /** When the pages from `page` up to `k` parse and page `k` raises, the
      loop commits exactly the pages before `k` and ends with that
      exception. */
  lemma {:induction false} CrawlFromStopsAt(parse: PageParse, page: nat, numPage: int, k: nat)
    requires page <= k < numPage
    requires forall j: nat :: page <= j < k ==> parse(j).Success?
    requires parse(k).Failure?
    ensures CrawlFrom(parse, page, numPage).failure == Some(parse(k).error)
    ensures page + |CrawlFrom(parse, page, numPage).committed| == k
    decreases k - page
  {
    if page < k {
      CrawlFromStopsAt(parse, page + 1, numPage, k);
    }
  }

  /** The loop from page 0 ends without an exception exactly when every
      page of `range(numPage)` parses. */
  lemma CrawlFromZero(parse: PageParse, numPage: int)
    ensures var c := CrawlFrom(parse, 0, numPage);
            && (forall k :: 0 <= k < |c.committed| ==> parse(k) == Success(c.committed[k]))
            && (c.failure.None? <==> forall k: nat :: k < numPage ==> parse(k).Success?)
            && (c.failure.Some? ==> parse(|c.committed|) == Failure(c.failure.value))
  {
    CrawlFromShape(parse, 0, numPage);
  }

  /** What `start_parsing(numPage)` commits: the parsed pages 0, 1, ... in
      increasing order. With no exception it commits exactly one batch per
      page of `range(numPage)`; otherwise the first page `k` that raises
      gives the exception and exactly pages `0 .. k - 1` are committed. */
  lemma CrawlCommitsPagesInOrder(web: Web, dates: DateParser, topic: string, numPage: int)
    ensures var c := Crawl(web, dates, topic, numPage);
            var parse := PageParser(web, dates, topic);
            && (forall k :: 0 <= k < |c.committed| ==> parse(k) == Success(c.committed[k]))
            && (c.failure.None? <==> forall k: nat :: k < numPage ==> parse(k).Success?)
            && (c.failure.None? ==> |c.committed| == if numPage < 0 then 0 else numPage)
            && (c.failure.Some? ==>
                  && |c.committed| < numPage
                  && parse(|c.committed|) == Failure(c.failure.value))
  {
    CrawlFromZero(PageParser(web, dates, topic), numPage);
  }

  /** A listing page that does not answer 200 aborts the run at that page:
      the run ends with the important-page exception and exactly the pages
      before it are committed. */
  lemma UnavailableListingAbortsRun(web: Web, dates: DateParser, topic: string, numPage: int, k: nat)
    requires k < numPage
    requires forall j: nat :: j < k ==> PageParser(web, dates, topic)(j).Success?
    requires web(PageUrl(topic, k)).status != 200
    ensures var c := Crawl(web, dates, topic, numPage);
            && c.failure == Some(ImportantPageUnavailable)
            && |c.committed| == k
  {
    CrawlFromStopsAt(PageParser(web, dates, topic), 0, numPage, k);
  }

  class IzParser {
    /** `desired_topic`: the tag whose feed is crawled. */
    const desiredTopic: string
    /** `date_parser`, the opaque `DateDataParser(languages=['ru'])`. */
    const dateParser: DateParser
    /** The connection given at construction (`__con`). */
    const con: Connection

    constructor (tag: string, dbConnection: Connection, dates: DateParser)
      ensures desiredTopic == tag && con == dbConnection && dateParser == dates
    {
      desiredTopic := tag;
      con := dbConnection;
      dateParser := dates;
    }

    /** `feed_url`: listing page `page` is this prefix followed by
        `str(page)`. */
    function FeedUrl(): (r: string)
      ensures forall page: nat :: PageUrl(desiredTopic, page) == r + Decimal(page)
    {
      FeedPrefix(desiredTopic)
    }

    /** `commit_to_db(data)`: one insert per article, in list order, inside
        one transaction that is committed at the end. */
    method CommitToDb(data: seq<Article>)
      requires con.Valid() && con.pending == []
      modifies con
      ensures con.Valid() && con.pending == []
      ensures con.rows == old(con.rows) + RowsOf(data)
      ensures con.transactions == old(con.transactions) + [RowsOf(data)]
    {
      for i := 0 to |data|
        invariant con.Valid()
        invariant con.pending == RowsOf(data[..i])
        invariant con.rows == old(con.rows) && con.transactions == old(con.transactions)
      {
        con.Execute(InsertRow(data[i]));
        assert RowsOf(data[..i + 1]) == RowsOf(data[..i]) + [InsertRow(data[i])];
      }
      assert data[..|data|] == data;
      con.Commit();
    }

    /** `parse_articles_feed(url)`: the listing page is fetched as
        important and its day blocks are turned into records one by one,
        stopping at the first block that raises. */
    method ParseArticlesFeed(web: Web, url: string) returns (r: Result<seq<Article>, Error>)
      ensures r == ParseFeed(web, dateParser, url)
    {
      var response := GetResponse(web, url, true);
      if response.Failure? {
        return Failure(response.error);
      }
      var blocks := response.value.dayBlocks;
      ghost var step := block => ParseBlock(web, dateParser, block);
      var articlesFeed: seq<Article> := [];
      for i := 0 to |blocks|
        invariant |articlesFeed| == i
        invariant forall j :: 0 <= j < i ==> step(blocks[j]) == Success(articlesFeed[j])
      {
        var article := ParseBlock(web, dateParser, blocks[i]);
        if article.Failure? {
          MapUntilErrorFirstFailure(step, blocks, i);
          return Failure(article.error);
        }
        articlesFeed := articlesFeed + [article.value];
      }
      MapUntilErrorAll(step, blocks, articlesFeed);
      return Success(articlesFeed);
    }

    /** `start_parsing(numPage)`: for each page of `range(numPage)`, parse
        the listing page and commit its records. The exception that stops
        the loop is returned as `failure`; the pages committed before it
        stay in the table. */
    method StartParsing(web: Web, numPage: int) returns (failure: Option<Error>)
      requires con.Valid() && con.pending == []
      modifies con
      ensures con.Valid() && con.pending == []
      ensures var c := Crawl(web, dateParser, desiredTopic, numPage);
              && failure == c.failure
              && con.transactions == old(con.transactions) + Batches(c.committed)
              && con.rows == old(con.rows) + Flatten(Batches(c.committed))
    {
      ghost var parse := PageParser(web, dateParser, desiredTopic);
      ghost var done: seq<seq<Article>> := [];
      var page: nat := 0;
      while page < numPage
        invariant con.Valid() && con.pending == []
        invariant CrawlFrom(parse, 0, numPage) == Resume(done, CrawlFrom(parse, page, numPage))
        invariant con.transactions == old(con.transactions) + Batches(done)
        decreases numPage - page
      {
        var feedData := ParseArticlesFeed(web, FeedUrl() + Decimal(page));
        assert parse(page) == feedData;
        CrawlFromStep(parse, page, numPage);
        if feedData.Failure? {
          ResumeEnded(done, Some(feedData.error));
          FlattenAppend(old(con.transactions), Batches(done));
          return Some(feedData.error);
        }
        CommitToDb(feedData.value);
        ResumeAfterPage(done, feedData.value, CrawlFrom(parse, page + 1, numPage));
        BatchesAppend(done, feedData.value);
        done := done + [feedData.value];
        page := page + 1;
      }
      ResumeEnded(done, None);
      FlattenAppend(old(con.transactions), Batches(done));
      return None;
    }
  }
}
