# iz-parser, modelled in Dafny

`IzParser` crawls the article feed of one tag on the Izvestia news site
(`https://iz.ru/tag/<tag>?page=<i>`). For each listing page it reads every
`lenta_news__day` block. From each block it takes the date heading, the
first link and the title. It fetches the linked article and joins the
cleaned paragraph texts of its body. Each listing page's records are then
inserted into the `News` table of an SQLite database, one transaction per
page, before the next page is fetched.

This project models that class. The HTTP client, the HTML parser, the
date parser and the database are treated as inputs:

- `Html.Web` (`string -> Response`) stands for `requests.get`.
- `Html.Document` holds the answers to the fixed `find`/`find_all` queries
  the parser makes. Each `find` is an `Option`, and each `find_all('p')` is
  a sequence of paragraph texts.
- `Feed.DateParser` (`string -> string`) stands for
  `str(date_parser.get_date_data(text).date_obj)`.
- `Store.Connection` is a class holding the committed rows, the rows of
  the open transaction and a ghost history of committed transactions.

Python exceptions are modelled as values: `Html.Error` records what was
raised, and `Result`/`Option` carry it. `IzParser.StartParsing` returns the
exception that ended the loop instead of raising it.

Modules:

- `Seqs`: one shared sequence fact.
- `Wrappers`: `Option` and `Result`.
- `Text`: `replace('\n', '')`, `strip()` and the paragraph join.
- `Urls`: the origin, `feed_url` and `str(i)`.
- `Html`: the document model, `get_response` and the body-container
  fallback.
- `Feed`: one record per day block and `parse_articles_feed` as a
  function.
- `Store`: rows, the column binding of the insert, and the connection.
- `Parser`: the `IzParser` class, with `commit_to_db`,
  `parse_articles_feed` and `start_parsing` as methods with loops. Each
  method is proved against the function that specifies it.

Behaviour of the code that the model keeps as written:

- A day block yields ONE record. Only the first title div and the first
  link of the block are used, however many articles the day lists.
- When an article page does not answer 200, `get_response` returns an
  empty document. `parse_article_text` then calls `find_all` on `None` and
  raises. So a missing article aborts the whole run, as does a page with
  neither body container. The model follows the code here, not a reading
  in which article failures degrade to empty text
  (`Feed.UnavailableArticleFailsFeed`).
- The insert binds `:title` to the `date` column and `:date` to the
  `title` column (`Store.RowsOf`).

## Model

| member | source | states |
|---|---|---|
| Text.RemoveNewlines | src/iz_parser.py:85 | `replace('\n', '')` leaves no newline and never lengthens the text |
| Text.RemoveNewlinesKeepsOthers | src/iz_parser.py:85 | every character other than a newline is in the result exactly when it is in the input |
| Text.RemoveNewlinesSingle | src/iz_parser.py:85 | on one character, `replace('\n', '')` drops a newline and keeps anything else |
| Text.RemoveNewlinesAppend | src/iz_parser.py:85 | `replace` works piecewise, so the kept characters keep their order and count; with the one-character case this fixes the result on every input |
| Text.TrimStart | src/iz_parser.py:85 | the left-stripped text does not start with whitespace |
| Text.TrimEnd | src/iz_parser.py:85 | the right-stripped text does not end with whitespace |
| Text.TrimStartDropsSpacePrefix | src/iz_parser.py:85 | left stripping keeps a suffix of the input and everything it drops is whitespace |
| Text.TrimEndKeepsPrefix | src/iz_parser.py:85 | right stripping keeps a prefix of the input and everything it drops is whitespace |
| Text.Strip | src/iz_parser.py:85 | `strip()` neither starts nor ends with whitespace |
| Text.StripIsSlice | src/iz_parser.py:85 | `strip()` returns the slice between a whitespace-only prefix and a whitespace-only suffix |
| Text.StripAddsNothing | src/iz_parser.py:85 | `strip()` introduces no character absent from its input |
| Text.Normalize | src/iz_parser.py:83-85 | a cleaned title has no newline and no leading or trailing whitespace |
| Text.NormalizeFixedPoint | src/iz_parser.py:85 | a text with no newline and no surrounding whitespace is left unchanged by cleaning |
| Text.NormalizeIdempotent | src/iz_parser.py:85 | cleaning twice equals cleaning once |
| Text.JoinNormalized | src/iz_parser.py:109-110 | the joined article text contains no newline |
| Text.JoinNormalizedAppend | src/iz_parser.py:109-110 | joining is in order with no separator: the text of `a + b` is the text of `a` followed by that of `b` |
| Text.JoinNormalizedEmpty | src/iz_parser.py:109-110 | an article container with no paragraphs gives the empty text |
| Text.JoinNormalizedSingle | src/iz_parser.py:109-110 | one paragraph contributes exactly its cleaned text |
| Text.JoinNormalizedAt | src/iz_parser.py:109-110 | cleaned paragraph `k` sits in the joined text right after the text of paragraphs `0..k-1` |
| Urls.DigitValue | src/iz_parser.py:60 | reading a digit character inverts writing it |
| Urls.Decimal | src/iz_parser.py:60 | `str(i)` is a non-empty run of decimal digits; it starts with `0` only when it is exactly `"0"`, for 0 |
| Urls.DecimalRoundTrip | src/iz_parser.py:60 | the decimal text of `i` reads back as `i` |
| Urls.DecimalInjective | src/iz_parser.py:60 | distinct page numbers have distinct decimal texts |
| Urls.FeedPrefix | src/iz_parser.py:36-37 | `feed_url` is `https://iz.ru/tag/` + tag + `?page=` |
| Urls.PageUrl | src/iz_parser.py:60 | listing URL `i` is `https://iz.ru/tag/` + tag + `?page=` followed only by decimal digits |
| Urls.PageUrlParts | src/iz_parser.py:30-37 | listing URL `i` is the topic's fixed prefix followed only by digits that read back as `i` |
| Urls.PageUrlInjective | src/iz_parser.py:59-60 | two pages of one run never share a listing URL |
| Html.GetResponse | src/iz_parser.py:127-136 | a document is returned iff status is 200 or the page is not important; important non-200 raises; other non-200 gives the empty document |
| Html.BodyContainer | src/iz_parser.py:103-107 | the `articleBody` div when present, otherwise the `text-article__inside` div; no container exactly when both are missing |
| Html.ExtractText | src/iz_parser.py:103-110 | the `articleBody` div's paragraphs are used when it exists, `text-article__inside` only when it does not; with neither, `find_all` on `None` raises |
| Html.ParseArticleText | src/iz_parser.py:102-111 | an article answering 200 gives its extracted text; any other status raises on the empty document instead of giving text |
| Html.PrimaryContainerWins | src/iz_parser.py:103-107 | when `articleBody` exists, the secondary container does not affect the text |
| Feed.ParseBlock | src/iz_parser.py:80-88 | a block gives a record iff heading, link, href, title and article text are all present; the record's url is origin + href, its title is the cleaned title, its date is the parsed heading |
| Feed.MapUntilError | src/iz_parser.py:79-88 | a successful block loop gives one record per block |
| Feed.MapUntilErrorSucceeds | src/iz_parser.py:79-88 | the block loop succeeds iff every block does, and record `k` is block `k`'s record |
| Feed.MapUntilErrorFirstFailure | src/iz_parser.py:79-88 | the first block that raises decides the exception of the whole loop |
| Feed.MapUntilErrorAll | src/iz_parser.py:79-88 | when every block gives a record, the loop returns exactly those records in block order |
| Feed.ParseBlocks | src/iz_parser.py:79-88 | the loop over day blocks succeeds iff every block gives a record, and then record `k` is block `k`'s record, one per block |
| Feed.ParseFeed | src/iz_parser.py:75-91 | a listing page that does not answer 200 raises; one that does is parsed block by block |
| Feed.FeedRecordPerBlock | src/iz_parser.py:76-88 | a parsed listing has exactly one record per day block, in block order, with url = origin + the block's first href and a newline-free title |
| Feed.UnavailableArticleFailsFeed | src/iz_parser.py:86-88 | an article page that does not answer 200 makes its whole listing page raise |
| Store.InsertRow | src/iz_parser.py:47-51 | the insert puts the article's title in the `date` column, its date in the `title` column, its url in `url` and its text in `content` |
| Store.RowsOf | src/iz_parser.py:45-51 | one row per article, in list order; the `date` column holds the title, the `title` column holds the date, `url` the url, `content` the text |
| Store.Connection.Execute | src/iz_parser.py:47-51 | an insert joins the open transaction and leaves the committed table unchanged |
| Store.Connection.Commit | src/iz_parser.py:45 | leaving the `with` block appends the open transaction's rows as one transaction |
| Parser.CrawlFrom | src/iz_parser.py:59-64 | the page loop from a given page commits every remaining page when nothing raises; an exception comes from a page below `num_page`, after fewer commits |
| Parser.Crawl | src/iz_parser.py:59-64 | `start_parsing(num_page)` commits `num_page` pages (0 for negative) when nothing raises, fewer otherwise |
| Parser.CrawlFromShape | src/iz_parser.py:59-64 | the page loop commits consecutive pages with what they parsed to; it reaches `num_page` unless a page raises, and then that page is the first one after the committed ones |
| Parser.CrawlFromStopsAt | src/iz_parser.py:59-64 | if pages before `k` parse and page `k` raises, exactly the pages before `k` are committed and the run ends with page `k`'s exception |
| Parser.CrawlFromZero | src/iz_parser.py:59-64 | for any page parser, the loop from page 0 ends without an exception iff every page of `range(num_page)` parses, and an exception is the first unparsed page's |
| Parser.CrawlCommitsPagesInOrder | src/iz_parser.py:59-64 | pages are committed in increasing order; there is no exception iff every page of `range(num_page)` parses, and then exactly `num_page` commits (0 for negative); otherwise the first failing page ends the run and earlier commits remain |
| Parser.UnavailableListingAbortsRun | src/iz_parser.py:59-62 | a listing page answering non-200 ends the run with the important-page exception after exactly the pages before it |
| Parser.IzParser.constructor | src/iz_parser.py:23-33 | the parser keeps its tag, connection and date parser |
| Parser.IzParser.FeedUrl | src/iz_parser.py:35-37 | listing page `i` is `feed_url` followed by `str(i)` |
| Parser.IzParser.CommitToDb | src/iz_parser.py:39-51 | the table grows by exactly the rows of `data`, in order, as one new transaction |
| Parser.IzParser.ParseArticlesFeed | src/iz_parser.py:66-91 | the block loop returns what `ParseFeed` specifies: every record in block order, or the first exception |
| Parser.IzParser.StartParsing | src/iz_parser.py:53-64 | the run's exception and the transactions it adds (one per committed page, in page order) are those of `Crawl`; earlier rows are kept |

## Left out

- HTTP transport (`requests.get`, src/iz_parser.py:127) is the `Web` parameter. Transport exceptions such as a refused connection or a timeout are not modelled.
- The site is a snapshot: `Web` is a function, so a URL fetched twice in one run (an article linked from two blocks, say) gets the same answer both times.
- The order of fetches is not observable: the contracts fix what is committed and which exception ends the run, not that page `i + 1` is fetched only after page `i` is committed.
- The `assert` in `get_response` (src/iz_parser.py:129) is modelled as always checked; under `python -O` it is removed.
- HTML parsing by BeautifulSoup is not modelled. A document is the answers to the parser's fixed queries, and `.text` of an element is taken as given.
- `dateparser` natural-language resolution is the opaque `DateParser` parameter. That includes `str(None)` when no date is found.
- SQLite mechanics are not modelled: the rollback of the `with` block on an exception, disk errors and autoincrement. The inserts cannot fail in the model, and a row's `id` is its 1-based position in the append-only `rows`.
- Logging (src/iz_parser.py:10-17, 63, 90, 132-134) has no behaviour to verify.
- `sleep(2)` after every page (src/iz_parser.py:64) is a timing side effect only, including after the last page.
- main.py is not part of this model. It only creates the `News` table if absent and calls `start_parsing(17)` with tag `'infliatciia'`.
- Parser.IzParser.StartParsing: returns the exception that ends the loop instead of propagating it as a Python exception.
