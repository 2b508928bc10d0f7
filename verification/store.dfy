/** The `News` table and the connection `commit_to_db` writes through.

    The table is append-only: rows are never updated or deleted, so a row's
    `id` (an `integer primary key`) is its 1-based position in `rows` and is
    not stored separately. */
module Store {
  import opened Seqs
  import opened Feed

  /** One row of `News (id integer primary key, date text, title text,
      url text, content text)`, without its implicit `id`. */
  datatype Row = Row(date: string, title: string, url: string, content: string)

  /** The row that `insert into News (date, title, url, content)
      values(:title, :date, :url, :text)` adds for one article: the
      statement binds the article's title to the `date` column and its date
      to the `title` column. */
  function InsertRow(article: Article): (r: Row)
    ensures r.date == article.title && r.title == article.date
    ensures r.url == article.url && r.content == article.text
  {
    Row(date := article.title, title := article.date, url := article.url, content := article.text)
  }

  /** The rows one call of `commit_to_db(data)` inserts: one per article, in
      list order, with the two columns swapped as the statement binds them. */
  function RowsOf(data: seq<Article>): (rows: seq<Row>)
    ensures |rows| == |data|
    ensures forall k :: 0 <= k < |data| ==>
              && rows[k].date == data[k].title
              && rows[k].title == data[k].date
              && rows[k].url == data[k].url
              && rows[k].content == data[k].text
  {
    seq(|data|, k requires 0 <= k < |data| => InsertRow(data[k]))
  }

  /** The rows of a series of transactions, oldest first. */
  function Flatten(transactions: seq<seq<Row>>): seq<Row>
  {
    if |transactions| == 0 then []
    else Flatten(transactions[..|transactions| - 1]) + transactions[|transactions| - 1]
  }

  lemma {:induction false} FlattenAppend(a: seq<seq<Row>>, b: seq<seq<Row>>)
    ensures Flatten(a + b) == Flatten(a) + Flatten(b)
  {
    if |b| == 0 {
      assert a + b == a;
    } else {
      var init := b[..|b| - 1];
      assert (a + b)[..|a + b| - 1] == a + init;
      assert (a + b)[|a + b| - 1] == b[|b| - 1];
      FlattenAppend(a, init);
      AppendAssociative(Flatten(a), Flatten(init), b[|b| - 1]);
    }
  }

  /** A connection to the database: the committed rows of the table, the
      rows inserted by the transaction still open, and (for specification
      only) the history of committed transactions. */
  class Connection {
    var rows: seq<Row>
    var pending: seq<Row>
    ghost var transactions: seq<seq<Row>>

    /** The table holds exactly what the committed transactions inserted. */
    ghost predicate Valid()
      reads this
    {
      rows == Flatten(transactions)
    }

    /** A connection to a fresh, empty table. */
    constructor ()
      ensures Valid()
      ensures rows == [] && pending == [] && transactions == []
    {
      rows, pending := [], [];
      transactions := [];
    }

    /** `execute` of an insert: the row joins the open transaction and is
        not yet visible in the committed table. */
    method Execute(row: Row)
      requires Valid()
      modifies this
      ensures Valid()
      ensures pending == old(pending) + [row]
      ensures rows == old(rows) && transactions == old(transactions)
    {
      pending := pending + [row];
    }

    /** Leaving `with connection:` without an exception: the open
        transaction's rows are appended to the table as one transaction. */
    method Commit()
      requires Valid()
      modifies this
      ensures Valid()
      ensures pending == []
      ensures rows == old(rows) + old(pending)
      ensures transactions == old(transactions) + [old(pending)]
    {
      rows := rows + pending;
      transactions := transactions + [pending];
      pending := [];
    }
  }
}
