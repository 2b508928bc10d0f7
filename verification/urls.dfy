/** The site origin and the listing-page URLs built from it
    (`IzParser.__base_url`, `IzParser.feed_url` and `feed_url + str(i)`). */
module Urls {

  /** The origin every listing and article URL is built on. */
  const BaseUrl: string := "https://iz.ru"

  predicate IsDigit(c: char) {
    '0' <= c && c <= '9'
  }

  function DigitChar(d: nat): (c: char)
    requires d < 10
    ensures IsDigit(c)
  {
    (('0' as int) + d) as char
  }

  function DigitValue(c: char): (d: nat)
    requires IsDigit(c)
    ensures d < 10 && DigitChar(d) == c
  {
    (c as int) - ('0' as int)
  }

  /** Python's `str(n)` for a non-negative `n`: decimal digits, with a
      leading zero only for zero itself. */
  function Decimal(n: nat): (s: string)
    ensures |s| >= 1
    ensures forall k :: 0 <= k < |s| ==> IsDigit(s[k])
    ensures s[0] == '0' ==> n == 0 && s == "0"
  {
    if n < 10 then [DigitChar(n)] else Decimal(n / 10) + [DigitChar(n % 10)]
  }

  /** Reads a string of decimal digits back as a number. */
  function ParseDecimal(s: string): (n: nat)
    requires forall k :: 0 <= k < |s| ==> IsDigit(s[k])
  {
    if |s| == 0 then 0
    else 10 * ParseDecimal(s[..|s| - 1]) + DigitValue(s[|s| - 1])
  }

  /** `feed_url`: the part of a listing URL that comes before the page
      number; it depends only on the topic tag. */
  function FeedPrefix(topic: string): (r: string)
    ensures r == "https://iz.ru/tag/" + topic + "?page="
  {
    BaseUrl + "/tag/" + topic + "?page="
  }

  /** `feed_url + str(i)`: the URL of listing page `page`. */
  function PageUrl(topic: string, page: nat): (r: string)
    ensures var n := |FeedPrefix(topic)|;
            n < |r|
            && r[..n] == "https://iz.ru/tag/" + topic + "?page="
            && (forall k :: n <= k < |r| ==> IsDigit(r[k]))
  {
    FeedPrefix(topic) + Decimal(page)
  }

  /** `str` can be read back: the decimal text of `n` denotes `n`. */
  lemma {:induction false} DecimalRoundTrip(n: nat)
    ensures ParseDecimal(Decimal(n)) == n
  {
    var s := Decimal(n);
    if n >= 10 {
      DecimalRoundTrip(n / 10);
      assert s[..|s| - 1] == Decimal(n / 10);
      assert s[|s| - 1] == DigitChar(n % 10);
    }
  }

  /** Different numbers have different decimal texts. */
  lemma DecimalInjective(m: nat, n: nat)
    requires Decimal(m) == Decimal(n)
    ensures m == n
  {
    DecimalRoundTrip(m);
    DecimalRoundTrip(n);
  }

  /** Every listing URL is the topic's prefix followed by nothing but the
      decimal digits of its page number, which read back as that number. */
  lemma PageUrlParts(topic: string, page: nat)
    ensures var url := PageUrl(topic, page);
            var n := |FeedPrefix(topic)|;
            n < |url|
            && url[..n] == "https://iz.ru/tag/" + topic + "?page="
            && (forall k :: n <= k < |url| ==> IsDigit(url[k]))
            && ParseDecimal(url[n..]) == page
  {
    var url := PageUrl(topic, page);
    var n := |FeedPrefix(topic)|;
    assert url[n..] == Decimal(page);
    DecimalRoundTrip(page);
  }

  /** Two pages of one topic never share a URL. */
  lemma PageUrlInjective(topic: string, i: nat, j: nat)
    requires PageUrl(topic, i) == PageUrl(topic, j)
    ensures i == j
  {
    PageUrlParts(topic, i);
    PageUrlParts(topic, j);
  }
}
