/** Text cleaning used for article titles and paragraphs:
    `s.replace('\n', '').strip()` and `''.join(...)` over paragraphs. */
module Text {
  import opened Seqs

  /** The characters Python's `str.isspace` accepts, which are the ones
      `str.strip()` removes when it is called without arguments. */
  const Whitespace: set<char> := {
    '\t', '\n', '\U{B}', '\U{C}', '\r', '\U{1C}', '\U{1D}', '\U{1E}', '\U{1F}', ' ',
    '\U{85}', '\U{A0}', '\U{1680}',
    '\U{2000}', '\U{2001}', '\U{2002}', '\U{2003}', '\U{2004}', '\U{2005}',
    '\U{2006}', '\U{2007}', '\U{2008}', '\U{2009}', '\U{200A}',
    '\U{2028}', '\U{2029}', '\U{202F}', '\U{205F}', '\U{3000}'
  }

  predicate IsSpace(c: char) {
    c in Whitespace
  }

  /** `s.replace('\n', '')`. */
  function RemoveNewlines(s: string): (r: string)
    ensures '\n' !in r
    ensures |r| <= |s|
  {
    if |s| == 0 then []
    else if s[0] == '\n' then RemoveNewlines(s[1..])
    else [s[0]] + RemoveNewlines(s[1..])
  }

  /** `s.lstrip()`. */
  function TrimStart(s: string): (r: string)
    ensures |r| <= |s|
    ensures r != [] ==> !IsSpace(r[0])
  {
    if |s| > 0 && IsSpace(s[0]) then TrimStart(s[1..]) else s
  }

  /** `s.rstrip()`. */
  function TrimEnd(s: string): (r: string)
    ensures |r| <= |s|
    ensures r != [] ==> !IsSpace(r[|r| - 1])
  {
    if |s| > 0 && IsSpace(s[|s| - 1]) then TrimEnd(s[..|s| - 1]) else s
  }

  /** `s.strip()`: the result neither starts nor ends with whitespace. */
  function Strip(s: string): (r: string)
    ensures |r| <= |s|
    ensures r != [] ==> !IsSpace(r[0]) && !IsSpace(r[|r| - 1])
  {
    var t := TrimStart(s);
    TrimEndKeepsPrefix(t);
    TrimEnd(t)
  }

  /** The cleaning applied to a title and to each paragraph: no newline is
      left and the result neither starts nor ends with whitespace. */
  function Normalize(s: string): (r: string)
    ensures '\n' !in r
    ensures r != [] ==> !IsSpace(r[0]) && !IsSpace(r[|r| - 1])
  {
    var t := RemoveNewlines(s);
    StripAddsNothing(t, '\n');
    Strip(t)
  }

  /** `''.join([p.replace('\n', '').strip() for p in paragraphs])`. */
  function JoinNormalized(paragraphs: seq<string>): (r: string)
    ensures '\n' !in r
  {
    if |paragraphs| == 0 then ""
    else Normalize(paragraphs[0]) + JoinNormalized(paragraphs[1..])
  }

  /** `replace` keeps every other character: a character other than a
      newline occurs in the result exactly when it occurs in `s`. */
  lemma {:induction false} RemoveNewlinesKeepsOthers(s: string)
    ensures forall c :: c != '\n' ==> (c in RemoveNewlines(s) <==> c in s)
  {
    if |s| > 0 {
      RemoveNewlinesKeepsOthers(s[1..]);
      assert s == [s[0]] + s[1..];
    }
  }

  /** `lstrip` drops exactly the longest all-whitespace prefix. */
  lemma {:induction false} TrimStartDropsSpacePrefix(s: string)
    ensures var r := TrimStart(s);
            && (forall k :: 0 <= k < |r| ==> r[k] == s[|s| - |r| + k])
            && (forall k :: 0 <= k < |s| - |r| ==> IsSpace(s[k]))
  {
    if |s| > 0 && IsSpace(s[0]) {
      var t := s[1..];
      TrimStartDropsSpacePrefix(t);
      assert TrimStart(s) == TrimStart(t);
      var r := TrimStart(t);
      assert forall k :: 0 <= k < |r| ==> r[k] == t[|t| - |r| + k];
      assert forall k :: 0 <= k < |t| ==> t[k] == s[k + 1];
    }
  }

  /** `rstrip` drops exactly the longest all-whitespace suffix. */
  lemma {:induction false} TrimEndKeepsPrefix(s: string)
    ensures var r := TrimEnd(s);
            && (forall k :: 0 <= k < |r| ==> r[k] == s[k])
            && (forall k :: |r| <= k < |s| ==> IsSpace(s[k]))
  {
    if |s| > 0 && IsSpace(s[|s| - 1]) {
      TrimEndKeepsPrefix(s[..|s| - 1]);
    }
  }

  /** `strip` returns the slice of `s` that is left once the whitespace at
      both ends is removed. */
  lemma StripIsSlice(s: string)
    ensures var i := |s| - |TrimStart(s)|;
            var r := Strip(s);
            && i + |r| <= |s|
            && (forall k :: 0 <= k < |r| ==> r[k] == s[i + k])
            && (forall k :: 0 <= k < i ==> IsSpace(s[k]))
            && (forall k :: i + |r| <= k < |s| ==> IsSpace(s[k]))
  {
    TrimStartDropsSpacePrefix(s);
    TrimEndKeepsPrefix(TrimStart(s));
  }

  /** `strip` introduces no character that was not already there. */
  lemma StripAddsNothing(s: string, c: char)
    requires c !in s
    ensures c !in Strip(s)
  {
    StripIsSlice(s);
    var r := Strip(s);
    var i := |s| - |TrimStart(s)|;
    forall k | 0 <= k < |r|
      ensures r[k] != c
    {
      assert r[k] == s[i + k];
    }
  }

  /** `replace` on one character: a newline disappears, anything else is
      kept as it is. */
  lemma RemoveNewlinesSingle(c: char)
    ensures RemoveNewlines([c]) == if c == '\n' then [] else [c]
  {
    assert [c][1..] == [];
  }

  /** `replace` works piecewise: the other characters keep their order and
      their count. With `RemoveNewlinesSingle` this determines the result
      on every input. */
  lemma {:induction false} RemoveNewlinesAppend(a: string, b: string)
    ensures RemoveNewlines(a + b) == RemoveNewlines(a) + RemoveNewlines(b)
  {
    if |a| == 0 {
      assert a + b == b;
    } else {
      assert (a + b)[0] == a[0];
      assert (a + b)[1..] == a[1..] + b;
      RemoveNewlinesAppend(a[1..], b);
      if a[0] != '\n' {
        AppendAssociative([a[0]], RemoveNewlines(a[1..]), RemoveNewlines(b));
      }
    }
  }

  lemma {:induction false} RemoveNewlinesIdentity(s: string)
    requires '\n' !in s
    ensures RemoveNewlines(s) == s
  {
    if |s| > 0 {
      RemoveNewlinesIdentity(s[1..]);
      assert s == [s[0]] + s[1..];
    }
  }

  /** A string that is already clean is its own normal form. */
  lemma NormalizeFixedPoint(s: string)
    requires '\n' !in s
    requires s != [] ==> !IsSpace(s[0]) && !IsSpace(s[|s| - 1])
    ensures Normalize(s) == s
  {
    RemoveNewlinesIdentity(s);
  }

  /** Cleaning a cleaned string changes nothing. */
  lemma NormalizeIdempotent(s: string)
    ensures Normalize(Normalize(s)) == Normalize(s)
  {
    NormalizeFixedPoint(Normalize(s));
  }

  /** Joining is order-preserving: the text of two runs of paragraphs is the
      text of the first followed by the text of the second, with nothing in
      between. */
  lemma {:induction false} JoinNormalizedAppend(a: seq<string>, b: seq<string>)
    ensures JoinNormalized(a + b) == JoinNormalized(a) + JoinNormalized(b)
  {
    if |a| == 0 {
      assert a + b == b;
    } else {
      assert (a + b)[1..] == a[1..] + b;
      JoinNormalizedAppend(a[1..], b);
      AppendAssociative(Normalize(a[0]), JoinNormalized(a[1..]), JoinNormalized(b));
    }
  }

  /** No paragraphs give the empty text. */
  lemma JoinNormalizedEmpty()
    ensures JoinNormalized([]) == ""
  {
  }

  /** One paragraph contributes exactly its cleaned text. */
  lemma JoinNormalizedSingle(p: string)
    ensures JoinNormalized([p]) == Normalize(p)
  {
    assert [p][1..] == [];
  }

  /** The cleaned paragraph `k` appears in the joined text right after the
      joined text of the paragraphs before it. */
  lemma JoinNormalizedAt(paragraphs: seq<string>, k: nat)
    requires k < |paragraphs|
    ensures var before := JoinNormalized(paragraphs[..k]);
            var p := Normalize(paragraphs[k]);
            var all := JoinNormalized(paragraphs);
            |before| + |p| <= |all|
            && all[..|before|] == before
            && all[|before|..|before| + |p|] == p
  {
    var before := paragraphs[..k];
    var rest := paragraphs[k + 1..];
    assert paragraphs == before + ([paragraphs[k]] + rest);
    JoinNormalizedAppend(before, [paragraphs[k]] + rest);
    JoinNormalizedAppend([paragraphs[k]], rest);
    JoinNormalizedSingle(paragraphs[k]);
  }
}
