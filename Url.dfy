/** A reader for the URL strings the fetcher builds: what a server takes from
    them (the path, the last path segment, the query parameters). It is the
    reference the URL builders are checked against; it is not a full URL
    parser (no percent-decoding, no user-info, no port handling). */
module Url {
  import opened Wrappers

  /** A currency code that needs no escaping anywhere in a URL: ASCII letters
      and digits only. */
  predicate IsCodeChar(c: char)
  {
    ('A' <= c <= 'Z') || ('a' <= c <= 'z') || ('0' <= c <= '9')
  }

  predicate UrlSafe(s: string)
  {
    forall c | c in s :: IsCodeChar(c)
  }

  /** The characters that delimit the parts of a URL. */
  predicate IsDelimiter(c: char)
  {
    c == '?' || c == '#' || c == '&' || c == '=' || c == '/'
  }

  predicate NoDelimiter(s: string)
  {
    forall c | c in s :: !IsDelimiter(c)
  }

  /** The text after the first `c`, or `None` when `s` has no `c`. */
  function After(s: string, c: char): (r: Option<string>)
    ensures r.Some? <==> c in s
    ensures r.Some? ==> |r.value| < |s| && r.value == s[|s| - |r.value|..] && s[|s| - |r.value| - 1] == c
  {
    if s == [] then None
    else if s[0] == c then Some(s[1..])
    else
      assert s == [s[0]] + s[1..];
      After(s[1..], c)
  }

  /** The text before the first `c`, or all of `s` when it has no `c`. */
  function Before(s: string, c: char): (r: string)
    ensures r <= s && c !in r
    ensures c !in s ==> r == s
    ensures c in s ==> |r| < |s| && s[|r|] == c
  {
    if s == [] then []
    else if s[0] == c then []
    else [s[0]] + Before(s[1..], c)
  }

  /** The fields of `s` between the separators `sep`; never empty. */
  function Split(s: string, sep: char): (r: seq<string>)
    ensures |r| >= 1
    decreases |s|
  {
    if s == [] then [[]]
    else
      var rest := Split(s[1..], sep);
      if s[0] == sep then [[]] + rest
      else [[s[0]] + rest[0]] + rest[1..]
  }

  /** The value of the first field of the form `key=value`. */
  function Lookup(fields: seq<string>, key: string): (r: Option<string>)
    ensures r.Some? ==> exists i :: 0 <= i < |fields| && fields[i] == key + "=" + r.value
  {
    if fields == [] then None
    else
      var k := key + "=";
      var f := fields[0];
      if |k| <= |f| && f[..|k|] == k then
        assert f == k + f[|k|..];
        Some(f[|k|..])
      else
        var r := Lookup(fields[1..], key);
        assert r.Some? ==> exists i :: 0 <= i < |fields[1..]| && fields[1..][i] == k + r.value;
        assert r.Some? ==> exists i :: 1 <= i < |fields| && fields[i] == k + r.value;
        r
  }

  /** The part of the URL before its query and fragment. */
  function Path(url: string): (r: string)
    ensures r <= url && '?' !in r && '#' !in r
  {
    Before(Before(url, '?'), '#')
  }

  /** The last `/`-separated segment of the path. */
  function LastSegment(url: string): (r: string)
    ensures '/' !in r
  {
    var segments := Split(Path(url), '/');
    var last := segments[|segments| - 1];
    SplitFieldsAvoidSeparator(Path(url), '/');
    last
  }

  /** The query: the text after the first `?`, up to a fragment. */
  function Query(url: string): (r: Option<string>)
    ensures r.Some? <==> '?' in url
    ensures r.Some? ==> '#' !in r.value
  {
    match After(url, '?')
    case None => None
    case Some(rest) => Some(Before(rest, '#'))
  }

  /** The value the URL gives to query parameter `key`, if any. */
  function QueryParam(url: string, key: string): (r: Option<string>)
    ensures '?' !in url ==> r == None
  {
    match Query(url)
    case None => None
    case Some(q) => Lookup(Split(q, '&'), key)
  }

  // ---------------------------------------------------------------------------
  // Lemmas about the reader

  /** No field produced by `Split` contains the separator. */
  lemma {:induction false} SplitFieldsAvoidSeparator(s: string, sep: char)
    ensures forall i :: 0 <= i < |Split(s, sep)| ==> sep !in Split(s, sep)[i]
  {
    if s != [] {
      SplitFieldsAvoidSeparator(s[1..], sep);
    }
  }

  /** Text without the separator is one field. */
  lemma {:induction false} SplitWithoutSeparator(s: string, sep: char)
    requires sep !in s
    ensures Split(s, sep) == [s]
  {
    if s != [] {
      SplitWithoutSeparator(s[1..], sep);
      assert s == [s[0]] + s[1..];
    }
  }

  /** Splitting at a separator splits each side on its own. */
  lemma {:induction false} SplitAt(a: string, sep: char, b: string)
    ensures Split(a + [sep] + b, sep) == Split(a, sep) + Split(b, sep)
  {
    if a == [] {
      assert a + [sep] + b == [sep] + b;
      assert ([sep] + b)[1..] == b;
    } else {
      assert (a + [sep] + b)[1..] == a[1..] + [sep] + b;
      SplitAt(a[1..], sep, b);
    }
  }

  /** `After` skips exactly through the first occurrence. */
  lemma {:induction false} AfterFirst(a: string, c: char, b: string)
    requires c !in a
    ensures After(a + [c] + b, c) == Some(b)
  {
    if a == [] {
      assert a + [c] + b == [c] + b;
    } else {
      assert (a + [c] + b)[1..] == a[1..] + [c] + b;
      AfterFirst(a[1..], c, b);
    }
  }

  /** A URL of the form `path?k1=v1&k2=v2` gives back its path and both
      values, when no part contains a delimiter and the names differ. */
  lemma TwoParameterUrl(url: string, path: string, k1: string, v1: string, k2: string, v2: string)
    requires url == path + "?" + k1 + "=" + v1 + "&" + k2 + "=" + v2
    requires '?' !in path && '#' !in path
    requires NoDelimiter(k1) && NoDelimiter(v1) && NoDelimiter(k2) && NoDelimiter(v2)
    requires k1 != k2
    ensures Path(url) == path
    ensures QueryParam(url, k1) == Some(v1)
    ensures QueryParam(url, k2) == Some(v2)
  {
    var query := k1 + "=" + v1 + "&" + k2 + "=" + v2;
    assert url == path + "?" + query;
    assert '#' !in k1 && '#' !in v1 && '#' !in k2 && '#' !in v2;
    UrlWithQuery(url, path, query);
    TwoFields(k1, v1, k2, v2);
  }

  /** `path?query` has path `path` and query `query`. */
  lemma UrlWithQuery(url: string, path: string, query: string)
    requires url == path + "?" + query
    requires '?' !in path && '#' !in path && '#' !in query
    ensures Path(url) == path
    ensures Query(url) == Some(query)
  {
    assert url == path + ['?'] + query;
    BeforeFirst(path, '?', query);
    AfterFirst(path, '?', query);
  }

  /** The query `k1=v1&k2=v2` gives each name its own value. */
  lemma TwoFields(k1: string, v1: string, k2: string, v2: string)
    requires NoDelimiter(k1) && NoDelimiter(v1) && NoDelimiter(k2) && NoDelimiter(v2)
    requires k1 != k2
    ensures Lookup(Split(k1 + "=" + v1 + "&" + k2 + "=" + v2, '&'), k1) == Some(v1)
    ensures Lookup(Split(k1 + "=" + v1 + "&" + k2 + "=" + v2, '&'), k2) == Some(v2)
  {
    var f1 := k1 + "=" + v1;
    var f2 := k2 + "=" + v2;
    assert k1 + "=" + v1 + "&" + k2 + "=" + v2 == f1 + ['&'] + f2;
    assert '&' !in f1 && '&' !in f2;
    SplitAt(f1, '&', f2);
    SplitWithoutSeparator(f1, '&');
    SplitWithoutSeparator(f2, '&');
    var fields := Split(f1 + ['&'] + f2, '&');
    assert fields == [f1, f2];
    assert f1[..|k1 + "="|] == k1 + "=" && f1[|k1 + "="|..] == v1;
    assert f2[..|k2 + "="|] == k2 + "=" && f2[|k2 + "="|..] == v2;
    NamesDoNotOverlap(k1, v1, k2);
    assert fields[1..] == [f2];
  }

  /** A field `k1=v1` does not answer to another name `k2`. */
  lemma NamesDoNotOverlap(k1: string, v1: string, k2: string)
    requires NoDelimiter(k1) && NoDelimiter(k2) && k1 != k2
    ensures !(|k2 + "="| <= |k1 + "=" + v1| && (k1 + "=" + v1)[..|k2 + "="|] == k2 + "=")
  {
    var f := k1 + "=" + v1;
    var k := k2 + "=";
    var n := |k2|;
    if |k| <= |f| {
      if n < |k1| {
        assert k1[n] in k1;
        assert f[n] == k1[n] != '=';
        assert k[n] == '=';
        assert f[..|k|][n] != k[n];
      } else if n > |k1| {
        assert f[|k1|] == '=';
        assert k2[|k1|] in k2;
        assert k[|k1|] == k2[|k1|] != '=';
        assert f[..|k|][|k1|] != k[|k1|];
      } else {
        assert f[..n] == k1 && k[..n] == k2;
        assert f[..|k|][..n] != k[..n];
      }
    }
  }

  /** A URL of the form `prefix/segment` has `segment` as its last path
      segment and no query. */
  lemma SegmentUrl(url: string, prefix: string, segment: string)
    requires url == prefix + "/" + segment
    requires '?' !in prefix && '#' !in prefix
    requires NoDelimiter(segment)
    ensures Path(url) == url
    ensures LastSegment(url) == segment
    ensures Query(url) == None
  {
    assert url == prefix + ['/'] + segment;
    assert '?' !in url && '#' !in url;
    assert Path(url) == url;
    SplitAt(prefix, '/', segment);
    SplitWithoutSeparator(segment, '/');
  }

  /** `Before` stops exactly at the first occurrence. */
  lemma {:induction false} BeforeFirst(a: string, c: char, b: string)
    requires c !in a
    ensures Before(a + [c] + b, c) == a
  {
    if a == [] {
      assert a + [c] + b == [c] + b;
    } else {
      assert (a + [c] + b)[1..] == a[1..] + [c] + b;
      BeforeFirst(a[1..], c, b);
      assert a == [a[0]] + a[1..];
    }
  }
}
