/** The string rules the translator applies to URLs: the channel id of the
    self link, the guid of an item and the video id of an item. Each is a
    composition of `split(c).last()` and `split(c).next()` on a string. */
module TextRules {

  /** `s.split(c).last()`: the text after the last `c` in `s`, or all of `s`
      when `c` does not occur (a split always yields at least one piece). */
  function AfterLast(s: string, c: char): (r: string)
    ensures c !in r
    ensures c !in s ==> r == s
    decreases |s|
  {
    if |s| == 0 then s
    else if s[|s| - 1] == c then []
    else
      assert c !in s ==> c !in s[..|s| - 1] by {
        if c in s[..|s| - 1] {
          var i :| 0 <= i < |s| - 1 && s[..|s| - 1][i] == c;
          assert s[i] == c;
        }
      }
      AfterLast(s[..|s| - 1], c) + [s[|s| - 1]]
  }

  /** The last piece is a suffix of `s`, preceded by `c` when `c` occurs. */
  lemma {:induction false} AfterLastIsSuffix(s: string, c: char)
    ensures var r := AfterLast(s, c);
      && |r| <= |s| && r == s[|s| - |r|..]
      && (c in s ==> |r| < |s| && s[|s| - |r| - 1] == c)
  {
    AfterLastSuffix(s, c);
    AfterLastFollowsC(s, c);
  }

  /** The last piece is a suffix of `s`. */
  lemma {:induction false} AfterLastSuffix(s: string, c: char)
    ensures |AfterLast(s, c)| <= |s| && AfterLast(s, c) == s[|s| - |AfterLast(s, c)|..]
    decreases |s|
  {
    if |s| > 0 && s[|s| - 1] != c {
      var front := s[..|s| - 1];
      AfterLastSuffix(front, c);
      var r := AfterLast(front, c);
      assert AfterLast(s, c) == r + [s[|s| - 1]];
      SnocTail(s, |front| - |r|);
    }
  }

  /** When `c` occurs, the last piece starts right after a `c`. */
  lemma {:induction false} AfterLastFollowsC(s: string, c: char)
    ensures c in s ==> |AfterLast(s, c)| < |s| && s[|s| - |AfterLast(s, c)| - 1] == c
    decreases |s|
  {
    if |s| > 0 && s[|s| - 1] != c && c in s {
      var front := s[..|s| - 1];
      LastOutOfFront(s, c);
      AfterLastFollowsC(front, c);
      var r := AfterLast(front, c);
      assert AfterLast(s, c) == r + [s[|s| - 1]];
      assert s[|front| - |r| - 1] == front[|front| - |r| - 1];
    }
  }

  /** Dropping the first `k` characters and the last one commute. */
  lemma SnocTail(s: string, k: nat)
    requires k < |s|
    ensures s[k..] == s[..|s| - 1][k..] + [s[|s| - 1]]
  {
  }

  /** A character of `s` other than its last one occurs before the end. */
  lemma LastOutOfFront(s: string, c: char)
    requires |s| > 0 && s[|s| - 1] != c && c in s
    ensures c in s[..|s| - 1]
  {
    var i :| 0 <= i < |s| && s[i] == c;
    assert s[..|s| - 1][i] == c;
  }

  /** `s.split(c).next()`: the text before the first `c` in `s`, or all of `s`
      when `c` does not occur. */
  function BeforeFirst(s: string, c: char): (r: string)
    ensures c !in r
    ensures c !in s ==> r == s
    decreases |s|
  {
    if |s| == 0 then s
    else if s[0] == c then []
    else
      assert c !in s ==> c !in s[1..] by {
        if c in s[1..] {
          var i :| 0 <= i < |s| - 1 && s[1..][i] == c;
          assert s[i + 1] == c;
        }
      }
      [s[0]] + BeforeFirst(s[1..], c)
  }

  /** The first piece is a prefix of `s`, followed by `c` when `c` occurs. */
  lemma {:induction false} BeforeFirstIsPrefix(s: string, c: char)
    ensures var r := BeforeFirst(s, c);
      && |r| <= |s| && r == s[..|r|]
      && (c in s ==> |r| < |s| && s[|r|] == c)
    decreases |s|
  {
    if |s| > 0 && s[0] != c {
      var rest := s[1..];
      BeforeFirstIsPrefix(rest, c);
      var r := BeforeFirst(rest, c);
      assert s[..|r| + 1] == [s[0]] + rest[..|r|];
      if c in s {
        var i :| 0 <= i < |s| && s[i] == c;
        assert rest[i - 1] == c;
      }
    }
  }

  /** The channel id taken from the feed's self link: the text after its last `=`. */
  function ChannelId(href: string): (id: string)
    ensures '=' !in id
    ensures '=' !in href ==> id == href
  {
    AfterLast(href, '=')
  }

  /** The channel id is the end of the self link, right after an `=` when it has one. */
  lemma ChannelIdIsTail(href: string)
    ensures var id := ChannelId(href);
      && |id| <= |href| && id == href[|href| - |id|..]
      && ('=' in href ==> |id| < |href| && href[|href| - |id| - 1] == '=')
  {
    AfterLastIsSuffix(href, '=');
  }

  /** The guid of an item: its video URL without the query, i.e. up to the first `?`. */
  function Guid(url: string): (g: string)
    ensures '?' !in g
    ensures '?' !in url ==> g == url
  {
    BeforeFirst(url, '?')
  }

  /** The guid is the start of the URL, right before a `?` when it has one. */
  lemma GuidIsPrefix(url: string)
    ensures var g := Guid(url);
      && |g| <= |url| && g == url[..|g|]
      && ('?' in url ==> |g| < |url| && url[|g|] == '?')
  {
    BeforeFirstIsPrefix(url, '?');
  }

  /** The video id of an item: the last `/`-separated segment of its URL, cut at
      the first `?`. */
  function VideoId(url: string): (id: string)
    ensures '/' !in id && '?' !in id
  {
    var segment := AfterLast(url, '/');
    BeforeFirstKeepsOut(segment, '?', '/');
    BeforeFirst(segment, '?')
  }

  /** The last piece of a text without `c2` has no `c2` either. */
  lemma AfterLastKeepsOut(s: string, c: char, c2: char)
    requires c2 !in s
    ensures c2 !in AfterLast(s, c)
  {
    var r := AfterLast(s, c);
    AfterLastIsSuffix(s, c);
    forall i | 0 <= i < |r| ensures r[i] != c2 {
      assert r[i] == s[|s| - |r| + i];
    }
  }

  /** The first piece of a text without `c2` has no `c2` either. */
  lemma BeforeFirstKeepsOut(s: string, c: char, c2: char)
    requires c2 !in s
    ensures c2 !in BeforeFirst(s, c)
  {
    var r := BeforeFirst(s, c);
    BeforeFirstIsPrefix(s, c);
    forall i | 0 <= i < |r| ensures r[i] != c2 {
      assert r[i] == s[i];
    }
  }

  /** Appending a character other than `c` extends the last piece by it. */
  lemma AfterLastSnoc(u: string, x: char, c: char)
    requires x != c
    ensures AfterLast(u + [x], c) == AfterLast(u, c) + [x]
  {
    assert (u + [x])[..|u|] == u;
  }

  /** A text without `c` is its front, also without `c`, and a last character other than `c`. */
  lemma LastSplit(t: string, c: char)
    requires |t| > 0 && c !in t
    ensures t == t[..|t| - 1] + [t[|t| - 1]]
    ensures c !in t[..|t| - 1] && t[|t| - 1] != c
  {
    var front := t[..|t| - 1];
    assert t[|t| - 1] in t;
    forall i | 0 <= i < |front| ensures front[i] != c {
      assert front[i] == t[i];
    }
  }

  /** Appending text that does not contain `c` extends the last piece. */
  lemma {:induction false} AfterLastAppend(s: string, t: string, c: char)
    requires c !in t
    ensures AfterLast(s + t, c) == AfterLast(s, c) + t
    decreases |t|
  {
    if |t| == 0 {
      assert s + t == s;
    } else {
      var t', x := t[..|t| - 1], t[|t| - 1];
      LastSplit(t, c);
      AfterLastAppend(s, t', c);
      var u := s + t';
      assert s + t == u + [x];
      AfterLastSnoc(u, x, c);
      assert AfterLast(s, c) + t' + [x] == AfterLast(s, c) + t;
    }
  }

  /** Text before the first `c` is not affected by anything after that `c`. */
  lemma {:induction false} BeforeFirstAppend(s: string, t: string, c: char)
    requires c !in s
    ensures BeforeFirst(s + [c] + t, c) == s
    decreases |s|
  {
    if |s| == 0 {
      assert s + [c] + t == [c] + t;
    } else {
      assert (s + [c] + t)[1..] == s[1..] + [c] + t;
      BeforeFirstAppend(s[1..], t, c);
      assert [s[0]] + s[1..] == s;
    }
  }

  /** The self-link id of `.../feeds/videos.xml?channel_id=ID` is `ID`. */
  lemma ChannelIdOfQuery(prefix: string, id: string)
    requires '=' !in id
    ensures ChannelId(prefix + "=" + id) == id
  {
    AfterLastAppend(prefix + "=", id, '=');
    assert (prefix + "=")[|prefix + "="| - 1] == '=';
  }

  /** The guid drops the query: a URL with and without `?query` give the same guid. */
  lemma GuidIgnoresQuery(path: string, query: string)
    requires '?' !in path
    ensures Guid(path + "?" + query) == path == Guid(path)
  {
    BeforeFirstAppend(path, query, '?');
  }

  /** A `?` and a query without `/` hold no `/`. */
  lemma QueryKeepsOut(query: string)
    requires '/' !in query
    ensures '/' !in "?" + query
  {
    var tail := "?" + query;
    forall i | 0 <= i < |tail| ensures tail[i] != '/' {
      if i > 0 { assert tail[i] == query[i - 1]; }
    }
  }

  /** The video id does not depend on a query that contains no `/`. */
  lemma VideoIdIgnoresQuery(path: string, query: string)
    requires '?' !in path && '/' !in query
    ensures VideoId(path + "?" + query) == VideoId(path)
  {
    var seg := AfterLast(path, '/');
    var tail := "?" + query;
    assert AfterLast(path + "?" + query, '/') == seg + tail by {
      QueryKeepsOut(query);
      AfterLastAppend(path, tail, '/');
      assert path + "?" + query == path + tail;
    }
    assert BeforeFirst(seg + tail, '?') == seg by {
      AfterLastKeepsOut(path, '/', '?');
      BeforeFirstAppend(seg, query, '?');
      assert seg + "?" + query == seg + tail;
    }
  }

  /** The video id is taken from the whole URL, query included: a `/` inside the
      query changes it. */
  lemma VideoIdSeesSlashInQuery()
    ensures VideoId("v/ID") == "ID"
    ensures VideoId("v/ID?list=a/b") == "b"
  {
    assert AfterLast("v/ID", '/') == "ID" by {
      assert "v/ID"[..3] == "v/I";
      assert "v/I"[..2] == "v/";
    }
    assert AfterLast("v/ID?list=a/b", '/') == "b" by {
      assert "v/ID?list=a/b"[..12] == "v/ID?list=a/";
    }
  }
}
