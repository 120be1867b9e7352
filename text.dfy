/**
 * The pure string helpers of the download route: splitting the `links`
 * query parameter on ',', deriving the album name from a link, and
 * `parseCoverUrl`, which unwraps a CSS `url("...")` background-image value.
 * Strings are sequences of characters; JavaScript's `split`, `replace` and
 * `replaceAll` with string patterns are written out below.
 */
module Text {
  import opened Wrappers

  /** JavaScript `s.split(sep)` for a one-character separator: the pieces between separators, empty pieces kept. */
  function Split(s: string, sep: char): (parts: seq<string>)
    ensures |parts| >= 1
    ensures forall i :: 0 <= i < |parts| ==> sep !in parts[i]
    decreases |s|
  {
    if |s| == 0 then [""]
    else if s[0] == sep then [""] + Split(s[1..], sep)
    else
      var rest := Split(s[1..], sep);
      [[s[0]] + rest[0]] + rest[1..]
  }

  /** JavaScript `parts.join(sep)`: the pieces with one separator between neighbours. */
  function Join(parts: seq<string>, sep: char): (s: string)
    decreases |parts|
  {
    if |parts| == 0 then ""
    else if |parts| == 1 then parts[0]
    else parts[0] + [sep] + Join(parts[1..], sep)
  }

  /** Joining the pieces of a split gives back the split string. */
  lemma {:induction false} JoinSplit(s: string, sep: char)
    ensures Join(Split(s, sep), sep) == s
    decreases |s|
  {
    if |s| == 0 {
    } else if s[0] == sep {
      JoinSplit(s[1..], sep);
      var rest := Split(s[1..], sep);
      assert Split(s, sep) == [""] + rest;
      assert ([""] + rest)[1..] == rest;
      assert s == [sep] + s[1..];
    } else {
      JoinSplit(s[1..], sep);
      var rest := Split(s[1..], sep);
      var parts := Split(s, sep);
      assert parts == [[s[0]] + rest[0]] + rest[1..];
      if |rest| == 1 {
        assert s == [s[0]] + s[1..];
      } else {
        assert parts[1..] == rest[1..];
        assert Join(rest, sep) == rest[0] + [sep] + Join(rest[1..], sep);
        assert s == [s[0]] + s[1..];
      }
    }
  }

  /** Splitting a join of separator-free pieces gives back the pieces. */
  lemma {:induction false} SplitJoin(parts: seq<string>, sep: char)
    requires |parts| >= 1
    requires forall i :: 0 <= i < |parts| ==> sep !in parts[i]
    ensures Split(Join(parts, sep), sep) == parts
    decreases |parts|, |parts[0]|
  {
    var p := parts[0];
    if |p| == 0 {
      if |parts| == 1 {
      } else {
        SplitJoin(parts[1..], sep);
        var j := Join(parts, sep);
        assert j == [sep] + Join(parts[1..], sep);
        assert j[1..] == Join(parts[1..], sep);
        assert [""] + parts[1..] == parts;
      }
    } else {
      var parts' := [p[1..]] + parts[1..];
      assert sep !in p[1..] by {
        assert forall c :: c in p[1..] ==> c in p;
      }
      SplitJoin(parts', sep);
      assert parts'[1..] == parts[1..];
      var j := Join(parts, sep);
      var j' := Join(parts', sep);
      if |parts| == 1 {
        assert j == p && j' == p[1..];
      } else {
        assert j == p + [sep] + Join(parts[1..], sep);
        assert j' == p[1..] + [sep] + Join(parts[1..], sep);
      }
      assert j == [p[0]] + j';
      assert j[0] == p[0] && j[1..] == j';
      assert p[0] != sep by { assert p[0] in p; }
      var rest := Split(j', sep);
      assert rest == parts';
      assert [[p[0]] + p[1..]] + parts[1..] == parts by {
        assert [p[0]] + p[1..] == p;
      }
    }
  }

  /** The number of pieces is one more than the number of separators. */
  lemma {:induction false} SplitCount(s: string, sep: char)
    ensures |Split(s, sep)| == multiset(s)[sep] + 1
    decreases |s|
  {
    if |s| > 0 {
      SplitCount(s[1..], sep);
      assert s == [s[0]] + s[1..];
      assert multiset(s) == multiset([s[0]]) + multiset(s[1..]);
    }
  }

  /** The last piece of a split. */
  function LastPiece(s: string, sep: char): string
  {
    var parts := Split(s, sep);
    parts[|parts| - 1]
  }

  /** The last piece of a split is the suffix of the string after its last separator. */
  lemma {:induction false} SplitLast(s: string, sep: char)
    ensures var last := LastPiece(s, sep);
      |last| <= |s| && s[|s| - |last|..] == last &&
      (|last| < |s| ==> s[|s| - |last| - 1] == sep)
    decreases |s|
  {
    if |s| > 0 {
      var t := s[1..];
      SplitLast(t, sep);
      var rest := Split(t, sep);
      var last := LastPiece(s, sep);
      if s[0] == sep {
        assert Split(s, sep) == [""] + rest;
        assert last == LastPiece(t, sep);
        assert s[|s| - |last|..] == t[|t| - |last|..];
      } else if |rest| == 1 {
        JoinSplit(t, sep);
        assert Split(s, sep) == [[s[0]] + rest[0]];
        assert [s[0]] + t == s;
      } else {
        assert last == LastPiece(t, sep);
        if |last| == |t| {
          SplitCount(t, sep);
          assert false;
        }
        SuffixOfTail(s, t, last, sep);
      }
    }
  }

  /** A separator-preceded suffix of the tail of `s` is one of `s` too. */
  lemma SuffixOfTail(s: string, t: string, last: string, sep: char)
    requires |s| > 0 && t == s[1..] && |last| < |t|
    requires t[|t| - |last|..] == last && t[|t| - |last| - 1] == sep
    ensures |last| < |s| && s[|s| - |last|..] == last && s[|s| - |last| - 1] == sep
  {
    assert s[|s| - |last|..] == t[|t| - |last|..];
    assert s[|s| - |last| - 1] == t[|t| - |last| - 1];
  }

  /**
   * The album name of a link (download.ts lines 34-37): the text after the
   * last '/', so a link ending in '/' names the empty album.
   */
  function AlbumName(link: string): (album: string)
    ensures '/' !in album
    ensures |album| <= |link| && link[|link| - |album|..] == album
    ensures |album| < |link| ==> link[|link| - |album| - 1] == '/'
    ensures album == "" <==> link == "" || link[|link| - 1] == '/'
  {
    SplitLast(link, '/');
    var album := LastPiece(link, '/');
    assert '/' !in album;
    assert |album| > 0 ==> album[|album| - 1] == link[|link| - 1] && album[|album| - 1] in album;
    assert album == "" && link != "" ==> |album| < |link|;
    album
  }

  /** The three conditions in AlbumName's contract determine the name: any such suffix is it. */
  lemma AlbumNameUnique(link: string, name: string)
    requires '/' !in name
    requires |name| <= |link| && link[|link| - |name|..] == name
    requires |name| < |link| ==> link[|link| - |name| - 1] == '/'
    ensures name == AlbumName(link)
  {
  }

  /** The first position at or after `from` where `pat` occurs in `s`, if any. */
  function IndexOfFrom(s: string, pat: string, from: nat): (r: Option<nat>)
    requires from <= |s|
    ensures r.Some? ==> from <= r.value && r.value + |pat| <= |s|
    decreases |s| - from
  {
    if pat <= s[from..] then Some(from)
    else if from == |s| then None
    else IndexOfFrom(s, pat, from + 1)
  }

  /**
   * IndexOfFrom finds the first occurrence: `pat` occurs at the position it
   * returns and at no earlier position from `from` on, and when it returns
   * nothing, `pat` occurs nowhere from `from` on.
   */
  lemma {:induction false} IndexOfFromFirst(s: string, pat: string, from: nat)
    requires from <= |s|
    ensures var r := IndexOfFrom(s, pat, from);
      (r.Some? ==> pat <= s[r.value..] && forall j :: from <= j < r.value ==> !(pat <= s[j..])) &&
      (r.None? ==> forall j :: from <= j <= |s| ==> !(pat <= s[j..]))
    decreases |s| - from
  {
    if !(pat <= s[from..]) && from < |s| {
      IndexOfFromFirst(s, pat, from + 1);
    }
  }

  /** Conversely, the first position from `from` on where `pat` occurs is what IndexOfFrom returns. */
  lemma {:induction false} IndexOfFromAt(s: string, pat: string, from: nat, k: nat)
    requires from <= k <= |s|
    requires pat <= s[k..]
    requires forall j :: from <= j < k ==> !(pat <= s[j..])
    ensures IndexOfFrom(s, pat, from) == Some(k)
    decreases k - from
  {
    if from < k {
      IndexOfFromAt(s, pat, from + 1, k);
    }
  }

  /** JavaScript `s.indexOf(pat)`: the first position where `pat` occurs in `s`, if any. */
  function IndexOf(s: string, pat: string): (r: Option<nat>)
    ensures r.Some? ==> r.value + |pat| <= |s|
  {
    IndexOfFrom(s, pat, 0)
  }

  /** JavaScript `s.replace(pat, '')` with a string pattern: the first occurrence of `pat` removed. */
  function RemoveFirst(s: string, pat: string): (r: string)
    ensures IndexOf(s, pat).None? ==> r == s
    ensures IndexOf(s, pat).Some? ==> |r| == |s| - |pat|
  {
    match IndexOf(s, pat)
    case None => s
    case Some(i) => s[..i] + s[i + |pat|..]
  }

  /** JavaScript `s.replaceAll(c, '')` for a one-character pattern: every `c` removed, the rest kept in order. */
  function RemoveAll(s: string, c: char): (r: string)
    ensures c !in r
    ensures |r| <= |s|
    ensures c !in s ==> r == s
    decreases |s|
  {
    if |s| == 0 then ""
    else if s[0] == c then RemoveAll(s[1..], c)
    else [s[0]] + RemoveAll(s[1..], c)
  }

  /** Removing every `c` shortens the string by exactly the number of `c`s in it. */
  lemma {:induction false} RemoveAllCount(s: string, c: char)
    ensures |RemoveAll(s, c)| == |s| - multiset(s)[c]
    decreases |s|
  {
    if |s| > 0 {
      RemoveAllCount(s[1..], c);
      assert s == [s[0]] + s[1..];
      assert multiset(s) == multiset([s[0]]) + multiset(s[1..]);
    }
  }

  /** Removing a character from a concatenation removes it from each part. */
  lemma {:induction false} RemoveAllAppend(a: string, b: string, c: char)
    ensures RemoveAll(a + b, c) == RemoveAll(a, c) + RemoveAll(b, c)
    decreases |a|
  {
    if |a| > 0 {
      var head := if a[0] == c then "" else [a[0]];
      assert (a + b)[0] == a[0];
      assert (a + b)[1..] == a[1..] + b;
      assert RemoveAll(a + b, c) == head + RemoveAll(a[1..] + b, c);
      RemoveAllAppend(a[1..], b, c);
      assert RemoveAll(a, c) == head + RemoveAll(a[1..], c);
    } else {
      assert a + b == b;
    }
  }

  /**
   * `parseCoverUrl` (download.ts lines 66-68): drop the first "url(", then the
   * first ")", then every double quote.
   */
  function ParseCoverUrl(style: string): (url: string)
    ensures '"' !in url
    ensures |url| <= |style|
  {
    RemoveAll(RemoveFirst(RemoveFirst(style, "url("), ")"), '"')
  }

  /** Dropping the leading "url(" of a wrapped style value. */
  lemma DropUrlOpen(x: string)
    ensures RemoveFirst("url(\"" + x + "\")", "url(") == "\"" + x + "\")"
  {
    var style := "url(\"" + x + "\")";
    assert "url(" <= style;
    IndexOfFromAt(style, "url(", 0, 0);
    assert style[4..] == "\"" + x + "\")";
  }

  /** Dropping the first ")" of a quoted value followed by ")", when the value has no ")". */
  lemma DropCloseParen(x: string)
    requires ')' !in x
    ensures RemoveFirst("\"" + x + "\")", ")") == "\"" + x + "\""
  {
    var s1 := "\"" + x + "\")";
    var k := |x| + 2;
    assert ")" <= s1[k..];
    forall j | 0 <= j < k
      ensures !(")" <= s1[j..])
    {
      if 0 < j <= |x| {
        assert s1[j] == x[j - 1];
        assert x[j - 1] in x;
      } else {
        assert s1[j] == '"';
      }
    }
    IndexOfFromAt(s1, ")", 0, k);
    assert s1[..k] + s1[k + 1..] == "\"" + x + "\"";
  }

  /** Removing every double quote from a quoted value without quotes leaves the value. */
  lemma DropQuotes(x: string)
    requires '"' !in x
    ensures RemoveAll("\"" + x + "\"", '"') == x
  {
    RemoveAllAppend("\"" + x, "\"", '"');
    RemoveAllAppend("\"", x, '"');
    assert RemoveAll("\"", '"') == "";
  }

  /** A style value `url("X")` whose X has no quote and no ')' parses back to exactly X. */
  lemma ParseCoverUrlWrapped(x: string)
    requires '"' !in x && ')' !in x
    ensures ParseCoverUrl("url(\"" + x + "\")") == x
  {
    DropUrlOpen(x);
    DropCloseParen(x);
    DropQuotes(x);
  }
}
