/** Turning a fetched document into text, as both analysis routes do: the PDF-or-HTML
    decision, and for HTML the chain of three regular-expression replacements
    `<script[\s\S]*?<\/script>` (flags `gi`) by nothing, `<style[\s\S]*?<\/style>` (flags `gi`)
    by nothing, and `<[^>]+>` (flag `g`) by a space. */
module Extraction {
  import opened Results
  import opened JsText
  import opened Ordered
  import opened Api

  /** `contentType.includes('application/pdf') || url.toLowerCase().endsWith('.pdf')`. */
  function IsPdf(contentType: string, url: string): (pdf: bool)
    ensures pdf <==> (Contains(contentType, "application/pdf")
                      || (|url| >= 4 && url[|url| - 4] == '.' && url[|url| - 3] in "pP" && url[|url| - 2] in "dD" && url[|url| - 1] in "fF"))
  {
    var lower := Lower(url);
    assert |lower| >= 4 ==> lower[|lower| - 4..] == [lower[|lower| - 4], lower[|lower| - 3], lower[|lower| - 2], lower[|lower| - 1]];
    Contains(contentType, "application/pdf") || EndsWith(lower, ".pdf")
  }

  // ---------------------------------------------------------------------------
  // Case-insensitive search. Under the `i` flag without `u`, a character of the text matches
  // an ASCII letter of the pattern only if it is that letter in either case; every other
  // pattern character matches only itself.

  /** The pattern `pat`, written in lower case, matches `s` at index `i` ignoring case. */
  predicate MatchesAt(s: string, i: nat, pat: string)
  {
    i + |pat| <= |s| && forall k :: 0 <= k < |pat| ==> LowerChar(s[i + k]) == pat[k]
  }

  /** The leftmost index at or after `from` where `pat` matches. */
  function FindFrom(s: string, pat: string, from: nat): (r: Option<nat>)
    ensures r.Some? ==> from <= r.value && MatchesAt(s, r.value, pat)
    ensures r.Some? ==> forall k :: from <= k < r.value ==> !MatchesAt(s, k, pat)
    ensures r.None? ==> forall k: nat :: from <= k ==> !MatchesAt(s, k, pat)
    decreases |s| - from
  {
    if from + |pat| > |s| then None
    else if MatchesAt(s, from, pat) then Some(from)
    else FindFrom(s, pat, from + 1)
  }

  /** A closing marker matches somewhere at or after `from`. */
  predicate CloseAfter(s: string, close: string, from: nat)
  {
    exists j | from <= j <= |s| :: MatchesAt(s, j, close)
  }

  /** A match of `open[\s\S]*?close` can start at `i`. */
  predicate BlockStartsAt(s: string, open: string, close: string, i: nat)
  {
    MatchesAt(s, i, open) && CloseAfter(s, close, i + |open|)
  }

  /** The match the regular-expression engine finds when it scans from `from`: the leftmost
      start at which a block can begin, and from there the nearest closing marker (the lazy
      `*?`). The result is the start of the match and the index just after it. */
  function FindBlock(s: string, open: string, close: string, from: nat): (r: Option<(nat, nat)>)
    ensures r.Some? ==>
      var (i, e) := r.value;
      && from <= i && i + |open| + |close| <= e <= |s|
      && MatchesAt(s, i, open) && MatchesAt(s, e - |close|, close)
      && (forall k :: i + |open| <= k < e - |close| ==> !MatchesAt(s, k, close))
      && (forall k :: from <= k < i ==> !BlockStartsAt(s, open, close, k))
    ensures r.None? ==> forall k: nat :: from <= k ==> !BlockStartsAt(s, open, close, k)
    decreases |s| - from
  {
    if from + |open| > |s| then None
    else
      var c := FindFrom(s, close, from + |open|);
      if MatchesAt(s, from, open) && c.Some? then Some((from, c.value + |close|))
      else FindBlock(s, open, close, from + 1)
  }

  /** `s.replace(/open[\s\S]*?close/gi, '')`: removes the blocks one after another, each
      search resuming where the previous match ended. */
  function RemoveBlocks(s: string, open: string, close: string): (r: string)
    requires open != []
    ensures |r| <= |s|
    ensures forall i :: 0 <= i < |r| ==> r[i] in s
    ensures (forall k: nat :: !BlockStartsAt(s, open, close, k)) ==> r == s
    decreases |s|
  {
    match FindBlock(s, open, close, 0)
    case None => s
    case Some((i, e)) =>
      assert BlockStartsAt(s, open, close, i) by {
        assert i + |open| <= e - |close| <= |s| && MatchesAt(s, e - |close|, close);
      }
      var rest := RemoveBlocks(s[e..], open, close);
      assert forall k :: 0 <= k < |rest| ==> rest[k] in s by {
        forall k | 0 <= k < |rest| ensures rest[k] in s {
          assert rest[k] in s[e..];
        }
      }
      s[..i] + rest
  }

  /** The first block is cut out and the removal resumes after it: when the text is a prefix
      in which no block can start, then a block (an opening marker, no closing marker, a
      closing marker), then the rest, only the prefix and the removal of the rest remain. */
  lemma RemoveBlocksSplits(s: string, open: string, close: string, i: nat, e: nat)
    requires open != []
    requires i + |open| + |close| <= e <= |s|
    requires forall k :: 0 <= k < i ==> !BlockStartsAt(s, open, close, k)
    requires MatchesAt(s, i, open) && MatchesAt(s, e - |close|, close)
    requires forall k :: i + |open| <= k < e - |close| ==> !MatchesAt(s, k, close)
    ensures RemoveBlocks(s, open, close) == s[..i] + RemoveBlocks(s[e..], open, close)
  {
    assert BlockStartsAt(s, open, close, i) by {
      assert i + |open| <= e - |close| <= |s|;
    }
    var r := FindBlock(s, open, close, 0);
    assert r.Some?;
    var (i', e') := r.value;
    assert BlockStartsAt(s, open, close, i') by {
      assert i' + |open| <= e' - |close| <= |s|;
    }
    assert i' == i;
    assert e' == e;
  }

  // ---------------------------------------------------------------------------
  // Tag replacement.

  /** The index of the first `>` at or after `from`. */
  function FindGt(s: string, from: nat): (r: Option<nat>)
    ensures r.Some? ==> from <= r.value < |s| && s[r.value] == '>'
    ensures r.Some? ==> forall k :: from <= k < r.value ==> s[k] != '>'
    ensures r.None? ==> forall k :: from <= k < |s| ==> s[k] != '>'
    decreases |s| - from
  {
    if from >= |s| then None
    else if s[from] == '>' then Some(from)
    else FindGt(s, from + 1)
  }

  /** `s.replace(/<[^>]+>/g, ' ')`: a `<`, at least one character other than `>`, and the
      first `>` after them become one space; every other character is kept. */
  function ReplaceTags(s: string): (r: string)
    ensures |r| <= |s|
    ensures forall i :: 0 <= i < |r| && r[i] != ' ' ==> r[i] in s
    decreases |s|
  {
    if s == [] then []
    else if s[0] == '<' && |s| >= 2 && s[1] != '>' && FindGt(s, 2).Some? then
      var rest := ReplaceTags(s[FindGt(s, 2).value + 1..]);
      assert forall k :: 0 <= k < |rest| && rest[k] != ' ' ==> rest[k] in s by {
        forall k | 0 <= k < |rest| && rest[k] != ' ' ensures rest[k] in s {
          assert rest[k] in s[FindGt(s, 2).value + 1..];
        }
      }
      " " + rest
    else
      var rest := ReplaceTags(s[1..]);
      assert forall k :: 0 <= k < |rest| && rest[k] != ' ' ==> rest[k] in s by {
        forall k | 0 <= k < |rest| && rest[k] != ' ' ensures rest[k] in s {
          assert rest[k] in s[1..];
        }
      }
      [s[0]] + rest
  }

  /** No text of the form `<`, one or more characters other than `>`, `>` is left: every `<`
      is directly followed by `>` or has no `>` anywhere after it. */
  predicate NoTag(r: string)
  {
    forall i :: 0 <= i < |r| && r[i] == '<' ==> (i + 1 < |r| && r[i + 1] == '>') || '>' !in r[i + 1..]
  }

  /** A text without `<` passes through the tag replacement unchanged. */
  lemma {:induction false} ReplaceTagsKeepsPlainText(s: string)
    requires '<' !in s
    ensures ReplaceTags(s) == s
    decreases |s|
  {
    if s != [] {
      assert '<' !in s[1..] by {
        forall k | 0 <= k < |s[1..]| ensures s[1..][k] != '<' {
          assert s[1..][k] == s[k + 1];
        }
      }
      ReplaceTagsKeepsPlainText(s[1..]);
    }
  }

  /** Text before the first `<` is kept as it is. */
  lemma {:induction false} ReplaceTagsPlainPrefix(p: string, q: string)
    requires '<' !in p
    ensures ReplaceTags(p + q) == p + ReplaceTags(q)
    decreases |p|
  {
    if p != [] {
      var s := p + q;
      assert s[0] == p[0] && s[1..] == p[1..] + q;
      assert p[0] != '<' by {
        assert p[0] in p;
      }
      assert '<' !in p[1..] by {
        forall k | 0 <= k < |p[1..]| ensures p[1..][k] != '<' {
          assert p[1..][k] == p[k + 1];
        }
      }
      ReplaceTagsPlainPrefix(p[1..], q);
      assert p == [p[0]] + p[1..];
    } else {
      assert p + q == q;
    }
  }

  /** A tag, `<` then one or more characters other than `>` then `>`, becomes one space, and
      the replacement goes on after it. */
  lemma ReplaceTagsTag(t: string, q: string)
    requires t != [] && '>' !in t
    ensures ReplaceTags("<" + t + ">" + q) == " " + ReplaceTags(q)
  {
    var s := "<" + t + ">" + q;
    assert s[1] == t[0];
    assert s[|t| + 1] == '>';
    forall k | 2 <= k < |t| + 1 ensures s[k] != '>' {
      assert s[k] == t[k - 1];
    }
    assert FindGt(s, 2) == Some(|t| + 1) by {
      if |t| == 1 {
        assert s[2] == '>';
      } else {
        assert FindGt(s, 2).Some? && FindGt(s, 2).value == |t| + 1;
      }
    }
    assert s[|t| + 2..] == q;
  }

  /** A `<` that does not open a tag (directly followed by `>`, or with no `>` after the
      character after it) is kept. */
  lemma ReplaceTagsLoneLt(q: string)
    requires q == [] || q[0] == '>' || '>' !in q[1..]
    ensures ReplaceTags("<" + q) == "<" + ReplaceTags(q)
  {
    var s := "<" + q;
    assert s[1..] == q;
    if |s| >= 2 && s[1] != '>' {
      assert FindGt(s, 2).None? by {
        forall k | 2 <= k < |s| ensures s[k] != '>' {
          assert s[k] == q[1..][k - 2];
        }
      }
    }
  }

  /** One tag after plain text: the text is kept, the tag becomes one space. */
  lemma ReplaceTagsOneTag(p: string, t: string, q: string)
    requires '<' !in p && t != [] && '>' !in t
    ensures ReplaceTags(p + "<" + t + ">" + q) == p + " " + ReplaceTags(q)
  {
    var rest := "<" + t + ">" + q;
    ReplaceTagsPlainPrefix(p, rest);
    ReplaceTagsTag(t, q);
    assert p + "<" + t + ">" + q == p + rest by {
      AppendAssoc(p, "<", t);
      AppendAssoc(p, "<" + t, ">");
      AppendAssoc(p, "<" + t + ">", q);
    }
    AppendAssoc(p, " ", ReplaceTags(q));
  }

  lemma GtKept(s: string)
    requires '>' !in s
    ensures '>' !in ReplaceTags(s)
  {
    var r := ReplaceTags(s);
    forall i | 0 <= i < |r| ensures r[i] != '>' {
      if r[i] != ' ' {
        assert r[i] in s;
      }
    }
  }

  /** After the tag replacement no tag is left. */
  lemma {:induction false} ReplaceTagsLeavesNoTag(s: string)
    ensures NoTag(ReplaceTags(s))
    decreases |s|
  {
    if s != [] {
      var r := ReplaceTags(s);
      if s[0] == '<' && |s| >= 2 && s[1] != '>' && FindGt(s, 2).Some? {
        var rest := s[FindGt(s, 2).value + 1..];
        ReplaceTagsLeavesNoTag(rest);
        ShiftNoTag(' ', ReplaceTags(rest));
      } else {
        var rest := ReplaceTags(s[1..]);
        ReplaceTagsLeavesNoTag(s[1..]);
        if s[0] == '<' && |s| >= 2 {
          if s[1] == '>' {
            assert rest[0] == '>';
          } else {
            assert '>' !in s[1..] by {
              forall k | 1 <= k < |s| ensures s[k] != '>' {
                if k >= 2 {
                  assert FindGt(s, 2).None?;
                }
              }
            }
            GtKept(s[1..]);
          }
        }
        ShiftNoTag(s[0], rest);
        assert r == [s[0]] + rest;
      }
    }
  }

  /** Prefixing one character keeps `NoTag` at every later position. */
  lemma ShiftNoTag(c: char, rest: string)
    requires NoTag(rest)
    requires c == '<' ==> (rest != [] && rest[0] == '>') || '>' !in rest
    ensures NoTag([c] + rest)
  {
    var r := [c] + rest;
    forall i | 0 <= i < |r| && r[i] == '<'
      ensures (i + 1 < |r| && r[i + 1] == '>') || '>' !in r[i + 1..]
    {
      if i > 0 {
        assert rest[i - 1] == '<';
        assert r[i + 1..] == rest[i..];
      } else {
        assert r[1..] == rest;
      }
    }
  }

  /** The HTML branch of both routes. */
  function StripHtml(html: string): (text: string)
    ensures NoTag(text)
  {
    var noScripts := RemoveBlocks(html, "<script", "</script>");
    var noStyles := RemoveBlocks(noScripts, "<style", "</style>");
    ReplaceTagsLeavesNoTag(noStyles);
    ReplaceTags(noStyles)
  }

  /** Without a `<` there is no block to remove and no tag to replace: the text is kept. */
  lemma StripHtmlKeepsPlainText(html: string)
    requires '<' !in html
    ensures StripHtml(html) == html
  {
    NoBlockWithoutLt(html, "<script", "</script>");
    NoBlockWithoutLt(html, "<style", "</style>");
    ReplaceTagsKeepsPlainText(html);
  }

  /** A block whose opening marker starts with `<` cannot start in a text without `<`. */
  lemma NoBlockWithoutLt(s: string, open: string, close: string)
    requires '<' !in s && open != [] && open[0] == '<'
    ensures RemoveBlocks(s, open, close) == s
  {
    forall k: nat ensures !BlockStartsAt(s, open, close, k) {
      if MatchesAt(s, k, open) {
        assert false;
      }
    }
  }

  /** The text of a fetched document in both routes: the PDF parser's text, or the stripped
      HTML decoded as UTF-8. */
  function ExtractText(url: string, fetched: Fetched, svc: Services): (r: Result<string>)
    ensures IsPdf(if fetched.contentType.Some? then fetched.contentType.value else "", url)
      ==> r == svc.parseDocument("application/pdf", fetched.bytes)
    ensures !IsPdf(if fetched.contentType.Some? then fetched.contentType.value else "", url)
      ==> r == Ok(StripHtml(svc.decodeUtf8(fetched.bytes))) && NoTag(r.value)
  {
    var contentType := if fetched.contentType.Some? then fetched.contentType.value else "";
    if IsPdf(contentType, url) then svc.parseDocument("application/pdf", fetched.bytes)
    else Ok(StripHtml(svc.decodeUtf8(fetched.bytes)))
  }

}
