/**
 * An RSS `<item>` and its conversion to an article (`Item.ToArticle` in
 * pkg/models/rss.go): the publication date is parsed in the RFC 1123
 * numeric-zone layout, the images are taken from the description's HTML
 * tree, and one pass of `<img ...>` removal over the description forms the
 * summary. That pass can leave a tag behind; `StripImgTags`, the repeated
 * pass, is the summary the code evidently intends.
 */
module RssArticle {

  import opened Wrappers
  import opened Strings
  import opened RfcDates
  import opened HtmlImages

  /** An item as decoded from the feed's XML. */
  datatype Item = Item(title: string, link: string, description: string, guid: string, author: string,
                       pubDate: string, categories: seq<string>, contentEncoded: string)

  /** The article the item becomes; `sourceID` is Go's nil-able UUID pointer. */
  datatype Article = Article(title: string, language: string, originalUrl: string, summary: string,
                             contentBody: string, publishedAt: DateTime, isFeatured: bool,
                             sourceID: Option<string>, images: seq<ArticleImage>)

  /** The error `time.Parse` reports for a `pubDate` outside the layout. */
  datatype ParseError = BadPubDate(value: string)

  // ------------------------------------------------------------ the `<img[^>]*>` pattern

  /** The position of the first occurrence of `c` in `t`. */
  function IndexOf(t: string, c: char): (r: nat)
    requires c in t
    ensures r < |t| && t[r] == c && c !in t[..r]
  {
    if t[0] == c then 0
    else
      var k := IndexOf(t[1..], c);
      assert t[..k + 1] == [t[0]] + t[1..][..k];
      k + 1
  }

  /** The pattern `<img[^>]*>` matches at the front of `s`: `<img` and a later `>`. */
  predicate TagAtFront(s: string) {
    |s| >= 4 && s[..4] == "<img" && '>' in s[4..]
  }

  /** The length of the match at the front: up to and including the first `>` after `<img`. */
  function TagLength(s: string): (n: nat)
    requires TagAtFront(s)
    ensures 5 <= n <= |s| && s[n - 1] == '>' && '>' !in s[4..n - 1]
  {
    var j := IndexOf(s[4..], '>');
    assert s[4..][..j] == s[4..4 + j];
    5 + j
  }

  /** Somewhere in `s` a complete `<img ...>` tag starts. */
  predicate HasImgTag(s: string) {
    exists i :: 0 <= i <= |s| && TagAtFront(s[i..])
  }

  /**
   * `regexp.MustCompile("<img[^>]*>").ReplaceAllString(s, "")` as the code has it:
   * one left-to-right pass that removes each leftmost match and resumes after it.
   */
  function StripImgTagsOnce(s: string): (r: string)
    ensures |r| <= |s|
    decreases |s|
  {
    if s == [] then []
    else if TagAtFront(s) then StripImgTagsOnce(s[TagLength(s)..])
    else [s[0]] + StripImgTagsOnce(s[1..])
  }

  lemma {:induction false} TagInTail(s: string, i: int)
    requires 1 <= i <= |s| && TagAtFront(s[i..])
    ensures HasImgTag(s[1..])
  {
    assert s[1..][i - 1..] == s[i..];
  }

  /** A pass with nothing to match changes nothing. */
  lemma {:induction false} NoTagUnchanged(s: string)
    requires !HasImgTag(s)
    ensures StripImgTagsOnce(s) == s
    decreases |s|
  {
    if s != [] {
      assert s[0..] == s;
      forall i | 0 <= i <= |s[1..]|
        ensures !TagAtFront(s[1..][i..])
      {
        assert s[1..][i..] == s[i + 1..];
      }
      NoTagUnchanged(s[1..]);
      assert [s[0]] + s[1..] == s;
    }
  }

  /** A pass over text holding a complete tag removes at least one character. */
  lemma {:induction false} TagShrinks(s: string)
    requires HasImgTag(s)
    ensures |StripImgTagsOnce(s)| < |s|
    decreases |s|
  {
    if !TagAtFront(s) {
      var i :| 0 <= i <= |s| && TagAtFront(s[i..]);
      assert i != 0 by { assert s[0..] == s; }
      TagInTail(s, i);
      TagShrinks(s[1..]);
    }
  }

  /** One pass is the identity exactly on the texts without a complete tag. */
  lemma StripOnceFixedIff(s: string)
    ensures StripImgTagsOnce(s) == s <==> !HasImgTag(s)
  {
    if HasImgTag(s) {
      TagShrinks(s);
    } else {
      NoTagUnchanged(s);
    }
  }

  lemma TagThenPlain(inner: string, rest: string)
    requires '>' !in inner && '<' !in rest
    ensures StripImgTagsOnce("<img" + inner + ">" + rest) == rest
  {
    StripOnceDropsTag(inner, rest);
    StripOnceKeepsPlainPrefix(rest, []);
    assert rest + [] == rest;
  }

  /** The single pass can assemble a new tag from the text around the one it removed. */
  lemma {:induction false} StripOnceReassembles(inner: string)
    requires '<' !in inner && '>' !in inner
    ensures StripImgTagsOnce("<im" + "<img" + inner + ">" + "g>") == "<im" + "g>"
  {
    var tail := "<img" + inner + ">" + "g>";
    var s := "<im" + tail;
    assert "<im" + "<img" + inner + ">" + "g>" == s;
    assert StripImgTagsOnce(s[1..]) == "im" + "g>" by {
      assert s[1..] == "im" + tail;
      TagThenPlain(inner, "g>");
      StripOnceKeepsPlainPrefix("im", tail);
    }
    assert !TagAtFront(s) by { assert s[..4][3] == '<'; }
    assert [s[0]] + ("im" + "g>") == "<im" + "g>";
  }

  /** The smallest such description: `<im<img>g>` loses its tag and becomes `<img>`. */
  lemma StripOnceLeavesTag()
    ensures StripImgTagsOnce("<im<img>g>") == "<img>"
    ensures HasImgTag(StripImgTagsOnce("<im<img>g>"))
  {
    StripOnceReassembles([]);
    assert "<im" + "<img" + [] + ">" + "g>" == "<im<img>g>";
    assert "<im" + "g>" == "<img>";
    assert TagAtFront("<img>"[0..]);
  }

  /**
   * The intended summary text: the pass repeated until no complete `<img ...>` tag is left.
   */
  function StripImgTags(s: string): (r: string)
    ensures !HasImgTag(r)
    ensures |r| <= |s|
    decreases |s|
  {
    var t := StripImgTagsOnce(s);
    StripOnceFixedIff(s);
    if t == s then s
    else
      TagShrinks(s);
      StripImgTags(t)
  }

  /** Where one pass already leaves no tag, the repeated pass gives the same text. */
  lemma StripAgreesWithOnce(s: string)
    requires !HasImgTag(StripImgTagsOnce(s))
    ensures StripImgTags(s) == StripImgTagsOnce(s)
  {
    var t := StripImgTagsOnce(s);
    if t != s {
      StripOnceFixedIff(t);
    }
  }

  /** Text without a tag is its own summary; stripping twice is stripping once. */
  lemma StripImgTagsIdempotent(s: string)
    ensures !HasImgTag(s) ==> StripImgTags(s) == s
    ensures StripImgTags(StripImgTags(s)) == StripImgTags(s)
  {
    StripOnceFixedIff(s);
    StripOnceFixedIff(StripImgTags(s));
  }

  /** A first character other than `<` cannot start a tag, so the pass keeps it. */
  lemma StripOnceKeepsFirst(s: string)
    requires s != [] && s[0] != '<'
    ensures StripImgTagsOnce(s) == [s[0]] + StripImgTagsOnce(s[1..])
  {
    assert !TagAtFront(s) by {
      if |s| >= 4 {
        assert s[..4][0] == s[0];
      }
    }
  }

  /** Text before the first `<` is kept as it is, ahead of the stripped remainder. */
  lemma {:induction false} StripOnceKeepsPlainPrefix(a: string, b: string)
    requires '<' !in a
    ensures StripImgTagsOnce(a + b) == a + StripImgTagsOnce(b)
    decreases |a|
  {
    if a != [] {
      var s, x := a + b, StripImgTagsOnce(b);
      calc {
        StripImgTagsOnce(s);
      == { assert s[0] == a[0] && s[1..] == a[1..] + b; StripOnceKeepsFirst(s); }
        [a[0]] + StripImgTagsOnce(a[1..] + b);
      == { StripOnceKeepsPlainPrefix(a[1..], b); }
        [a[0]] + (a[1..] + x);
      == { assert [a[0]] + a[1..] == a; }
        a + x;
      }
    } else {
      assert a + b == b;
    }
  }

  lemma {:induction false} IndexOfAfterFree(u: string, c: char, rest: string)
    requires c !in u
    ensures IndexOf(u + [c] + rest, c) == |u|
    decreases |u|
  {
    var t := u + [c] + rest;
    if u != [] {
      assert t[0] == u[0] && u[0] != c;
      assert t[1..] == u[1..] + [c] + rest;
      IndexOfAfterFree(u[1..], c, rest);
    }
  }

  /** A whole tag at the front is dropped and the rest is stripped. */
  lemma StripOnceDropsTag(tagBody: string, b: string)
    requires '>' !in tagBody
    ensures StripImgTagsOnce("<img" + tagBody + ">" + b) == StripImgTagsOnce(b)
  {
    var s := "<img" + tagBody + ">" + b;
    assert s[..4] == "<img";
    assert s[4..] == tagBody + ['>'] + b;
    IndexOfAfterFree(tagBody, '>', b);
    assert TagLength(s) == 5 + |tagBody|;
    assert s[5 + |tagBody|..] == b;
  }

  // ------------------------------------------------------------ ToArticle

  /**
   * `Item.ToArticle(language)`: `descriptionTree` is the HTML tree of the
   * description, whose parse error the code ignores. The summary is the
   * single pass, as written.
   */
  function ToArticle(item: Item, language: string, descriptionTree: Node): (r: Result<Article, ParseError>)
    ensures r.Err? <==> ParseRfc1123Z(item.pubDate).None?
    ensures r.Err? ==> r.error == BadPubDate(item.pubDate)
    ensures r.Ok? ==>
              && r.value.title == item.title
              && r.value.language == language
              && r.value.originalUrl == item.link
              && r.value.contentBody == item.contentEncoded
              && r.value.publishedAt == ParseRfc1123Z(item.pubDate).value
              && !r.value.isFeatured
              && r.value.sourceID.None?
              && r.value.images == Extracted(descriptionTree)
              && r.value.summary == StripImgTagsOnce(item.description)
  {
    match ParseRfc1123Z(item.pubDate)
    case None => Err(BadPubDate(item.pubDate))
    case Some(publishedAt) =>
      Ok(Article(item.title, language, item.link, StripImgTagsOnce(item.description), item.contentEncoded,
                 publishedAt, false, None, Extracted(descriptionTree)))
  }

  /** A description made of plain text and one well-formed tag loses the tag, in one pass or repeated. */
  lemma StripTaggedText(text: string, tagBody: string)
    requires '<' !in text && '>' !in tagBody
    ensures StripImgTagsOnce(text + "<img" + tagBody + ">") == text
    ensures StripImgTags(text + "<img" + tagBody + ">") == text
  {
    var tag := "<img" + tagBody + ">";
    var d := text + "<img" + tagBody + ">";
    assert d == text + tag;
    StripOnceKeepsPlainPrefix(text, tag);
    StripOnceDropsTag(tagBody, []);
    assert tag + [] == tag;
    assert StripImgTagsOnce(tag) == [];
    assert StripImgTagsOnce(d) == text + [];
    forall i | 0 <= i <= |text|
      ensures !TagAtFront(text[i..])
    {
      if i < |text| {
        assert text[i..][0] == text[i];
      }
    }
    StripAgreesWithOnce(d);
  }
}
