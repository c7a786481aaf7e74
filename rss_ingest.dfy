/**
 * Feed ingestion (`RssService` in pkg/services/rss_service.go): the items of
 * a fetched feed are mapped to articles in feed order and handed to a
 * create-if-absent store keyed by the article URL; the run counts the new
 * articles and the duplicates.
 */
module RssIngest {

  import opened Wrappers
  import opened HtmlImages
  import opened RssArticle
  import opened RfcDates

  /** Why a feed could not be read: the fetch, the body read or the XML decoding failed. */
  datatype FetchError = FetchFailed | ReadFailed | XmlInvalid

  /** What saving one article did. */
  datatype SaveOutcome = Created | Duplicate | SaveFailed

  /**
   * The article store's create-if-absent step: a write the store rejects fails;
   * otherwise an article whose URL is already stored is a duplicate and a new one is added.
   */
  function SaveOutcomeOf(byUrl: map<string, Article>, a: Article, rejects: Article -> bool): SaveOutcome {
    if rejects(a) then SaveFailed
    else if a.originalUrl in byUrl then Duplicate
    else Created
  }

  /** The articles a store holds, by URL, and which writes it refuses. */
  class ArticleStore {
    var byUrl: map<string, Article>
    const rejects: Article -> bool

    constructor(rejects: Article -> bool)
      ensures byUrl == map[] && this.rejects == rejects
    {
      byUrl := map[];
      this.rejects := rejects;
    }

    /** Adds `a` unless its URL is already stored; `created` says whether it was added. */
    method CreateArticleIfNotExists(a: Article) returns (created: bool, failed: bool)
      modifies this
      ensures var o := SaveOutcomeOf(old(byUrl), a, rejects);
              && failed == (o == SaveFailed)
              && created == (o == Created)
              && byUrl == (if created then old(byUrl)[a.originalUrl := a] else old(byUrl))
    {
      if rejects(a) {
        return false, true;
      }
      if a.originalUrl in byUrl {
        return false, false;
      }
      byUrl := byUrl[a.originalUrl := a];
      return true, false;
    }
  }

  /** The counters of a run, with the store's contents. */
  datatype Tally = Tally(byUrl: map<string, Article>, saved: nat, duplicates: nat)

  /**
   * The article an item is stored as, if its mapping succeeds. The code calls
   * `ToArticle` with no language, so the language is Go's zero string.
   */
  function Mapped(item: Item, sourceID: Option<string>, htmlTree: string -> Node): (r: Option<Article>)
    ensures r.None? <==> ParseRfc1123Z(item.pubDate).None?
    ensures r.Some? ==>
              && r.value.sourceID == sourceID
              && r.value.language == ""
              && r.value.originalUrl == item.link
              && r.value.title == item.title
              && r.value.summary == StripImgTagsOnce(item.description)
              && r.value.contentBody == item.contentEncoded
              && r.value.publishedAt == ParseRfc1123Z(item.pubDate).value
              && r.value.images == Extracted(htmlTree(item.description))
              && !r.value.isFeatured
  {
    match ToArticle(item, "", htmlTree(item.description))
    case Err(_) => None
    case Ok(a) => Some(if sourceID.Some? then a.(sourceID := sourceID) else a)
  }

  /** The mapped form of every item, in feed order (`None` where the mapping fails). */
  function MappedAll(items: seq<Item>, sourceID: Option<string>, htmlTree: string -> Node): (ms: seq<Option<Article>>)
    ensures |ms| == |items|
  {
    seq(|items|, k requires 0 <= k < |items| => Mapped(items[k], sourceID, htmlTree))
  }

  /** One iteration of the item loop, given the item's mapped article. */
  function Process(t: Tally, m: Option<Article>, rejects: Article -> bool): Tally {
    match m
    case None => t
    case Some(a) =>
      match SaveOutcomeOf(t.byUrl, a, rejects)
      case SaveFailed => t
      case Duplicate => t.(duplicates := t.duplicates + 1)
      case Created => Tally(t.byUrl[a.originalUrl := a], t.saved + 1, t.duplicates)
  }

  /** The item loop over the mapped items `ms`, in feed order, from the tally `t`. */
  function Run(ms: seq<Option<Article>>, t: Tally, rejects: Article -> bool): Tally
    decreases |ms|
  {
    if ms == [] then t
    else Process(Run(ms[..|ms| - 1], t, rejects), ms[|ms| - 1], rejects)
  }

  /** The mapped item is one the store takes: the mapping succeeded and the write is not refused. */
  predicate Accepted(m: Option<Article>, rejects: Article -> bool) {
    m.Some? && !rejects(m.value)
  }

  function AcceptedCount(ms: seq<Option<Article>>, rejects: Article -> bool): nat
    decreases |ms|
  {
    if ms == [] then 0
    else AcceptedCount(ms[..|ms| - 1], rejects) + (if Accepted(ms[|ms| - 1], rejects) then 1 else 0)
  }

  class RssService {
    const store: ArticleStore
    /** The HTML parser's tree for a description (`html.Parse`, not part of this model). */
    const htmlTree: string -> Node

    constructor(store: ArticleStore, htmlTree: string -> Node)
      ensures this.store == store && this.htmlTree == htmlTree
    {
      this.store := store;
      this.htmlTree := htmlTree;
    }

    /**
     * `IngestRSSFeedWithSource`: `feed` is the outcome of fetching and decoding the feed.
     * A failure there is returned before any item is looked at; otherwise the run
     * succeeds whatever happens to individual items.
     */
    method IngestRSSFeedWithSource(feed: Result<seq<Item>, FetchError>, sourceID: Option<string>)
      returns (err: Option<FetchError>, saved: nat, duplicates: nat)
      modifies store
      ensures feed.Err? ==> err == Some(feed.error) && saved == 0 && duplicates == 0 && store.byUrl == old(store.byUrl)
      ensures feed.Ok? ==>
                && err.None?
                && Run(MappedAll(feed.value, sourceID, htmlTree), Tally(old(store.byUrl), 0, 0), store.rejects)
                   == Tally(store.byUrl, saved, duplicates)
    {
      if feed.Err? {
        return Some(feed.error), 0, 0;
      }
      var items := feed.value;
      ghost var ms := MappedAll(items, sourceID, htmlTree);
      ghost var start := Tally(store.byUrl, 0, 0);
      saved, duplicates := 0, 0;
      var i := 0;
      while i < |items|
        invariant 0 <= i <= |items|
        invariant Run(ms[..i], start, store.rejects) == Tally(store.byUrl, saved, duplicates)
      {
        ghost var t := Tally(store.byUrl, saved, duplicates);
        saved, duplicates := SaveItem(items[i], sourceID, saved, duplicates);
        assert Tally(store.byUrl, saved, duplicates) == Process(t, ms[i], store.rejects);
        RunStep(ms, i, start, store.rejects);
        i := i + 1;
      }
      assert ms[..i] == ms;
      return None, saved, duplicates;
    }

    /** The body of the item loop: map the item, then save it. */
    method SaveItem(item: Item, sourceID: Option<string>, saved: nat, duplicates: nat) returns (saved': nat, duplicates': nat)
      modifies store
      ensures Tally(store.byUrl, saved', duplicates')
              == Process(Tally(old(store.byUrl), saved, duplicates), Mapped(item, sourceID, htmlTree), store.rejects)
    {
      var mapped := Mapped(item, sourceID, htmlTree);
      saved', duplicates' := SaveMapped(mapped, saved, duplicates);
    }

    /** The body of the item loop once the item is mapped: save it and bump the matching counter. */
    method SaveMapped(mapped: Option<Article>, saved: nat, duplicates: nat) returns (saved': nat, duplicates': nat)
      modifies store
      ensures Tally(store.byUrl, saved', duplicates') == Process(Tally(old(store.byUrl), saved, duplicates), mapped, store.rejects)
    {
      saved', duplicates' := saved, duplicates;
      if mapped.Some? {
        var created, failed := store.CreateArticleIfNotExists(mapped.value);
        if !failed {
          if created {
            saved' := saved + 1;
          } else {
            duplicates' := duplicates + 1;
          }
        }
      }
    }

    /** `IngestRSSFeed`: the same run with no source attached. */
    method IngestRSSFeed(feed: Result<seq<Item>, FetchError>) returns (err: Option<FetchError>, saved: nat, duplicates: nat)
      modifies store
      ensures feed.Err? ==> err == Some(feed.error) && saved == 0 && duplicates == 0 && store.byUrl == old(store.byUrl)
      ensures feed.Ok? ==>
                && err.None?
                && Run(MappedAll(feed.value, None, htmlTree), Tally(old(store.byUrl), 0, 0), store.rejects)
                   == Tally(store.byUrl, saved, duplicates)
    {
      err, saved, duplicates := IngestRSSFeedWithSource(feed, None);
    }
  }

  // ------------------------------------------------------------ properties of a run

  lemma RunStep(ms: seq<Option<Article>>, i: int, t: Tally, rejects: Article -> bool)
    requires 0 <= i < |ms|
    ensures Run(ms[..i + 1], t, rejects) == Process(Run(ms[..i], t, rejects), ms[i], rejects)
  {
    assert ms[..i + 1][..i] == ms[..i];
  }

  /** Each item bumps at most one counter: exactly the accepted items are counted. */
  lemma {:induction false} RunCounts(ms: seq<Option<Article>>, t: Tally, rejects: Article -> bool)
    ensures var r := Run(ms, t, rejects);
            r.saved + r.duplicates == t.saved + t.duplicates + AcceptedCount(ms, rejects)
    ensures AcceptedCount(ms, rejects) <= |ms|
    decreases |ms|
  {
    if ms != [] {
      RunCounts(ms[..|ms| - 1], t, rejects);
    }
  }

  lemma ProcessKeepsStore(t: Tally, m: Option<Article>, rejects: Article -> bool)
    ensures var r := Process(t, m, rejects);
            && (forall url :: url in t.byUrl ==> url in r.byUrl && r.byUrl[url] == t.byUrl[url])
            && |r.byUrl| == |t.byUrl| + r.saved - t.saved
            && r.saved >= t.saved
            && (Accepted(m, rejects) ==> m.value.originalUrl in r.byUrl)
  {
  }

  /** A run never loses or overwrites a stored article, and each new one is a counted save. */
  lemma {:induction false} RunKeepsStore(ms: seq<Option<Article>>, t: Tally, rejects: Article -> bool)
    ensures var r := Run(ms, t, rejects);
            && (forall url :: url in t.byUrl ==> url in r.byUrl && r.byUrl[url] == t.byUrl[url])
            && |r.byUrl| == |t.byUrl| + r.saved - t.saved
            && r.saved >= t.saved
    decreases |ms|
  {
    if ms != [] {
      RunKeepsStore(ms[..|ms| - 1], t, rejects);
      ProcessKeepsStore(Run(ms[..|ms| - 1], t, rejects), ms[|ms| - 1], rejects);
    }
  }

  /** Every article the run adds carries the given source. */
  lemma {:induction false} RunTagsSource(items: seq<Item>, t: Tally, sourceID: Option<string>, htmlTree: string -> Node,
                                         rejects: Article -> bool)
    requires sourceID.Some?
    ensures var r := Run(MappedAll(items, sourceID, htmlTree), t, rejects);
            forall url :: url in r.byUrl && url !in t.byUrl ==> r.byUrl[url].sourceID == sourceID
    decreases |items|
  {
    if items != [] {
      var front := items[..|items| - 1];
      var ms := MappedAll(items, sourceID, htmlTree);
      assert ms[..|items| - 1] == MappedAll(front, sourceID, htmlTree);
      RunTagsSource(front, t, sourceID, htmlTree, rejects);
      assert ms[|items| - 1] == Mapped(items[|items| - 1], sourceID, htmlTree);
      ProcessTags(Run(ms[..|items| - 1], t, rejects), ms[|items| - 1], sourceID, rejects);
    }
  }

  /** One step keeps every stored article and adds only one tagged with `sourceID`. */
  lemma ProcessTags(t: Tally, m: Option<Article>, sourceID: Option<string>, rejects: Article -> bool)
    requires m.Some? ==> m.value.sourceID == sourceID
    ensures var r := Process(t, m, rejects);
            forall url :: url in r.byUrl ==> (url in t.byUrl && r.byUrl[url] == t.byUrl[url]) || r.byUrl[url].sourceID == sourceID
  {
  }

  /** After a run, every accepted item's URL is stored. */
  lemma {:induction false} RunStoresAccepted(ms: seq<Option<Article>>, t: Tally, rejects: Article -> bool)
    ensures var r := Run(ms, t, rejects);
            forall k :: 0 <= k < |ms| && Accepted(ms[k], rejects) ==> ms[k].value.originalUrl in r.byUrl
    decreases |ms|
  {
    if ms != [] {
      var front := ms[..|ms| - 1];
      var mid := Run(front, t, rejects);
      RunStoresAccepted(front, t, rejects);
      ProcessKeepsStore(mid, ms[|ms| - 1], rejects);
      forall k | 0 <= k < |ms| - 1
        ensures ms[k] == front[k]
      {
      }
    }
  }

  /** A run over items whose URLs are all stored already only counts duplicates. */
  lemma {:induction false} RunOverStored(ms: seq<Option<Article>>, t: Tally, rejects: Article -> bool)
    requires forall k :: 0 <= k < |ms| && Accepted(ms[k], rejects) ==> ms[k].value.originalUrl in t.byUrl
    ensures Run(ms, t, rejects) == t.(duplicates := t.duplicates + AcceptedCount(ms, rejects))
    decreases |ms|
  {
    if ms != [] {
      var front := ms[..|ms| - 1];
      forall k | 0 <= k < |front| && Accepted(front[k], rejects)
        ensures front[k].value.originalUrl in t.byUrl
      {
        assert front[k] == ms[k];
      }
      RunOverStored(front, t, rejects);
    }
  }

  /**
   * Ingesting the same feed twice: the second run saves nothing, and counts as
   * duplicates everything the first run saved or found duplicated.
   */
  lemma SecondRunSavesNothing(ms: seq<Option<Article>>, store: map<string, Article>, rejects: Article -> bool)
    ensures var first := Run(ms, Tally(store, 0, 0), rejects);
            var second := Run(ms, Tally(first.byUrl, 0, 0), rejects);
            && second.saved == 0
            && second.duplicates == first.saved + first.duplicates
            && second.byUrl == first.byUrl
  {
    var first := Run(ms, Tally(store, 0, 0), rejects);
    RunStoresAccepted(ms, Tally(store, 0, 0), rejects);
    RunOverStored(ms, Tally(first.byUrl, 0, 0), rejects);
    RunCounts(ms, Tally(store, 0, 0), rejects);
  }
}
