/**
 * The scheduled jobs (`CronService` in pkg/services/cron_service.go): the
 * six-field cron specifications the service registers, the newsletter
 * article limits, and the batch that ingests the feed of every source.
 */
module Cron {

  import opened Wrappers
  import opened Strings
  import opened RssArticle
  import opened RssIngest
  import opened HtmlImages
  import Newsletter

  // ------------------------------------------------------------ cron specifications

  /** A six-field cron specification (seconds first), fields separated by single spaces. */
  function CronFields(second: string, minute: string, hour: string, dom: string, month: string, dow: string): string {
    Join([second, minute, hour, dom, month, dow], ' ')
  }

  /** The job the service registers. */
  datatype Job = IngestAllFeeds | WeeklyNewsletter | DailyNewsletter | MonthlyNewsletter

  /** Every hour, on the hour. */
  const HourlySpec: string := "0 0 * * * *"

  /** Every day at `hour:minute`. */
  function DailySpec(hour: int, minute: int): string
  {
    "0 " + IntToString(minute) + " " + IntToString(hour) + " * * *"
  }

  /** Every week on `dayOfWeek` (0 is Sunday) at `hour:minute`. */
  function WeeklySpec(dayOfWeek: int, hour: int, minute: int): string
  {
    "0 " + IntToString(minute) + " " + IntToString(hour) + " * * " + IntToString(dayOfWeek)
  }

  /** Every month on `dayOfMonth` at `hour:minute`. */
  function MonthlySpec(dayOfMonth: int, hour: int, minute: int): string
  {
    "0 " + IntToString(minute) + " " + IntToString(hour) + " " + IntToString(dayOfMonth) + " * *"
  }

  lemma IntToStringHasNoSpace(n: int)
    ensures ' ' !in IntToString(n)
  {
    var r := IntToString(n);
    forall k | 0 <= k < |r|
      ensures r[k] != ' '
    {
      if n < 0 {
        if k == 0 {
          assert r[k] == '-';
        } else {
          assert r[k] == NatToString(-n)[k - 1];
          assert IsDigit(r[k]);
        }
      } else {
        assert IsDigit(r[k]);
      }
    }
  }

  lemma JoinSix(a: string, b: string, c: string, d: string, e: string, f: string)
    ensures CronFields(a, b, c, d, e, f) == a + " " + b + " " + c + " " + d + " " + e + " " + f
  {
    assert [e, f][1..] == [f];
    assert Join([e, f], ' ') == e + " " + f;
    assert [d, e, f][1..] == [e, f];
    assert Join([d, e, f], ' ') == d + " " + e + " " + f;
    assert [c, d, e, f][1..] == [d, e, f];
    assert Join([c, d, e, f], ' ') == c + " " + d + " " + e + " " + f;
    assert [b, c, d, e, f][1..] == [c, d, e, f];
    assert Join([b, c, d, e, f], ' ') == b + " " + c + " " + d + " " + e + " " + f;
    assert [a, b, c, d, e, f][1..] == [b, c, d, e, f];
  }

  /** A specification built from integer fields splits back into those fields, each reading back as its number. */
  lemma CronFieldsSplit(second: string, minute: string, hour: string, dom: string, month: string, dow: string)
    requires ' ' !in second && ' ' !in minute && ' ' !in hour && ' ' !in dom && ' ' !in month && ' ' !in dow
    ensures Split(CronFields(second, minute, hour, dom, month, dow), ' ') == [second, minute, hour, dom, month, dow]
  {
    SplitJoin([second, minute, hour, dom, month, dow], ' ');
  }

  /** The hourly specification is second 0 and minute 0 of every hour. */
  lemma HourlySpecJoined()
    ensures HourlySpec == CronFields("0", "0", "*", "*", "*", "*")
  {
    JoinSix("0", "0", "*", "*", "*", "*");
    assert "0" + " " + "0" + " " + "*" + " " + "*" + " " + "*" + " " + "*" == HourlySpec;
  }

  /** The hourly specification splits into its six fields. */
  lemma HourlySpecFields()
    ensures Split(HourlySpec, ' ') == ["0", "0", "*", "*", "*", "*"]
  {
    HourlySpecJoined();
    CronFieldsSplit("0", "0", "*", "*", "*", "*");
  }

  /** The daily specification carries the minute and the hour in fields two and three. */
  lemma DailySpecFields(hour: int, minute: int)
    ensures var f := Split(DailySpec(hour, minute), ' ');
            && |f| == 6 && f[0] == "0" && f[3] == "*" && f[4] == "*" && f[5] == "*"
            && ParseInt(f[1]) == Some(minute) && ParseInt(f[2]) == Some(hour)
  {
    IntToStringHasNoSpace(hour);
    IntToStringHasNoSpace(minute);
    var m, h := IntToString(minute), IntToString(hour);
    JoinSix("0", m, h, "*", "*", "*");
    assert "0 " + m + " " + h + " * * *" == "0" + " " + m + " " + h + " " + "*" + " " + "*" + " " + "*";
    CronFieldsSplit("0", IntToString(minute), IntToString(hour), "*", "*", "*");
    IntToStringRoundTrip(hour);
    IntToStringRoundTrip(minute);
  }

  /** The weekly specification carries the day of the week in the last field. */
  lemma WeeklySpecFields(dayOfWeek: int, hour: int, minute: int)
    ensures var f := Split(WeeklySpec(dayOfWeek, hour, minute), ' ');
            && |f| == 6 && f[0] == "0" && f[3] == "*" && f[4] == "*"
            && ParseInt(f[1]) == Some(minute) && ParseInt(f[2]) == Some(hour) && ParseInt(f[5]) == Some(dayOfWeek)
  {
    IntToStringHasNoSpace(dayOfWeek);
    IntToStringHasNoSpace(hour);
    IntToStringHasNoSpace(minute);
    var m, h, w := IntToString(minute), IntToString(hour), IntToString(dayOfWeek);
    JoinSix("0", m, h, "*", "*", w);
    assert "0 " + m + " " + h + " * * " + w == "0" + " " + m + " " + h + " " + "*" + " " + "*" + " " + w;
    CronFieldsSplit("0", IntToString(minute), IntToString(hour), "*", "*", IntToString(dayOfWeek));
    IntToStringRoundTrip(dayOfWeek);
    IntToStringRoundTrip(hour);
    IntToStringRoundTrip(minute);
  }

  /** The monthly specification carries the day of the month in the fourth field. */
  lemma MonthlySpecFields(dayOfMonth: int, hour: int, minute: int)
    ensures var f := Split(MonthlySpec(dayOfMonth, hour, minute), ' ');
            && |f| == 6 && f[0] == "0" && f[4] == "*" && f[5] == "*"
            && ParseInt(f[1]) == Some(minute) && ParseInt(f[2]) == Some(hour) && ParseInt(f[3]) == Some(dayOfMonth)
  {
    IntToStringHasNoSpace(dayOfMonth);
    IntToStringHasNoSpace(hour);
    IntToStringHasNoSpace(minute);
    var m, h, d := IntToString(minute), IntToString(hour), IntToString(dayOfMonth);
    JoinSix("0", m, h, d, "*", "*");
    assert "0 " + m + " " + h + " " + d + " * *" == "0" + " " + m + " " + h + " " + d + " " + "*" + " " + "*";
    CronFieldsSplit("0", IntToString(minute), IntToString(hour), IntToString(dayOfMonth), "*", "*");
    IntToStringRoundTrip(dayOfMonth);
    IntToStringRoundTrip(hour);
    IntToStringRoundTrip(minute);
  }

  /**
   * How many featured articles each scheduled newsletter asks for: 5 daily,
   * 10 weekly, 20 monthly.
   */
  function ArticleLimit(job: Job): (r: nat)
    requires job != IngestAllFeeds
    ensures 5 <= r <= 20
    ensures job == DailyNewsletter ==> r == 5
    ensures job == WeeklyNewsletter ==> r == 10
    ensures job == MonthlyNewsletter <==> r == 20
  {
    match job
    case WeeklyNewsletter => 10
    case DailyNewsletter => 5
    case MonthlyNewsletter => 20
  }

  /** A smaller limit takes a prefix of what a larger one takes. */
  lemma SelectedNests(articles: seq<Article>, m: int, n: int)
    requires m <= n
    ensures Newsletter.Selected(articles, m) <= Newsletter.Selected(articles, n)
  {
    var f := Newsletter.FeaturedOf(articles);
    Newsletter.SelectedIsFirstFeatured(articles, m);
    Newsletter.SelectedIsFirstFeatured(articles, n);
    var a, b := Newsletter.Take(f, m), Newsletter.Take(f, n);
    assert a == b[..|a|];
  }

  /**
   * On the same stored articles, the daily newsletter's articles open the
   * weekly one's, which open the monthly one's.
   */
  lemma NewslettersNest(articles: seq<Article>)
    ensures var daily := Newsletter.Selected(articles, ArticleLimit(DailyNewsletter));
            var weekly := Newsletter.Selected(articles, ArticleLimit(WeeklyNewsletter));
            var monthly := Newsletter.Selected(articles, ArticleLimit(MonthlyNewsletter));
            && daily <= weekly && weekly <= monthly
            && |daily| <= 5 && |weekly| <= 10 && |monthly| <= 20
  {
    SelectedNests(articles, 5, 10);
    SelectedNests(articles, 10, 20);
  }

  // ------------------------------------------------------------ the ingestion batch

  /** A news source and the feed it publishes (an empty URL when it has none). */
  datatype Source = Source(id: string, name: string, rssFeedUrl: string)

  /** The sources that have a feed, in list order. */
  function Feeds(sources: seq<Source>): (r: seq<Source>)
    ensures |r| <= |sources|
    ensures forall k :: 0 <= k < |r| ==> r[k].rssFeedUrl != ""
    decreases |sources|
  {
    if sources == [] then []
    else
      var last := sources[|sources| - 1];
      Feeds(sources[..|sources| - 1]) + (if last.rssFeedUrl != "" then [last] else [])
  }

  /** How many of the feeds fail to fetch or decode. */
  function FailedFeeds(sources: seq<Source>, fetch: string -> Result<seq<Item>, FetchError>): nat
    decreases |sources|
  {
    if sources == [] then 0
    else
      var last := sources[|sources| - 1];
      FailedFeeds(sources[..|sources| - 1], fetch) + (if last.rssFeedUrl != "" && fetch(last.rssFeedUrl).Err? then 1 else 0)
  }

  /** The store after ingesting the feeds of `sources` one after the other. */
  function BatchStore(sources: seq<Source>, byUrl: map<string, Article>, fetch: string -> Result<seq<Item>, FetchError>,
                      htmlTree: string -> Node, rejects: Article -> bool): map<string, Article>
    decreases |sources|
  {
    if sources == [] then byUrl
    else
      BatchStep(BatchStore(sources[..|sources| - 1], byUrl, fetch, htmlTree, rejects), sources[|sources| - 1],
                fetch, htmlTree, rejects)
  }

  /** The store after ingesting the feed of one source. */
  function BatchStep(byUrl: map<string, Article>, source: Source, fetch: string -> Result<seq<Item>, FetchError>,
                     htmlTree: string -> Node, rejects: Article -> bool): map<string, Article>
  {
    if source.rssFeedUrl == "" || fetch(source.rssFeedUrl).Err? then byUrl
    else Run(MappedAll(fetch(source.rssFeedUrl).value, Some(source.id), htmlTree), Tally(byUrl, 0, 0), rejects).byUrl
  }

  /** Why a schedule could not be registered: the scheduler refused the specification. */
  datatype ScheduleError = BadSpec(spec: string)

  class CronService {
    const rss: RssService
    /** The outcome of fetching and decoding a feed URL (HTTP and XML, not part of this model). */
    const fetch: string -> Result<seq<Item>, FetchError>
    /** Which specifications the cron library's parser accepts (not part of this model). */
    const accepts: string -> bool
    /** The registered jobs with their specifications, in registration order. */
    var jobs: seq<(string, Job)>
    /** The sources handed to feed ingestion so far, in call order. */
    var ingested: seq<Source>

    constructor(rss: RssService, fetch: string -> Result<seq<Item>, FetchError>, accepts: string -> bool)
      ensures this.rss == rss && this.fetch == fetch && this.accepts == accepts
      ensures jobs == [] && ingested == []
    {
      this.rss := rss;
      this.fetch := fetch;
      this.accepts := accepts;
      jobs := [];
      ingested := [];
    }

    /** `cron.AddFunc`: registers the job unless its specification is refused. */
    method AddFunc(spec: string, job: Job) returns (err: Option<ScheduleError>)
      modifies this
      ensures err.None? <==> accepts(spec)
      ensures err.Some? ==> err.value == BadSpec(spec)
      ensures jobs == (if accepts(spec) then old(jobs) + [(spec, job)] else old(jobs))
      ensures ingested == old(ingested)
    {
      if !accepts(spec) {
        return Some(BadSpec(spec));
      }
      jobs := jobs + [(spec, job)];
      return None;
    }

    /** `ScheduleRSSIngestion`: feed ingestion every hour. */
    method ScheduleRSSIngestion() returns (err: Option<ScheduleError>)
      modifies this
      ensures jobs == (if accepts(HourlySpec) then old(jobs) + [(HourlySpec, IngestAllFeeds)] else old(jobs))
      ensures err.None? <==> accepts(HourlySpec)
      ensures ingested == old(ingested)
    {
      err := AddFunc(HourlySpec, IngestAllFeeds);
    }

    /** `ScheduleRSSIngestionDaily`: feed ingestion every day at `hour:minute`. */
    method ScheduleRSSIngestionDaily(hour: int, minute: int) returns (err: Option<ScheduleError>)
      modifies this
      ensures var spec := DailySpec(hour, minute);
              && jobs == (if accepts(spec) then old(jobs) + [(spec, IngestAllFeeds)] else old(jobs))
              && (err.None? <==> accepts(spec))
      ensures ingested == old(ingested)
    {
      err := AddFunc(DailySpec(hour, minute), IngestAllFeeds);
    }

    /** `ScheduleNewsletterWeekly`. */
    method ScheduleNewsletterWeekly(dayOfWeek: int, hour: int, minute: int) returns (err: Option<ScheduleError>)
      modifies this
      ensures var spec := WeeklySpec(dayOfWeek, hour, minute);
              && jobs == (if accepts(spec) then old(jobs) + [(spec, WeeklyNewsletter)] else old(jobs))
              && (err.None? <==> accepts(spec))
      ensures ingested == old(ingested)
    {
      err := AddFunc(WeeklySpec(dayOfWeek, hour, minute), WeeklyNewsletter);
    }

    /** `ScheduleNewsletterDaily`. */
    method ScheduleNewsletterDaily(hour: int, minute: int) returns (err: Option<ScheduleError>)
      modifies this
      ensures var spec := DailySpec(hour, minute);
              && jobs == (if accepts(spec) then old(jobs) + [(spec, DailyNewsletter)] else old(jobs))
              && (err.None? <==> accepts(spec))
      ensures ingested == old(ingested)
    {
      err := AddFunc(DailySpec(hour, minute), DailyNewsletter);
    }

    /** `ScheduleNewsletterMonthly`. */
    method ScheduleNewsletterMonthly(dayOfMonth: int, hour: int, minute: int) returns (err: Option<ScheduleError>)
      modifies this
      ensures var spec := MonthlySpec(dayOfMonth, hour, minute);
              && jobs == (if accepts(spec) then old(jobs) + [(spec, MonthlyNewsletter)] else old(jobs))
              && (err.None? <==> accepts(spec))
      ensures ingested == old(ingested)
    {
      err := AddFunc(MonthlySpec(dayOfMonth, hour, minute), MonthlyNewsletter);
    }

    /** One iteration of the batch: a source with a feed is ingested, one without is skipped. */
    method IngestSource(source: Source) returns (attempted: bool, failed: bool)
      modifies this, rss.store
      ensures jobs == old(jobs)
      ensures attempted == (source.rssFeedUrl != "")
      ensures failed == (source.rssFeedUrl != "" && fetch(source.rssFeedUrl).Err?)
      ensures ingested == old(ingested) + (if attempted then [source] else [])
      ensures rss.store.byUrl == BatchStep(old(rss.store.byUrl), source, fetch, rss.htmlTree, rss.store.rejects)
    {
      if source.rssFeedUrl == "" {
        return false, false;
      }
      ingested := ingested + [source];
      var err, _, _ := rss.IngestRSSFeedWithSource(fetch(source.rssFeedUrl), Some(source.id));
      return true, err.Some?;
    }

    /**
     * `ingestAllRSSFeeds`: `listed` is the outcome of listing the sources. Each source
     * with a feed is ingested in turn; a failing feed is counted and the batch goes on.
     */
    method IngestAllRSSFeeds(listed: Result<seq<Source>, string>) returns (successCount: nat, errorCount: nat)
      modifies this, rss.store
      ensures jobs == old(jobs)
      ensures listed.Err? ==>
                successCount == 0 && errorCount == 0 && ingested == old(ingested) && rss.store.byUrl == old(rss.store.byUrl)
      ensures listed.Ok? ==>
                && ingested == old(ingested) + Feeds(listed.value)
                && successCount + errorCount == |Feeds(listed.value)|
                && errorCount == FailedFeeds(listed.value, fetch)
                && rss.store.byUrl == BatchStore(listed.value, old(rss.store.byUrl), fetch, rss.htmlTree, rss.store.rejects)
    {
      successCount, errorCount := 0, 0;
      if listed.Err? || listed.value == [] {
        return;
      }
      var sources := listed.value;
      ghost var start := rss.store.byUrl;
      var i := 0;
      while i < |sources|
        invariant 0 <= i <= |sources|
        invariant jobs == old(jobs)
        invariant ingested == old(ingested) + Feeds(sources[..i])
        invariant successCount + errorCount == |Feeds(sources[..i])|
        invariant errorCount == FailedFeeds(sources[..i], fetch)
        invariant rss.store.byUrl == BatchStore(sources[..i], start, fetch, rss.htmlTree, rss.store.rejects)
      {
        var attempted, failed := IngestSource(sources[i]);
        BatchPrefix(sources, i, start, fetch, rss.htmlTree, rss.store.rejects);
        if failed {
          errorCount := errorCount + 1;
        } else if attempted {
          successCount := successCount + 1;
        }
        i := i + 1;
      }
      assert sources[..i] == sources;
    }
  }

  // ------------------------------------------------------------ properties of the batch

  lemma BatchPrefix(sources: seq<Source>, i: int, byUrl: map<string, Article>,
                    fetch: string -> Result<seq<Item>, FetchError>, htmlTree: string -> Node, rejects: Article -> bool)
    requires 0 <= i < |sources|
    ensures var s := sources[i];
            && Feeds(sources[..i + 1]) == Feeds(sources[..i]) + (if s.rssFeedUrl != "" then [s] else [])
            && FailedFeeds(sources[..i + 1], fetch)
               == FailedFeeds(sources[..i], fetch) + (if s.rssFeedUrl != "" && fetch(s.rssFeedUrl).Err? then 1 else 0)
            && BatchStore(sources[..i + 1], byUrl, fetch, htmlTree, rejects)
               == BatchStep(BatchStore(sources[..i], byUrl, fetch, htmlTree, rejects), s, fetch, htmlTree, rejects)
  {
    assert sources[..i + 1][..i] == sources[..i];
  }

  /** Feed selection distributes over concatenation: each part keeps its own feeds in order. */
  lemma {:induction false} FeedsAppend(a: seq<Source>, b: seq<Source>)
    ensures Feeds(a + b) == Feeds(a) + Feeds(b)
    decreases |b|
  {
    if b == [] {
      assert a + b == a;
    } else {
      assert (a + b)[..|a + b| - 1] == a + b[..|b| - 1];
      FeedsAppend(a, b[..|b| - 1]);
    }
  }

  /** A source with a feed is ingested; one without is skipped. */
  lemma FeedsOne(s: Source)
    ensures Feeds([s]) == (if s.rssFeedUrl != "" then [s] else [])
  {
    assert [s][..0] == [];
  }

  /** Where every source has a feed, every source is ingested, in order. */
  lemma {:induction false} FeedsAll(sources: seq<Source>)
    requires forall k :: 0 <= k < |sources| ==> sources[k].rssFeedUrl != ""
    ensures Feeds(sources) == sources
    decreases |sources|
  {
    if sources != [] {
      FeedsAll(sources[..|sources| - 1]);
      assert sources[..|sources| - 1] + [sources[|sources| - 1]] == sources;
    }
  }

  /** Failures are counted among the feeds only. */
  lemma {:induction false} FailedAmongFeeds(sources: seq<Source>, fetch: string -> Result<seq<Item>, FetchError>)
    ensures FailedFeeds(sources, fetch) <= |Feeds(sources)|
    decreases |sources|
  {
    if sources != [] {
      FailedAmongFeeds(sources[..|sources| - 1], fetch);
    }
  }

  /** The batch only adds articles: what the store held before is still there, unchanged. */
  lemma {:induction false} BatchKeepsStore(sources: seq<Source>, byUrl: map<string, Article>,
                                           fetch: string -> Result<seq<Item>, FetchError>,
                                           htmlTree: string -> Node, rejects: Article -> bool)
    ensures var r := BatchStore(sources, byUrl, fetch, htmlTree, rejects);
            forall url :: url in byUrl ==> url in r && r[url] == byUrl[url]
    decreases |sources|
  {
    if sources != [] {
      var prev := BatchStore(sources[..|sources| - 1], byUrl, fetch, htmlTree, rejects);
      BatchKeepsStore(sources[..|sources| - 1], byUrl, fetch, htmlTree, rejects);
      var last := sources[|sources| - 1];
      if last.rssFeedUrl != "" && fetch(last.rssFeedUrl).Err? == false {
        RunKeepsStore(MappedAll(fetch(last.rssFeedUrl).value, Some(last.id), htmlTree), Tally(prev, 0, 0), rejects);
      }
    }
  }
}
