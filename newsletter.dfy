/**
 * The newsletter service (pkg/services/newsletter_service.go): choosing the
 * featured articles, building one mail per subscriber and handing them to the
 * bulk send, and rendering a preview. The repositories, the clock and the
 * mail service's effects arrive as parameters: the stored articles and
 * subscribers as the repository's result, today's date and year as values,
 * and the renderer, delivery and header orders as the email model takes them.
 */
module Newsletter {

  import opened Wrappers
  import opened Strings
  import opened RssArticle
  import opened Email

  /** The subscriber fields the service reads. */
  datatype Subscriber = Subscriber(email: string, preferredName: string)

  // -------------------------------------------------------- featured articles

  /** The featured articles, in repository order. */
  function FeaturedOf(articles: seq<Article>): (r: seq<Article>)
    ensures |r| <= |articles|
    ensures forall i :: 0 <= i < |r| ==> r[i].isFeatured
    decreases |articles|
  {
    if articles == [] then []
    else
      var last := articles[|articles| - 1];
      FeaturedOf(articles[..|articles| - 1]) + (if last.isFeatured then [last] else [])
  }

  /** At most `n` elements from the front; none for `n <= 0`. */
  function Take<T>(s: seq<T>, n: int): (r: seq<T>)
    ensures |r| == (if n <= 0 then 0 else if n >= |s| then |s| else n)
    ensures forall i :: 0 <= i < |r| ==> r[i] == s[i]
  {
    if n <= 0 then [] else if n >= |s| then s else s[..n]
  }

  /** The list the filter loop builds: a featured article is kept while fewer than `limit` are. */
  function Selected(articles: seq<Article>, limit: int): (r: seq<Article>)
    ensures |r| <= |articles|
    ensures |r| <= (if limit <= 0 then 0 else limit)
    ensures forall i :: 0 <= i < |r| ==> r[i].isFeatured
    decreases |articles|
  {
    if articles == [] then []
    else
      var front := Selected(articles[..|articles| - 1], limit);
      var last := articles[|articles| - 1];
      if last.isFeatured && |front| < limit then front + [last] else front
  }

  /** The filter loop keeps the first `limit` featured articles: it never skips one to take a later one. */
  lemma {:induction false} SelectedIsFirstFeatured(articles: seq<Article>, limit: int)
    ensures Selected(articles, limit) == Take(FeaturedOf(articles), limit)
    decreases |articles|
  {
    if articles != [] {
      var front := articles[..|articles| - 1];
      var last := articles[|articles| - 1];
      var f := Selected(front, limit);
      var all := FeaturedOf(front);
      SelectedIsFirstFeatured(front, limit);
      if last.isFeatured {
        assert FeaturedOf(articles) == all + [last];
        if |f| < limit {
          assert f == all;
        } else if limit > 0 {
          assert |f| == limit && limit <= |all|;
          assert Take(all + [last], limit) == (all + [last])[..limit];
          assert (all + [last])[..limit] == all[..limit];
        }
      }
    }
  }

  /** The selection holds only featured articles, at most `limit` of them, and every featured one when there are that few. */
  lemma SelectionBounds(articles: seq<Article>, limit: int)
    ensures forall a :: a in Selected(articles, limit) ==> a.isFeatured && a in articles
    ensures |Selected(articles, limit)| <= (if limit <= 0 then 0 else limit)
    ensures |FeaturedOf(articles)| <= limit ==> Selected(articles, limit) == FeaturedOf(articles)
    ensures Selected(articles, limit) == [] <==> limit <= 0 || FeaturedOf(articles) == []
  {
    SelectedIsFirstFeatured(articles, limit);
    forall a | a in Selected(articles, limit) ensures a.isFeatured && a in articles {
      FeaturedMembers(articles, a);
    }
  }

  /** The featured list holds exactly the featured articles. */
  lemma {:induction false} FeaturedMembers(articles: seq<Article>, a: Article)
    ensures a in FeaturedOf(articles) <==> a in articles && a.isFeatured
    decreases |articles|
  {
    if articles != [] {
      var front := articles[..|articles| - 1];
      FeaturedMembers(front, a);
      assert articles == front + [articles[|articles| - 1]];
    }
  }

  /** The filter loop of `SendNewsletterWithLatestArticles` and `GenerateNewsletterPreview`. */
  method SelectFeatured(articles: seq<Article>, limit: int) returns (featured: seq<Article>)
    ensures featured == Selected(articles, limit)
  {
    featured := [];
    var i := 0;
    while i < |articles|
      invariant 0 <= i <= |articles|
      invariant featured == Selected(articles[..i], limit)
    {
      if articles[i].isFeatured && |featured| < limit {
        featured := featured + [articles[i]];
      }
      assert articles[..i + 1][..i] == articles[..i];
      i := i + 1;
    }
    assert articles[..i] == articles;
  }

  // ---------------------------------------------------- the mails, as written

  /** A Go map value: every holder of the reference sees the same entries. */
  class TemplateMap {
    var entries: map<string, TemplateValue>

    constructor(entries: map<string, TemplateValue>)
      ensures this.entries == entries
    {
      this.entries := entries;
    }
  }

  /** An `EmailData` as the loop builds it: the template data is the shared map, not a copy. */
  datatype Draft = Draft(toEmail: string, toName: string, subject: string, templateName: string,
                         templateData: TemplateMap?, plainTextBody: string)

  /** The draft built for one subscriber, holding the map reference `data` when templated. */
  function DraftFor(subject: string, content: string, useTemplate: bool, data: TemplateMap?, s: Subscriber): Draft {
    if useTemplate then Draft(s.email, s.preferredName, subject, "newsletter", data, "")
    else Draft(s.email, s.preferredName, subject, "", null, content)
  }

  /**
   * The loop of `SendNewsletter` as written: every draft holds the one
   * `templateData` map, and each pass overwrites its `SubscriberName`.
   * `shared` is that map after the loop (created on first use when the
   * caller passed none).
   */
  method PrepareDraftsAsWritten(subject: string, content: string, useTemplate: bool, templateData: TemplateMap?,
                                subscribers: seq<Subscriber>) returns (drafts: seq<Draft>, shared: TemplateMap?)
    modifies templateData
    ensures |drafts| == |subscribers|
    ensures forall i :: 0 <= i < |drafts| ==>
              drafts[i] == DraftFor(subject, content, useTemplate, if useTemplate then shared else null, subscribers[i])
    ensures useTemplate && subscribers != [] ==>
              && shared != null
              && (templateData != null ==> shared == templateData)
              && (forall i :: 0 <= i < |drafts| ==> drafts[i].templateData == shared)
              && shared.entries == (if templateData == null then map[] else old(templateData.entries))
                                     ["SubscriberName" := Text(subscribers[|subscribers| - 1].preferredName)]
  {
    drafts := [];
    shared := templateData;
    var i := 0;
    while i < |subscribers|
      invariant 0 <= i <= |subscribers|
      invariant |drafts| == i
      invariant forall k :: 0 <= k < i ==>
                  drafts[k] == DraftFor(subject, content, useTemplate, if useTemplate then shared else null, subscribers[k])
      invariant templateData != null ==> shared == templateData
      invariant useTemplate && i > 0 ==>
                  && shared != null
                  && (forall k :: 0 <= k < i ==> drafts[k].templateData == shared)
                  && shared.entries == (if templateData == null then map[] else old(templateData.entries))
                                         ["SubscriberName" := Text(subscribers[i - 1].preferredName)]
      invariant i == 0 ==> shared == templateData
      invariant i == 0 && templateData != null ==> shared.entries == old(templateData.entries)
      invariant shared == null || shared == templateData || fresh(shared)
    {
      var subscriber := subscribers[i];
      var draft := Draft(subscriber.email, subscriber.preferredName, subject, "", null, "");
      if useTemplate {
        draft := draft.(templateName := "newsletter");
        if shared == null {
          shared := new TemplateMap(map[]);
        }
        shared.entries := shared.entries["SubscriberName" := Text(subscriber.preferredName)];
        draft := draft.(templateData := shared);
      } else {
        draft := draft.(plainTextBody := content);
      }
      drafts := drafts + [draft];
      i := i + 1;
    }
  }

  /**
   * Two subscribers, Ann and Bob: Ann's mail, rendered once the loop is done,
   * greets Bob.
   */
  method SharedMapGreetsLastSubscriber() returns (annGreeting: TemplateValue)
    ensures annGreeting == Text("Bob")
  {
    var data := new TemplateMap(map[]);
    var drafts, shared := PrepareDraftsAsWritten("News", "", true, data,
                                                 [Subscriber("ann@example.com", "Ann"), Subscriber("bob@example.com", "Bob")]);
    var ann := drafts[0];
    annGreeting := ann.templateData.entries["SubscriberName"];
  }

  /**
   * The mail `SendBulkEmail` renders from a draft once the loop is done: a
   * templated draft is read through its map reference, which by then holds
   * the entries the last pass left, `lastName` as `SubscriberName` included.
   */
  function SentMail(subject: string, content: string, useTemplate: bool, templateData: Option<map<string, TemplateValue>>,
                    lastName: string, s: Subscriber): EmailData {
    if useTemplate then EmailData(s.email, s.preferredName, subject, "newsletter", GreetingData(templateData, lastName), "")
    else EmailData(s.email, s.preferredName, subject, "", map[], content)
  }

  /** The mails `SendNewsletter` sends, as written: every templated one carries the last subscriber's name. */
  function SentMails(subject: string, content: string, useTemplate: bool, templateData: Option<map<string, TemplateValue>>,
                     subscribers: seq<Subscriber>): (r: seq<EmailData>)
    requires subscribers != []
    ensures |r| == |subscribers|
    ensures forall i :: 0 <= i < |r| ==>
              && r[i].toEmail == subscribers[i].email && r[i].toName == subscribers[i].preferredName
              && r[i].subject == subject
              && (useTemplate ==> "SubscriberName" in r[i].templateData
                                  && r[i].templateData["SubscriberName"] == Text(subscribers[|subscribers| - 1].preferredName))
  {
    var lastName := subscribers[|subscribers| - 1].preferredName;
    seq(|subscribers|, i requires 0 <= i < |subscribers| => SentMail(subject, content, useTemplate, templateData, lastName, subscribers[i]))
  }

  /**
   * The drafts, read after the loop as the bulk send reads them. `data` is
   * the map the caller passed in, if any, and `shared` the map the loop left.
   */
  method ReadDrafts(subject: string, content: string, useTemplate: bool, templateData: Option<map<string, TemplateValue>>,
                    subscribers: seq<Subscriber>, drafts: seq<Draft>, shared: TemplateMap?) returns (mails: seq<EmailData>)
    requires subscribers != [] && |drafts| == |subscribers|
    requires forall i :: 0 <= i < |drafts| ==>
               drafts[i] == DraftFor(subject, content, useTemplate, if useTemplate then shared else null, subscribers[i])
    requires useTemplate ==>
               shared != null && shared.entries == GreetingData(templateData, subscribers[|subscribers| - 1].preferredName)
    ensures mails == SentMails(subject, content, useTemplate, templateData, subscribers)
  {
    var lastName := subscribers[|subscribers| - 1].preferredName;
    mails := [];
    var i := 0;
    while i < |drafts|
      invariant 0 <= i <= |drafts|
      invariant |mails| == i
      invariant forall k :: 0 <= k < i ==>
                  mails[k] == SentMail(subject, content, useTemplate, templateData, lastName, subscribers[k])
    {
      var d := drafts[i];
      var data := if d.templateData == null then map[] else d.templateData.entries;
      mails := mails + [EmailData(d.toEmail, d.toName, d.subject, d.templateName, data, d.plainTextBody)];
      i := i + 1;
    }
  }

  // ---------------------------------------------------- the mails, corrected

  /** The template data each mail is rendered with: the caller's entries and the subscriber's own name. */
  function GreetingData(templateData: Option<map<string, TemplateValue>>, name: string): map<string, TemplateValue> {
    (if templateData.Some? then templateData.value else map[])["SubscriberName" := Text(name)]
  }

  /** One mail per subscriber, each with its own copy of the template data. */
  function MailFor(subject: string, content: string, useTemplate: bool, templateData: Option<map<string, TemplateValue>>,
                   s: Subscriber): EmailData {
    if useTemplate then EmailData(s.email, s.preferredName, subject, "newsletter", GreetingData(templateData, s.preferredName), "")
    else EmailData(s.email, s.preferredName, subject, "", map[], content)
  }

  function MailsFor(subject: string, content: string, useTemplate: bool, templateData: Option<map<string, TemplateValue>>,
                    subscribers: seq<Subscriber>): (r: seq<EmailData>)
    ensures |r| == |subscribers|
    ensures forall i :: 0 <= i < |r| ==> r[i] == MailFor(subject, content, useTemplate, templateData, subscribers[i])
  {
    seq(|subscribers|, i requires 0 <= i < |subscribers| => MailFor(subject, content, useTemplate, templateData, subscribers[i]))
  }

  /** The `SendNewsletter` loop with the template data copied per subscriber. */
  method PrepareMails(subject: string, content: string, useTemplate: bool, templateData: Option<map<string, TemplateValue>>,
                      subscribers: seq<Subscriber>) returns (mails: seq<EmailData>)
    ensures mails == MailsFor(subject, content, useTemplate, templateData, subscribers)
  {
    mails := [];
    var i := 0;
    while i < |subscribers|
      invariant 0 <= i <= |subscribers|
      invariant |mails| == i
      invariant forall k :: 0 <= k < i ==> mails[k] == MailFor(subject, content, useTemplate, templateData, subscribers[k])
    {
      var subscriber := subscribers[i];
      var mail := EmailData(subscriber.email, subscriber.preferredName, subject, "", map[], "");
      if useTemplate {
        var data := if templateData.Some? then templateData.value else map[];
        mail := mail.(templateName := "newsletter", templateData := data["SubscriberName" := Text(subscriber.preferredName)]);
      } else {
        mail := mail.(plainTextBody := content);
      }
      mails := mails + [mail];
      i := i + 1;
    }
  }

  /**
   * Each subscriber gets one mail, in order, addressed and titled as given;
   * with the template it greets that subscriber by name and keeps the
   * caller's other entries; without, its body is the given content.
   */
  lemma MailsGreetTheirOwnSubscriber(subject: string, content: string, useTemplate: bool,
                                     templateData: Option<map<string, TemplateValue>>, subscribers: seq<Subscriber>, i: int, key: string)
    requires 0 <= i < |subscribers|
    ensures var m := MailsFor(subject, content, useTemplate, templateData, subscribers)[i];
            && m.toEmail == subscribers[i].email && m.toName == subscribers[i].preferredName && m.subject == subject
            && (useTemplate ==> m.templateName == "newsletter" && m.templateData["SubscriberName"] == Text(subscribers[i].preferredName))
            && ((useTemplate && templateData.Some? && key in templateData.value && key != "SubscriberName") ==>
                  key in m.templateData && m.templateData[key] == templateData.value[key])
            && (!useTemplate ==> m.templateName == "" && m.plainTextBody == content)
  {
  }

  /**
   * The mails sent as written are the intended ones exactly when no template
   * is used or every subscriber shares the last one's preferred name.
   */
  lemma SentMatchesIntendedIff(subject: string, content: string, useTemplate: bool,
                               templateData: Option<map<string, TemplateValue>>, subscribers: seq<Subscriber>)
    requires subscribers != []
    ensures SentMails(subject, content, useTemplate, templateData, subscribers)
              == MailsFor(subject, content, useTemplate, templateData, subscribers)
            <==> !useTemplate || forall i :: 0 <= i < |subscribers| ==>
                                   subscribers[i].preferredName == subscribers[|subscribers| - 1].preferredName
  {
    var sent := SentMails(subject, content, useTemplate, templateData, subscribers);
    var intended := MailsFor(subject, content, useTemplate, templateData, subscribers);
    var lastName := subscribers[|subscribers| - 1].preferredName;
    if sent == intended && useTemplate {
      forall i | 0 <= i < |subscribers|
        ensures subscribers[i].preferredName == lastName
      {
        MailsGreetTheirOwnSubscriber(subject, content, useTemplate, templateData, subscribers, i, "");
        assert sent[i].templateData["SubscriberName"] == Text(lastName);
      }
    }
    if !useTemplate || forall i :: 0 <= i < |subscribers| ==> subscribers[i].preferredName == lastName {
      forall i | 0 <= i < |subscribers|
        ensures sent[i] == intended[i]
      {
        assert sent[i] == SentMail(subject, content, useTemplate, templateData, lastName, subscribers[i]);
      }
    }
  }

  // ------------------------------------------------------------------- sending

  /** The error when some mails fail. */
  function SomeFailed(n: nat): string {
    "failed to send some emails: " + IntToString(n) + " errors occurred"
  }

  /** The header orders of the mails' map walks, one per subscriber. */
  predicate OrdersFor(subscribers: Result<seq<Subscriber>, string>, orders: seq<seq<string>>) {
    && (forall i :: 0 <= i < |orders| ==> IsHeaderOrder(orders[i]))
    && (subscribers.Ok? ==> |orders| == |subscribers.value|)
  }

  /**
   * `SendNewsletter`: fetch the subscribers, refuse an empty list, build one
   * mail each and send them all; any failure makes the whole call fail.
   */
  method SendNewsletter(subject: string, content: string, useTemplate: bool, templateData: Option<map<string, TemplateValue>>,
                        subscribers: Result<seq<Subscriber>, string>, c: EmailConfig,
                        render: (string, map<string, TemplateValue>) -> Result<string, string>,
                        deliver: (string, string) -> Option<string>, orders: seq<seq<string>>) returns (err: Option<string>)
    requires OrdersFor(subscribers, orders)
    ensures subscribers.Err? ==> err == Some("failed to get subscribers: " + subscribers.error)
    ensures subscribers.Ok? && subscribers.value == [] ==> err == Some("no subscribers found")
    ensures subscribers.Ok? && subscribers.value != [] ==>
              var mails := SentMails(subject, content, useTemplate, templateData, subscribers.value);
              var errors := BulkErrors(c, mails, render, deliver, orders);
              && (err.None? <==> errors == [])
              && (err.Some? ==> err.value == SomeFailed(|errors|))
  {
    if subscribers.Err? {
      return Some("failed to get subscribers: " + subscribers.error);
    }
    if |subscribers.value| == 0 {
      return Some("no subscribers found");
    }
    var data: TemplateMap? := null;
    if templateData.Some? {
      data := new TemplateMap(templateData.value);
    }
    var drafts, shared := PrepareDraftsAsWritten(subject, content, useTemplate, data, subscribers.value);
    var mails := ReadDrafts(subject, content, useTemplate, templateData, subscribers.value, drafts, shared);
    var errors, _ := SendBulkEmail(c, mails, render, deliver, orders);
    if |errors| > 0 {
      return Some(SomeFailed(|errors|));
    }
    return None;
  }

  /** The template data of a scheduled newsletter: the chosen articles, today's date and year. */
  function NewsletterData(featured: seq<Article>, date: string, year: int): map<string, TemplateValue> {
    map["Articles" := ArticleList(featured), "Date" := Text(date), "Year" := Number(year)]
  }

  /**
   * `SendNewsletterWithLatestArticles`: choose up to `limit` featured
   * articles; with none there is nothing to send, otherwise the templated
   * newsletter goes out with them.
   */
  method SendNewsletterWithLatestArticles(subject: string, limit: int, articles: Result<seq<Article>, string>,
                                          date: string, year: int, subscribers: Result<seq<Subscriber>, string>,
                                          c: EmailConfig, render: (string, map<string, TemplateValue>) -> Result<string, string>,
                                          deliver: (string, string) -> Option<string>, orders: seq<seq<string>>)
    returns (err: Option<string>)
    requires OrdersFor(subscribers, orders)
    ensures articles.Err? ==> err == Some("failed to get articles: " + articles.error)
    ensures articles.Ok? && Selected(articles.value, limit) == [] ==> err == Some("no featured articles found")
    ensures articles.Ok? && Selected(articles.value, limit) != [] && subscribers.Err? ==>
              err == Some("failed to get subscribers: " + subscribers.error)
    ensures articles.Ok? && Selected(articles.value, limit) != [] && subscribers.Ok? && subscribers.value == [] ==>
              err == Some("no subscribers found")
    ensures articles.Ok? && Selected(articles.value, limit) != [] && subscribers.Ok? && subscribers.value != [] ==>
              var data := NewsletterData(Selected(articles.value, limit), date, year);
              var errors := BulkErrors(c, SentMails(subject, "", true, Some(data), subscribers.value), render, deliver, orders);
              && (err.None? <==> errors == [])
              && (err.Some? ==> err.value == SomeFailed(|errors|))
  {
    if articles.Err? {
      return Some("failed to get articles: " + articles.error);
    }
    var featured := SelectFeatured(articles.value, limit);
    if |featured| == 0 {
      return Some("no featured articles found");
    }
    var templateData := map["Articles" := ArticleList(featured), "Date" := Text(date), "Year" := Number(year)];
    err := SendNewsletter(subject, "", true, Some(templateData), subscribers, c, render, deliver, orders);
  }

  // ------------------------------------------------------------------- preview

  /** The preview's defaults before the caller's entries are merged in. */
  function PreviewDefaults(featured: seq<Article>, date: string, year: int): map<string, TemplateValue> {
    NewsletterData(featured, date, year)["SubscriberName" := Text("Preview User")]
  }

  /** The merge loop: each of the caller's entries is written over the defaults, in whatever order the walk takes. */
  method MergeInto(defaults: map<string, TemplateValue>, custom: map<string, TemplateValue>) returns (merged: map<string, TemplateValue>)
    ensures merged == defaults + custom
  {
    merged := defaults;
    var remaining := custom.Keys;
    while remaining != {}
      invariant remaining <= custom.Keys
      invariant merged.Keys == defaults.Keys + (custom.Keys - remaining)
      invariant forall k :: k in merged ==>
                  merged[k] == (if k in custom && k !in remaining then custom[k] else defaults[k])
      decreases |remaining|
    {
      var key :| key in remaining;
      merged := merged[key := custom[key]];
      remaining := remaining - {key};
    }
  }

  /**
   * `GenerateNewsletterPreview`: the featured articles (possibly none), the
   * defaults with the caller's entries over them, rendered with the
   * `newsletter` template.
   */
  method GenerateNewsletterPreview(limit: int, customData: map<string, TemplateValue>, articles: Result<seq<Article>, string>,
                                   date: string, year: int, render: (string, map<string, TemplateValue>) -> Result<string, string>)
    returns (r: Result<string, string>)
    ensures articles.Err? ==> r == Err("failed to get articles: " + articles.error)
    ensures articles.Ok? ==> r == render("newsletter", PreviewDefaults(Selected(articles.value, limit), date, year) + customData)
  {
    if articles.Err? {
      return Err("failed to get articles: " + articles.error);
    }
    var featured := SelectFeatured(articles.value, limit);
    var templateData := map["Articles" := ArticleList(featured), "Date" := Text(date), "Year" := Number(year),
                            "SubscriberName" := Text("Preview User")];
    templateData := MergeInto(templateData, customData);
    r := render("newsletter", templateData);
  }

  /**
   * In the preview the caller's entries win key by key, the subscriber name
   * included; the defaults fill the rest; and no featured article is no error.
   */
  lemma PreviewMerge(featured: seq<Article>, date: string, year: int, custom: map<string, TemplateValue>, key: string)
    ensures var merged := PreviewDefaults(featured, date, year) + custom;
            && (key in custom ==> merged[key] == custom[key])
            && ("SubscriberName" !in custom ==> merged["SubscriberName"] == Text("Preview User"))
            && ("Articles" !in custom ==> merged["Articles"] == ArticleList(featured))
            && (key in merged <==> key in custom || key in {"Articles", "Date", "Year", "SubscriberName"})
  {
  }

  /** Sending needs a featured article; the preview renders without one. */
  lemma NoFeaturedSendVersusPreview(articles: seq<Article>, limit: int)
    requires forall i :: 0 <= i < |articles| ==> !articles[i].isFeatured
    ensures Selected(articles, limit) == []
  {
    SelectedIsFirstFeatured(articles, limit);
    assert FeaturedOf(articles) == [] by {
      if FeaturedOf(articles) != [] {
        var a := FeaturedOf(articles)[0];
        FeaturedMembers(articles, a);
      }
    }
  }
}
