# vuka-api core, modelled in Dafny

This project models the behaviour of the vuka-api news back end. It covers five areas:

- **RSS ingestion.** A feed item becomes an article. Its RFC 1123 publication date is parsed, one pass of `<img>` tag removal forms the summary, and its images are extracted from the description's HTML tree. The articles go into a create-if-absent store keyed by their URL, and the run counts new articles and duplicates. A scheduled batch does the same for every source that has a feed.
- **Scheduling.** The cron jobs that trigger ingestion and the newsletters, with the six-field cron specifications they register.
- **Mail.** SMTP configuration checks, message assembly, single and bulk sending, and the newsletter service: choosing the featured articles, preparing one mail per subscriber, and the preview merge.
- **Postman export.** Routes are collected from the router, grouped by path prefix, and turned into a Postman collection: one folder per prefix and one request per route, with headers, URL, body and test script.
- **Domain mappings.** The category keyword mapper, contact-info validation, the role-to-permissions response, and the TMDB film mapper.

Each Go file of this core has one Dafny module. Code that builds values with expressions becomes functions. Loops and objects updated in place become methods and classes: `CategoryMapper`, `RouteCollector`, `ArticleStore`, `RssService` and `CronService`. Each method is proved against a specification function, and the properties of that function are proved as lemmas.

Shared modules:

- `Strings` models the Go `strings` helpers the code calls.
- `Grouping` models `append` into a map of slices, and Go's `range` over a map.
- `RfcDates` models the parts of Go's `time.Parse` and `time.Format` that the code relies on.

A Go `range` over a map visits its keys in an unspecified order. The model makes that order an input: `Grouping.RangeOrder` yields some order that lists each key once, and the header orders of the mail messages are a parameter. Every result is proved for whatever order is taken.

The code and its documentation disagree in one place. `rss_service.go` calls `item.ToArticle()` with no argument, but `ToArticle` in `rss.go` takes a language. The model follows the call site: ingested articles get Go's zero value for the language, the empty string.

## Model

| member | source | states |
|---|---|---|
| Grouping.GroupBy | pkg/models/db/db_role.go:12-18 | the `append` into a map of slices builds exactly `GroupedBy` of the items |
| Grouping.ValuesUnder | pkg/postman/collector.go:123-126 | the values filed under a key are no more than the items |
| Grouping.GroupedKeys | pkg/postman/collector.go:120-128 | a key is present iff some item has that key |
| Grouping.GroupedInOrder | pkg/postman/collector.go:123-126 | each key maps to the values of its items, in item order |
| Grouping.ValuesUnderIff | pkg/postman/collector.go:123-126 | a value is listed under a key iff some item with that key carries it |
| Grouping.ValuesAbsent | pkg/postman/collector.go:120-128 | a key no item has lists nothing |
| Grouping.KeyOrder | pkg/postman/collector.go:120-128 | the keys in first-seen order, each once |
| Grouping.KeyOrderKeys | pkg/postman/collector.go:120-128 | that order lists exactly the keys of the grouped map |
| Grouping.GroupedTotal | pkg/postman/collector.go:120-128 | summed over all keys, the groups hold exactly as many values as there are items (nothing lost or duplicated) |
| Grouping.TotalUnlisted | pkg/postman/collector.go:125 | updating a key outside the list leaves the total unchanged |
| Grouping.TotalAppend | pkg/postman/collector.go:125 | adding a key to the list adds its group's size |
| Grouping.TotalGrow | pkg/postman/collector.go:125 | appending one value under a listed key raises the total by one |
| Grouping.RangeOrder | pkg/postman/generator.go:61 | Go's walk of a map: every key exactly once, nothing else |
| Grouping.Mapped | pkg/postman/generator.go:77-80 | the per-element loop result has one entry per input |
| Grouping.MappedSnoc | pkg/postman/generator.go:77-80 | one more loop pass appends the image of the next element |
| Grouping.MappedAt | pkg/postman/generator.go:77-80 | entry i is the image of input i |
| PostmanCollector.ExtractPathParams | pkg/postman/collector.go:70-80 | the parameters are the `{…}` segments of the `/`-split path, braces trimmed, in order |
| PostmanCollector.ParamsOfAppend | pkg/postman/collector.go:73-78 | parameter extraction distributes over concatenated segment lists |
| PostmanCollector.ParamsOfSound | pkg/postman/collector.go:73-78 | every parameter comes from some braced segment |
| PostmanCollector.ParamsOfComplete | pkg/postman/collector.go:73-78 | every braced segment yields its parameter |
| PostmanCollector.ParamsOfIff | pkg/postman/collector.go:73-78 | a name is a parameter iff some braced segment trims to it |
| PostmanCollector.ParamsHaveNoSlash | pkg/postman/collector.go:72-76 | no extracted parameter contains `/` |
| PostmanCollector.DetectAuth | pkg/postman/collector.go:84-95 | auth is required iff `/auth/` occurs nowhere in the path and `/user`, `/role` or `/permission` occurs somewhere |
| PostmanCollector.DetectAdmin | pkg/postman/collector.go:98-117 | admin iff some write method (POST/PUT/PATCH/DELETE) and the path mentions /user, /role or /permission |
| PostmanCollector.AdminImpliesAuth | pkg/postman/collector.go:84-117 | an admin route outside /auth/ needs auth; an /auth/ path never does; a path naming no account resource needs neither |
| PostmanCollector.ReadOnlyNotAdmin | pkg/postman/collector.go:103-115 | a GET-only route is never admin |
| PostmanCollector.InfosOf | pkg/postman/collector.go:36-64 | a route without a template or methods contributes nothing; otherwise one RouteInfo per method, carrying path, name, parameters and the two flags |
| PostmanCollector.AllInfosCount | pkg/postman/collector.go:35-67 | the walk collects one RouteInfo per method of each usable route |
| PostmanCollector.RouteCollector.constructor | pkg/postman/collector.go:28-32 | a new collector holds no routes |
| PostmanCollector.RouteCollector.CollectRoute | pkg/postman/collector.go:36-64 | one walk callback appends that route's infos |
| PostmanCollector.RouteCollector.CollectRoutes | pkg/postman/collector.go:35-67 | the routes grow by the infos of the whole router, which are returned |
| PostmanCollector.RouteCollector.GroupByPrefix | pkg/postman/collector.go:120-129 | the result is the routes grouped by `extractPrefix` of their path |
| PostmanCollector.GroupsPartitionRoutes | pkg/postman/collector.go:120-129 | every route sits in its prefix's group, every grouped route is a collected one with that prefix, order is kept, and the group sizes add up to the route count |
| PostmanCollector.ExtractPrefix | pkg/postman/collector.go:132-138 | the prefix is the first segment of the `/`-trimmed path: it contains no `/` and is the whole trimmed path or ends where a `/` follows |
| PostmanCollector.FirstPiece | pkg/postman/collector.go:133-135 | the first piece of a split has no separator and is followed by one unless it is everything |
| PostmanCollector.RootPathPrefix | pkg/postman/collector.go:132-138 | "/" and "" have the empty prefix (the `"root"` branch is unreachable) |
| PostmanCollector.GenerateName | pkg/postman/collector.go:141-153 | a route's own name wins; otherwise "METHOD " followed by a path holding no `/`, `{` or `}` |
| PostmanCollector.ReadableHasNoSeparators | pkg/postman/collector.go:147-150 | the three replacements remove every `/`, `{` and `}` |
| PostmanCollector.SpacedColonsPointwise | pkg/postman/collector.go:148-149 | the first two replacements keep the length and map each character: `/` to a space, `{` to `:` |
| PostmanCollector.ReadableText | pkg/postman/collector.go:147-150 | the readable path is exactly the trimmed path mapped character by character (`/` to a space, `{` to `:`) with every `}` dropped; its length is the trimmed path's less its `}`s |
| PostmanCollector.GenerateNameText | pkg/postman/collector.go:141-153 | the unnamed route's name is exactly "METHOD " and then the trimmed path, `/` as a space, `{` as `:`, every `}` dropped |
| PostmanGenerator.NewGenerator | pkg/postman/generator.go:23-31 | keeps base URL and name; description "Auto-generated API collection", version "1.0.0" |
| PostmanGenerator.CreateHeaders | pkg/postman/generator.go:135-152 | Content-Type always first; the bearer Authorization header present iff the route requires auth |
| PostmanGenerator.NonEmptyParts | pkg/postman/generator.go:166-170 | the kept parts are all non-empty |
| PostmanGenerator.NonEmptyPartsIff | pkg/postman/generator.go:166-170 | a part is kept iff it is present and non-empty |
| PostmanGenerator.SubstitutePath | pkg/postman/generator.go:159-162 | the loop of `ReplaceAll`s equals replacing each parameter in turn |
| PostmanGenerator.SubstituteOne | pkg/postman/generator.go:159-162 | `{p}` in a path becomes `:{{p}}`, the rest untouched |
| PostmanGenerator.KeepNonEmpty | pkg/postman/generator.go:166-170 | the filter loop keeps the non-empty parts in order |
| PostmanGenerator.PathVariables | pkg/postman/generator.go:182-188 | one variable per path parameter, in order |
| PostmanGenerator.CreateUrl | pkg/postman/generator.go:155-207 | the built URL equals the `UrlOf` specification |
| PostmanGenerator.UrlShape | pkg/postman/generator.go:155-207 | raw URL is `{{baseUrl}}` + substituted path; variables match parameters pointwise; queries present iff GET /article, and all disabled |
| PostmanGenerator.UrlSegments | pkg/postman/generator.go:164-170 | path segments are exactly the non-empty `/`-pieces of the trimmed substituted path, none containing `/` |
| PostmanGenerator.FallbackBody | pkg/postman/generator.go:230-256 | each fallback body is chosen iff its case applies and no earlier case does; the default iff none applies |
| PostmanGenerator.CreateBody | pkg/postman/generator.go:210-227 | raw JSON mode; a generated body is kept unless it is the default, which the fallback replaces; the default survives iff no special case applies |
| PostmanGenerator.CreateRequest | pkg/postman/generator.go:86-132 | the built item equals the `RequestItem` specification |
| PostmanGenerator.RequestShape | pkg/postman/generator.go:86-132 | named by `GenerateName`; body iff POST/PUT/PATCH; noauth iff the route needs no auth; token-saving test script iff POST to /auth/login |
| PostmanGenerator.Title | pkg/postman/generator.go:72 | `strings.Title` keeps the length and upper-cases every character that starts the text or follows a separator |
| PostmanGenerator.UpperCapitalises | pkg/postman/generator.go:72 | a lower-case ASCII letter is upper-cased to the capital that lowers back to it |
| PostmanGenerator.TitleOfPrefix | pkg/postman/generator.go:72 | the folder prefix "article" becomes "Article" |
| PostmanGenerator.TitleOfWords | pkg/postman/generator.go:72 | "user roles" becomes "User Roles": each word gets its capital |
| PostmanGenerator.TitleChangesOnlyCase | pkg/postman/generator.go:72 | title-casing changes only case, and only at word starts |
| PostmanGenerator.UpperThenLower | pkg/postman/generator.go:72 | lowering an upper-cased letter gives the lowered letter |
| PostmanGenerator.CreateFolder | pkg/postman/generator.go:70-83 | the folder equals `FolderOf`: title-cased name, description, one request per route |
| PostmanGenerator.FolderItems | pkg/postman/generator.go:70-83 | a folder has no request of its own, and item i is the request for route i |
| PostmanGenerator.CreateFolders | pkg/postman/generator.go:61-64 | one folder per prefix, in walk order, each over that prefix's routes |
| PostmanGenerator.Generate | pkg/postman/generator.go:34-67 | collection info and bearer auth as set; one folder per route prefix, each prefix exactly once, in the map walk's order |
| CategoryMapping.CategoryMapper.constructor | pkg/models/category_mapper.go:17-71 | the default mapper holds the seven predefined groups |
| CategoryMapping.CategoryMapper.WithGroups | pkg/models/category_mapper.go:74-78 | the mapper holds exactly the given groups |
| CategoryMapping.CategoryMapper.AddGroup | pkg/models/category_mapper.go:81-83 | the group is appended, nothing else changes |
| CategoryMapping.CategoryMapper.MatchesGroup | pkg/models/category_mapper.go:99-105 | the keyword loop with `break` hits iff some keyword contains, or is contained in, the category |
| CategoryMapping.CategoryMapper.CategoryHits | pkg/models/category_mapper.go:98-106 | the names of the groups one category hits |
| CategoryMapping.CategoryMapper.MapCategories | pkg/models/category_mapper.go:87-116 | empty input gives empty output; the result has no repeats and holds exactly the groups some category selects |
| CategoryMapping.Listed | pkg/models/category_mapper.go:110-113 | a set becomes a sequence with every member once |
| CategoryMapping.AnyKeywordMatchesIff | pkg/models/category_mapper.go:99-105 | a group matches iff some keyword matches either way |
| CategoryMapping.GroupHitsIff | pkg/models/category_mapper.go:98-106 | a name is hit iff some group of that name matches |
| CategoryMapping.SelectsIff | pkg/models/category_mapper.go:95-106 | the normalised hit set is exactly the selected names |
| CategoryMapping.AllHitsSound | pkg/models/category_mapper.go:94-107 | every reported group is selected by some input category |
| CategoryMapping.AllHitsComplete | pkg/models/category_mapper.go:94-107 | every selected group is reported |
| CategoryMapping.AllHitsIff | pkg/models/category_mapper.go:94-107 | reported iff selected by some category |
| CategoryMapping.MatchingIgnoresCaseAndSpace | pkg/models/category_mapper.go:95 | case and surrounding white space never change a match |
| CategoryMapping.BlankMatchesEveryGroup | pkg/models/category_mapper.go:95-101 | a blank category matches every group that has a keyword (the empty string is in every keyword) |
| CategoryMapping.GroupHitsAppend | pkg/models/category_mapper.go:81-83 | an added group contributes its name iff it matches |
| CategoryMapping.SomeSelectsIff | pkg/models/category_mapper.go:94-106 | some category selects the group iff one of them matches it |
| CategoryMapping.AddedGroupConsidered | pkg/models/category_mapper.go:81-83 | after `AddGroup`, mapping reports the old hits plus the new group iff some category matches it |
| ContactInfo.AllContactTypes | pkg/models/db/db_contact_info.go:41-51 | seven distinct types |
| ContactInfo.IsValid | pkg/models/db/db_contact_info.go:26-33 | a type is valid iff it is one of the listed seven |
| ContactInfo.ValidateValue | pkg/models/db/db_contact_info.go:78-98 | empty value refused first; email needs `@`; phone needs 7 bytes; other types accept any non-empty value |
| ContactInfo.BeforeCreate | pkg/models/db/db_contact_info.go:62-67 | invalid type refused with its name, otherwise the value check decides |
| ContactInfo.BeforeUpdate | pkg/models/db/db_contact_info.go:70-75 | the update hook decides exactly as the create hook |
| ContactInfo.AcceptedIff | pkg/models/db/db_contact_info.go:62-98 | a contact is accepted iff its type is listed, its value non-empty, emails hold `@` and phones have at least 7 bytes |
| ContactInfo.InvalidTypeReportedFirst | pkg/models/db/db_contact_info.go:62-75 | an unknown type is reported whatever the value |
| ContactInfo.PhoneLengthInBytes | pkg/models/db/db_contact_info.go:92-94 | 7 characters always pass; a single character always fails |
| ContactInfo.MultibytePhoneAccepted | pkg/models/db/db_contact_info.go:92-94 | `len` counts bytes: four characters of seven UTF-8 bytes pass |
| Roles.ToDomain | pkg/models/db/db_role.go:11-25 | id and name kept; permissions are the rows grouped by section name |
| Roles.ResponseDescribesRows | pkg/models/db/db_role.go:14-18 | a section appears iff some row names it; its permissions are its rows' permissions in order, and a permission is listed iff such a row exists |
| FilmMapping.LanguageOf | pkg/models/mappers/film_mapper.go:82-85 | the first spoken language, or "" when none |
| FilmMapping.ImdbUrl | pkg/models/mappers/film_mapper.go:100 | https://www.imdb.com/title/ + id + "/" |
| FilmMapping.ReleaseDateOf | pkg/models/mappers/film_mapper.go:88 | a parsed YYYY-MM-DD date, or the zero time when parsing fails |
| FilmMapping.ReleaseDateKept | pkg/models/mappers/film_mapper.go:88 | every valid calendar date written as YYYY-MM-DD is read back |
| FilmMapping.CastOf | pkg/models/mappers/film_mapper.go:49-62 | one cast member per entry |
| FilmMapping.CastOfAt | pkg/models/mappers/film_mapper.go:53-61 | member i is mapped from entry i |
| FilmMapping.MapCast | pkg/models/mappers/film_mapper.go:47-62 | the first min(4, n) entries, mapped in order |
| FilmMapping.MapDirectors | pkg/models/mappers/film_mapper.go:65-73 | the crew filtered to job "Director", in order |
| FilmMapping.MapGenres | pkg/models/mappers/film_mapper.go:76-79 | every genre name, in order |
| FilmMapping.MapTmdbToFilm | pkg/models/mappers/film_mapper.go:36-107 | film-data error first, then cast-data error; on success the film carries the mapped fields, cast, directors and no reviews |
| FilmMapping.CharacterKeptUnlessBlank | pkg/models/mappers/film_mapper.go:53-56 | a blank character becomes "Unknown Character"; any other is kept |
| FilmMapping.DirectorsOfAppend | pkg/models/mappers/film_mapper.go:66-73 | the director filter distributes over concatenation |
| FilmMapping.DirectorsOfIff | pkg/models/mappers/film_mapper.go:66-73 | a director is listed iff some crew entry with job Director maps to it |
| FilmMapping.ImageUrlsUnderBase | pkg/models/mappers/film_mapper.go:57-71 | image URLs are the TMDB w500 base followed by the profile path |
| RfcDates.ParseRfc1123Z | pkg/models/rss.go:42 | a parsed date is a valid calendar date and time with an in-range offset |
| RfcDates.FormatParseRoundTrip | pkg/models/rss.go:42 | every writable time formatted in the RFC 1123Z layout parses back to itself |
| RfcDates.ReferencePubDate | pkg/models/rss.go:42 | "Mon, 02 Jan 2006 15:04:05 -0700" parses to that instant |
| RfcDates.ReferenceFormatted | pkg/models/rss.go:42 | formatting that instant gives the layout's reference text |
| RfcDates.DateRoundTrip | pkg/models/rss.go:42 | the date stage reads back what the formatter wrote |
| RfcDates.TimeOfDayRoundTrip | pkg/models/rss.go:42 | the clock-and-zone stage reads back what the formatter wrote |
| RfcDates.ZoneRoundTrip | pkg/models/rss.go:42 | a ±hhmm offset reads back to its seconds |
| RfcDates.ParseDatePart | pkg/models/rss.go:42 | the date stage yields a month 1-12, a two-digit day and a four-digit year |
| RfcDates.ParseClockPart | pkg/models/rss.go:42 | the clock stage yields hour < 24, minute < 60, second < 60 |
| RfcDates.ClockRoundTrip | pkg/models/rss.go:42 | a written `hh:mm:ss` reads back |
| RfcDates.MonthYearRoundTrip | pkg/models/rss.go:42 | a written month name and year read back |
| RfcDates.ReferenceTexts | pkg/models/rss.go:42 | the layout's reference date, clock and zone texts |
| RfcDates.ParseIsoDate | pkg/models/mappers/film_mapper.go:88 | an accepted text is ten characters with `-` at the fifth and eighth, and reads as a valid date at midnight UTC |
| RfcDates.IsoRoundTrip | pkg/models/mappers/film_mapper.go:88 | every valid YYYY-MM-DD date parses back to midnight UTC of that day |
| HtmlImages.LastValueAbsent | pkg/models/rss.go:78-85 | a missing attribute reads as "" |
| HtmlImages.LastValueWins | pkg/models/rss.go:78-85 | of repeated attributes the last wins |
| HtmlImages.ReadSrcAlt | pkg/models/rss.go:77-85 | the attribute loop yields the last `src` and last `alt` |
| HtmlImages.Mark | pkg/models/rss.go:86-93 | image k is main iff it is the first one collected |
| HtmlImages.MarkAppend | pkg/models/rss.go:87 | marking splits over concatenation with the offset carried |
| HtmlImages.VisitNode | pkg/models/rss.go:76-94 | one node appends its own image, if it is an `img` with a `src` |
| HtmlImages.WalkStep | pkg/models/rss.go:95-97 | walking two runs of children in turn equals walking them together |
| HtmlImages.KeptAllStep | pkg/models/rss.go:95-97 | the images of one more child are appended |
| HtmlImages.Walk | pkg/models/rss.go:75-98 | the recursive walk appends the subtree's images in document order |
| HtmlImages.WalkChildren | pkg/models/rss.go:95-97 | the sibling loop appends each child's images in turn |
| HtmlImages.ExtractImagesFromHTML | pkg/models/rss.go:67-102 | the result is the specification `Extracted` of the tree |
| HtmlImages.ExtractedHaveUrls | pkg/models/rss.go:86 | no extracted image has an empty URL |
| HtmlImages.KeptHaveSrc | pkg/models/rss.go:86 | every kept candidate has a source |
| HtmlImages.KeptAllHaveSrc | pkg/models/rss.go:86 | likewise across siblings |
| HtmlImages.MainIsFirst | pkg/models/rss.go:87 | exactly the first extracted image is main |
| HtmlImages.ExtractedEmptyIff | pkg/models/rss.go:76-97 | no images iff no `img` element with a non-empty `src` anywhere |
| HtmlImages.KeptAllEmptyIff | pkg/models/rss.go:95-97 | siblings give nothing iff none holds a sourced image |
| HtmlImages.OwnAllAppend | pkg/models/rss.go:95-97 | the node-by-node images split over concatenation |
| HtmlImages.KeptIsPreOrder | pkg/models/rss.go:75-98 | the walk's images are the nodes' own images in pre-order |
| HtmlImages.KeptAllIsPreOrder | pkg/models/rss.go:95-97 | likewise for a run of siblings |
| HtmlImages.SourcelessImgSkipped | pkg/models/rss.go:86-93 | an `img` without `src` is skipped and does not take the main slot |
| HtmlImages.NestedImagesInOrder | pkg/models/rss.go:95-97 | nested images come out in document order, the first main |
| RssArticle.IndexOf | pkg/models/rss.go:50 | the first position of a character |
| RssArticle.TagLength | pkg/models/rss.go:50 | a tag at the front runs to its first `>` |
| RssArticle.StripImgTagsOnce | pkg/models/rss.go:50-51 | the single left-to-right pass never lengthens the text |
| RssArticle.TagInTail | pkg/models/rss.go:50 | a tag further on is a tag in the tail |
| RssArticle.NoTagUnchanged | pkg/models/rss.go:50-51 | text without a tag is unchanged |
| RssArticle.TagShrinks | pkg/models/rss.go:50-51 | text with a tag gets shorter |
| RssArticle.StripOnceFixedIff | pkg/models/rss.go:50-51 | the pass changes nothing iff there is no tag |
| RssArticle.TagThenPlain | pkg/models/rss.go:50-51 | a leading tag followed by plain text leaves the plain text |
| RssArticle.StripOnceReassembles | pkg/models/rss.go:50-51 | removing an inner tag can join the text around it into a new tag |
| RssArticle.StripOnceLeavesTag | pkg/models/rss.go:50-51 | "<im<img>g>" becomes "<img>": the summary as written can still hold an `img` tag |
| RssArticle.StripImgTags | pkg/models/rss.go:49-51 | the repeated removal leaves no `img` tag and never lengthens |
| RssArticle.StripAgreesWithOnce | pkg/models/rss.go:50-51 | where one pass already leaves no tag, the two agree |
| RssArticle.StripImgTagsIdempotent | pkg/models/rss.go:49-51 | tag-free text is unchanged, and stripping twice is stripping once |
| RssArticle.StripOnceKeepsFirst | pkg/models/rss.go:50-51 | a first character other than `<` is kept |
| RssArticle.StripOnceKeepsPlainPrefix | pkg/models/rss.go:50-51 | a prefix without `<` is kept |
| RssArticle.IndexOfAfterFree | pkg/models/rss.go:50 | the first occurrence follows a prefix lacking it |
| RssArticle.StripOnceDropsTag | pkg/models/rss.go:50-51 | a leading tag is dropped whole |
| RssArticle.ToArticle | pkg/models/rss.go:41-65 | error iff the publication date does not parse; otherwise title, language, URL, content, parsed date, images extracted from the description tree, no source, not featured, and the summary is the single removal pass over the description |
| RssArticle.StripTaggedText | pkg/models/rss.go:49-51 | text followed by an `img` tag loses exactly the tag, in the single pass and in the repeated one |
| RssIngest.ArticleStore.constructor | pkg/services/rss_service.go:65 | the store starts empty |
| RssIngest.ArticleStore.CreateArticleIfNotExists | pkg/services/rss_service.go:65-77 | adds the article iff its URL is new and the write is accepted; reports which |
| RssIngest.Mapped | pkg/services/rss_service.go:54-63 | an item is dropped iff its date does not parse; a kept one carries the given source (none when none is given), the empty language, the item's link and title, the single-pass summary, the encoded content as body, the parsed date, the description's images, and is not featured |
| RssIngest.MappedAll | pkg/services/rss_service.go:53-63 | one mapping outcome per item |
| RssIngest.RssService.constructor | pkg/services/rss_service.go:18-22 | the service holds its store |
| RssIngest.RssService.IngestRSSFeedWithSource | pkg/services/rss_service.go:28-83 | a fetch or decode failure is returned with nothing stored; otherwise success, and the store and both counters equal the item loop's specification |
| RssIngest.RssService.SaveItem | pkg/services/rss_service.go:54-77 | one loop pass: map the item, save it and bump the matching counter |
| RssIngest.RssService.SaveMapped | pkg/services/rss_service.go:61-77 | one loop pass: save and bump the matching counter |
| RssIngest.RssService.IngestRSSFeed | pkg/services/rss_service.go:24-26 | the same run with no source |
| RssIngest.RunStep | pkg/services/rss_service.go:53-78 | one more item runs one more loop pass |
| RssIngest.RunCounts | pkg/services/rss_service.go:71-77 | saved plus duplicates equals the accepted items: each bumps exactly one counter |
| RssIngest.ProcessKeepsStore | pkg/services/rss_service.go:65-77 | one pass keeps stored articles and adds at most the counted one |
| RssIngest.RunKeepsStore | pkg/services/rss_service.go:53-78 | a run never loses or overwrites an article; the store grows by the saved count |
| RssIngest.RunTagsSource | pkg/services/rss_service.go:61-63 | every article added under a source carries that source |
| RssIngest.RunStoresAccepted | pkg/services/rss_service.go:65-77 | every accepted item's URL is stored afterwards |
| RssIngest.RunOverStored | pkg/services/rss_service.go:71-77 | items already stored only count as duplicates |
| RssIngest.SecondRunSavesNothing | pkg/services/rss_service.go:53-80 | ingesting the same feed again saves nothing and counts every earlier save or duplicate as a duplicate |
| Cron.IntToStringHasNoSpace | pkg/services/cron_service.go:57 | a formatted integer holds no space |
| Cron.JoinSix | pkg/services/cron_service.go:57 | the six fields joined by single spaces |
| Cron.CronFieldsSplit | pkg/services/cron_service.go:57 | a specification splits back into its six fields |
| Cron.HourlySpecJoined | pkg/services/cron_service.go:45 | the hourly spec is second 0, minute 0, every hour |
| Cron.HourlySpecFields | pkg/services/cron_service.go:45 | it splits into 0 0 * * * * |
| Cron.ArticleLimit | pkg/services/cron_service.go:159-191 | each scheduled newsletter asks for between 5 and 20 featured articles, the monthly one for the most (daily 5, weekly 10, monthly 20) |
| Cron.SelectedNests | pkg/services/newsletter_service.go:100-105 | a smaller article limit selects a prefix of what a larger one selects |
| Cron.NewslettersNest | pkg/services/cron_service.go:159-191 | on the same articles the daily newsletter's selection opens the weekly one's, which opens the monthly one's |
| Cron.DailySpecFields | pkg/services/cron_service.go:55-65 | six fields; minute in field 2 and hour in field 3 read back as the numbers given |
| Cron.WeeklySpecFields | pkg/services/cron_service.go:119 | the day of the week is the last field |
| Cron.MonthlySpecFields | pkg/services/cron_service.go:143 | the day of the month is the fourth field |
| Cron.Feeds | pkg/services/cron_service.go:88-92 | only sources with a feed URL are ingested |
| Cron.CronService.constructor | pkg/services/cron_service.go:18-28 | no jobs registered, nothing ingested |
| Cron.CronService.AddFunc | pkg/services/cron_service.go:45-48 | registers the job iff the spec is accepted; the error names the spec |
| Cron.CronService.ScheduleRSSIngestion | pkg/services/cron_service.go:43-52 | registers ingestion hourly, or returns the error |
| Cron.CronService.ScheduleRSSIngestionDaily | pkg/services/cron_service.go:55-65 | registers ingestion daily at hour:minute |
| Cron.CronService.ScheduleNewsletterWeekly | pkg/services/cron_service.go:117-127 | registers the weekly newsletter |
| Cron.CronService.ScheduleNewsletterDaily | pkg/services/cron_service.go:130-139 | registers the daily newsletter |
| Cron.CronService.ScheduleNewsletterMonthly | pkg/services/cron_service.go:142-151 | registers the monthly newsletter |
| Cron.CronService.IngestSource | pkg/services/cron_service.go:88-103 | a source without a feed is skipped; one with a feed is ingested under its id, and a fetch failure is counted |
| Cron.CronService.IngestAllRSSFeeds | pkg/services/cron_service.go:68-108 | listing failure does nothing; otherwise every source with a feed is ingested in order, successes plus errors equal those feeds, and errors count the failing ones |
| Cron.BatchPrefix | pkg/services/cron_service.go:88-104 | one more source runs one more batch step |
| Cron.FeedsAppend | pkg/services/cron_service.go:88-92 | feed selection distributes over concatenation |
| Cron.FeedsOne | pkg/services/cron_service.go:89-92 | one source is ingested iff it has a feed |
| Cron.FeedsAll | pkg/services/cron_service.go:88-92 | sources that all have feeds are all ingested, in order |
| Cron.FailedAmongFeeds | pkg/services/cron_service.go:96-103 | no more failures than feeds |
| Cron.BatchKeepsStore | pkg/services/cron_service.go:88-104 | the batch never loses or overwrites a stored article |
| Email.Settings | pkg/services/email_service.go:196-216 | the six settings in checking order |
| Email.ValidateConfig | pkg/services/email_service.go:196-216 | the chain of checks reports exactly `FirstMissing` of the six settings in their checked order |
| Email.FirstMissingIff | pkg/services/email_service.go:196-216 | no error iff every setting is set; otherwise the error names the first empty one |
| Email.BodyOf | pkg/services/email_service.go:150-158 | a named template is rendered, otherwise the plain text is used |
| Email.HeaderKeys | pkg/services/email_service.go:161-166 | exactly the five header names |
| Email.WriteHeaders | pkg/services/email_service.go:170-172 | one `Key: Value` line per header, in the walk's order |
| Email.BuildEmailMessage | pkg/services/email_service.go:146-177 | a render failure is returned; otherwise headers, a blank line, then the body |
| Email.DistinctCard | pkg/services/email_service.go:170 | a repeat-free order has as many entries as its set |
| Email.HeaderLinePresent | pkg/services/email_service.go:170-172 | every header's line occurs in the block |
| Email.FiveHeaders | pkg/services/email_service.go:161-172 | whatever the walk order, there are five header lines |
| Email.SenderAndRecipientLines | pkg/services/email_service.go:162-163 | the message has `From: name <address>` and `To:` lines |
| Email.BodyLast | pkg/services/email_service.go:173-174 | the message ends with a blank line followed by the body |
| Email.SendEmail | pkg/services/email_service.go:44-113 | reports the configuration error, else the build error, else the delivery outcome |
| Email.InvalidConfigNeverDelivers | pkg/services/email_service.go:46-48 | a missing setting fails the send whatever the delivery would do |
| Email.ConfigErrorFirst | pkg/services/email_service.go:46-48 | the configuration error comes before anything else |
| Email.BulkErrors | pkg/services/email_service.go:127-143 | at most one error per recipient |
| Email.SendBulkEmail | pkg/services/email_service.go:127-143 | one wrapped error per failed recipient, in order; successes plus errors equal recipients |
| Email.InvalidConfigFailsAll | pkg/services/email_service.go:127-143 | a bad configuration fails every recipient with the configuration error |
| Newsletter.Selected | pkg/services/newsletter_service.go:100-105 | the filter keeps only featured articles, no more than there are and no more than `limit` |
| Newsletter.FeaturedOf | pkg/services/newsletter_service.go:101-105 | only featured articles |
| Newsletter.Take | pkg/services/newsletter_service.go:102 | the first `limit` elements, none for a limit of 0 or less |
| Newsletter.SelectedIsFirstFeatured | pkg/services/newsletter_service.go:100-105 | the filter loop keeps exactly the first `limit` featured articles |
| Newsletter.SelectionBounds | pkg/services/newsletter_service.go:100-109 | only featured articles, at most `limit`; every featured one when there are few enough; empty iff limit ≤ 0 or none is featured |
| Newsletter.FeaturedMembers | pkg/services/newsletter_service.go:102 | featured list membership iff the article is present and featured |
| Newsletter.SelectFeatured | pkg/services/newsletter_service.go:100-105 | the loop equals the selection specification |
| Newsletter.TemplateMap.constructor | pkg/services/newsletter_service.go:70 | a map with the given entries |
| Newsletter.PrepareDraftsAsWritten | pkg/services/newsletter_service.go:59-79 | as written: every draft shares one map, which ends greeting the last subscriber |
| Newsletter.SharedMapGreetsLastSubscriber | pkg/services/newsletter_service.go:67-73 | with subscribers Ann and Bob, Ann's mail greets Bob |
| Newsletter.SentMails | pkg/services/newsletter_service.go:59-82 | as written, one mail per subscriber, addressed and titled in order, and every templated mail greets the last subscriber |
| Newsletter.ReadDrafts | pkg/services/newsletter_service.go:73-82 | the drafts, read through their shared map after the loop, are exactly `SentMails` |
| Newsletter.SentMatchesIntendedIff | pkg/services/newsletter_service.go:59-82 | the mails sent match the intended per-subscriber mails iff no template is used or every subscriber has the last one's preferred name |
| Newsletter.MailsFor | pkg/services/newsletter_service.go:59-79 | one mail per subscriber, in order |
| Newsletter.PrepareMails | pkg/services/newsletter_service.go:59-79 | the corrected loop equals `MailsFor` |
| Newsletter.MailsGreetTheirOwnSubscriber | pkg/services/newsletter_service.go:61-76 | mail i goes to subscriber i, and with the template greets that subscriber and keeps the caller's other entries; without it carries the content |
| Newsletter.SendNewsletter | pkg/services/newsletter_service.go:46-89 | a listing error, or no subscribers, fails; otherwise the mails built as written (`SentMails`) go to the bulk send, and the call succeeds iff it reports no error, else "N errors" |
| Newsletter.SendNewsletterWithLatestArticles | pkg/services/newsletter_service.go:92-119 | an article error, or no featured article, fails; then a subscriber-listing error or no subscribers fails; otherwise the templated newsletter with the selection, date and year is sent as written, success iff the bulk send reports no error, else "N errors" |
| Newsletter.MergeInto | pkg/services/newsletter_service.go:163-165 | the merge loop gives the defaults overridden by the caller's entries, whatever the walk order |
| Newsletter.GenerateNewsletterPreview | pkg/services/newsletter_service.go:139-169 | an article error is returned; otherwise the template renders the merged data, even with no featured article |
| Newsletter.PreviewMerge | pkg/services/newsletter_service.go:155-165 | the caller's entries win key by key; defaults fill the rest; the keys are the union |
| Newsletter.NoFeaturedSendVersusPreview | pkg/services/newsletter_service.go:107-109 | with no featured article the selection is empty, so sending fails while the preview still renders |
| Strings.ContainsIff | pkg/postman/collector.go:87 | `strings.Contains` holds iff the text occurs at some index |
| Strings.TrimIsSlice | pkg/postman/collector.go:133 | `strings.Trim` returns a contiguous slice of its input |
| Strings.TrimIdempotent | pkg/postman/collector.go:133 | trimming twice is trimming once |
| Strings.TrimSpaceEmptyIff | pkg/models/mappers/film_mapper.go:54 | `TrimSpace` is empty iff every character is white space |
| Strings.TrimSpaceToLower | pkg/models/category_mapper.go:95 | trimming and lowering commute |
| Strings.ToLowerIdempotent | pkg/models/category_mapper.go:100-101 | lowering twice is lowering once |
| Strings.Split | pkg/postman/collector.go:72 | `strings.Split` always yields at least one piece |
| Strings.ToLower | pkg/models/category_mapper.go:95 | lowering keeps the length and lowers each character |
| Strings.JoinSplit | pkg/postman/collector.go:72 | joining the pieces of a split restores the text |
| Strings.SplitJoin | pkg/postman/collector.go:72 | splitting separator-free pieces joined by the separator restores them |
| Strings.SplitPiecesFree | pkg/postman/collector.go:72 | no piece of a split contains the separator |
| Strings.SplitCount | pkg/postman/collector.go:72 | a split has one more piece than separators |
| Strings.ReplaceAllLength | pkg/postman/generator.go:161 | `ReplaceAll` changes the length by the match count times the size difference |
| Strings.ReplaceAllAbsent | pkg/postman/generator.go:161 | with no match the text is unchanged |
| Strings.ReplaceCharByNothing | pkg/postman/collector.go:150 | deleting a character removes every occurrence |
| Strings.ReplaceCharByNothingIsDrop | pkg/postman/collector.go:150 | replacing one character by nothing is dropping it and keeping the rest in order |
| Strings.IntToStringRoundTrip | pkg/services/cron_service.go:57 | a `%d` integer parses back to itself |
| Strings.Utf8Len | pkg/models/db/db_contact_info.go:92 | the byte length lies between one and four bytes per character |

## Left out

- Network and files: HTTP fetches, SMTP and TLS, template files on disk, JSON and XML decoding. Their outcomes are parameters (`Result` values or functions).
- Environment and clocks: `os.Getenv`, `time.Now` and `time.Since`. They become parameters (configuration, date text, year).
- Logging: `log` and `fmt.Printf` output.
- Scheduler concurrency: the cron library's own timing and `TriggerRSSIngestionNow`'s goroutine.
- `html.Parse`: the HTML tree of a description is a given `Node`.
- `BodyGenerator`: the reflection-based body generator of the Postman export is a function parameter (`generateBody`).
- `regexp`: the `<img[^>]*>` replacement is written out as a scan, not a regular-expression engine.
- `sendWithoutTLS`: the TLS fallback, `TestConnection` and `SendTestEmail` have no model. `SendEmail` maps delivery to one outcome function, so the two transport paths are not told apart.
- `renderTemplate`, `GetTemplateContent` and `UpdateTemplate`: template parsing and execution are the `render` parameter.
- `SaveToFile`, `GenerateWithTimestamp` and `GenerateToFile`: they only write JSON files. `Generate`'s error result is always nil in the code, so the model returns no error.
- `Start`, `Stop` and `TriggerNewsletterNow`: they only forward to the scheduler or the newsletter service. The three `send…Newsletter` jobs are modelled through their article limits (10, 5 and 20) and `SendNewsletterWithLatestArticles`.
- Subscriber CRUD in the newsletter service: it only forwards to the repository.
- RssIngest.ArticleStore.CreateArticleIfNotExists: the article service's implementation is not part of this model. The store assumes a fixed `rejects` predicate that decides every write failure, is independent of the stored articles, and is checked before the duplicate test; no other failure is modelled. `RunOverStored`, `RunStoresAccepted`, `SecondRunSavesNothing` and `Cron.BatchKeepsStore` hold for this store, not for every implementation.
- PostmanGenerator.Title: models `strings.Title` for the separators and ASCII case mapping only. Unicode letter classes and title case are not modelled.
- Strings.ToLower: maps ASCII letters only. Go's full Unicode case mapping is not modelled.
- RfcDates.ParseRfc1123Z: refuses a named zone such as `GMT` in place of the numeric offset, as Go's `time.Parse` does for the numeric-zone layout `-0700`. Go's parse error texts are not modelled: a refusal is `None`.
- RfcDates.FormatRfc1123Z: takes the weekday as an input instead of computing it from the date. The parser checks the weekday's name, not its value, as Go does.
- FilmMapping.MapTmdbToFilm: does not model film reviews beyond the empty list. `Runtime` is an unbounded integer.
- Grouping.RangeOrder: every result is proved for every order, not for the run-time order of Go's map iteration.
- Category results: `MapCategories` returns the matched names in Go's map order, so the model states the result as a set without repeats.
- Integer widths: Go `int` counters are unbounded here. None of the counted quantities can approach 2^63.

## Findings

The operations follow the code as written, so ingestion stores the single-pass summary and the newsletter sends the shared-map mails. Each corrected member stands beside them with its intended property proved.

| source | as written | input that shows it | evidently intended | confidence | as-written member | corrected member |
|---|---|---|---|---|---|---|
| pkg/models/rss.go:50-51 | one left-to-right pass of `<img[^>]*>` removal | description `<im<img>g>` becomes the summary `<img>` | the summary holds no `img` tag | not executed | RssArticle.StripOnceLeavesTag | RssArticle.StripImgTags |
| pkg/services/newsletter_service.go:67-73 | every subscriber's `EmailData` holds the same `templateData` map, and each pass overwrites `SubscriberName` before any mail is sent | subscribers Ann, then Bob: Ann's mail greets Bob | each mail greets its own subscriber | not executed | Newsletter.SharedMapGreetsLastSubscriber | Newsletter.MailsGreetTheirOwnSubscriber |
