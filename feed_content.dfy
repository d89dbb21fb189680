/** What the generated document says: where each channel value and each item appears, the
    order of the items, and how the links derived from the slugs relate. */
module FeedContent {
  import opened Js
  import opened Utils
  import opened Text
  import opened PodcastRss

  // ---------------------------------------------------------------------------
  // Items, in input order

  /** Rendering a list of episodes distributes over splitting the list. */
  lemma {:induction false} ItemsXmlAppend(podcast: Podcast, podcastBaseUrl: string, formatDate: DateFormatter,
                                          a: seq<Episode>, b: seq<Episode>)
    ensures ItemsXml(podcast, podcastBaseUrl, formatDate, a + b)
         == ItemsXml(podcast, podcastBaseUrl, formatDate, a) + ItemsXml(podcast, podcastBaseUrl, formatDate, b)
    decreases |b|
  {
    if b == [] {
      assert a + b == a;
    } else {
      var init := b[..|b| - 1];
      var last := b[|b| - 1];
      assert (a + b)[..|a + b| - 1] == a + init;
      assert (a + b)[|a + b| - 1] == last;
      ItemsXmlAppend(podcast, podcastBaseUrl, formatDate, a, init);
      AppendAssociative(ItemsXml(podcast, podcastBaseUrl, formatDate, a),
                        ItemsXml(podcast, podcastBaseUrl, formatDate, init),
                        ItemXml(podcast, podcastBaseUrl, formatDate, last));
    }
  }

  /** The k-th item sits after the items of the episodes before it and before those after it. */
  lemma ItemsXmlAt(podcast: Podcast, podcastBaseUrl: string, formatDate: DateFormatter, episodes: seq<Episode>, k: nat)
    requires k < |episodes|
    ensures ItemsXml(podcast, podcastBaseUrl, formatDate, episodes)
         == ItemsXml(podcast, podcastBaseUrl, formatDate, episodes[..k])
            + ItemXml(podcast, podcastBaseUrl, formatDate, episodes[k])
            + ItemsXml(podcast, podcastBaseUrl, formatDate, episodes[k + 1..])
  {
    assert episodes == episodes[..k + 1] + episodes[k + 1..];
    ItemsXmlAppend(podcast, podcastBaseUrl, formatDate, episodes[..k + 1], episodes[k + 1..]);
    ItemsXmlSnoc(podcast, podcastBaseUrl, formatDate, episodes, k);
  }

  /** Of two episodes, the earlier one's item comes first. */
  lemma ItemsInInputOrder(podcast: Podcast, podcastBaseUrl: string, formatDate: DateFormatter,
                          episodes: seq<Episode>, j: nat, k: nat)
    requires j < k < |episodes|
    ensures ItemsXml(podcast, podcastBaseUrl, formatDate, episodes)
         == ItemsXml(podcast, podcastBaseUrl, formatDate, episodes[..j])
            + ItemXml(podcast, podcastBaseUrl, formatDate, episodes[j])
            + ItemsXml(podcast, podcastBaseUrl, formatDate, episodes[j + 1..k])
            + ItemXml(podcast, podcastBaseUrl, formatDate, episodes[k])
            + ItemsXml(podcast, podcastBaseUrl, formatDate, episodes[k + 1..])
  {
    var front := episodes[..k];
    assert front[..j] == episodes[..j];
    assert front[j] == episodes[j];
    assert front[j + 1..] == episodes[j + 1..k];
    ItemsXmlAt(podcast, podcastBaseUrl, formatDate, episodes, k);
    ItemsXmlAt(podcast, podcastBaseUrl, formatDate, front, j);
  }

  /** Without episodes, absent or empty, the document is the channel header and the closing tags. */
  lemma NoEpisodesNoItems(podcast: Podcast, episodes: Option<seq<Episode>>, options: FeedOptions,
                          formatDate: DateFormatter)
    requires episodes.None? || episodes.value == []
    ensures var podcastBaseUrl := PodcastBaseUrl(options.siteUrl, podcast.podcastSlug);
      RssFeed(podcast, episodes, options, formatDate)
      == ChannelHeader(podcast, podcastBaseUrl, PodcastFeedUrl(podcastBaseUrl), formatDate(BuildDateSource(podcast)))
         + ChannelClose
  {
    var podcastBaseUrl := PodcastBaseUrl(options.siteUrl, podcast.podcastSlug);
    var header := ChannelHeader(podcast, podcastBaseUrl, PodcastFeedUrl(podcastBaseUrl), formatDate(BuildDateSource(podcast)));
    assert ItemsXml(podcast, podcastBaseUrl, formatDate, EpisodeList(episodes)) == [];
    assert header + [] == header;
  }

  // ---------------------------------------------------------------------------
  // Where the channel's values appear

  /** The channel header of the document for these inputs: everything before the first item. */
  function FeedHeader(podcast: Podcast, options: FeedOptions, formatDate: DateFormatter): string {
    var podcastBaseUrl := PodcastBaseUrl(options.siteUrl, podcast.podcastSlug);
    ChannelHeader(podcast, podcastBaseUrl, PodcastFeedUrl(podcastBaseUrl), formatDate(BuildDateSource(podcast)))
  }

  /** The document begins with the channel header, with the links and the build date it derives,
      and the items and closing tags follow it. */
  lemma HeaderInFeed(podcast: Podcast, episodes: Option<seq<Episode>>, options: FeedOptions, formatDate: DateFormatter)
    ensures var podcastBaseUrl := PodcastBaseUrl(options.siteUrl, podcast.podcastSlug);
      var header := ChannelHeader(podcast, podcastBaseUrl, PodcastFeedUrl(podcastBaseUrl), formatDate(BuildDateSource(podcast)));
      header == FeedHeader(podcast, options, formatDate)
      && header <= RssFeed(podcast, episodes, options, formatDate)
      && RssFeed(podcast, episodes, options, formatDate)[|header|..]
         == ItemsXml(podcast, podcastBaseUrl, formatDate, EpisodeList(episodes)) + ChannelClose
  {
    var podcastBaseUrl := PodcastBaseUrl(options.siteUrl, podcast.podcastSlug);
    var header := ChannelHeader(podcast, podcastBaseUrl, PodcastFeedUrl(podcastBaseUrl), formatDate(BuildDateSource(podcast)));
    var items := ItemsXml(podcast, podcastBaseUrl, formatDate, EpisodeList(episodes));
    JoinFrame(header, header, items, ChannelClose);
    AppendAssociative(header, items, ChannelClose);
    assert (header + (items + ChannelClose))[|header|..] == items + ChannelClose;
  }

  /** Each line of the channel's opening block is part of the channel header. */
  lemma OpeningLineInHeader(podcast: Podcast, options: FeedOptions, formatDate: DateFormatter, k: nat)
    requires k < 9
    ensures var podcastBaseUrl := PodcastBaseUrl(options.siteUrl, podcast.podcastSlug);
      var lines := ChannelOpeningLines(podcast, podcastBaseUrl, formatDate(BuildDateSource(podcast)));
      k < |lines| && Contains(FeedHeader(podcast, options, formatDate), lines[k])
  {
    var podcastBaseUrl := PodcastBaseUrl(options.siteUrl, podcast.podcastSlug);
    var podcastFeedUrl := PodcastFeedUrl(podcastBaseUrl);
    var lines := ChannelOpeningLines(podcast, podcastBaseUrl, formatDate(BuildDateSource(podcast)));
    ContainsJoin(Concat(lines), Concat(ChannelItunesLines(podcast)), Concat(ChannelTrailerLines(podcast, podcastFeedUrl)));
    ConcatContainsPart(lines, k);
    ContainsTransitive(FeedHeader(podcast, options, formatDate), Concat(lines), lines[k]);
  }

  /** Each line of the channel's iTunes block is part of the channel header. */
  lemma ItunesLineInHeader(podcast: Podcast, options: FeedOptions, formatDate: DateFormatter, k: nat)
    requires k < 7
    ensures k < |ChannelItunesLines(podcast)|
    ensures Contains(FeedHeader(podcast, options, formatDate), ChannelItunesLines(podcast)[k])
  {
    var podcastBaseUrl := PodcastBaseUrl(options.siteUrl, podcast.podcastSlug);
    var podcastFeedUrl := PodcastFeedUrl(podcastBaseUrl);
    var lines := ChannelItunesLines(podcast);
    ContainsJoin(Concat(ChannelOpeningLines(podcast, podcastBaseUrl, formatDate(BuildDateSource(podcast)))), Concat(lines),
                 Concat(ChannelTrailerLines(podcast, podcastFeedUrl)));
    ConcatContainsPart(lines, k);
    ContainsTransitive(FeedHeader(podcast, options, formatDate), Concat(lines), lines[k]);
  }

  /** Each line of the channel's closing block (categories to GUID) is part of the channel header. */
  lemma TrailerLineInHeader(podcast: Podcast, options: FeedOptions, formatDate: DateFormatter, k: nat)
    requires k < 4
    ensures var podcastFeedUrl := PodcastFeedUrl(PodcastBaseUrl(options.siteUrl, podcast.podcastSlug));
      var lines := ChannelTrailerLines(podcast, podcastFeedUrl);
      k < |lines| && Contains(FeedHeader(podcast, options, formatDate), lines[k])
  {
    var podcastBaseUrl := PodcastBaseUrl(options.siteUrl, podcast.podcastSlug);
    var podcastFeedUrl := PodcastFeedUrl(podcastBaseUrl);
    var lines := ChannelTrailerLines(podcast, podcastFeedUrl);
    ContainsJoin(Concat(ChannelOpeningLines(podcast, podcastBaseUrl, formatDate(BuildDateSource(podcast)))),
                 Concat(ChannelItunesLines(podcast)), Concat(lines));
    ConcatContainsPart(lines, k);
    ContainsTransitive(FeedHeader(podcast, options, formatDate), Concat(lines), lines[k]);
  }

  /** The channel's title and description are written escaped, in the channel header. */
  lemma ChannelTextInHeader(podcast: Podcast, options: FeedOptions, formatDate: DateFormatter)
    ensures var header := FeedHeader(podcast, options, formatDate);
      Contains(header, "    <title>" + EscapeXml(JsString(podcast.title)) + "</title>\n")
      && Contains(header, "    <description>" + EscapeXml(JsString(podcast.description)) + "</description>\n")
  {
    OpeningLineInHeader(podcast, options, formatDate, 3);
    OpeningLineInHeader(podcast, options, formatDate, 5);
  }

  /** The channel link is the site URL, `/podcasts/` and the podcast's slug. */
  lemma ChannelLinkInHeader(podcast: Podcast, options: FeedOptions, formatDate: DateFormatter)
    ensures Contains(FeedHeader(podcast, options, formatDate),
                     "    <link>" + PodcastBaseUrl(options.siteUrl, podcast.podcastSlug) + "</link>\n")
  {
    OpeningLineInHeader(podcast, options, formatDate, 4);
  }

  /** The channel's language element carries the podcast's language, or `en-us` when it has none. */
  lemma LanguageInHeader(podcast: Podcast, options: FeedOptions, formatDate: DateFormatter)
    ensures var header := FeedHeader(podcast, options, formatDate);
      (Truthy(podcast.language) ==> Contains(header, "    <language>" + podcast.language.value + "</language>\n"))
      && (!Truthy(podcast.language) ==> Contains(header, "    <language>" + "en-us" + "</language>\n"))
  {
    OpeningLineInHeader(podcast, options, formatDate, 6);
  }

  /** The channel's `<lastBuildDate>` and `<pubDate>` carry one formatted value, from `updated_at`
      when it is set and truthy and from `created_at` otherwise. */
  lemma BuildDatesInHeader(podcast: Podcast, options: FeedOptions, formatDate: DateFormatter)
    ensures var header := FeedHeader(podcast, options, formatDate);
      var source := if podcast.updatedAt.Some? && DateTruthy(podcast.updatedAt.value)
                    then podcast.updatedAt.value else podcast.createdAt;
      Contains(header, "    <lastBuildDate>" + formatDate(source) + "</lastBuildDate>\n")
      && Contains(header, "    <pubDate>" + formatDate(source) + "</pubDate>\n")
  {
    OpeningLineInHeader(podcast, options, formatDate, 7);
    OpeningLineInHeader(podcast, options, formatDate, 8);
  }

  /** The channel's explicit flag is the literal `true` or `false`. */
  lemma ChannelExplicitInHeader(podcast: Podcast, options: FeedOptions, formatDate: DateFormatter)
    ensures var header := FeedHeader(podcast, options, formatDate);
      (podcast.explicit ==> Contains(header, "    <itunes:explicit>" + "true" + "</itunes:explicit>\n"))
      && (!podcast.explicit ==> Contains(header, "    <itunes:explicit>" + "false" + "</itunes:explicit>\n"))
  {
    ItunesLineInHeader(podcast, options, formatDate, 2);
  }

  /** The channel's categories line and its atom self link. */
  lemma CategoriesAndSelfLinkInHeader(podcast: Podcast, options: FeedOptions, formatDate: DateFormatter)
    ensures var header := FeedHeader(podcast, options, formatDate);
      Contains(header, "    " + CategoriesXml(podcast.itunesCategory) + "\n")
      && Contains(header, "    <atom:link href=\"" + PodcastFeedUrl(PodcastBaseUrl(options.siteUrl, podcast.podcastSlug))
                          + "\" rel=\"self\" type=\"application/rss+xml\"/>\n")
  {
    TrailerLineInHeader(podcast, options, formatDate, 0);
    TrailerLineInHeader(podcast, options, formatDate, 1);
  }

  /** The channel's `<podcast:locked>` carries the podcast's value, or `no` when it has none. */
  lemma LockedInHeader(podcast: Podcast, options: FeedOptions, formatDate: DateFormatter)
    ensures var header := FeedHeader(podcast, options, formatDate);
      (Truthy(podcast.locked) ==> Contains(header, "    <podcast:locked>" + podcast.locked.value + "</podcast:locked>\n"))
      && (!Truthy(podcast.locked) ==> Contains(header, "    <podcast:locked>" + "no" + "</podcast:locked>\n"))
  {
    TrailerLineInHeader(podcast, options, formatDate, 2);
  }

  // ---------------------------------------------------------------------------
  // Where each episode's values appear

  /** Every episode's item is part of the document. */
  lemma ItemInFeed(podcast: Podcast, episodes: Option<seq<Episode>>, options: FeedOptions,
                   formatDate: DateFormatter, k: nat)
    requires k < |EpisodeList(episodes)|
    ensures Contains(RssFeed(podcast, episodes, options, formatDate),
                     ItemXml(podcast, PodcastBaseUrl(options.siteUrl, podcast.podcastSlug), formatDate,
                             EpisodeList(episodes)[k]))
  {
    var podcastBaseUrl := PodcastBaseUrl(options.siteUrl, podcast.podcastSlug);
    var header := ChannelHeader(podcast, podcastBaseUrl, PodcastFeedUrl(podcastBaseUrl), formatDate(BuildDateSource(podcast)));
    var list := EpisodeList(episodes);
    var items := ItemsXml(podcast, podcastBaseUrl, formatDate, list);
    var item := ItemXml(podcast, podcastBaseUrl, formatDate, list[k]);
    ItemsXmlAt(podcast, podcastBaseUrl, formatDate, list, k);
    ContainsJoin(ItemsXml(podcast, podcastBaseUrl, formatDate, list[..k]), item,
                 ItemsXml(podcast, podcastBaseUrl, formatDate, list[k + 1..]));
    ContainsJoin(header, items, ChannelClose);
    ContainsTransitive(RssFeed(podcast, episodes, options, formatDate), items, item);
  }

  lemma ItemLineInItem(podcast: Podcast, podcastBaseUrl: string, formatDate: DateFormatter, episode: Episode, k: nat)
    requires k < 10
    ensures var lines := ItemBodyLines(podcast, episode, EpisodeUrl(podcastBaseUrl, episode.episodeSlug),
                                       EpisodeImageUrl(episode, podcast), EnclosureType(episode.audioUrl),
                                       formatDate(episode.publicationDate));
      k < |lines| && Contains(ItemXml(podcast, podcastBaseUrl, formatDate, episode), lines[k])
  {
    var lines := ItemBodyLines(podcast, episode, EpisodeUrl(podcastBaseUrl, episode.episodeSlug),
                               EpisodeImageUrl(episode, podcast), EnclosureType(episode.audioUrl),
                               formatDate(episode.publicationDate));
    var body := Concat(lines);
    ConcatContainsPart(lines, k);
    ContainsJoin(ItemOpen, body, []);
    assert ItemOpen + body + [] == ItemXml(podcast, podcastBaseUrl, formatDate, episode);
    ContainsTransitive(ItemXml(podcast, podcastBaseUrl, formatDate, episode), body, lines[k]);
  }

  /** An item's title and description are escaped; its guid is copied; its link is the channel
      link, `/episodes/` and the episode's slug; its date is the episode's formatted date. */
  lemma EpisodeFieldsInItem(podcast: Podcast, podcastBaseUrl: string, formatDate: DateFormatter, episode: Episode)
    ensures var item := ItemXml(podcast, podcastBaseUrl, formatDate, episode);
      Contains(item, "      <title>" + EscapeXml(JsString(episode.title)) + "</title>\n")
      && Contains(item, "      <guid isPermaLink=\"false\">" + episode.guid + "</guid>\n")
      && Contains(item, "      <link>" + EpisodeUrl(podcastBaseUrl, episode.episodeSlug) + "</link>\n")
      && Contains(item, "      <description>" + EscapeXml(JsString(episode.description)) + "</description>\n")
      && Contains(item, "      <pubDate>" + formatDate(episode.publicationDate) + "</pubDate>\n")
  {
    ItemLineInItem(podcast, podcastBaseUrl, formatDate, episode, 0);
    ItemLineInItem(podcast, podcastBaseUrl, formatDate, episode, 1);
    ItemLineInItem(podcast, podcastBaseUrl, formatDate, episode, 2);
    ItemLineInItem(podcast, podcastBaseUrl, formatDate, episode, 3);
    ItemLineInItem(podcast, podcastBaseUrl, formatDate, episode, 4);
  }

  /** The enclosure carries the escaped audio URL, the length in decimal, and `audio/mp4` exactly
      when the URL mentions `.mp4` or `.m4a`, `audio/mpeg` otherwise. */
  lemma EnclosureInItem(podcast: Podcast, podcastBaseUrl: string, formatDate: DateFormatter, episode: Episode)
    ensures var item := ItemXml(podcast, podcastBaseUrl, formatDate, episode);
      var mp4 := Includes(episode.audioUrl, ".mp4") || Includes(episode.audioUrl, ".m4a");
      Contains(item, "      <enclosure url=\"" + EscapeXml(JsString(episode.audioUrl)) + "\" length=\""
                     + DecimalString(episode.audioLength) + "\" type=\"" + (if mp4 then "audio/mp4" else "audio/mpeg")
                     + "\"/>\n")
  {
    ItemLineInItem(podcast, podcastBaseUrl, formatDate, episode, 5);
  }

  /** Every item repeats the podcast's author and explicit flag, and shows the episode's image,
      or the podcast's when the episode has none. */
  lemma PodcastValuesInItem(podcast: Podcast, podcastBaseUrl: string, formatDate: DateFormatter, episode: Episode)
    ensures var item := ItemXml(podcast, podcastBaseUrl, formatDate, episode);
      Contains(item, "      <itunes:author>" + EscapeXml(JsString(podcast.owner)) + "</itunes:author>\n")
      && Contains(item, "      <itunes:explicit>" + (if podcast.explicit then "true" else "false")
                        + "</itunes:explicit>\n")
      && (Truthy(episode.imageUrl) ==>
            Contains(item, "      <itunes:image href=\"" + EscapeXml(JsString(episode.imageUrl.value)) + "\"/>\n"))
      && (!Truthy(episode.imageUrl) ==>
            Contains(item, "      <itunes:image href=\"" + EscapeXml(JsString(podcast.imageUrl)) + "\"/>\n"))
  {
    ItemLineInItem(podcast, podcastBaseUrl, formatDate, episode, 6);
    ItemLineInItem(podcast, podcastBaseUrl, formatDate, episode, 7);
    ItemLineInItem(podcast, podcastBaseUrl, formatDate, episode, 8);
  }

  // ---------------------------------------------------------------------------
  // Links

  /** Different podcast slugs give different channel links. */
  lemma ChannelLinkInjective(siteUrl: string, slug1: string, slug2: string)
    ensures PodcastBaseUrl(siteUrl, slug1) == PodcastBaseUrl(siteUrl, slug2) <==> slug1 == slug2
  {
    if PodcastBaseUrl(siteUrl, slug1) == PodcastBaseUrl(siteUrl, slug2) {
      var n := |siteUrl + "/podcasts/"|;
      assert PodcastBaseUrl(siteUrl, slug1)[n..] == slug1;
      assert PodcastBaseUrl(siteUrl, slug2)[n..] == slug2;
    }
  }

  /** Different episode slugs give different episode links. */
  lemma EpisodeLinkInjective(podcastBaseUrl: string, slug1: string, slug2: string)
    ensures EpisodeUrl(podcastBaseUrl, slug1) == EpisodeUrl(podcastBaseUrl, slug2) <==> slug1 == slug2
  {
    if EpisodeUrl(podcastBaseUrl, slug1) == EpisodeUrl(podcastBaseUrl, slug2) {
      var n := |podcastBaseUrl + "/episodes/"|;
      assert EpisodeUrl(podcastBaseUrl, slug1)[n..] == slug1;
      assert EpisodeUrl(podcastBaseUrl, slug2)[n..] == slug2;
    }
  }

  /** The feed's self link is never one of its episode links, whatever the slug. */
  lemma SelfLinkIsNoEpisodeLink(podcastBaseUrl: string, episodeSlug: string)
    ensures PodcastFeedUrl(podcastBaseUrl) != EpisodeUrl(podcastBaseUrl, episodeSlug)
  {
    var n := |podcastBaseUrl|;
    assert PodcastFeedUrl(podcastBaseUrl)[n + 1] == 'r';
    assert EpisodeUrl(podcastBaseUrl, episodeSlug)[n + 1] == 'e';
  }

  // ---------------------------------------------------------------------------
  // Categories: one element per entry, a nested one for an entry with a subtext

  const CategoryTag := "<itunes:category"

  /** How many entries carry a truthy subtext, and so a nested child element. */
  function NestedCategories(categories: seq<Category>): nat {
    if categories == [] then 0
    else (if Truthy(categories[0].subtext) then 1 else 0) + NestedCategories(categories[1..])
  }

  lemma CategoryTagOpensOnce()
    ensures CategoryTag[0] !in CategoryTag[1..]
  {
    var rest := CategoryTag[1..];
    forall k | 0 <= k < |rest| ensures rest[k] != '<' {
      assert rest[k] == CategoryTag[k + 1];
    }
  }

  /** The literal pieces of a category element, cut at its opening tags. */
  lemma CategoryOpenPiece()
    ensures "<itunes:category text=\"" == CategoryTag + " text=\""
    ensures '<' !in " text=\"" && '<' !in "\">" && '<' !in "\"/>"
  {
  }

  lemma NestedOpenPiece()
    ensures "\"><itunes:category text=\"" == "\">" + CategoryTag + " text=\""
  {
  }

  lemma NestedClosePiece()
    ensures "\"/></itunes:category>" == "\"/>" + "</itunes:category>"
  {
  }

  lemma ClosingCategoryCount()
    ensures Count(CategoryTag, "</itunes:category>") == 0
  {
    var s := "</itunes:category>";
    assert s[1] != CategoryTag[1];
    assert !(CategoryTag <= s);
    assert s[1..] == "/itunes:category>";
    CountFree(CategoryTag, s[1..]);
  }

  /** One opening tag followed by text without `<`. */
  lemma FlatShapeCount(p: string, open: string, a: string, e: string, b: string)
    requires p != [] && p[0] !in p[1..] && open == p + a
    requires p[0] !in a && p[0] !in e && p[0] !in b
    ensures Count(p, open + e + b) == 1
  {
    assert open + e + b == p + (a + e + b);
    CountLeading(p, a + e + b);
    CountFree(p, a + e + b);
  }

  /** Two opening tags, each followed by text without `<`, then a tail without the tag. */
  lemma NestedShapeCount(p: string, open: string, a: string, e1: string, middle: string, m: string,
                         e2: string, close: string, b: string, z: string)
    requires p != [] && p[0] !in p[1..]
    requires open == p + a && middle == m + p + a && close == b + z
    requires p[0] !in a && p[0] !in e1 && p[0] !in m && p[0] !in e2 && p[0] !in b
    requires Count(p, z) == 0
    ensures Count(p, open + e1 + middle + e2 + close) == 2
  {
    var inner := p + (a + e2 + b + z);
    assert open + e1 + middle + e2 + close == p + ((a + e1 + m) + inner);
    CountLeading(p, (a + e1 + m) + inner);
    CountSkip(p, a + e1 + m, inner);
    CountLeading(p, a + e2 + b + z);
    CountSkip(p, a + e2 + b, z);
  }

  lemma FlatCategoryCount(category: Category)
    requires !Truthy(category.subtext)
    ensures Count(CategoryTag, CategoryXml(category)) == 1
  {
    CategoryTagOpensOnce();
    CategoryOpenPiece();
    EscapeTextHasNoMarkup(category.text);
    FlatShapeCount(CategoryTag, "<itunes:category text=\"", " text=\"", EscapeXml(JsString(category.text)), "\"/>");
  }

  lemma NestedCategoryCount(category: Category)
    requires Truthy(category.subtext)
    ensures Count(CategoryTag, CategoryXml(category)) == 2
  {
    CategoryTagOpensOnce();
    CategoryOpenPiece();
    NestedOpenPiece();
    NestedClosePiece();
    EscapeTextHasNoMarkup(category.text);
    EscapeTextHasNoMarkup(category.subtext.value);
    ClosingCategoryCount();
    NestedShapeCount(CategoryTag, "<itunes:category text=\"", " text=\"", EscapeXml(JsString(category.text)),
                     "\"><itunes:category text=\"", "\">", EscapeXml(JsString(category.subtext.value)),
                     "\"/></itunes:category>", "\"/>", "</itunes:category>");
  }

  /** A category element opens one `itunes:category` element, or two when it is nested. */
  lemma CategoryCount(category: Category)
    ensures Count(CategoryTag, CategoryXml(category)) == (if Truthy(category.subtext) then 2 else 1)
    ensures Sealed(CategoryTag, CategoryXml(category))
  {
    if Truthy(category.subtext) {
      NestedCategoryCount(category);
    } else {
      FlatCategoryCount(category);
    }
    CategorySealed(category);
  }

  lemma CategorySealed(category: Category)
    ensures Sealed(CategoryTag, CategoryXml(category))
  {
    CategoryEndsSealed();
    if Truthy(category.subtext) {
      SealedSuffix(CategoryTag, "<itunes:category text=\"" + EscapeXml(JsString(category.text)) + "\"><itunes:category text=\""
                                + EscapeXml(JsString(category.subtext.value)), "\"/></itunes:category>");
    } else {
      SealedSuffix(CategoryTag, "<itunes:category text=\"" + EscapeXml(JsString(category.text)), "\"/>");
    }
  }

  lemma CategoryEndsSealed()
    ensures Sealed(CategoryTag, "\"/>") && Sealed(CategoryTag, "\"/></itunes:category>")
  {
    assert CategoryTag[..|CategoryTag| - 1] == "<itunes:categor";
  }

  /** The categories line opens one element per entry, plus one child per nested entry. */
  lemma {:induction false} CategoriesCount(categories: seq<Category>)
    ensures Count(CategoryTag, CategoriesXml(categories)) == |categories| + NestedCategories(categories)
    decreases |categories|
  {
    if |categories| == 1 {
      CategoryCount(categories[0]);
      assert categories[1..] == [];
    } else if |categories| > 1 {
      var first := CategoryXml(categories[0]);
      var rest := CategoriesXml(categories[1..]);
      CategoryCount(categories[0]);
      CategoriesCount(categories[1..]);
      CategoryTagOpensOnce();
      CountAppend(CategoryTag, first, "\n    " + rest);
      CountSkip(CategoryTag, "\n    ", rest);
      AppendAssociative(first, "\n    ", rest);
    }
  }

  // ---------------------------------------------------------------------------
  // Categories, in input order

  /** Rendering two non-empty lists of categories joins their lines with the separator. */
  lemma {:induction false} CategoriesXmlAppend(a: seq<Category>, b: seq<Category>)
    requires a != [] && b != []
    ensures CategoriesXml(a + b) == CategoriesXml(a) + "\n    " + CategoriesXml(b)
    decreases |a|
  {
    assert (a + b)[0] == a[0];
    assert (a + b)[1..] == a[1..] + b;
    if |a| == 1 {
      assert a[1..] + b == b;
    } else {
      CategoriesXmlAppend(a[1..], b);
      AppendAssociative(CategoryXml(a[0]) + "\n    ", CategoriesXml(a[1..]), "\n    " + CategoriesXml(b));
    }
  }

  /** From the k-th category on, the line is that category's element, then the separator and
      the elements after it, if any. */
  lemma CategoriesXmlFrom(categories: seq<Category>, k: nat)
    requires k < |categories|
    ensures CategoriesXml(categories[k..])
         == CategoryXml(categories[k])
            + (if k + 1 == |categories| then "" else "\n    " + CategoriesXml(categories[k + 1..]))
  {
    var tail := categories[k..];
    var element := CategoryXml(categories[k]);
    assert tail[0] == categories[k];
    if k + 1 < |categories| {
      assert tail[1..] == categories[k + 1..];
      assert CategoriesXml(tail) == element + "\n    " + CategoriesXml(categories[k + 1..]);
      AppendAssociative(element, "\n    ", CategoriesXml(categories[k + 1..]));
    }
  }
}
