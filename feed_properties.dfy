/** What the generated document guarantees: exactly one `<item>` per episode, in order;
    every `&` opens an entity reference; the channel's defaults and fall-backs; the links
    derived from the slugs. The first two rest on the fields the renderer copies without
    escaping (links, slugs, identifiers, formatted dates) holding no `<` or `&`. */
module FeedProperties {
  import opened Js
  import opened Utils
  import opened Text
  import opened PodcastRss
  import opened FeedMarkup
  import opened FeedFrame

  // ---------------------------------------------------------------------------
  // Fields written without escaping

  /** The channel's verbatim fields hold no `<` and no `&`. */
  ghost predicate ChannelFieldsPlain(podcast: Podcast, options: FeedOptions, formatDate: DateFormatter) {
    Plain(options.siteUrl) && Plain(podcast.podcastSlug) && OptionPlain(podcast.language)
    && OptionPlain(podcast.locked) && Plain(podcast.id) && Plain(formatDate(BuildDateSource(podcast)))
  }

  /** An episode's verbatim fields hold no `<` and no `&`. */
  ghost predicate EpisodeFieldsPlain(episode: Episode, formatDate: DateFormatter) {
    Plain(episode.guid) && Plain(episode.episodeSlug) && Plain(formatDate(episode.publicationDate))
  }

  ghost predicate VerbatimFieldsPlain(podcast: Podcast, episodes: Option<seq<Episode>>, options: FeedOptions,
                                      formatDate: DateFormatter) {
    ChannelFieldsPlain(podcast, options, formatDate)
    && forall k :: 0 <= k < |EpisodeList(episodes)| ==> EpisodeFieldsPlain(EpisodeList(episodes)[k], formatDate)
  }

  // ---------------------------------------------------------------------------
  // The channel header is clean

  lemma OrPlain(o: Option<string>, fallback: string)
    requires OptionPlain(o) && Plain(fallback)
    ensures Plain(Or(o, fallback))
  {
  }

  // ---------------------------------------------------------------------------
  // The literal pieces of the templates, one lemma per element: its start tag as the
  // channel indents it, as an item indents it, and its end tag

  lemma TitleTagsClean()
    ensures Clean("    <title>") && Clean("      <title>") && Clean("</title>\n")
  {
    LiteralClean("    <title>");
    LiteralClean("      <title>");
    LiteralClean("</title>\n");
  }

  lemma LinkTagsClean()
    ensures Clean("    <link>") && Clean("      <link>") && Clean("</link>\n")
  {
    LiteralClean("    <link>");
    LiteralClean("      <link>");
    LiteralClean("</link>\n");
  }

  lemma DescriptionTagsClean()
    ensures Clean("    <description>") && Clean("      <description>") && Clean("</description>\n")
  {
    LiteralClean("    <description>");
    LiteralClean("      <description>");
    LiteralClean("</description>\n");
  }

  lemma PubDateTagsClean()
    ensures Clean("    <pubDate>") && Clean("      <pubDate>") && Clean("</pubDate>\n")
  {
    LiteralClean("    <pubDate>");
    LiteralClean("      <pubDate>");
    LiteralClean("</pubDate>\n");
  }

  lemma LanguageTagsClean()
    ensures Clean("    <language>") && Clean("</language>\n")
  {
    LiteralClean("    <language>");
    LiteralClean("</language>\n");
  }

  lemma LastBuildDateTagsClean()
    ensures Clean("    <lastBuildDate>") && Clean("</lastBuildDate>\n")
  {
    LiteralClean("    <lastBuildDate>");
    LiteralClean("</lastBuildDate>\n");
  }

  /** The end of an empty element: `"/>` closing an attribute, on its own or ending a line. */
  lemma EmptyElementEndClean()
    ensures Clean("\"/>") && Clean("\"/>\n")
  {
    LiteralClean("\"/>");
    LiteralClean("\"/>\n");
  }

  lemma ImageTagsClean()
    ensures Clean("    <itunes:image href=\"") && Clean("      <itunes:image href=\"")
  {
    LiteralClean("    <itunes:image href=\"");
    LiteralClean("      <itunes:image href=\"");
  }

  lemma AuthorTagsClean()
    ensures Clean("    <itunes:author>") && Clean("      <itunes:author>") && Clean("</itunes:author>\n")
  {
    AuthorStartTagsClean();
    LiteralClean("</itunes:author>\n");
  }

  lemma AuthorStartTagsClean()
    ensures Clean("    <itunes:author>") && Clean("      <itunes:author>")
  {
    LiteralClean("    <itunes:author>");
    LiteralClean("      <itunes:author>");
  }

  lemma ExplicitTagsClean()
    ensures Clean("    <itunes:explicit>") && Clean("      <itunes:explicit>") && Clean("</itunes:explicit>\n")
  {
    ExplicitStartTagsClean();
    LiteralClean("</itunes:explicit>\n");
  }

  lemma ExplicitStartTagsClean()
    ensures Clean("    <itunes:explicit>") && Clean("      <itunes:explicit>")
  {
    LiteralClean("    <itunes:explicit>");
    LiteralClean("      <itunes:explicit>");
  }

  lemma OwnerTagsClean()
    ensures Clean("    <itunes:owner>\n") && Clean("    </itunes:owner>\n")
  {
    LiteralClean("    <itunes:owner>\n");
    LiteralClean("    </itunes:owner>\n");
  }

  lemma OwnerNameTagsClean()
    ensures Clean("      <itunes:name>") && Clean("</itunes:name>\n")
  {
    LiteralClean("      <itunes:name>");
    LiteralClean("</itunes:name>\n");
  }

  lemma OwnerEmailTagsClean()
    ensures Clean("      <itunes:email>") && Clean("</itunes:email>\n")
  {
    LiteralClean("      <itunes:email>");
    LiteralClean("</itunes:email>\n");
  }

  /** The category line: its indent, its line end, and the separator between categories. */
  lemma CategoryLineTagsClean()
    ensures Clean("    ") && Clean("\n") && Clean("\n    ")
  {
    LiteralClean("    ");
    LiteralClean("\n");
    LiteralClean("\n    ");
  }

  lemma CategoryTagsClean()
    ensures Clean("<itunes:category text=\"")
    ensures Clean("\"><itunes:category text=\"")
    ensures Clean("\"/></itunes:category>")
  {
    CategoryOpenTagsClean();
    LiteralClean("\"/></itunes:category>");
  }

  lemma CategoryOpenTagsClean()
    ensures Clean("<itunes:category text=\"") && Clean("\"><itunes:category text=\"")
  {
    LiteralClean("<itunes:category text=\"");
    LiteralClean("\"><itunes:category text=\"");
  }

  lemma AtomLinkTagsClean()
    ensures Clean("    <atom:link href=\"")
    ensures Clean("\" rel=\"self\" type=\"application/rss+xml\"/>\n")
  {
    LiteralClean("    <atom:link href=\"");
    LiteralClean("\" rel=\"self\" type=\"application/rss+xml\"/>\n");
  }

  lemma LockedTagsClean()
    ensures Clean("    <podcast:locked>") && Clean("</podcast:locked>\n")
  {
    LiteralClean("    <podcast:locked>");
    LiteralClean("</podcast:locked>\n");
  }

  lemma PodcastGuidTagsClean()
    ensures Clean("    <podcast:guid>") && Clean("</podcast:guid>\n")
  {
    LiteralClean("    <podcast:guid>");
    LiteralClean("</podcast:guid>\n");
  }

  lemma ItemGuidTagsClean()
    ensures Clean("      <guid isPermaLink=\"false\">") && Clean("</guid>\n")
  {
    LiteralClean("      <guid isPermaLink=\"false\">");
    LiteralClean("</guid>\n");
  }

  lemma EnclosureTagsClean()
    ensures Clean("      <enclosure url=\"") && Clean("\" length=\"") && Clean("\" type=\"")
  {
    LiteralClean("      <enclosure url=\"");
    LiteralClean("\" length=\"");
    LiteralClean("\" type=\"");
  }

  lemma ItemEndTagClean()
    ensures Clean("    </item>\n")
  {
    LiteralClean("    </item>\n");
  }

  // ---------------------------------------------------------------------------
  // The channel header after its front is clean

  lemma CategoryClean(category: Category)
    ensures Clean(CategoryXml(category))
  {
    CategoryTagsClean();
    EmptyElementEndClean();
    EscapedIsSafe(category.text);
    var text := EscapeXml(JsString(category.text));
    if Truthy(category.subtext) {
      EscapedIsSafe(category.subtext.value);
      CleanField("<itunes:category text=\"", text, "\"><itunes:category text=\"");
      CleanField("<itunes:category text=\"" + text + "\"><itunes:category text=\"",
                 EscapeXml(JsString(category.subtext.value)), "\"/></itunes:category>");
    } else {
      CleanField("<itunes:category text=\"", text, "\"/>");
    }
  }

  lemma {:induction false} CategoriesClean(categories: seq<Category>)
    ensures Clean(CategoriesXml(categories))
    decreases |categories|
  {
    if categories == [] {
      CleanEmpty();
    } else if |categories| == 1 {
      CategoryClean(categories[0]);
    } else {
      CategoryClean(categories[0]);
      CategoriesClean(categories[1..]);
      CategoryLineTagsClean();
      CleanAppend(CategoryXml(categories[0]), "\n    ");
      CleanAppend(CategoryXml(categories[0]) + "\n    ", CategoriesXml(categories[1..]));
    }
  }

  lemma CategoryLineClean(categories: seq<Category>)
    ensures Clean("    " + CategoriesXml(categories) + "\n")
  {
    CategoriesClean(categories);
    CategoryLineTagsClean();
    CleanAppend("    ", CategoriesXml(categories));
    CleanAppend("    " + CategoriesXml(categories), "\n");
  }

  lemma ChannelTextLinesClean(podcast: Podcast)
    ensures Clean("    <title>" + EscapeXml(JsString(podcast.title)) + "</title>\n")
    ensures Clean("    <description>" + EscapeXml(JsString(podcast.description)) + "</description>\n")
  {
    TitleTagsClean();
    DescriptionTagsClean();
    EscapedIsSafe(podcast.title);
    CleanField("    <title>", EscapeXml(JsString(podcast.title)), "</title>\n");
    EscapedIsSafe(podcast.description);
    CleanField("    <description>", EscapeXml(JsString(podcast.description)), "</description>\n");
  }

  lemma ChannelLinkLinesClean(podcast: Podcast, podcastBaseUrl: string)
    requires Plain(podcastBaseUrl) && OptionPlain(podcast.language)
    ensures Clean("    <link>" + podcastBaseUrl + "</link>\n")
    ensures Clean("    <language>" + LanguageOf(podcast) + "</language>\n")
  {
    LinkTagsClean();
    LanguageTagsClean();
    PlainIsSafe(podcastBaseUrl);
    CleanField("    <link>", podcastBaseUrl, "</link>\n");
    OrPlain(podcast.language, "en-us");
    PlainIsSafe(LanguageOf(podcast));
    CleanField("    <language>", LanguageOf(podcast), "</language>\n");
  }

  lemma ChannelDateLinesClean(lastBuildDate: string)
    requires Plain(lastBuildDate)
    ensures Clean("    <lastBuildDate>" + lastBuildDate + "</lastBuildDate>\n")
    ensures Clean("    <pubDate>" + lastBuildDate + "</pubDate>\n")
  {
    LastBuildDateTagsClean();
    PubDateTagsClean();
    PlainIsSafe(lastBuildDate);
    CleanField("    <lastBuildDate>", lastBuildDate, "</lastBuildDate>\n");
    CleanField("    <pubDate>", lastBuildDate, "</pubDate>\n");
  }

  lemma ItunesImageLineClean(podcast: Podcast)
    ensures Clean("    <itunes:image href=\"" + EscapeXml(JsString(podcast.imageUrl)) + "\"/>\n")
  {
    ImageTagsClean();
    EmptyElementEndClean();
    EscapedIsSafe(podcast.imageUrl);
    CleanField("    <itunes:image href=\"", EscapeXml(JsString(podcast.imageUrl)), "\"/>\n");
  }

  lemma ItunesAuthorLinesClean(podcast: Podcast)
    ensures Clean("    <itunes:author>" + EscapeXml(JsString(podcast.owner)) + "</itunes:author>\n")
    ensures Clean("    <itunes:explicit>" + ExplicitText(podcast.explicit) + "</itunes:explicit>\n")
  {
    AuthorTagsClean();
    ExplicitTagsClean();
    EscapedIsSafe(podcast.owner);
    CleanField("    <itunes:author>", EscapeXml(JsString(podcast.owner)), "</itunes:author>\n");
    PlainIsSafe(ExplicitText(podcast.explicit));
    CleanField("    <itunes:explicit>", ExplicitText(podcast.explicit), "</itunes:explicit>\n");
  }

  lemma ItunesOwnerLinesClean(podcast: Podcast)
    ensures Clean("    <itunes:owner>\n") && Clean("    </itunes:owner>\n")
    ensures Clean("      <itunes:name>" + EscapeXml(JsString(podcast.itunesOwnerName)) + "</itunes:name>\n")
    ensures Clean("      <itunes:email>" + EscapeXml(JsString(podcast.itunesOwnerEmail)) + "</itunes:email>\n")
  {
    OwnerTagsClean();
    OwnerNameTagsClean();
    OwnerEmailTagsClean();
    EscapedIsSafe(podcast.itunesOwnerName);
    CleanField("      <itunes:name>", EscapeXml(JsString(podcast.itunesOwnerName)), "</itunes:name>\n");
    EscapedIsSafe(podcast.itunesOwnerEmail);
    CleanField("      <itunes:email>", EscapeXml(JsString(podcast.itunesOwnerEmail)), "</itunes:email>\n");
  }

  lemma FeedIdentityLinesClean(podcast: Podcast, podcastFeedUrl: string)
    requires Plain(podcastFeedUrl) && OptionPlain(podcast.locked) && Plain(podcast.id)
    ensures Clean("    <atom:link href=\"" + podcastFeedUrl + "\" rel=\"self\" type=\"application/rss+xml\"/>\n")
    ensures Clean("    <podcast:locked>" + LockedOf(podcast) + "</podcast:locked>\n")
    ensures Clean("    <podcast:guid>" + podcast.id + "</podcast:guid>\n")
  {
    AtomLinkTagsClean();
    LockedTagsClean();
    PodcastGuidTagsClean();
    PlainIsSafe(podcastFeedUrl);
    CleanField("    <atom:link href=\"", podcastFeedUrl, "\" rel=\"self\" type=\"application/rss+xml\"/>\n");
    OrPlain(podcast.locked, "no");
    PlainIsSafe(LockedOf(podcast));
    CleanField("    <podcast:locked>", LockedOf(podcast), "</podcast:locked>\n");
    PlainIsSafe(podcast.id);
    CleanField("    <podcast:guid>", podcast.id, "</podcast:guid>\n");
  }

  lemma ChannelOpeningClean(podcast: Podcast, podcastBaseUrl: string, lastBuildDate: string)
    requires Plain(podcastBaseUrl) && OptionPlain(podcast.language) && Plain(lastBuildDate)
    ensures Clean(Concat(ChannelOpeningLines(podcast, podcastBaseUrl, lastBuildDate)[3..]))
  {
    var title := "    <title>" + EscapeXml(JsString(podcast.title)) + "</title>\n";
    var link := "    <link>" + podcastBaseUrl + "</link>\n";
    var description := "    <description>" + EscapeXml(JsString(podcast.description)) + "</description>\n";
    var language := "    <language>" + LanguageOf(podcast) + "</language>\n";
    var built := "    <lastBuildDate>" + lastBuildDate + "</lastBuildDate>\n";
    var published := "    <pubDate>" + lastBuildDate + "</pubDate>\n";
    ChannelTextLinesClean(podcast);
    ChannelLinkLinesClean(podcast, podcastBaseUrl);
    ChannelDateLinesClean(lastBuildDate);
    CleanLines6(title, link, description, language, built, published);
    assert ChannelOpeningLines(podcast, podcastBaseUrl, lastBuildDate)[3..]
      == [title, link, description, language, built, published];
  }

  lemma ChannelItunesClean(podcast: Podcast)
    ensures Clean(Concat(ChannelItunesLines(podcast)))
  {
    var image := "    <itunes:image href=\"" + EscapeXml(JsString(podcast.imageUrl)) + "\"/>\n";
    var author := "    <itunes:author>" + EscapeXml(JsString(podcast.owner)) + "</itunes:author>\n";
    var explicit := "    <itunes:explicit>" + ExplicitText(podcast.explicit) + "</itunes:explicit>\n";
    var name := "      <itunes:name>" + EscapeXml(JsString(podcast.itunesOwnerName)) + "</itunes:name>\n";
    var email := "      <itunes:email>" + EscapeXml(JsString(podcast.itunesOwnerEmail)) + "</itunes:email>\n";
    ItunesImageLineClean(podcast);
    ItunesAuthorLinesClean(podcast);
    ItunesOwnerLinesClean(podcast);
    CleanLines7(image, author, explicit, "    <itunes:owner>\n", name, email, "    </itunes:owner>\n");
    assert ChannelItunesLines(podcast)
      == [image, author, explicit, "    <itunes:owner>\n", name, email, "    </itunes:owner>\n"];
  }

  lemma ChannelTrailerClean(podcast: Podcast, podcastFeedUrl: string)
    requires Plain(podcastFeedUrl) && OptionPlain(podcast.locked) && Plain(podcast.id)
    ensures Clean(Concat(ChannelTrailerLines(podcast, podcastFeedUrl)))
  {
    var categories := "    " + CategoriesXml(podcast.itunesCategory) + "\n";
    var atom := "    <atom:link href=\"" + podcastFeedUrl + "\" rel=\"self\" type=\"application/rss+xml\"/>\n";
    var locked := "    <podcast:locked>" + LockedOf(podcast) + "</podcast:locked>\n";
    var guid := "    <podcast:guid>" + podcast.id + "</podcast:guid>\n";
    CategoryLineClean(podcast.itunesCategory);
    FeedIdentityLinesClean(podcast, podcastFeedUrl);
    CleanConcat([categories, atom, locked, guid]);
    assert ChannelTrailerLines(podcast, podcastFeedUrl) == [categories, atom, locked, guid];
  }

  lemma BodyClean(podcast: Podcast, podcastBaseUrl: string, podcastFeedUrl: string, lastBuildDate: string)
    requires Plain(podcastBaseUrl) && Plain(podcastFeedUrl) && Plain(lastBuildDate)
    requires OptionPlain(podcast.language) && OptionPlain(podcast.locked) && Plain(podcast.id)
    ensures Clean(ChannelBody(podcast, podcastBaseUrl, podcastFeedUrl, lastBuildDate))
  {
    var rest := Concat(ChannelOpeningLines(podcast, podcastBaseUrl, lastBuildDate)[3..]);
    var itunes := Concat(ChannelItunesLines(podcast));
    var trailer := Concat(ChannelTrailerLines(podcast, podcastFeedUrl));
    ChannelOpeningClean(podcast, podcastBaseUrl, lastBuildDate);
    ChannelItunesClean(podcast);
    ChannelTrailerClean(podcast, podcastFeedUrl);
    CleanAppend(rest, itunes);
    CleanAppend(rest + itunes, trailer);
  }

  /** The channel header is the front followed by a clean body; it holds no `<item>`, and
      every `&` in it opens an entity. */
  lemma HeaderClean(podcast: Podcast, podcastBaseUrl: string, podcastFeedUrl: string, lastBuildDate: string)
    requires Plain(podcastBaseUrl) && Plain(podcastFeedUrl) && Plain(lastBuildDate)
    requires OptionPlain(podcast.language) && OptionPlain(podcast.locked) && Plain(podcast.id)
    ensures ChannelHeader(podcast, podcastBaseUrl, podcastFeedUrl, lastBuildDate)
      == ChannelFront + ChannelBody(podcast, podcastBaseUrl, podcastFeedUrl, lastBuildDate)
    ensures Clean(ChannelBody(podcast, podcastBaseUrl, podcastFeedUrl, lastBuildDate))
    ensures var header := ChannelHeader(podcast, podcastBaseUrl, podcastFeedUrl, lastBuildDate);
      Count(ItemTag, header) == 0 && AmpersandsAreEntities(header) && Sealed(ItemTag, header)
  {
    HeaderSplit(podcast, podcastBaseUrl, podcastFeedUrl, lastBuildDate);
    BodyClean(podcast, podcastBaseUrl, podcastFeedUrl, lastBuildDate);
    FrontThenClean(ChannelBody(podcast, podcastBaseUrl, podcastFeedUrl, lastBuildDate));
  }


  // ---------------------------------------------------------------------------
  // One item is clean apart from its own `<item>`

  lemma ItemTextLinesClean(episode: Episode, episodeUrl: string, pubDate: string)
    requires Plain(episode.guid) && Plain(episodeUrl) && Plain(pubDate)
    ensures Clean("      <title>" + EscapeXml(JsString(episode.title)) + "</title>\n")
    ensures Clean("      <guid isPermaLink=\"false\">" + episode.guid + "</guid>\n")
    ensures Clean("      <link>" + episodeUrl + "</link>\n")
    ensures Clean("      <description>" + EscapeXml(JsString(episode.description)) + "</description>\n")
    ensures Clean("      <pubDate>" + pubDate + "</pubDate>\n")
  {
    TitleTagsClean();
    ItemGuidTagsClean();
    LinkTagsClean();
    DescriptionTagsClean();
    PubDateTagsClean();
    EscapedIsSafe(episode.title);
    CleanField("      <title>", EscapeXml(JsString(episode.title)), "</title>\n");
    PlainIsSafe(episode.guid);
    CleanField("      <guid isPermaLink=\"false\">", episode.guid, "</guid>\n");
    PlainIsSafe(episodeUrl);
    CleanField("      <link>", episodeUrl, "</link>\n");
    EscapedIsSafe(episode.description);
    CleanField("      <description>", EscapeXml(JsString(episode.description)), "</description>\n");
    PlainIsSafe(pubDate);
    CleanField("      <pubDate>", pubDate, "</pubDate>\n");
  }

  lemma EnclosureLineClean(episode: Episode, enclosureType: string)
    requires Plain(enclosureType)
    ensures Clean("      <enclosure url=\"" + EscapeXml(JsString(episode.audioUrl)) + "\" length=\""
                  + DecimalString(episode.audioLength) + "\" type=\"" + enclosureType + "\"/>\n")
  {
    EnclosureTagsClean();
    EmptyElementEndClean();
    EscapedIsSafe(episode.audioUrl);
    var s1 := "      <enclosure url=\"" + EscapeXml(JsString(episode.audioUrl)) + "\" length=\"";
    CleanField("      <enclosure url=\"", EscapeXml(JsString(episode.audioUrl)), "\" length=\"");
    DecimalIsPlain(episode.audioLength);
    PlainIsSafe(DecimalString(episode.audioLength));
    var s2 := s1 + DecimalString(episode.audioLength) + "\" type=\"";
    CleanField(s1, DecimalString(episode.audioLength), "\" type=\"");
    PlainIsSafe(enclosureType);
    CleanField(s2, enclosureType, "\"/>\n");
  }

  lemma ItemPodcastLinesClean(podcast: Podcast, episodeImageUrl: string)
    ensures Clean("      <itunes:author>" + EscapeXml(JsString(podcast.owner)) + "</itunes:author>\n")
    ensures Clean("      <itunes:explicit>" + ExplicitText(podcast.explicit) + "</itunes:explicit>\n")
    ensures Clean("      <itunes:image href=\"" + EscapeXml(JsString(episodeImageUrl)) + "\"/>\n")
    ensures Clean("    </item>\n")
  {
    AuthorTagsClean();
    ExplicitTagsClean();
    ImageTagsClean();
    EmptyElementEndClean();
    ItemEndTagClean();
    EscapedIsSafe(podcast.owner);
    CleanField("      <itunes:author>", EscapeXml(JsString(podcast.owner)), "</itunes:author>\n");
    PlainIsSafe(ExplicitText(podcast.explicit));
    CleanField("      <itunes:explicit>", ExplicitText(podcast.explicit), "</itunes:explicit>\n");
    EscapedIsSafe(episodeImageUrl);
    CleanField("      <itunes:image href=\"", EscapeXml(JsString(episodeImageUrl)), "\"/>\n");
  }

  lemma ItemBodyClean(podcast: Podcast, episode: Episode, episodeUrl: string, episodeImageUrl: string,
                      enclosureType: string, pubDate: string)
    requires Plain(episode.guid) && Plain(episodeUrl) && Plain(pubDate) && Plain(enclosureType)
    ensures Clean(Concat(ItemBodyLines(podcast, episode, episodeUrl, episodeImageUrl, enclosureType, pubDate)))
  {
    var title := "      <title>" + EscapeXml(JsString(episode.title)) + "</title>\n";
    var guid := "      <guid isPermaLink=\"false\">" + episode.guid + "</guid>\n";
    var link := "      <link>" + episodeUrl + "</link>\n";
    var description := "      <description>" + EscapeXml(JsString(episode.description)) + "</description>\n";
    var date := "      <pubDate>" + pubDate + "</pubDate>\n";
    var enclosure := "      <enclosure url=\"" + EscapeXml(JsString(episode.audioUrl)) + "\" length=\""
      + DecimalString(episode.audioLength) + "\" type=\"" + enclosureType + "\"/>\n";
    var author := "      <itunes:author>" + EscapeXml(JsString(podcast.owner)) + "</itunes:author>\n";
    var explicit := "      <itunes:explicit>" + ExplicitText(podcast.explicit) + "</itunes:explicit>\n";
    var image := "      <itunes:image href=\"" + EscapeXml(JsString(episodeImageUrl)) + "\"/>\n";
    var close := "    </item>\n";
    ItemTextLinesClean(episode, episodeUrl, pubDate);
    EnclosureLineClean(episode, enclosureType);
    ItemPodcastLinesClean(podcast, episodeImageUrl);
    CleanLines10(title, guid, link, description, date, enclosure, author, explicit, image, close);
    assert ItemBodyLines(podcast, episode, episodeUrl, episodeImageUrl, enclosureType, pubDate)
      == [title, guid, link, description, date, enclosure, author, explicit, image, close];
  }

  lemma ItemOpenSplit()
    ensures ItemOpen == "\n    " + ItemTag + "\n"
  {
  }

  lemma ItemOpenMarkup()
    ensures AmpersandsAreEntities(ItemOpen) && Sealed(ItemTag, ItemOpen) && StructFree(ItemOpen)
  {
    assert '&' !in ItemOpen;
  }

  /** An item block holds exactly one `<item>`: its own opening tag. */
  lemma ItemBlockCount(body: string)
    requires NoItem(body)
    ensures Count(ItemTag, ItemOpen + body) == 1
  {
    ItemOpenSplit();
    AppendAssociative("\n    " + ItemTag, "\n", body);
    AppendAssociative("\n    ", ItemTag, "\n" + body);
    CountSkip(ItemTag, "\n    ", ItemTag + ("\n" + body));
    ItemTagOpensOnce();
    CountLeading(ItemTag, "\n" + body);
    CountSkip(ItemTag, "\n", body);
    NoItemCount(body);
  }

  lemma ItemBlockWellFormed(body: string)
    requires Clean(body)
    ensures Count(ItemTag, ItemOpen + body) == 1
    ensures AmpersandsAreEntities(ItemOpen + body) && Sealed(ItemTag, ItemOpen + body)
    ensures StructFree(ItemOpen + body)
  {
    ItemBlockCount(body);
    ItemOpenMarkup();
    AmpersandsAreEntitiesAppend(ItemOpen, body);
    SealedAppend(ItemTag, ItemOpen, body);
    StructFreeAppend(ItemOpen, body);
  }

  lemma EnclosureTypePlain(audioUrl: string)
    ensures Plain(EnclosureType(audioUrl))
  {
  }

  lemma EpisodeUrlPlain(podcastBaseUrl: string, episodeSlug: string)
    requires Plain(podcastBaseUrl) && Plain(episodeSlug)
    ensures Plain(EpisodeUrl(podcastBaseUrl, episodeSlug))
  {
  }

  /** One item: a single `<item>`, entities only, nothing that runs into what follows, and
      no structural tag. */
  lemma ItemWellFormed(podcast: Podcast, podcastBaseUrl: string, formatDate: DateFormatter, episode: Episode)
    requires Plain(podcastBaseUrl) && EpisodeFieldsPlain(episode, formatDate)
    ensures var item := ItemXml(podcast, podcastBaseUrl, formatDate, episode);
      Count(ItemTag, item) == 1 && AmpersandsAreEntities(item) && Sealed(ItemTag, item) && StructFree(item)
  {
    var episodeUrl := EpisodeUrl(podcastBaseUrl, episode.episodeSlug);
    var episodeImageUrl := EpisodeImageUrl(episode, podcast);
    var enclosureType := EnclosureType(episode.audioUrl);
    var pubDate := formatDate(episode.publicationDate);
    EpisodeUrlPlain(podcastBaseUrl, episode.episodeSlug);
    EnclosureTypePlain(episode.audioUrl);
    ItemBodyClean(podcast, episode, episodeUrl, episodeImageUrl, enclosureType, pubDate);
    ItemBlockWellFormed(Concat(ItemBodyLines(podcast, episode, episodeUrl, episodeImageUrl, enclosureType, pubDate)));
  }

  /** Appending one well-formed item block to well-formed blocks. */
  lemma BlocksAppend(a: string, b: string, n: nat)
    requires Count(ItemTag, a) == n && AmpersandsAreEntities(a) && Sealed(ItemTag, a) && StructFree(a)
    requires Count(ItemTag, b) == 1 && AmpersandsAreEntities(b) && Sealed(ItemTag, b) && StructFree(b)
    ensures Count(ItemTag, a + b) == n + 1 && AmpersandsAreEntities(a + b) && Sealed(ItemTag, a + b)
    ensures StructFree(a + b)
  {
    CountAppend(ItemTag, a, b);
    StructFreeAppend(a, b);
    AmpersandsAreEntitiesAppend(a, b);
    SealedAppend(ItemTag, a, b);
  }

  /** The item blocks: one `<item>` per episode, and no structural tag. */
  lemma {:induction false} ItemsWellFormed(podcast: Podcast, podcastBaseUrl: string, formatDate: DateFormatter,
                                           episodes: seq<Episode>)
    requires Plain(podcastBaseUrl)
    requires forall k :: 0 <= k < |episodes| ==> EpisodeFieldsPlain(episodes[k], formatDate)
    ensures var items := ItemsXml(podcast, podcastBaseUrl, formatDate, episodes);
      Count(ItemTag, items) == |episodes| && AmpersandsAreEntities(items) && Sealed(ItemTag, items)
      && StructFree(items)
    decreases |episodes|
  {
    if episodes == [] {
      NoOpenStructFree([]);
    } else {
      var init := episodes[..|episodes| - 1];
      var last := episodes[|episodes| - 1];
      ItemsWellFormed(podcast, podcastBaseUrl, formatDate, init);
      ItemWellFormed(podcast, podcastBaseUrl, formatDate, last);
      var a := ItemsXml(podcast, podcastBaseUrl, formatDate, init);
      var b := ItemXml(podcast, podcastBaseUrl, formatDate, last);
      BlocksAppend(a, b, |init|);
    }
  }

  // ---------------------------------------------------------------------------
  // The whole document

  lemma FeedUrlsPlain(podcast: Podcast, options: FeedOptions)
    requires Plain(options.siteUrl) && Plain(podcast.podcastSlug)
    ensures Plain(PodcastBaseUrl(options.siteUrl, podcast.podcastSlug))
    ensures Plain(PodcastFeedUrl(PodcastBaseUrl(options.siteUrl, podcast.podcastSlug)))
  {
  }

  /** When no verbatim field holds `<` or `&`, the document holds exactly one `<item>` per
      episode, and every `&` in it opens an entity reference. */
  lemma FeedWellFormed(podcast: Podcast, episodes: Option<seq<Episode>>, options: FeedOptions,
                       formatDate: DateFormatter)
    requires VerbatimFieldsPlain(podcast, episodes, options, formatDate)
    ensures Count(ItemTag, RssFeed(podcast, episodes, options, formatDate)) == |EpisodeList(episodes)|
    ensures AmpersandsAreEntities(RssFeed(podcast, episodes, options, formatDate))
  {
    var podcastBaseUrl := PodcastBaseUrl(options.siteUrl, podcast.podcastSlug);
    var podcastFeedUrl := PodcastFeedUrl(podcastBaseUrl);
    var lastBuildDate := formatDate(BuildDateSource(podcast));
    var list := EpisodeList(episodes);
    var header := ChannelHeader(podcast, podcastBaseUrl, podcastFeedUrl, lastBuildDate);
    var items := ItemsXml(podcast, podcastBaseUrl, formatDate, list);
    FeedUrlsPlain(podcast, options);
    HeaderClean(podcast, podcastBaseUrl, podcastFeedUrl, lastBuildDate);
    ItemsWellFormed(podcast, podcastBaseUrl, formatDate, list);
    DocumentItems(header, items, |list|);
    assert RssFeed(podcast, episodes, options, formatDate) == header + items + ChannelClose;
  }

  /** When no verbatim field holds `<` or `&`, the document has exactly one `<rss ` start tag,
      one `</rss>`, one `<channel>` and one `</channel>`, whatever the episodes. */
  lemma FeedStructure(podcast: Podcast, episodes: Option<seq<Episode>>, options: FeedOptions,
                      formatDate: DateFormatter)
    requires VerbatimFieldsPlain(podcast, episodes, options, formatDate)
    ensures var feed := RssFeed(podcast, episodes, options, formatDate);
      Count(RssOpen, feed) == 1 && Count(RssEnd, feed) == 1
      && Count(ChannelOpen, feed) == 1 && Count(ChannelEnd, feed) == 1
  {
    var podcastBaseUrl := PodcastBaseUrl(options.siteUrl, podcast.podcastSlug);
    var podcastFeedUrl := PodcastFeedUrl(podcastBaseUrl);
    var lastBuildDate := formatDate(BuildDateSource(podcast));
    var list := EpisodeList(episodes);
    var body := ChannelBody(podcast, podcastBaseUrl, podcastFeedUrl, lastBuildDate);
    var items := ItemsXml(podcast, podcastBaseUrl, formatDate, list);
    FeedUrlsPlain(podcast, options);
    HeaderClean(podcast, podcastBaseUrl, podcastFeedUrl, lastBuildDate);
    ItemsWellFormed(podcast, podcastBaseUrl, formatDate, list);
    StructFreeAppend(body, items);
    AppendAssociative(ChannelFront, body, items);
    FrontLines();
    CloseLines();
    FrameTags(PrologLine, RssLine, ChannelLine, body + items, ChannelClose);
  }
}
