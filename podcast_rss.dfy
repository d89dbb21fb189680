/** The feed renderer of src/index.js: `generatePodcastRss` turns a podcast record, its
    episodes and the site's base URL into an RSS 2.0 document that also uses the iTunes,
    Podcast Index and Atom namespaces.

    The pure parts (links, dates, defaults, the channel header, one item, the category
    list) are functions; the document itself is built by a method that, like the source,
    starts from the channel header and appends one `<item>` block per episode and then the
    closing tags. Each template literal is written as the list of its lines. */
module PodcastRss {
  import opened Js
  import opened Utils
  import opened Text

  // ---------------------------------------------------------------------------
  // Records

  /** A timestamp as the caller supplies it: an ISO string or a `Date` object (given here
      by its epoch milliseconds). Parsing and formatting are not modelled. */
  datatype DateInput = DateString(text: string) | DateObject(epochMillis: int)

  /** One entry of `itunes_category`; `subtext` names a sub-category. */
  datatype Category = Category(text: string, subtext: Option<string>)

  datatype Podcast = Podcast(
    id: string,
    title: string,
    description: string,
    podcastSlug: string,
    imageUrl: string,
    language: Option<string>,
    createdAt: DateInput,
    updatedAt: Option<DateInput>,
    owner: string,
    explicit: bool,
    itunesOwnerName: string,
    itunesOwnerEmail: string,
    locked: Option<string>,
    itunesCategory: seq<Category>)

  datatype Episode = Episode(
    guid: string,
    title: string,
    description: string,
    publicationDate: DateInput,
    episodeSlug: string,
    audioUrl: string,
    audioLength: nat,
    imageUrl: Option<string>)

  datatype FeedOptions = FeedOptions(siteUrl: string)

  /** `new Date(d).toUTCString()`: calendar arithmetic of the JavaScript runtime, supplied
      by the caller. */
  type DateFormatter = DateInput -> string

  // ---------------------------------------------------------------------------
  // Derived values and decision rules

  function PodcastBaseUrl(siteUrl: string, podcastSlug: string): string {
    siteUrl + "/podcasts/" + podcastSlug
  }

  function PodcastFeedUrl(podcastBaseUrl: string): string {
    podcastBaseUrl + "/rss.xml"
  }

  function EpisodeUrl(podcastBaseUrl: string, episodeSlug: string): string {
    podcastBaseUrl + "/episodes/" + episodeSlug
  }

  /** A string timestamp is falsy when empty; a `Date` object is always truthy. */
  predicate DateTruthy(d: DateInput) {
    d.DateObject? || d.text != ""
  }

  /** `podcast.updated_at || podcast.created_at`: the timestamp the channel's
      `<lastBuildDate>` and `<pubDate>` are formatted from. */
  function BuildDateSource(podcast: Podcast): (d: DateInput)
    ensures podcast.updatedAt.Some? && DateTruthy(podcast.updatedAt.value) ==> d == podcast.updatedAt.value
    ensures podcast.updatedAt.None? || !DateTruthy(podcast.updatedAt.value) ==> d == podcast.createdAt
  {
    if podcast.updatedAt.Some? && DateTruthy(podcast.updatedAt.value) then podcast.updatedAt.value
    else podcast.createdAt
  }

  /** `podcast.language || 'en-us'`. */
  function LanguageOf(podcast: Podcast): (r: string)
    ensures Truthy(podcast.language) ==> r == podcast.language.value
    ensures !Truthy(podcast.language) ==> r == "en-us"
  {
    Or(podcast.language, "en-us")
  }

  /** `podcast.locked || 'no'`. */
  function LockedOf(podcast: Podcast): (r: string)
    ensures Truthy(podcast.locked) ==> r == podcast.locked.value
    ensures !Truthy(podcast.locked) ==> r == "no"
  {
    Or(podcast.locked, "no")
  }

  /** `podcast.explicit ? 'true' : 'false'`. */
  function ExplicitText(explicit: bool): (r: string)
    ensures r == "true" <==> explicit
    ensures r == "false" <==> !explicit
  {
    if explicit then "true" else "false"
  }

  /** `episode.image_url || podcast.image_url`. */
  function EpisodeImageUrl(episode: Episode, podcast: Podcast): (r: string)
    ensures Truthy(episode.imageUrl) ==> r == episode.imageUrl.value
    ensures !Truthy(episode.imageUrl) ==> r == podcast.imageUrl
  {
    Or(episode.imageUrl, podcast.imageUrl)
  }

  /** The enclosure's MIME type: `audio/mp4` when the audio URL contains `.mp4` or `.m4a`
      anywhere, `audio/mpeg` otherwise. */
  function EnclosureType(audioUrl: string): (r: string)
    ensures r == "audio/mp4" <==>
      (exists i: nat :: OccursAt(audioUrl, ".mp4", i)) || (exists i: nat :: OccursAt(audioUrl, ".m4a", i))
    ensures r == "audio/mpeg" <==>
      (forall i: nat :: !OccursAt(audioUrl, ".mp4", i) && !OccursAt(audioUrl, ".m4a", i))
  {
    if Includes(audioUrl, ".mp4") || Includes(audioUrl, ".m4a") then "audio/mp4" else "audio/mpeg"
  }

  // ---------------------------------------------------------------------------
  // Templates

  const XmlProlog := "<?xml version=\"1.0\" encoding=\"UTF-8\"?>"
  const ItunesNamespace := "http://www.itunes.com/dtds/podcast-1.0.dtd"
  const PodcastNamespace := "https://podcastindex.org/namespace/1.0"
  const AtomNamespace := "http://www.w3.org/2005/Atom"

  const RssOpenTag := "<rss xmlns:itunes=\"" + ItunesNamespace + "\" xmlns:podcast=\"" + PodcastNamespace
                      + "\" xmlns:atom=\"" + AtomNamespace + "\" version=\"2.0\">"

  /** The tail appended after the last item. */
  const ChannelClose := "\n  </channel>\n</rss>"

  /** One category element: a parent wrapping a self-closed sub-category when `subtext`
      is truthy, a single self-closed element otherwise. */
  function CategoryXml(category: Category): string {
    if Truthy(category.subtext) then
      "<itunes:category text=\"" + EscapeXml(JsString(category.text)) + "\"><itunes:category text=\""
        + EscapeXml(JsString(category.subtext.value)) + "\"/></itunes:category>"
    else
      "<itunes:category text=\"" + EscapeXml(JsString(category.text)) + "\"/>"
  }

  /** `itunes_category.map(...).join('\n    ')`. */
  function CategoriesXml(categories: seq<Category>): string {
    if categories == [] then ""
    else if |categories| == 1 then CategoryXml(categories[0])
    else CategoryXml(categories[0]) + "\n    " + CategoriesXml(categories[1..])
  }

  /** The channel template up to `<pubDate>`: the declarations and the channel's own
      text elements, one line each. */
  function ChannelOpeningLines(podcast: Podcast, podcastBaseUrl: string, lastBuildDate: string): seq<string> {
    [ XmlProlog + "\n",
      RssOpenTag + "\n",
      "  <channel>\n",
      "    <title>" + EscapeXml(JsString(podcast.title)) + "</title>\n",
      "    <link>" + podcastBaseUrl + "</link>\n",
      "    <description>" + EscapeXml(JsString(podcast.description)) + "</description>\n",
      "    <language>" + LanguageOf(podcast) + "</language>\n",
      "    <lastBuildDate>" + lastBuildDate + "</lastBuildDate>\n",
      "    <pubDate>" + lastBuildDate + "</pubDate>\n" ]
  }

  /** The channel's iTunes elements, image through owner. */
  function ChannelItunesLines(podcast: Podcast): seq<string> {
    [ "    <itunes:image href=\"" + EscapeXml(JsString(podcast.imageUrl)) + "\"/>\n",
      "    <itunes:author>" + EscapeXml(JsString(podcast.owner)) + "</itunes:author>\n",
      "    <itunes:explicit>" + ExplicitText(podcast.explicit) + "</itunes:explicit>\n",
      "    <itunes:owner>\n",
      "      <itunes:name>" + EscapeXml(JsString(podcast.itunesOwnerName)) + "</itunes:name>\n",
      "      <itunes:email>" + EscapeXml(JsString(podcast.itunesOwnerEmail)) + "</itunes:email>\n",
      "    </itunes:owner>\n" ]
  }

  /** The rest of the channel template: categories, self link, locked flag and GUID. */
  function ChannelTrailerLines(podcast: Podcast, podcastFeedUrl: string): seq<string> {
    [ "    " + CategoriesXml(podcast.itunesCategory) + "\n",
      "    <atom:link href=\"" + podcastFeedUrl + "\" rel=\"self\" type=\"application/rss+xml\"/>\n",
      "    <podcast:locked>" + LockedOf(podcast) + "</podcast:locked>\n",
      "    <podcast:guid>" + podcast.id + "</podcast:guid>\n" ]
  }

  /** The channel template, through `<podcast:guid>`. */
  function ChannelHeader(podcast: Podcast, podcastBaseUrl: string, podcastFeedUrl: string, lastBuildDate: string): string {
    Concat(ChannelOpeningLines(podcast, podcastBaseUrl, lastBuildDate))
    + Concat(ChannelItunesLines(podcast))
    + Concat(ChannelTrailerLines(podcast, podcastFeedUrl))
  }

  /** The two lines that open an item. */
  const ItemOpen := "\n    <item>\n"

  /** The lines of the item template after its opening tag, given the values the loop
      body computes first. */
  function ItemBodyLines(podcast: Podcast, episode: Episode, episodeUrl: string, episodeImageUrl: string,
                         enclosureType: string, pubDate: string): seq<string> {
    [ "      <title>" + EscapeXml(JsString(episode.title)) + "</title>\n",
      "      <guid isPermaLink=\"false\">" + episode.guid + "</guid>\n",
      "      <link>" + episodeUrl + "</link>\n",
      "      <description>" + EscapeXml(JsString(episode.description)) + "</description>\n",
      "      <pubDate>" + pubDate + "</pubDate>\n",
      "      <enclosure url=\"" + EscapeXml(JsString(episode.audioUrl)) + "\" length=\""
        + DecimalString(episode.audioLength) + "\" type=\"" + enclosureType + "\"/>\n",
      "      <itunes:author>" + EscapeXml(JsString(podcast.owner)) + "</itunes:author>\n",
      "      <itunes:explicit>" + ExplicitText(podcast.explicit) + "</itunes:explicit>\n",
      "      <itunes:image href=\"" + EscapeXml(JsString(episodeImageUrl)) + "\"/>\n",
      "    </item>\n" ]
  }

  /** The item template filled in. */
  function ItemTemplate(podcast: Podcast, episode: Episode, episodeUrl: string, episodeImageUrl: string,
                        enclosureType: string, pubDate: string): string {
    ItemOpen + Concat(ItemBodyLines(podcast, episode, episodeUrl, episodeImageUrl, enclosureType, pubDate))
  }

  /** The block appended for one episode. */
  function ItemXml(podcast: Podcast, podcastBaseUrl: string, formatDate: DateFormatter, episode: Episode): string {
    ItemTemplate(podcast, episode,
      EpisodeUrl(podcastBaseUrl, episode.episodeSlug),
      EpisodeImageUrl(episode, podcast),
      EnclosureType(episode.audioUrl),
      formatDate(episode.publicationDate))
  }

  /** The item blocks of a list of episodes, in list order. */
  function ItemsXml(podcast: Podcast, podcastBaseUrl: string, formatDate: DateFormatter, episodes: seq<Episode>): string
  {
    if episodes == [] then ""
    else ItemsXml(podcast, podcastBaseUrl, formatDate, episodes[..|episodes| - 1])
         + ItemXml(podcast, podcastBaseUrl, formatDate, episodes[|episodes| - 1])
  }

  /** `if (episodes)`: a missing list contributes no items, like an empty one. */
  function EpisodeList(episodes: Option<seq<Episode>>): seq<Episode> {
    if episodes.Some? then episodes.value else []
  }

  /** The whole document, as a function of the inputs. */
  function RssFeed(podcast: Podcast, episodes: Option<seq<Episode>>, options: FeedOptions, formatDate: DateFormatter): string {
    var podcastBaseUrl := PodcastBaseUrl(options.siteUrl, podcast.podcastSlug);
    ChannelHeader(podcast, podcastBaseUrl, PodcastFeedUrl(podcastBaseUrl), formatDate(BuildDateSource(podcast)))
      + ItemsXml(podcast, podcastBaseUrl, formatDate, EpisodeList(episodes))
      + ChannelClose
  }

  // ---------------------------------------------------------------------------
  // The generator

  /** `generatePodcastRss(podcast, episodes, options)`: the channel header, then one item
      per episode appended in order, then the closing tags. */
  method GeneratePodcastRss(podcast: Podcast, episodes: Option<seq<Episode>>, options: FeedOptions, formatDate: DateFormatter)
    returns (rssFeed: string)
    ensures rssFeed == RssFeed(podcast, episodes, options, formatDate)
    ensures XmlProlog <= rssFeed
    ensures |ChannelClose| <= |rssFeed| && rssFeed[|rssFeed| - |ChannelClose|..] == ChannelClose
  {
    var siteUrl := options.siteUrl;
    var podcastBaseUrl := PodcastBaseUrl(siteUrl, podcast.podcastSlug);
    var podcastFeedUrl := PodcastFeedUrl(podcastBaseUrl);
    var lastBuildDate := formatDate(BuildDateSource(podcast));
    var header := ChannelHeader(podcast, podcastBaseUrl, podcastFeedUrl, lastBuildDate);
    rssFeed := header;
    var list := EpisodeList(episodes);
    if episodes.Some? {
      for i := 0 to |list|
        invariant rssFeed == header + ItemsXml(podcast, podcastBaseUrl, formatDate, list[..i])
      {
        var episode := list[i];
        var episodeUrl := EpisodeUrl(podcastBaseUrl, episode.episodeSlug);
        var episodeImageUrl := EpisodeImageUrl(episode, podcast);
        var enclosureType := EnclosureType(episode.audioUrl);
        var item := ItemTemplate(podcast, episode, episodeUrl, episodeImageUrl, enclosureType,
                                 formatDate(episode.publicationDate));
        AppendItem(podcast, podcastBaseUrl, formatDate, list, i, header, item);
        rssFeed := rssFeed + item;
      }
      assert list[..|list|] == list;
    }
    assert rssFeed == header + ItemsXml(podcast, podcastBaseUrl, formatDate, list);
    rssFeed := rssFeed + ChannelClose;
    RssFeedFrame(podcast, episodes, options, formatDate);
  }

  /** One turn of the loop: appending the next episode's item extends the rendered prefix. */
  lemma AppendItem(podcast: Podcast, podcastBaseUrl: string, formatDate: DateFormatter, episodes: seq<Episode>,
                   i: nat, header: string, item: string)
    requires i < |episodes| && item == ItemXml(podcast, podcastBaseUrl, formatDate, episodes[i])
    ensures header + ItemsXml(podcast, podcastBaseUrl, formatDate, episodes[..i]) + item
         == header + ItemsXml(podcast, podcastBaseUrl, formatDate, episodes[..i + 1])
  {
    ItemsXmlSnoc(podcast, podcastBaseUrl, formatDate, episodes, i);
    AppendAssociative(header, ItemsXml(podcast, podcastBaseUrl, formatDate, episodes[..i]), item);
  }

  lemma ItemsXmlSnoc(podcast: Podcast, podcastBaseUrl: string, formatDate: DateFormatter, episodes: seq<Episode>, i: nat)
    requires i < |episodes|
    ensures ItemsXml(podcast, podcastBaseUrl, formatDate, episodes[..i + 1])
         == ItemsXml(podcast, podcastBaseUrl, formatDate, episodes[..i]) + ItemXml(podcast, podcastBaseUrl, formatDate, episodes[i])
  {
    assert episodes[..i + 1][..i] == episodes[..i];
  }

  /** The document opens with the XML declaration and ends with the closing tags. */
  lemma RssFeedFrame(podcast: Podcast, episodes: Option<seq<Episode>>, options: FeedOptions, formatDate: DateFormatter)
    ensures XmlProlog <= RssFeed(podcast, episodes, options, formatDate)
    ensures var f := RssFeed(podcast, episodes, options, formatDate);
      |ChannelClose| <= |f| && f[|f| - |ChannelClose|..] == ChannelClose
  {
    var podcastBaseUrl := PodcastBaseUrl(options.siteUrl, podcast.podcastSlug);
    var podcastFeedUrl := PodcastFeedUrl(podcastBaseUrl);
    var lastBuildDate := formatDate(BuildDateSource(podcast));
    var header := ChannelHeader(podcast, podcastBaseUrl, podcastFeedUrl, lastBuildDate);
    var items := ItemsXml(podcast, podcastBaseUrl, formatDate, EpisodeList(episodes));
    HeaderStartsWithProlog(podcast, podcastBaseUrl, podcastFeedUrl, lastBuildDate);
    JoinFrame(XmlProlog, header, items, ChannelClose);
  }

  lemma HeaderStartsWithProlog(podcast: Podcast, podcastBaseUrl: string, podcastFeedUrl: string, lastBuildDate: string)
    ensures XmlProlog <= ChannelHeader(podcast, podcastBaseUrl, podcastFeedUrl, lastBuildDate)
  {
    var lines := ChannelOpeningLines(podcast, podcastBaseUrl, lastBuildDate);
    assert XmlProlog <= lines[0];
    ConcatStartsWith(XmlProlog, lines);
    JoinFrame(XmlProlog, Concat(lines), Concat(ChannelItunesLines(podcast)),
              Concat(ChannelTrailerLines(podcast, podcastFeedUrl)));
  }


}
