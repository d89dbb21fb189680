# Podcast RSS generator, modelled in Dafny

This project models the two functions that make up the podcast-feed library:

- `escapeXml` (src/utils.js) turns any value into text that can go into XML element content
  or a double-quoted attribute. A non-string becomes the empty string. A string goes through
  five chained replace-all calls, which turn `&`, `<`, `>`, `"` and `'` into the five
  predefined entities of section 4.6 of the XML 1.0 recommendation.
- `generatePodcastRss` (src/index.js) renders an RSS 2.0 document with the iTunes, Podcast
  Index and Atom namespaces. It takes a podcast record, an optional list of episodes and the
  site's base URL. It writes the channel header from a template, appends one `<item>` block per
  episode in a loop, and then appends the closing tags.

Modules:

- `Js` (js.dfy): the JavaScript notions the source relies on: `typeof`, truthiness, `a || b` on
  optional strings, and the decimal rendering of a number in a template literal.
- `Utils` (utils.dfy): the escaper. `ChainedReplace` is the source's chain of `replace` calls,
  step by step. `EscapeText` is the per-character map it amounts to. `Unescape` decodes the five
  entities.
- `Text` (text.dfy): `String.prototype.includes`, the number of matches of a fixed pattern, and
  concatenation of template lines.
- `PodcastRss` (podcast_rss.dfy): the records, the URL, date and default rules, the templates
  (each template literal written as the list of its lines, whitespace included), the pure
  rendering `RssFeed`, and the imperative `GeneratePodcastRss`. That method's loop appends to
  `rssFeed` as the source's `for ... of` loop does. It is proved equal to `RssFeed`.
- `FeedMarkup`, `FeedFrame` and `FeedProperties` (feed_markup.dfy, feed_frame.dfy,
  feed_properties.dfy): the document holds exactly one `<item>` per episode and exactly one
  each of `<rss `, `</rss>`, `<channel>` and `</channel>`, and every `&` in it opens an entity
  reference. `FeedFrame` holds the facts about the fixed lines that open and close the document.
- `FeedContent` (feed_content.dfy): what the document contains. The channel header is the
  document's prefix, and every channel element with its value lies in it. It also covers item
  order, every item element with its value, link injectivity, and the category elements and
  their order.

`new Date(x).toUTCString()` is not modelled. It is the parameter `formatDate` of type
`DateFormatter`, and the model proves which input value is passed to it.

## Model

| member | source | states |
|---|---|---|
| Js.Or | src/index.js:63 | `a \|\| b` on an optional string: the value when it is present and non-empty, otherwise the fallback |
| Js.DecimalStringRoundTrip | src/index.js:97 | the decimal rendering of `audio_length` reads back as the same number |
| Utils.EscapeXml | src/utils.js:8-16 | a non-string gives `""`; a string gives the per-character escape of that string |
| Utils.ChainedReplaceAppend | src/utils.js:10-15 | the chain of five replace-all steps distributes over concatenation |
| Utils.ChainedReplaceOnChar | src/utils.js:10-15 | on one character the chain yields exactly that character's entity, or the character itself |
| Utils.ChainedReplaceIsPerCharacter | src/utils.js:10-15 | the five chained replace-all steps equal the per-character map `EscapeText` on every string |
| Utils.AmpersandEscapedOnce | src/utils.js:11-12 | `escapeXml("&")` is `&amp;` and `escapeXml("<")` is `&lt;`; the `&` of `&lt;` is not escaped again |
| Utils.AmpersandLastDoubleEscapes | src/utils.js:11-15 | the order matters: replacing `&` last would turn `<` into `&amp;lt;`, which differs from the chain's result |
| Utils.EscapeTextHasNoMarkup | src/utils.js:12-15 | the output holds no raw `<`, `>`, `"` or `'` |
| Utils.EscapeTextAmpersandsAreEntities | src/utils.js:11-15 | every `&` in the output opens one of `&amp;`, `&lt;`, `&gt;`, `&quot;`, `&apos;` |
| Utils.UnescapeEscapeText | src/utils.js:10-15 | decoding the five entities in the output gives back the input |
| Utils.EscapeTextInjective | src/utils.js:10-15 | two strings with the same escape are equal |
| Utils.EscapeTextLength | src/utils.js:10-15 | the output is never shorter than the input, and has the same length exactly when the input has no reserved character |
| Utils.EscapeTextFixedPoint | src/utils.js:10-15 | a string is returned unchanged exactly when it holds none of the five reserved characters |
| Utils.ReservedLeavesAmpersand | src/utils.js:10-15 | escaping a string with a reserved character leaves an `&` in the output |
| Utils.EscapeTwiceIffNoReserved | src/utils.js:10-15 | escaping twice gives the same as escaping once exactly when the input has no reserved character |
| Text.Includes | src/index.js:88 | `s.includes(t)` is true exactly when `t` occurs at some position of `s` |
| PodcastRss.BuildDateSource | src/index.js:54 | `updated_at` when it is present and truthy, otherwise `created_at` |
| PodcastRss.LanguageOf | src/index.js:63 | the podcast's language when it is present and non-empty, otherwise `en-us` |
| PodcastRss.LockedOf | src/index.js:79 | the podcast's `locked` value when it is present and non-empty, otherwise `no` |
| PodcastRss.ExplicitText | src/index.js:68 | `true` exactly when the podcast is explicit, `false` exactly when it is not |
| PodcastRss.EpisodeImageUrl | src/index.js:87 | the episode's image when it is present and non-empty, otherwise the podcast's image |
| PodcastRss.EnclosureType | src/index.js:88 | `audio/mp4` exactly when the audio URL contains `.mp4` or `.m4a`; `audio/mpeg` exactly when it contains neither |
| PodcastRss.GeneratePodcastRss | src/index.js:48-112 | the method's result equals `RssFeed`; it starts with the XML declaration and ends with the closing tags |
| PodcastRss.AppendItem | src/index.js:85-103 | one turn of the loop extends the header and the items so far by the next episode's item |
| PodcastRss.RssFeedFrame | src/index.js:57-109 | the document starts with `<?xml version="1.0" encoding="UTF-8"?>` and ends with `</channel>` and `</rss>` |
| FeedProperties.HeaderClean | src/index.js:57-81 | the channel header is the fixed opening lines followed by the channel's body; it holds no `<item>` and every `&` in it opens an entity, given the verbatim fields hold no `<` or `&` |
| FeedProperties.ItemWellFormed | src/index.js:90-102 | one item block holds exactly one `<item>` and every `&` in it opens an entity |
| FeedProperties.ItemsWellFormed | src/index.js:84-104 | the items of `n` episodes hold exactly `n` occurrences of `<item>` |
| FeedProperties.FeedWellFormed | src/index.js:48-112 | the document holds exactly one `<item>` per episode, none for a missing list, and every `&` in it opens an entity reference |
| FeedProperties.FeedStructure | src/index.js:56-109 | the document holds exactly one `<rss `, one `</rss>`, one `<channel>` and one `</channel>`, given the verbatim fields hold no `<` or `&` |
| FeedContent.ItemsXmlAppend | src/index.js:85-103 | the items of two episode lists placed one after the other are the items of the first list followed by those of the second |
| FeedContent.ItemsXmlAt | src/index.js:85-103 | the items of a list are the items before episode `k`, then episode `k`'s item, then the items after it |
| FeedContent.ItemsInInputOrder | src/index.js:85-103 | for `j < k`, episode `j`'s item comes before episode `k`'s item in the document |
| FeedContent.NoEpisodesNoItems | src/index.js:84 | a missing or empty episode list gives the channel header followed directly by the closing tags |
| FeedContent.HeaderInFeed | src/index.js:56-81 | the document begins with the channel header, and the items and the closing tags make up the rest |
| FeedContent.OpeningLineInHeader | src/index.js:56-65 | the channel header contains each of the nine opening lines of the channel template |
| FeedContent.ItunesLineInHeader | src/index.js:66-72 | the channel header contains each of the seven iTunes lines of the channel template |
| FeedContent.TrailerLineInHeader | src/index.js:73-80 | the channel header contains the category line, the self link, the locked flag and the GUID |
| FeedContent.ChannelTextInHeader | src/index.js:59-62 | the channel header holds the title and the description, escaped |
| FeedContent.ChannelLinkInHeader | src/index.js:52-61 | the channel header's link is `siteUrl + "/podcasts/" + podcast_slug` |
| FeedContent.LanguageInHeader | src/index.js:63 | the channel header's `<language>` carries the podcast's language, or `en-us` when it is missing or empty |
| FeedContent.BuildDatesInHeader | src/index.js:54-65 | the channel header's `<lastBuildDate>` and `<pubDate>` both carry the formatted `updated_at`, or the formatted `created_at` when `updated_at` is falsy |
| FeedContent.ChannelExplicitInHeader | src/index.js:68 | the channel header's `<itunes:explicit>` is `true` or `false` as the podcast is explicit or not |
| FeedContent.CategoriesAndSelfLinkInHeader | src/index.js:73-78 | the channel header contains the category elements and the atom self link `podcastBaseUrl + "/rss.xml"` |
| FeedContent.LockedInHeader | src/index.js:79 | the channel header's `<podcast:locked>` carries the podcast's value, or `no` when it is missing or empty |
| FeedContent.ItemInFeed | src/index.js:84-104 | the document contains the item of every episode of the list |
| FeedContent.ItemLineInItem | src/index.js:90-102 | an item contains each of its ten template lines |
| FeedContent.EpisodeFieldsInItem | src/index.js:86-96 | an item holds the escaped title, the verbatim GUID, the link `podcastBaseUrl + "/episodes/" + episode_slug`, the escaped description and the formatted publication date |
| FeedContent.EnclosureInItem | src/index.js:88-97 | the enclosure holds the escaped audio URL, the decimal length, and `audio/mp4` when the URL includes `.mp4` or `.m4a` (`audio/mpeg` otherwise) |
| FeedContent.PodcastValuesInItem | src/index.js:87-100 | every item repeats the podcast's escaped author and explicit flag, and shows the episode's image or, failing that, the podcast's |
| FeedContent.ChannelLinkInjective | src/index.js:52 | two podcasts on one site get the same channel link exactly when their slugs are equal |
| FeedContent.EpisodeLinkInjective | src/index.js:86 | two episodes get the same link exactly when their slugs are equal |
| FeedContent.SelfLinkIsNoEpisodeLink | src/index.js:53-86 | the feed's self link differs from every episode link |
| FeedContent.CategoryCount | src/index.js:74-76 | a category with a truthy `subtext` opens two `<itunes:category` elements (parent and child); one without opens exactly one |
| FeedContent.CategoriesCount | src/index.js:73-77 | the joined category list opens one element per entry plus one child per entry with a subtext |
| FeedContent.CategoriesXmlAppend | src/index.js:73-77 | the line for two non-empty category lists placed one after the other is the first list's line, the separator, then the second list's line |
| FeedContent.CategoriesXmlFrom | src/index.js:73-77 | from category `k` on, the line is category `k`'s element, then, if more follow, the separator and their line |

## Left out

- Date formatting: `new Date(x).toUTCString()` (src/index.js:54, src/index.js:96) is the caller-supplied function `formatDate`. Calendar and time-zone arithmetic are not modelled; the model states only which timestamp is passed to it.
- Runtime type errors: fields are typed records, so the JavaScript errors thrown on malformed input (for example `includes` on a missing `audio_url`, or `map` on a missing `itunes_category`) are not modelled. Nor are the silent coercions: a missing field inserted verbatim renders as `undefined`, and one passed to `escapeXml` renders as `""` through its `typeof` guard; the records have every field the template reads. Only the optional fields the source tests for truthiness are `Option`s.
- `audio_length` is a `nat`, rendered in decimal, which matches a JavaScript number only below 2^53: above it the number is no longer exact, and from 10^21 on it renders in exponent form (`1e+21`). Fractional, negative and non-numeric values are not modelled.
- `Date` objects passed as timestamps are represented by their epoch milliseconds and are always truthy. A string timestamp is truthy when non-empty.
- JavaScript strings are UTF-16; the model uses sequences of `char` and does no encoding.
- FeedProperties.FeedWellFormed: the item count and the entity property are proved only when the fields inserted without escaping hold no `<` and no `&`. These fields are the site URL, slugs, language, locked flag, podcast id, episode GUIDs and formatted dates. The source does not escape them, so a value like `<item>` in one of them would add an item tag.
- FeedProperties.FeedStructure: the count of the `<rss`, `</rss>`, `<channel>` and `</channel>` tags has the same hypothesis as FeedProperties.FeedWellFormed.
- FeedProperties.HeaderClean: same hypothesis, restricted to the fields of the channel header.
- FeedProperties.ItemWellFormed: same hypothesis, restricted to the fields of one item.
- FeedProperties.ItemsWellFormed: same hypothesis, restricted to the fields of the items.
- The test file (test/index.test.js) is not modelled; its expectations appear as lemmas in `FeedContent` and `FeedProperties`.
