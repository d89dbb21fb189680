/** The fixed frame of the document: the three lines before the channel's elements (the XML
    declaration, the `<rss>` start tag, the `<channel>` start tag) and the closing text
    (`</channel>`, `</rss>`). Each of these lines holds a single `<`, so the tags they hold
    can be counted one line at a time. */
module FeedFrame {
  import opened Utils
  import opened Text
  import opened PodcastRss
  import opened FeedMarkup

  const PrologLine: string := XmlProlog + "\n"
  const RssLine: string := RssOpenTag + "\n"
  const ChannelLine: string := "  <channel>\n"

  /** The first three lines of every document. */
  const ChannelFront: string := PrologLine + RssLine + ChannelLine

  /** The channel header after its first three lines. */
  function ChannelBody(podcast: Podcast, podcastBaseUrl: string, podcastFeedUrl: string, lastBuildDate: string): string {
    Concat(ChannelOpeningLines(podcast, podcastBaseUrl, lastBuildDate)[3..])
      + Concat(ChannelItunesLines(podcast))
      + Concat(ChannelTrailerLines(podcast, podcastFeedUrl))
  }

  /** The channel header is the front followed by the rest of its lines. */
  lemma HeaderSplit(podcast: Podcast, podcastBaseUrl: string, podcastFeedUrl: string, lastBuildDate: string)
    ensures ChannelHeader(podcast, podcastBaseUrl, podcastFeedUrl, lastBuildDate)
      == ChannelFront + ChannelBody(podcast, podcastBaseUrl, podcastFeedUrl, lastBuildDate)
  {
    var lines := ChannelOpeningLines(podcast, podcastBaseUrl, lastBuildDate);
    var rest := Concat(lines[3..]);
    assert lines[1..][1..] == lines[2..] && lines[2..][1..] == lines[3..];
    assert Concat(lines[2..]) == ChannelLine + rest;
    assert Concat(lines[1..]) == RssLine + (ChannelLine + rest);
    assert Concat(lines) == PrologLine + (RssLine + (ChannelLine + rest));
    AppendAssociative(PrologLine, RssLine, ChannelLine + rest);
    AppendAssociative(PrologLine + RssLine, ChannelLine, rest);
    var itunes := Concat(ChannelItunesLines(podcast));
    var trailer := Concat(ChannelTrailerLines(podcast, podcastFeedUrl));
    AppendAssociative(ChannelFront, rest, itunes);
    AppendAssociative(ChannelFront, rest + itunes, trailer);
  }

  // ---------------------------------------------------------------------------
  // The shape of the frame's lines

  /** Three lines that each hold one `<` (the first two at their start, the third after
      its indent) and no `&`, each ending its line, and starting as the declaration, the
      `<rss ` tag and the `<channel>` tag do. */
  ghost predicate FrontShape(p: string, r: string, c: string) {
    |p| >= 2 && OpensOnceAt(p, 0) && OpensOnceAt(r, 0) && OpensOnceAt(c, 2)
    && p[|p| - 1] == '\n' && r[|r| - 1] == '\n' && c[|c| - 1] == '\n'
    && '&' !in p && '&' !in r && '&' !in c
    && p[1] == '?' && RssOpen <= r && ChannelOpen <= c[2..]
  }

  /** A closing text holding `</channel>` at position 3 and `</rss>` at 14, with no other
      `<` and no `&`. */
  ghost predicate CloseShape(close: string) {
    OpensTwiceAt(close, 3, 14) && ChannelEnd <= close[3..] && RssEnd <= close[14..] && '&' !in close
  }

  /** A literal without `<` or `&`, checked character by character. */
  lemma LiteralPlain(s: string)
    requires forall i :: 0 <= i < |s| ==> s[i] != '<' && s[i] != '&'
    ensures Plain(s)
  {
  }

  lemma RssPiecesPlain()
    ensures Plain("\" xmlns:podcast=\"") && Plain("\" xmlns:atom=\"") && Plain("\" version=\"2.0\">")
    ensures Plain("\n")
  {
    LiteralPlain("\" xmlns:podcast=\"");
    LiteralPlain("\" xmlns:atom=\"");
    LiteralPlain("\" version=\"2.0\">");
    LiteralPlain("\n");
  }

  lemma NamespacesPlain()
    ensures Plain(ItunesNamespace) && Plain(PodcastNamespace) && Plain(AtomNamespace)
  {
    LiteralPlain(ItunesNamespace);
    LiteralPlain(PodcastNamespace);
    LiteralPlain(AtomNamespace);
  }

  /** A line that starts with `<rss `, holds no other `<` and no `&`, keeps that shape when
      plain text is appended. */
  lemma RssLineAppend(a: string, b: string)
    requires OpensOnceAt(a, 0) && '&' !in a && RssOpen <= a && Plain(b)
    ensures OpensOnceAt(a + b, 0) && '&' !in a + b && RssOpen <= a + b
  {
    OpensOnceAtAppend(a, b, 0);
    assert (a + b)[..|RssOpen|] == a[..|RssOpen|];
  }

  /** The `<rss>` line, built one piece at a time as its template is. */
  lemma RssLineShape()
    ensures OpensOnceAt(RssLine, 0) && '&' !in RssLine && RssLine[|RssLine| - 1] == '\n'
    ensures RssOpen <= RssLine
  {
    var s0 := "<rss xmlns:itunes=\"";
    assert OpensOnceAt(s0, 0) && '&' !in s0 && RssOpen <= s0;
    RssPiecesPlain();
    NamespacesPlain();
    RssLineAppend(s0, ItunesNamespace);
    var s1 := s0 + ItunesNamespace;
    RssLineAppend(s1, "\" xmlns:podcast=\"");
    var s2 := s1 + "\" xmlns:podcast=\"";
    RssLineAppend(s2, PodcastNamespace);
    var s3 := s2 + PodcastNamespace;
    RssLineAppend(s3, "\" xmlns:atom=\"");
    var s4 := s3 + "\" xmlns:atom=\"";
    RssLineAppend(s4, AtomNamespace);
    var s5 := s4 + AtomNamespace;
    RssLineAppend(s5, "\" version=\"2.0\">");
    var s6 := s5 + "\" version=\"2.0\">";
    RssLineAppend(s6, "\n");
  }

  lemma PrologLineShape()
    ensures |PrologLine| >= 2 && OpensOnceAt(PrologLine, 0) && '&' !in PrologLine
    ensures PrologLine[|PrologLine| - 1] == '\n' && PrologLine[1] == '?'
  {
  }

  lemma ChannelLineShape()
    ensures OpensOnceAt(ChannelLine, 2) && '&' !in ChannelLine && ChannelLine[|ChannelLine| - 1] == '\n'
    ensures ChannelOpen <= ChannelLine[2..]
  {
  }

  lemma FrontLines()
    ensures FrontShape(PrologLine, RssLine, ChannelLine)
  {
    PrologLineShape();
    RssLineShape();
    ChannelLineShape();
  }

  lemma CloseLines()
    ensures CloseShape(ChannelClose)
  {
  }

  // ---------------------------------------------------------------------------
  // Counting tags in the frame

  /** A tag without line break occurs in the front followed by `x` once for each of the
      front's lines that starts with it, and then as often as in `x`. */
  lemma FrontCount(t: string, p: string, r: string, c: string, x: string)
    requires t != [] && t[0] == '<' && '\n' !in t && FrontShape(p, r, c)
    ensures Count(t, p + r + c + x)
      == (if t <= p then 1 else 0) + (if t <= r then 1 else 0) + (if t <= c[2..] then 1 else 0) + Count(t, x)
  {
    assert (p + r + c)[|p + r + c| - 1] == '\n';
    CountAppend(t, p + r + c, x);
    CountAppend3(t, p, r, c);
    CountOpensOnceAt(t, p, 0);
    CountOpensOnceAt(t, r, 0);
    CountOpensOnceAt(t, c, 2);
    assert p[0..] == p && r[0..] == r;
  }

  /** The front adds no `<item>` to what follows it. */
  lemma FrontItemFree(p: string, r: string, c: string, x: string)
    requires FrontShape(p, r, c)
    ensures Count(ItemTag, p + r + c + x) == Count(ItemTag, x)
  {
    FrontCount(ItemTag, p, r, c, x);
    NotPrefixAt(ItemTag, p, 1);
    NotPrefixAt(ItemTag, r, 1);
    NotPrefixAt(ItemTag, c[2..], 1);
  }

  /** The closing text adds no `<item>` to what precedes it. */
  lemma CloseItemFree(m: string, close: string)
    requires CloseShape(close) && Sealed(ItemTag, m)
    ensures Count(ItemTag, m + close) == Count(ItemTag, m)
  {
    CountAppend(ItemTag, m, close);
    CountOpensTwiceAt(ItemTag, close, 3, 14);
    NotPrefixAt(ItemTag, close[3..], 1);
    NotPrefixAt(ItemTag, close[14..], 1);
  }

  /** A structural tag occurs in the front, a middle free of structural tags, and the closing
      text once for each line of the front and of the closing text that starts with it. */
  lemma FrameTagCount(t: string, p: string, r: string, c: string, m: string, close: string)
    requires StructTag(t) && FrontShape(p, r, c) && CloseShape(close) && StructFree(m)
    ensures Count(t, p + r + c + m + close)
      == (if t <= p then 1 else 0) + (if t <= r then 1 else 0) + (if t <= c[2..] then 1 else 0)
         + (if t <= close[3..] then 1 else 0) + (if t <= close[14..] then 1 else 0)
  {
    FrontCount(t, p, r, c, m + close);
    StructFreeSkip(t, m, close);
    CountOpensTwiceAt(t, close, 3, 14);
    AppendAssociative(p + r + c, m, close);
  }

  lemma RssOpenOnce(p: string, r: string, c: string, m: string, close: string)
    requires FrontShape(p, r, c) && CloseShape(close) && StructFree(m)
    ensures Count(RssOpen, p + r + c + m + close) == 1
  {
    FrameTagCount(RssOpen, p, r, c, m, close);
    NotPrefixAt(RssOpen, p, 1);
    NotPrefixAt(RssOpen, c[2..], 1);
    NotPrefixAt(RssOpen, close[3..], 1);
    NotPrefixAt(RssOpen, close[14..], 1);
  }

  lemma RssEndOnce(p: string, r: string, c: string, m: string, close: string)
    requires FrontShape(p, r, c) && CloseShape(close) && StructFree(m)
    ensures Count(RssEnd, p + r + c + m + close) == 1
  {
    FrameTagCount(RssEnd, p, r, c, m, close);
    NotPrefixAt(RssEnd, p, 1);
    NotPrefixAt(RssEnd, r, 1);
    NotPrefixAt(RssEnd, c[2..], 1);
    NotPrefixAt(RssEnd, close[3..], 2);
  }

  lemma ChannelOpenOnce(p: string, r: string, c: string, m: string, close: string)
    requires FrontShape(p, r, c) && CloseShape(close) && StructFree(m)
    ensures Count(ChannelOpen, p + r + c + m + close) == 1
  {
    FrameTagCount(ChannelOpen, p, r, c, m, close);
    NotPrefixAt(ChannelOpen, p, 1);
    NotPrefixAt(ChannelOpen, r, 1);
    NotPrefixAt(ChannelOpen, close[3..], 1);
    NotPrefixAt(ChannelOpen, close[14..], 1);
  }

  lemma ChannelEndOnce(p: string, r: string, c: string, m: string, close: string)
    requires FrontShape(p, r, c) && CloseShape(close) && StructFree(m)
    ensures Count(ChannelEnd, p + r + c + m + close) == 1
  {
    FrameTagCount(ChannelEnd, p, r, c, m, close);
    NotPrefixAt(ChannelEnd, p, 1);
    NotPrefixAt(ChannelEnd, r, 1);
    NotPrefixAt(ChannelEnd, c[2..], 1);
    NotPrefixAt(ChannelEnd, close[14..], 2);
  }

  /** The front, a middle free of structural tags, and the closing text hold `<rss `,
      `</rss>`, `<channel>` and `</channel>` once each. */
  lemma FrameTags(p: string, r: string, c: string, m: string, close: string)
    requires FrontShape(p, r, c) && CloseShape(close) && StructFree(m)
    ensures Count(RssOpen, p + r + c + m + close) == 1 && Count(RssEnd, p + r + c + m + close) == 1
    ensures Count(ChannelOpen, p + r + c + m + close) == 1 && Count(ChannelEnd, p + r + c + m + close) == 1
  {
    RssOpenOnce(p, r, c, m, close);
    RssEndOnce(p, r, c, m, close);
    ChannelOpenOnce(p, r, c, m, close);
    ChannelEndOnce(p, r, c, m, close);
  }

  /** The front followed by clean text holds no `<item>`, and every `&` in it opens an entity. */
  lemma FrontThenClean(body: string)
    requires Clean(body)
    ensures Count(ItemTag, ChannelFront + body) == 0
    ensures AmpersandsAreEntities(ChannelFront + body) && Sealed(ItemTag, ChannelFront + body)
  {
    FrontLines();
    FrontItemFree(PrologLine, RssLine, ChannelLine, body);
    assert ChannelFront[|ChannelFront| - 1] == '\n';
    NoItemCount(body);
    AmpersandsAreEntitiesAppend(ChannelFront, body);
    SealedAppend(ItemTag, ChannelFront, body);
  }

  /** A header free of `<item>` followed by item blocks holding `n` of them and the closing
      text holds `n`; and every `&` in it opens an entity when that holds of the parts. */
  lemma DocumentItems(header: string, items: string, n: nat)
    requires Count(ItemTag, header) == 0 && AmpersandsAreEntities(header) && Sealed(ItemTag, header)
    requires Count(ItemTag, items) == n && AmpersandsAreEntities(items) && Sealed(ItemTag, items)
    ensures Count(ItemTag, header + items + ChannelClose) == n
    ensures AmpersandsAreEntities(header + items + ChannelClose)
  {
    CountAppend(ItemTag, header, items);
    SealedAppend(ItemTag, header, items);
    CloseLines();
    CloseItemFree(header + items, ChannelClose);
    AmpersandsAreEntitiesAppend(header, items);
    AmpersandsAreEntitiesAppend(header + items, ChannelClose);
  }

  /** `t` is no prefix of `s` when they differ at position `i`. */
  lemma NotPrefixAt(t: string, s: string, i: nat)
    requires i < |t| && i < |s| && t[i] != s[i]
    ensures !(t <= s)
  {
  }
}
