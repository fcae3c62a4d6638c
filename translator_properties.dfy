/** What the translation promises: the order of its states, when it fails,
    how many events each handler reads, what each handler writes, and the
    balance of the items it opens and closes. */
module TranslatorProperties {
  import opened Results
  import opened XmlNames
  import opened TextRules
  import opened Decimal
  import opened Translator
  import R = XmlReader
  import W = XmlWriter

  /** The parser yields the event `e`, not a final one, at position `pos`. */
  predicate EventAt(stream: seq<R.ReadResult>, pos: nat, e: R.XmlEvent) {
    pos < |stream| && stream[pos] == R.Event(e) && !e.EndDocument?
  }

  /** The parser yields `count` events from position `pos` on, none of them final. */
  predicate Ongoing(stream: seq<R.ReadResult>, pos: nat, count: nat) {
    pos + count <= |stream| && forall k | pos <= k < pos + count :: !R.IsFinal(stream[k])
  }

  // ---------------------------------------------------------------------
  // The order of the states

  /** The state after a handled event, by the dispatch table of `translate`:
      the document start resets to Header, the root moves on to the channel,
      `published` ends the channel, `entry` opens an item and `content`
      closes it; nothing else changes the state. */
  function NextState(state: ParserState, e: R.XmlEvent): ParserState {
    match e
    case StartDocument(_, _, _) => Header
    case StartElement(name, _) =>
      (match state
       case None => ParserState.None
       case Header => ChannelInfo
       case ChannelInfo => if name.localName == "published" then VideoEntries else ChannelInfo
       case VideoEntries => if name.localName == "entry" then VideoEntry else VideoEntries
       case VideoEntry => if name.localName == "content" then VideoEntries else VideoEntry)
    case _ => state
  }

  /** The moves the state machine makes: it stays, restarts at Header, or
      goes one phase on, and only the item phases go back and forth. */
  predicate Legal(from: ParserState, to: ParserState) {
    || to == from
    || to == Header
    || (from == Header && to == ChannelInfo)
    || (from == ChannelInfo && to == VideoEntries)
    || (from == VideoEntries && to == VideoEntry)
    || (from == VideoEntry && to == VideoEntries)
  }

  /** Every turn of the loop that goes on moves the state as the dispatch table says. */
  lemma StepFollowsTable(stream: seq<R.ReadResult>, pos: nat, state: ParserState, baseUrl: string, calendar: Calendar)
    requires Step(stream, pos, state, baseUrl, calendar).Continue?
    ensures pos < |stream| && stream[pos].Event?
    ensures Step(stream, pos, state, baseUrl, calendar).next.state == NextState(state, stream[pos].event)
  {
  }

  /** The dispatch table only makes legal moves. */
  lemma TableIsLegal(state: ParserState, e: R.XmlEvent)
    ensures Legal(state, NextState(state, e))
  {
  }

  /** Without a new document start, a turn never goes back: a turn that
      starts in an item state and goes on ends in an item state. */
  lemma {:induction false} ItemsAreFinal(stream: seq<R.ReadResult>, pos: nat, state: ParserState,
                                         baseUrl: string, calendar: Calendar)
    requires state == VideoEntries || state == VideoEntry
    requires pos < |stream| && stream[pos].Event? && !stream[pos].event.StartDocument?
    requires Step(stream, pos, state, baseUrl, calendar).Continue?
    ensures Step(stream, pos, state, baseUrl, calendar).next.state in {VideoEntries, VideoEntry}
  {
    StepFollowsTable(stream, pos, state, baseUrl, calendar);
  }

  // ---------------------------------------------------------------------
  // When a turn fails, and the turns that change nothing

  /** An error of the parser is the error of the translation. */
  lemma ReadErrorFails(stream: seq<R.ReadResult>, pos: nat, state: ParserState, baseUrl: string, calendar: Calendar)
    requires R.ReadAt(stream, pos).0.SyntaxError?
    ensures Step(stream, pos, state, baseUrl, calendar) == Fail(ReadError(R.ReadAt(stream, pos).0.message))
  {
  }

  /** The document start fails unless its encoding is UTF-8, whatever its
      version; otherwise it moves to Header and writes nothing. */
  lemma DocumentStartNeedsUtf8(stream: seq<R.ReadResult>, pos: nat, state: ParserState, baseUrl: string, calendar: Calendar,
                               version: XmlVersion, encoding: string, standalone: Option<bool>)
    requires EventAt(stream, pos, R.StartDocument(version, encoding, standalone))
    ensures encoding != "UTF-8" ==> Step(stream, pos, state, baseUrl, calendar) == Fail(EncodingNotUtf8(encoding))
    ensures encoding == "UTF-8" ==> Step(stream, pos, state, baseUrl, calendar) == Continue(Advance(pos + 1, Header, []))
  {
  }

  /** An element before the document start fails. */
  lemma ElementBeforeDocumentFails(stream: seq<R.ReadResult>, pos: nat, baseUrl: string, calendar: Calendar,
                                   name: QName, attributes: seq<Attribute>)
    requires EventAt(stream, pos, R.StartElement(name, attributes))
    ensures Step(stream, pos, ParserState.None, baseUrl, calendar) == Fail(StartElementBeforeDocument)
  {
  }

  /** The root must be `feed`; it opens the RSS document and its `rss` root. */
  lemma RootMustBeFeed(stream: seq<R.ReadResult>, pos: nat, baseUrl: string, calendar: Calendar,
                       name: QName, attributes: seq<Attribute>)
    requires EventAt(stream, pos, R.StartElement(name, attributes))
    ensures name.localName != "feed" ==> Step(stream, pos, Header, baseUrl, calendar) == Fail(RootNotFeed(name.localName))
    ensures name.localName == "feed" ==> Step(stream, pos, Header, baseUrl, calendar) == Continue(Advance(pos + 1, ChannelInfo, RssHeader))
  {
  }

  /** End elements, text, whitespace and processing instructions change
      nothing and read nothing more. */
  lemma OtherEventsIgnored(stream: seq<R.ReadResult>, pos: nat, state: ParserState, baseUrl: string, calendar: Calendar,
                           e: R.XmlEvent)
    requires EventAt(stream, pos, e) && !e.StartDocument? && !e.StartElement?
    ensures Step(stream, pos, state, baseUrl, calendar) == Continue(Advance(pos + 1, state, []))
  {
  }

  /** The channel elements other than `link`, `title` and `published`
      (`channelId`, `id`, `author`, `name`, `uri` and unknown ones) change nothing. */
  lemma UnknownChannelElementIgnored(stream: seq<R.ReadResult>, pos: nat, baseUrl: string, calendar: Calendar,
                                     name: QName, attributes: seq<Attribute>)
    requires EventAt(stream, pos, R.StartElement(name, attributes))
    requires name.localName !in {"link", "title", "published"}
    ensures Step(stream, pos, ChannelInfo, baseUrl, calendar) == Continue(Advance(pos + 1, ChannelInfo, []))
  {
  }

  /** The item elements other than `title`, `link`, `published` and `content`
      change nothing. */
  lemma UnknownItemElementIgnored(stream: seq<R.ReadResult>, pos: nat, baseUrl: string, calendar: Calendar,
                                  name: QName, attributes: seq<Attribute>)
    requires EventAt(stream, pos, R.StartElement(name, attributes))
    requires name.localName !in {"title", "link", "published", "content"}
    ensures Step(stream, pos, VideoEntry, baseUrl, calendar) == Continue(Advance(pos + 1, VideoEntry, []))
  {
  }

  // ---------------------------------------------------------------------
  // The end of the document, and a document that has none

  /** At the end of the document the channel and the `rss` root are closed. */
  lemma EndClosesTwice(stream: seq<R.ReadResult>, pos: nat, state: ParserState, written: seq<W.WriteEvent>,
                       baseUrl: string, calendar: Calendar)
    requires R.ReadAt(stream, pos).0 == R.Event(R.EndDocument)
    ensures Run(stream, pos, state, written, baseUrl, calendar) == Success(written + [Close, Close])
  {
  }

  /** A translation only succeeds on a stream that reaches the end of the document. */
  lemma {:induction false} SuccessNeedsEnd(stream: seq<R.ReadResult>, pos: nat, state: ParserState,
                                           written: seq<W.WriteEvent>, baseUrl: string, calendar: Calendar)
    requires Run(stream, pos, state, written, baseUrl, calendar).Success?
    ensures exists i | pos <= i < |stream| :: stream[i] == R.Event(R.EndDocument)
    decreases |stream| - pos
  {
    match Step(stream, pos, state, baseUrl, calendar)
    case Finish =>
      assert stream[pos] == R.Event(R.EndDocument);
    case Continue(a) =>
      SuccessNeedsEnd(stream, a.pos, a.state, written + a.written, baseUrl, calendar);
  }

  /** An input that stops before its end fails. */
  lemma TruncatedInputFails(stream: seq<R.ReadResult>, baseUrl: string, calendar: Calendar)
    requires forall i | 0 <= i < |stream| :: stream[i] != R.Event(R.EndDocument)
    ensures Translation(stream, baseUrl, calendar).Failure?
  {
    if Translation(stream, baseUrl, calendar).Success? {
      SuccessNeedsEnd(stream, 0, ParserState.None, [], baseUrl, calendar);
    }
  }

  // ---------------------------------------------------------------------
  // The channel

  /** A channel `link` needs both `rel` and `href`; `rel="self"` opens the
      channel with the self link, `rel="alternate"` writes the channel page,
      any other `rel` writes nothing. None of them reads further events. */
  lemma ChannelLinkWrites(pos: nat, attributes: seq<Attribute>, baseUrl: string)
    ensures FindAttribute(attributes, "rel").None? ==> ChannelLink(pos, attributes, baseUrl) == Failure(MissingAttribute("rel"))
    ensures FindAttribute(attributes, "rel").Some? && FindAttribute(attributes, "href").None? ==>
      ChannelLink(pos, attributes, baseUrl) == Failure(MissingAttribute("href"))
    ensures FindAttribute(attributes, "rel") == Some("self") && FindAttribute(attributes, "href").Some? ==>
      ChannelLink(pos, attributes, baseUrl) ==
        Success(Advance(pos, ChannelInfo, ChannelOpening(baseUrl, FindAttribute(attributes, "href").value)))
    ensures FindAttribute(attributes, "rel") == Some("alternate") && FindAttribute(attributes, "href").Some? ==>
      ChannelLink(pos, attributes, baseUrl) ==
        Success(Advance(pos, ChannelInfo, TextElement("link", FindAttribute(attributes, "href").value)))
    ensures (&& FindAttribute(attributes, "rel").Some? && FindAttribute(attributes, "rel").value !in {"self", "alternate"}
             && FindAttribute(attributes, "href").Some?) ==>
      ChannelLink(pos, attributes, baseUrl) == Success(Advance(pos, ChannelInfo, []))
  {
    var href := FindAttribute(attributes, "href").GetOr("");
    assert ChannelOpening(baseUrl, href) + [] == ChannelOpening(baseUrl, href);
    assert [] + TextElement("link", href) == TextElement("link", href);
    var nothing: seq<W.WriteEvent> := [];
    assert nothing + nothing == nothing;
  }

  /** The self link is `atom:link` with `rel="self"` and the RSS type; its
      `href` is the service's channel URL, ending in the channel id that
      follows the last `=` of the Atom self link, or in the whole Atom link
      when it has no `=`. */
  lemma SelfLinkPointsHere(baseUrl: string, prefix: string, id: string, href: string)
    requires '=' !in id
    ensures AtomSelfLink(baseUrl, prefix + "=" + id).name == QName("link", Some("atom"))
    ensures AtomSelfLink(baseUrl, prefix + "=" + id).attributes == [
      Attribute(Plain("href"), baseUrl + "/channel/" + id),
      Attribute(Plain("rel"), "self"),
      Attribute(Plain("type"), "application/rss+xml")]
    ensures '=' !in href ==> SelfLinkHref(baseUrl, href) == baseUrl + "/channel/" + href
  {
    ChannelIdOfQuery(prefix, id);
  }

  /** The channel `title` reads exactly one more event and writes it twice,
      as the title and as the description, so the two are identical; the
      end of the document there fails. */
  lemma ChannelTitleIsDescription(stream: seq<R.ReadResult>, pos: nat)
    ensures R.ReadAt(stream, pos).0 == R.Event(R.EndDocument) ==> ChannelTitle(stream, pos) == Failure(NotWritable)
    ensures ChannelTitle(stream, pos).Success? ==>
      && pos < |stream| && stream[pos].Event?
      && var a := ChannelTitle(stream, pos).value;
      && var echoed := R.AsWriterEvent(stream[pos].event);
      && echoed.Some?
      && a == Advance(pos + 1, ChannelInfo, [Open("title"), echoed.value, Close, Newline,
                                             Open("description"), echoed.value, Close, Newline])
      && a.written[1] == a.written[5]
  {
  }

  /** The channel `published` reads one more event, which must be text; the
      text is dropped and the build date is the clock's. The channel ends here. */
  lemma ChannelDateUsesClock(stream: seq<R.ReadResult>, pos: nat, calendar: Calendar, e: R.XmlEvent)
    requires pos < |stream| && stream[pos] == R.Event(e)
    ensures e.Characters? ==>
      ChannelDate(stream, pos, calendar) == Success(Advance(pos + 1, VideoEntries, TextElement("lastBuildDate", calendar.nowRfc822)))
    ensures !e.Characters? ==> ChannelDate(stream, pos, calendar) == Failure(NotCharacters)
  {
  }

  // ---------------------------------------------------------------------
  // The items

  /** In VideoEntries only `entry` does anything: it writes one `item` start
      and a newline and opens the item; every other element writes nothing. */
  lemma EntryOpensItem(stream: seq<R.ReadResult>, pos: nat, baseUrl: string, calendar: Calendar,
                       name: QName, attributes: seq<Attribute>)
    requires EventAt(stream, pos, R.StartElement(name, attributes))
    ensures name.localName == "entry" ==>
      Step(stream, pos, VideoEntries, baseUrl, calendar) == Continue(Advance(pos + 1, VideoEntry, [Open("item"), Newline]))
    ensures name.localName != "entry" ==>
      Step(stream, pos, VideoEntries, baseUrl, calendar) == Continue(Advance(pos + 1, VideoEntries, []))
  {
  }

  /** The `media:title` of the media group writes nothing and reads nothing;
      any other item `title` reads one more event and writes it as the title. */
  lemma MediaTitleIgnored(stream: seq<R.ReadResult>, pos: nat, name: QName, e: R.XmlEvent)
    ensures name.prefix == Some("media") ==> ItemTitle(stream, pos, name) == Success(Advance(pos, VideoEntry, []))
    ensures name.prefix != Some("media") && EventAt(stream, pos, e) ==>
      ItemTitle(stream, pos, name) == Success(Advance(pos + 1, VideoEntry, [Open("title"), R.AsWriterEvent(e).value, Close, Newline]))
    ensures name.prefix != Some("media") && R.ReadAt(stream, pos).0 == R.Event(R.EndDocument) ==>
      ItemTitle(stream, pos, name) == Failure(NotWritable)
  {
  }

  /** The item `link` writes its `href`, which must be there. */
  lemma ItemLinkNeedsHref(pos: nat, attributes: seq<Attribute>)
    ensures FindAttribute(attributes, "href").None? ==> ItemLink(pos, attributes) == Failure(MissingAttribute("href"))
    ensures FindAttribute(attributes, "href").Some? ==>
      ItemLink(pos, attributes) == Success(Advance(pos, VideoEntry, TextElement("link", FindAttribute(attributes, "href").value)))
  {
  }

  /** The item `published` reads one more event, which must be an RFC 3339
      timestamp, and writes it in RFC 822 format as the `pubDate`. */
  lemma ItemDateConverts(stream: seq<R.ReadResult>, pos: nat, calendar: Calendar, e: R.XmlEvent)
    requires pos < |stream| && stream[pos] == R.Event(e)
    ensures !e.Characters? ==> ItemDate(stream, pos, calendar) == Failure(NotCharacters)
    ensures e.Characters? && calendar.rfc3339ToRfc822(e.text).None? ==> ItemDate(stream, pos, calendar) == Failure(BadDate(e.text))
    ensures e.Characters? && calendar.rfc3339ToRfc822(e.text).Some? ==>
      ItemDate(stream, pos, calendar) ==
        Success(Advance(pos + 1, VideoEntry, TextElement("pubDate", calendar.rfc3339ToRfc822(e.text).value)))
  {
  }

  // ---------------------------------------------------------------------
  // The `content` element of an item

  /** On a stream that goes on, the lookahead reads exactly seven events:
      two skipped, the thumbnail, three skipped and the description. */
  lemma LookaheadReadsSeven(stream: seq<R.ReadResult>, pos: nat)
    requires Ongoing(stream, pos, 7)
    ensures stream[pos + 2].Event? && stream[pos + 6].Event?
    ensures MediaLookahead(stream, pos) ==
      match ThumbnailOf(stream[pos + 2].event)
      case Failure(error) => Failure(error)
      case Success(thumbnail) => Success(MediaGroup(thumbnail, DescriptionOf(stream[pos + 6].event), pos + 7))
  {
    assert !R.IsFinal(stream[pos]) && !R.IsFinal(stream[pos + 1]) && !R.IsFinal(stream[pos + 2]);
    assert !R.IsFinal(stream[pos + 3]) && !R.IsFinal(stream[pos + 4]) && !R.IsFinal(stream[pos + 5]);
    assert !R.IsFinal(stream[pos + 6]);
  }

  /** Only a `content` start element describes the thumbnail; without one,
      or without its `url`, `width` and `height`, the thumbnail is empty and
      0 by 0. */
  lemma ThumbnailDefaults(e: R.XmlEvent)
    ensures !(e.StartElement? && e.name.localName == "content") ==> ThumbnailOf(e) == Success(NoThumbnail)
    ensures (&& e.StartElement? && e.name.localName == "content"
             && forall i | 0 <= i < |e.attributes| :: e.attributes[i].name.localName !in {"url", "width", "height"}) ==>
      ThumbnailOf(e) == Success(NoThumbnail)
  {
  }

  /** The attribute that is the last with its name gives that value. */
  lemma LastNamedWins(attributes: seq<Attribute>, key: string, i: nat)
    requires LastNamed(attributes, key, i)
    ensures LastValue(attributes, key) == Some(attributes[i].value)
  {
    var r := LastValue(attributes, key);
    assert attributes[i].name.localName == key;
    assert r.Some?;
    var k :| LastNamed(attributes, key, k) && attributes[k].value == r.value;
    assert k == i;
  }

  /** A `width` or `height` that is not a 32-bit integer fails the
      translation, with the first such value. */
  lemma ThumbnailNumbersFail(attributes: seq<Attribute>, i: nat)
    requires BadNumberAt(attributes, i)
    ensures ThumbnailAttributes(attributes) == Failure(BadInteger(FirstBadNumber(attributes).value))
  {
  }

  /** When the thumbnail is read, every `width` and `height` is a 32-bit
      integer and the last `url`, `width` and `height` win. */
  lemma ThumbnailLastWins(attributes: seq<Attribute>, i: nat)
    requires i < |attributes|
    requires ThumbnailAttributes(attributes).Success?
    ensures forall j | 0 <= j < |attributes| :: IsNumberAttribute(attributes[j]) ==> ParseI32(attributes[j].value).Some?
    ensures LastNamed(attributes, "url", i) ==> ThumbnailAttributes(attributes).value.url == attributes[i].value
    ensures LastNamed(attributes, "width", i) ==> ParseI32(attributes[i].value) == Some(ThumbnailAttributes(attributes).value.width)
    ensures LastNamed(attributes, "height", i) ==> ParseI32(attributes[i].value) == Some(ThumbnailAttributes(attributes).value.height)
  {
    assert forall j | 0 <= j < |attributes| :: !BadNumberAt(attributes, j);
    forall j | 0 <= j < |attributes| ensures IsNumberAttribute(attributes[j]) ==> ParseI32(attributes[j].value).Some? {
      assert !BadNumberAt(attributes, j);
    }
    if LastNamed(attributes, "url", i) {
      LastNamedWins(attributes, "url", i);
    }
    if LastNamed(attributes, "width", i) {
      LastNamedWins(attributes, "width", i);
      assert !BadNumberAt(attributes, i);
    }
    if LastNamed(attributes, "height", i) {
      LastNamedWins(attributes, "height", i);
      assert !BadNumberAt(attributes, i);
    }
  }

  /** After its lookahead, `content` needs the `url` of the element, writes
      the guid, the HTML description and the end of the item, and moves back
      to VideoEntries. */
  lemma ContentNeedsUrl(media: MediaGroup, attributes: seq<Attribute>)
    ensures FindAttribute(attributes, "url").None? ==> ContentClosing(media, attributes) == Failure(MissingAttribute("url"))
    ensures FindAttribute(attributes, "url").Some? ==>
      var url := FindAttribute(attributes, "url").value;
      && ContentClosing(media, attributes).Success?
      && var a := ContentClosing(media, attributes).value;
      && a.pos == media.pos && a.state == VideoEntries
      && |a.written| == 9
      && a.written[..4] == TextElement("guid", Guid(url))
      && a.written[4..8] == TextElement("description", ItemDescription(media.thumbnail, media.description, VideoId(url)))
      && a.written[8] == Close
  {
  }

  /** Item URLs that differ only in a query without `/` give the same item. */
  lemma ContentIgnoresQuery(media: MediaGroup, path: string, query: string, query': string,
                            attributes: seq<Attribute>, attributes': seq<Attribute>)
    requires '?' !in path && '/' !in query && '/' !in query'
    requires FindAttribute(attributes, "url") == Some(path + "?" + query)
    requires FindAttribute(attributes', "url") == Some(path + "?" + query')
    ensures ContentClosing(media, attributes) == ContentClosing(media, attributes')
  {
    GuidIgnoresQuery(path, query);
    GuidIgnoresQuery(path, query');
    VideoIdIgnoresQuery(path, query);
    VideoIdIgnoresQuery(path, query');
  }

  /** A `content` start in an item, on a stream that goes on for seven more
      events, reads eight events in all and ends the item. */
  lemma ContentReadsEight(stream: seq<R.ReadResult>, pos: nat, baseUrl: string, calendar: Calendar,
                          name: QName, attributes: seq<Attribute>)
    requires EventAt(stream, pos, R.StartElement(name, attributes)) && name.localName == "content"
    requires Ongoing(stream, pos + 1, 7)
    requires Step(stream, pos, VideoEntry, baseUrl, calendar).Continue?
    ensures Step(stream, pos, VideoEntry, baseUrl, calendar).next.pos == pos + 8
    ensures Step(stream, pos, VideoEntry, baseUrl, calendar).next.state == VideoEntries
  {
    LookaheadReadsSeven(stream, pos + 1);
  }

  // ---------------------------------------------------------------------
  // The HTML description of an item

  /** Rendering distributes over the concatenation of templates. */
  lemma {:induction false} RenderAppend(a: seq<Piece>, b: seq<Piece>, thumbnail: Thumbnail, description: string, videoId: string)
    ensures Render(a + b, thumbnail, description, videoId) == Render(a, thumbnail, description, videoId) + Render(b, thumbnail, description, videoId)
    decreases |a|
  {
    if |a| == 0 {
      assert a + b == b;
    } else {
      assert (a + b)[0] == a[0] && (a + b)[1..] == a[1..] + b;
      RenderAppend(a[1..], b, thumbnail, description, videoId);
    }
  }

  /** Rendering one more piece adds its text at the end. */
  lemma RenderPrefix(template: seq<Piece>, k: nat, thumbnail: Thumbnail, description: string, videoId: string)
    requires k < |template|
    ensures Render(template[..k + 1], thumbnail, description, videoId)
         == Render(template[..k], thumbnail, description, videoId) + PieceText(template[k], thumbnail, description, videoId)
  {
    assert template[..k + 1] == template[..k] + [template[k]];
    RenderAppend(template[..k], [template[k]], thumbnail, description, videoId);
    assert [template[k]][1..] == [];
  }

  /** A template of the item's layout: fixed text around, in this order, the
      thumbnail's URL, width and height, the description and the video id. */
  predicate ItemLayout(t: seq<Piece>) {
    && |t| == 11
    && t[0].Text? && t[1] == Hole(ThumbnailUrl) && t[2].Text? && t[3] == Hole(ThumbnailWidth)
    && t[4].Text? && t[5] == Hole(ThumbnailHeight) && t[6].Text? && t[7] == Hole(DescriptionText)
    && t[8].Text? && t[9] == Hole(EmbeddedVideo) && t[10].Text?
  }

  /** A template of the item's layout renders as its fixed text with the
      fields put in verbatim. */
  lemma RenderLayout(t: seq<Piece>, thumbnail: Thumbnail, description: string, videoId: string)
    requires ItemLayout(t)
    ensures Render(t, thumbnail, description, videoId)
      == t[0].text + thumbnail.url + t[2].text + FormatInt(thumbnail.width) + t[4].text + FormatInt(thumbnail.height)
         + t[6].text + description + t[8].text + videoId + t[10].text
  {
    var th, de, vi := thumbnail, description, videoId;
    var width, height := FormatInt(th.width), FormatInt(th.height);
    assert t[..0] == [];
    RenderPrefix(t, 0, th, de, vi);
    assert Render(t[..1], th, de, vi) == t[0].text;
    RenderPrefix(t, 1, th, de, vi);
    assert Render(t[..2], th, de, vi) == t[0].text + th.url;
    RenderPrefix(t, 2, th, de, vi);
    assert Render(t[..3], th, de, vi) == t[0].text + th.url + t[2].text;
    RenderPrefix(t, 3, th, de, vi);
    assert Render(t[..4], th, de, vi) == t[0].text + th.url + t[2].text + width;
    RenderPrefix(t, 4, th, de, vi);
    assert Render(t[..5], th, de, vi) == t[0].text + th.url + t[2].text + width + t[4].text;
    RenderPrefix(t, 5, th, de, vi);
    assert Render(t[..6], th, de, vi) == t[0].text + th.url + t[2].text + width + t[4].text + height;
    RenderPrefix(t, 6, th, de, vi);
    assert Render(t[..7], th, de, vi) == t[0].text + th.url + t[2].text + width + t[4].text + height + t[6].text;
    RenderPrefix(t, 7, th, de, vi);
    assert Render(t[..8], th, de, vi) == t[0].text + th.url + t[2].text + width + t[4].text + height + t[6].text + de;
    RenderPrefix(t, 8, th, de, vi);
    assert Render(t[..9], th, de, vi)
        == t[0].text + th.url + t[2].text + width + t[4].text + height + t[6].text + de + t[8].text;
    RenderPrefix(t, 9, th, de, vi);
    assert Render(t[..10], th, de, vi)
        == t[0].text + th.url + t[2].text + width + t[4].text + height + t[6].text + de + t[8].text + vi;
    RenderPrefix(t, 10, th, de, vi);
    assert t[..11] == t;
  }

  /** The HTML body of an item is its fixed text with, in this order, the
      thumbnail's URL, width and height, the description and the video id
      put in verbatim; nothing else of the item appears in it. */
  lemma DescriptionLayout(thumbnail: Thumbnail, description: string, videoId: string)
    ensures ItemLayout(DescriptionTemplate)
    ensures var t := DescriptionTemplate;
      ItemDescription(thumbnail, description, videoId)
      == t[0].text + thumbnail.url + t[2].text + FormatInt(thumbnail.width) + t[4].text + FormatInt(thumbnail.height)
         + t[6].text + description + t[8].text + videoId + t[10].text
  {
    RenderLayout(DescriptionTemplate, thumbnail, description, videoId);
  }

  // ---------------------------------------------------------------------
  // The balance of the items

  /** How an event changes the depth of open elements. */
  function Nesting(e: W.WriteEvent): int {
    if e.StartElement? then 1 else if e.EndElement? then -1 else 0
  }

  /** The number of elements `written` opens and leaves open (negative when
      it closes more than it opens). */
  function Depth(written: seq<W.WriteEvent>): int
    decreases |written|
  {
    if |written| == 0 then 0 else Depth(written[..|written| - 1]) + Nesting(written[|written| - 1])
  }

  lemma {:induction false} DepthAppend(a: seq<W.WriteEvent>, b: seq<W.WriteEvent>)
    ensures Depth(a + b) == Depth(a) + Depth(b)
    decreases |b|
  {
    if |b| == 0 {
      assert a + b == a;
    } else {
      assert (a + b)[..|a + b| - 1] == a + b[..|b| - 1];
      DepthAppend(a, b[..|b| - 1]);
    }
  }

  /** The depth of a short run of events, event by event. */
  lemma DepthOfTwo(w: seq<W.WriteEvent>)
    requires |w| == 2
    ensures Depth(w) == Nesting(w[0]) + Nesting(w[1])
  {
    var w1 := w[..1];
    assert w1[..0] == [];
    assert Depth(w1) == Nesting(w[0]);
    assert w[..|w| - 1] == w1;
  }

  lemma DepthOfFour(w: seq<W.WriteEvent>)
    requires |w| == 4
    ensures Depth(w) == Nesting(w[0]) + Nesting(w[1]) + Nesting(w[2]) + Nesting(w[3])
  {
    var w3 := w[..3];
    DepthOfTwo(w3[..2]);
    assert w3[..|w3| - 1] == w3[..2];
    assert Depth(w3) == Nesting(w[0]) + Nesting(w[1]) + Nesting(w[2]);
    assert w[..|w| - 1] == w3;
  }

  /** The header starts a UTF-8 document of version 1.0 and leaves exactly
      one element open: the `rss` root, of version 2.0, with the Atom
      namespace bound to the `atom` prefix. */
  lemma HeaderOpensRoot()
    ensures RssHeader[0] == W.StartDocument(Version10, Some("UTF-8"), Some(true))
    ensures Depth(RssHeader) == 1
    ensures RssRoot.StartElement? && RssRoot.name == Plain("rss")
    ensures FindAttribute(RssRoot.attributes, "version") == Some("2.0")
    ensures FindAttribute(RssRoot.attributes, "atom") == Some(AtomNamespace)
  {
    DepthOfFour(RssHeader);
  }

  /** The channel opening leaves exactly one element open, the channel: the
      self link inside it is closed at once. */
  lemma ChannelOpeningOpensChannel(baseUrl: string, href: string)
    ensures ChannelOpening(baseUrl, href)[0] == Open("channel")
    ensures Depth(ChannelOpening(baseUrl, href)) == 1
  {
    var w := ChannelOpening(baseUrl, href);
    DepthOfFour(w[..4]);
    assert w[..|w| - 1] == w[..4];
  }

  /** An element holding text is balanced. */
  lemma TextElementBalanced(localName: string, text: string)
    ensures Depth(TextElement(localName, text)) == 0
  {
    DepthOfFour(TextElement(localName, text));
  }

  /** The end of an item closes exactly one element: the item. */
  lemma ItemClosingCloses(url: string, html: string)
    ensures Depth(ItemClosing(url, html)) == -1
    ensures ItemClosing(url, html)[|ItemClosing(url, html)| - 1] == Close
  {
    TextElementBalanced("guid", Guid(url));
    TextElementBalanced("description", html);
    DepthAppend(TextElement("guid", Guid(url)), TextElement("description", html));
    DepthAppend(TextElement("guid", Guid(url)) + TextElement("description", html), [Close]);
    assert [Close][..0] == [];
  }

  /** The number of items a state has open. */
  function OpenItems(state: ParserState): int {
    if state == VideoEntry then 1 else 0
  }

  /** The event at `pos` starts an element named `title`. */
  predicate TitleAt(stream: seq<R.ReadResult>, pos: nat) {
    pos < |stream| && stream[pos].Event? && stream[pos].event.StartElement? && stream[pos].event.name.localName == "title"
  }

  /** The event at `pos` starts or ends an element. */
  predicate ElementAt(stream: seq<R.ReadResult>, pos: nat) {
    pos < |stream| && stream[pos].Event? && (stream[pos].event.StartElement? || stream[pos].event.EndElement?)
  }

  /** The event at `pos` starts a document. */
  predicate DocumentStartAt(stream: seq<R.ReadResult>, pos: nat) {
    pos < |stream| && stream[pos].Event? && stream[pos].event.StartDocument?
  }

  /** How the event at `pos` changes the depth when it is echoed into an
      item's `title`: one more open element for a start, one fewer for an end. */
  function EchoNesting(stream: seq<R.ReadResult>, pos: nat): int {
    if !ElementAt(stream, pos) then 0 else if stream[pos].event.StartElement? then 1 else -1
  }

  /** A non-media `title` start at `pos` inside an entry echoes the event
      after it; this is how far that echo changes the depth. */
  function TitleEcho(stream: seq<R.ReadResult>, pos: nat, state: ParserState): int {
    if state == VideoEntry && TitleAt(stream, pos) && stream[pos].event.name.prefix != Some("media")
    then EchoNesting(stream, pos + 1)
    else 0
  }

  /** From `pos` on the document does not start again, and what follows a
      `title` is not an element (the feed's titles hold text). */
  predicate ItemsOnly(stream: seq<R.ReadResult>, pos: nat) {
    && (forall i | pos <= i < |stream| :: !DocumentStartAt(stream, i))
    && (forall i | pos <= i < |stream| :: TitleAt(stream, i) ==> !ElementAt(stream, i + 1))
  }

  /** A start element inside an entry writes balanced text, except the
      `content` that ends the entry, which closes the item, and a non-media
      `title`, which leaves open or closes whatever element it echoes. */
  lemma EntryElementBalanced(stream: seq<R.ReadResult>, pos: nat, name: QName, attributes: seq<Attribute>,
                             calendar: Calendar)
    requires VideoEntryElement(stream, pos, name, attributes, calendar).Success?
    ensures var a := VideoEntryElement(stream, pos, name, attributes, calendar).value;
      && (a.state == VideoEntries || a.state == VideoEntry)
      && Depth(a.written) == OpenItems(a.state) - 1 +
           (if name.localName == "title" && name.prefix != Some("media") then EchoNesting(stream, pos) else 0)
  {
    var a := VideoEntryElement(stream, pos, name, attributes, calendar).value;
    var local := name.localName;
    if local == "title" {
      if name.prefix != Some("media") {
        DepthOfFour(a.written);
      }
    } else if local == "link" {
      TextElementBalanced("link", FindAttribute(attributes, "href").value);
    } else if local == "published" {
      var date := calendar.rfc3339ToRfc822(stream[pos].event.text).value;
      TextElementBalanced("pubDate", date);
    } else if local == "content" {
      var media := MediaLookahead(stream, pos).value;
      var url := FindAttribute(attributes, "url").value;
      ItemClosingCloses(url, ItemDescription(media.thumbnail, media.description, VideoId(url)));
    }
  }

  /** In the item states, a turn writes balanced text, except that it opens
      an item when it enters VideoEntry and closes it when it leaves, and
      that an echoed element in a `title` stays open or closes one; a new
      document start writes nothing and goes back to Header. */
  lemma ItemTurnBalanced(stream: seq<R.ReadResult>, pos: nat, state: ParserState, baseUrl: string, calendar: Calendar)
    requires state == VideoEntries || state == VideoEntry
    requires Step(stream, pos, state, baseUrl, calendar).Continue?
    ensures DocumentStartAt(stream, pos) ==>
      Step(stream, pos, state, baseUrl, calendar).next == Advance(pos + 1, Header, [])
    ensures var a := Step(stream, pos, state, baseUrl, calendar).next;
      !DocumentStartAt(stream, pos) ==>
        && (a.state == VideoEntries || a.state == VideoEntry)
        && Depth(a.written) == OpenItems(a.state) - OpenItems(state) + TitleEcho(stream, pos, state)
  {
    var e := stream[pos].event;
    if e.StartElement? {
      if state == VideoEntries {
        if e.name.localName == "entry" {
          DepthOfTwo([Open("item"), Newline]);
        }
      } else {
        if e.name.localName == "title" {
          assert TitleAt(stream, pos);
        }
        EntryElementBalanced(stream, pos + 1, e.name, e.attributes, calendar);
      }
    }
  }

  /** The items are balanced: after what was written before, a run in the
      item states writes as many element ends as starts, apart from the
      two final ends of the channel and the root and the one item a feed
      that stops inside an entry leaves open. */
  lemma {:induction false} ItemsBalanced(stream: seq<R.ReadResult>, pos: nat, state: ParserState,
                                         written: seq<W.WriteEvent>, baseUrl: string, calendar: Calendar)
    requires state == VideoEntries || state == VideoEntry
    requires ItemsOnly(stream, pos)
    requires Run(stream, pos, state, written, baseUrl, calendar).Success?
    ensures var out := Run(stream, pos, state, written, baseUrl, calendar).value;
      0 <= Depth(out) - Depth(written) + OpenItems(state) + 2 <= 1
    decreases |stream| - pos
  {
    var out := Run(stream, pos, state, written, baseUrl, calendar).value;
    match Step(stream, pos, state, baseUrl, calendar)
    case Finish =>
      EndClosesTwice(stream, pos, state, written, baseUrl, calendar);
      DepthAppend(written, [Close, Close]);
      DepthOfTwo([Close, Close]);
    case Continue(a) =>
      ItemTurnBalanced(stream, pos, state, baseUrl, calendar);
      DepthAppend(written, a.written);
      ItemsBalanced(stream, a.pos, a.state, written + a.written, baseUrl, calendar);
  }

  // ---------------------------------------------------------------------
  // The clock only shows in the build date

  /** Two sequences of writes agree event by event, except where the first
      holds the text `now1` and the second the text `now2`. */
  predicate SameUpToClock(a: seq<W.WriteEvent>, b: seq<W.WriteEvent>, now1: string, now2: string) {
    && |a| == |b|
    && forall i | 0 <= i < |a| :: a[i] == b[i] || (a[i] == W.Characters(now1) && b[i] == W.Characters(now2))
  }

  lemma SameUpToClockAppend(a1: seq<W.WriteEvent>, b1: seq<W.WriteEvent>, a2: seq<W.WriteEvent>, b2: seq<W.WriteEvent>,
                            now1: string, now2: string)
    requires SameUpToClock(a1, b1, now1, now2) && SameUpToClock(a2, b2, now1, now2)
    ensures SameUpToClock(a1 + a2, b1 + b2, now1, now2)
  {
    forall i | 0 <= i < |a1 + a2|
      ensures (a1 + a2)[i] == (b1 + b2)[i] || ((a1 + a2)[i] == W.Characters(now1) && (b1 + b2)[i] == W.Characters(now2))
    {
      if i >= |a1| {
        assert (a1 + a2)[i] == a2[i - |a1|] && (b1 + b2)[i] == b2[i - |b1|];
      }
    }
  }

  /** A turn under two clocks: the same failure, the same end, or the same
      position and state with writes that differ only in the clock's text. */
  lemma StepClock(stream: seq<R.ReadResult>, pos: nat, state: ParserState, baseUrl: string,
                  now1: string, now2: string, convert: string -> Option<string>)
    ensures var s2 := Step(stream, pos, state, baseUrl, Calendar(now2, convert));
      match Step(stream, pos, state, baseUrl, Calendar(now1, convert))
      case Fail(error) => s2 == Fail(error)
      case Finish => s2 == Finish
      case Continue(a) =>
        && s2.Continue? && s2.next.pos == a.pos && s2.next.state == a.state
        && SameUpToClock(a.written, s2.next.written, now1, now2)
  {
  }

  /** A run under two clocks, from outputs that already differ only in the
      clock's text: the same failure, or outputs that differ only there. */
  lemma {:induction false} RunClock(stream: seq<R.ReadResult>, pos: nat, state: ParserState,
                                    written1: seq<W.WriteEvent>, written2: seq<W.WriteEvent>, baseUrl: string,
                                    now1: string, now2: string, convert: string -> Option<string>)
    requires SameUpToClock(written1, written2, now1, now2)
    ensures var r2 := Run(stream, pos, state, written2, baseUrl, Calendar(now2, convert));
      match Run(stream, pos, state, written1, baseUrl, Calendar(now1, convert))
      case Failure(error) => r2 == Failure(error)
      case Success(out) => r2.Success? && SameUpToClock(out, r2.value, now1, now2)
    decreases |stream| - pos
  {
    var c1 := Calendar(now1, convert);
    var c2 := Calendar(now2, convert);
    StepClock(stream, pos, state, baseUrl, now1, now2, convert);
    match Step(stream, pos, state, baseUrl, c1)
    case Fail(_) =>
    case Finish =>
      SameUpToClockAppend(written1, written2, [Close, Close], [Close, Close], now1, now2);
    case Continue(a) =>
      var b := Step(stream, pos, state, baseUrl, c2).next;
      SameUpToClockAppend(written1, written2, a.written, b.written, now1, now2);
      RunClock(stream, a.pos, a.state, written1 + a.written, written2 + b.written, baseUrl, now1, now2, convert);
  }

  /** Translating the same input at two times gives the same failure, or
      outputs that differ only in the build date the clock writes. */
  lemma TranslationClock(stream: seq<R.ReadResult>, baseUrl: string,
                         now1: string, now2: string, convert: string -> Option<string>)
    ensures var r2 := Translation(stream, baseUrl, Calendar(now2, convert));
      match Translation(stream, baseUrl, Calendar(now1, convert))
      case Failure(error) => r2 == Failure(error)
      case Success(out) => r2.Success? && SameUpToClock(out, r2.value, now1, now2)
  {
    RunClock(stream, 0, ParserState.None, [], [], baseUrl, now1, now2, convert);
  }
}
