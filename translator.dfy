/** The Atom to RSS translation of a YouTube channel feed.

    A five-state machine is driven by the parser's events. Each event is
    ignored, turned into RSS writer events, or makes its handler pull a fixed
    number of further events. The pure functions `Step` and `Run` give the
    meaning of one dispatched event and of the whole loop; the method
    `Translate` is the loop itself, over a reader and a writer that change
    step by step, and is proved to compute `Translation`. */
module Translator {
  import opened Results
  import opened XmlNames
  import opened TextRules
  import opened Decimal
  import R = XmlReader
  import W = XmlWriter

  /** The phases of a translation, in the order a feed passes through them. */
  datatype ParserState = None | Header | ChannelInfo | VideoEntries | VideoEntry

  /** Why a translation fails: an error of the parser propagated by `?`, or
      one of the assertions, unwraps and panics of the translator. */
  datatype TranslationError =
    | ReadError(message: string)
    | EncodingNotUtf8(encoding: string)
    | StartElementBeforeDocument
    | RootNotFeed(localName: string)
    | MissingAttribute(attribute: string)
    | NotWritable
    | NotCharacters
    | BadDate(text: string)
    | BadInteger(text: string)

  /** The translator's access to time: the wall clock's reading, already in the
      format of section 5 of RFC 822 (`%a, %d %b %Y %H:%M:%S %z`), and the
      conversion of a section 5.6 RFC 3339 timestamp into that format, which
      yields nothing for text that is not such a timestamp. */
  datatype Calendar = Calendar(nowRfc822: string, rfc3339ToRfc822: string -> Option<string>)

  /** The thumbnail of an item, as its `media:content` child describes it. */
  datatype Thumbnail = Thumbnail(url: string, width: int, height: int)

  const NoThumbnail := Thumbnail("", 0, 0)

  /** What a handler leaves behind when it succeeds: the reader's position,
      the next state and the events it wrote, in order. */
  datatype Advance = Advance(pos: nat, state: ParserState, written: seq<W.WriteEvent>)

  /** The outcome of dispatching one event of the main loop. The main loop's
      own `Turn` has the same three cases, without the position and the
      writes, which the method leaves in its reader and writer. */
  datatype Outcome = Continue(next: Advance) | Finish | Fail(error: TranslationError)

  // ---------------------------------------------------------------------
  // The events the translator writes

  const Close: W.WriteEvent := W.EndElement(Option.None)
  const Newline: W.WriteEvent := W.Characters("\n")

  function Open(localName: string): W.WriteEvent {
    W.StartElement(Plain(localName), [])
  }

  /** `<name>text</name>` followed by a newline. */
  function TextElement(localName: string, text: string): seq<W.WriteEvent> {
    [Open(localName), W.Characters(text), Close, Newline]
  }

  const AtomNamespace: string := "http://www.w3.org/2005/Atom"

  /** The `rss` root with its version and the `atom` namespace. */
  const RssRoot: W.WriteEvent :=
    W.StartElement(Plain("rss"), [
      Attribute(Plain("version"), "2.0"),
      Attribute(QName("atom", Some("xmlns")), AtomNamespace)])

  /** The document start and the `rss` root. */
  const RssHeader: seq<W.WriteEvent> := [
    W.StartDocument(Version10, Some("UTF-8"), Some(true)),
    Newline,
    RssRoot,
    Newline]

  /** The `href` of the RSS self link: the service's own URL for the channel. */
  function SelfLinkHref(baseUrl: string, href: string): string {
    baseUrl + "/channel/" + ChannelId(href)
  }

  /** The `atom:link` element that points back at this feed. */
  function AtomSelfLink(baseUrl: string, href: string): W.WriteEvent {
    W.StartElement(QName("link", Some("atom")), [
      Attribute(Plain("href"), SelfLinkHref(baseUrl, href)),
      Attribute(Plain("rel"), "self"),
      Attribute(Plain("type"), "application/rss+xml")])
  }

  /** What the Atom self link becomes: the channel opens, then its self link. */
  function ChannelOpening(baseUrl: string, href: string): seq<W.WriteEvent> {
    [Open("channel"), Newline, AtomSelfLink(baseUrl, href), Close, Newline]
  }

  /** The places of the item template that the item fills in. */
  datatype Field = ThumbnailUrl | ThumbnailWidth | ThumbnailHeight | DescriptionText | EmbeddedVideo

  /** A piece of a template: literal text, or a field. */
  datatype Piece = Text(text: string) | Hole(field: Field)

  const Indent := "                            "
  const AttributeIndent := Indent + "    "

  /** The HTML body of an item: the thumbnail, the description in a paragraph
      and the embedded player of the video, as the translator lays it out. */
  const DescriptionTemplate: seq<Piece> := [
    Text("\n" + Indent + "<img src=\""), Hole(ThumbnailUrl),
    Text("\" alt=\"YouTube thumbnail\" class=\"\" loading=\"lazy\" width=\""), Hole(ThumbnailWidth),
    Text("\" height=\""), Hole(ThumbnailHeight), Text("\" />\n"
      + Indent + "<p>"), Hole(DescriptionText), Text("</p>\n"
      + Indent + "<iframe\n"
      + AttributeIndent + "allow=\"accelerometer; autoplay; clipboard-write; encrypted-media; gyroscope; picture-in-picture; web-share\"\n"
      + AttributeIndent + "allowfullscreen=\"allowfullscreen\"\n"
      + AttributeIndent + "loading=\"eager\"\n"
      + AttributeIndent + "referrerpolicy=\"strict-origin-when-cross-origin\"\n"
      + AttributeIndent + "src=\"https://www.youtube.com/embed/"), Hole(EmbeddedVideo), Text("?autoplay=0&controls=1&end=0&loop=0&mute=0&start=0\"\n"
      + AttributeIndent + "style=\"position: absolute; top: 0; left: 0; width: 100%; height: 100%; border:0;\"\n"
      + AttributeIndent + "title=\"YouTube video\">\n"
      + Indent + "</iframe>\n"
      + Indent)]

  /** What an item puts in a field: the thumbnail's URL and its width and
      height in decimal, the description text, and the video's id. */
  function FieldValue(field: Field, thumbnail: Thumbnail, description: string, videoId: string): string {
    match field
    case ThumbnailUrl => thumbnail.url
    case ThumbnailWidth => FormatInt(thumbnail.width)
    case ThumbnailHeight => FormatInt(thumbnail.height)
    case DescriptionText => description
    case EmbeddedVideo => videoId
  }

  /** The text a piece of a template stands for. */
  function PieceText(piece: Piece, thumbnail: Thumbnail, description: string, videoId: string): string {
    match piece
    case Text(text) => text
    case Hole(field) => FieldValue(field, thumbnail, description, videoId)
  }

  /** A template with its fields filled in. */
  function Render(template: seq<Piece>, thumbnail: Thumbnail, description: string, videoId: string): string {
    if |template| == 0 then ""
    else PieceText(template[0], thumbnail, description, videoId) + Render(template[1..], thumbnail, description, videoId)
  }

  /** The HTML body of an item. */
  function ItemDescription(thumbnail: Thumbnail, description: string, videoId: string): string {
    Render(DescriptionTemplate, thumbnail, description, videoId)
  }

  /** What the `content` handler writes: the guid, the HTML description, and
      the end of the item. */
  function ItemClosing(url: string, html: string): seq<W.WriteEvent> {
    TextElement("guid", Guid(url)) + TextElement("description", html) + [Close]
  }

  // ---------------------------------------------------------------------
  // Thumbnail attributes

  predicate IsNumberAttribute(a: Attribute) {
    a.name.localName == "width" || a.name.localName == "height"
  }

  /** Attribute `i` is the last one whose local name is `key`. */
  predicate LastNamed(attributes: seq<Attribute>, key: string, i: int) {
    && 0 <= i < |attributes|
    && attributes[i].name.localName == key
    && forall j | i < j < |attributes| :: attributes[j].name.localName != key
  }

  /** The value of the last attribute whose local name is `key`. */
  function LastValue(attributes: seq<Attribute>, key: string): (r: Option<string>)
    ensures r.None? <==> forall i | 0 <= i < |attributes| :: attributes[i].name.localName != key
    ensures r.Some? ==> exists i :: LastNamed(attributes, key, i) && attributes[i].value == r.value
    decreases |attributes|
  {
    if |attributes| == 0 then Option.None
    else
      var last := attributes[|attributes| - 1];
      if last.name.localName == key then
        assert LastNamed(attributes, key, |attributes| - 1);
        Some(last.value)
      else
        var front := attributes[..|attributes| - 1];
        var r := LastValue(front, key);
        assert r.Some? ==> exists i :: LastNamed(attributes, key, i) && attributes[i].value == r.value by {
          if r.Some? {
            var i :| LastNamed(front, key, i) && front[i].value == r.value;
            assert LastNamed(attributes, key, i);
          }
        }
        r
  }

  /** Attribute `i` is a `width` or `height` whose value is not a 32-bit integer. */
  predicate BadNumberAt(attributes: seq<Attribute>, i: int) {
    0 <= i < |attributes| && IsNumberAttribute(attributes[i]) && ParseI32(attributes[i].value).None?
  }

  /** Attribute `i` is the first such attribute. */
  predicate FirstBadAt(attributes: seq<Attribute>, i: int) {
    BadNumberAt(attributes, i) && forall j | 0 <= j < i :: !BadNumberAt(attributes, j)
  }

  /** The value of the first `width` or `height` attribute that is not a 32-bit integer. */
  function FirstBadNumber(attributes: seq<Attribute>): (r: Option<string>)
    ensures r.None? <==> forall i | 0 <= i < |attributes| :: !BadNumberAt(attributes, i)
    ensures r.Some? ==> exists i :: FirstBadAt(attributes, i) && attributes[i].value == r.value
    decreases |attributes|
  {
    if |attributes| == 0 then Option.None
    else
      var front := attributes[..|attributes| - 1];
      assert forall j | 0 <= j < |front| :: BadNumberAt(front, j) == BadNumberAt(attributes, j);
      match FirstBadNumber(front)
      case Some(v) =>
        assert exists i :: FirstBadAt(attributes, i) && attributes[i].value == v by {
          var i :| FirstBadAt(front, i) && front[i].value == v;
          assert FirstBadAt(attributes, i);
        }
        Some(v)
      case None =>
        if BadNumberAt(attributes, |attributes| - 1) then
          assert FirstBadAt(attributes, |attributes| - 1);
          Some(attributes[|attributes| - 1].value)
        else Option.None
  }

  /** The number an attribute value denotes, 0 when there is no attribute. */
  function NumberOrZero(value: Option<string>): int {
    match value
    case None => 0
    case Some(v) => ParseI32(v).GetOr(0)
  }

  /** The thumbnail a `content` element's attributes describe: the last `url`,
      `width` and `height` win, a missing one keeps its default, and any
      `width` or `height` that is not a 32-bit integer fails. */
  function ThumbnailAttributes(attributes: seq<Attribute>): (r: Result<Thumbnail, TranslationError>)
    ensures r.Success? <==> forall i | 0 <= i < |attributes| :: !BadNumberAt(attributes, i)
    ensures r.Success? && LastValue(attributes, "url").None? ==> r.value.url == ""
    ensures r.Success? && LastValue(attributes, "width").None? ==> r.value.width == 0
    ensures r.Success? && LastValue(attributes, "height").None? ==> r.value.height == 0
  {
    match FirstBadNumber(attributes)
    case Some(v) => Failure(BadInteger(v))
    case None =>
      Success(Thumbnail(
        LastValue(attributes, "url").GetOr(""),
        NumberOrZero(LastValue(attributes, "width")),
        NumberOrZero(LastValue(attributes, "height"))))
  }

  /** Only a `content` start element describes a thumbnail; any other event
      leaves the defaults. */
  function ThumbnailOf(e: R.XmlEvent): (r: Result<Thumbnail, TranslationError>)
    ensures r.Failure? ==> e.StartElement? && e.name.localName == "content"
  {
    if e.StartElement? && e.name.localName == "content" then ThumbnailAttributes(e.attributes)
    else Success(NoThumbnail)
  }

  // ---------------------------------------------------------------------
  // One event of the main loop

  /** The reader moved forward and, if it moved, stayed within the stream. */
  predicate Forward(stream: seq<R.ReadResult>, from: nat, to: nat) {
    from <= to && (to == from || to <= |stream|)
  }

  /** `reader.next()?`: the next event and the new position, or the parser's error. */
  function Pull(stream: seq<R.ReadResult>, pos: nat): (r: Result<(R.XmlEvent, nat), TranslationError>)
    ensures r.Success? ==> Forward(stream, pos, r.value.1)
  {
    var (read, next) := R.ReadAt(stream, pos);
    match read
    case SyntaxError(message) => Failure(ReadError(message))
    case Event(e) => Success((e, next))
  }

  /** An Atom `link` of the channel: the self link opens the channel and
      points back at this service; the alternate link is the channel page. */
  function ChannelLink(pos: nat, attributes: seq<Attribute>, baseUrl: string): (r: Result<Advance, TranslationError>)
    ensures r.Success? ==> r.value.pos == pos
  {
    var rel :- FindAttribute(attributes, "rel").ToResult(MissingAttribute("rel"));
    var href :- FindAttribute(attributes, "href").ToResult(MissingAttribute("href"));
    var selfPart := if rel == "self" then ChannelOpening(baseUrl, href) else [];
    var alternatePart := if rel == "alternate" then TextElement("link", href) else [];
    Success(Advance(pos, ChannelInfo, selfPart + alternatePart))
  }

  /** The channel `title`: the next event, written as both title and description. */
  function ChannelTitle(stream: seq<R.ReadResult>, pos: nat): (r: Result<Advance, TranslationError>)
    ensures r.Success? ==> Forward(stream, pos, r.value.pos)
  {
    var next :- Pull(stream, pos);
    var text :- R.AsWriterEvent(next.0).ToResult(NotWritable);
    Success(Advance(next.1, ChannelInfo,
      [Open("title"), text, Close, Newline, Open("description"), text, Close, Newline]))
  }

  /** The channel `published`: its text is dropped and the build date is the
      clock's; the channel's metadata ends here. */
  function ChannelDate(stream: seq<R.ReadResult>, pos: nat, calendar: Calendar): (r: Result<Advance, TranslationError>)
    ensures r.Success? ==> Forward(stream, pos, r.value.pos)
  {
    var next :- Pull(stream, pos);
    if !next.0.Characters? then Failure(NotCharacters)
    else Success(Advance(next.1, VideoEntries, TextElement("lastBuildDate", calendar.nowRfc822)))
  }

  /** A start element in state ChannelInfo: the channel's links, title and
      date; every other element is ignored. */
  function ChannelInfoElement(stream: seq<R.ReadResult>, pos: nat, name: QName, attributes: seq<Attribute>,
                              baseUrl: string, calendar: Calendar): (r: Result<Advance, TranslationError>)
    ensures r.Success? ==> Forward(stream, pos, r.value.pos)
  {
    var local := name.localName;
    if local == "link" then ChannelLink(pos, attributes, baseUrl)
    else if local == "title" then ChannelTitle(stream, pos)
    else if local == "published" then ChannelDate(stream, pos, calendar)
    else Success(Advance(pos, ChannelInfo, []))
  }

  /** What the fixed layout after an item's `content` start yields: the
      thumbnail, the description text and the reader's position after it. */
  datatype MediaGroup = MediaGroup(thumbnail: Thumbnail, description: string, pos: nat)

  /** Pull the seven events after an item's `content` start: its end and a
      whitespace, the thumbnail, the thumbnail's end, a whitespace and the
      description's start, and the description text (empty when that event is
      not characters). */
  function MediaLookahead(stream: seq<R.ReadResult>, pos: nat): (r: Result<MediaGroup, TranslationError>)
    ensures r.Success? ==> Forward(stream, pos, r.value.pos)
  {
    var contentEnd :- Pull(stream, pos);
    var space :- Pull(stream, contentEnd.1);
    var thumbnailEvent :- Pull(stream, space.1);
    var thumbnail :- ThumbnailOf(thumbnailEvent.0);
    var thumbnailEnd :- Pull(stream, thumbnailEvent.1);
    var space2 :- Pull(stream, thumbnailEnd.1);
    var descriptionStart :- Pull(stream, space2.1);
    var descriptionEvent :- Pull(stream, descriptionStart.1);
    Success(MediaGroup(thumbnail, DescriptionOf(descriptionEvent.0), descriptionEvent.1))
  }

  /** The description text of the media group: the event's text when it is
      characters, and empty otherwise. */
  function DescriptionOf(e: R.XmlEvent): string {
    if e.Characters? then e.text else ""
  }

  /** The `content` start element of an item: after its lookahead, write the
      guid, the HTML description and the end of the item. */
  function ContentElement(stream: seq<R.ReadResult>, pos: nat, attributes: seq<Attribute>): (r: Result<Advance, TranslationError>)
    ensures r.Success? ==> Forward(stream, pos, r.value.pos)
  {
    var media :- MediaLookahead(stream, pos);
    ContentClosing(media, attributes)
  }

  /** The end of the `content` handler, once its lookahead has succeeded: the
      item's URL is the `url` attribute of the `content` element. */
  function ContentClosing(media: MediaGroup, attributes: seq<Attribute>): (r: Result<Advance, TranslationError>)
    ensures r.Success? ==> r.value.pos == media.pos
  {
    var url :- FindAttribute(attributes, "url").ToResult(MissingAttribute("url"));
    Success(Advance(media.pos, VideoEntries,
      ItemClosing(url, ItemDescription(media.thumbnail, media.description, VideoId(url)))))
  }

  /** The item `title`, unless it is the `media:title` repeated in the media
      group: the next event, written as the title. */
  function ItemTitle(stream: seq<R.ReadResult>, pos: nat, name: QName): (r: Result<Advance, TranslationError>)
    ensures r.Success? ==> Forward(stream, pos, r.value.pos)
  {
    if name.prefix == Some("media") then Success(Advance(pos, VideoEntry, []))
    else
      var next :- Pull(stream, pos);
      var text :- R.AsWriterEvent(next.0).ToResult(NotWritable);
      Success(Advance(next.1, VideoEntry, [Open("title"), text, Close, Newline]))
  }

  /** The item `link`: its `href`. */
  function ItemLink(pos: nat, attributes: seq<Attribute>): (r: Result<Advance, TranslationError>)
    ensures r.Success? ==> r.value.pos == pos
  {
    var href :- FindAttribute(attributes, "href").ToResult(MissingAttribute("href"));
    Success(Advance(pos, VideoEntry, TextElement("link", href)))
  }

  /** The item `published`: its RFC 3339 text, rewritten in RFC 822 format. */
  function ItemDate(stream: seq<R.ReadResult>, pos: nat, calendar: Calendar): (r: Result<Advance, TranslationError>)
    ensures r.Success? ==> Forward(stream, pos, r.value.pos)
  {
    var next :- Pull(stream, pos);
    if !next.0.Characters? then Failure(NotCharacters)
    else
      var date :- calendar.rfc3339ToRfc822(next.0.text).ToResult(BadDate(next.0.text));
      Success(Advance(next.1, VideoEntry, TextElement("pubDate", date)))
  }

  /** A start element in state VideoEntry: the item's title, link, date and
      media content; every other element is ignored. */
  function VideoEntryElement(stream: seq<R.ReadResult>, pos: nat, name: QName, attributes: seq<Attribute>,
                             calendar: Calendar): (r: Result<Advance, TranslationError>)
    ensures r.Success? ==> Forward(stream, pos, r.value.pos)
  {
    var local := name.localName;
    if local == "title" then ItemTitle(stream, pos, name)
    else if local == "link" then ItemLink(pos, attributes)
    else if local == "published" then ItemDate(stream, pos, calendar)
    else if local == "content" then ContentElement(stream, pos, attributes)
    else Success(Advance(pos, VideoEntry, []))
  }

  /** A start element, dispatched on the state. */
  function ElementStep(stream: seq<R.ReadResult>, pos: nat, state: ParserState, name: QName,
                       attributes: seq<Attribute>, baseUrl: string, calendar: Calendar): (r: Result<Advance, TranslationError>)
    ensures r.Success? ==> Forward(stream, pos, r.value.pos)
  {
    match state
    case None => Failure(StartElementBeforeDocument)
    case Header =>
      if name.localName != "feed" then Failure(RootNotFeed(name.localName))
      else Success(Advance(pos, ChannelInfo, RssHeader))
    case ChannelInfo => ChannelInfoElement(stream, pos, name, attributes, baseUrl, calendar)
    case VideoEntries =>
      if name.localName == "entry" then Success(Advance(pos, VideoEntry, [Open("item"), Newline]))
      else Success(Advance(pos, VideoEntries, []))
    case VideoEntry => VideoEntryElement(stream, pos, name, attributes, calendar)
  }

  /** One turn of the main loop from position `pos` in state `state`. */
  function Step(stream: seq<R.ReadResult>, pos: nat, state: ParserState, baseUrl: string, calendar: Calendar): (s: Outcome)
    ensures s.Continue? ==> pos < s.next.pos <= |stream|
  {
    var (read, next) := R.ReadAt(stream, pos);
    match read
    case SyntaxError(message) => Fail(ReadError(message))
    case Event(e) =>
      match e
      case EndDocument => Finish
      case StartDocument(_, encoding, _) =>
        // a version other than 1.0 is only reported
        if encoding != "UTF-8" then Fail(EncodingNotUtf8(encoding))
        else Continue(Advance(next, Header, []))
      case StartElement(name, attributes) =>
        (match ElementStep(stream, next, state, name, attributes, baseUrl, calendar)
         case Failure(error) => Fail(error)
         case Success(a) => Continue(a))
      case _ => Continue(Advance(next, state, []))
  }

  /** The main loop from position `pos` in state `state`, after `written` has
      been written: at the end of the document the channel and the `rss` root
      are closed; the first failure is the result, with nothing written. */
  function Run(stream: seq<R.ReadResult>, pos: nat, state: ParserState, written: seq<W.WriteEvent>,
               baseUrl: string, calendar: Calendar): (r: Result<seq<W.WriteEvent>, TranslationError>)
    ensures r.Success? ==> |r.value| >= |written| + 2 && r.value[..|written|] == written
    ensures r.Success? ==> r.value[|r.value| - 2..] == [Close, Close]
    decreases |stream| - pos
  {
    match Step(stream, pos, state, baseUrl, calendar)
    case Fail(error) => Failure(error)
    case Finish => Success(written + [Close, Close])
    case Continue(a) =>
      var r := Run(stream, a.pos, a.state, written + a.written, baseUrl, calendar);
      assert r.Success? ==> r.value[..|written|] == (written + a.written)[..|written|];
      r
  }

  /** `translate(input, base_url)` on the parser's events for `input`. */
  function Translation(stream: seq<R.ReadResult>, baseUrl: string, calendar: Calendar): (r: Result<seq<W.WriteEvent>, TranslationError>)
    ensures r.Success? ==> |r.value| >= 2 && r.value[|r.value| - 2..] == [Close, Close]
  {
    Run(stream, 0, ParserState.None, [], baseUrl, calendar)
  }

  // ---------------------------------------------------------------------
  // The loop itself, over a reader and a writer that change step by step

  /** What a handler method did, compared with its specification: the same
      failure, or the same next state, the same reader position and exactly
      the specified events appended to what was written before. */
  ghost predicate Performs(spec: Result<Advance, TranslationError>, r: Result<ParserState, TranslationError>,
                           pos: nat, written: seq<W.WriteEvent>, before: seq<W.WriteEvent>) {
    match spec
    case Failure(error) => r == Failure(error)
    case Success(a) => r == Success(a.state) && pos == a.pos && written == before + a.written
  }

  /** `reader.next()?`. */
  method PullEvent(reader: R.EventReader) returns (r: Result<R.XmlEvent, TranslationError>)
    modifies reader
    ensures match Pull(reader.events, old(reader.pos))
            case Failure(error) => r == Failure(error)
            case Success(p) => r == Success(p.0) && reader.pos == p.1
  {
    var read := reader.Next();
    match read
    case SyntaxError(message) => r := Failure(ReadError(message));
    case Event(e) => r := Success(e);
  }

  /** The `for attr in attributes` loop over the thumbnail's attributes. */
  method ReadThumbnail(attributes: seq<Attribute>) returns (r: Result<Thumbnail, TranslationError>)
    ensures r == ThumbnailAttributes(attributes)
  {
    var url, width, height := "", 0, 0;
    for i := 0 to |attributes|
      invariant FirstBadNumber(attributes[..i]).None?
      invariant url == LastValue(attributes[..i], "url").GetOr("")
      invariant width == NumberOrZero(LastValue(attributes[..i], "width"))
      invariant height == NumberOrZero(LastValue(attributes[..i], "height"))
    {
      var attr := attributes[i];
      assert attributes[..i + 1][..i] == attributes[..i] && attributes[..i + 1][i] == attr;
      if attr.name.localName == "url" {
        url := attr.value;
      }
      if attr.name.localName == "width" {
        var parsed := ParseI32(attr.value);
        if parsed.None? {
          FirstBadNumberExtends(attributes, i + 1);
          return Failure(BadInteger(attr.value));
        }
        width := parsed.value;
      }
      if attr.name.localName == "height" {
        var parsed := ParseI32(attr.value);
        if parsed.None? {
          FirstBadNumberExtends(attributes, i + 1);
          return Failure(BadInteger(attr.value));
        }
        height := parsed.value;
      }
    }
    assert attributes[..|attributes|] == attributes;
    r := Success(Thumbnail(url, width, height));
  }

  /** A bad number in a prefix is the first bad number of the whole list. */
  lemma {:induction false} FirstBadNumberExtends(attributes: seq<Attribute>, n: nat)
    requires n <= |attributes| && FirstBadNumber(attributes[..n]).Some?
    ensures FirstBadNumber(attributes) == FirstBadNumber(attributes[..n])
    decreases |attributes| - n
  {
    if n < |attributes| {
      assert attributes[..n + 1][..n] == attributes[..n];
      FirstBadNumberExtends(attributes, n + 1);
    } else {
      assert attributes[..n] == attributes;
    }
  }

  /** The four writes of an element holding text: start, characters, end and a newline. */
  method WriteTextElement(writer: W.EventWriter, localName: string, text: string)
    modifies writer
    ensures writer.written == old(writer.written) + TextElement(localName, text)
  {
    writer.Write(Open(localName));
    writer.Write(W.Characters(text));
    writer.Write(Close);
    writer.Write(Newline);
  }

  method WriteChannelLink(writer: W.EventWriter, pos: nat, attributes: seq<Attribute>, baseUrl: string)
    returns (r: Result<ParserState, TranslationError>)
    modifies writer
    ensures Performs(ChannelLink(pos, attributes, baseUrl), r, pos, writer.written, old(writer.written))
  {
    // rel says which link: self is this feed, alternate is the channel page
    var rel :- FindAttribute(attributes, "rel").ToResult(MissingAttribute("rel"));
    var href :- FindAttribute(attributes, "href").ToResult(MissingAttribute("href"));
    if rel == "self" {
      WriteChannelOpening(writer, baseUrl, href);
    }
    if rel == "alternate" {
      WriteTextElement(writer, "link", href);
    }
    r := Success(ChannelInfo);
  }

  /** The start of the channel and its self link. */
  method WriteChannelOpening(writer: W.EventWriter, baseUrl: string, href: string)
    modifies writer
    ensures writer.written == old(writer.written) + ChannelOpening(baseUrl, href)
  {
    writer.Write(Open("channel"));
    writer.Write(Newline);
    writer.Write(AtomSelfLink(baseUrl, href));
    writer.Write(Close);
    writer.Write(Newline);
  }

  method WriteChannelTitle(reader: R.EventReader, writer: W.EventWriter) returns (r: Result<ParserState, TranslationError>)
    modifies reader, writer
    ensures Performs(ChannelTitle(reader.events, old(reader.pos)), r, reader.pos, writer.written, old(writer.written))
  {
    var characters :- PullEvent(reader);
    var text :- R.AsWriterEvent(characters).ToResult(NotWritable);
    writer.Write(Open("title"));
    writer.Write(text);
    writer.Write(Close);
    writer.Write(Newline);
    writer.Write(Open("description"));
    writer.Write(text);
    writer.Write(Close);
    writer.Write(Newline);
    r := Success(ChannelInfo);
  }

  method WriteChannelDate(reader: R.EventReader, writer: W.EventWriter, calendar: Calendar)
    returns (r: Result<ParserState, TranslationError>)
    modifies reader, writer
    ensures Performs(ChannelDate(reader.events, old(reader.pos), calendar), r, reader.pos, writer.written, old(writer.written))
  {
    // the feed's own date is read and dropped: the build date is now
    var characters :- PullEvent(reader);
    if !characters.Characters? {
      return Failure(NotCharacters);
    }
    WriteTextElement(writer, "lastBuildDate", calendar.nowRfc822);
    r := Success(VideoEntries);
  }

  method HandleChannelInfo(reader: R.EventReader, writer: W.EventWriter, name: QName, attributes: seq<Attribute>,
                           baseUrl: string, calendar: Calendar) returns (r: Result<ParserState, TranslationError>)
    modifies reader, writer
    ensures Performs(ChannelInfoElement(reader.events, old(reader.pos), name, attributes, baseUrl, calendar),
                     r, reader.pos, writer.written, old(writer.written))
  {
    var local := name.localName;
    if local == "link" {
      r := WriteChannelLink(writer, reader.pos, attributes, baseUrl);
    } else if local == "title" {
      r := WriteChannelTitle(reader, writer);
    } else if local == "published" {
      r := WriteChannelDate(reader, writer, calendar);
    } else {
      // channelId, id, author, name, uri and unknown elements
      r := Success(ChannelInfo);
    }
  }

  method ReadMediaGroup(reader: R.EventReader) returns (r: Result<MediaGroup, TranslationError>)
    modifies reader
    ensures r == MediaLookahead(reader.events, old(reader.pos))
    ensures r.Success? ==> reader.pos == r.value.pos
  {
    // the end of this content element and a whitespace
    var contentEnd :- PullEvent(reader);
    var space :- PullEvent(reader);
    // the thumbnail goes first
    var thumbnailEvent :- PullEvent(reader);
    var thumbnail := NoThumbnail;
    if thumbnailEvent.StartElement? && thumbnailEvent.name.localName == "content" {
      thumbnail :- ReadThumbnail(thumbnailEvent.attributes);
    }
    // the thumbnail's end, a whitespace and the description's start
    var thumbnailEnd :- PullEvent(reader);
    var space2 :- PullEvent(reader);
    var descriptionStart :- PullEvent(reader);
    var descriptionEvent :- PullEvent(reader);
    r := Success(MediaGroup(thumbnail, DescriptionOf(descriptionEvent), reader.pos));
  }

  method HandleContent(reader: R.EventReader, writer: W.EventWriter, attributes: seq<Attribute>)
    returns (r: Result<ParserState, TranslationError>)
    modifies reader, writer
    ensures Performs(ContentElement(reader.events, old(reader.pos), attributes),
                     r, reader.pos, writer.written, old(writer.written))
  {
    var media :- ReadMediaGroup(reader);
    r := WriteContentClosing(writer, media, attributes);
  }

  method WriteContentClosing(writer: W.EventWriter, media: MediaGroup, attributes: seq<Attribute>)
    returns (r: Result<ParserState, TranslationError>)
    modifies writer
    ensures Performs(ContentClosing(media, attributes), r, media.pos, writer.written, old(writer.written))
  {
    var url :- FindAttribute(attributes, "url").ToResult(MissingAttribute("url"));
    var videoId := VideoId(url);
    WriteItemClosing(writer, url, ItemDescription(media.thumbnail, media.description, videoId));
    r := Success(VideoEntries);
  }

  /** The guid, the HTML description and the end of the item. */
  method WriteItemClosing(writer: W.EventWriter, url: string, html: string)
    modifies writer
    ensures writer.written == old(writer.written) + ItemClosing(url, html)
  {
    WriteTextElement(writer, "guid", Guid(url));
    WriteTextElement(writer, "description", html);
    writer.Write(Close);
  }

  method WriteItemTitle(reader: R.EventReader, writer: W.EventWriter, name: QName)
    returns (r: Result<ParserState, TranslationError>)
    modifies reader, writer
    ensures Performs(ItemTitle(reader.events, old(reader.pos), name), r, reader.pos, writer.written, old(writer.written))
  {
    // media:group repeats the title as media:title, which is skipped
    if name.prefix != Some("media") {
      var characters :- PullEvent(reader);
      var text :- R.AsWriterEvent(characters).ToResult(NotWritable);
      writer.Write(Open("title"));
      writer.Write(text);
      writer.Write(Close);
      writer.Write(Newline);
    }
    r := Success(VideoEntry);
  }

  method WriteItemLink(writer: W.EventWriter, pos: nat, attributes: seq<Attribute>)
    returns (r: Result<ParserState, TranslationError>)
    modifies writer
    ensures Performs(ItemLink(pos, attributes), r, pos, writer.written, old(writer.written))
  {
    var href :- FindAttribute(attributes, "href").ToResult(MissingAttribute("href"));
    WriteTextElement(writer, "link", href);
    r := Success(VideoEntry);
  }

  method WriteItemDate(reader: R.EventReader, writer: W.EventWriter, calendar: Calendar)
    returns (r: Result<ParserState, TranslationError>)
    modifies reader, writer
    ensures Performs(ItemDate(reader.events, old(reader.pos), calendar), r, reader.pos, writer.written, old(writer.written))
  {
    var characters :- PullEvent(reader);
    if !characters.Characters? {
      return Failure(NotCharacters);
    }
    var date :- calendar.rfc3339ToRfc822(characters.text).ToResult(BadDate(characters.text));
    WriteTextElement(writer, "pubDate", date);
    r := Success(VideoEntry);
  }

  method HandleVideoEntry(reader: R.EventReader, writer: W.EventWriter, name: QName, attributes: seq<Attribute>,
                          calendar: Calendar) returns (r: Result<ParserState, TranslationError>)
    modifies reader, writer
    ensures Performs(VideoEntryElement(reader.events, old(reader.pos), name, attributes, calendar),
                     r, reader.pos, writer.written, old(writer.written))
  {
    var local := name.localName;
    if local == "title" {
      r := WriteItemTitle(reader, writer, name);
    } else if local == "link" {
      r := WriteItemLink(writer, reader.pos, attributes);
    } else if local == "published" {
      r := WriteItemDate(reader, writer, calendar);
    } else if local == "content" {
      r := HandleContent(reader, writer, attributes);
    } else {
      // id, updated, videoId, channelId, author, group, name, uri, community,
      // starRating, statistics and unknown elements
      r := Success(VideoEntry);
    }
  }

  method HandleStartElement(reader: R.EventReader, writer: W.EventWriter, state: ParserState, name: QName,
                            attributes: seq<Attribute>, baseUrl: string, calendar: Calendar)
    returns (r: Result<ParserState, TranslationError>)
    modifies reader, writer
    ensures Performs(ElementStep(reader.events, old(reader.pos), state, name, attributes, baseUrl, calendar),
                     r, reader.pos, writer.written, old(writer.written))
  {
    match state
    case None =>
      r := Failure(StartElementBeforeDocument);
    case Header =>
      if name.localName != "feed" {
        return Failure(RootNotFeed(name.localName));
      }
      writer.Write(W.StartDocument(Version10, Some("UTF-8"), Some(true)));
      writer.Write(Newline);
      writer.Write(RssRoot);
      writer.Write(Newline);
      r := Success(ChannelInfo);
    case ChannelInfo =>
      r := HandleChannelInfo(reader, writer, name, attributes, baseUrl, calendar);
    case VideoEntries =>
      if name.localName == "entry" {
        writer.Write(Open("item"));
        writer.Write(Newline);
        r := Success(VideoEntry);
      } else {
        r := Success(VideoEntries);
      }
    case VideoEntry =>
      r := HandleVideoEntry(reader, writer, name, attributes, calendar);
  }

  /** What the main loop does after dispatching one event: `Outcome` with
      the position and the writes left in the reader and the writer. */
  datatype Turn = Proceed(state: ParserState) | Done | Abort(error: TranslationError)

  /** What one dispatch did, compared with `Step`: the same failure, the end
      of the document with nothing written, or the same next state, reader
      position and events written. */
  ghost predicate Takes(step: Outcome, t: Turn, pos: nat, written: seq<W.WriteEvent>, before: seq<W.WriteEvent>) {
    match step
    case Fail(error) => t == Abort(error)
    case Finish => t == Done && written == before
    case Continue(a) => t == Proceed(a.state) && pos == a.pos && written == before + a.written
  }

  /** The turn `t` from `pos` in `state` is what `Step` specifies there. */
  ghost predicate TurnOf(stream: seq<R.ReadResult>, pos: nat, state: ParserState, baseUrl: string, calendar: Calendar,
                         t: Turn, next: nat, after: seq<W.WriteEvent>, before: seq<W.WriteEvent>) {
    Takes(Step(stream, pos, state, baseUrl, calendar), t, next, after, before)
  }

  /** How a turn continues the main loop: `Run` from before the turn is the
      failure, the two closing ends, or `Run` from after the turn. */
  lemma RunAfterTurn(stream: seq<R.ReadResult>, pos: nat, state: ParserState, written: seq<W.WriteEvent>,
                     baseUrl: string, calendar: Calendar, t: Turn, next: nat, after: seq<W.WriteEvent>)
    requires TurnOf(stream, pos, state, baseUrl, calendar, t, next, after, written)
    ensures t.Abort? ==> Run(stream, pos, state, written, baseUrl, calendar) == Failure(t.error)
    ensures t.Done? ==> Run(stream, pos, state, written, baseUrl, calendar) == Success(written + [Close, Close])
    ensures t.Proceed? ==> pos < next <= |stream|
    ensures t.Proceed? ==>
      Run(stream, pos, state, written, baseUrl, calendar) == Run(stream, next, t.state, after, baseUrl, calendar)
  {
  }

  /** `Run` from here gives `goal`. */
  ghost predicate Reaches(stream: seq<R.ReadResult>, pos: nat, state: ParserState, written: seq<W.WriteEvent>,
                          baseUrl: string, calendar: Calendar, goal: Result<seq<W.WriteEvent>, TranslationError>) {
    Run(stream, pos, state, written, baseUrl, calendar) == goal
  }

  /** `RunAfterTurn` for the main loop, whose invariant is that `Run` from
      the reader's position gives the whole translation. */
  lemma TurnKeepsGoal(stream: seq<R.ReadResult>, pos: nat, state: ParserState, written: seq<W.WriteEvent>,
                      baseUrl: string, calendar: Calendar, t: Turn, next: nat, after: seq<W.WriteEvent>,
                      goal: Result<seq<W.WriteEvent>, TranslationError>)
    requires TurnOf(stream, pos, state, baseUrl, calendar, t, next, after, written)
    requires Reaches(stream, pos, state, written, baseUrl, calendar, goal)
    ensures t.Abort? ==> goal == Failure(t.error)
    ensures t.Done? ==> goal == Success(written + [Close, Close])
    ensures t.Proceed? ==> pos < next <= |stream| && Reaches(stream, next, t.state, after, baseUrl, calendar, goal)
  {
    RunAfterTurn(stream, pos, state, written, baseUrl, calendar, t, next, after);
  }

  /** One turn of the main loop: pull an event and dispatch it on the state. */
  method Dispatch(reader: R.EventReader, writer: W.EventWriter, state: ParserState, baseUrl: string, calendar: Calendar)
    returns (t: Turn)
    modifies reader, writer
    ensures TurnOf(reader.events, old(reader.pos), state, baseUrl, calendar, t, reader.pos, writer.written, old(writer.written))
  {
    var read := reader.Next();
    if read.SyntaxError? {
      return Abort(ReadError(read.message));
    }
    var e := read.event;
    if e.EndDocument? {
      t := Done;
    } else if e.StartDocument? {
      // a version other than 1.0 is only reported
      if e.encoding != "UTF-8" {
        return Abort(EncodingNotUtf8(e.encoding));
      }
      t := Proceed(Header);
      assert writer.written == old(writer.written) + [];
    } else if e.StartElement? {
      var next := HandleStartElement(reader, writer, state, e.name, e.attributes, baseUrl, calendar);
      match next
      case Failure(error) => t := Abort(error);
      case Success(s) => t := Proceed(s);
    } else {
      // end elements, characters, whitespace and processing instructions
      t := Proceed(state);
      assert writer.written == old(writer.written) + [];
    }
  }

  /** `translate`: pull events until the end of the document, dispatching
      each on the state, then close the channel and the `rss` root. */
  method Translate(stream: seq<R.ReadResult>, baseUrl: string, calendar: Calendar)
    returns (r: Result<seq<W.WriteEvent>, TranslationError>)
    ensures r == Translation(stream, baseUrl, calendar)
  {
    var reader := new R.EventReader(stream);
    var writer := new W.EventWriter();
    var state := ParserState.None;
    while true
      invariant reader.events == stream && reader.pos <= |stream|
      invariant Reaches(stream, reader.pos, state, writer.written, baseUrl, calendar, Translation(stream, baseUrl, calendar))
      decreases |stream| - reader.pos
    {
      ghost var pos, written := reader.pos, writer.written;
      var t := Dispatch(reader, writer, state, baseUrl, calendar);
      TurnKeepsGoal(stream, pos, state, written, baseUrl, calendar, t, reader.pos, writer.written, Translation(stream, baseUrl, calendar));
      match t
      case Abort(error) =>
        return Failure(error);
      case Done =>
        break;
      case Proceed(next) =>
        state := next;
    }
    ghost var ended := writer.written;
    writer.Write(Close);
    writer.Write(Close);
    assert writer.written == ended + [Close, Close];
    r := Success(writer.written);
  }
}
