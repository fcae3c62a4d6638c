# YouTube Atom to RSS translator, modelled in Dafny

This project models `translate` from the YouTube XML translator.
`translate` reads a YouTube channel's Atom feed as a stream of XML parse
events and writes an RSS 2.0 feed as a stream of XML write events. It is a
five-state machine (None, Header, ChannelInfo, VideoEntries, VideoEntry).
One loop pulls events from the parser and decides what to do with each one
from the current state:

- it ignores the event;
- it turns the event into RSS write events;
- or it reads a fixed number of further events: one after any `title` in
  the channel, one after a `title` inside an entry other than `media:title`
  (which reads none), one after a `published`, and seven after an item's
  `content`.

At the end of the document two element ends are written, whatever is open.
They close the channel and the `rss` root only when exactly those are open:
one self link in the channel, every entry ended by its `content`, and no
element echoed into a `title`.

The model has two levels.

- **Specification functions** (`Translator.Step`, `Translator.Run`,
  `Translator.Translation`). They describe one turn of the loop and a whole
  translation over an input of type `seq<XmlReader.ReadResult>`. The output
  is a `Result` of `seq<XmlWriter.WriteEvent>`.
- **Imperative translator** (`Translator.Translate` and its handler
  methods). This follows the source's own shape: an `EventReader` object
  with a mutable cursor, an `EventWriter` object whose buffer only grows, a
  mutable `state` reassigned in a loop, and a `for` loop over the thumbnail
  attributes.

Each method is proved equal to its specification function. `Translate` is
proved to return exactly `Translation(stream, baseUrl, calendar)`. The
properties of the translation are lemmas about the specification functions,
in `TranslatorProperties`.

Every failure of the source is one `Failure` of the result, and nothing is
written on failure. This covers a `?` on the parser, an `unwrap` of a missing
attribute or of a bad number or date, the `assert_eq!` on the encoding and
on the root, and the `panic!` on an event of the wrong kind.

Files:

- `results.dfy`: `Option` and `Result`.
- `xml_names.dfy`: qualified names, attributes, and the first-match
  attribute lookup.
- `xml_reader.dfy`: parse events, the parser's cursor, and
  `as_writer_event`.
- `xml_writer.dfy`: write events and the writer.
- `decimal.dfy`: `i32` parsing and display.
- `text_rules.dfy`: channel id, guid and video id.
- `translator.dfy`: the state machine, specification and methods.
- `translator_properties.dfy`: the properties.

## Model

| member | source | states |
|---|---|---|
| XmlNames.FindAttribute | translator.rs:86-98 | `attributes.iter().find(...)`: None exactly when no attribute has the local name; otherwise the value of the first attribute that has it |
| XmlReader.ReadAt | translator.rs:34 | `reader.next()`: the event at the cursor and the position after it; the cursor stays on a final result (end of document or error); past the end of the input there is a syntax error |
| XmlReader.FinalIsSticky | translator.rs:34 | once the parser has yielded its final result it yields the same again |
| XmlReader.AsWriterEvent | translator.rs:132 | `as_writer_event()`: None exactly for the end of the document; text and whitespace become characters; element starts and ends keep their names and attributes |
| XmlReader.EventReader.constructor | translator.rs:18-24 | the reader starts at position 0 of its events |
| XmlReader.EventReader.Next | translator.rs:34 | the cursor moves exactly as `ReadAt` says, and the result is `ReadAt`'s |
| XmlWriter.EventWriter.constructor | translator.rs:26-29 | the writer starts with nothing written |
| XmlWriter.EventWriter.Write | translator.rs:64 | a write appends exactly one event to what was written |
| Decimal.ParseI32 | translator.rs:256 | `value.parse::<i32>()`: any value it accepts is within the 32-bit range |
| Decimal.ParseI32Syntax | translator.rs:256 | a text is accepted exactly when an optional `+` or `-` is followed by at least one digit and nothing else, with a signed value in the 32-bit range, and then it is read as that signed value |
| Decimal.NatDigits | translator.rs:299 | the decimal digits of a natural number, without leading zeros, whose value is that number |
| Decimal.FormatInt | translator.rs:299 | i32 `Display`: a `-` exactly for a negative value and never a `+`, then at least one digit and nothing else, without leading zeros, whose value is the magnitude |
| Decimal.ParseFormatRoundTrip | translator.rs:299 | every 32-bit width or height displayed in the description parses back to itself |
| Decimal.ParseI32Examples | translator.rs:259 | a sign and leading zeros are accepted; a lone sign, the empty string and trailing text fail |
| TextRules.AfterLast | translator.rs:110 | `split(c).last()`: the result holds no `c`, and it is the whole text when `c` does not occur |
| TextRules.AfterLastIsSuffix | translator.rs:110 | the last piece is a suffix of the text, right after a `c` when the text has one |
| TextRules.BeforeFirst | translator.rs:292 | `split(c).next()`: the result holds no `c`, and it is the whole text when `c` does not occur |
| TextRules.BeforeFirstIsPrefix | translator.rs:292 | the first piece is a prefix of the text, right before a `c` when the text has one |
| TextRules.ChannelId | translator.rs:110 | the channel id holds no `=`, and it is the whole href when the href has none |
| TextRules.ChannelIdIsTail | translator.rs:110 | the channel id is the end of the href, right after its last `=` when it has one |
| TextRules.Guid | translator.rs:292 | the guid holds no `?`, and it is the whole URL when the URL has none |
| TextRules.GuidIsPrefix | translator.rs:292 | the guid is the start of the URL, right before its first `?` when it has one |
| TextRules.VideoId | translator.rs:287-288 | the video id holds neither `/` nor `?` |
| TextRules.AfterLastAppend | translator.rs:110 | appending text without `c` extends the last piece by that text |
| TextRules.BeforeFirstAppend | translator.rs:292 | whatever follows the first `c` does not change the first piece |
| TextRules.ChannelIdOfQuery | translator.rs:110 | the channel id of `...?channel_id=ID` is `ID` |
| TextRules.GuidIgnoresQuery | translator.rs:292 | a URL with and without a query has the same guid, the path |
| TextRules.VideoIdIgnoresQuery | translator.rs:287-288 | a query without `/` does not change the video id |
| TextRules.VideoIdSeesSlashInQuery | translator.rs:287-288 | a `/` in the query does change the video id: `v/ID` gives `ID`, `v/ID?list=a/b` gives `b` |
| Translator.LastValue | translator.rs:251-261 | the value of the last attribute with the name; None exactly when there is none |
| Translator.FirstBadNumber | translator.rs:255-260 | the first `width` or `height` that is not an `i32`; None exactly when every one parses |
| Translator.Pull | translator.rs:34 | a read never moves the cursor back, nor past the end of the input |
| Translator.ChannelLink | translator.rs:83-127 | a channel `link` reads no further event |
| Translator.ChannelTitle | translator.rs:129-140 | the channel `title` only moves the cursor forward |
| Translator.ChannelDate | translator.rs:142-161 | the channel `published` only moves the cursor forward |
| Translator.ChannelInfoElement | translator.rs:82-178 | a start element in ChannelInfo only moves the cursor forward |
| Translator.MediaLookahead | translator.rs:233-276 | the `content` lookahead only moves the cursor forward |
| Translator.ContentElement | translator.rs:232-319 | the `content` handler only moves the cursor forward |
| Translator.ContentClosing | translator.rs:279-318 | after the lookahead, the end of the `content` handler reads no further event |
| Translator.ItemTitle | translator.rs:190-199 | the item `title` only moves the cursor forward |
| Translator.ItemLink | translator.rs:201-213 | the item `link` reads no further event |
| Translator.ItemDate | translator.rs:215-230 | the item `published` only moves the cursor forward |
| Translator.VideoEntryElement | translator.rs:187-344 | a start element in VideoEntry only moves the cursor forward |
| Translator.ElementStep | translator.rs:56-345 | a start element in any state only moves the cursor forward |
| Translator.Step | translator.rs:33-351 | a turn of the loop that goes on reads at least one event and stays within the input |
| Translator.Run | translator.rs:33-355 | a successful run keeps what was written before as a prefix and ends in exactly two element ends |
| Translator.Translation | translator.rs:17-363 | a successful translation ends in exactly two element ends, the "end remaining elements" of translator.rs:353-355 |
| Translator.ThumbnailAttributes | translator.rs:239-261 | the attributes give a thumbnail exactly when no `width` or `height` among them fails to parse as an `i32`; a missing `url`, `width` or `height` keeps its default (empty, 0, 0) |
| Translator.ThumbnailOf | translator.rs:244-265 | only a `content` start element can make the thumbnail fail |
| Translator.PullEvent | translator.rs:34 | the method reads the event, and moves the cursor, exactly as `Pull` says |
| Translator.ReadThumbnail | translator.rs:239-261 | the `for attr in attributes` loop gives exactly `ThumbnailAttributes`: the last `url`, `width` and `height`, the defaults, or the failure on a bad number |
| Translator.FirstBadNumberExtends | translator.rs:251-261 | a bad number in a prefix of the attributes is the first bad number of all of them |
| Translator.WriteTextElement | translator.rs:209-212 | writes exactly a start, the text, an end and a newline |
| Translator.WriteChannelLink | translator.rs:83-127 | does exactly what `ChannelLink` specifies: same failure, or same state and writes |
| Translator.WriteChannelOpening | translator.rs:100-118 | writes exactly the channel start and the self link |
| Translator.WriteChannelTitle | translator.rs:129-140 | does exactly what `ChannelTitle` specifies, reader and writer included |
| Translator.WriteChannelDate | translator.rs:142-161 | does exactly what `ChannelDate` specifies, reader and writer included |
| Translator.HandleChannelInfo | translator.rs:82-178 | does exactly what `ChannelInfoElement` specifies |
| Translator.ReadMediaGroup | translator.rs:233-276 | reads exactly what `MediaLookahead` specifies, and leaves the cursor after it |
| Translator.HandleContent | translator.rs:232-319 | does exactly what `ContentElement` specifies |
| Translator.WriteContentClosing | translator.rs:279-318 | does exactly what `ContentClosing` specifies |
| Translator.WriteItemClosing | translator.rs:291-315 | writes exactly the guid, the description and the item's end |
| Translator.WriteItemTitle | translator.rs:190-199 | does exactly what `ItemTitle` specifies |
| Translator.WriteItemLink | translator.rs:201-213 | does exactly what `ItemLink` specifies |
| Translator.WriteItemDate | translator.rs:215-230 | does exactly what `ItemDate` specifies |
| Translator.HandleVideoEntry | translator.rs:187-344 | does exactly what `VideoEntryElement` specifies |
| Translator.HandleStartElement | translator.rs:56-345 | does exactly what `ElementStep` specifies, in every state |
| Translator.RunAfterTurn | translator.rs:33-351 | a turn either ends the run with its failure, ends it with the two closing ends, or leaves the rest of the run to the next turn, further on in the input |
| Translator.TurnKeepsGoal | translator.rs:33-351 | when `Run` from before a turn gives the whole translation, the turn's failure is the translation's failure, the end gives it as what was written plus the two closing ends, and otherwise `Run` from after the turn gives it too |
| Translator.Dispatch | translator.rs:34-350 | one turn of the loop does exactly what `Step` specifies: the same failure, the end of the document with nothing written, or the same state, cursor and writes |
| Translator.Translate | translator.rs:17-363 | the whole translation returns exactly `Translation(stream, baseUrl, calendar)` |
| TranslatorProperties.StepFollowsTable | translator.rs:31-345 | every turn that goes on moves the state as the dispatch table `TranslatorProperties.NextState` says |
| TranslatorProperties.TableIsLegal | translator.rs:31-345 | the table only stays, restarts at Header, goes one phase on, or alternates VideoEntries and VideoEntry |
| TranslatorProperties.ItemsAreFinal | translator.rs:179-344 | without a new document start, a turn that starts in an item state and goes on ends in an item state |
| TranslatorProperties.ReadErrorFails | translator.rs:34 | a parser error is the translation's error |
| TranslatorProperties.DocumentStartNeedsUtf8 | translator.rs:38-50 | the document start fails unless its encoding is UTF-8, whatever its version; otherwise it moves to Header and writes nothing |
| TranslatorProperties.ElementBeforeDocumentFails | translator.rs:57-59 | an element start in state None fails |
| TranslatorProperties.RootMustBeFeed | translator.rs:60-81 | a root other than `feed` fails; `feed` writes the document start and `rss` root and moves to ChannelInfo |
| TranslatorProperties.OtherEventsIgnored | translator.rs:347-349 | end elements, text, whitespace and processing instructions change nothing and read nothing more |
| TranslatorProperties.UnknownChannelElementIgnored | translator.rs:163-177 | channel elements other than `link`, `title` and `published` change nothing |
| TranslatorProperties.UnknownItemElementIgnored | translator.rs:321-343 | item elements other than `title`, `link`, `published` and `content` change nothing |
| TranslatorProperties.EndClosesTwice | translator.rs:353-355 | at the end of the document, exactly two element ends are written |
| TranslatorProperties.SuccessNeedsEnd | translator.rs:33-37 | a successful run meets the end of the document further on |
| TranslatorProperties.TruncatedInputFails | translator.rs:34 | an input without an end of document fails |
| TranslatorProperties.ChannelLinkWrites | translator.rs:86-127 | a missing `rel` or `href` fails; `self` opens the channel with the self link; `alternate` writes the channel's `link`; any other `rel` writes nothing |
| TranslatorProperties.SelfLinkPointsHere | translator.rs:104-115 | the self link is `atom:link` with `href = base_url + "/channel/" + id`, `rel="self"` and the RSS type; without `=` the id is the whole href |
| TranslatorProperties.ChannelTitleIsDescription | translator.rs:129-140 | the channel `title` reads exactly one event and writes it as both the title and the description; the end of the document there fails |
| TranslatorProperties.ChannelDateUsesClock | translator.rs:142-161 | the channel `published` needs text, drops it, writes the clock's date as `lastBuildDate` and moves to VideoEntries |
| TranslatorProperties.EntryOpensItem | translator.rs:179-186 | in VideoEntries `entry` writes one `item` start and moves to VideoEntry; any other element writes nothing |
| TranslatorProperties.MediaTitleIgnored | translator.rs:190-199 | `media:title` writes and reads nothing; any other item `title` reads one event and writes it as the title, and fails when that event is the end of the document |
| TranslatorProperties.ItemLinkNeedsHref | translator.rs:201-213 | the item `link` fails without `href` and otherwise writes it |
| TranslatorProperties.ItemDateConverts | translator.rs:215-230 | the item `published` needs text that is an RFC 3339 date, and writes it in RFC 822 form as `pubDate` |
| TranslatorProperties.LookaheadReadsSeven | translator.rs:233-276 | on an input that goes on, the lookahead reads exactly seven events; the thumbnail is the third and the description the seventh, empty unless it is text |
| TranslatorProperties.ThumbnailDefaults | translator.rs:239-265 | without a `content` start, or without its `url`, `width` and `height`, the thumbnail is empty and 0 by 0 |
| TranslatorProperties.LastNamedWins | translator.rs:251-261 | the last attribute with a name gives that name's value |
| TranslatorProperties.ThumbnailNumbersFail | translator.rs:255-260 | a `width` or `height` that is not an `i32` fails the translation |
| TranslatorProperties.ThumbnailLastWins | translator.rs:251-261 | once the thumbnail has been read, every `width` and `height` is an `i32`, and the last `url`, `width` and `height` give its fields |
| TranslatorProperties.ContentNeedsUrl | translator.rs:279-318 | after the lookahead, a missing `url` fails; otherwise the handler writes exactly the guid, the description and the item's end, and moves to VideoEntries |
| TranslatorProperties.ContentIgnoresQuery | translator.rs:279-292 | item URLs that differ only in a query without `/` write the same item |
| TranslatorProperties.ContentReadsEight | translator.rs:232-319 | a `content` start on an input that goes on reads eight events in all, and returns to VideoEntries |
| TranslatorProperties.RenderAppend | translator.rs:298-310 | filling in a template distributes over joining templates |
| TranslatorProperties.RenderPrefix | translator.rs:298-310 | filling in one more piece adds its text at the end |
| TranslatorProperties.RenderLayout | translator.rs:298-310 | a template of the item's layout gives its fixed text with the five fields put in, in order, verbatim |
| TranslatorProperties.DescriptionLayout | translator.rs:298-310 | `Translator.ItemDescription`, which fills in `Translator.DescriptionTemplate`: the HTML body is the fixed text with the thumbnail's URL, width and height, the description and the video id put in, in that order |
| TranslatorProperties.DepthAppend | translator.rs:179-318 | the depth of open elements adds up over a concatenation of writes |
| TranslatorProperties.StepClock | translator.rs:33-351 | a turn at two different times fails alike, ends alike, or moves to the same position and state with writes that differ only in the clock's date |
| TranslatorProperties.RunClock | translator.rs:33-355 | a run at two different times gives the same failure, or outputs that differ only in the clock's date |
| TranslatorProperties.TranslationClock | translator.rs:17-363 | translating the same input at two different times gives the same failure, or outputs that differ only in the `lastBuildDate` text |
| TranslatorProperties.HeaderOpensRoot | translator.rs:63-78 | `Translator.RssHeader` starts a UTF-8 document of version 1.0 and leaves exactly one element open, the `rss` root of version 2.0 with `xmlns:atom` set to the Atom namespace |
| TranslatorProperties.ChannelOpeningOpensChannel | translator.rs:100-118 | `Translator.ChannelOpening` starts the channel and leaves only it open: the self link `Translator.AtomSelfLink` inside it is closed at once |
| TranslatorProperties.TextElementBalanced | translator.rs:209-212 | an element holding text is balanced |
| TranslatorProperties.ItemClosingCloses | translator.rs:291-315 | `Translator.ItemClosing`, the end of the `content` handler, closes exactly one element more than it opens, ending with an element end |
| TranslatorProperties.EntryElementBalanced | translator.rs:187-344 | inside an entry every element writes balanced output, except `content`, which closes the item and returns to VideoEntries, and a non-media `title`, which leaves open or closes the element it echoes |
| TranslatorProperties.ItemTurnBalanced | translator.rs:49-344 | in the item states a document start writes nothing and goes back to Header; any other turn stays in the item states, opens an item exactly when it enters VideoEntry, closes it exactly when it leaves, and otherwise writes balanced output apart from an element echoed into a `title` |
| TranslatorProperties.ItemsBalanced | translator.rs:179-355 | from the item states to the end, the writes close every opened item, and also the channel and the root; an entry left open at the end of the document leaves one item open |

## Left out

- XML tokenising, escaping and serialisation (the parser and emitter
  configuration, `into_inner`, the UTF-8 conversion of the output) are library
  work and are not part of this model. The input is the parser's event stream,
  given as a sequence; the output is the writer's event stream. So the parser
  options (ignoring comments and root-level whitespace, CDATA as text,
  coalesced text) are assumed to be already applied to the input.
- The emitter's own checks are not modelled, so a write never fails. The
  source's `writer.write(...)?` cannot fail in the model; a real emitter
  rejects, for example, an end element with nothing open.
- Namespaces are reduced to the prefix of a name. The source drops the
  namespace URI of the elements it matches, but `as_writer_event` passes the
  namespace of an element echoed into a `title` on to the writer; the model
  does not carry that namespace, so the echoed element keeps only its name
  and attributes.
- The wall clock (`chrono::Utc::now()`) and the RFC 3339 to RFC 822
  conversion are parameters of the translation, in `Translator.Calendar`.
  An unparsable date is a conversion that returns None.
- The `println!` and `eprintln!` diagnostics are left out, including the
  warning on an XML version other than 1.0. That warning does not change the
  result.
- main.rs (the HTTP server, the fetch of the feed and the routing) is not
  part of this model.
- The source tells a `panic!` or failed `unwrap` apart from an `Err` return.
  The model merges both into one `Failure` with a reason.
- A document start resets the state to Header in every state, because the
  source assigns Header unconditionally. The enum's comment promises a
  chronological order, so the state would only move forward; the model
  follows the code.
  `TranslatorProperties.TableIsLegal` therefore allows a move to Header from
  any state.
- TextRules.VideoIdIgnoresQuery: requires that the query holds no `/`. The
  source splits the whole URL on `/`, so a `/` in the query does change the
  id (`TextRules.VideoIdSeesSlashInQuery`). The claim that URLs differing only
  after `?` give the same id holds only under that condition.
- TranslatorProperties.ContentIgnoresQuery: same condition, for the same
  reason.
- Translator.Translation: states only that the output ends in two element
  ends. The source writes them whatever is open. They close the channel and
  the `rss` root only when exactly those two are open: one self link in the
  channel, every entry ended by its `content`, and no element echoed into a
  `title`. Otherwise they close something else (an open item and the
  channel) or more than is open (no self link). A real emitter would reject
  the latter; writes never fail in this model.
- TranslatorProperties.ItemsBalanced: assumes nothing after the item states
  starts the document again. It also assumes every non-media item `title` is
  followed by an event other than an element start or end. The source would
  echo such an element event into the title and unbalance the output. The
  single turn is stated without either assumption, with the echo and the
  restart spelled out, in `TranslatorProperties.ItemTurnBalanced`.
- The specification functions over handler results (`ChannelLink`,
  `ContentElement`, `ItemTitle` and the rest) state, in their own contracts,
  only how far they move the cursor; what each one writes is stated by the
  lemmas in `TranslatorProperties`.
