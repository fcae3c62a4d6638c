/** The reader side of the `xml` crate: the events of its pull parser and a
    forward-only cursor over them. The parser is configured to drop comments
    and to deliver CDATA as characters, so neither kind of event appears. */
module XmlReader {
  import opened Results
  import opened XmlNames
  import W = XmlWriter

  datatype XmlEvent =
    | StartDocument(version: XmlVersion, encoding: string, standalone: Option<bool>)
    | EndDocument
    | ProcessingInstruction(target: string, data: Option<string>)
    | StartElement(name: QName, attributes: seq<Attribute>)
    | EndElement(name: QName)
    | Characters(text: string)
    | Whitespace(text: string)

  /** What one call of `next()` yields: an event, or the parser's error for
      malformed input. */
  datatype ReadResult = Event(event: XmlEvent) | SyntaxError(message: string)

  /** The message of the error a document that stops before its end yields. */
  const UnexpectedEnd := "Unexpected end of stream"

  /** The end of the document and an error are final: the parser yields them
      again on every later call. */
  predicate IsFinal(r: ReadResult) {
    r.SyntaxError? || r.event.EndDocument?
  }

  /** What `next()` yields at position `pos` of `stream`, with the position it
      moves to: one step past a non-final result, no step after a final one,
      and an error once the stream runs out. */
  function ReadAt(stream: seq<ReadResult>, pos: nat): (r: (ReadResult, nat))
    ensures IsFinal(r.0) <==> r.1 == pos
    ensures r.1 != pos ==> pos < |stream| && r.0 == stream[pos] && r.1 == pos + 1
    ensures pos < |stream| ==> r.0 == stream[pos]
    ensures pos >= |stream| ==> r.0 == SyntaxError(UnexpectedEnd)
  {
    if pos < |stream| then (stream[pos], if IsFinal(stream[pos]) then pos else pos + 1)
    else (SyntaxError(UnexpectedEnd), pos)
  }

  /** Once the parser has yielded a final result, it yields the same again. */
  lemma FinalIsSticky(stream: seq<ReadResult>, pos: nat)
    requires IsFinal(ReadAt(stream, pos).0)
    ensures ReadAt(stream, ReadAt(stream, pos).1) == ReadAt(stream, pos)
  {
  }

  /** `XmlEvent::as_writer_event`: the writer event that reproduces a parsed
      event. Whitespace is written as characters; the end of the document has
      no writer event. */
  function AsWriterEvent(e: XmlEvent): (w: Option<W.WriteEvent>)
    ensures w.None? <==> e.EndDocument?
    ensures (e.Characters? || e.Whitespace?) ==> w == Some(W.Characters(e.text))
    ensures e.StartElement? ==> w == Some(W.StartElement(e.name, e.attributes))
    ensures e.EndElement? ==> w == Some(W.EndElement(Some(e.name)))
  {
    match e
    case StartDocument(version, encoding, standalone) =>
      Some(W.StartDocument(version, Some(encoding), standalone))
    case EndDocument => None
    case ProcessingInstruction(target, data) => Some(W.ProcessingInstruction(target, data))
    case StartElement(name, attributes) => Some(W.StartElement(name, attributes))
    case EndElement(name) => Some(W.EndElement(Some(name)))
    case Characters(text) => Some(W.Characters(text))
    case Whitespace(text) => Some(W.Characters(text))
  }

  /** The parser's cursor over a fully materialised input. */
  class EventReader {
    const events: seq<ReadResult>
    var pos: nat

    constructor (events: seq<ReadResult>)
      ensures this.events == events && pos == 0
    {
      this.events := events;
      pos := 0;
    }

    /** `reader.next()`. */
    method Next() returns (r: ReadResult)
      modifies this
      ensures (r, pos) == ReadAt(events, old(pos))
    {
      if pos < |events| {
        r := events[pos];
        if !IsFinal(r) {
          pos := pos + 1;
        }
      } else {
        r := SyntaxError(UnexpectedEnd);
      }
    }
  }
}
