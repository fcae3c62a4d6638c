/** The writer side of the `xml` crate: the events the translator emits, and
    an event writer whose buffer only ever grows. Serialisation and escaping
    are not part of the model. */
module XmlWriter {
  import opened Results
  import opened XmlNames

  datatype WriteEvent =
    | StartDocument(version: XmlVersion, encoding: Option<string>, standalone: Option<bool>)
    | ProcessingInstruction(target: string, data: Option<string>)
    | StartElement(name: QName, attributes: seq<Attribute>)
      /** `end_element()` leaves the name to the writer, which knows the open element. */
    | EndElement(closing: Option<QName>)
    | Characters(text: string)

  /** An event writer over an in-memory buffer. */
  class EventWriter {
    var written: seq<WriteEvent>

    constructor ()
      ensures written == []
    {
      written := [];
    }

    method Write(e: WriteEvent)
      modifies this
      ensures written == old(written) + [e]
    {
      written := written + [e];
    }
  }
}
