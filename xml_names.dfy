/** Names, attributes and versions shared by the XML reader and writer (the
    `xml` crate's `name`, `attribute` and `common` modules as the translator
    uses them; namespace URIs are not part of the model). */
module XmlNames {
  import opened Results

  /** A qualified name: `media:title` has local name `title` and prefix `media`. */
  datatype QName = QName(localName: string, prefix: Option<string>)

  datatype Attribute = Attribute(name: QName, value: string)

  datatype XmlVersion = Version10 | Version11

  /** A name without a prefix. */
  function Plain(localName: string): QName {
    QName(localName, None)
  }

  /** `attributes.iter().find(|attr| attr.name.local_name == key)`, keeping the
      value: the first attribute whose local name is `key`, whatever its prefix. */
  function FindAttribute(attributes: seq<Attribute>, key: string): (r: Option<string>)
    ensures r.None? <==> forall i | 0 <= i < |attributes| :: attributes[i].name.localName != key
    ensures r.Some? ==> exists i | 0 <= i < |attributes| ::
      && attributes[i].name.localName == key
      && attributes[i].value == r.value
      && forall j | 0 <= j < i :: attributes[j].name.localName != key
    decreases |attributes|
  {
    if |attributes| == 0 then None
    else if attributes[0].name.localName == key then Some(attributes[0].value)
    else
      var r := FindAttribute(attributes[1..], key);
      assert forall j | 1 <= j < |attributes| :: attributes[j] == attributes[1..][j - 1];
      r
  }
}
