/** The base stanza of the older tree (`src/com/juick/xmpp/Stanza.java`):
    addressing attributes and a list of children. The newer tree's own
    `Stanza` class is not part of this model; its `Iq` and `Presence` are
    modelled on this one, whose members they use under the same names. */
module Stanzas {
  import opened Wrappers
  import opened Text
  import opened XmlPull
  import opened XmlUtils
  import opened Addresses
  import opened StanzaChildren

  /** The four addressing attributes; each may be null. */
  datatype Envelope = Envelope(from: Option<Jid>, to: Option<Jid>, id: Option<string>, stanzaType: Option<string>)

  /** The text of an address attribute (`jid.toString()`). */
  function JidText(j: Option<Jid>): Option<string>
  {
    if j.Some? then Some(ToEscapedString(j.value)) else None
  }

  /** One attribute written as `toString` writes from and to: verbatim. */
  function RawAttrXml(name: string, v: Option<string>): string
  {
    if v.Some? then " " + name + "='" + v.value + "'" else ""
  }

  /** One attribute written as `toString` writes id and type: escaped. */
  function EscapedAttrXml(name: string, v: Option<string>): string
  {
    if v.Some? then " " + name + "='" + Escaped(v.value) + "'" else ""
  }

  /** The attribute text `toString` writes: from, to, id, type in that order,
      each only when set, and only id and type escaped. */
  function EnvelopeXml(e: Envelope): string
  {
    RawAttrXml("from", JidText(e.from)) + RawAttrXml("to", JidText(e.to))
    + EscapedAttrXml("id", e.id) + EscapedAttrXml("type", e.stanzaType)
  }

  /** What `parseStanza` makes of the attributes of a start tag: from and to
      only when present, id and type always (null when absent). */
  function ReadEnvelope(attrs: seq<Attr>, base: Envelope): Envelope
  {
    var f := Lookup(attrs, "from");
    var t := Lookup(attrs, "to");
    Envelope(if f.Some? then Some(Of(f.value)) else base.from,
             if t.Some? then Some(Of(t.value)) else base.to,
             Lookup(attrs, "id"),
             Lookup(attrs, "type"))
  }

  /** The attributes a reader reports for `EnvelopeXml(e)`, entities decoded. */
  function EnvelopeAttrs(e: Envelope): seq<Attr>
  {
    OptAttr("from", JidText(e.from)) + OptAttr("to", JidText(e.to))
    + OptAttr("id", e.id) + OptAttr("type", e.stanzaType)
  }

  lemma QuotedOptAttr(name: string, v: Option<string>)
    ensures Concat(QuotedAttr, OptAttr(name, v)) == EscapedAttrXml(name, v)
  {
    if v.Some? {
      assert OptAttr(name, v)[..0] == [];
    }
  }

  /** Addresses whose text needs no escaping. */
  predicate PlainAddress(j: Option<Jid>)
  {
    j.Some? ==> NoSpecials(ToEscapedString(j.value))
  }

  /** For addresses that need no escaping, the text `toString` writes is
      exactly the attributes of `EnvelopeAttrs(e)`, in order. */
  lemma EnvelopeXmlIsAttrs(e: Envelope)
    requires PlainAddress(e.from) && PlainAddress(e.to)
    ensures EnvelopeXml(e) == Concat(QuotedAttr, EnvelopeAttrs(e))
  {
    var a := OptAttr("from", JidText(e.from));
    var b := OptAttr("to", JidText(e.to));
    var c := OptAttr("id", e.id);
    var d := OptAttr("type", e.stanzaType);
    if e.from.Some? { EscapedIdentity(ToEscapedString(e.from.value)); }
    if e.to.Some? { EscapedIdentity(ToEscapedString(e.to.value)); }
    ConcatAppend(QuotedAttr, a + b + c, d);
    ConcatAppend(QuotedAttr, a + b, c);
    ConcatAppend(QuotedAttr, a, b);
    QuotedOptAttr("from", JidText(e.from));
    QuotedOptAttr("to", JidText(e.to));
    QuotedOptAttr("id", e.id);
    QuotedOptAttr("type", e.stanzaType);
    assert EscapedAttrXml("from", JidText(e.from)) == RawAttrXml("from", JidText(e.from));
    assert EscapedAttrXml("to", JidText(e.to)) == RawAttrXml("to", JidText(e.to));
  }

  lemma LookupOf4(a: seq<Attr>, b: seq<Attr>, c: seq<Attr>, d: seq<Attr>, key: string)
    ensures Lookup(a + b + c + d, key) ==
      if Lookup(a, key).Some? then Lookup(a, key)
      else if Lookup(b, key).Some? then Lookup(b, key)
      else if Lookup(c, key).Some? then Lookup(c, key)
      else Lookup(d, key)
  {
    LookupAppend(a + b + c, d, key);
    LookupAppend(a + b, c, key);
    LookupAppend(a, b, key);
  }

  /** The value `Lookup` finds for `key` in the attributes of `e`. */
  lemma LookupEnvelope(e: Envelope, key: string)
    ensures Lookup(EnvelopeAttrs(e), key) ==
      if key == "from" then JidText(e.from)
      else if key == "to" then JidText(e.to)
      else if key == "id" then e.id
      else if key == "type" then e.stanzaType
      else None
  {
    LookupOf4(OptAttr("from", JidText(e.from)), OptAttr("to", JidText(e.to)),
              OptAttr("id", e.id), OptAttr("type", e.stanzaType), key);
    LookupOptAttr("from", JidText(e.from), key);
    LookupOptAttr("to", JidText(e.to), key);
    LookupOptAttr("id", e.id, key);
    LookupOptAttr("type", e.stanzaType, key);
  }

  /** An attribute value, when present, that a reader reports unchanged. */
  predicate OptAttrText(v: Option<string>)
  {
    v.Some? ==> AttrText(v.value)
  }

  /** An envelope whose written attributes read back as `EnvelopeAttrs(e)`:
      addresses that need no escaping, since from and to are written
      verbatim, and no value that attribute-value normalization alters. */
  predicate PlainEnvelope(e: Envelope)
  {
    PlainAddress(e.from) && PlainAddress(e.to) &&
    OptAttrText(JidText(e.from)) && OptAttrText(JidText(e.to)) &&
    OptAttrText(e.id) && OptAttrText(e.stanzaType)
  }

  /** Reading back what `toString` writes restores id and type, and from and
      to when they were set; an unset one keeps the reader's prior value.
      The text written is the quoted form of exactly these attributes. */
  lemma ReadWrittenEnvelope(e: Envelope, base: Envelope)
    requires e.from.Some? ==> WellFormed(e.from.value)
    requires e.to.Some? ==> WellFormed(e.to.value)
    requires PlainEnvelope(e)
    ensures EnvelopeXml(e) == Concat(QuotedAttr, EnvelopeAttrs(e))
    ensures ReadEnvelope(EnvelopeAttrs(e), base) ==
      e.(from := if e.from.Some? then e.from else base.from,
         to := if e.to.Some? then e.to else base.to)
  {
    EnvelopeXmlIsAttrs(e);
    LookupEnvelope(e, "from");
    LookupEnvelope(e, "to");
    LookupEnvelope(e, "id");
    LookupEnvelope(e, "type");
    if e.from.Some? { OfToEscapedString(e.from.value); }
    if e.to.Some? { OfToEscapedString(e.to.value); }
  }

  /** The envelope `parse` of an iq or a presence starts from: no addresses (id and type are
      always overwritten). */
  const Blank: Envelope := Envelope(None, None, None, None)

  /** The loop of `toString` over the children, in order. */
  method WriteChildren(childs: seq<Extension>) returns (s: string)
    ensures s == Concat(ToXml, childs)
  {
    s := "";
    for k := 0 to |childs|
      invariant s == Concat(ToXml, childs[..k])
    {
      ConcatStep(ToXml, childs, k);
      s := s + ToXml(childs[k]);
    }
    assert childs[..|childs|] == childs;
  }

  class Stanza {
    var from: Option<Jid>
    var to: Option<Jid>
    var id: Option<string>
    var stanzaType: Option<string>
    var childs: seq<Extension>

    /** A new stanza: no addresses, no type, no children, and an id made from
        the clock (`defaultId`). */
    constructor (defaultId: string)
      ensures Env() == Envelope(None, None, Some(defaultId), None) && childs == []
    {
      from := None;
      to := None;
      id := Some(defaultId);
      stanzaType := None;
      childs := [];
    }

    function Env(): Envelope
      reads this
    {
      Envelope(from, to, id, stanzaType)
    }

    /** `addChild(child)`: appends, earlier children untouched. */
    method AddChild(c: Extension)
      modifies this`childs
      ensures childs == old(childs) + [c]
      ensures |childs| == |old(childs)| + 1 && childs[..|old(childs)|] == old(childs)
    {
      childs := childs + [c];
    }

    /** `hasChilds()`. */
    function HasChilds(): (r: bool)
      reads this
      ensures r <==> |childs| > 0
    {
      childs != []
    }

    /** `getChild(XMLNS)`: the first child, in insertion order, of that
        namespace, or null. */
    method GetChild(xmlns: string) returns (r: Option<Extension>)
      ensures r.None? <==> forall k :: 0 <= k < |childs| ==> XmlnsOf(childs[k]) != xmlns
      ensures r.Some? ==> exists k :: 0 <= k < |childs| && childs[k] == r.value && XmlnsOf(r.value) == xmlns &&
                                      forall j :: 0 <= j < k ==> XmlnsOf(childs[j]) != xmlns
    {
      for k := 0 to |childs|
        invariant forall j :: 0 <= j < k ==> XmlnsOf(childs[j]) != xmlns
      {
        if XmlnsOf(childs[k]) == xmlns {
          return Some(childs[k]);
        }
      }
      return None;
    }

    /** `parseStanza(parser)`, on the stanza's start tag. */
    method ParseStanza(p: Parser)
      requires p.Valid() && p.Current().StartTag?
      modifies this`from, this`to, this`id, this`stanzaType
      ensures Env() == ReadEnvelope(p.Current().attrs, old(Env()))
    {
      var fromStr := AttrOf(p.Current(), "from");
      if fromStr.Some? {
        from := Some(Of(fromStr.value));
      }
      var toStr := AttrOf(p.Current(), "to");
      if toStr.Some? {
        to := Some(Of(toStr.value));
      }
      id := AttrOf(p.Current(), "id");
      stanzaType := AttrOf(p.Current(), "type");
    }

    /** `toString()`: the attribute text. */
    function ToXml(): string
      reads this
    {
      EnvelopeXml(Env())
    }
  }
}
