/** Stanza children (`StanzaChild`): the extension elements a stanza carries,
    and the table of child parsers, keyed by namespace, that stanza parsing
    consults for each child element it meets. */
module StanzaChildren {
  import opened Wrappers
  import opened XmlPull
  import opened XmlUtils
  import opened Addresses
  import JuickUsers
  import DiscoInfos

  /** The namespace of resource binding (section 7 of RFC 6120). */
  const BindXmlns: string := "urn:ietf:params:xml:ns:xmpp-bind"

  /** A child element, held by value. */
  datatype Extension =
    | User(user: JuickUsers.JuickUser)
    | Disco(identities: seq<DiscoInfos.Identity>, features: seq<Option<string>>)
      /** `ResourceBinding`: the requested resource and the bound address. */
    | Binding(resource: Option<string>, jid: Option<Jid>)
      /** Any other extension, with its namespace and its XML text. */
    | Other(xmlns: string, xml: string)

  /** `getXMLNS()`. */
  function XmlnsOf(c: Extension): string
  {
    match c
    case User(_) => JuickUsers.Xmlns
    case Disco(_, _) => DiscoInfos.Xmlns
    case Binding(_, _) => BindXmlns
    case Other(ns, _) => ns
  }

  /** The `bind` element of section 7 of RFC 6120. */
  function BindingXml(resource: Option<string>, jid: Option<Jid>): string
  {
    "<bind xmlns='" + BindXmlns + "'>"
    + (if resource.Some? then "<resource>" + Escaped(resource.value) + "</resource>" else "")
    + (if jid.Some? then "<jid>" + Escaped(ToEscapedString(jid.value)) + "</jid>" else "")
    + "</bind>"
  }

  /** `toString()`. */
  function ToXml(c: Extension): string
  {
    match c
    case User(u) => JuickUsers.ToXml(u)
    case Disco(ids, feats) => DiscoInfos.QueryXml(ids, feats)
    case Binding(res, jid) => BindingXml(res, jid)
    case Other(_, xml) => xml
  }

  /** The parser objects registered with a stream. */
  datatype ChildParser =
    | JuickUserParser
    | DiscoInfoParser
      /** A parser whose code is not part of this model (resource binding and
          the like). It either declines at once, returning null and leaving the
          cursor on the start tag, or reads its element up to the end tag and
          returns `child`. */
    | ExternalParser(xmlns: string, child: Option<Extension>)

  /** `getXMLNS()` of a parser object. */
  function ParserXmlns(cp: ChildParser): string
  {
    match cp
    case JuickUserParser => JuickUsers.Xmlns
    case DiscoInfoParser => DiscoInfos.Xmlns
    case ExternalParser(ns, _) => ns
  }

  /** An external parser only yields children of its own namespace. */
  predicate ParserValid(cp: ChildParser)
  {
    cp.ExternalParser? && cp.child.Some? ==> XmlnsOf(cp.child.value) == cp.xmlns
  }

  /** Every parser in the table sits under its own namespace, as
      `addChildParser` puts it there. */
  predicate Keyed(table: map<string, ChildParser>)
  {
    forall ns :: ns in table ==> ParserXmlns(table[ns]) == ns && ParserValid(table[ns])
  }

  /** What `parse(parser)` of a parser object returns at a start tag, and
      where it leaves the cursor. */
  function ChildParse(cp: ChildParser, events: seq<Event>, pos: nat): (r: Result<(Option<Extension>, nat)>)
    requires pos < |events| && events[pos].StartTag?
    ensures r.Ok? && r.value.0.Some? ==> pos < r.value.1 < |events|
    ensures r.Ok? && r.value.0.None? ==> r.value.1 == pos
    ensures r.Ok? && r.value.0.Some? && ParserValid(cp) ==> XmlnsOf(r.value.0.value) == ParserXmlns(cp)
  {
    match cp
    case JuickUserParser =>
      (match JuickUsers.ParseUser(events, pos)
       case Err(f) => Err(f)
       case Ok((u, k)) => Ok((Some(User(u)), k)))
    case DiscoInfoParser =>
      (match DiscoInfos.ParseQueryAsWritten(events, pos)
       case Err(f) => Err(f)
       case Ok((ids, feats, k)) => Ok((Some(Disco(ids, feats)), k)))
    case ExternalParser(_, c) =>
      if c.None? then Ok((None, pos))
      else
        match SkipEnd(events, pos)
        case Err(f) => Err(f)
        case Ok(k) => Ok((c, k))
  }

  /** Skipping a child no parser took. */
  function Skipped(events: seq<Event>, pos: nat): (r: Result<(Option<Extension>, nat)>)
    requires pos < |events| && events[pos].StartTag?
    ensures r.Ok? ==> r.value.0.None? && pos < r.value.1 < |events|
  {
    match SkipEnd(events, pos)
    case Err(f) => Err(f)
    case Ok(k) => Ok((None, k))
  }

  /** The child dispatch of `Iq.parse` and `Presence.parse` at a child start
      tag: the parser registered under the element's namespace reads it; when
      there is none (or no table), or it returns null, the element is skipped. */
  function ChildStep(table: Option<map<string, ChildParser>>, events: seq<Event>, pos: nat)
    : (r: Result<(Option<Extension>, nat)>)
    requires pos < |events| && events[pos].StartTag?
    ensures r.Ok? ==> pos < r.value.1 < |events|
  {
    var ns := events[pos].ns;
    if table.Some? && ns in table.value then
      match ChildParse(table.value[ns], events, pos)
      case Err(f) => Err(f)
      case Ok((c, k)) => if c.Some? then Ok((c, k)) else Skipped(events, pos)
    else Skipped(events, pos)
  }

  /** A child comes only from the parser registered under the element's own
      namespace, and so carries that namespace; with no table nothing is read. */
  lemma ChildStepNamespace(table: Option<map<string, ChildParser>>, events: seq<Event>, pos: nat)
    requires pos < |events| && events[pos].StartTag?
    requires table.Some? ==> Keyed(table.value)
    ensures var r := ChildStep(table, events, pos);
      r.Ok? && r.value.0.Some? ==>
        table.Some? && events[pos].ns in table.value && XmlnsOf(r.value.0.value) == events[pos].ns
  {
  }

  /** A null table reads no child, exactly as an empty one. */
  lemma ChildStepNoTable(events: seq<Event>, pos: nat)
    requires pos < |events| && events[pos].StartTag?
    ensures ChildStep(None, events, pos) == ChildStep(Some(map[]), events, pos)
    ensures ChildStep(None, events, pos) == Skipped(events, pos)
  {
  }

  /** `childparser.parse(parser)`. */
  method ParseWith(cp: ChildParser, p: Parser) returns (r: Result<Option<Extension>>)
    requires p.Valid() && p.Current().StartTag?
    modifies p
    ensures p.Valid() && p.events == old(p.events)
    ensures ChildParse(cp, p.events, old(p.pos)) == if r.Ok? then Ok((r.value, p.pos)) else Err(r.failure)
  {
    match cp
    case JuickUserParser =>
      var u := JuickUsers.Parse(p);
      if u.Err? {
        return Err(u.failure);
      }
      return Ok(Some(User(u.value)));
    case DiscoInfoParser =>
      var d := DiscoInfos.ParseAsWritten(p);
      if d.Err? {
        return Err(d.failure);
      }
      return Ok(Some(Disco(d.value.identities, d.value.features)));
    case ExternalParser(_, c) =>
      if c.None? {
        return Ok(None);
      }
      var s := Skip(p);
      if s.Fail? {
        return Err(s.failure);
      }
      return Ok(c);
  }

  /** The child dispatch block of `Iq.parse` and `Presence.parse`. */
  method ParseChild(table: Option<map<string, ChildParser>>, p: Parser) returns (r: Result<Option<Extension>>)
    requires p.Valid() && p.Current().StartTag?
    modifies p
    ensures p.Valid() && p.events == old(p.events)
    ensures ChildStep(table, p.events, old(p.pos)) == if r.Ok? then Ok((r.value, p.pos)) else Err(r.failure)
  {
    var ns := p.Current().ns;
    if table.Some? && ns in table.value {
      var c := ParseWith(table.value[ns], p);
      if c.Err? {
        return Err(c.failure);
      }
      if c.value.Some? {
        return c;
      }
    }
    var s := Skip(p);
    if s.Fail? {
      return Err(s.failure);
    }
    return Ok(None);
  }
}
