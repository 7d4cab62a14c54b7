/** The `iq` stanza: a request or response carrying at most one child. */
module Iqs {
  import opened Wrappers
  import opened Text
  import opened XmlPull
  import opened XmlUtils
  import opened Addresses
  import opened StanzaChildren
  import opened Stanzas
  import JuickUsers
  import DiscoInfos

  const TagName: string := "iq"
  const TypeGet: string := "get"
  const TypeSet: string := "set"
  const TypeResult: string := "result"
  const TypeError: string := "error"

  /** The error block `toString` adds to an iq of type error. */
  const ErrorBlock: string :=
    "<error type='cancel'><service-unavailable xmlns='urn:ietf:params:xml:ns:xmpp-stanzas' /></error>"

  const Closing: string := "</" + TagName + ">"

  /** The error block for an iq of type `t`, if any. */
  function ErrorPart(t: string): string
  {
    if t == TypeError then ErrorBlock else ""
  }

  /** The start tag `toString` writes. */
  function IqOpening(env: Envelope): string
  {
    "<" + TagName + EnvelopeXml(env) + ">"
  }

  /** What `toString` writes; comparing a null type with "error" throws. */
  function IqXml(env: Envelope, childs: seq<Extension>): (r: Result<string>)
    ensures r.Err? <==> env.stanzaType.None?
    ensures r.Ok? ==> IsPrefix(IqOpening(env), r.value) && EndsWith(r.value, Closing)
  {
    if env.stanzaType.None? then Err(NullReference)
    else
      var head := IqOpening(env);
      var body := Concat(ToXml, childs) + ErrorPart(env.stanzaType.value);
      Framed(head, body, Closing);
      Ok(head + body + Closing)
  }

  /** The envelope of `reply()` and `error()`: addresses swapped, the id
      kept, the given type. */
  function ReplyEnvelope(e: Envelope, t: string): (r: Envelope)
    ensures r.from == e.to && r.to == e.from && r.id == e.id && r.stanzaType == Some(t)
  {
    Envelope(e.to, e.from, e.id, Some(t))
  }

  /** Answering an answer addresses the original sender again. */
  lemma ReplyOfReply(e: Envelope, t: string, t': string)
    ensures ReplyEnvelope(ReplyEnvelope(e, t), t') == e.(stanzaType := Some(t'))
  {
  }

  /** The text of a reply or error without children: it always has a type,
      so writing it never fails, and only an error carries the error block. */
  lemma ReplyXml(e: Envelope, t: string)
    ensures IqXml(ReplyEnvelope(e, t), []).Ok?
    ensures IqXml(ReplyEnvelope(e, t), []).value ==
      IqOpening(ReplyEnvelope(e, t)) + ErrorPart(t) + Closing
  {
    assert Concat(ToXml, []) + ErrorPart(t) == ErrorPart(t);
  }

  class Iq {
    const stanza: Stanza

    /** An iq holds at most one child. */
    ghost predicate Valid()
      reads this, stanza
    {
      |stanza.childs| <= 1
    }

    constructor (defaultId: string)
      ensures Valid() && fresh(stanza)
      ensures stanza.Env() == Envelope(None, None, Some(defaultId), None) && stanza.childs == []
    {
      stanza := new Stanza(defaultId);
    }

    /** `addChild(child)`: the new child replaces any earlier one. */
    method AddChild(c: Extension)
      modifies stanza`childs
      ensures Valid() && stanza.childs == [c]
      ensures GetChild() == Some(c)
    {
      stanza.childs := [c];
    }

    /** `getChild()`: the child, or null when there is none. */
    function GetChild(): (r: Option<Extension>)
      reads this, stanza
      ensures r.None? <==> stanza.childs == []
      ensures r.Some? ==> r.value in stanza.childs
      ensures Valid() && r.Some? ==> stanza.childs == [r.value]
    {
      if stanza.childs == [] then None else Some(stanza.childs[0])
    }

    /** `reply()`: an empty result addressed back to the sender. */
    method Reply(defaultId: string) returns (r: Iq)
      ensures fresh(r) && fresh(r.stanza) && r.Valid()
      ensures r.stanza.Env() == ReplyEnvelope(stanza.Env(), TypeResult) && r.stanza.childs == []
    {
      r := new Iq(defaultId);
      r.stanza.from := stanza.to;
      r.stanza.to := stanza.from;
      r.stanza.id := stanza.id;
      r.stanza.stanzaType := Some(TypeResult);
    }

    /** `error()`: an empty error addressed back to the sender. */
    method Error(defaultId: string) returns (r: Iq)
      ensures fresh(r) && fresh(r.stanza) && r.Valid()
      ensures r.stanza.Env() == ReplyEnvelope(stanza.Env(), TypeError) && r.stanza.childs == []
    {
      r := new Iq(defaultId);
      r.stanza.from := stanza.to;
      r.stanza.to := stanza.from;
      r.stanza.id := stanza.id;
      r.stanza.stanzaType := Some(TypeError);
    }

    /** `toString()`. */
    method ToString() returns (r: Result<string>)
      ensures r == IqXml(stanza.Env(), stanza.childs)
    {
      var body := WriteChildren(stanza.childs);
      if stanza.stanzaType.None? {
        return Err(NullReference);
      }
      body := body + ErrorPart(stanza.stanzaType.value);
      var s := IqOpening(stanza.Env()) + body + Closing;
      return Ok(s);
    }
  }

  // ---------------------------------------------------------------------
  // parse
  // ---------------------------------------------------------------------

  /** The loop of `parse` from position `i` inside the element `tag`: up to
      the matching end tag, each child start tag goes through the child
      dispatch, and a child read replaces the one held so far. */
  function IqBody(events: seq<Event>, tag: string, table: Option<map<string, ChildParser>>, i: nat, childs: seq<Extension>)
    : (r: Result<(seq<Extension>, nat)>)
    requires i < |events|
    ensures r.Ok? ==> i < r.value.1 < |events| && events[r.value.1] == EndTag(tag)
    ensures r.Ok? && |childs| <= 1 ==> |r.value.0| <= 1
    decreases |events| - i
  {
    match Step(events, i)
    case Err(f) => Err(f)
    case Ok(j) =>
      if events[j] == EndTag(tag) then Ok((childs, j))
      else if events[j].StartTag? then
        match ChildStep(table, events, j)
        case Err(f) => Err(f)
        case Ok((c, k)) => IqBody(events, tag, table, k, if c.Some? then [c.value] else childs)
      else IqBody(events, tag, table, j, childs)
  }

  /** One turn of the loop of `parse` at a child, which yields `c` and ends
      at `k`, or whose reading fails with `c`: a child read replaces the
      one held. */
  lemma BodyAtChild(events: seq<Event>, tag: string, table: Option<map<string, ChildParser>>, i: nat,
                    childs: seq<Extension>, c: Result<Option<Extension>>, k: nat, ys: seq<Extension>)
    requires i < |events| && Step(events, i) == Ok(i + 1) && events[i + 1].StartTag?
    requires ChildStep(table, events, i + 1) == if c.Ok? then Ok((c.value, k)) else Err(c.failure)
    requires c.Ok? ==> ys == if c.value.Some? then [c.value.value] else childs
    ensures c.Ok? ==> k < |events|
    ensures IqBody(events, tag, table, i, childs) == if c.Ok? then IqBody(events, tag, table, k, ys) else Err(c.failure)
  {
  }

  /** What `parse(parser, childParsers)` returns at an `iq` start tag: the
      envelope, the child, and the position of the end tag. */
  function IqParse(events: seq<Event>, pos: nat, table: Option<map<string, ChildParser>>)
    : (r: Result<(Envelope, seq<Extension>, nat)>)
    requires pos < |events| && events[pos].StartTag?
    ensures r.Ok? ==> r.value.0 == ReadEnvelope(events[pos].attrs, Blank)
    ensures r.Ok? ==> |r.value.1| <= 1 && pos < r.value.2 < |events| && events[r.value.2] == EndTag(events[pos].name)
  {
    match IqBody(events, events[pos].name, table, pos, [])
    case Err(f) => Err(f)
    case Ok((cs, k)) => Ok((ReadEnvelope(events[pos].attrs, Blank), cs, k))
  }

  /** `parse(parser, childParsers)`, called on the `iq` start tag. */
  method Parse(p: Parser, table: Option<map<string, ChildParser>>, defaultId: string) returns (r: Result<Iq>)
    requires p.Valid() && p.Current().StartTag?
    modifies p
    ensures p.Valid() && p.events == old(p.events)
    ensures r.Ok? ==> fresh(r.value) && fresh(r.value.stanza) && r.value.Valid()
    ensures IqParse(p.events, old(p.pos), table) ==
            if r.Ok? then Ok((r.value.stanza.Env(), r.value.stanza.childs, p.pos)) else Err(r.failure)
  {
    var iq := new Iq(defaultId);
    iq.stanza.ParseStanza(p);
    var tag := p.Current().name;
    var b := ReadBody(iq, p, table, tag);
    if b.Fail? {
      return Err(b.failure);
    }
    return Ok(iq);
  }

  /** The loop of `parse`, up to the end tag of the element `tag`: each
      child read replaces the one held. */
  method ReadBody(iq: Iq, p: Parser, table: Option<map<string, ChildParser>>, tag: string) returns (r: Outcome)
    requires p.Valid() && iq.Valid()
    modifies p, iq.stanza`childs
    ensures p.Valid() && p.events == old(p.events) && iq.Valid()
    ensures IqBody(p.events, tag, table, old(p.pos), old(iq.stanza.childs)) ==
            if r.Pass? then Ok((iq.stanza.childs, p.pos)) else Err(r.failure)
  {
    while true
      invariant p.Valid() && p.events == old(p.events) && old(p.pos) <= p.pos
      invariant iq.Valid()
      invariant IqBody(p.events, tag, table, p.pos, iq.stanza.childs) == IqBody(p.events, tag, table, old(p.pos), old(iq.stanza.childs))
      decreases |p.events| - p.pos
    {
      ghost var i := p.pos;
      ghost var cs := iq.stanza.childs;
      var n := p.Next();
      if n.Err? {
        assert IqBody(p.events, tag, table, i, cs) == Err(n.failure);
        return Fail(n.failure);
      }
      ghost var j := p.pos;
      if p.Current() == EndTag(tag) {
        assert IqBody(p.events, tag, table, i, cs) == Ok((cs, j));
        return Pass;
      }
      if p.Current().StartTag? {
        var c := ParseChild(table, p);
        ghost var ys := if c.Ok? && c.value.Some? then [c.value.value] else cs;
        BodyAtChild(p.events, tag, table, i, cs, c, p.pos, ys);
        if c.Err? {
          return Fail(c.failure);
        }
        if c.value.Some? {
          iq.AddChild(c.value.value);
        }
      } else {
        assert IqBody(p.events, tag, table, i, cs) == IqBody(p.events, tag, table, j, cs);
      }
    }
  }

  // ---------------------------------------------------------------------
  // Reading back what is written
  // ---------------------------------------------------------------------

  /** The start tag a reader reports for an iq written with envelope `e`. */
  function IqStart(e: Envelope, ns: string, bindings: seq<Attr>): Event
  {
    StartTag(TagName, ns, EnvelopeAttrs(e), bindings)
  }

  /** The start tag whose reading is `IqStart(e, ns, bindings)`: the
      envelope's attributes in single quotes, escaped. */
  function QuotedOpening(e: Envelope): string
  {
    "<" + TagName + Concat(QuotedAttr, EnvelopeAttrs(e)) + ">"
  }

  /** For a plain envelope the start tag `toString` writes is the quoted one. */
  lemma OpeningIsQuoted(e: Envelope)
    requires e.from.Some? ==> WellFormed(e.from.value)
    requires e.to.Some? ==> WellFormed(e.to.value)
    requires PlainEnvelope(e)
    ensures IqOpening(e) == QuotedOpening(e)
    ensures ReadEnvelope(EnvelopeAttrs(e), Blank) == e
  {
    ReadWrittenEnvelope(e, Blank);
  }

  /** For a plain envelope with a type, `toString` writes the quoted start
      tag, the children, the error block for type error, and `</iq>`. */
  lemma IqXmlQuoted(e: Envelope, childs: seq<Extension>)
    requires e.from.Some? ==> WellFormed(e.from.value)
    requires e.to.Some? ==> WellFormed(e.to.value)
    requires PlainEnvelope(e) && e.stanzaType.Some?
    ensures IqXml(e, childs) == Ok(QuotedOpening(e) + (Concat(ToXml, childs) + ErrorPart(e.stanzaType.value)) + Closing)
  {
    OpeningIsQuoted(e);
  }

  /** The text of an iq with at most one child, part by part. */
  lemma IqXmlParts(e: Envelope, childs: seq<Extension>, body: string, tail: string)
    requires e.from.Some? ==> WellFormed(e.from.value)
    requires e.to.Some? ==> WellFormed(e.to.value)
    requires PlainEnvelope(e) && e.stanzaType.Some?
    requires Concat(ToXml, childs) == body && ErrorPart(e.stanzaType.value) == tail
    ensures IqXml(e, childs) == Ok(QuotedOpening(e) + (body + tail) + Closing)
  {
    IqXmlQuoted(e, childs);
  }

  /** An empty iq that is not of type error is written as its start tag
      and `</iq>`, and reads back as the envelope it was written with. */
  lemma ParseEmptyWritten(e: Envelope, ns: string, bindings: seq<Attr>,
                          table: Option<map<string, ChildParser>>, events: seq<Event>, pos: nat)
    requires e.from.Some? ==> WellFormed(e.from.value)
    requires e.to.Some? ==> WellFormed(e.to.value)
    requires PlainEnvelope(e)
    requires Occurs(events, pos, [IqStart(e, ns, bindings), EndTag(TagName)])
    ensures e.stanzaType.Some? && e.stanzaType.value != TypeError ==> IqXml(e, []) == Ok(QuotedOpening(e) + Closing)
    ensures events[pos] == IqStart(e, ns, bindings)
    ensures IqParse(events, pos, table) == Ok((e, [], pos + 1))
  {
    if e.stanzaType.Some? && e.stanzaType.value != TypeError {
      EmptyIqText(e);
    }
    EmptyIqRead(e, ns, bindings, table, events, pos);
  }

  lemma EmptyIqText(e: Envelope)
    requires e.from.Some? ==> WellFormed(e.from.value)
    requires e.to.Some? ==> WellFormed(e.to.value)
    requires PlainEnvelope(e) && e.stanzaType.Some? && e.stanzaType.value != TypeError
    ensures IqXml(e, []) == Ok(QuotedOpening(e) + Closing)
  {
    IqXmlParts(e, [], "", "");
    assert "" + "" == "";
    AppendEmpty(QuotedOpening(e));
  }

  lemma EmptyIqRead(e: Envelope, ns: string, bindings: seq<Attr>,
                    table: Option<map<string, ChildParser>>, events: seq<Event>, pos: nat)
    requires e.from.Some? ==> WellFormed(e.from.value)
    requires e.to.Some? ==> WellFormed(e.to.value)
    requires PlainEnvelope(e)
    requires Occurs(events, pos, [IqStart(e, ns, bindings), EndTag(TagName)])
    ensures events[pos] == IqStart(e, ns, bindings)
    ensures IqParse(events, pos, table) == Ok((e, [], pos + 1))
  {
    OccursAt(events, pos, [IqStart(e, ns, bindings), EndTag(TagName)], 0);
    OccursAt(events, pos, [IqStart(e, ns, bindings), EndTag(TagName)], 1);
    OpeningIsQuoted(e);
    assert Step(events, pos) == Ok(pos + 1);
  }

  const StanzasXmlns: string := "urn:ietf:params:xml:ns:xmpp-stanzas"

  /** The events a reader reports for the error block, inside an iq of
      namespace `ns`. */
  function ErrorEvents(ns: string): seq<Event>
  {
    [StartTag("error", ns, [Attr("type", "cancel")], []),
     StartTag("service-unavailable", StanzasXmlns, [], [Attr("", StanzasXmlns)]),
     EndTag("service-unavailable"),
     EndTag("error")]
  }

  /** An empty iq of type error is written with the service-unavailable
      block, which reads back as no child when no parser is registered
      under the iq's namespace: the envelope comes back alone. */
  lemma ParseErrorWritten(e: Envelope, ns: string, bindings: seq<Attr>,
                          table: Option<map<string, ChildParser>>, events: seq<Event>, pos: nat)
    requires e.from.Some? ==> WellFormed(e.from.value)
    requires e.to.Some? ==> WellFormed(e.to.value)
    requires PlainEnvelope(e) && e.stanzaType == Some(TypeError)
    requires table.Some? ==> ns !in table.value
    requires Occurs(events, pos, [IqStart(e, ns, bindings)] + ErrorEvents(ns) + [EndTag(TagName)])
    ensures IqXml(e, []) == Ok(QuotedOpening(e) + ErrorBlock + Closing)
    ensures events[pos] == IqStart(e, ns, bindings)
    ensures IqParse(events, pos, table) == Ok((e, [], pos + 5))
  {
    ErrorIqText(e);
    ErrorIqAt(e, ns, bindings, events, pos);
    ErrorBodySkipped(ns, table, events, pos);
    OpeningIsQuoted(e);
  }

  lemma ErrorIqText(e: Envelope)
    requires e.from.Some? ==> WellFormed(e.from.value)
    requires e.to.Some? ==> WellFormed(e.to.value)
    requires PlainEnvelope(e) && e.stanzaType == Some(TypeError)
    ensures IqXml(e, []) == Ok(QuotedOpening(e) + ErrorBlock + Closing)
  {
    IqXmlParts(e, [], "", ErrorBlock);
    AppendEmpty(ErrorBlock);
  }

  lemma ErrorIqAt(e: Envelope, ns: string, bindings: seq<Attr>, events: seq<Event>, pos: nat)
    requires Occurs(events, pos, [IqStart(e, ns, bindings)] + ErrorEvents(ns) + [EndTag(TagName)])
    ensures pos + 5 < |events| && events[pos] == IqStart(e, ns, bindings)
    ensures events[pos + 1] == StartTag("error", ns, [Attr("type", "cancel")], [])
    ensures events[pos + 2].StartTag? && events[pos + 2].name == "service-unavailable"
    ensures events[pos + 3] == EndTag("service-unavailable") && events[pos + 4] == EndTag("error")
    ensures events[pos + 5] == EndTag(TagName)
  {
    var ws := [IqStart(e, ns, bindings)] + ErrorEvents(ns) + [EndTag(TagName)];
    OccursAt(events, pos, ws, 0);
    OccursAt(events, pos, ws, 1);
    OccursAt(events, pos, ws, 2);
    OccursAt(events, pos, ws, 3);
    OccursAt(events, pos, ws, 4);
    OccursAt(events, pos, ws, 5);
  }

  /** The error block is skipped whole and the iq's end tag ends the loop. */
  lemma ErrorBodySkipped(ns: string, table: Option<map<string, ChildParser>>, events: seq<Event>, pos: nat)
    requires table.Some? ==> ns !in table.value
    requires pos + 5 < |events| && events[pos].StartTag? && events[pos].name == TagName
    requires events[pos + 1] == StartTag("error", ns, [Attr("type", "cancel")], [])
    requires events[pos + 2].StartTag? && events[pos + 2].name == "service-unavailable"
    requires events[pos + 3] == EndTag("service-unavailable") && events[pos + 4] == EndTag("error")
    requires events[pos + 5] == EndTag(TagName)
    ensures IqBody(events, TagName, table, pos, []) == Ok(([], pos + 5))
  {
    assert SkipFrom(events, "error", pos + 3) == Ok(pos + 4);
    assert SkipFrom(events, "error", pos + 2) == Ok(pos + 4);
    assert SkipFrom(events, "error", pos + 1) == Ok(pos + 4);
    assert SkipEnd(events, pos + 1) == Ok(pos + 4);
    assert ChildStep(table, events, pos + 1) == Ok((None, pos + 4));
    assert IqBody(events, TagName, table, pos + 4, []) == Ok(([], pos + 5));
  }

  /** An iq written with a Juick user child is the quoted start tag, the
      user element with its attributes quoted, and `</iq>`; it reads back,
      through a table that holds the user parser, as the same envelope and
      `Normalize(u)`: an unset id and an empty name are lost. */
  lemma ParseUserWritten(e: Envelope, u: JuickUsers.JuickUser, ns: string, bindings: seq<Attr>,
                         table: map<string, ChildParser>, events: seq<Event>, pos: nat)
    requires e.from.Some? ==> WellFormed(e.from.value)
    requires e.to.Some? ==> WellFormed(e.to.value)
    requires PlainEnvelope(e)
    requires InInt32(u.uid) && (u.uname.Some? ==> AttrText(u.uname.value))
    requires JuickUsers.Xmlns in table && table[JuickUsers.Xmlns] == JuickUserParser
    requires Occurs(events, pos, [IqStart(e, ns, bindings)] + JuickUsers.WrittenEvents(u) + [EndTag(TagName)])
    ensures e.stanzaType.Some? && e.stanzaType.value != TypeError ==>
              IqXml(e, [User(u)]) == Ok(QuotedOpening(e) + JuickUsers.ToXml(u) + Closing)
    ensures JuickUsers.ToXml(u) == JuickUsers.Opening + Concat(QuotedAttr, JuickUsers.WrittenAttrs(u)) + "/>"
    ensures forall k :: 0 <= k < |JuickUsers.WrittenAttrs(u)| ==> AttrText(JuickUsers.WrittenAttrs(u)[k].value)
    ensures events[pos] == IqStart(e, ns, bindings)
    ensures IqParse(events, pos, Some(table)) == Ok((e, [User(JuickUsers.Normalize(u))], pos + 3))
  {
    if e.stanzaType.Some? && e.stanzaType.value != TypeError {
      UserIqText(e, u);
    }
    JuickUsers.ToXmlIsQuoted(u);
    UserIqRead(e, u, ns, bindings, table, events, pos);
  }

  lemma UserIqText(e: Envelope, u: JuickUsers.JuickUser)
    requires e.from.Some? ==> WellFormed(e.from.value)
    requires e.to.Some? ==> WellFormed(e.to.value)
    requires PlainEnvelope(e) && e.stanzaType.Some? && e.stanzaType.value != TypeError
    ensures IqXml(e, [User(u)]) == Ok(QuotedOpening(e) + JuickUsers.ToXml(u) + Closing)
  {
    var x := JuickUsers.ToXml(u);
    assert Concat(ToXml, [User(u)]) == x by {
      assert [User(u)][..0] == [];
      AppendEmpty([] + x);
    }
    IqXmlParts(e, [User(u)], x, "");
    AppendEmpty(x);
  }

  lemma UserIqRead(e: Envelope, u: JuickUsers.JuickUser, ns: string, bindings: seq<Attr>,
                   table: map<string, ChildParser>, events: seq<Event>, pos: nat)
    requires e.from.Some? ==> WellFormed(e.from.value)
    requires e.to.Some? ==> WellFormed(e.to.value)
    requires PlainEnvelope(e)
    requires InInt32(u.uid)
    requires JuickUsers.Xmlns in table && table[JuickUsers.Xmlns] == JuickUserParser
    requires Occurs(events, pos, [IqStart(e, ns, bindings)] + JuickUsers.WrittenEvents(u) + [EndTag(TagName)])
    ensures events[pos] == IqStart(e, ns, bindings)
    ensures IqParse(events, pos, Some(table)) == Ok((e, [User(JuickUsers.Normalize(u))], pos + 3))
  {
    var ws := [IqStart(e, ns, bindings)] + JuickUsers.WrittenEvents(u) + [EndTag(TagName)];
    OccursAt(events, pos, ws, 0);
    OccursAt(events, pos, ws, 1);
    OccursAt(events, pos, ws, 2);
    OccursAt(events, pos, ws, 3);
    assert events[pos + 1..pos + 3] == JuickUsers.WrittenEvents(u);
    JuickUsers.ParseWritten(u, events, pos + 1);
    OpeningIsQuoted(e);
    assert Step(events, pos) == Ok(pos + 1);
    assert events[pos + 1].ns == JuickUsers.Xmlns;
    assert ChildParse(JuickUserParser, events, pos + 1) == Ok((Some(User(JuickUsers.Normalize(u))), pos + 2));
    assert ChildStep(Some(table), events, pos + 1) == Ok((Some(User(JuickUsers.Normalize(u))), pos + 2));
    assert Step(events, pos + 2) == Ok(pos + 3);
    assert IqBody(events, TagName, Some(table), pos + 2, [User(JuickUsers.Normalize(u))]) == Ok(([User(JuickUsers.Normalize(u))], pos + 3));
  }

  /** An iq result carrying a disco#info query with one identity and one
      feature, as a reader reports it. */
  const DiscoResult: seq<Event> := [
    StartTag(TagName, "jabber:client", [Attr("type", "result")], []),
    DiscoInfos.QueryStart,
    StartTag("identity", DiscoInfos.Xmlns, [Attr("category", "client"), Attr("type", "pc")], []),
    EndTag("identity"),
    StartTag("feature", DiscoInfos.Xmlns, [Attr("var", "a")], []),
    EndTag("feature"),
    EndTag(DiscoInfos.TagName),
    EndTag(TagName)]

  /** With a disco#info parser registered, `parse` as written ends up holding
      an empty DiscoInfo: the parser stops on the end tag of the identity, the
      `feature` element after it is handed to the parser again, which reads
      nothing, and `addChild` replaces the first child with the second. The
      corrected query parse reads both. */
  lemma DiscoResultAsWritten()
    ensures IqParse(DiscoResult, 0, Some(map[DiscoInfos.Xmlns := DiscoInfoParser])) ==
            Ok((ReadEnvelope(DiscoResult[0].attrs, Blank), [Disco([], [])], 7))
    ensures DiscoInfos.ParseQuery(DiscoResult, 1) ==
            Ok(([DiscoInfos.Client], [Some("a")], 6))
  {
    var ev := DiscoResult;
    var t := Some(map[DiscoInfos.Xmlns := DiscoInfoParser]);
    var client := DiscoInfos.IdentityOf(ev[2]);
    assert client == DiscoInfos.Client;
    assert DiscoInfos.LoopAsWritten(ev, 2, [client], []) == Ok(([client], [], 3));
    assert [] + [client] == [client];
    assert DiscoInfos.LoopAsWritten(ev, 1, [], []) == Ok(([client], [], 3));
    assert ChildStep(t, ev, 1) == Ok((Some(Disco([client], [])), 3));
    assert DiscoInfos.LoopAsWritten(ev, 4, [], []) == Ok(([], [], 5));
    assert ChildStep(t, ev, 4) == Ok((Some(Disco([], [])), 5));
    assert IqBody(ev, TagName, t, 6, [Disco([], [])]) == Ok(([Disco([], [])], 7));
    assert IqBody(ev, TagName, t, 5, [Disco([], [])]) == Ok(([Disco([], [])], 7));
    assert IqBody(ev, TagName, t, 3, [Disco([client], [])]) == Ok(([Disco([], [])], 7));
    assert IqBody(ev, TagName, t, 0, []) == Ok(([Disco([], [])], 7));
    assert SkipEnd(ev, 2) == Ok(3);
    assert SkipEnd(ev, 4) == Ok(5);
    assert [] + [Some("a")] == [Some("a")];
    assert DiscoInfos.QueryBody(ev, DiscoInfos.TagName, 5, [client], [Some("a")]) == Ok(([client], [Some("a")], 6));
    assert DiscoInfos.QueryBody(ev, DiscoInfos.TagName, 3, [client], []) == Ok(([client], [Some("a")], 6));
    assert DiscoInfos.QueryBody(ev, DiscoInfos.TagName, 1, [], []) == Ok(([client], [Some("a")], 6));
  }
}
