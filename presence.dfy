/** The `presence` stanza: availability (show, priority, status) and
    extension children. */
module Presences {
  import opened Wrappers
  import opened Text
  import opened XmlPull
  import opened XmlUtils
  import opened Addresses
  import opened StanzaChildren
  import opened Stanzas

  const TagName: string := "presence"
  const Closing: string := "</" + TagName + ">"

  const ShowTag: string := "show"
  const PriorityTag: string := "priority"
  const StatusTag: string := "status"

  /** The priority a presence has until one is read: outside the range
      section 2.2.2.3 of RFC 3921 allows, so it is never written. */
  const UnsetPriority: Int32 := -255

  /** What a presence carries besides its envelope. */
  datatype PresenceInfo = PresenceInfo(priority: Int32, show: Option<string>, status: Option<string>, childs: seq<Extension>)

  const Initial: PresenceInfo := PresenceInfo(UnsetPriority, None, None, [])

  /** A priority `toString` writes: within -128..127. */
  predicate Writable(priority: int)
  {
    -128 <= priority <= 127
  }

  // ---------------------------------------------------------------------
  // toString
  // ---------------------------------------------------------------------

  function PresenceOpening(env: Envelope): string
  {
    "<" + TagName + EnvelopeXml(env) + ">"
  }

  /** A text element as `toString` writes it (through `escapeXml10`), or
      nothing when the value is null. */
  function TextXml(name: string, v: Option<string>): string
  {
    if v.Some? then "<" + name + ">" + EscapedXml10(v.value) + "</" + name + ">" else ""
  }

  function PriorityXml(priority: Int32): string
  {
    if Writable(priority) then "<priority>" + IntToString(priority) + "</priority>" else ""
  }

  /** The content `toString` writes between the tags: show, priority,
      status, then the children in order. */
  function PresenceContent(x: PresenceInfo): string
  {
    TextXml(ShowTag, x.show) + PriorityXml(x.priority) + TextXml(StatusTag, x.status) + Concat(ToXml, x.childs)
  }

  /** What `toString` writes. */
  function PresenceXml(env: Envelope, x: PresenceInfo): (r: string)
    ensures IsPrefix(PresenceOpening(env), r) && EndsWith(r, Closing)
  {
    Framed(PresenceOpening(env), PresenceContent(x), Closing);
    PresenceOpening(env) + PresenceContent(x) + Closing
  }

  // ---------------------------------------------------------------------
  // parse
  // ---------------------------------------------------------------------

  /** The child elements `parse` reads as text, whatever their namespace. */
  predicate IsTextChild(name: string)
  {
    name == StatusTag || name == ShowTag || name == PriorityTag
  }

  /** The effect of a text child: status and show take its text; priority
      takes it only when it is non-empty and a valid int, and is otherwise
      left as it was (the NumberFormatException is swallowed). */
  function Absorb(x: PresenceInfo, name: string, text: string): (r: PresenceInfo)
    requires IsTextChild(name)
    ensures r.childs == x.childs
    ensures name == PriorityTag ==>
              (r.show == x.show && r.status == x.status &&
               (r.priority == x.priority || (|text| > 0 && ParseInt(text) == Some(r.priority))))
  {
    if name == StatusTag then x.(status := Some(text))
    else if name == ShowTag then x.(show := Some(text))
    else if |text| > 0 && ParseInt(text).Some? then x.(priority := ParseInt(text).value)
    else x
  }

  /** The loop of `parse` from position `i` inside the element `tag`: one
      `next()`, then the end of the element or one turn. */
  function PresenceBody(events: seq<Event>, tag: string, table: Option<map<string, ChildParser>>, i: nat, x: PresenceInfo)
    : (r: Result<(PresenceInfo, nat)>)
    requires i < |events|
    ensures r.Ok? ==> i < r.value.1 < |events| && events[r.value.1] == EndTag(tag)
    decreases |events| - i, 1
  {
    match Step(events, i)
    case Err(f) => Err(f)
    case Ok(j) =>
      if events[j] == EndTag(tag) then Ok((x, j))
      else PresenceTurn(events, tag, table, j, x)
  }

  /** One turn of the loop at the event `j`, which is not the closing tag:
      a text child, another child, or anything else (passed over). */
  function PresenceTurn(events: seq<Event>, tag: string, table: Option<map<string, ChildParser>>, j: nat, x: PresenceInfo)
    : (r: Result<(PresenceInfo, nat)>)
    requires j < |events|
    ensures r.Ok? ==> j < r.value.1 < |events| && events[r.value.1] == EndTag(tag)
    decreases |events| - j, 2
  {
    var e := events[j];
    if e.StartTag? && IsTextChild(e.name) then
      match TagText(events, j)
      case Err(f) => Err(f)
      case Ok((t, k)) => PresenceBody(events, tag, table, k, Absorb(x, e.name, t))
    else if e.StartTag? then
      match ChildStep(table, events, j)
      case Err(f) => Err(f)
      case Ok((c, k)) =>
        var x' := if c.Some? then x.(childs := x.childs + [c.value]) else x;
        PresenceBody(events, tag, table, k, x')
    else PresenceBody(events, tag, table, j, x)
  }

  /** One turn of the loop of `parse` at a text child, whose text and end
      are `t` and `k`, or whose reading fails with `t`. */
  lemma BodyAtText(events: seq<Event>, tag: string, table: Option<map<string, ChildParser>>, i: nat, x: PresenceInfo,
                   t: Result<string>, k: nat, y: PresenceInfo)
    requires i < |events| && Step(events, i) == Ok(i + 1)
    requires events[i + 1].StartTag? && IsTextChild(events[i + 1].name)
    requires TagText(events, i + 1) == if t.Ok? then Ok((t.value, k)) else Err(t.failure)
    requires t.Ok? ==> y == Absorb(x, events[i + 1].name, t.value)
    ensures t.Ok? ==> k < |events|
    ensures PresenceBody(events, tag, table, i, x) == if t.Ok? then PresenceBody(events, tag, table, k, y) else Err(t.failure)
  {
    assert PresenceBody(events, tag, table, i, x) == PresenceTurn(events, tag, table, i + 1, x);
  }

  /** One turn of the loop of `parse` at any other child, which yields `c`
      and ends at `k`, or whose reading fails with `c`. */
  lemma BodyAtChild(events: seq<Event>, tag: string, table: Option<map<string, ChildParser>>, i: nat, x: PresenceInfo,
                    c: Result<Option<Extension>>, k: nat, y: PresenceInfo)
    requires i < |events| && Step(events, i) == Ok(i + 1)
    requires events[i + 1].StartTag? && !IsTextChild(events[i + 1].name)
    requires ChildStep(table, events, i + 1) == if c.Ok? then Ok((c.value, k)) else Err(c.failure)
    requires c.Ok? ==> y == if c.value.Some? then x.(childs := x.childs + [c.value.value]) else x
    ensures c.Ok? ==> k < |events|
    ensures PresenceBody(events, tag, table, i, x) == if c.Ok? then PresenceBody(events, tag, table, k, y) else Err(c.failure)
  {
    assert PresenceBody(events, tag, table, i, x) == PresenceTurn(events, tag, table, i + 1, x);
  }

  /** One turn of the loop of `parse` at any other event but the closing tag. */
  lemma BodyAtOther(events: seq<Event>, tag: string, table: Option<map<string, ChildParser>>, i: nat, x: PresenceInfo)
    requires i < |events| && Step(events, i) == Ok(i + 1)
    requires !events[i + 1].StartTag? && events[i + 1] != EndTag(tag)
    ensures PresenceBody(events, tag, table, i, x) == PresenceBody(events, tag, table, i + 1, x)
  {
    assert PresenceBody(events, tag, table, i, x) == PresenceTurn(events, tag, table, i + 1, x);
  }

  /** What `parse(parser, childParsers)` returns at a `presence` start tag. */
  function PresenceParse(events: seq<Event>, pos: nat, table: Option<map<string, ChildParser>>)
    : (r: Result<(Envelope, PresenceInfo, nat)>)
    requires pos < |events| && events[pos].StartTag?
    ensures r.Ok? ==> r.value.0 == ReadEnvelope(events[pos].attrs, Blank)
    ensures r.Ok? ==> pos < r.value.2 < |events| && events[r.value.2] == EndTag(events[pos].name)
  {
    match PresenceBody(events, events[pos].name, table, pos, Initial)
    case Err(f) => Err(f)
    case Ok((x, k)) => Ok((ReadEnvelope(events[pos].attrs, Blank), x, k))
  }

  class Presence {
    const stanza: Stanza
    var priority: Int32
    var show: Option<string>
    var status: Option<string>

    constructor (defaultId: string)
      ensures fresh(stanza)
      ensures stanza.Env() == Envelope(None, None, Some(defaultId), None) && Info() == Initial
    {
      stanza := new Stanza(defaultId);
      priority := UnsetPriority;
      show := None;
      status := None;
    }

    function Info(): PresenceInfo
      reads this, stanza
    {
      PresenceInfo(priority, show, status, stanza.childs)
    }

    /** `reply()`: a bare presence addressed back to the sender, with a new
        id and no type. */
    method Reply(defaultId: string) returns (r: Presence)
      ensures fresh(r) && fresh(r.stanza)
      ensures r.stanza.Env() == Envelope(stanza.to, stanza.from, Some(defaultId), None) && r.Info() == Initial
    {
      r := new Presence(defaultId);
      r.stanza.from := stanza.to;
      r.stanza.to := stanza.from;
    }

    /** The handling of a `status`, `show` or `priority` child in `parse`. */
    method ReadTextChild(p: Parser) returns (r: Result<string>)
      requires p.Valid() && p.Current().StartTag? && IsTextChild(p.Current().name)
      modifies p, this`priority, this`show, this`status
      ensures p.Valid() && p.events == old(p.events)
      ensures TagText(p.events, old(p.pos)) == if r.Ok? then Ok((r.value, p.pos)) else Err(r.failure)
      ensures r.Ok? ==> Info() == Absorb(old(Info()), old(p.Current().name), r.value)
    {
      var name := p.Current().name;
      var t := GetTagText(p);
      if t.Err? {
        return t;
      }
      if name == StatusTag {
        status := Some(t.value);
      } else if name == ShowTag {
        show := Some(t.value);
      } else if |t.value| > 0 {
        var v := ParseInt(t.value);
        if v.Some? {
          priority := v.value;
        }
      }
      return t;
    }

    /** The handling of any other child in `parse`: a child read is added. */
    method ReadChild(table: Option<map<string, ChildParser>>, p: Parser) returns (r: Result<Option<Extension>>)
      requires p.Valid() && p.Current().StartTag?
      modifies p, stanza`childs
      ensures p.Valid() && p.events == old(p.events)
      ensures ChildStep(table, p.events, old(p.pos)) == if r.Ok? then Ok((r.value, p.pos)) else Err(r.failure)
      ensures r.Ok? ==> Info() == if r.value.Some? then old(Info()).(childs := old(Info()).childs + [r.value.value]) else old(Info())
    {
      r := ParseChild(table, p);
      if r.Ok? && r.value.Some? {
        stanza.AddChild(r.value.value);
      }
    }

    /** `toString()`. */
    method ToString() returns (s: string)
      ensures s == PresenceXml(stanza.Env(), Info())
    {
      var content := TextXml(ShowTag, show) + PriorityXml(priority) + TextXml(StatusTag, status);
      var children := WriteChildren(stanza.childs);
      content := content + children;
      s := PresenceOpening(stanza.Env()) + content + Closing;
    }
  }

  /** `parse(parser, childParsers)`, called on the `presence` start tag. */
  method Parse(p: Parser, table: Option<map<string, ChildParser>>, defaultId: string) returns (r: Result<Presence>)
    requires p.Valid() && p.Current().StartTag?
    modifies p
    ensures p.Valid() && p.events == old(p.events)
    ensures r.Ok? ==> fresh(r.value) && fresh(r.value.stanza)
    ensures PresenceParse(p.events, old(p.pos), table) ==
            if r.Ok? then Ok((r.value.stanza.Env(), r.value.Info(), p.pos)) else Err(r.failure)
  {
    var pr := new Presence(defaultId);
    pr.stanza.ParseStanza(p);
    var tag := p.Current().name;
    var b := ReadBody(pr, p, table, tag);
    if b.Fail? {
      return Err(b.failure);
    }
    return Ok(pr);
  }

  /** The loop of `parse`, up to the end tag of the element `tag`. */
  method ReadBody(pr: Presence, p: Parser, table: Option<map<string, ChildParser>>, tag: string) returns (r: Outcome)
    requires p.Valid()
    modifies p, pr`priority, pr`show, pr`status, pr.stanza`childs
    ensures p.Valid() && p.events == old(p.events)
    ensures PresenceBody(p.events, tag, table, old(p.pos), old(pr.Info())) ==
            if r.Pass? then Ok((pr.Info(), p.pos)) else Err(r.failure)
  {
    while true
      invariant p.Valid() && p.events == old(p.events) && old(p.pos) <= p.pos
      invariant PresenceBody(p.events, tag, table, p.pos, pr.Info()) == PresenceBody(p.events, tag, table, old(p.pos), old(pr.Info()))
      decreases |p.events| - p.pos
    {
      ghost var i := p.pos;
      ghost var x := pr.Info();
      var n := p.Next();
      if n.Err? {
        assert PresenceBody(p.events, tag, table, i, x) == Err(n.failure);
        return Fail(n.failure);
      }
      ghost var j := p.pos;
      assert pr.Info() == x;
      var e := p.Current();
      if e == EndTag(tag) {
        assert PresenceBody(p.events, tag, table, i, x) == Ok((x, j));
        return Pass;
      }
      if e.StartTag? && IsTextChild(e.name) {
        var t := pr.ReadTextChild(p);
        BodyAtText(p.events, tag, table, i, x, t, p.pos, pr.Info());
        if t.Err? {
          return Fail(t.failure);
        }
      } else if e.StartTag? {
        var c := pr.ReadChild(table, p);
        BodyAtChild(p.events, tag, table, i, x, c, p.pos, pr.Info());
        if c.Err? {
          return Fail(c.failure);
        }
      } else {
        BodyAtOther(p.events, tag, table, i, x);
      }
    }
  }

  // ---------------------------------------------------------------------
  // Reading back what is written
  // ---------------------------------------------------------------------

  /** The events a reader reports for a text element whose (decoded) text
      is `t`: no text event when it is empty. */
  function TextEvents(name: string, ns: string, t: string): seq<Event>
  {
    if t == "" then [StartTag(name, ns, [], []), EndTag(name)]
    else [StartTag(name, ns, [], []), Text(t), EndTag(name)]
  }

  function OptTextEvents(name: string, ns: string, v: Option<string>): seq<Event>
  {
    if v.Some? then TextEvents(name, ns, v.value) else []
  }

  function PriorityEvents(ns: string, priority: Int32): seq<Event>
  {
    if Writable(priority) then [StartTag(PriorityTag, ns, [], []), Text(IntToString(priority)), EndTag(PriorityTag)] else []
  }

  /** What survives writing and reading back: a priority outside the
      writable range reads back as unset. */
  function Reread(x: PresenceInfo): PresenceInfo
  {
    if Writable(x.priority) then x else x.(priority := UnsetPriority)
  }

  /** One text element, met by the loop of `parse`, is absorbed whole. */
  lemma TextElementStep(events: seq<Event>, tag: string, table: Option<map<string, ChildParser>>,
                        i: nat, x: PresenceInfo, name: string, ns: string, t: string)
    requires IsTextChild(name) && name != tag
    requires i < |events| && !events[i].EndDocument?
    requires Occurs(events, i + 1, TextEvents(name, ns, t))
    ensures i + 1 + |TextEvents(name, ns, t)| <= |events|
    ensures !events[i + |TextEvents(name, ns, t)|].EndDocument?
    ensures PresenceBody(events, tag, table, i, x) ==
            PresenceBody(events, tag, table, i + |TextEvents(name, ns, t)|, Absorb(x, name, t))
  {
    var ws := TextEvents(name, ns, t);
    OccursAt(events, i + 1, ws, 0);
    OccursAt(events, i + 1, ws, 1);
    assert Step(events, i) == Ok(i + 1);
    assert Step(events, i + 1) == Ok(i + 2);
    if t == "" {
      assert EndTagFrom(events, Some(name), i + 2) == Ok(i + 2);
      assert TagText(events, i + 1) == Ok(("", i + 2));
      BodyAtText(events, tag, table, i, x, Ok(""), i + 2, Absorb(x, name, t));
    } else {
      OccursAt(events, i + 1, ws, 2);
      assert Step(events, i + 2) == Ok(i + 3);
      assert EndTagFrom(events, Some(name), i + 3) == Ok(i + 3);
      assert EndTagFrom(events, Some(name), i + 2) == Ok(i + 3);
      assert TagText(events, i + 1) == Ok((t, i + 3));
      BodyAtText(events, tag, table, i, x, Ok(t), i + 3, Absorb(x, name, t));
    }
  }

  /** An optional text element: nothing when absent. */
  lemma OptTextStep(events: seq<Event>, tag: string, table: Option<map<string, ChildParser>>,
                    i: nat, x: PresenceInfo, name: string, ns: string, v: Option<string>)
    requires IsTextChild(name) && name != tag
    requires i < |events| && !events[i].EndDocument?
    requires Occurs(events, i + 1, OptTextEvents(name, ns, v))
    ensures i + 1 + |OptTextEvents(name, ns, v)| <= |events|
    ensures !events[i + |OptTextEvents(name, ns, v)|].EndDocument?
    ensures PresenceBody(events, tag, table, i, x) ==
            PresenceBody(events, tag, table, i + |OptTextEvents(name, ns, v)|,
                         if v.Some? then Absorb(x, name, v.value) else x)
  {
    if v.Some? {
      TextElementStep(events, tag, table, i, x, name, ns, v.value);
    }
  }

  /** The priority element: absorbed as the priority it was written from. */
  lemma PriorityStep(events: seq<Event>, tag: string, table: Option<map<string, ChildParser>>,
                     i: nat, x: PresenceInfo, ns: string, priority: Int32)
    requires tag != PriorityTag
    requires i < |events| && !events[i].EndDocument?
    requires Occurs(events, i + 1, PriorityEvents(ns, priority))
    ensures i + 1 + |PriorityEvents(ns, priority)| <= |events|
    ensures !events[i + |PriorityEvents(ns, priority)|].EndDocument?
    ensures PresenceBody(events, tag, table, i, x) ==
            PresenceBody(events, tag, table, i + |PriorityEvents(ns, priority)|,
                         if Writable(priority) then x.(priority := priority) else x)
  {
    if Writable(priority) {
      var t := IntToString(priority);
      ParseIntOfIntToString(priority);
      assert t != "";
      assert TextEvents(PriorityTag, ns, t) == PriorityEvents(ns, priority);
      assert Absorb(x, PriorityTag, t) == x.(priority := priority);
      TextElementStep(events, tag, table, i, x, PriorityTag, ns, t);
    }
  }

  /** The events of the content of a childless presence. */
  function ContentEvents(x: PresenceInfo, ns: string): seq<Event>
  {
    OptTextEvents(ShowTag, ns, x.show) + PriorityEvents(ns, x.priority) + OptTextEvents(StatusTag, ns, x.status)
  }

  /** The loop of `parse` reads the priority and status elements back. */
  lemma TailStep(events: seq<Event>, table: Option<map<string, ChildParser>>, i: nat, x: PresenceInfo, ns: string,
                 y: PresenceInfo)
    requires y.priority == UnsetPriority && y.status == None
    requires i < |events| && !events[i].EndDocument?
    requires Occurs(events, i + 1, PriorityEvents(ns, x.priority))
    requires Occurs(events, i + |PriorityEvents(ns, x.priority)| + 1, OptTextEvents(StatusTag, ns, x.status))
    ensures i + |PriorityEvents(ns, x.priority)| + |OptTextEvents(StatusTag, ns, x.status)| < |events|
    ensures !events[i + |PriorityEvents(ns, x.priority)| + |OptTextEvents(StatusTag, ns, x.status)|].EndDocument?
    ensures PresenceBody(events, TagName, table, i, y) ==
            PresenceBody(events, TagName, table, i + |PriorityEvents(ns, x.priority)| + |OptTextEvents(StatusTag, ns, x.status)|,
                         Reread(x.(show := y.show, childs := y.childs)))
  {
    var y2 := if Writable(x.priority) then y.(priority := x.priority) else y;
    assert (if x.status.Some? then Absorb(y2, StatusTag, x.status.value) else y2) == Reread(x.(show := y.show, childs := y.childs));
    PriorityStep(events, TagName, table, i, y, ns, x.priority);
    OptTextStep(events, TagName, table, i + |PriorityEvents(ns, x.priority)|, y2, StatusTag, ns, x.status);
  }

  /** The loop of `parse` reads a written show element back first. */
  lemma ShowStep(events: seq<Event>, table: Option<map<string, ChildParser>>, i: nat, ns: string, show: Option<string>)
    requires i < |events| && !events[i].EndDocument?
    requires Occurs(events, i + 1, OptTextEvents(ShowTag, ns, show))
    ensures i + 1 + |OptTextEvents(ShowTag, ns, show)| <= |events|
    ensures !events[i + |OptTextEvents(ShowTag, ns, show)|].EndDocument?
    ensures PresenceBody(events, TagName, table, i, Initial) ==
            PresenceBody(events, TagName, table, i + |OptTextEvents(ShowTag, ns, show)|, Initial.(show := show))
  {
    OptTextStep(events, TagName, table, i, Initial, ShowTag, ns, show);
    assert (if show.Some? then Absorb(Initial, ShowTag, show.value) else Initial) == Initial.(show := show);
  }

  /** The loop of `parse` reads the content back whole. */
  lemma ContentStep(events: seq<Event>, table: Option<map<string, ChildParser>>, i: nat, x: PresenceInfo, ns: string)
    requires x.childs == []
    requires i < |events| && !events[i].EndDocument?
    requires Occurs(events, i + 1, OptTextEvents(ShowTag, ns, x.show))
    requires Occurs(events, i + |OptTextEvents(ShowTag, ns, x.show)| + 1, PriorityEvents(ns, x.priority))
    requires Occurs(events, i + |OptTextEvents(ShowTag, ns, x.show)| + |PriorityEvents(ns, x.priority)| + 1,
                    OptTextEvents(StatusTag, ns, x.status))
    ensures i + |ContentEvents(x, ns)| < |events|
    ensures !events[i + |ContentEvents(x, ns)|].EndDocument?
    ensures PresenceBody(events, TagName, table, i, Initial) ==
            PresenceBody(events, TagName, table, i + |ContentEvents(x, ns)|, Reread(x))
  {
    var i1 := i + |OptTextEvents(ShowTag, ns, x.show)|;
    var x1 := Initial.(show := x.show);
    var j := i1 + |PriorityEvents(ns, x.priority)| + |OptTextEvents(StatusTag, ns, x.status)|;
    ShowStep(events, table, i, ns, x.show);
    TailStep(events, table, i1, x, ns, x1);
    assert x.(show := x1.show, childs := x1.childs) == x;
    assert i + |ContentEvents(x, ns)| == j;
    assert events[i + |ContentEvents(x, ns)|] == events[j];
  }

  lemma ContentHead(events: seq<Event>, j: nat, x: PresenceInfo, ns: string)
    requires Occurs(events, j, ContentEvents(x, ns))
    ensures Occurs(events, j, OptTextEvents(ShowTag, ns, x.show))
    ensures Occurs(events, j + |OptTextEvents(ShowTag, ns, x.show)|, PriorityEvents(ns, x.priority))
    ensures Occurs(events, j + |OptTextEvents(ShowTag, ns, x.show)| + |PriorityEvents(ns, x.priority)|,
                   OptTextEvents(StatusTag, ns, x.status))
  {
    var b := OptTextEvents(ShowTag, ns, x.show);
    var c := PriorityEvents(ns, x.priority);
    var d := OptTextEvents(StatusTag, ns, x.status);
    OccursSplit(events, j, b + c, d);
    OccursSplit(events, j, b, c);
  }

  /** The start tag whose reading is the presence start tag with the
      attributes `EnvelopeAttrs(e)`: those attributes quoted and escaped. */
  function QuotedOpening(e: Envelope): string
  {
    "<" + TagName + Concat(QuotedAttr, EnvelopeAttrs(e)) + ">"
  }

  /** Show and status text a reader reports unchanged. */
  predicate PlainContent(x: PresenceInfo)
  {
    (x.show.Some? ==> ContentText(x.show.value)) && (x.status.Some? ==> ContentText(x.status.value))
  }

  /** For a plain envelope and plain text, `toString` writes the quoted
      start tag, and the text of show and status decodes to their values:
      the events `ParseWritten` starts from are what a reader reports. */
  lemma WrittenIsRead(e: Envelope, x: PresenceInfo)
    requires e.from.Some? ==> WellFormed(e.from.value)
    requires e.to.Some? ==> WellFormed(e.to.value)
    requires PlainEnvelope(e) && PlainContent(x)
    ensures PresenceOpening(e) == QuotedOpening(e)
    ensures ReadEnvelope(EnvelopeAttrs(e), Blank) == e
    ensures x.show.Some? ==> Unescaped(EscapedXml10(x.show.value)) == x.show.value
    ensures x.status.Some? ==> Unescaped(EscapedXml10(x.status.value)) == x.status.value
  {
    ReadWrittenEnvelope(e, Blank);
    if x.show.Some? { ContentTextReadBack(x.show.value); }
    if x.status.Some? { ContentTextReadBack(x.status.value); }
  }

  /** Reading back a childless presence `toString` writes restores its
      envelope, show and status, and its priority when that was written. */
  lemma ParseWritten(e: Envelope, x: PresenceInfo, ns: string, bindings: seq<Attr>,
                     table: Option<map<string, ChildParser>>, events: seq<Event>, pos: nat)
    requires e.from.Some? ==> WellFormed(e.from.value)
    requires e.to.Some? ==> WellFormed(e.to.value)
    requires PlainEnvelope(e) && PlainContent(x)
    requires x.childs == []
    requires Occurs(events, pos, [StartTag(TagName, ns, EnvelopeAttrs(e), bindings)] + ContentEvents(x, ns) + [EndTag(TagName)])
    ensures PresenceOpening(e) == QuotedOpening(e)
    ensures x.show.Some? ==> Unescaped(EscapedXml10(x.show.value)) == x.show.value
    ensures x.status.Some? ==> Unescaped(EscapedXml10(x.status.value)) == x.status.value
    ensures events[pos] == StartTag(TagName, ns, EnvelopeAttrs(e), bindings)
    ensures PresenceParse(events, pos, table) == Ok((e, Reread(x), pos + 1 + |ContentEvents(x, ns)|))
  {
    WrittenIsRead(e, x);
    var a := [StartTag(TagName, ns, EnvelopeAttrs(e), bindings)];
    var m := ContentEvents(x, ns);
    assert events[pos] == a[0] && Occurs(events, pos + 1 + |m|, [EndTag(TagName)]) && Occurs(events, pos + 1, m) by {
      OccursSplit(events, pos, a + m, [EndTag(TagName)]);
      OccursSplit(events, pos, a, m);
      OccursAt(events, pos, a, 0);
    }
    BodyWritten(events, table, pos, x, ns);
  }

  /** The loop of `parse` reads the whole written content and stops at the
      closing tag. */
  lemma BodyWritten(events: seq<Event>, table: Option<map<string, ChildParser>>, pos: nat, x: PresenceInfo, ns: string)
    requires x.childs == []
    requires pos < |events| && !events[pos].EndDocument?
    requires Occurs(events, pos + 1, ContentEvents(x, ns))
    requires Occurs(events, pos + 1 + |ContentEvents(x, ns)|, [EndTag(TagName)])
    ensures PresenceBody(events, TagName, table, pos, Initial) == Ok((Reread(x), pos + 1 + |ContentEvents(x, ns)|))
  {
    ContentHead(events, pos + 1, x, ns);
    ContentStep(events, table, pos, x, ns);
    var k := pos + |ContentEvents(x, ns)|;
    OccursAt(events, k + 1, [EndTag(TagName)], 0);
    assert Step(events, k) == Ok(k + 1);
  }
}
