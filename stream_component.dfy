/** The outbound component stream (`src/main/java/com/juick/xmpp/StreamComponent.java`).

    A component connects to a server with the Jabber component protocol
    (XEP-0114): it opens a `jabber:component:accept` stream addressed to
    itself, checks that the server's answer comes from that address,
    proves it knows the shared secret by sending the SHA-1 of the stream id
    and the password, and is logged in when the server answers with a
    `handshake` element. The hash function is a parameter. */
module StreamComponents {
  import opened Wrappers
  import opened XmlPull
  import opened Addresses
  import opened Streams

  const NsComponentAccept: string := "jabber:component:accept"

  /** The opening header, addressed to the component's own address. */
  function ComponentHeader(to: string): string
  {
    "<stream:stream xmlns='" + NsComponentAccept + "' xmlns:stream='" + NsStream + "' to='" + to + "'>"
  }

  /** The handshake element carrying a digest. */
  function HandshakeXml(digest: string): string
  {
    "<handshake>" + digest + "</handshake>"
  }

  /** The digest: the hash of the server's stream id (a missing one
      prints as "null") followed by the password. */
  function Digest(sha1Hex: string -> string, sid: Option<string>, password: string): string
  {
    sha1Hex(OrNull(sid) + password)
  }

  /** What the handshake reads its rules from: the stream listeners, the
      component's address and the shared secret. */
  datatype Component = Component(ls: seq<ListenerId>, to: Jid, password: string)

  /** The header, then the server's header: a `from` that is missing or is
      not the component's address turns the login down. */
  function Opened(c: Component, events: seq<Event>, pos: nat, w: Wire): (r: Phase)
    requires pos < |events|
    ensures r.Proceeding? ==> r.pos == pos + 1 < |events| && events[r.pos].StartTag?
    ensures r.Refused? ==> r.pos == pos + 1 < |events|
  {
    var w1 := Sent(c.ls, w, ComponentHeader(ToEscapedString(c.to)));
    match Step(events, pos)
    case Err(f) => Aborted(w1, f)
    case Ok(j) =>
      if !events[j].StartTag? then Aborted(w1, NoAttributes)
      else
        var sfrom := AttrOf(events[j], "from");
        if sfrom.None? || sfrom.value != ToEscapedString(c.to) then Refused(Rejected(c.ls, w1, "stream:stream"), j)
        else Proceeding(w1, j)
  }

  /** The digest of the server's stream id, read from its header at `j`,
      then the server's answer: a `handshake` element logs in, any other
      element turns the login down with its name. */
  function Reply(c: Component, sha1Hex: string -> string, events: seq<Event>, j: nat, w: Wire): (r: Phase)
    requires j < |events| && events[j].StartTag?
    ensures r.Proceeding? ==> r.pos == j + 2 < |events|
    ensures r.Refused? ==> r.pos == j + 1 < |events|
  {
    var w1 := Sent(c.ls, w, HandshakeXml(Digest(sha1Hex, AttrOf(events[j], "id"), c.password)));
    match Step(events, j)
    case Err(f) => Aborted(w1, f)
    case Ok(k) =>
      match NameOf(events[k])
      case None => Aborted(w1, NullReference)
      case Some(name) =>
        if name == "handshake" then
          match Step(events, k)
          case Err(f) => Aborted(w1, f)
          case Ok(m) => Proceeding(Accepted(c.ls, w1), m)
        else Refused(Rejected(c.ls, w1, name), k)
  }

  /** The whole of `handshake`. */
  function Connect(c: Component, sha1Hex: string -> string, events: seq<Event>, pos: nat, w: Wire): Phase
    requires pos < |events|
  {
    match Opened(c, events, pos, w)
    case Proceeding(w1, j) => Reply(c, sha1Hex, events, j, w1)
    case p => p
  }

  // ---------------------------------------------------------------------
  // Properties
  // ---------------------------------------------------------------------

  /** On an open writer the header is the one thing the first part writes,
      whatever the server answers, and the writer stays open. */
  lemma OpenedWrites(c: Component, events: seq<Event>, pos: nat, w: Wire)
    requires pos < |events| && w.open
    ensures var r := Opened(c, events, pos, w).wire;
      r.out == w.out + [ComponentHeader(ToEscapedString(c.to))] && r.open && r.pending == w.pending
  {
  }

  /** On an open writer the digest is the one thing the second part writes. */
  lemma ReplyWrites(c: Component, sha1Hex: string -> string, events: seq<Event>, j: nat, w: Wire)
    requires j < |events| && events[j].StartTag? && w.open
    ensures var r := Reply(c, sha1Hex, events, j, w).wire;
      r.out == w.out + [HandshakeXml(Digest(sha1Hex, AttrOf(events[j], "id"), c.password))] && r.pending == w.pending
  {
  }

  /** The header addressed to the component is the first thing sent, and
      the writer only grows after it. */
  lemma HeaderFirst(c: Component, sha1Hex: string -> string, events: seq<Event>, pos: nat, w: Wire)
    requires pos < |events| && w.open
    ensures w.out + [ComponentHeader(ToEscapedString(c.to))] <= Connect(c, sha1Hex, events, pos, w).wire.out
  {
    OpenedWrites(c, events, pos, w);
    var o := Opened(c, events, pos, w);
    if o.Proceeding? {
      ReplyWrites(c, sha1Hex, events, o.pos, o.wire);
    }
  }

  /** The server's header is turned down exactly when its `from` is
      missing or is not the component's address. Then the component is
      logged out, every stream listener fails with "stream:stream, failed
      authentication", and no digest is sent: the header is all that was
      written. */
  lemma WrongServerRefused(c: Component, sha1Hex: string -> string, events: seq<Event>, pos: nat, w: Wire)
    requires pos < |events| && w.open
    ensures var o := Opened(c, events, pos, w);
      (Step(events, pos).Ok? && events[pos + 1].StartTag? ==>
        (o.Refused? <==> AttrOf(events[pos + 1], "from") != Some(ToEscapedString(c.to)))) &&
      (o.Refused? ==>
        Connect(c, sha1Hex, events, pos, w) == o && !o.wire.loggedIn &&
        o.wire.out == w.out + [ComponentHeader(ToEscapedString(c.to))] &&
        o.wire.trace == w.trace + Broadcast(c.ls, Failed(IoFault("stream:stream, failed authentication"))))
  {
    assert "stream:stream" + ", failed authentication" == "stream:stream, failed authentication";
  }

  /** Once the server's header is accepted, the second thing written is
      the handshake carrying the hash of the server's stream id and the
      password. */
  lemma DigestSent(c: Component, sha1Hex: string -> string, events: seq<Event>, pos: nat, w: Wire)
    requires pos < |events| && w.open && Opened(c, events, pos, w).Proceeding?
    ensures Connect(c, sha1Hex, events, pos, w).wire.out ==
            w.out + [ComponentHeader(ToEscapedString(c.to)),
                     HandshakeXml(sha1Hex(OrNull(AttrOf(events[pos + 1], "id")) + c.password))]
  {
    OpenedWrites(c, events, pos, w);
    var o := Opened(c, events, pos, w);
    ReplyWrites(c, sha1Hex, events, o.pos, o.wire);
  }

  /** The server's answer decides the login: a `handshake` element logs in
      and tells every stream listener it is ready; any other element logs
      out and fails every listener with the element's name. */
  lemma ReplyOutcome(c: Component, sha1Hex: string -> string, events: seq<Event>, j: nat, w: Wire)
    requires j < |events| && events[j].StartTag?
    ensures var r := Reply(c, sha1Hex, events, j, w);
      var sent := Sent(c.ls, w, HandshakeXml(Digest(sha1Hex, AttrOf(events[j], "id"), c.password)));
      (Step(events, j).Ok? && Step(events, j + 1).Ok? && NameOf(events[j + 1]).Some? ==>
        (r.Proceeding? <==> NameOf(events[j + 1]) == Some("handshake"))) &&
      (r.Proceeding? ==> NameOf(events[j + 1]) == Some("handshake") &&
                         r.wire.loggedIn && r.wire.trace == sent.trace + Broadcast(c.ls, Ready)) &&
      (r.Refused? ==> NameOf(events[j + 1]).Some? && NameOf(events[j + 1]) != Some("handshake") &&
                      !r.wire.loggedIn &&
                      r.wire.trace == sent.trace + Broadcast(c.ls, Failed(IoFault(NameOf(events[j + 1]).value + ", failed authentication"))))
  {
  }

  // ---------------------------------------------------------------------
  // The stream object
  // ---------------------------------------------------------------------

  class StreamComponent {
    const stream: Stream
    const password: string

    /** A component stream has no own `from` address. */
    constructor (to: Jid, input: seq<Event>, password: string)
      ensures stream.Valid() && fresh(stream) && fresh(stream.parser)
      ensures stream.from == None && stream.to == to && stream.parser.events == [StartDocument] + input
      ensures stream.parser.pos == 0 && stream.streamLs == []
      ensures stream.State() == Wire([], true, false, [], map[])
      ensures this.password == password
    {
      stream := new Stream(None, to, input);
      this.password := password;
    }

    function Setup(): Component
      reads stream`streamLs
    {
      Component(stream.streamLs, stream.to, password)
    }

    /** The header and the server's header. */
    method Open() returns (go: bool, r: Outcome)
      requires stream.parser.Valid()
      modifies stream.parser, stream`out, stream`open, stream`loggedIn, stream`trace
      ensures stream.parser.Valid() && stream.parser.events == old(stream.parser.events)
      ensures Opened(Setup(), stream.parser.events, old(stream.parser.pos), old(stream.State())) ==
              if r.Fail? then Aborted(stream.State(), r.failure)
              else if go then Proceeding(stream.State(), stream.parser.pos) else Refused(stream.State(), stream.parser.pos)
      ensures go ==> r.Pass? && stream.parser.Current().StartTag?
    {
      stream.Send(ComponentHeader(ToEscapedString(stream.to)));
      var n := stream.parser.Next();
      if n.Err? {
        return false, Fail(n.failure);
      }
      var e := stream.parser.Current();
      if !e.StartTag? {
        return false, Fail(NoAttributes);
      }
      var sfrom := AttrOf(e, "from");
      if sfrom.None? || sfrom.value != ToEscapedString(stream.to) {
        stream.Reject("stream:stream");
        return false, Pass;
      }
      return true, Pass;
    }

    /** The digest and the server's answer. */
    method Answer(sha1Hex: string -> string) returns (go: bool, r: Outcome)
      requires stream.parser.Valid() && stream.parser.Current().StartTag?
      modifies stream.parser, stream`out, stream`open, stream`loggedIn, stream`trace
      ensures stream.parser.Valid() && stream.parser.events == old(stream.parser.events)
      ensures Reply(Setup(), sha1Hex, stream.parser.events, old(stream.parser.pos), old(stream.State())) ==
              if r.Fail? then Aborted(stream.State(), r.failure)
              else if go then Proceeding(stream.State(), stream.parser.pos) else Refused(stream.State(), stream.parser.pos)
    {
      var sid := AttrOf(stream.parser.Current(), "id");
      stream.Send(HandshakeXml(Digest(sha1Hex, sid, password)));
      var n := stream.parser.Next();
      if n.Err? {
        return false, Fail(n.failure);
      }
      var name := stream.parser.Name();
      if name.None? {
        return false, Fail(NullReference);
      }
      if name.value == "handshake" {
        n := stream.parser.Next();
        if n.Err? {
          return false, Fail(n.failure);
        }
        stream.Accept();
        return true, Pass;
      }
      stream.Reject(name.value);
      return false, Pass;
    }

    /** `handshake()`. */
    method Handshake(sha1Hex: string -> string) returns (r: Outcome)
      requires stream.parser.Valid()
      modifies stream.parser, stream`out, stream`open, stream`loggedIn, stream`trace
      ensures stream.parser.Valid() && stream.parser.events == old(stream.parser.events)
      ensures var p := Connect(Setup(), sha1Hex, stream.parser.events, old(stream.parser.pos), old(stream.State()));
        stream.State() == p.wire && (r.Fail? <==> p.Aborted?) && (r.Fail? ==> r.failure == p.failure) &&
        (!p.Aborted? ==> stream.parser.pos == p.pos)
    {
      var go;
      go, r := Open();
      if go {
        go, r := Answer(sha1Hex);
      }
    }
  }
}
