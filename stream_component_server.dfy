/** The server side of a component stream
    (`src/main/java/com/juick/xmpp/StreamComponentServer.java`).

    It accepts a component under the Jabber component protocol (XEP-0114):
    the component's header must open a `jabber:component:accept` stream
    addressed to this server's address; the server answers with its own
    header carrying a stream id fixed when the object was made, reads the
    component's handshake and logs it in exactly when the handshake holds
    the SHA-1 of that stream id and the shared secret. The hash function,
    the stream id and the texts of the `Handshake` acknowledgement and of
    the not-authorized error (neither class is part of this model) are
    parameters. */
module StreamComponentServers {
  import opened Wrappers
  import opened XmlPull
  import opened XmlUtils
  import opened Addresses
  import opened Streams
  import StreamComponents

  const InvalidStream: Failure := IoFault("invalid stream")
  const InvalidDomain: Failure := IoFault("invalid domain")

  /** The server's header: its bare address and the stream id. */
  function ServerHeader(bare: string, streamId: string): string
  {
    "<stream:stream xmlns:stream='" + NsStream + "' xmlns='" + StreamComponents.NsComponentAccept +
    "' from='" + bare + "' id='" + streamId + "'>"
  }

  /** What the handshake reads its rules from: the stream listeners, the
      server's own address, the stream id and the shared secret. */
  datatype Server = Server(ls: seq<ListenerId>, from: Jid, streamId: string, secret: string)

  /** What comes from outside this model: the hash, and the texts of the
      acknowledgement (`new Handshake()`) and of the refusal (a
      `cancel`/`not-authorized` error). */
  datatype Inputs = Inputs(sha1Hex: string -> string, ack: string, refusal: string)

  /** The checks on the component's header, in the order they are made:
      what they throw, if anything. A missing name, namespace or `to`
      attribute is dereferenced and throws; an end tag binds no namespace. */
  function HeaderCheck(s: Server, e: Event): (r: Option<Failure>)
    ensures r.None? ==> e.StartTag?
  {
    match NameOf(e)
    case None => Some(NullReference)
    case Some(name) =>
      if name != "stream" then Some(InvalidStream)
      else if !e.StartTag? then Some(NullReference)
      else
        match NamespaceOf(e, "")
        case None => Some(NullReference)
        case Some(ns) =>
          if ns != StreamComponents.NsComponentAccept then Some(InvalidStream)
          else
            match NamespaceOf(e, "stream")
            case None => Some(NullReference)
            case Some(nss) =>
              if nss != NsStream then Some(InvalidStream)
              else
                match AttrOf(e, "to")
                case None => Some(NullReference)
                case Some(to) => if to != ToEscapedString(s.from) then Some(InvalidDomain) else None
  }

  /** The header the server takes: a `stream` element in the component
      namespace and the stream namespace, addressed to the server. */
  predicate Acceptable(s: Server, e: Event)
  {
    e.StartTag? && e.name == "stream" && NamespaceOf(e, "") == Some(StreamComponents.NsComponentAccept) &&
    NamespaceOf(e, "stream") == Some(NsStream) && AttrOf(e, "to") == Some(ToEscapedString(s.from))
  }

  /** The component's header at the next event, then the server's header. */
  function Accepting(s: Server, events: seq<Event>, pos: nat, w: Wire): (r: Phase)
    requires pos < |events|
    ensures !r.Refused?
    ensures r.Proceeding? ==> r.pos == pos + 1 < |events|
  {
    match Step(events, pos)
    case Err(f) => Aborted(w, f)
    case Ok(j) =>
      match HeaderCheck(s, events[j])
      case Some(f) => Aborted(w, f)
      case None => Proceeding(Sent(s.ls, w, ServerHeader(BarePart(s.from), s.streamId)), j)
  }

  /** The component's handshake (`Handshake.parse` is taken to move to the
      next element and read its text like `getTagText`), then the verdict:
      the login flag is whether the text is the hash of the stream id and
      the secret; a match is acknowledged and the listeners are told the
      stream is ready, a mismatch is answered with the refusal and every
      listener fails. */
  function Verdict(s: Server, a: Inputs, events: seq<Event>, j: nat, w: Wire): (r: Phase)
    requires j < |events|
    ensures r.Proceeding? || r.Refused? ==> j + 1 < r.pos < |events|
  {
    match Step(events, j)
    case Err(f) => Aborted(w, f)
    case Ok(k) =>
      match TagText(events, k)
      case Err(f) => Aborted(w, f)
      case Ok((value, m)) =>
        if value == a.sha1Hex(s.streamId + s.secret) then
          Proceeding(Accepted(s.ls, Sent(s.ls, w.(loggedIn := true), a.ack)), m)
        else
          Refused(Rejected(s.ls, Sent(s.ls, w.(loggedIn := false), a.refusal), "stream:stream"), m)
  }

  /** The whole of `handshake`. */
  function Admission(s: Server, a: Inputs, events: seq<Event>, pos: nat, w: Wire): Phase
    requires pos < |events|
  {
    match Accepting(s, events, pos, w)
    case Proceeding(w1, j) => Verdict(s, a, events, j, w1)
    case p => p
  }

  /** The text the component sent as its handshake, when it reads. */
  function HandshakeValue(events: seq<Event>, j: nat): Option<string>
    requires j < |events|
  {
    match Step(events, j)
    case Err(_) => None
    case Ok(k) => if TagText(events, k).Ok? then Some(TagText(events, k).value.0) else None
  }

  // ---------------------------------------------------------------------
  // Properties
  // ---------------------------------------------------------------------

  /** The checks let a header through exactly when it is acceptable. */
  lemma HeaderCheckPasses(s: Server, e: Event)
    ensures HeaderCheck(s, e).None? <==> Acceptable(s, e)
  {
  }

  /** "invalid stream" is thrown exactly for a wrong element name, a wrong
      default namespace or a wrong stream namespace, each checked only once
      the ones before it hold and the namespace it reads is present. */
  lemma InvalidStreamWhen(s: Server, e: Event)
    ensures HeaderCheck(s, e) == Some(InvalidStream) <==>
      (NameOf(e).Some? && NameOf(e) != Some("stream")) ||
      (e.StartTag? && e.name == "stream" && NamespaceOf(e, "").Some? &&
        (NamespaceOf(e, "") != Some(StreamComponents.NsComponentAccept) ||
         (NamespaceOf(e, "stream").Some? && NamespaceOf(e, "stream") != Some(NsStream))))
  {
    assert InvalidStream != NullReference;
    assert InvalidStream != InvalidDomain by {
      assert "invalid stream"[8] != "invalid domain"[8];
    }
  }

  /** "invalid domain" is thrown exactly for a stream header in the right
      namespaces whose `to` is present and is not the server's address;
      nothing has been written then, and nobody is told. */
  lemma InvalidDomainBeforeHeader(s: Server, a: Inputs, events: seq<Event>, pos: nat, w: Wire)
    requires pos < |events|
    ensures var r := Accepting(s, events, pos, w);
      (r == Aborted(w, InvalidDomain) <==>
        Step(events, pos).Ok? && var e := events[pos + 1];
        e.StartTag? && e.name == "stream" && NamespaceOf(e, "") == Some(StreamComponents.NsComponentAccept) &&
        NamespaceOf(e, "stream") == Some(NsStream) && AttrOf(e, "to").Some? && AttrOf(e, "to") != Some(ToEscapedString(s.from))) &&
      (r.Aborted? ==> r.wire == w && Admission(s, a, events, pos, w) == r)
  {
    assert InvalidDomain != NullReference;
    assert InvalidStream != InvalidDomain by {
      assert "invalid stream"[8] != "invalid domain"[8];
    }
  }

  /** The login flag ends up as whether the handshake text is the hash of
      the stream id and the secret, and only a match is acknowledged: a
      match on an open writer writes the acknowledgement and tells every
      listener the stream is ready; a mismatch writes the refusal and fails
      every listener with "stream:stream, failed authentication". */
  lemma VerdictOutcome(s: Server, a: Inputs, events: seq<Event>, j: nat, w: Wire)
    requires j < |events| && w.open
    ensures var r := Verdict(s, a, events, j, w);
      (r.Aborted? <==> HandshakeValue(events, j).None?) &&
      (r.Aborted? ==> r.wire == w) &&
      (!r.Aborted? ==>
        (r.wire.loggedIn <==> HandshakeValue(events, j) == Some(a.sha1Hex(s.streamId + s.secret))) &&
        (r.Proceeding? <==> r.wire.loggedIn) && r.wire.open && r.wire.pending == w.pending) &&
      (r.Proceeding? ==> r.wire.out == w.out + [a.ack] && r.wire.trace == w.trace + Broadcast(s.ls, Ready)) &&
      (r.Refused? ==> r.wire.out == w.out + [a.refusal] &&
                      r.wire.trace == w.trace + Broadcast(s.ls, Failed(IoFault("stream:stream, failed authentication"))))
  {
    assert "stream:stream" + ", failed authentication" == "stream:stream, failed authentication";
  }

  /** The stream id in the header sent and the one the handshake is checked
      against are the same: a handshake that gets past the header on an
      open writer has written the server's header with the stream id, then
      the acknowledgement or the refusal, and is logged in exactly when the
      text is the hash of that stream id and the secret. */
  lemma OneStreamId(s: Server, a: Inputs, events: seq<Event>, pos: nat, w: Wire)
    requires pos < |events| && w.open
    ensures var r := Admission(s, a, events, pos, w);
      !r.Aborted? ==>
        Step(events, pos).Ok? && Acceptable(s, events[pos + 1]) &&
        r.wire.out == w.out + [ServerHeader(BarePart(s.from), s.streamId), if r.wire.loggedIn then a.ack else a.refusal] &&
        (r.wire.loggedIn <==> HandshakeValue(events, pos + 1) == Some(a.sha1Hex(s.streamId + s.secret)))
  {
    var p := Accepting(s, events, pos, w);
    if p.Proceeding? {
      HeaderCheckPasses(s, events[pos + 1]);
      VerdictOutcome(s, a, events, p.pos, p.wire);
    }
  }

  // ---------------------------------------------------------------------
  // The stream object
  // ---------------------------------------------------------------------

  class StreamComponentServer {
    const stream: Stream
    /** Fixed when the object is made (`UUID.randomUUID()`, a parameter here). */
    const streamId: string
    const secret: string

    ghost predicate Valid()
      reads stream.parser, stream`from
    {
      stream.parser.Valid() && stream.from.Some?
    }

    constructor (from: Jid, to: Jid, input: seq<Event>, password: string, uuid: string)
      ensures Valid() && fresh(stream) && fresh(stream.parser)
      ensures stream.from == Some(from) && stream.to == to && stream.parser.events == [StartDocument] + input
      ensures stream.parser.pos == 0 && stream.streamLs == []
      ensures stream.State() == Wire([], true, false, [], map[])
      ensures secret == password && streamId == uuid
    {
      stream := new Stream(Some(from), to, input);
      secret := password;
      streamId := uuid;
    }

    function Setup(): Server
      reads stream`streamLs, stream`from
      requires stream.from.Some?
    {
      Server(stream.streamLs, stream.from.value, streamId, secret)
    }

    /** The component's header and the server's answer to it. */
    method ReadHeader() returns (r: Outcome)
      requires Valid()
      modifies stream.parser, stream`out, stream`open, stream`trace
      ensures Valid() && stream.parser.events == old(stream.parser.events)
      ensures Accepting(Setup(), stream.parser.events, old(stream.parser.pos), old(stream.State())) ==
              if r.Fail? then Aborted(stream.State(), r.failure) else Proceeding(stream.State(), stream.parser.pos)
    {
      var n := stream.parser.Next();
      if n.Err? {
        return Fail(n.failure);
      }
      var name := stream.parser.Name();
      if name.None? {
        return Fail(NullReference);
      }
      var e := stream.parser.Current();
      if name.value != "stream" {
        return Fail(InvalidStream);
      }
      if !e.StartTag? {
        return Fail(NullReference);
      }
      var ns := NamespaceOf(e, "");
      if ns.None? {
        return Fail(NullReference);
      }
      if ns.value != StreamComponents.NsComponentAccept {
        return Fail(InvalidStream);
      }
      var nss := NamespaceOf(e, "stream");
      if nss.None? {
        return Fail(NullReference);
      }
      if nss.value != NsStream {
        return Fail(InvalidStream);
      }
      var to := AttrOf(e, "to");
      if to.None? {
        return Fail(NullReference);
      }
      if to.value != ToEscapedString(stream.from.value) {
        return Fail(InvalidDomain);
      }
      stream.Send(ServerHeader(BarePart(stream.from.value), streamId));
      return Pass;
    }

    /** The component's handshake and the verdict on it. */
    method Verify(a: Inputs) returns (r: Outcome)
      requires Valid()
      modifies stream.parser, stream`out, stream`open, stream`loggedIn, stream`trace
      ensures Valid() && stream.parser.events == old(stream.parser.events)
      ensures Verdict(Setup(), a, stream.parser.events, old(stream.parser.pos), old(stream.State())) ==
              if r.Fail? then Aborted(stream.State(), r.failure)
              else if stream.loggedIn then Proceeding(stream.State(), stream.parser.pos)
              else Refused(stream.State(), stream.parser.pos)
    {
      var n := stream.parser.Next();
      if n.Err? {
        return Fail(n.failure);
      }
      var value := GetTagText(stream.parser);
      if value.Err? {
        return Fail(value.failure);
      }
      var authenticated := value.value == a.sha1Hex(streamId + secret);
      stream.loggedIn := authenticated;
      if !authenticated {
        stream.Send(a.refusal);
        stream.Reject("stream:stream");
        return Pass;
      }
      stream.Send(a.ack);
      stream.Accept();
      return Pass;
    }

    /** `handshake()`. */
    method Handshake(a: Inputs) returns (r: Outcome)
      requires Valid()
      modifies stream.parser, stream`out, stream`open, stream`loggedIn, stream`trace
      ensures Valid() && stream.parser.events == old(stream.parser.events)
      ensures var p := Admission(Setup(), a, stream.parser.events, old(stream.parser.pos), old(stream.State()));
        stream.State() == p.wire && (r.Fail? <==> p.Aborted?) && (r.Fail? ==> r.failure == p.failure) &&
        (!p.Aborted? ==> stream.parser.pos == p.pos)
    {
      r := ReadHeader();
      if r.Pass? {
        r := Verify(a);
      }
    }
  }
}
