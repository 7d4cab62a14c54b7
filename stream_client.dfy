/** The client-to-server stream (`src/main/java/com/juick/xmpp/StreamClient.java`).

    Its handshake opens a `jabber:client` stream, checks the features,
    logs in with SASL PLAIN (section 2 of RFC 4616), restarts the stream and
    asks to bind a resource (section 7 of RFC 6120). As the iq listener of
    its own bind request it adopts the bound resource, tells the stream
    listeners it is ready and opens a session. */
module StreamClients {
  import opened Wrappers
  import opened XmlPull
  import opened XmlUtils
  import opened Text
  import opened Addresses
  import opened StanzaChildren
  import opened Stanzas
  import Iqs
  import opened Streams

  const NsClient: string := "jabber:client"
  /** The namespace of the session request. */
  const NsSession: string := "urn:ietf:params:xml:ns:xmpp-session"
  const NsSasl: string := "urn:ietf:params:xml:ns:xmpp-sasl"

  /** The opening header, addressed to the server's domain. */
  function ClientHeader(domain: string): string
  {
    "<stream:stream xmlns='" + NsClient + "' xmlns:stream='" + NsStream + "' to='" + domain + "' version='1.0'>"
  }

  /** The SASL PLAIN message of section 2 of RFC 4616: authorization
      identity, authentication identity and password, separated by NUL. */
  function PlainMessage(authzid: string, authcid: string, password: string): string
  {
    authzid + "\0" + authcid + "\0" + password
  }

  /** What the client logs in with: its bare address, its local part (a
      null local part prints as "null") and the password. */
  function AuthPayload(from: Jid, password: string): string
  {
    PlainMessage(ToEscapedString(Bare(from)), OrNull(from.local), password)
  }

  /** When neither identity holds a NUL, the message determines all three
      fields: the server reads back the identities and the password sent. */
  lemma PlainMessageInjective(a: string, b: string, c: string, a': string, b': string, c': string)
    requires '\0' !in a && '\0' !in b && '\0' !in a' && '\0' !in b'
    ensures PlainMessage(a, b, c) == PlainMessage(a', b', c') <==> a == a' && b == b' && c == c'
  {
    assert PlainMessage(a, b, c) == a + ['\0'] + (b + ['\0'] + c);
    assert PlainMessage(a', b', c') == a' + ['\0'] + (b' + ['\0'] + c');
    SplitAtSeparator(a, b + ['\0'] + c, a', b' + ['\0'] + c', '\0');
    SplitAtSeparator(b, c, b', c', '\0');
  }

  /** The auth element; `encoded` is the base64 text of the message. */
  function AuthXml(encoded: string): string
  {
    "<auth xmlns='" + NsSasl + "' mechanism='PLAIN'>" + encoded + "</auth>"
  }

  /** The session request. */
  const SessionXml: string := "<iq type='set' id='sess'><session xmlns='" + NsSession + "'/></iq>"

  /** The resource the bind request asks for: the client's own, unless it
      is null or empty. */
  function BindResource(from: Jid): (r: Option<string>)
    ensures r.Some? <==> from.resource.Some? && from.resource.value != ""
    ensures r.Some? ==> r == from.resource
  {
    if from.resource.Some? && |from.resource.value| > 0 then from.resource else None
  }

  /** The envelope of the bind request: no addresses, the given id, type set. */
  function BindEnvelope(id: string): Envelope
  {
    Envelope(None, None, Some(id), Some(Iqs.TypeSet))
  }

  /** The text of the bind request: an iq of type set holding one binding
      child that asks for `BindResource(from)`. */
  function BindXml(from: Jid, id: string): (r: string)
    ensures IsPrefix(Iqs.IqOpening(BindEnvelope(id)), r) && EndsWith(r, Iqs.Closing)
  {
    Iqs.IqXml(BindEnvelope(id), [Binding(BindResource(from), None)]).value
  }

  // ---------------------------------------------------------------------
  // skipTag
  // ---------------------------------------------------------------------

  /** Where `skipTag(tag)` called at `i` leaves the cursor: it moves at
      least once, then on to the first end tag named `tag`. */
  function TagEnd(events: seq<Event>, tag: string, i: nat): (r: Result<nat>)
    requires i < |events|
    ensures r.Ok? ==> i < r.value < |events| && events[r.value] == EndTag(tag)
  {
    match Step(events, i)
    case Err(f) => Err(f)
    case Ok(j) => EndTagFrom(events, Some(tag), j)
  }

  /** `skipTag` stops on the first end tag with the name after the start. */
  lemma TagEndFirst(events: seq<Event>, tag: string, i: nat)
    requires i < |events| && TagEnd(events, tag, i).Ok?
    ensures forall m :: i < m < TagEnd(events, tag, i).value ==> events[m] != EndTag(tag)
  {
    EndTagFromFirst(events, Some(tag), i + 1);
  }

  // ---------------------------------------------------------------------
  // handshake
  // ---------------------------------------------------------------------

  /** What the handshake reads its rules from: the stream listeners, the two
      addresses, the password, and the client itself as an iq listener. */
  datatype Client = Client(ls: seq<ListenerId>, from: Jid, to: Jid, password: string, me: ListenerId)

  /** What the handshake gets from outside this model: what the features
      say (`StreamFeatures` is taken to read the element after the stream
      header like `skip` does), the base64 encoding, the events of the
      restarted stream, the id of the bind request (the source makes it
      from the clock), and what the resource binding parser yields. */
  datatype Inputs = Inputs(features: FeaturesOf, base64: string -> string, restart: seq<Event>,
                           bindId: string, binder: Option<Extension>)

  /** The features after the peer's header at `j`: a required starttls or
      a missing PLAIN mechanism turns the login down. */
  function Offered(c: Client, a: Inputs, events: seq<Event>, j: nat, w: Wire): (r: Phase)
    requires j < |events|
    ensures r.Proceeding? || r.Refused? ==> j < r.pos < |events|
  {
    match Step(events, j)
    case Err(f) => Aborted(w, f)
    case Ok(k) =>
      match SkipEnd(events, k)
      case Err(f) => Aborted(w, f)
      case Ok(m) =>
        var f := a.features(events, k);
        if f.starttls == Required || f.plain == NotAvailable then Refused(Rejected(c.ls, w, "stream:features"), m)
        else Proceeding(w, m)
  }

  /** The header, the peer's header, then the features. */
  function Greeting(c: Client, a: Inputs, events: seq<Event>, pos: nat, w: Wire): (r: Phase)
    requires pos < |events|
    ensures r.Proceeding? || r.Refused? ==> pos < r.pos < |events|
  {
    match Wrote(w, ClientHeader(c.to.domain))
    case Err(f) => Aborted(w, f)
    case Ok(w1) =>
      match Step(events, pos)
      case Err(f) => Aborted(w1, f)
      case Ok(j) => Offered(c, a, events, j, w1)
  }

  /** The auth element, then the answer: `success` logs in, any other
      element turns the login down with its name. */
  function Authentication(c: Client, a: Inputs, events: seq<Event>, pos: nat, w: Wire): (r: Phase)
    requires pos < |events|
    ensures r.Proceeding? || r.Refused? ==> pos < r.pos < |events|
  {
    match Wrote(w, AuthXml(a.base64(AuthPayload(c.from, c.password))))
    case Err(f) => Aborted(w, f)
    case Ok(w1) =>
      match Step(events, pos)
      case Err(f) => Aborted(w1, f)
      case Ok(j) =>
        match NameOf(events[j])
        case None => Aborted(w1, NullReference)
        case Some(name) =>
          if name == "success" then
            match TagEnd(events, "success", j)
            case Err(f) => Aborted(w1, f)
            case Ok(k) => Proceeding(w1.(loggedIn := true), k)
          else Refused(Rejected(c.ls, w1, name), j)
  }

  /** The header again and the restart: the writer of the restarted
      stream is a new one, and the new features are skipped. */
  function Restarted(c: Client, a: Inputs, w: Wire): (r: Phase)
    ensures r.Proceeding? ==> r.pos < 1 + |a.restart|
    ensures !r.Refused?
  {
    var w1 := Sent(c.ls, w, ClientHeader(c.to.domain)).(open := true);
    match TagEnd([StartDocument] + a.restart, "features", 0)
    case Err(f) => Aborted(w1, f)
    case Ok(k) => Proceeding(w1, k)
  }

  /** The bind request: its listener is registered before it is written. */
  function BindRequest(c: Client, a: Inputs, text: string, w: Wire): Wire
  {
    var w1 := w.(pending := w.pending[CorrelationKey(Some(c.to.domain), Some(a.bindId)) := c.me]);
    w1.(out := w1.out + [text])
  }

  /** The restart, then the bind request. */
  function BindPhase(c: Client, a: Inputs, w: Wire): (r: Phase)
    ensures r.Proceeding? ==> r.pos < 1 + |a.restart|
  {
    match Restarted(c, a, w)
    case Proceeding(w1, k) => Proceeding(BindRequest(c, a, BindXml(c.from, a.bindId), w1), k)
    case p => p
  }

  /** Where the handshake ends, and whether the stream was restarted. */
  datatype LoginEnd = LoginEnd(phase: Phase, restarted: bool)

  /** The handshake after the features. */
  function Credentials(c: Client, a: Inputs, events: seq<Event>, pos: nat, w: Wire): LoginEnd
    requires pos < |events|
  {
    match Authentication(c, a, events, pos, w)
    case Proceeding(w1, _) => LoginEnd(BindPhase(c, a, w1), true)
    case p => LoginEnd(p, false)
  }

  /** The whole of `handshake`. */
  function Login(c: Client, a: Inputs, events: seq<Event>, pos: nat, w: Wire): LoginEnd
    requires pos < |events|
  {
    match Greeting(c, a, events, pos, w)
    case Proceeding(w1, k) => Credentials(c, a, events, k, w1)
    case p => LoginEnd(p, false)
  }

  /** Features that forbid the login turn it down, and only those: the
      client is logged out, every stream listener fails, and nothing but
      the header was written, so no credentials are sent. */
  lemma FeaturesGate(c: Client, a: Inputs, events: seq<Event>, pos: nat, w: Wire)
    requires pos < |events|
    ensures var g := Greeting(c, a, events, pos, w);
      (g.Refused? ==> !g.wire.loggedIn && g.wire.out == w.out + [ClientHeader(c.to.domain)] &&
                      g.wire.trace == w.trace + Broadcast(c.ls, Failed(IoFault("stream:features, failed authentication")))) &&
      (g.Refused? || g.Proceeding? ==>
        (g.Refused? <==> var f := a.features(events, pos + 2); f.starttls == Required || f.plain == NotAvailable))
  {
    assert "stream:features" + ", failed authentication" == "stream:features, failed authentication";
  }

  /** The answer to the auth element decides the login: on an open writer,
      a `success` read to its end tag logs in, a login happens only on
      `success`, and anything else logs out and fails every listener with
      the element's name. */
  lemma AuthenticationOutcome(c: Client, a: Inputs, events: seq<Event>, pos: nat, w: Wire)
    requires pos < |events|
    ensures var p := Authentication(c, a, events, pos, w);
      (p.Proceeding? ==> p.wire.loggedIn && NameOf(events[pos + 1]) == Some("success")) &&
      ((w.open && Step(events, pos).Ok? && NameOf(events[pos + 1]) == Some("success") &&
        TagEnd(events, "success", pos + 1).Ok?) ==> p.Proceeding? && p.wire.loggedIn) &&
      (p.Refused? ==> p.pos == pos + 1 && NameOf(events[pos + 1]).Some? && NameOf(events[pos + 1]) != Some("success") &&
                      !p.wire.loggedIn &&
                      p.wire.trace == w.trace + Broadcast(c.ls, Failed(IoFault(NameOf(events[pos + 1]).value + ", failed authentication"))))
  {
  }

  lemma GreetingWrites(c: Client, a: Inputs, events: seq<Event>, pos: nat, w: Wire)
    requires pos < |events| && w.open && Greeting(c, a, events, pos, w).Proceeding?
    ensures var g := Greeting(c, a, events, pos, w);
      g.wire == w.(out := w.out + [ClientHeader(c.to.domain)])
  {
  }

  lemma AuthenticationWrites(c: Client, a: Inputs, events: seq<Event>, pos: nat, w: Wire)
    requires pos < |events| && w.open && Authentication(c, a, events, pos, w).Proceeding?
    ensures var p := Authentication(c, a, events, pos, w);
      p.wire == w.(out := w.out + [AuthXml(a.base64(AuthPayload(c.from, c.password)))], loggedIn := true)
  {
  }

  lemma BindPhaseWrites(c: Client, a: Inputs, w: Wire)
    requires w.open && BindPhase(c, a, w).Proceeding?
    ensures var b := BindPhase(c, a, w);
      b.wire.out == w.out + [ClientHeader(c.to.domain), BindXml(c.from, a.bindId)] && b.wire.loggedIn == w.loggedIn &&
      b.wire.pending == w.pending[CorrelationKey(Some(c.to.domain), Some(a.bindId)) := c.me]
  {
    var r := Restarted(c, a, w);
    assert r.wire.out == w.out + [ClientHeader(c.to.domain)];
  }

  lemma Cons3<T>(o: seq<T>, x: T, y: T, z: T)
    ensures o + [x] + [y, z] == o + [x, y, z]
  {
  }

  lemma Cons4<T>(o: seq<T>, x: T, y: T, z: T, u: T)
    ensures o + [x] + [y, z, u] == o + [x, y, z, u]
  {
  }

  lemma CredentialsWrites(c: Client, a: Inputs, events: seq<Event>, pos: nat, w: Wire)
    requires pos < |events| && w.open && Credentials(c, a, events, pos, w).phase.Proceeding?
    ensures var e := Credentials(c, a, events, pos, w);
      e.restarted && e.phase.wire.loggedIn &&
      e.phase.wire.out == w.out + [AuthXml(a.base64(AuthPayload(c.from, c.password))),
                                   ClientHeader(c.to.domain), BindXml(c.from, a.bindId)] &&
      e.phase.wire.pending == w.pending[CorrelationKey(Some(c.to.domain), Some(a.bindId)) := c.me]
  {
    var p := Authentication(c, a, events, pos, w);
    AuthenticationWrites(c, a, events, pos, w);
    BindPhaseWrites(c, a, p.wire);
    Cons3(w.out, AuthXml(a.base64(AuthPayload(c.from, c.password))), ClientHeader(c.to.domain), BindXml(c.from, a.bindId));
  }

  /** A handshake that gets through on an open writer has written exactly
      the header, the PLAIN credentials, the header of the restarted stream
      and the bind request, in that order; it is logged in, and the bind
      request's listener is the client, under the server's domain and the
      request's id. */
  lemma LoginWrites(c: Client, a: Inputs, events: seq<Event>, pos: nat, w: Wire)
    requires pos < |events| && w.open
    ensures var e := Login(c, a, events, pos, w);
      e.phase.Proceeding? ==>
        e.restarted && e.phase.wire.loggedIn &&
        e.phase.wire.out == w.out + [ClientHeader(c.to.domain), AuthXml(a.base64(AuthPayload(c.from, c.password))),
                                     ClientHeader(c.to.domain), BindXml(c.from, a.bindId)] &&
        e.phase.wire.pending == w.pending[CorrelationKey(Some(c.to.domain), Some(a.bindId)) := c.me]
  {
    var g := Greeting(c, a, events, pos, w);
    if g.Proceeding? && Credentials(c, a, events, g.pos, g.wire).phase.Proceeding? {
      GreetingWrites(c, a, events, pos, w);
      CredentialsWrites(c, a, events, g.pos, g.wire);
      Cons4(w.out, ClientHeader(c.to.domain), AuthXml(a.base64(AuthPayload(c.from, c.password))),
            ClientHeader(c.to.domain), BindXml(c.from, a.bindId));
    }
  }

  // ---------------------------------------------------------------------
  // onIq
  // ---------------------------------------------------------------------

  /** What the cast of a child that is not a binding object throws. */
  const CastFault: Failure := Raised("ClassCastException")

  /** `onIq(iq)` on the children of an iq: the new own address, the wire,
      and the answer. */
  function IqAnswer(ls: seq<ListenerId>, from: Jid, childs: seq<Extension>, w: Wire): (Jid, Wire, Result<bool>)
  {
    if childs == [] then (from, w, Ok(false))
    else
      var ns := XmlnsOf(childs[0]);
      if ns != BindXmlns then (from, w, Ok(ns == NsSession))
      else
        match childs[0]
        case Binding(_, jid) =>
          var from' := if jid.Some? then WithResource(from, jid.value.resource) else from;
          (from', Sent(ls, w.(trace := w.trace + Broadcast(ls, Ready)), SessionXml), Ok(true))
        case _ => (from, w, Err(CastFault))
  }

  /** `onIq` takes the iq exactly when its first child is a binding or is
      in the session namespace. */
  lemma IqAnswerTaken(ls: seq<ListenerId>, from: Jid, childs: seq<Extension>, w: Wire)
    ensures IqAnswer(ls, from, childs, w).2 == Ok(true) <==>
            childs != [] && (childs[0].Binding? || XmlnsOf(childs[0]) == NsSession)
  {
    assert BindXmlns != NsSession by {
      assert BindXmlns[28] == 'b' && NsSession[28] == 's';
    }
  }

  /** Only the resource of the own address can change, and only to the
      resource of a bound address the server sent. */
  lemma IqAnswerKeepsBareAddress(ls: seq<ListenerId>, from: Jid, childs: seq<Extension>, w: Wire)
    ensures var from' := IqAnswer(ls, from, childs, w).0;
      Bare(from') == Bare(from) &&
      (from' != from ==> childs[0].Binding? && childs[0].jid.Some? && from'.resource == childs[0].jid.value.resource)
  {
  }

  /** A binding answer on an open writer tells every stream listener it is
      ready, and only then sends the session request. */
  lemma BindingStartsSession(ls: seq<ListenerId>, from: Jid, childs: seq<Extension>, w: Wire)
    requires childs != [] && childs[0].Binding? && w.open
    ensures var r := IqAnswer(ls, from, childs, w).1;
      r.trace == w.trace + Broadcast(ls, Ready) && r.out == w.out + [SessionXml] &&
      r.loggedIn == w.loggedIn && r.pending == w.pending
  {
  }

  // ---------------------------------------------------------------------
  // The stream object
  // ---------------------------------------------------------------------

  class StreamClient {
    const stream: Stream
    const password: string
    /** The client itself, as the iq listener of its bind request. */
    const me: ListenerId

    ghost predicate Valid()
      reads stream.parser, stream`streamLs, stream`messageLs, stream`presenceLs, stream`iqLs, stream`from
    {
      stream.Valid() && stream.from.Some?
    }

    constructor (from: Jid, to: Jid, input: seq<Event>, password: string, me: ListenerId)
      ensures Valid() && fresh(stream) && fresh(stream.parser)
      ensures stream.from == Some(from) && stream.to == to && stream.parser.events == [StartDocument] + input
      ensures stream.parser.pos == 0 && stream.childParsers == map[] && stream.streamLs == []
      ensures stream.State() == Wire([], true, false, [], map[])
      ensures this.password == password && this.me == me
    {
      stream := new Stream(Some(from), to, input);
      this.password := password;
      this.me := me;
    }

    function Setup(): Client
      reads stream`streamLs, stream`from
      requires stream.from.Some?
    {
      Client(stream.streamLs, stream.from.value, stream.to, password, me)
    }

    /** `skipTag(tag)`. */
    method SkipTag(tag: string) returns (r: Outcome)
      requires stream.parser.Valid()
      modifies stream.parser
      ensures stream.parser.Valid() && stream.parser.events == old(stream.parser.events)
      ensures TagEnd(stream.parser.events, tag, old(stream.parser.pos)) ==
              if r.Pass? then Ok(stream.parser.pos) else Err(r.failure)
    {
      var n := stream.parser.Next();
      if n.Err? {
        return Fail(n.failure);
      }
      while stream.parser.Current() != EndTag(tag)
        invariant stream.parser.Valid() && stream.parser.events == old(stream.parser.events)
        invariant old(stream.parser.pos) < stream.parser.pos
        invariant EndTagFrom(stream.parser.events, Some(tag), stream.parser.pos) ==
                  EndTagFrom(stream.parser.events, Some(tag), old(stream.parser.pos) + 1)
        decreases |stream.parser.events| - stream.parser.pos
      {
        n := stream.parser.Next();
        if n.Err? {
          return Fail(n.failure);
        }
      }
      return Pass;
    }

    /** The features after the peer's header. */
    method ReadFeatures(a: Inputs) returns (go: bool, r: Outcome)
      requires Valid()
      modifies stream.parser, stream`loggedIn, stream`trace
      ensures Valid() && stream.parser.events == old(stream.parser.events)
      ensures Offered(Setup(), a, stream.parser.events, old(stream.parser.pos), old(stream.State())) ==
              if r.Fail? then Aborted(stream.State(), r.failure)
              else if go then Proceeding(stream.State(), stream.parser.pos) else Refused(stream.State(), stream.parser.pos)
      ensures go ==> r.Pass?
    {
      var n := stream.parser.Next();
      if n.Err? {
        return false, Fail(n.failure);
      }
      var f := a.features(stream.parser.events, stream.parser.pos);
      r := Skip(stream.parser);
      if r.Fail? {
        return false, r;
      }
      if f.starttls == Required || f.plain == NotAvailable {
        stream.Reject("stream:features");
        return false, Pass;
      }
      return true, Pass;
    }

    /** The header, the peer's header and the features. */
    method Greet(a: Inputs) returns (go: bool, r: Outcome)
      requires Valid()
      modifies stream.parser, stream`out, stream`loggedIn, stream`trace
      ensures Valid() && stream.parser.events == old(stream.parser.events)
      ensures Greeting(Setup(), a, stream.parser.events, old(stream.parser.pos), old(stream.State())) ==
              if r.Fail? then Aborted(stream.State(), r.failure)
              else if go then Proceeding(stream.State(), stream.parser.pos) else Refused(stream.State(), stream.parser.pos)
      ensures go ==> r.Pass?
    {
      r := stream.Write(ClientHeader(stream.to.domain));
      if r.Fail? {
        return false, r;
      }
      var n := stream.parser.Next();
      if n.Err? {
        return false, Fail(n.failure);
      }
      go, r := ReadFeatures(a);
    }

    /** The auth element and the answer to it. */
    method Authenticate(a: Inputs) returns (go: bool, r: Outcome)
      requires Valid()
      modifies stream.parser, stream`out, stream`loggedIn, stream`trace
      ensures Valid() && stream.parser.events == old(stream.parser.events)
      ensures Authentication(Setup(), a, stream.parser.events, old(stream.parser.pos), old(stream.State())) ==
              if r.Fail? then Aborted(stream.State(), r.failure)
              else if go then Proceeding(stream.State(), stream.parser.pos) else Refused(stream.State(), stream.parser.pos)
      ensures go ==> r.Pass?
    {
      r := stream.Write(AuthXml(a.base64(AuthPayload(stream.from.value, password))));
      if r.Fail? {
        return false, r;
      }
      var n := stream.parser.Next();
      if n.Err? {
        return false, Fail(n.failure);
      }
      var name := stream.parser.Name();
      if name.None? {
        return false, Fail(NullReference);
      }
      if name.value == "success" {
        r := SkipTag("success");
        if r.Fail? {
          return false, r;
        }
        stream.loggedIn := true;
        return true, Pass;
      }
      stream.Reject(name.value);
      return false, Pass;
    }

    /** The header again, the restart and the new features. */
    method Restart(a: Inputs) returns (r: Outcome)
      requires Valid()
      modifies stream.parser, stream`out, stream`open, stream`trace
      ensures Valid() && stream.parser.events == [StartDocument] + a.restart
      ensures Restarted(Setup(), a, old(stream.State())) ==
              if r.Fail? then Aborted(stream.State(), r.failure) else Proceeding(stream.State(), stream.parser.pos)
    {
      stream.Send(ClientHeader(stream.to.domain));
      stream.RestartStream(a.restart);
      r := SkipTag("features");
    }

    /** The text of the bind request, built as an `Iq` object. */
    static method BindText(from: Jid, id: string) returns (s: string)
      ensures s == BindXml(from, id)
    {
      var bind := new Iqs.Iq(id);
      bind.stanza.stanzaType := Some(Iqs.TypeSet);
      var resource := BindResource(from);
      bind.AddChild(Binding(resource, None));
      var t := bind.ToString();
      s := t.value;
    }

    /** The bind request, on the writer of the restarted stream. */
    method RequestBinding(a: Inputs, s: string)
      requires stream.from.Some? && stream.open
      modifies stream`out, stream`childParsers, stream`pending
      ensures stream.State() == BindRequest(Setup(), a, s, old(stream.State()))
      ensures stream.childParsers == old(stream.childParsers)[BindXmlns := ExternalParser(BindXmlns, a.binder)]
    {
      stream.AddChildParser(ExternalParser(BindXmlns, a.binder));
      stream.AddCorrelated(Some(stream.to.domain), Some(a.bindId), me);
      // The writer of the restarted stream is open: the write goes through.
      stream.out := stream.out + [s];
    }

    /** The restart and the bind request. */
    method Bind(a: Inputs) returns (r: Outcome)
      requires Valid()
      modifies stream.parser, stream`out, stream`open, stream`trace, stream`childParsers, stream`pending
      ensures Valid() && stream.parser.events == [StartDocument] + a.restart
      ensures BindPhase(Setup(), a, old(stream.State())) ==
              if r.Fail? then Aborted(stream.State(), r.failure) else Proceeding(stream.State(), stream.parser.pos)
      ensures stream.childParsers ==
              if r.Pass? then old(stream.childParsers)[BindXmlns := ExternalParser(BindXmlns, a.binder)]
              else old(stream.childParsers)
    {
      r := Restart(a);
      if r.Pass? {
        var s := BindText(stream.from.value, a.bindId);
        RequestBinding(a, s);
      }
    }

    /** The handshake after the features. */
    method Continue(a: Inputs) returns (r: Outcome)
      requires Valid()
      modifies stream.parser, stream`out, stream`open, stream`loggedIn, stream`trace, stream`childParsers, stream`pending
      ensures Valid()
      ensures var e := Credentials(Setup(), a, old(stream.parser.events), old(stream.parser.pos), old(stream.State()));
        stream.State() == e.phase.wire && (r.Fail? <==> e.phase.Aborted?) && (r.Fail? ==> r.failure == e.phase.failure) &&
        (!e.phase.Aborted? ==> stream.parser.pos == e.phase.pos) &&
        stream.parser.events == (if e.restarted then [StartDocument] + a.restart else old(stream.parser.events)) &&
        stream.childParsers == if e.phase.Proceeding? then old(stream.childParsers)[BindXmlns := ExternalParser(BindXmlns, a.binder)]
                               else old(stream.childParsers)
    {
      var go;
      go, r := Authenticate(a);
      if go {
        r := Bind(a);
      }
    }

    /** `handshake()`. */
    method Handshake(a: Inputs) returns (r: Outcome)
      requires Valid()
      modifies stream.parser, stream`out, stream`open, stream`loggedIn, stream`trace, stream`childParsers, stream`pending
      ensures Valid()
      ensures var e := Login(Setup(), a, old(stream.parser.events), old(stream.parser.pos), old(stream.State()));
        stream.State() == e.phase.wire && (r.Fail? <==> e.phase.Aborted?) && (r.Fail? ==> r.failure == e.phase.failure) &&
        (!e.phase.Aborted? ==> stream.parser.pos == e.phase.pos) &&
        stream.parser.events == (if e.restarted then [StartDocument] + a.restart else old(stream.parser.events)) &&
        stream.childParsers == if e.phase.Proceeding? then old(stream.childParsers)[BindXmlns := ExternalParser(BindXmlns, a.binder)]
                               else old(stream.childParsers)
    {
      var go;
      go, r := Greet(a);
      if go {
        r := Continue(a);
      }
    }

    /** `session()`: `send` reports its own failures. */
    method Session()
      modifies stream`out, stream`open, stream`trace
      ensures stream.State() == Sent(stream.streamLs, old(stream.State()), SessionXml)
    {
      stream.Send(SessionXml);
    }

    /** `onIq(iq)`, on the iq's children. */
    method OnIq(childs: seq<Extension>) returns (r: Result<bool>)
      requires stream.from.Some?
      modifies stream`from, stream`out, stream`open, stream`trace
      ensures stream.from.Some?
      ensures (stream.from.value, stream.State(), r) == IqAnswer(stream.streamLs, old(stream.from.value), childs, old(stream.State()))
    {
      if childs == [] {
        return Ok(false);
      }
      var ns := XmlnsOf(childs[0]);
      if ns == BindXmlns {
        match childs[0]
        case Binding(_, jid) =>
          if jid.Some? {
            stream.from := Some(WithResource(stream.from.value, jid.value.resource));
          }
          stream.NotifyAll(stream.streamLs, Ready);
          Session();
          return Ok(true);
        case _ =>
          return Err(CastFault);
      }
      return Ok(ns == NsSession);
    }
  }
}
