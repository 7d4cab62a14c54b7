/** The incoming server-to-server stream (`src/main/java/com/juick/xmpp/StreamServer.java`).

    It answers the peer's stream header with its own, offering starttls when
    it can, records the peer domains that passed dialback (`fromJids`), and
    routes the peer's stanzas only when their addresses are checked against
    that record. Every way out of its read loop closes the stream. */
module StreamServers {
  import opened Wrappers
  import opened XmlPull
  import opened XmlUtils
  import opened Text
  import opened Addresses
  import opened Streams
  import ServerDialbacks

  const NsServer: string := "jabber:server"

  // ---------------------------------------------------------------------
  // The opening header
  // ---------------------------------------------------------------------

  /** The stream header this server sends: its own address and the stream id. */
  function Header(self: string, streamId: string): string
  {
    "<?xml version='1.0'?><stream:stream xmlns='" + NsServer + "' xmlns:stream='" + NsStream +
    "' xmlns:db='" + ServerDialbacks.NsDb + "' from='" + self + "' id='" + streamId + "' version='1.0'>"
  }

  const TlsOffer: string := "<starttls xmlns=\"" + ServerDialbacks.NsTls + "\"><optional/></starttls>"

  /** Whether starttls goes into the features: a connection listener is set,
      the stream is not secured yet and the peer is not a host known to
      break on TLS. The list of such hosts is only looked at when the first
      two hold, and a missing list then throws. */
  function TlsOffered(hasListener: bool, secured: bool, broken: Option<seq<string>>, peer: Option<string>): (r: Result<bool>)
    ensures r.Err? <==> hasListener && !secured && broken.None?
    ensures r.Err? ==> r.failure == NullReference
    ensures r == Ok(true) <==> hasListener && !secured && broken.Some? && !(peer.Some? && peer.value in broken.value)
  {
    if hasListener && !secured then
      if broken.None? then Err(NullReference)
      else Ok(!(peer.Some? && peer.value in broken.value))
    else Ok(false)
  }

  /** `sendOpenStream`: the header, then the features for a peer that
      announced a version, with starttls in them when offered. */
  function OpenStream(self: string, streamId: string, versionNew: bool, offer: bool): string
  {
    Header(self, streamId) +
    (if versionNew then "<stream:features>" + (if offer then TlsOffer else "") + "</stream:features>" else "")
  }

  /** `sendOpenStream(peer, versionNew)` on wire `w`, for a stream in state
      `p`: it throws before writing when it needs the list of hosts that
      break on TLS and there is none. */
  function Opening(ls: seq<ListenerId>, p: Peer, broken: Option<seq<string>>, peer: Option<string>,
                   versionNew: bool, w: Wire): (Wire, Outcome)
  {
    var offered := TlsOffered(p.hasListener, p.secured, broken, peer);
    if versionNew && offered.Err? then (w, Fail(NullReference))
    else (Sent(ls, w, OpenStream(p.self, OrNull(p.streamId), versionNew, versionNew && offered.value)), Pass)
  }

  /** The opening always starts with the header, and the peer can tell from
      it whether features and starttls were offered. */
  lemma OpenStreamTells(self: string, id: string, v: bool, o: bool, v': bool, o': bool)
    ensures IsPrefix(Header(self, id), OpenStream(self, id, v, o))
    ensures OpenStream(self, id, v, o) == OpenStream(self, id, v', o') ==> v == v' && (v ==> o == o')
  {
    var h := Header(self, id);
    assert OpenStream(self, id, v, o)[..|h|] == h;
    if OpenStream(self, id, v, o) == OpenStream(self, id, v', o') {
      assert |OpenStream(self, id, v, o)| == |OpenStream(self, id, v', o')|;
    }
  }

  // ---------------------------------------------------------------------
  // Dialback results and the address check
  // ---------------------------------------------------------------------

  /** The dialback result this server sends for `peer`. */
  function ResultXml(self: string, peer: Jid, resultType: Option<string>): string
  {
    "<db:result from='" + self + "' to='" + ToEscapedString(peer) + "' type='" + OrNull(resultType) + "'/>"
  }

  /** Java's `StringUtils.isNotEmpty`. */
  predicate NotEmpty(s: Option<string>)
  {
    s.Some? && s.value != ""
  }

  /** `checkFromTo`: both addresses given, the stanza is for this domain, and
      the sender's domain passed dialback. */
  predicate Admitted(self: string, fromJids: seq<Jid>, cfrom: Option<string>, cto: Option<string>)
  {
    NotEmpty(cfrom) && NotEmpty(cto) && Of(cto.value).domain == self &&
    Of(Of(cfrom.value).domain) in fromJids
  }

  /** A recorded domain admits exactly the stanzas from its own addresses
      (besides those already admitted): a valid dialback result for a domain
      admits its stanzas to this server, and no other stanza. */
  lemma AdmittedAfterResult(self: string, fromJids: seq<Jid>, peer: Jid, cfrom: Option<string>, cto: Option<string>)
    ensures Admitted(self, fromJids + [peer], cfrom, cto) <==>
            Admitted(self, fromJids, cfrom, cto) ||
            (NotEmpty(cfrom) && NotEmpty(cto) && Of(cto.value).domain == self && Of(Of(cfrom.value).domain) == peer)
  {
  }

  /** A stanza from a domain that never passed dialback is refused. */
  lemma NoResultNoAdmission(self: string, cfrom: Option<string>, cto: Option<string>)
    ensures !Admitted(self, [], cfrom, cto)
  {
  }

  // ---------------------------------------------------------------------
  // The read loop
  // ---------------------------------------------------------------------

  /** The answer to a dialback verify request: addresses swapped, the id
      echoed; `valid` is the outcome of the key check. */
  function VerifyReply(vfrom: Option<string>, vto: Option<string>, vid: Option<string>, valid: bool): string
  {
    "<db:verify from='" + OrNull(vto) + "' to='" + OrNull(vfrom) + "' id='" + OrNull(vid) + "' " +
    (if valid then "type='valid'/>" else "type='invalid'/>")
  }

  /** What the loop reads its rules from: this server's address, the domains
      that passed dialback, whether the stream is secured, whether a
      connection listener is set, and the stream id. */
  datatype Peer = Peer(self: string, fromJids: seq<Jid>, secured: bool, hasListener: bool, streamId: Option<string>)

  /** What one start tag does to the loop: go on from a position, or leave
      the loop (a `break`, or an exception, which is caught). */
  datatype Turn = Go(wire: Wire, next: nat) | Halt(wire: Wire)

  function Routed(r: Result<(Wire, nat)>, w: Wire): Turn
  {
    match r
    case Err(_) => Halt(w)
    case Ok((w', k)) => Go(w', k)
  }

  /** A dialback `result` from the peer. */
  function ResultStep(p: Peer, events: seq<Event>, j: nat, w: Wire): (r: Turn)
    requires j < |events| && events[j].StartTag?
    ensures r.Go? ==> j < r.next < |events| && r.wire == w
  {
    var e := events[j];
    match AttrOf(e, "from")
    case None => Halt(w)
    case Some(dfrom) =>
      if EndsWith(dfrom, p.self) && (dfrom == p.self || EndsWith(dfrom, "." + p.self)) then Halt(w)
      else if AttrOf(e, "to") == Some(p.self) then
        match TagText(events, j)
        case Err(_) => Halt(w)
        case Ok((_, k)) => Go(w, k)
      else Halt(w)
  }

  /** A dialback `verify` request from the peer. */
  function VerifyStep(ls: seq<ListenerId>, events: seq<Event>, j: nat, w: Wire): (r: Turn)
    requires j < |events| && events[j].StartTag?
    ensures r.Go? ==> j < r.next < |events|
  {
    var e := events[j];
    match TagText(events, j)
    case Err(_) => Halt(w)
    case Ok((_, k)) =>
      // The lookup of the key this server handed out is disabled, so the
      // key is never found valid.
      Go(Sent(ls, w, VerifyReply(AttrOf(e, "from"), AttrOf(e, "to"), AttrOf(e, "id"), false)), k)
  }

  /** The routed branches: a presence, message or iq read and handed on. */
  function RouteRead(c: Config, events: seq<Event>, j: nat, w: Wire): (r: Result<(Wire, nat)>)
    requires j < |events| && events[j].StartTag?
    ensures r.Ok? ==> j < r.value.1 < |events|
  {
    if events[j].name == "presence" then PresenceRead(c.presenceLs, c.table, events, j, w)
    else if events[j].name == "message" then MessageRead(c.messageLs, events, j, w)
    else IqRead(c, events, j, w)
  }

  /** The branches after the dialback and routed ones: starttls, a secured
      stream's new header, a stream error, and anything else, which is read
      and dropped. */
  function OtherStep(ls: seq<ListenerId>, p: Peer, events: seq<Event>, j: nat, w: Wire): (r: Turn)
    requires j < |events| && events[j].StartTag?
    ensures r.Go? ==> j <= r.next < |events|
  {
    var e := events[j];
    var tag := e.name;
    if !p.secured && tag == "starttls" then
      if p.hasListener then Go(w.(trace := w.trace + [Signalled(StartTls)]), j) else Halt(w)
    else if p.secured && tag == "stream" && e.ns == NsStream then
      // A secured stream offers no starttls, so the host lists are not read.
      Go(Sent(ls, w, OpenStream(p.self, OrNull(p.streamId), true, false)), j)
    else if tag == "error" then
      match ErrorRead(ls, events, j, w)
      case Err(_) => Halt(w)
      case Ok((w', k)) => Go(Closed(ls, w'), k)
    else
      match Render(events, j, true)
      case Err(_) => Halt(w)
      case Ok((_, k)) => Go(w, k)
  }

  /** The branches of `parse` on a start tag, in their order; presence,
      message and iq are routed only when their addresses pass the check. */
  function ServerStep(c: Config, p: Peer, events: seq<Event>, j: nat, w: Wire): (r: Turn)
    requires j < |events| && events[j].StartTag?
    ensures r.Go? ==> j <= r.next < |events|
  {
    var e := events[j];
    var tag := e.name;
    if tag == "result" && e.ns == ServerDialbacks.NsDb then ResultStep(p, events, j, w)
    else if tag == "verify" && e.ns == ServerDialbacks.NsDb then VerifyStep(c.streamLs, events, j, w)
    else if tag in {"presence", "message", "iq"} && Admitted(p.self, p.fromJids, AttrOf(e, "from"), AttrOf(e, "to")) then
      Routed(RouteRead(c, events, j, w), w)
    else OtherStep(c.streamLs, p, events, j, w)
  }

  /** Where one turn of the loop of `parse` leaves it: going on from a
      position, or done, with the wire and the count of start tags. */
  datatype Progress = More(next: nat, wire: Wire, count: nat) | Done(wire: Wire, count: nat)

  /** One turn of the loop of `parse` from position `i`, with `n` start
      tags counted so far: the next event is read, and a start tag is
      counted and handled. The end of the document, a `break` and every
      exception end the loop. */
  function TurnAt(c: Config, p: Peer, events: seq<Event>, i: nat, w: Wire, n: nat): (r: Progress)
    requires i < |events|
    ensures r.More? ==> i < r.next < |events|
    ensures n <= r.count <= n + 1
  {
    match Step(events, i)
    case Err(_) => Done(w, n)
    case Ok(j) =>
      if events[j].EndDocument? then Done(w, n)
      else if !events[j].StartTag? then More(j, w, n)
      else
        match ServerStep(c, p, events, j, w)
        case Halt(w') => Done(w', n + 1)
        case Go(w', k) => More(k, w', n + 1)
  }

  /** The loop of `parse` from position `i`: the final state and count.
      Whichever way it ends, `close()` follows. */
  function ServerLoop(c: Config, p: Peer, events: seq<Event>, i: nat, w: Wire, n: nat): (Wire, nat)
    requires i < |events|
    decreases |events| - i
  {
    match TurnAt(c, p, events, i, w, n)
    case Done(w', m) => (Closed(c.streamLs, w'), m)
    case More(k, w', m) => ServerLoop(c, p, events, k, w', m)
  }

  /** However the loop ends, the stream is closed and logged out, and the
      count of start tags only grows. */
  lemma {:induction false} ServerLoopCloses(c: Config, p: Peer, events: seq<Event>, i: nat, w: Wire, n: nat)
    requires i < |events|
    ensures var (r, m) := ServerLoop(c, p, events, i, w, n); !r.open && !r.loggedIn && n <= m
    decreases |events| - i
  {
    match TurnAt(c, p, events, i, w, n)
    case Done(w', m) => CloseEndsSession(c.streamLs, w');
    case More(k, w', m) => ServerLoopCloses(c, p, events, k, w', m);
  }

  /** A presence, message or iq whose addresses fail the check is not
      routed: it is read as an unhandled element, and nobody is called. */
  lemma UncheckedNotRouted(c: Config, p: Peer, events: seq<Event>, j: nat, w: Wire)
    requires j < |events| && events[j].StartTag?
    requires events[j].name in {"presence", "message", "iq"}
    requires !Admitted(p.self, p.fromJids, AttrOf(events[j], "from"), AttrOf(events[j], "to"))
    ensures ServerStep(c, p, events, j, w).wire == w
  {
  }

  /** A dialback result claiming to come from this very domain, or from a
      sub-domain of it, ends the loop. */
  lemma OwnDomainResultHalts(c: Config, p: Peer, events: seq<Event>, j: nat, w: Wire)
    requires j < |events| && events[j].StartTag?
    requires events[j].name == "result" && events[j].ns == ServerDialbacks.NsDb
    requires AttrOf(events[j], "from").Some?
    requires var dfrom := AttrOf(events[j], "from").value; dfrom == p.self || EndsWith(dfrom, "." + p.self)
    ensures ServerStep(c, p, events, j, w) == Halt(w)
  {
    var dfrom := AttrOf(events[j], "from").value;
    if dfrom != p.self {
      assert dfrom[|dfrom| - |p.self|..] == dfrom[|dfrom| - |"." + p.self|..][1..];
    }
  }

  /** Every dialback verify request that is read to its end is answered
      with `type='invalid'`, with the addresses swapped and the id echoed. */
  lemma VerifyAlwaysInvalid(c: Config, p: Peer, events: seq<Event>, j: nat, w: Wire)
    requires j < |events| && events[j].StartTag?
    requires events[j].name == "verify" && events[j].ns == ServerDialbacks.NsDb
    requires TagText(events, j).Ok?
    ensures var e := events[j];
      ServerStep(c, p, events, j, w) ==
        Go(Sent(c.streamLs, w, VerifyReply(AttrOf(e, "from"), AttrOf(e, "to"), AttrOf(e, "id"), false)), TagText(events, j).value.1)
    ensures forall vfrom, vto, vid :: EndsWith(VerifyReply(vfrom, vto, vid, false), "type='invalid'/>")
  {
    forall vfrom, vto, vid ensures EndsWith(VerifyReply(vfrom, vto, vid, false), "type='invalid'/>") {
      SuffixOfConcat("<db:verify from='" + OrNull(vto) + "' to='" + OrNull(vfrom) + "' id='" + OrNull(vid) + "' ", "type='invalid'/>");
    }
  }

  // ---------------------------------------------------------------------
  // The handshake
  // ---------------------------------------------------------------------

  /** The state `handshake` leaves: the wire, the stream id, and how it ended. */
  datatype Greeted = Greeted(wire: Wire, streamId: Option<string>, outcome: Outcome)

  /** The end of `handshake`, once the stream id is set: a banned peer is
      closed on, any other gets the opening. A missing ban list throws. */
  function Admission(ls: seq<ListenerId>, p: Peer, banned: Option<seq<string>>, broken: Option<seq<string>>,
                     peer: Option<string>, versionNew: bool, w: Wire): (Wire, Outcome)
  {
    if banned.None? then (w, Fail(NullReference))
    else if peer.Some? && peer.value in banned.value then (Closed(ls, w), Pass)
    else Opening(ls, p, broken, peer, versionNew, w)
  }

  /** The part of `handshake` after the header check: the stream id (the
      peer's, or a fresh one), then the admission. */
  function AnswerAt(ls: seq<ListenerId>, p: Peer, banned: Option<seq<string>>, broken: Option<seq<string>>,
                    e: Event, w: Wire, uuid: string): Greeted
    requires e.StartTag?
  {
    var id := if AttrOf(e, "id").Some? then AttrOf(e, "id").value else uuid;
    var (w', outcome) := Admission(ls, p.(streamId := Some(id)), banned, broken, AttrOf(e, "from"), AttrOf(e, "version").Some?, w);
    Greeted(w', Some(id), outcome)
  }

  /** The connection failure of a header that is not a stream header. */
  function InvalidStream(self: string): Failure
  {
    Raised("stream from " + self + " invalid")
  }

  /** What `handshake` throws on a header that is not a start tag: a text
      or document event has no name to compare, an end tag named `stream`
      binds no `stream` prefix, and any other end tag, once the connection
      was failed, has no attributes to read the id from. */
  function HeaderFault(e: Event): (r: Failure)
    requires !e.StartTag?
    ensures r == NullReference <==> NameOf(e).None? || NameOf(e) == Some("stream")
    ensures r != NullReference ==> r == NoAttributes
  {
    if e.EndTag? && e.name != "stream" then NoAttributes else NullReference
  }

  /** The wire once `handshake` has read a header that is not a start tag:
      an end tag of another name fails the connection before the attribute
      read throws; an event without a name throws at once. */
  function FaultWire(ls: seq<ListenerId>, p: Peer, e: Event, w: Wire): (r: Wire)
    requires !e.StartTag?
    ensures HeaderFault(e) == NoAttributes ==> r == Failing(ls, w, InvalidStream(p.self))
    ensures HeaderFault(e) == NullReference ==> r == w
  {
    if e.EndTag? && e.name != "stream" then Failing(ls, w, InvalidStream(p.self)) else w
  }

  /** `handshake` after the peer's header `e` was read: a wrong header fails
      the connection, but the handshake goes on. */
  function GreetingAt(ls: seq<ListenerId>, p: Peer, banned: Option<seq<string>>, broken: Option<seq<string>>,
                      e: Event, w: Wire, uuid: string): Greeted
  {
    if !e.StartTag? then Greeted(FaultWire(ls, p, e, w), p.streamId, Fail(HeaderFault(e)))
    else if e.name == "stream" && NamespaceOf(e, "stream").None? then Greeted(w, p.streamId, Fail(NullReference))
    else if e.name != "stream" || NamespaceOf(e, "stream") != Some(NsStream) then
      AnswerAt(ls, p, banned, broken, e, Failing(ls, w, InvalidStream(p.self)), uuid)
    else AnswerAt(ls, p, banned, broken, e, w, uuid)
  }

  /** The stream id is the peer's when it sent one, a fresh one otherwise. */
  lemma GreetingStreamId(ls: seq<ListenerId>, p: Peer, banned: Option<seq<string>>, broken: Option<seq<string>>,
                         e: Event, w: Wire, uuid: string)
    requires e.StartTag? && !(e.name == "stream" && NamespaceOf(e, "stream").None?)
    ensures GreetingAt(ls, p, banned, broken, e, w, uuid).streamId ==
            Some(if AttrOf(e, "id").Some? then AttrOf(e, "id").value else uuid)
  {
  }

  /** A banned peer is closed on and gets no header: the only thing written
      is the closing tag. */
  lemma BannedGetsNoHeader(ls: seq<ListenerId>, p: Peer, banned: seq<string>, broken: Option<seq<string>>,
                           e: Event, w: Wire, uuid: string)
    requires e.StartTag? && !(e.name == "stream" && NamespaceOf(e, "stream").None?)
    requires AttrOf(e, "from").Some? && AttrOf(e, "from").value in banned
    ensures var g := GreetingAt(ls, p, Some(banned), broken, e, w, uuid);
      g.outcome == Pass && !g.wire.open && !g.wire.loggedIn &&
      (g.wire.out == w.out || g.wire.out == w.out + [StreamEnd])
  {
    var w1 := if e.name != "stream" || NamespaceOf(e, "stream") != Some(NsStream)
              then Failing(ls, w, InvalidStream(p.self)) else w;
    CloseEndsSession(ls, w1);
  }

  /** A valid header from a peer that is not banned is answered with the
      opening of this side, and the connection is not failed. */
  lemma ValidHeaderAnswered(ls: seq<ListenerId>, p: Peer, banned: seq<string>, broken: seq<string>,
                            e: Event, w: Wire, uuid: string)
    requires e.StartTag? && e.name == "stream" && NamespaceOf(e, "stream") == Some(NsStream) && w.open
    requires !(AttrOf(e, "from").Some? && AttrOf(e, "from").value in banned)
    ensures var g := GreetingAt(ls, p, Some(banned), Some(broken), e, w, uuid);
      var v := AttrOf(e, "version").Some?;
      g.outcome == Pass && g.wire.trace == w.trace &&
      g.wire.out == w.out + [OpenStream(p.self, g.streamId.value, v,
                                        v && TlsOffered(p.hasListener, p.secured, Some(broken), AttrOf(e, "from")) == Ok(true))]
  {
  }

  // ---------------------------------------------------------------------
  // The stream object
  // ---------------------------------------------------------------------

  class StreamServer {
    const stream: Stream
    var fromJids: seq<Jid>
    var streamId: Option<string>
    var secured: bool
    var hasListener: bool
    var brokenSslHosts: Option<seq<string>>
    var bannedHosts: Option<seq<string>>
    var packetsRemote: nat

    ghost predicate Valid()
      reads stream.parser, stream`streamLs, stream`messageLs, stream`presenceLs, stream`iqLs, stream`from
    {
      stream.Valid() && stream.from.Some?
    }

    /** A server stream from this server's address `from` to the peer. */
    constructor (from: Jid, to: Jid, input: seq<Event>)
      ensures Valid() && fresh(stream) && fresh(stream.parser)
      ensures stream.from == Some(from) && stream.to == to && stream.parser.events == [StartDocument] + input
      ensures stream.State() == Wire([], true, false, [], map[])
      ensures fromJids == [] && streamId.None? && !secured && !hasListener
      ensures brokenSslHosts.None? && bannedHosts.None? && packetsRemote == 0
    {
      stream := new Stream(Some(from), to, input);
      fromJids := [];
      streamId := None;
      secured := false;
      hasListener := false;
      brokenSslHosts := None;
      bannedHosts := None;
      packetsRemote := 0;
    }

    function Self(): string
      reads stream`from
      requires stream.from.Some?
    {
      ToEscapedString(stream.from.value)
    }

    function PeerOf(): Peer
      reads stream`from, this`fromJids, this`secured, this`hasListener, this`streamId
      requires stream.from.Some?
    {
      Peer(Self(), fromJids, secured, hasListener, streamId)
    }

    /** `setListener`: whether a connection listener is set. */
    method SetListener(present: bool)
      modifies this`hasListener
      ensures hasListener == present
    {
      hasListener := present;
    }

    method SetBrokenSslHosts(hosts: Option<seq<string>>)
      modifies this`brokenSslHosts
      ensures brokenSslHosts == hosts
    {
      brokenSslHosts := hosts;
    }

    method SetBannedHosts(hosts: Option<seq<string>>)
      modifies this`bannedHosts
      ensures bannedHosts == hosts
    {
      bannedHosts := hosts;
    }

    /** `sendOpenStream(fromJid, xmppversionnew)`. */
    method SendOpenStream(peer: Option<string>, versionNew: bool) returns (r: Outcome)
      requires Valid()
      modifies stream`out, stream`open, stream`trace
      ensures (stream.State(), r) == Opening(stream.streamLs, PeerOf(), brokenSslHosts, peer, versionNew, old(stream.State()))
    {
      var offer := false;
      if versionNew {
        if hasListener && !secured {
          if brokenSslHosts.None? {
            return Fail(NullReference);
          }
          offer := !(peer.Some? && peer.value in brokenSslHosts.value);
        }
      }
      stream.Send(OpenStream(Self(), OrNull(streamId), versionNew, offer));
      return Pass;
    }

    /** `handshake()` once the peer's header `e` was read. */
    method Greet(e: Event, uuid: string) returns (r: Outcome)
      requires Valid()
      modifies stream`out, stream`open, stream`trace, stream`loggedIn, this`streamId
      ensures Greeted(stream.State(), streamId, r) ==
              GreetingAt(stream.streamLs, old(PeerOf()), bannedHosts, brokenSslHosts, e, old(stream.State()), uuid)
    {
      if !e.StartTag? {
        if e.EndTag? && e.name != "stream" {
          stream.ConnectionFailed(InvalidStream(Self()));
        }
        return Fail(HeaderFault(e));
      }
      if e.name == "stream" && NamespaceOf(e, "stream").None? {
        return Fail(NullReference);
      }
      if e.name != "stream" || NamespaceOf(e, "stream") != Some(NsStream) {
        stream.ConnectionFailed(InvalidStream(Self()));
      }
      r := Answer(e, uuid);
    }

    /** The rest of `handshake()`: the stream id, then the admission. */
    method Answer(e: Event, uuid: string) returns (r: Outcome)
      requires Valid() && e.StartTag?
      modifies stream`out, stream`open, stream`trace, stream`loggedIn, this`streamId
      ensures Greeted(stream.State(), streamId, r) ==
              AnswerAt(stream.streamLs, old(PeerOf()), bannedHosts, brokenSslHosts, e, old(stream.State()), uuid)
    {
      streamId := AttrOf(e, "id");
      if streamId.None? {
        streamId := Some(uuid);
      }
      r := Admit(AttrOf(e, "from"), AttrOf(e, "version").Some?);
    }

    /** The ban check of `handshake()`, then the opening. */
    method Admit(peer: Option<string>, versionNew: bool) returns (r: Outcome)
      requires Valid()
      modifies stream`out, stream`open, stream`trace, stream`loggedIn
      ensures (stream.State(), r) ==
              Admission(stream.streamLs, PeerOf(), bannedHosts, brokenSslHosts, peer, versionNew, old(stream.State()))
    {
      if bannedHosts.None? {
        return Fail(NullReference);
      }
      if peer.Some? && peer.value in bannedHosts.value {
        stream.Close();
        return Pass;
      }
      r := SendOpenStream(peer, versionNew);
    }

    /** `handshake()`: the peer's header is read, then answered. */
    method Handshake(uuid: string) returns (r: Outcome)
      requires Valid()
      modifies stream.parser, stream`out, stream`open, stream`trace, stream`loggedIn, this`streamId
      ensures Valid() && stream.parser.events == old(stream.parser.events)
      ensures var s := Step(stream.parser.events, old(stream.parser.pos));
        if s.Err? then r == Fail(s.failure) && stream.State() == old(stream.State()) && streamId == old(streamId)
        else stream.parser.pos == s.value &&
             Greeted(stream.State(), streamId, r) ==
             GreetingAt(stream.streamLs, old(PeerOf()), bannedHosts, brokenSslHosts, stream.parser.events[s.value], old(stream.State()), uuid)
    {
      var n := stream.parser.Next();
      if n.Err? {
        return Fail(n.failure);
      }
      r := Greet(stream.parser.Current(), uuid);
    }

    /** `sendDialbackResult(sfrom, type)`: the result is sent, and a valid
        one records the peer; the type is compared after the send, so a
        missing type throws only then. */
    method SendDialbackResult(peer: Jid, resultType: Option<string>) returns (r: Outcome)
      requires Valid()
      modifies stream`out, stream`open, stream`trace, this`fromJids
      ensures stream.State() == Sent(stream.streamLs, old(stream.State()), ResultXml(Self(), peer, resultType))
      ensures fromJids == if resultType == Some("valid") then old(fromJids) + [peer] else old(fromJids)
      ensures r == if resultType.None? then Fail(NullReference) else Pass
    {
      stream.Send(ResultXml(Self(), peer, resultType));
      if resultType.None? {
        return Fail(NullReference);
      }
      if resultType.value == "valid" {
        fromJids := fromJids + [peer];
      }
      return Pass;
    }

    /** `checkFromTo(parser)`: the loop over the recorded domains. */
    method CheckFromTo(cfrom: Option<string>, cto: Option<string>) returns (r: bool)
      requires stream.from.Some?
      ensures r == Admitted(Self(), fromJids, cfrom, cto)
    {
      if NotEmpty(cfrom) && NotEmpty(cto) {
        var jidTo := Of(cto.value);
        if jidTo.domain == Self() {
          var jidFrom := Of(cfrom.value);
          var sender := Of(jidFrom.domain);
          for k := 0 to |fromJids|
            invariant sender !in fromJids[..k]
          {
            if fromJids[k] == sender {
              return true;
            }
          }
          assert fromJids[..|fromJids|] == fromJids;
        }
      }
      return false;
    }

    /** The dialback `result` branch of `parse`. */
    method DialbackResult() returns (go: bool)
      requires Valid() && stream.parser.Current().StartTag?
      modifies stream.parser
      ensures Valid() && stream.parser.events == old(stream.parser.events)
      ensures ResultStep(PeerOf(), stream.parser.events, old(stream.parser.pos), stream.State()) ==
              if go then Go(stream.State(), stream.parser.pos) else Halt(stream.State())
    {
      var e := stream.parser.Current();
      var dfrom := AttrOf(e, "from");
      if dfrom.None? {
        return false;
      }
      var self := Self();
      if EndsWith(dfrom.value, self) && (dfrom.value == self || EndsWith(dfrom.value, "." + self)) {
        return false;
      }
      if AttrOf(e, "to") == Some(self) {
        var key := GetTagText(stream.parser);
        return key.Ok?;
      }
      return false;
    }

    /** The dialback `verify` branch of `parse`. */
    method DialbackVerify() returns (go: bool)
      requires Valid() && stream.parser.Current().StartTag?
      modifies stream.parser, stream`out, stream`open, stream`trace
      ensures Valid() && stream.parser.events == old(stream.parser.events)
      ensures VerifyStep(stream.streamLs, stream.parser.events, old(stream.parser.pos), old(stream.State())) ==
              if go then Go(stream.State(), stream.parser.pos) else Halt(stream.State())
    {
      var e := stream.parser.Current();
      var key := GetTagText(stream.parser);
      if key.Err? {
        return false;
      }
      var valid := false;
      stream.Send(VerifyReply(AttrOf(e, "from"), AttrOf(e, "to"), AttrOf(e, "id"), valid));
      return true;
    }

    /** The routed branches of `parse`: presence, message and iq. */
    method Route(answer: (ListenerId, Received) -> bool, defaultId: string) returns (go: bool)
      requires Valid() && stream.parser.Current().StartTag?
      requires stream.parser.Current().name in {"presence", "message", "iq"}
      modifies stream.parser, stream`out, stream`open, stream`trace, stream`pending
      ensures Valid() && stream.parser.events == old(stream.parser.events)
      ensures Routed(RouteRead(stream.Cfg(answer), stream.parser.events, old(stream.parser.pos), old(stream.State())), old(stream.State())) ==
              if go then Go(stream.State(), stream.parser.pos) else Halt(stream.State())
    {
      var tag := stream.parser.Current().name;
      var r;
      if tag == "presence" {
        r := stream.Presence(defaultId);
      } else if tag == "message" {
        r := stream.Message();
      } else {
        r := stream.Iq(answer, defaultId);
      }
      go := r.Pass?;
    }

    /** The branches of `parse` that neither read dialback nor route. */
    method Other() returns (go: bool)
      requires Valid() && stream.parser.Current().StartTag?
      modifies stream.parser, stream`out, stream`open, stream`trace, stream`loggedIn
      ensures Valid() && stream.parser.events == old(stream.parser.events)
      ensures OtherStep(stream.streamLs, PeerOf(), stream.parser.events, old(stream.parser.pos), old(stream.State())) ==
              if go then Go(stream.State(), stream.parser.pos) else Halt(stream.State())
    {
      var e := stream.parser.Current();
      if !secured && e.name == "starttls" {
        if !hasListener {
          return false;
        }
        stream.trace := stream.trace + [Signalled(StartTls)];
        return true;
      }
      if secured && e.name == "stream" && e.ns == NsStream {
        stream.Send(OpenStream(Self(), OrNull(streamId), true, false));
        return true;
      }
      if e.name == "error" {
        var r := stream.Error();
        if r.Fail? {
          return false;
        }
        stream.Close();
        return true;
      }
      var s := ParseToString(stream.parser, true);
      return s.Ok?;
    }

    /** One start tag of `parse`. */
    method Element(answer: (ListenerId, Received) -> bool, defaultId: string) returns (go: bool)
      requires Valid() && stream.parser.Current().StartTag?
      modifies stream.parser, stream`out, stream`open, stream`trace, stream`pending, stream`loggedIn
      ensures Valid() && stream.parser.events == old(stream.parser.events)
      ensures ServerStep(stream.Cfg(answer), PeerOf(), stream.parser.events, old(stream.parser.pos), old(stream.State())) ==
              if go then Go(stream.State(), stream.parser.pos) else Halt(stream.State())
    {
      var e := stream.parser.Current();
      if e.name == "result" && e.ns == ServerDialbacks.NsDb {
        go := DialbackResult();
      } else if e.name == "verify" && e.ns == ServerDialbacks.NsDb {
        go := DialbackVerify();
      } else {
        var checked := false;
        if e.name in {"presence", "message", "iq"} {
          checked := CheckFromTo(AttrOf(e, "from"), AttrOf(e, "to"));
        }
        if checked {
          go := Route(answer, defaultId);
        } else {
          go := Other();
        }
      }
    }

    /** One turn of the loop of `parse`: `go` is false when the loop is left,
        and `close()` is then all that is left to do. */
    method Round(answer: (ListenerId, Received) -> bool, defaultId: string) returns (go: bool)
      requires Valid()
      modifies stream.parser, stream`out, stream`open, stream`trace, stream`pending, stream`loggedIn, this`packetsRemote
      ensures Valid() && stream.parser.events == old(stream.parser.events)
      ensures TurnAt(stream.Cfg(answer), PeerOf(), stream.parser.events, old(stream.parser.pos), old(stream.State()), old(packetsRemote)) ==
              if go then More(stream.parser.pos, stream.State(), packetsRemote) else Done(stream.State(), packetsRemote)
    {
      var n := stream.parser.Next();
      if n.Err? {
        return false;
      }
      var e := stream.parser.Current();
      if e.EndDocument? {
        return false;
      }
      if e.StartTag? {
        packetsRemote := packetsRemote + 1;
        go := Element(answer, defaultId);
      } else {
        go := true;
      }
    }

    /** `parse()`: the loop, then `close()`, whichever way it ends. */
    method Parse(answer: (ListenerId, Received) -> bool, defaultId: string)
      requires Valid()
      modifies stream.parser, stream`out, stream`open, stream`trace, stream`pending, stream`loggedIn, this`packetsRemote
      ensures Valid() && stream.parser.events == old(stream.parser.events)
      ensures (stream.State(), packetsRemote) ==
              ServerLoop(stream.Cfg(answer), PeerOf(), stream.parser.events, old(stream.parser.pos), old(stream.State()), old(packetsRemote))
    {
      ghost var goal := ServerLoop(stream.Cfg(answer), PeerOf(), stream.parser.events, stream.parser.pos, stream.State(), packetsRemote);
      var go := true;
      while go
        invariant Valid() && stream.parser.events == old(stream.parser.events)
        invariant go ==> ServerLoop(stream.Cfg(answer), PeerOf(), stream.parser.events, stream.parser.pos, stream.State(), packetsRemote) == goal
        invariant !go ==> (Closed(stream.streamLs, stream.State()), packetsRemote) == goal
        decreases if go then |stream.parser.events| - stream.parser.pos + 1 else 0
      {
        go := Round(answer, defaultId);
      }
      stream.Close();
    }
  }
}
