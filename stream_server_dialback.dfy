/** The outgoing server-to-server stream with dialback
    (`src/main/java/com/juick/xmpp/StreamServerDialback.java`).

    It opens a `jabber:server` stream to the peer, sends the dialback key
    (at once to a peer without a version, otherwise after the features,
    unless it secures the stream first), reports every dialback answer to
    its `ConnectionListener`, and ends with exactly one terminal call on that
    listener. Calls on the listener are `Signalled` notices in the trace;
    what `securing` answers and what the features say are parameters. */
module ServerDialbacks {
  import opened Wrappers
  import opened XmlPull
  import opened XmlUtils
  import opened Text
  import opened Addresses
  import opened Streams

  const NsTls: string := "urn:ietf:params:xml:ns:xmpp-tls"
  const NsDb: string := "jabber:server:dialback"

  // ---------------------------------------------------------------------
  // The dialback key
  // ---------------------------------------------------------------------

  /** The text `generateKey` authenticates: receiving server, originating
      server and stream id, separated by spaces (a null id prints as "null"). */
  function KeyMessage(to: Jid, from: Jid, id: Option<string>): string
  {
    ToEscapedString(to) + " " + ToEscapedString(from) + " " + OrNull(id)
  }

  /** `generateKey(secret, to, from, id)`. `mac(secret, text)` stands for the
      hex HMAC-SHA256 of `text` keyed with the SHA-256 digest of `secret`;
      the digests are not part of this model. */
  function GenerateKey(mac: (string, string) -> string, secret: string, to: Jid, from: Jid, id: Option<string>): string
  {
    mac(secret, KeyMessage(to, from, id))
  }

  /** For addresses without spaces, the text determines the receiving
      server, the originating server and the id: two keys for different
      streams are computed over different texts. */
  lemma KeyMessageInjective(to: Jid, from: Jid, id: Option<string>, to': Jid, from': Jid, id': Option<string>)
    requires ' ' !in ToEscapedString(to) && ' ' !in ToEscapedString(from)
    requires ' ' !in ToEscapedString(to') && ' ' !in ToEscapedString(from')
    ensures KeyMessage(to, from, id) == KeyMessage(to', from', id') <==>
            ToEscapedString(to) == ToEscapedString(to') && ToEscapedString(from) == ToEscapedString(from') &&
            OrNull(id) == OrNull(id')
  {
    var a, b, c := ToEscapedString(to), ToEscapedString(from), OrNull(id);
    var a', b', c' := ToEscapedString(to'), ToEscapedString(from'), OrNull(id');
    assert KeyMessage(to, from, id) == a + [' '] + (b + [' '] + c);
    assert KeyMessage(to', from', id') == a' + [' '] + (b' + [' '] + c');
    SplitAtSeparator(a, b + [' '] + c, a', b' + [' '] + c', ' ');
    SplitAtSeparator(b, c, b', c', ' ');
  }

  /** The key the constructor makes when none is given is computed before
      the stream id is set: it is the key of a stream whose id is the text
      "null", and its text ends so. */
  lemma ConstructorKeyUsesNullId(mac: (string, string) -> string, secret: string, to: Jid, from: Jid)
    ensures GenerateKey(mac, secret, to, from, None) == GenerateKey(mac, secret, to, from, Some("null"))
    ensures EndsWith(KeyMessage(to, from, None), " null")
  {
    assert KeyMessage(to, from, None) == ToEscapedString(to) + " " + ToEscapedString(from) + " null";
    SuffixOfConcat(ToEscapedString(to) + " " + ToEscapedString(from), " null");
  }

  // ---------------------------------------------------------------------
  // What the stream writes
  // ---------------------------------------------------------------------

  /** The opening header: the stream id, this server and the peer. */
  function Header(id: Option<string>, self: string, peer: string): string
  {
    "<?xml version='1.0'?><stream:stream xmlns='jabber:server' id='" + OrNull(id) +
    "' xmlns:stream='" + NsStream + "' xmlns:db='" + NsDb + "' from='" + self + "' to='" + peer + "' version='1.0'>"
  }

  /** The dialback result carrying the key. */
  function ResultXml(self: string, peer: string, key: Option<string>): string
  {
    "<db:result from='" + self + "' to='" + peer + "'>" + OrNull(key) + "</db:result>"
  }

  /** `sendDialbackVerify(sid, key)`: the verify request. */
  function VerifyXml(self: string, peer: string, sid: Option<string>, key: Option<string>): string
  {
    "<db:verify from='" + self + "' to='" + peer + "' id='" + OrNull(sid) + "'>" + OrNull(key) + "</db:verify>"
  }

  const StartTlsXml: string := "<starttls xmlns=\"" + NsTls + "\" />"

  /** What the handshake reads its rules from: the stream listeners, this
      server and the peer, whether the stream is secured, whether a
      connection listener is set, the stream id to check and the key. */
  datatype Link = Link(ls: seq<ListenerId>, self: string, peer: string, secured: bool, hasListener: bool,
                       checkSid: Option<string>, dbKey: Option<string>)

  /** What the peer side brings: the answer of the listener's `securing`,
      and what the features say. */
  datatype Answers = Answers(securing: bool, features: FeaturesOf)

  /** `processDialback()`: the verify request when there is a stream id to
      check, then the result with the key. */
  function Dialback(l: Link, w: Wire): Wire
  {
    var w1 := if l.checkSid.Some? then Sent(l.ls, w, VerifyXml(l.self, l.peer, l.checkSid, l.dbKey)) else w;
    Sent(l.ls, w1, ResultXml(l.self, l.peer, l.dbKey))
  }

  /** On an open writer, `processDialback` writes the verify request first
      exactly when there is a stream id to check, and always the result with
      the key last; nobody is called. */
  lemma DialbackSends(l: Link, w: Wire)
    requires w.open
    ensures var r := Dialback(l, w);
      r.out == w.out + (if l.checkSid.Some? then [VerifyXml(l.self, l.peer, l.checkSid, l.dbKey)] else []) +
               [ResultXml(l.self, l.peer, l.dbKey)] &&
      r.trace == w.trace && r.open && r.loggedIn == w.loggedIn && r.pending == w.pending
  {
  }

  // ---------------------------------------------------------------------
  // The read loop
  // ---------------------------------------------------------------------

  /** What the handshake changes besides the wire: the stream id and
      `streamReady`. */
  datatype Dial = Dial(wire: Wire, streamId: Option<string>, ready: bool)

  /** A call on the connection listener. */
  function Told(d: Dial, s: Signal): Dial
  {
    d.(wire := d.wire.(trace := d.wire.trace + [Signalled(s)]))
  }

  /** What one start tag does: go on from a position, or throw (the state
      is then the one at the throw). */
  datatype Move = Go(dial: Dial, next: nat) | Thrown(dial: Dial, failure: Failure)

  function SkipThen(events: seq<Event>, j: nat, d: Dial): (r: Move)
    requires j < |events| && events[j].StartTag?
    ensures r.Go? ==> j < r.next < |events| && r.dial == d
  {
    match SkipEnd(events, j)
    case Err(f) => Thrown(d, f)
    case Ok(k) => Go(d, k)
  }

  /** A dialback result: `streamReady` is set by a valid one before the
      listener is told; the element is then skipped. */
  function ResultTurn(l: Link, events: seq<Event>, j: nat, d: Dial): (r: Move)
    requires j < |events| && events[j].StartTag?
    ensures r.Go? ==> j < r.next < |events|
  {
    if AttrOf(events[j], "type") == Some("valid") then
      var d1 := d.(ready := true);
      if l.hasListener then SkipThen(events, j, Told(d1, DialbackReady)) else Thrown(d1, NullReference)
    else SkipThen(events, j, d)
  }

  /** A dialback verify request: handed to the listener, then skipped. */
  function VerifyTurn(l: Link, events: seq<Event>, j: nat, d: Dial): (r: Move)
    requires j < |events| && events[j].StartTag?
    ensures r.Go? ==> j < r.next < |events|
  {
    var e := events[j];
    if l.hasListener then SkipThen(events, j, Told(d, Verify(AttrOf(e, "from"), AttrOf(e, "type"), AttrOf(e, "id"))))
    else Thrown(d, NullReference)
  }

  /** Whether the features lead to starttls: a listener is set, the stream
      is not secured and starttls is offered (then `securing` is asked). */
  predicate MaySecure(l: Link, f: Features)
  {
    l.hasListener && !l.secured && f.starttls != NotAvailable
  }

  /** The features: starttls when the listener agrees to secure, otherwise
      the dialback. */
  function FeaturesTurn(l: Link, a: Answers, events: seq<Event>, j: nat, d: Dial): (r: Move)
    requires j < |events| && events[j].StartTag?
    ensures r.Go? ==> j < r.next < |events|
  {
    match SkipEnd(events, j)
    case Err(f) => Thrown(d, f)
    case Ok(k) =>
      if MaySecure(l, a.features(events, j)) then
        var d1 := Told(d, Securing);
        if a.securing then Go(d1.(wire := Sent(l.ls, d1.wire, StartTlsXml)), k)
        else Go(d1.(wire := Dialback(l, d1.wire)), k)
      else Go(d.(wire := Dialback(l, d.wire)), k)
  }

  /** A stream error: read, then handed to the listener. `StreamError` is not
      part of this model: its condition is the name of the first child. */
  function ErrorTurn(l: Link, events: seq<Event>, j: nat, d: Dial): (r: Move)
    requires j < |events| && events[j].StartTag?
    ensures r.Go? ==> j < r.next < |events|
  {
    match SkipEnd(events, j)
    case Err(f) => Thrown(d, f)
    case Ok(k) =>
      if l.hasListener then Go(Told(d, DialbackError(ErrorCondition(events, j))), k)
      else Thrown(d, NullReference)
  }

  /** Anything else is read and dropped. */
  function OtherTurn(events: seq<Event>, j: nat, d: Dial): (r: Move)
    requires j < |events| && events[j].StartTag?
    ensures r.Go? ==> j < r.next < |events|
  {
    match Render(events, j, true)
    case Err(f) => Thrown(d, f)
    case Ok((_, k)) => Go(d, k)
  }

  /** The branches of the loop of `handshake` on a start tag, in their order. */
  function LinkStep(l: Link, a: Answers, events: seq<Event>, j: nat, d: Dial): (r: Move)
    requires j < |events| && events[j].StartTag?
    ensures r.Go? ==> j <= r.next < |events|
  {
    var e := events[j];
    var tag := e.name;
    if tag == "result" && e.ns == NsDb then ResultTurn(l, events, j, d)
    else if tag == "verify" && e.ns == NsDb then VerifyTurn(l, events, j, d)
    else if tag == "features" && e.ns == NsStream then FeaturesTurn(l, a, events, j, d)
    else if tag == "proceed" && e.ns == NsTls then
      if l.hasListener then Go(Told(d, Proceed), j) else Thrown(d, NullReference)
    else if l.secured && tag == "stream" && e.ns == NsStream then Go(d.(streamId := AttrOf(e, "id")), j)
    else if tag == "error" then ErrorTurn(l, events, j, d)
    else OtherTurn(events, j, d)
  }

  /** Where one turn of the loop leaves it: going on from a position, or
      left, at the end of the document (`exit` is None) or by an exception. */
  datatype Progress = More(next: nat, dial: Dial) | Done(dial: Dial, exit: Option<Failure>)

  /** One turn of the loop of `handshake` from position `i`. */
  function LinkTurn(l: Link, a: Answers, events: seq<Event>, i: nat, d: Dial): (r: Progress)
    requires i < |events|
    ensures r.More? ==> i < r.next < |events|
  {
    match Step(events, i)
    case Err(f) => Done(d, Some(f))
    case Ok(j) =>
      if events[j].EndDocument? then Done(d, None)
      else if !events[j].StartTag? then More(j, d)
      else
        match LinkStep(l, a, events, j, d)
        case Go(d', k) => More(k, d')
        case Thrown(d', f) => Done(d', Some(f))
  }

  /** The loop of `handshake` from position `i`: the final state and how
      the loop was left. */
  function LinkLoop(l: Link, a: Answers, events: seq<Event>, i: nat, d: Dial): (Dial, Option<Failure>)
    requires i < |events|
    decreases |events| - i
  {
    match LinkTurn(l, a, events, i, d)
    case Done(d', x) => (d', x)
    case More(k, d') => LinkLoop(l, a, events, k, d')
  }

  /** The rest of the handshake from a point of progress. */
  function LinkRun(l: Link, a: Answers, events: seq<Event>, p: Progress): (Dial, Option<Failure>)
    requires p.More? ==> p.next < |events|
  {
    match p
    case Done(d, x) => (d, x)
    case More(k, d) => LinkLoop(l, a, events, k, d)
  }

  /** The peer's header, read after this side's: its id becomes the stream
      id, and a missing or empty one throws; a peer without a version gets
      the dialback at once. */
  function PeerHeader(l: Link, events: seq<Event>, pos: nat, d: Dial): (r: Progress)
    requires pos < |events|
    ensures r.More? ==> pos < r.next < |events|
  {
    match Step(events, pos)
    case Err(f) => Done(d, Some(f))
    case Ok(j) =>
      var e := events[j];
      if !e.StartTag? then Done(d, Some(NoAttributes))
      else
        var id := AttrOf(e, "id");
        var d1 := d.(streamId := id);
        if id.None? || id.value == "" then Done(d1, Some(Raised("stream to " + l.peer + " invalid first packet")))
        else if AttrOf(e, "version").None? then More(j, d1.(wire := Dialback(l, d1.wire)))
        else More(j, d1)
  }

  /** The start of `handshake`: the header is sent, then the peer's header
      is read. */
  function Begin(l: Link, events: seq<Event>, pos: nat, d: Dial): (r: Progress)
    requires pos < |events|
    ensures r.More? ==> pos < r.next < |events|
  {
    PeerHeader(l, events, pos, d.(wire := Sent(l.ls, d.wire, Header(d.streamId, l.self, l.peer))))
  }

  /** The terminal call for a way out of the handshake: `finished(false)` at
      the end of the document, `finished(true)` when the input ends, and
      `exception` for anything else. */
  function Terminal(exit: Option<Failure>): (s: Signal)
    ensures s.Finished? <==> exit.None? || exit == Some(EndOfStream)
    ensures s.Finished? ==> s.dirty == exit.Some?
    ensures s.Exception? ==> exit == Some(s.failure)
  {
    match exit
    case None => Finished(false)
    case Some(EndOfStream) => Finished(true)
    case Some(f) => Exception(f)
  }

  /** The terminal call; without a listener it throws, and the exception
      leaves `handshake`. */
  function Finish(l: Link, r: (Dial, Option<Failure>)): (Dial, Outcome)
  {
    if l.hasListener then (Told(r.0, Terminal(r.1)), Pass) else (r.0, Fail(NullReference))
  }

  /** The whole of `handshake` from position `pos`. */
  function Handshaken(l: Link, a: Answers, events: seq<Event>, pos: nat, d: Dial): (Dial, Outcome)
    requires pos < |events|
  {
    Finish(l, LinkRun(l, a, events, Begin(l, events, pos, d)))
  }

  // ---------------------------------------------------------------------
  // What the handshake promises
  // ---------------------------------------------------------------------

  /** A terminal call on the connection listener. */
  predicate IsTerminal(n: Notice)
  {
    n.Signalled? && (n.signal.Finished? || n.signal.Exception?)
  }

  /** `t` extends `t0` with no terminal call. */
  predicate NoTerminalAfter(t0: seq<Notice>, t: seq<Notice>)
  {
    |t0| <= |t| && t[..|t0|] == t0 && forall k :: |t0| <= k < |t| ==> !IsTerminal(t[k])
  }

  /** The loop only adds to what was written, adds no terminal call, and
      leaves the login flag and the correlation map alone. */
  predicate Grown(w: Wire, r: Wire)
  {
    |w.out| <= |r.out| && r.out[..|w.out|] == w.out && NoTerminalAfter(w.trace, r.trace) &&
    r.loggedIn == w.loggedIn && r.pending == w.pending
  }

  lemma GrownTrans(u: Wire, v: Wire, w: Wire)
    requires Grown(u, v) && Grown(v, w)
    ensures Grown(u, w)
  {
    assert w.out[..|u.out|] == w.out[..|v.out|][..|u.out|];
    assert w.trace[..|u.trace|] == w.trace[..|v.trace|][..|u.trace|];
    forall k | |u.trace| <= k < |w.trace| ensures !IsTerminal(w.trace[k]) {
      if k < |v.trace| {
        assert w.trace[k] == w.trace[..|v.trace|][k];
      }
    }
  }

  lemma SentGrown(ls: seq<ListenerId>, w: Wire, s: string)
    ensures Grown(w, Sent(ls, w, s))
  {
    assert w.out + [s] == w.out + [s];
  }

  lemma ToldGrown(d: Dial, s: Signal)
    requires !s.Finished? && !s.Exception?
    ensures Grown(d.wire, Told(d, s).wire)
  {
  }

  lemma DialbackGrown(l: Link, w: Wire)
    ensures Grown(w, Dialback(l, w))
  {
    var w1 := if l.checkSid.Some? then Sent(l.ls, w, VerifyXml(l.self, l.peer, l.checkSid, l.dbKey)) else w;
    SentGrown(l.ls, w, VerifyXml(l.self, l.peer, l.checkSid, l.dbKey));
    SentGrown(l.ls, w1, ResultXml(l.self, l.peer, l.dbKey));
    GrownTrans(w, w1, Dialback(l, w));
  }

  lemma ResultGrown(l: Link, events: seq<Event>, j: nat, d: Dial)
    requires j < |events| && events[j].StartTag?
    ensures Grown(d.wire, ResultTurn(l, events, j, d).dial.wire)
  {
    ToldGrown(d.(ready := true), DialbackReady);
  }

  lemma VerifyGrown(l: Link, events: seq<Event>, j: nat, d: Dial)
    requires j < |events| && events[j].StartTag?
    ensures Grown(d.wire, VerifyTurn(l, events, j, d).dial.wire)
  {
    var e := events[j];
    ToldGrown(d, Verify(AttrOf(e, "from"), AttrOf(e, "type"), AttrOf(e, "id")));
  }

  lemma FeaturesGrown(l: Link, a: Answers, events: seq<Event>, j: nat, d: Dial)
    requires j < |events| && events[j].StartTag?
    ensures Grown(d.wire, FeaturesTurn(l, a, events, j, d).dial.wire)
  {
    var d1 := Told(d, Securing);
    ToldGrown(d, Securing);
    SentGrown(l.ls, d1.wire, StartTlsXml);
    GrownTrans(d.wire, d1.wire, Sent(l.ls, d1.wire, StartTlsXml));
    DialbackGrown(l, d1.wire);
    GrownTrans(d.wire, d1.wire, Dialback(l, d1.wire));
    DialbackGrown(l, d.wire);
  }

  lemma ErrorGrown(l: Link, events: seq<Event>, j: nat, d: Dial)
    requires j < |events| && events[j].StartTag?
    ensures Grown(d.wire, ErrorTurn(l, events, j, d).dial.wire)
  {
    ToldGrown(d, DialbackError(ErrorCondition(events, j)));
  }

  /** Each branch of the loop keeps `Grown`. */
  lemma StepGrown(l: Link, a: Answers, events: seq<Event>, j: nat, d: Dial)
    requires j < |events| && events[j].StartTag?
    ensures Grown(d.wire, LinkStep(l, a, events, j, d).dial.wire)
  {
    ResultGrown(l, events, j, d);
    VerifyGrown(l, events, j, d);
    FeaturesGrown(l, a, events, j, d);
    ErrorGrown(l, events, j, d);
    ToldGrown(d, Proceed);
  }

  lemma {:induction false} LoopGrown(l: Link, a: Answers, events: seq<Event>, i: nat, d: Dial)
    requires i < |events|
    ensures Grown(d.wire, LinkLoop(l, a, events, i, d).0.wire)
    decreases |events| - i
  {
    match Step(events, i)
    case Err(_) =>
    case Ok(j) =>
      if !events[j].EndDocument? && events[j].StartTag? {
        StepGrown(l, a, events, j, d);
        match LinkStep(l, a, events, j, d)
        case Go(d', k) =>
          LoopGrown(l, a, events, k, d');
          GrownTrans(d.wire, d'.wire, LinkLoop(l, a, events, k, d').0.wire);
        case Thrown(_, _) =>
      } else if !events[j].EndDocument? {
        LoopGrown(l, a, events, j, d);
      }
  }

  /** Reading the peer's header keeps `Grown`. */
  lemma PeerHeaderGrown(l: Link, events: seq<Event>, pos: nat, d: Dial)
    requires pos < |events|
    ensures Grown(d.wire, PeerHeader(l, events, pos, d).dial.wire)
  {
    var p := PeerHeader(l, events, pos, d);
    if p.More? && AttrOf(events[p.next], "version").None? {
      DialbackGrown(l, d.wire);
    }
  }

  /** The rest of the handshake after this side's header keeps `Grown`. */
  lemma RunGrown(l: Link, a: Answers, events: seq<Event>, pos: nat, d: Dial)
    requires pos < |events|
    ensures Grown(d.wire, LinkRun(l, a, events, PeerHeader(l, events, pos, d)).0.wire)
  {
    var p := PeerHeader(l, events, pos, d);
    PeerHeaderGrown(l, events, pos, d);
    if p.More? {
      LoopGrown(l, a, events, p.next, p.dial);
      GrownTrans(d.wire, p.dial.wire, LinkLoop(l, a, events, p.next, p.dial).0.wire);
    }
  }

  /** On an open writer the header is the first thing the handshake writes,
      before anything is read. */
  lemma HeaderFirst(l: Link, a: Answers, events: seq<Event>, pos: nat, d: Dial)
    requires pos < |events| && d.wire.open
    ensures var out := Handshaken(l, a, events, pos, d).0.wire.out;
      |d.wire.out| < |out| && out[|d.wire.out|] == Header(d.streamId, l.self, l.peer)
  {
    var h := Header(d.streamId, l.self, l.peer);
    var d0 := d.(wire := Sent(l.ls, d.wire, h));
    assert d0.wire.out == d.wire.out + [h];
    RunGrown(l, a, events, pos, d0);
    var out := LinkRun(l, a, events, PeerHeader(l, events, pos, d0)).0.wire.out;
    assert out[|d.wire.out|] == out[..|d0.wire.out|][|d.wire.out|];
  }

  /** With a listener set the handshake makes exactly one terminal call, the
      last call of all; without one it throws and makes none. */
  lemma OneTerminalCall(l: Link, a: Answers, events: seq<Event>, pos: nat, d: Dial)
    requires pos < |events|
    ensures var (d', r) := Handshaken(l, a, events, pos, d);
      var t := d'.wire.trace;
      (l.hasListener ==> r == Pass && |d.wire.trace| < |t| && IsTerminal(t[|t| - 1]) &&
                         NoTerminalAfter(d.wire.trace, t[..|t| - 1])) &&
      (!l.hasListener ==> r == Fail(NullReference) && NoTerminalAfter(d.wire.trace, t))
  {
    var h := Header(d.streamId, l.self, l.peer);
    var d0 := d.(wire := Sent(l.ls, d.wire, h));
    SentGrown(l.ls, d.wire, h);
    RunGrown(l, a, events, pos, d0);
    var run := LinkRun(l, a, events, PeerHeader(l, events, pos, d0));
    GrownTrans(d.wire, d0.wire, run.0.wire);
    if l.hasListener {
      var t := Told(run.0, Terminal(run.1)).wire.trace;
      assert t[..|t| - 1] == run.0.wire.trace;
    }
  }

  /** A peer header without an id, or with an empty one, ends the handshake
      with the exception that names the peer: only the header was written. */
  lemma BadFirstPacket(l: Link, a: Answers, events: seq<Event>, pos: nat, d: Dial)
    requires pos + 1 < |events| && !events[pos].EndDocument? && events[pos + 1].StartTag?
    requires var id := AttrOf(events[pos + 1], "id"); id.None? || id.value == ""
    requires l.hasListener && d.wire.open
    ensures var (d', r) := Handshaken(l, a, events, pos, d);
      r == Pass && d'.wire.out == d.wire.out + [Header(d.streamId, l.self, l.peer)] &&
      d'.wire.trace == d.wire.trace + [Signalled(Exception(Raised("stream to " + l.peer + " invalid first packet")))]
  {
    assert Step(events, pos) == Ok(pos + 1);
  }

  /** A peer header without a version gets the dialback right after this
      side's header, before anything more is read. */
  lemma VersionlessPeerGetsDialback(l: Link, events: seq<Event>, pos: nat, d: Dial)
    requires pos + 1 < |events| && !events[pos].EndDocument? && events[pos + 1].StartTag?
    requires var id := AttrOf(events[pos + 1], "id"); id.Some? && id.value != ""
    requires AttrOf(events[pos + 1], "version").None? && d.wire.open
    ensures var b := Begin(l, events, pos, d);
      b == More(pos + 1, b.dial) && b.dial.streamId == AttrOf(events[pos + 1], "id") &&
      b.dial.wire == Dialback(l, Sent(l.ls, d.wire, Header(d.streamId, l.self, l.peer))) &&
      b.dial.wire.out[..|d.wire.out| + 1] == d.wire.out + [Header(d.streamId, l.self, l.peer)]
  {
    assert Step(events, pos) == Ok(pos + 1);
    var w0 := Sent(l.ls, d.wire, Header(d.streamId, l.self, l.peer));
    DialbackSends(l, w0);
  }

  /** Features lead to starttls exactly when a listener is set, the stream
      is not secured, starttls is offered and the listener agrees; in every
      other case the dialback is sent instead. */
  lemma FeaturesChoice(l: Link, a: Answers, events: seq<Event>, j: nat, d: Dial)
    requires j < |events| && events[j].StartTag? && SkipEnd(events, j).Ok? && d.wire.open
    ensures var m := FeaturesTurn(l, a, events, j, d);
      var tls := MaySecure(l, a.features(events, j)) && a.securing;
      m.Go? && (tls <==> m.dial.wire.out == d.wire.out + [StartTlsXml]) &&
      (!tls ==> m.dial.wire.out == Dialback(l, d.wire).out)
  {
    DialbackSends(l, d.wire);
    var n := |d.wire.out|;
    var r := ResultXml(l.self, l.peer, l.dbKey);
    var out := Dialback(l, d.wire).out;
    assert out[|out| - 1] == r;
    assert r[..4] == "<db:" && StartTlsXml[..4] == "<sta";
  }

  /** Whether a start tag is a valid dialback result. */
  predicate ValidResult(e: Event)
    requires e.StartTag?
  {
    e.name == "result" && e.ns == NsDb && AttrOf(e, "type") == Some("valid")
  }

  /** `streamReady` is set by a valid dialback result and by nothing else. */
  lemma ReadyOnValidResult(l: Link, a: Answers, events: seq<Event>, j: nat, d: Dial)
    requires j < |events| && events[j].StartTag?
    ensures LinkStep(l, a, events, j, d).dial.ready == (d.ready || ValidResult(events[j]))
  {
  }

  /** Over the whole loop: a stream that was not ready becomes ready only
      when a valid dialback result was read. */
  lemma {:induction false} LoopReadyOnValidResult(l: Link, a: Answers, events: seq<Event>, i: nat, d: Dial)
    requires i < |events|
    ensures LinkLoop(l, a, events, i, d).0.ready ==>
            d.ready || exists m :: i < m < |events| && events[m].StartTag? && ValidResult(events[m])
    decreases |events| - i
  {
    match Step(events, i)
    case Err(_) =>
    case Ok(j) =>
      if !events[j].EndDocument? && events[j].StartTag? {
        ReadyOnValidResult(l, a, events, j, d);
        match LinkStep(l, a, events, j, d)
        case Go(d', k) => LoopReadyOnValidResult(l, a, events, k, d');
        case Thrown(_, _) =>
      } else if !events[j].EndDocument? {
        LoopReadyOnValidResult(l, a, events, j, d);
      }
  }

  // ---------------------------------------------------------------------
  // The stream object
  // ---------------------------------------------------------------------

  class StreamServerDialback {
    const stream: Stream
    var secured: bool
    var streamReady: bool
    var checkSid: Option<string>
    var dbKey: Option<string>
    var streamId: Option<string>
    var hasListener: bool

    ghost predicate Valid()
      reads stream.parser, stream`streamLs, stream`messageLs, stream`presenceLs, stream`iqLs, stream`from
    {
      stream.Valid() && stream.from.Some?
    }

    /** A dialback stream from `from` to `to`. Without a key one is made
        from `secret` (the random text of the source); `uuid` becomes the
        stream id. */
    constructor (from: Jid, to: Jid, input: seq<Event>, checkSid: Option<string>, dbKey: Option<string>,
                 mac: (string, string) -> string, secret: string, uuid: string)
      ensures Valid() && fresh(stream) && fresh(stream.parser)
      ensures stream.from == Some(from) && stream.to == to && stream.parser.events == [StartDocument] + input
      ensures stream.State() == Wire([], true, false, [], map[])
      ensures this.checkSid == checkSid && streamId == Some(uuid) && !secured && !streamReady && !hasListener
      ensures this.dbKey == if dbKey.None? then Some(GenerateKey(mac, secret, to, from, None)) else dbKey
    {
      stream := new Stream(Some(from), to, input);
      secured := false;
      streamReady := false;
      hasListener := false;
      this.checkSid := checkSid;
      // The stream id is still null here.
      this.dbKey := if dbKey.None? then Some(GenerateKey(mac, secret, to, from, None)) else dbKey;
      streamId := Some(uuid);
    }

    function Self(): string
      reads stream`from
      requires stream.from.Some?
    {
      ToEscapedString(stream.from.value)
    }

    function LinkOf(): Link
      reads stream`streamLs, stream`from, this`secured, this`hasListener, this`checkSid, this`dbKey
      requires stream.from.Some?
    {
      Link(stream.streamLs, Self(), ToEscapedString(stream.to), secured, hasListener, checkSid, dbKey)
    }

    function State(): Dial
      reads stream, this`streamId, this`streamReady
    {
      Dial(stream.State(), streamId, streamReady)
    }

    /** `setConnectionListener`: whether a listener is set. */
    method SetConnectionListener(present: bool)
      modifies this`hasListener
      ensures hasListener == present
    {
      hasListener := present;
    }

    method SetSecured(secured: bool)
      modifies this`secured
      ensures this.secured == secured
    {
      this.secured := secured;
    }

    /** `sendDialbackVerify(sid, key)`. */
    method SendDialbackVerify(sid: Option<string>, key: Option<string>)
      requires stream.from.Some?
      modifies stream`out, stream`open, stream`trace
      ensures stream.State() == Sent(stream.streamLs, old(stream.State()), VerifyXml(Self(), ToEscapedString(stream.to), sid, key))
    {
      stream.Send(VerifyXml(Self(), ToEscapedString(stream.to), sid, key));
    }

    /** `processDialback()`. */
    method ProcessDialback()
      requires stream.from.Some?
      modifies stream`out, stream`open, stream`trace
      ensures stream.State() == Dialback(LinkOf(), old(stream.State()))
    {
      if checkSid.Some? {
        SendDialbackVerify(checkSid, dbKey);
      }
      stream.Send(ResultXml(Self(), ToEscapedString(stream.to), dbKey));
    }

    /** The dialback result branch. */
    method ReadResult() returns (r: Outcome)
      requires Valid() && stream.parser.Current().StartTag?
      modifies stream.parser, stream`trace, this`streamReady
      ensures Valid() && stream.parser.events == old(stream.parser.events)
      ensures ResultTurn(LinkOf(), stream.parser.events, old(stream.parser.pos), old(State())) ==
              if r.Pass? then Go(State(), stream.parser.pos) else Thrown(State(), r.failure)
    {
      if AttrOf(stream.parser.Current(), "type") == Some("valid") {
        streamReady := true;
        if !hasListener {
          return Fail(NullReference);
        }
        stream.trace := stream.trace + [Signalled(DialbackReady)];
      }
      r := Skip(stream.parser);
    }

    /** The dialback verify branch. */
    method ReadVerify() returns (r: Outcome)
      requires Valid() && stream.parser.Current().StartTag?
      modifies stream.parser, stream`trace
      ensures Valid() && stream.parser.events == old(stream.parser.events)
      ensures VerifyTurn(LinkOf(), stream.parser.events, old(stream.parser.pos), old(State())) ==
              if r.Pass? then Go(State(), stream.parser.pos) else Thrown(State(), r.failure)
    {
      var e := stream.parser.Current();
      if !hasListener {
        return Fail(NullReference);
      }
      stream.trace := stream.trace + [Signalled(Verify(AttrOf(e, "from"), AttrOf(e, "type"), AttrOf(e, "id")))];
      r := Skip(stream.parser);
    }

    /** The features branch. */
    method ReadFeatures(a: Answers) returns (r: Outcome)
      requires Valid() && stream.parser.Current().StartTag?
      modifies stream.parser, stream`out, stream`open, stream`trace
      ensures Valid() && stream.parser.events == old(stream.parser.events)
      ensures FeaturesTurn(LinkOf(), a, stream.parser.events, old(stream.parser.pos), old(State())) ==
              if r.Pass? then Go(State(), stream.parser.pos) else Thrown(State(), r.failure)
    {
      var f := a.features(stream.parser.events, stream.parser.pos);
      r := Skip(stream.parser);
      if r.Fail? {
        return;
      }
      if hasListener && !secured && f.starttls != NotAvailable {
        stream.trace := stream.trace + [Signalled(Securing)];
        if a.securing {
          stream.Send(StartTlsXml);
          return;
        }
      }
      ProcessDialback();
    }

    /** The stream error branch. */
    method ReadError() returns (r: Outcome)
      requires Valid() && stream.parser.Current().StartTag?
      modifies stream.parser, stream`trace
      ensures Valid() && stream.parser.events == old(stream.parser.events)
      ensures ErrorTurn(LinkOf(), stream.parser.events, old(stream.parser.pos), old(State())) ==
              if r.Pass? then Go(State(), stream.parser.pos) else Thrown(State(), r.failure)
    {
      var condition := ErrorCondition(stream.parser.events, stream.parser.pos);
      r := Skip(stream.parser);
      if r.Fail? {
        return;
      }
      if !hasListener {
        return Fail(NullReference);
      }
      stream.trace := stream.trace + [Signalled(DialbackError(condition))];
    }

    /** Anything else: read and dropped. */
    method ReadOther() returns (r: Outcome)
      requires Valid() && stream.parser.Current().StartTag?
      modifies stream.parser
      ensures Valid() && stream.parser.events == old(stream.parser.events)
      ensures OtherTurn(stream.parser.events, old(stream.parser.pos), old(State())) ==
              if r.Pass? then Go(State(), stream.parser.pos) else Thrown(State(), r.failure)
    {
      var s := ParseToString(stream.parser, true);
      r := if s.Ok? then Pass else Fail(s.failure);
    }

    /** One start tag of the loop of `handshake`. */
    method Element(a: Answers) returns (r: Outcome)
      requires Valid() && stream.parser.Current().StartTag?
      modifies stream.parser, stream`out, stream`open, stream`trace, this`streamId, this`streamReady
      ensures Valid() && stream.parser.events == old(stream.parser.events)
      ensures LinkStep(LinkOf(), a, stream.parser.events, old(stream.parser.pos), old(State())) ==
              if r.Pass? then Go(State(), stream.parser.pos) else Thrown(State(), r.failure)
    {
      var e := stream.parser.Current();
      if e.name == "result" && e.ns == NsDb {
        r := ReadResult();
      } else if e.name == "verify" && e.ns == NsDb {
        r := ReadVerify();
      } else if e.name == "features" && e.ns == NsStream {
        r := ReadFeatures(a);
      } else if e.name == "proceed" && e.ns == NsTls {
        if !hasListener {
          return Fail(NullReference);
        }
        stream.trace := stream.trace + [Signalled(Proceed)];
        r := Pass;
      } else if secured && e.name == "stream" && e.ns == NsStream {
        streamId := AttrOf(e, "id");
        r := Pass;
      } else if e.name == "error" {
        r := ReadError();
      } else {
        r := ReadOther();
      }
    }

    /** One turn of the loop of `handshake`. */
    method Round(a: Answers) returns (go: bool, exit: Option<Failure>)
      requires Valid()
      modifies stream.parser, stream`out, stream`open, stream`trace, this`streamId, this`streamReady
      ensures Valid() && stream.parser.events == old(stream.parser.events)
      ensures LinkTurn(LinkOf(), a, stream.parser.events, old(stream.parser.pos), old(State())) ==
              if go then More(stream.parser.pos, State()) else Done(State(), exit)
    {
      var n := stream.parser.Next();
      if n.Err? {
        return false, Some(n.failure);
      }
      var e := stream.parser.Current();
      if e.EndDocument? {
        return false, None;
      }
      if !e.StartTag? {
        return true, None;
      }
      var r := Element(a);
      if r.Fail? {
        return false, Some(r.failure);
      }
      return true, None;
    }

    /** The peer's header. */
    method ReadPeerHeader() returns (go: bool, exit: Option<Failure>)
      requires Valid()
      modifies stream.parser, stream`out, stream`open, stream`trace, this`streamId
      ensures Valid() && stream.parser.events == old(stream.parser.events)
      ensures PeerHeader(LinkOf(), stream.parser.events, old(stream.parser.pos), old(State())) ==
              if go then More(stream.parser.pos, State()) else Done(State(), exit)
    {
      var n := stream.parser.Next();
      if n.Err? {
        return false, Some(n.failure);
      }
      var e := stream.parser.Current();
      if !e.StartTag? {
        return false, Some(NoAttributes);
      }
      streamId := AttrOf(e, "id");
      if streamId.None? || streamId.value == "" {
        return false, Some(Raised("stream to " + ToEscapedString(stream.to) + " invalid first packet"));
      }
      if AttrOf(e, "version").None? {
        ProcessDialback();
      }
      return true, None;
    }

    /** The start of `handshake`: the header out, the peer's header in. */
    method Open() returns (go: bool, exit: Option<Failure>)
      requires Valid()
      modifies stream.parser, stream`out, stream`open, stream`trace, this`streamId
      ensures Valid() && stream.parser.events == old(stream.parser.events)
      ensures Begin(LinkOf(), stream.parser.events, old(stream.parser.pos), old(State())) ==
              if go then More(stream.parser.pos, State()) else Done(State(), exit)
    {
      stream.Send(Header(streamId, Self(), ToEscapedString(stream.to)));
      go, exit := ReadPeerHeader();
    }

    /** The loop of `handshake`, up to the way it is left. */
    method Drain(a: Answers) returns (exit: Option<Failure>)
      requires Valid()
      modifies stream.parser, stream`out, stream`open, stream`trace, this`streamId, this`streamReady
      ensures Valid() && stream.parser.events == old(stream.parser.events)
      ensures (State(), exit) == LinkLoop(LinkOf(), a, stream.parser.events, old(stream.parser.pos), old(State()))
    {
      ghost var goal := LinkLoop(LinkOf(), a, stream.parser.events, stream.parser.pos, State());
      var go := true;
      exit := None;
      while go
        invariant Valid() && stream.parser.events == old(stream.parser.events)
        invariant go ==> LinkLoop(LinkOf(), a, stream.parser.events, stream.parser.pos, State()) == goal
        invariant !go ==> (State(), exit) == goal
        decreases if go then |stream.parser.events| - stream.parser.pos + 1 else 0
      {
        go, exit := Round(a);
      }
    }

    /** The terminal call on the connection listener. */
    method Conclude(exit: Option<Failure>) returns (r: Outcome)
      requires stream.from.Some?
      modifies stream`trace
      ensures (State(), r) == Finish(LinkOf(), (old(State()), exit))
    {
      if !hasListener {
        return Fail(NullReference);
      }
      stream.trace := stream.trace + [Signalled(Terminal(exit))];
      return Pass;
    }

    /** `handshake()`: the header, the loop, then the one terminal call. */
    method Handshake(a: Answers) returns (r: Outcome)
      requires Valid()
      modifies stream.parser, stream`out, stream`open, stream`trace, this`streamId, this`streamReady
      ensures Valid() && stream.parser.events == old(stream.parser.events)
      ensures (State(), r) == Handshaken(LinkOf(), a, stream.parser.events, old(stream.parser.pos), old(State()))
    {
      var go, exit := Open();
      if go {
        exit := Drain(a);
      }
      r := Conclude(exit);
    }
  }
}
