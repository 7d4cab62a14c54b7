/** The stream engine of the newer tree (`src/main/java/com/juick/xmpp/Stream.java`):
    the listener registries, the one-shot iq correlation map, the writer and
    the read/dispatch loop that every stream role shares.

    Listeners are identified by a number. A call made on a listener is a
    `Notice` appended to the stream's trace; what an iq listener answers is
    given by the parameter `answer`. The writer is the log `out` of the
    strings written, and whether it is still open. */
module Streams {
  import opened Wrappers
  import opened XmlPull
  import opened XmlUtils
  import opened Addresses
  import opened StanzaChildren
  import opened Stanzas
  import Iqs
  import Presences

  const NsStream: string := "http://etherx.jabber.org/streams"
  const StreamEnd: string := "</stream:stream>"
  /** The message of the IOException a closed writer throws. */
  const ClosedMessage: string := "Stream closed"
  /** The namespace of stream error conditions (section 4.9.3 of RFC 6120). */
  const NsStreamErrors: string := "urn:ietf:params:xml:ns:xmpp-streams"
  const InvalidXml: string := "invalid-xml"

  /** The text of a stream error with the given condition, laid out as
      section 4.9 of RFC 6120 shows it. */
  function StreamErrorXml(condition: string): string
  {
    "<stream:error><" + condition + " xmlns='" + NsStreamErrors + "'/></stream:error>"
  }

  type ListenerId = nat

  /** The iq a listener is handed: its envelope and its children. */
  datatype Received = Received(env: Envelope, childs: seq<Extension>)

  /** A call on a stream, message, presence or iq listener. */
  datatype Call =
    | Failed(failure: Failure)                                   // fail / onConnectionFailed / onStreamFail
    | Ready                                                      // ready / onStreamReady
    | OnIq(iq: Received)
    | OnMessage(env: Envelope)
    | OnPresence(env: Envelope, info: Presences.PresenceInfo)
    | OnLegacyPresence(env: Envelope)

  /** A call on the single `ConnectionListener` of a server-to-server stream. */
  datatype Signal =
    | StartTls
    | Proceed
    | Verify(from: Option<string>, verifyType: Option<string>, id: Option<string>)
    | DialbackError(condition: string)
    | DialbackReady
    | Securing
    | Finished(dirty: bool)
    | Exception(failure: Failure)

  datatype Notice = To(listener: ListenerId, call: Call) | Signalled(signal: Signal)

  // ---------------------------------------------------------------------
  // Registries
  // ---------------------------------------------------------------------

  predicate Distinct(ls: seq<ListenerId>)
  {
    forall i, j :: 0 <= i < j < |ls| ==> ls[i] != ls[j]
  }

  /** `addListener(l)`: add-if-absent. */
  function Added(ls: seq<ListenerId>, l: ListenerId): (r: seq<ListenerId>)
    ensures l in r && forall m :: m in r <==> m in ls || m == l
    ensures l in ls ==> r == ls
    ensures l !in ls ==> r == ls + [l]
    ensures Distinct(ls) ==> Distinct(r)
  {
    if l in ls then ls else ls + [l]
  }

  /** `removeListener(l)` (`ArrayList.remove`): drops the first occurrence. */
  function Removed(ls: seq<ListenerId>, l: ListenerId): (r: seq<ListenerId>)
    ensures l !in ls ==> r == ls
    ensures l in ls ==> |r| == |ls| - 1
    ensures forall m :: m in r ==> m in ls
    ensures forall m :: m in ls && m != l ==> m in r
    ensures Distinct(ls) ==> Distinct(r) && l !in r
  {
    if ls == [] then []
    else if ls[0] == l then
      assert forall m :: m in ls && m != l ==> m in ls[1..];
      ls[1..]
    else
      var t := Removed(ls[1..], l);
      assert forall m :: m in ls && m != l ==> m == ls[0] || m in ls[1..];
      if Distinct(ls) then
        assert Distinct(ls[1..]) && ls[0] !in ls[1..];
        DistinctCons(ls[0], t);
        [ls[0]] + t
      else [ls[0]] + t
  }

  lemma DistinctCons(x: ListenerId, t: seq<ListenerId>)
    requires x !in t && Distinct(t)
    ensures Distinct([x] + t)
  {
    forall i, j | 0 <= i < j < |[x] + t| ensures ([x] + t)[i] != ([x] + t)[j] {
      if i > 0 {
        assert ([x] + t)[i] == t[i - 1];
      }
      assert ([x] + t)[j] == t[j - 1];
    }
  }

  /** Re-adding a listener changes nothing. */
  lemma AddedIdempotent(ls: seq<ListenerId>, l: ListenerId)
    ensures Added(Added(ls, l), l) == Added(ls, l)
  {
  }

  /** Removing what was just added from a list without it gives the list back. */
  lemma {:induction false} RemovedAdded(ls: seq<ListenerId>, l: ListenerId)
    requires l !in ls
    ensures Removed(Added(ls, l), l) == ls
  {
    if ls != [] {
      assert (ls + [l])[1..] == ls[1..] + [l];
      RemovedAdded(ls[1..], l);
      assert Added(ls[1..], l) == ls[1..] + [l];
    }
  }

  /** The key `addListener(jid, id, l)` stores a listener under (null prints
      as "null"). */
  function CorrelationKey(jid: Option<string>, id: Option<string>): string
  {
    OrNull(jid) + "\n" + OrNull(id)
  }

  /** The key an incoming iq is looked up under: "" when it has no sender. */
  function IqKey(env: Envelope): string
  {
    if env.from.None? then "" else CorrelationKey(Some(ToEscapedString(env.from.value)), env.id)
  }

  /** A reply from the address a request was registered for, with the same
      id, finds the listener. */
  lemma IqKeyMatches(env: Envelope, jid: string)
    requires env.from.Some? && ToEscapedString(env.from.value) == jid
    ensures IqKey(env) == CorrelationKey(Some(jid), env.id)
  {
  }

  // ---------------------------------------------------------------------
  // The state the stream changes, as a value
  // ---------------------------------------------------------------------

  /** What the registries and the listeners bring to a dispatch: they do not
      change while the stream reads. */
  datatype Config = Config(streamLs: seq<ListenerId>, messageLs: seq<ListenerId>, presenceLs: seq<ListenerId>,
                           iqLs: seq<ListenerId>, table: map<string, ChildParser>,
                           answer: (ListenerId, Received) -> bool)

  /** What reading the stream changes: the writer, the login flag, the
      trace of listener calls and the correlation map. */
  datatype Wire = Wire(out: seq<string>, open: bool, loggedIn: bool, trace: seq<Notice>, pending: map<string, ListenerId>)

  /** The same call made on every listener of `ls`, in order. */
  function Broadcast(ls: seq<ListenerId>, call: Call): (r: seq<Notice>)
    ensures |r| == |ls|
  {
    seq(|ls|, k requires 0 <= k < |ls| => To(ls[k], call))
  }

  lemma BroadcastStep(ls: seq<ListenerId>, k: nat, call: Call)
    requires k < |ls|
    ensures Broadcast(ls[..k + 1], call) == Broadcast(ls[..k], call) + [To(ls[k], call)]
  {
  }

  lemma BroadcastAll(ls: seq<ListenerId>, call: Call)
    ensures ls[..|ls|] == ls && Broadcast(ls[..|ls|], call) == Broadcast(ls, call)
  {
  }

  /** `connectionFailed(ex)`: a logged-in stream closes its writer (errors
      ignored); then every stream listener is told, in order. */
  function Failing(ls: seq<ListenerId>, w: Wire, f: Failure): Wire
  {
    w.(open := w.open && !w.loggedIn, trace := w.trace + Broadcast(ls, Failed(f)))
  }

  /** `send(str)`: written, or, on a closed writer, the connection fails. */
  function Sent(ls: seq<ListenerId>, w: Wire, s: string): Wire
  {
    if w.open then w.(out := w.out + [s]) else Failing(ls, w, IoFault(ClosedMessage))
  }

  /** `logoff()`: logged out, then the writer is flushed and closed; a closed
      writer refuses the flush and the connection fails. */
  function LoggedOff(ls: seq<ListenerId>, w: Wire): Wire
  {
    var w1 := w.(loggedIn := false);
    if w.open then w1.(open := false) else Failing(ls, w1, IoFault(ClosedMessage))
  }

  /** `close()`: the closing tag, unless the writer refuses it, then `logoff()`. */
  function Closed(ls: seq<ListenerId>, w: Wire): Wire
  {
    LoggedOff(ls, if w.open then w.(out := w.out + [StreamEnd]) else w)
  }

  /** What a send does: on an open writer exactly the one string is written
      and nobody is told; on a closed one nothing is written and every
      stream listener is told once. */
  lemma SentOnce(ls: seq<ListenerId>, w: Wire, s: string)
    ensures var r := Sent(ls, w, s);
      r.loggedIn == w.loggedIn && r.pending == w.pending && r.open == w.open &&
      (w.open ==> r.out == w.out + [s] && r.trace == w.trace) &&
      (!w.open ==> r.out == w.out && r.trace == w.trace + Broadcast(ls, Failed(IoFault(ClosedMessage))))
  {
  }

  /** `close()` ends the session: logged out, writer closed, and the closing
      tag is the last thing written when the writer was open. */
  lemma CloseEndsSession(ls: seq<ListenerId>, w: Wire)
    ensures var r := Closed(ls, w);
      !r.loggedIn && !r.open && r.pending == w.pending &&
      (w.open ==> r.out == w.out + [StreamEnd] && r.trace == w.trace) &&
      (!w.open ==> r.out == w.out && r.trace == w.trace + Broadcast(ls, Failed(IoFault(ClosedMessage))))
  {
  }

  /** Nothing is written after `close()`. */
  lemma NothingAfterClose(ls: seq<ListenerId>, w: Wire, s: string)
    ensures Sent(ls, Closed(ls, w), s).out == Closed(ls, w).out
  {
  }

  // ---------------------------------------------------------------------
  // iq dispatch
  // ---------------------------------------------------------------------

  /** Some iq listener of `ls` takes `iq`. */
  predicate Handled(ls: seq<ListenerId>, answer: (ListenerId, Received) -> bool, iq: Received)
  {
    exists m :: 0 <= m < |ls| && answer(ls[m], iq)
  }

  /** The error reply `send(iq.error())` writes. */
  function ErrorReply(env: Envelope): string
  {
    Iqs.IqOpening(Iqs.ReplyEnvelope(env, Iqs.TypeError)) + Iqs.ErrorBlock + Iqs.Closing
  }

  /** Whether the listeners `iq()` calls take the iq: the listener
      registered under its key, or else any iq listener. */
  predicate Taken(c: Config, w: Wire, key: string, iq: Received)
  {
    if key in w.pending then c.answer(w.pending[key], iq) else Handled(c.iqLs, c.answer, iq)
  }

  /** The calls of `iq()` once the iq is read and its key known: a listener
      registered under the key alone is called and its entry dropped;
      otherwise every iq listener is called. */
  function Delivered(c: Config, w: Wire, key: string, iq: Received): Wire
  {
    if key in w.pending then w.(trace := w.trace + [To(w.pending[key], OnIq(iq))], pending := w.pending - {key})
    else w.(trace := w.trace + Broadcast(c.iqLs, OnIq(iq)))
  }

  /** The whole of `iq()` after the read: the calls, then an error reply
      when none of the listeners called takes the iq. */
  function Answered(c: Config, w: Wire, key: string, iq: Received): Wire
  {
    var w1 := Delivered(c, w, key, iq);
    if Taken(c, w, key, iq) then w1 else Sent(c.streamLs, w1, ErrorReply(iq.env))
  }

  /** A correlated listener is the only one called, and it fires once: its
      entry is gone, so the next iq with the same key goes to the iq
      listeners instead. */
  lemma CorrelatedOnce(c: Config, w: Wire, key: string, iq: Received, iq': Received)
    requires key in w.pending
    ensures var r := Answered(c, w, key, iq);
      r.pending == w.pending - {key} && key !in r.pending &&
      |r.trace| > |w.trace| && r.trace[..|w.trace| + 1] == w.trace + [To(w.pending[key], OnIq(iq))] &&
      (forall n :: n in r.trace[|w.trace| + 1..] ==> n.To? && n.call.Failed?) &&
      var r' := Answered(c, r, key, iq');
      r'.pending == r.pending && r'.trace[..|r.trace| + |c.iqLs|] == r.trace + Broadcast(c.iqLs, OnIq(iq'))
  {
    var l := w.pending[key];
    var w1 := w.(trace := w.trace + [To(l, OnIq(iq))], pending := w.pending - {key});
    assert w1.trace[..|w.trace| + 1] == w.trace + [To(l, OnIq(iq))];
    var r := Answered(c, w, key, iq);
    if !c.answer(l, iq) && !w.open {
      assert r.trace == w1.trace + Broadcast(c.streamLs, Failed(IoFault(ClosedMessage)));
      assert r.trace[..|w.trace| + 1] == w1.trace[..|w.trace| + 1];
      assert r.trace[|w.trace| + 1..] == Broadcast(c.streamLs, Failed(IoFault(ClosedMessage)));
    }
    var r1 := r.(trace := r.trace + Broadcast(c.iqLs, OnIq(iq')));
    assert r1.trace[..|r.trace| + |c.iqLs|] == r.trace + Broadcast(c.iqLs, OnIq(iq'));
  }

  /** Without a correlated listener every iq listener is called once, in
      order, and the map is left alone. */
  lemma BroadcastWhenUncorrelated(c: Config, w: Wire, key: string, iq: Received)
    requires key !in w.pending
    ensures var r := Answered(c, w, key, iq);
      r.pending == w.pending &&
      r.trace[..|w.trace| + |c.iqLs|] == w.trace + Broadcast(c.iqLs, OnIq(iq))
  {
    var w1 := w.(trace := w.trace + Broadcast(c.iqLs, OnIq(iq)));
    assert w1.trace[..|w.trace| + |c.iqLs|] == w.trace + Broadcast(c.iqLs, OnIq(iq));
  }

  /** Exactly one error reply for an iq nobody takes, and none otherwise
      (on an open writer). */
  lemma ErrorReplyOnce(c: Config, w: Wire, key: string, iq: Received)
    requires w.open
    ensures var r := Answered(c, w, key, iq);
      r.out == w.out + (if Taken(c, w, key, iq) then [] else [ErrorReply(iq.env)]) &&
      r.open && r.loggedIn == w.loggedIn
  {
  }

  /** The error reply is `iq.error()` written out: addressed back to the
      sender, same id, type error, with the service-unavailable block. */
  lemma ErrorReplyIsError(env: Envelope)
    ensures Iqs.IqXml(Iqs.ReplyEnvelope(env, Iqs.TypeError), []) == Ok(ErrorReply(env))
    ensures Iqs.ReplyEnvelope(env, Iqs.TypeError).to == env.from && Iqs.ReplyEnvelope(env, Iqs.TypeError).id == env.id
  {
    Iqs.ReplyXml(env, Iqs.TypeError);
  }

  // ---------------------------------------------------------------------
  // The elements `parse` dispatches on
  // ---------------------------------------------------------------------

  /** `Message.parse` is not part of this model: the element is read up to
      its end tag and the listeners are handed its envelope. */
  function MessageRead(ls: seq<ListenerId>, events: seq<Event>, j: nat, w: Wire): (r: Result<(Wire, nat)>)
    requires j < |events| && events[j].StartTag?
    ensures r.Ok? ==> j < r.value.1 < |events|
  {
    match SkipEnd(events, j)
    case Err(f) => Err(f)
    case Ok(k) =>
      Ok((w.(trace := w.trace + Broadcast(ls, OnMessage(ReadEnvelope(events[j].attrs, Blank)))), k))
  }

  /** `presence()`: the presence is read and handed to every presence listener. */
  function PresenceRead(ls: seq<ListenerId>, table: map<string, ChildParser>, events: seq<Event>, j: nat, w: Wire): (r: Result<(Wire, nat)>)
    requires j < |events| && events[j].StartTag?
    ensures r.Ok? ==> j < r.value.1 < |events|
  {
    match Presences.PresenceParse(events, j, Some(table))
    case Err(f) => Err(f)
    case Ok((env, info, k)) => Ok((w.(trace := w.trace + Broadcast(ls, OnPresence(env, info))), k))
  }

  /** `iq()`: the iq is read and dispatched under its key. */
  function IqRead(c: Config, events: seq<Event>, j: nat, w: Wire): (r: Result<(Wire, nat)>)
    requires j < |events| && events[j].StartTag?
    ensures r.Ok? ==> j < r.value.1 < |events|
  {
    match Iqs.IqParse(events, j, Some(c.table))
    case Err(f) => Err(f)
    case Ok((env, cs, k)) => Ok((Answered(c, w, IqKey(env), Received(env, cs)), k))
  }

  /** What the parser throws when asked for an attribute of an event that
      is not a start tag. */
  const NoAttributes: Failure := Raised("only START_TAG can have attributes")

  /** What `StreamFeatures.parse` reports of a feature. */
  datatype Availability = NotAvailable | Optional | Required

  /** The features an outbound stream looks at: starttls and SASL PLAIN. */
  datatype Features = Features(starttls: Availability, plain: Availability)

  /** `StreamFeatures` is not part of this model: what it reports of the
      features element at a position is a parameter of this type, and it
      reads the element like `skip` does. */
  type FeaturesOf = (seq<Event>, nat) -> Features

  /** Where an outbound handshake stands after one of its parts: going on
      with the cursor at a position, turned down with the cursor at a
      position (the handshake returns normally, the listeners told), or
      left by an exception. */
  datatype Phase = Proceeding(wire: Wire, pos: nat) | Refused(wire: Wire, pos: nat) | Aborted(wire: Wire, failure: Failure)

  /** `writer.write(s)` and `flush()` called directly rather than through
      `send`: on a closed writer the exception leaves the caller. */
  function Wrote(w: Wire, s: string): Result<Wire>
  {
    if w.open then Ok(w.(out := w.out + [s])) else Err(IoFault(ClosedMessage))
  }

  /** A login turned down: logged out, and every stream listener told what
      failed. */
  function Rejected(ls: seq<ListenerId>, w: Wire, what: string): Wire
  {
    w.(loggedIn := false, trace := w.trace + Broadcast(ls, Failed(IoFault(what + ", failed authentication"))))
  }

  /** A login accepted: logged in, and every stream listener told it is ready. */
  function Accepted(ls: seq<ListenerId>, w: Wire): Wire
  {
    w.(loggedIn := true, trace := w.trace + Broadcast(ls, Ready))
  }

  /** The condition of a stream error element. `StreamError` is not part of
      this model: the condition is the name of the first child element
      (section 4.9.3 of RFC 6120), and the element is read up to its end tag. */
  function ErrorCondition(events: seq<Event>, j: nat): string
    requires j < |events|
  {
    ConditionFrom(events, j + 1)
  }

  /** The name of the first start tag from `i` on, passing over text; any
      other event first (the error's own end tag, when it has no child
      element, the end of the document or malformed input) gives no
      condition (""). */
  function ConditionFrom(events: seq<Event>, i: nat): string
    requires i <= |events|
    decreases |events| - i
  {
    if i == |events| then ""
    else match events[i]
      case StartTag(name, _, _, _) => name
      case Text(_) => ConditionFrom(events, i + 1)
      case _ => ""
  }

  /** The condition is the name of the first start tag after the error's,
      whatever text (white space of a pretty-printed error) comes before it. */
  lemma {:induction false} ConditionIsFirstChild(events: seq<Event>, i: nat, k: nat)
    requires i <= k < |events| && events[k].StartTag?
    requires forall m :: i <= m < k ==> events[m].Text?
    ensures ConditionFrom(events, i) == events[k].name
    decreases k - i
  {
    if i < k {
      ConditionIsFirstChild(events, i + 1, k);
    }
  }

  /** When the first event that is not text is not a start tag either,
      there is no condition. */
  lemma {:induction false} NoChildNoCondition(events: seq<Event>, i: nat, k: nat)
    requires i <= k < |events| && !events[k].StartTag? && !events[k].Text?
    requires forall m :: i <= m < k ==> events[m].Text?
    ensures ConditionFrom(events, i) == ""
    decreases k - i
  {
    if i < k {
      NoChildNoCondition(events, i + 1, k);
    }
  }

  /** A pretty-printed stream error: the white space before the condition
      element is passed over. */
  lemma PrettyErrorCondition()
    ensures ErrorCondition([StartDocument, StartTag("error", "", [], []), Text("\n  "),
                            StartTag("not-well-formed", "urn:ietf:params:xml:ns:xmpp-streams", [], []),
                            EndTag("not-well-formed"), EndTag("error")], 1) == "not-well-formed"
  {
    var es := [StartDocument, StartTag("error", "", [], []), Text("\n  "),
               StartTag("not-well-formed", "urn:ietf:params:xml:ns:xmpp-streams", [], []),
               EndTag("not-well-formed"), EndTag("error")];
    ConditionIsFirstChild(es, 2, 3);
  }

  /** `error()`: the stream error is read and the connection fails with its condition. */
  function ErrorRead(ls: seq<ListenerId>, events: seq<Event>, j: nat, w: Wire): (r: Result<(Wire, nat)>)
    requires j < |events| && events[j].StartTag?
    ensures r.Ok? ==> j < r.value.1 < |events|
  {
    match SkipEnd(events, j)
    case Err(f) => Err(f)
    case Ok(k) => Ok((Failing(ls, w, Raised(ErrorCondition(events, j))), k))
  }

  /** What one element does to the loop of `parse`: go on from a position,
      or stop. */
  datatype Turn = Continue(wire: Wire, next: nat) | Stop(wire: Wire)

  /** The switch of `parse` on a start tag. */
  function ElementStep(c: Config, events: seq<Event>, j: nat, w: Wire): (r: Result<Turn>)
    requires j < |events| && events[j].StartTag?
    ensures r.Ok? && r.value.Continue? ==> j < r.value.next < |events|
  {
    var tag := events[j].name;
    if tag == "message" then
      (match MessageRead(c.messageLs, events, j, w) case Err(f) => Err(f) case Ok((w', k)) => Ok(Continue(w', k)))
    else if tag == "presence" then
      (match PresenceRead(c.presenceLs, c.table, events, j, w) case Err(f) => Err(f) case Ok((w', k)) => Ok(Continue(w', k)))
    else if tag == Iqs.TagName then
      (match IqRead(c, events, j, w) case Err(f) => Err(f) case Ok((w', k)) => Ok(Continue(w', k)))
    else if tag == "error" then
      (match ErrorRead(c.streamLs, events, j, w) case Err(f) => Err(f) case Ok((w', _)) => Ok(Stop(w')))
    else
      (match SkipEnd(events, j) case Err(f) => Err(f) case Ok(k) => Ok(Continue(w, k)))
  }

  /** How `parse` ends: the state, and the exception it lets through, if any. */
  datatype Run = Run(wire: Wire, outcome: Outcome)

  /** The catch of `parse`: malformed XML is answered with an `invalid-xml`
      stream error and the connection fails; anything else goes to the caller. */
  function Caught(ls: seq<ListenerId>, w: Wire, f: Failure): Run
  {
    if f.XmlFault? then Run(Failing(ls, Sent(ls, w, StreamErrorXml(InvalidXml)), Raised(InvalidXml)), Pass)
    else Run(w, Fail(f))
  }

  /** The loop of `parse` from position `i`: up to the end of the document,
      each start tag is dispatched and everything else is passed over. */
  function Loop(c: Config, events: seq<Event>, i: nat, w: Wire): Run
    requires i < |events|
    decreases |events| - i
  {
    match Step(events, i)
    case Err(f) => Caught(c.streamLs, w, f)
    case Ok(j) =>
      if events[j].EndDocument? then Run(w, Pass)
      else if !events[j].StartTag? then Loop(c, events, j, w)
      else
        match ElementStep(c, events, j, w)
        case Err(f) => Caught(c.streamLs, w, f)
        case Ok(Stop(w')) => Run(w', Pass)
        case Ok(Continue(w', k)) => Loop(c, events, k, w')
  }

  /** An `error` element ends the loop, whatever follows it. */
  lemma ErrorEndsLoop(c: Config, events: seq<Event>, i: nat, w: Wire)
    requires i + 1 < |events| && !events[i].EndDocument? && events[i + 1].StartTag? && events[i + 1].name == "error"
    requires SkipEnd(events, i + 1).Ok?
    ensures Loop(c, events, i, w) == Run(Failing(c.streamLs, w, Raised(ErrorCondition(events, i + 1))), Pass)
  {
    assert Step(events, i) == Ok(i + 1);
  }

  /** The loop only ever adds to what was written and to the trace, and only
      ever removes entries from the correlation map. */
  lemma {:induction false} LoopGrows(c: Config, events: seq<Event>, i: nat, w: Wire)
    requires i < |events|
    ensures var r := Loop(c, events, i, w).wire;
      r.loggedIn == w.loggedIn && r.pending.Keys <= w.pending.Keys &&
      |w.out| <= |r.out| && r.out[..|w.out|] == w.out &&
      |w.trace| <= |r.trace| && r.trace[..|w.trace|] == w.trace
    decreases |events| - i
  {
    match Step(events, i)
    case Err(f) => CaughtGrows(c.streamLs, w, f);
    case Ok(j) =>
      if events[j].EndDocument? {
      } else if !events[j].StartTag? {
        LoopGrows(c, events, j, w);
      } else {
        match ElementStep(c, events, j, w)
        case Err(f) => CaughtGrows(c.streamLs, w, f);
        case Ok(Stop(w')) => ElementGrows(c, events, j, w);
        case Ok(Continue(w', k)) =>
          ElementGrows(c, events, j, w);
          LoopGrows(c, events, k, w');
          Extends(w, w', Loop(c, events, k, w').wire);
      }
  }

  /** `b` extends `a`: more written, more in the trace, no new keys, same login. */
  ghost predicate Grows(a: Wire, b: Wire)
  {
    b.loggedIn == a.loggedIn && b.pending.Keys <= a.pending.Keys &&
    |a.out| <= |b.out| && b.out[..|a.out|] == a.out &&
    |a.trace| <= |b.trace| && b.trace[..|a.trace|] == a.trace
  }

  lemma Extends(a: Wire, b: Wire, d: Wire)
    requires Grows(a, b) && Grows(b, d)
    ensures Grows(a, d)
  {
    assert d.out[..|a.out|] == d.out[..|b.out|][..|a.out|];
    assert d.trace[..|a.trace|] == d.trace[..|b.trace|][..|a.trace|];
  }

  lemma FailedGrows(ls: seq<ListenerId>, w: Wire, f: Failure)
    ensures Grows(w, Failing(ls, w, f))
  {
    assert (w.trace + Broadcast(ls, Failed(f)))[..|w.trace|] == w.trace;
  }

  lemma SentGrows(ls: seq<ListenerId>, w: Wire, s: string)
    ensures Grows(w, Sent(ls, w, s))
  {
    if w.open {
      assert (w.out + [s])[..|w.out|] == w.out;
    } else {
      FailedGrows(ls, w, IoFault(ClosedMessage));
    }
  }

  lemma CaughtGrows(ls: seq<ListenerId>, w: Wire, f: Failure)
    ensures Grows(w, Caught(ls, w, f).wire)
  {
    if f.XmlFault? {
      var w1 := Sent(ls, w, StreamErrorXml(InvalidXml));
      SentGrows(ls, w, StreamErrorXml(InvalidXml));
      FailedGrows(ls, w1, Raised(InvalidXml));
      Extends(w, w1, Caught(ls, w, f).wire);
    }
  }

  lemma AnsweredGrows(c: Config, w: Wire, key: string, iq: Received)
    ensures Grows(w, Answered(c, w, key, iq))
  {
    if key in w.pending {
      var l := w.pending[key];
      var w1 := w.(trace := w.trace + [To(l, OnIq(iq))], pending := w.pending - {key});
      assert (w.trace + [To(l, OnIq(iq))])[..|w.trace|] == w.trace;
      assert Grows(w, w1);
      if !c.answer(l, iq) {
        SentGrows(c.streamLs, w1, ErrorReply(iq.env));
        Extends(w, w1, Answered(c, w, key, iq));
      }
    } else {
      var w1 := w.(trace := w.trace + Broadcast(c.iqLs, OnIq(iq)));
      assert (w.trace + Broadcast(c.iqLs, OnIq(iq)))[..|w.trace|] == w.trace;
      assert Grows(w, w1);
      if !Handled(c.iqLs, c.answer, iq) {
        SentGrows(c.streamLs, w1, ErrorReply(iq.env));
        Extends(w, w1, Answered(c, w, key, iq));
      }
    }
  }

  lemma ElementGrows(c: Config, events: seq<Event>, j: nat, w: Wire)
    requires j < |events| && events[j].StartTag? && ElementStep(c, events, j, w).Ok?
    ensures Grows(w, ElementStep(c, events, j, w).value.wire)
  {
    var tag := events[j].name;
    if tag == "message" || tag == "presence" {
      var ls := if tag == "message" then c.messageLs else c.presenceLs;
      var w' := ElementStep(c, events, j, w).value.wire;
      assert w'.trace[..|w.trace|] == w.trace;
    } else if tag == Iqs.TagName {
      var (env, cs, k) := Iqs.IqParse(events, j, Some(c.table)).value;
      AnsweredGrows(c, w, IqKey(env), Received(env, cs));
    } else if tag == "error" {
      FailedGrows(c.streamLs, w, Raised(ErrorCondition(events, j)));
    }
  }

  // ---------------------------------------------------------------------
  // The stream object
  // ---------------------------------------------------------------------

  class Stream {
    var from: Option<Jid>
    const to: Jid
    const parser: Parser
    var childParsers: map<string, ChildParser>
    var streamLs: seq<ListenerId>
    var messageLs: seq<ListenerId>
    var presenceLs: seq<ListenerId>
    var iqLs: seq<ListenerId>
    var pending: map<string, ListenerId>
    var loggedIn: bool
    var out: seq<string>
    var open: bool
    var trace: seq<Notice>

    /** The cursor is on the input, and no registry holds a listener twice. */
    ghost predicate Valid()
      reads parser, this`streamLs, this`messageLs, this`presenceLs, this`iqLs
    {
      parser.Valid() && Distinct(streamLs) && Distinct(messageLs) && Distinct(presenceLs) && Distinct(iqLs)
    }

    /** A stream over `input`: empty registries, writer open, not logged in. */
    constructor (from: Option<Jid>, to: Jid, input: seq<Event>)
      ensures Valid() && fresh(parser) && parser.events == [StartDocument] + input && parser.pos == 0
      ensures this.from == from && this.to == to && childParsers == map[]
      ensures streamLs == [] && messageLs == [] && presenceLs == [] && iqLs == []
      ensures State() == Wire([], true, false, [], map[])
    {
      this.from := from;
      this.to := to;
      parser := new Parser(input);
      childParsers := map[];
      streamLs := [];
      messageLs := [];
      presenceLs := [];
      iqLs := [];
      pending := map[];
      loggedIn := false;
      out := [];
      open := true;
      trace := [];
    }

    function State(): Wire
      reads this
    {
      Wire(out, open, loggedIn, trace, pending)
    }

    function Cfg(answer: (ListenerId, Received) -> bool): Config
      reads this
    {
      Config(streamLs, messageLs, presenceLs, iqLs, childParsers, answer)
    }

    /** `restartStream()`: a new cursor on what the connection delivers next,
        and a new writer. */
    method RestartStream(input: seq<Event>)
      requires Valid()
      modifies parser, this`open
      ensures Valid() && parser.events == [StartDocument] + input && parser.pos == 0 && open
    {
      parser.Restart(input);
      open := true;
    }

    /** `addChildParser(cp)`: registered under its own namespace, replacing
        any parser there. */
    method AddChildParser(cp: ChildParser)
      modifies this`childParsers
      ensures childParsers == old(childParsers)[ParserXmlns(cp) := cp]
    {
      childParsers := childParsers[ParserXmlns(cp) := cp];
    }

    /** `removeChildParser(xmlns)`. */
    method RemoveChildParser(xmlns: string)
      modifies this`childParsers
      ensures childParsers == old(childParsers) - {xmlns}
    {
      childParsers := childParsers - {xmlns};
    }

    method AddStreamListener(l: ListenerId)
      requires Valid()
      modifies this`streamLs
      ensures Valid() && streamLs == Added(old(streamLs), l)
    {
      if l !in streamLs {
        streamLs := streamLs + [l];
      }
    }

    method AddMessageListener(l: ListenerId)
      requires Valid()
      modifies this`messageLs
      ensures Valid() && messageLs == Added(old(messageLs), l)
    {
      if l !in messageLs {
        messageLs := messageLs + [l];
      }
    }

    method AddPresenceListener(l: ListenerId)
      requires Valid()
      modifies this`presenceLs
      ensures Valid() && presenceLs == Added(old(presenceLs), l)
    {
      if l !in presenceLs {
        presenceLs := presenceLs + [l];
      }
    }

    method AddIqListener(l: ListenerId)
      requires Valid()
      modifies this`iqLs
      ensures Valid() && iqLs == Added(old(iqLs), l)
    {
      if l !in iqLs {
        iqLs := iqLs + [l];
      }
    }

    /** `addListener(jid, id, l)`: `l` under the key, replacing any listener there. */
    method AddCorrelated(jid: Option<string>, id: Option<string>, l: ListenerId)
      modifies this`pending
      ensures pending == old(pending)[CorrelationKey(jid, id) := l]
    {
      pending := pending[CorrelationKey(jid, id) := l];
    }

    method RemoveStreamListener(l: ListenerId) returns (r: bool)
      requires Valid()
      modifies this`streamLs
      ensures Valid() && r == (l in old(streamLs)) && streamLs == Removed(old(streamLs), l) && l !in streamLs
    {
      r := l in streamLs;
      streamLs := Removed(streamLs, l);
    }

    method RemoveMessageListener(l: ListenerId) returns (r: bool)
      requires Valid()
      modifies this`messageLs
      ensures Valid() && r == (l in old(messageLs)) && messageLs == Removed(old(messageLs), l) && l !in messageLs
    {
      r := l in messageLs;
      messageLs := Removed(messageLs, l);
    }

    method RemovePresenceListener(l: ListenerId) returns (r: bool)
      requires Valid()
      modifies this`presenceLs
      ensures Valid() && r == (l in old(presenceLs)) && presenceLs == Removed(old(presenceLs), l) && l !in presenceLs
    {
      r := l in presenceLs;
      presenceLs := Removed(presenceLs, l);
    }

    method RemoveIqListener(l: ListenerId) returns (r: bool)
      requires Valid()
      modifies this`iqLs
      ensures Valid() && r == (l in old(iqLs)) && iqLs == Removed(old(iqLs), l) && l !in iqLs
    {
      r := l in iqLs;
      iqLs := Removed(iqLs, l);
    }

    /** The same call on every listener of `ls`, in order. */
    method NotifyAll(ls: seq<ListenerId>, call: Call)
      modifies this`trace
      ensures trace == old(trace) + Broadcast(ls, call)
    {
      for k := 0 to |ls|
        invariant trace == old(trace) + Broadcast(ls[..k], call)
      {
        BroadcastStep(ls, k, call);
        trace := trace + [To(ls[k], call)];
      }
      BroadcastAll(ls, call);
    }

    /** `writer.write(s)` and `flush()` outside `send`. */
    method Write(s: string) returns (r: Outcome)
      modifies this`out
      ensures Wrote(old(State()), s) == if r.Pass? then Ok(State()) else Err(r.failure)
      ensures r.Fail? ==> out == old(out)
    {
      if !open {
        return Fail(IoFault(ClosedMessage));
      }
      out := out + [s];
      return Pass;
    }

    /** `setLoggedIn(false)`, then every stream listener fails. */
    method Reject(what: string)
      modifies this`loggedIn, this`trace
      ensures State() == Rejected(streamLs, old(State()), what)
    {
      loggedIn := false;
      NotifyAll(streamLs, Failed(IoFault(what + ", failed authentication")));
    }

    /** `setLoggedIn(true)`, then every stream listener is ready. */
    method Accept()
      modifies this`loggedIn, this`trace
      ensures State() == Accepted(streamLs, old(State()))
    {
      loggedIn := true;
      NotifyAll(streamLs, Ready);
    }

    /** `connectionFailed(ex)`. */
    method ConnectionFailed(f: Failure)
      modifies this`open, this`trace
      ensures State() == Failing(streamLs, old(State()), f)
    {
      if loggedIn {
        open := false;
      }
      NotifyAll(streamLs, Failed(f));
    }

    /** `send(str)`. */
    method Send(s: string)
      modifies this`out, this`open, this`trace
      ensures State() == Sent(streamLs, old(State()), s)
    {
      if open {
        out := out + [s];
      } else {
        ConnectionFailed(IoFault(ClosedMessage));
      }
    }

    /** `logoff()`. */
    method Logoff()
      modifies this`loggedIn, this`open, this`trace
      ensures State() == LoggedOff(streamLs, old(State()))
    {
      loggedIn := false;
      if open {
        open := false;
      } else {
        ConnectionFailed(IoFault(ClosedMessage));
      }
    }

    /** `close()`. */
    method Close()
      modifies this`out, this`loggedIn, this`open, this`trace
      ensures State() == Closed(streamLs, old(State()))
    {
      if open {
        out := out + [StreamEnd];
      }
      Logoff();
    }

    /** The broadcast of `iq()`: every iq listener is called, and the answers
        are or-ed without cutting the calls short. */
    method OfferIq(iq: Received, answer: (ListenerId, Received) -> bool) returns (parsed: bool)
      modifies this`trace
      ensures trace == old(trace) + Broadcast(iqLs, OnIq(iq))
      ensures parsed == Handled(iqLs, answer, iq)
    {
      parsed := false;
      for k := 0 to |iqLs|
        invariant trace == old(trace) + Broadcast(iqLs[..k], OnIq(iq))
        invariant parsed <==> exists m :: 0 <= m < k && answer(iqLs[m], iq)
      {
        BroadcastStep(iqLs, k, OnIq(iq));
        var h := answer(iqLs[k], iq);
        trace := trace + [To(iqLs[k], OnIq(iq))];
        parsed := parsed || h;
      }
      BroadcastAll(iqLs, OnIq(iq));
    }

    /** The listener calls of `iq()` for an iq already read. */
    method Deliver(key: string, iq: Received, answer: (ListenerId, Received) -> bool) returns (parsed: bool)
      modifies this`trace, this`pending
      ensures State() == Delivered(Cfg(answer), old(State()), key, iq)
      ensures parsed == Taken(Cfg(answer), old(State()), key, iq)
    {
      if key in pending {
        var l := pending[key];
        parsed := answer(l, iq);
        trace := trace + [To(l, OnIq(iq))];
        pending := pending - {key};
      } else {
        parsed := OfferIq(iq, answer);
      }
    }

    /** `send(iq.error())`. */
    method SendError(iq: Iqs.Iq, defaultId: string)
      modifies this`out, this`open, this`trace
      ensures State() == Sent(streamLs, old(State()), ErrorReply(iq.stanza.Env()))
    {
      var e := iq.Error(defaultId);
      var s := e.ToString();
      ErrorReplyIsError(iq.stanza.Env());
      Send(s.value);
    }

    /** The dispatch of `iq()` for an iq already read. */
    method Dispatch(iq: Iqs.Iq, answer: (ListenerId, Received) -> bool, defaultId: string)
      modifies this`out, this`open, this`trace, this`pending
      ensures State() == Answered(Cfg(answer), old(State()), IqKey(iq.stanza.Env()), Received(iq.stanza.Env(), iq.stanza.childs))
    {
      var env := iq.stanza.Env();
      var parsed := Deliver(IqKey(env), Received(env, iq.stanza.childs), answer);
      if !parsed {
        SendError(iq, defaultId);
      }
    }

    /** `iq()`, on an iq start tag. */
    method Iq(answer: (ListenerId, Received) -> bool, defaultId: string) returns (r: Outcome)
      requires Valid() && parser.Current().StartTag?
      modifies parser, this`out, this`open, this`trace, this`pending
      ensures Valid() && parser.events == old(parser.events)
      ensures IqRead(Cfg(answer), parser.events, old(parser.pos), old(State())) ==
              if r.Pass? then Ok((State(), parser.pos)) else Err(r.failure)
      ensures r.Fail? ==> State() == old(State())
    {
      var p := Iqs.Parse(parser, Some(childParsers), defaultId);
      if p.Err? {
        return Fail(p.failure);
      }
      Dispatch(p.value, answer, defaultId);
      return Pass;
    }

    /** `presence()`, on a presence start tag. */
    method Presence(defaultId: string) returns (r: Outcome)
      requires Valid() && parser.Current().StartTag?
      modifies parser, this`trace
      ensures Valid() && parser.events == old(parser.events)
      ensures PresenceRead(presenceLs, childParsers, parser.events, old(parser.pos), old(State())) ==
              if r.Pass? then Ok((State(), parser.pos)) else Err(r.failure)
      ensures r.Fail? ==> State() == old(State())
    {
      var p := Presences.Parse(parser, Some(childParsers), defaultId);
      if p.Err? {
        return Fail(p.failure);
      }
      NotifyAll(presenceLs, OnPresence(p.value.stanza.Env(), p.value.Info()));
      return Pass;
    }

    /** `message()`, on a message start tag. */
    method Message() returns (r: Outcome)
      requires Valid() && parser.Current().StartTag?
      modifies parser, this`trace
      ensures Valid() && parser.events == old(parser.events)
      ensures MessageRead(messageLs, parser.events, old(parser.pos), old(State())) ==
              if r.Pass? then Ok((State(), parser.pos)) else Err(r.failure)
      ensures r.Fail? ==> State() == old(State())
    {
      var env := ReadEnvelope(parser.Current().attrs, Blank);
      var s := Skip(parser);
      if s.Fail? {
        return s;
      }
      NotifyAll(messageLs, OnMessage(env));
      return Pass;
    }

    /** `error()`, on a stream error start tag. */
    method Error() returns (r: Outcome)
      requires Valid() && parser.Current().StartTag?
      modifies parser, this`open, this`trace
      ensures Valid() && parser.events == old(parser.events)
      ensures ErrorRead(streamLs, parser.events, old(parser.pos), old(State())) ==
              if r.Pass? then Ok((State(), parser.pos)) else Err(r.failure)
      ensures r.Fail? ==> State() == old(State())
    {
      var condition := ErrorCondition(parser.events, parser.pos);
      var s := Skip(parser);
      if s.Fail? {
        return s;
      }
      ConnectionFailed(Raised(condition));
      return Pass;
    }

    /** The catch block of `parse`. */
    method Catch(f: Failure) returns (r: Outcome)
      modifies this`out, this`open, this`trace
      ensures Run(State(), r) == Caught(streamLs, old(State()), f)
    {
      if f.XmlFault? {
        Send(StreamErrorXml(InvalidXml));
        ConnectionFailed(Raised(InvalidXml));
        return Pass;
      }
      return Fail(f);
    }

    /** The switch of `parse`, on a start tag; `Continue` is `Ok(true)`. */
    method Element(answer: (ListenerId, Received) -> bool, defaultId: string) returns (r: Result<bool>)
      requires Valid() && parser.Current().StartTag?
      modifies parser, this`out, this`open, this`trace, this`pending
      ensures Valid() && parser.events == old(parser.events)
      ensures ElementStep(Cfg(answer), parser.events, old(parser.pos), old(State())) ==
              if r.Err? then Err(r.failure) else if r.value then Ok(Continue(State(), parser.pos)) else Ok(Stop(State()))
      ensures r.Err? ==> State() == old(State())
    {
      var tag := parser.Current().name;
      var o: Outcome;
      if tag == "message" {
        o := Message();
      } else if tag == "presence" {
        o := Presence(defaultId);
      } else if tag == Iqs.TagName {
        o := Iq(answer, defaultId);
      } else if tag == "error" {
        o := Error();
        if o.Pass? {
          return Ok(false);
        }
      } else {
        o := Skip(parser);
      }
      if o.Fail? {
        return Err(o.failure);
      }
      return Ok(true);
    }

    /** One turn of the loop of `parse`: `None` when the loop goes on, the
        outcome of `parse` when it ends here. */
    method Turn(answer: (ListenerId, Received) -> bool, defaultId: string) returns (r: Option<Outcome>)
      requires Valid()
      modifies parser, this`out, this`open, this`trace, this`pending
      ensures Valid() && parser.events == old(parser.events)
      ensures r.None? ==> old(parser.pos) < parser.pos
      ensures r.None? ==> Loop(Cfg(answer), parser.events, parser.pos, State()) == Loop(Cfg(answer), parser.events, old(parser.pos), old(State()))
      ensures r.Some? ==> Run(State(), r.value) == Loop(Cfg(answer), parser.events, old(parser.pos), old(State()))
    {
      var n := parser.Next();
      if n.Err? {
        var o := Catch(n.failure);
        return Some(o);
      }
      var e := parser.Current();
      if e.EndDocument? {
        return Some(Pass);
      }
      if e.StartTag? {
        var t := Element(answer, defaultId);
        if t.Err? {
          var o := Catch(t.failure);
          return Some(o);
        }
        if !t.value {
          return Some(Pass);
        }
      }
      return None;
    }

    /** `parse()`: reads and dispatches up to the end of the document or a
        stream error. An exception other than malformed XML is returned to
        the caller (`connect()`, which fails the connection with it). */
    method Parse(answer: (ListenerId, Received) -> bool, defaultId: string) returns (r: Outcome)
      requires Valid()
      modifies parser, this`out, this`open, this`trace, this`pending
      ensures Valid() && parser.events == old(parser.events)
      ensures Run(State(), r) == Loop(Cfg(answer), parser.events, old(parser.pos), old(State()))
    {
      while true
        invariant Valid() && parser.events == old(parser.events)
        invariant Loop(Cfg(answer), parser.events, parser.pos, State()) ==
                  Loop(Cfg(answer), parser.events, old(parser.pos), old(State()))
        decreases |parser.events| - parser.pos
      {
        var t := Turn(answer, defaultId);
        if t.Some? {
          return t.value;
        }
      }
    }
  }
}
