/** The stream engine of the older tree (`src/com/juick/xmpp/Stream.java`).

    It keeps the same registries, correlation map and writer as the newer
    one, and its state changes are stated with the same functions of
    `Streams`. Where it differs: the server defaults to the host of the
    account, the loop of `parse` goes on only while the next event is a start
    tag, an iq without a sender is given the host's address before its key
    is made, and no exception is caught inside `parse`. */
module LegacyStreams {
  import opened Wrappers
  import opened XmlPull
  import opened XmlUtils
  import opened Addresses
  import opened StanzaChildren
  import opened Stanzas
  import opened Streams
  import Iqs

  /** The envelope `parse` dispatches an iq with: a sender-less iq is given
      the address of the account's host. */
  function WithSender(env: Envelope, host: string): (r: Envelope)
    ensures r.from.Some? && r.to == env.to && r.id == env.id && r.stanzaType == env.stanzaType
    ensures env.from.Some? ==> r == env
    ensures env.from.None? ==> r.from == Some(DomainJid(host))
  {
    if env.from.None? then env.(from := Some(DomainJid(host))) else env
  }

  /** A sender-less iq is looked up under the host and its id, and the error
      reply to it is addressed to the host. */
  lemma SenderlessIq(env: Envelope, host: string)
    requires env.from.None?
    ensures IqKey(WithSender(env, host)) == host + "\n" + OrNull(env.id)
    ensures Iqs.ReplyEnvelope(WithSender(env, host), Iqs.TypeError).to == Some(DomainJid(host))
  {
    assert ToEscapedString(DomainJid(host)) == host;
  }

  /** Presences of this tree are read by a class that is not part of this
      model: the element is read up to its end tag and the listeners are
      handed its envelope. */
  function LegacyPresenceRead(ls: seq<ListenerId>, events: seq<Event>, j: nat, w: Wire): (r: Result<(Wire, nat)>)
    requires j < |events| && events[j].StartTag?
    ensures r.Ok? ==> j < r.value.1 < |events|
  {
    match SkipEnd(events, j)
    case Err(f) => Err(f)
    case Ok(k) => Ok((w.(trace := w.trace + Broadcast(ls, OnLegacyPresence(ReadEnvelope(events[j].attrs, Blank)))), k))
  }

  /** The iq branch of `parse`. */
  function LegacyIqRead(c: Config, host: string, events: seq<Event>, j: nat, w: Wire): (r: Result<(Wire, nat)>)
    requires j < |events| && events[j].StartTag?
    ensures r.Ok? ==> j < r.value.1 < |events|
  {
    match Iqs.IqParse(events, j, Some(c.table))
    case Err(f) => Err(f)
    case Ok((env, cs, k)) =>
      var env' := WithSender(env, host);
      Ok((Answered(c, w, IqKey(env'), Received(env', cs)), k))
  }

  /** The branches of `parse` on a start tag. */
  function LegacyElementStep(c: Config, host: string, events: seq<Event>, j: nat, w: Wire): (r: Result<(Wire, nat)>)
    requires j < |events| && events[j].StartTag?
    ensures r.Ok? ==> j < r.value.1 < |events|
  {
    var tag := events[j].name;
    if tag == "message" then MessageRead(c.messageLs, events, j, w)
    else if tag == "presence" then LegacyPresenceRead(c.presenceLs, events, j, w)
    else if tag == Iqs.TagName then LegacyIqRead(c, host, events, j, w)
    else
      match SkipEnd(events, j)
      case Err(f) => Err(f)
      case Ok(k) => Ok((w, k))
  }

  /** The loop of `parse` from position `i`: it goes on while the next event
      is a start tag; on the first other event, `skip` is called once and
      the loop ends. */
  function LegacyLoop(c: Config, host: string, events: seq<Event>, i: nat, w: Wire): Run
    requires i < |events|
    decreases |events| - i
  {
    match Step(events, i)
    case Err(f) => Run(w, Fail(f))
    case Ok(j) =>
      if events[j].StartTag? then
        match LegacyElementStep(c, host, events, j, w)
        case Err(f) => Run(w, Fail(f))
        case Ok((w', k)) => LegacyLoop(c, host, events, k, w')
      else
        match SkipEnd(events, j)
        case Err(f) => Run(w, Fail(f))
        case Ok(_) => Run(w, Pass)
  }

  /** Text between two stanzas ends the loop: nothing after it is read. */
  lemma TextEndsLoop(c: Config, host: string, events: seq<Event>, i: nat, w: Wire)
    requires i + 1 < |events| && !events[i].EndDocument? && events[i + 1].Text?
    ensures LegacyLoop(c, host, events, i, w) == Run(w, Pass)
  {
    assert Step(events, i) == Ok(i + 1);
  }

  /** From `a` to `b` only iq error replies were written: the writer stays
      open, the login is kept and no correlation entry is added. */
  ghost predicate IsReply(s: string)
  {
    exists env :: s == ErrorReply(env)
  }

  ghost predicate RepliesOnly(a: Wire, b: Wire)
  {
    b.open == a.open && b.loggedIn == a.loggedIn && b.pending.Keys <= a.pending.Keys &&
    |a.out| <= |b.out| && b.out[..|a.out|] == a.out &&
    forall m :: |a.out| <= m < |b.out| ==> IsReply(b.out[m])
  }

  lemma RepliesOnlyTrans(a: Wire, b: Wire, d: Wire)
    requires RepliesOnly(a, b) && RepliesOnly(b, d)
    ensures RepliesOnly(a, d)
  {
    assert d.out[..|a.out|] == d.out[..|b.out|][..|a.out|];
    forall m | |a.out| <= m < |d.out| ensures IsReply(d.out[m]) {
      if m < |b.out| {
        assert d.out[m] == b.out[m];
      }
    }
  }

  lemma AnsweredRepliesOnly(c: Config, w: Wire, key: string, iq: Received)
    requires w.open
    ensures RepliesOnly(w, Answered(c, w, key, iq))
  {
    var w1 := Delivered(c, w, key, iq);
    if !Taken(c, w, key, iq) {
      var r := Answered(c, w, key, iq);
      assert r.out == w.out + [ErrorReply(iq.env)];
      assert r.out[..|w.out|] == w.out;
      assert r.out[|w.out|] == ErrorReply(iq.env);
    }
  }

  lemma ElementRepliesOnly(c: Config, host: string, events: seq<Event>, j: nat, w: Wire)
    requires j < |events| && events[j].StartTag? && w.open && LegacyElementStep(c, host, events, j, w).Ok?
    ensures RepliesOnly(w, LegacyElementStep(c, host, events, j, w).value.0)
  {
    if events[j].name == Iqs.TagName {
      var t := Iqs.IqParse(events, j, Some(c.table)).value;
      var env' := WithSender(t.0, host);
      AnsweredRepliesOnly(c, w, IqKey(env'), Received(env', t.1));
    }
  }

  /** The loop never writes anything but error replies to iqs, never closes
      the writer and only ever removes correlation entries. */
  lemma {:induction false} LegacyLoopRepliesOnly(c: Config, host: string, events: seq<Event>, i: nat, w: Wire)
    requires i < |events| && w.open
    ensures RepliesOnly(w, LegacyLoop(c, host, events, i, w).wire)
    decreases |events| - i
  {
    match Step(events, i)
    case Err(f) =>
    case Ok(j) =>
      if events[j].StartTag? {
        match LegacyElementStep(c, host, events, j, w)
        case Err(f) =>
        case Ok((w', k)) =>
          ElementRepliesOnly(c, host, events, j, w);
          LegacyLoopRepliesOnly(c, host, events, k, w');
          RepliesOnlyTrans(w, w', LegacyLoop(c, host, events, k, w').wire);
      }
  }

  class LegacyStream {
    const jid: Jid
    const password: string
    const server: string
    const port: int
    const useSsl: bool
    const parser: Parser
    var childParsers: map<string, ChildParser>
    var streamLs: seq<ListenerId>
    var messageLs: seq<ListenerId>
    var presenceLs: seq<ListenerId>
    var iqLs: seq<ListenerId>
    var pending: map<string, ListenerId>
    var loggedIn: bool
    var out: seq<string>
    var open: bool
    var trace: seq<Notice>

    ghost predicate Valid()
      reads parser, this`streamLs, this`messageLs, this`presenceLs, this`iqLs
    {
      parser.Valid() && Distinct(streamLs) && Distinct(messageLs) && Distinct(presenceLs) && Distinct(iqLs)
    }

    /** The constructor: the server is the account's host when none (or an
        empty one) is given, and the stream starts logged out. The
        connection is taken as opened onto `input`. */
    constructor (jid: Jid, password: string, server: Option<string>, port: int, useSsl: bool, input: seq<Event>)
      ensures Valid() && fresh(parser) && parser.events == [StartDocument] + input && parser.pos == 0
      ensures this.server == if server.None? || server.value == "" then jid.domain else server.value
      ensures this.jid == jid && this.password == password && this.port == port && this.useSsl == useSsl
      ensures !loggedIn && open && out == [] && trace == [] && pending == map[] && childParsers == map[]
      ensures streamLs == [] && messageLs == [] && presenceLs == [] && iqLs == []
    {
      this.jid := jid;
      this.password := password;
      if server.None? || |server.value| == 0 {
        this.server := jid.domain;
      } else {
        this.server := server.value;
      }
      this.port := port;
      this.useSsl := useSsl;
      parser := new Parser(input);
      childParsers := map[];
      streamLs := [];
      messageLs := [];
      presenceLs := [];
      iqLs := [];
      pending := map[];
      loggedIn := false;
      out := [];
      open := true;
      trace := [];
    }

    function State(): Wire
      reads this
    {
      Wire(out, open, loggedIn, trace, pending)
    }

    function Cfg(answer: (ListenerId, Received) -> bool): Config
      reads this
    {
      Config(streamLs, messageLs, presenceLs, iqLs, childParsers, answer)
    }

    method AddChildParser(cp: ChildParser)
      modifies this`childParsers
      ensures childParsers == old(childParsers)[ParserXmlns(cp) := cp]
    {
      childParsers := childParsers[ParserXmlns(cp) := cp];
    }

    method RemoveChildParser(xmlns: string)
      modifies this`childParsers
      ensures childParsers == old(childParsers) - {xmlns}
    {
      childParsers := childParsers - {xmlns};
    }

    method AddStreamListener(l: ListenerId)
      requires Valid()
      modifies this`streamLs
      ensures Valid() && streamLs == Added(old(streamLs), l)
    {
      if l !in streamLs {
        streamLs := streamLs + [l];
      }
    }

    method AddMessageListener(l: ListenerId)
      requires Valid()
      modifies this`messageLs
      ensures Valid() && messageLs == Added(old(messageLs), l)
    {
      if l !in messageLs {
        messageLs := messageLs + [l];
      }
    }

    method AddPresenceListener(l: ListenerId)
      requires Valid()
      modifies this`presenceLs
      ensures Valid() && presenceLs == Added(old(presenceLs), l)
    {
      if l !in presenceLs {
        presenceLs := presenceLs + [l];
      }
    }

    method AddIqListener(l: ListenerId)
      requires Valid()
      modifies this`iqLs
      ensures Valid() && iqLs == Added(old(iqLs), l)
    {
      if l !in iqLs {
        iqLs := iqLs + [l];
      }
    }

    method AddCorrelated(jid: Option<string>, id: Option<string>, l: ListenerId)
      modifies this`pending
      ensures pending == old(pending)[CorrelationKey(jid, id) := l]
    {
      pending := pending[CorrelationKey(jid, id) := l];
    }

    method RemoveStreamListener(l: ListenerId) returns (r: bool)
      requires Valid()
      modifies this`streamLs
      ensures Valid() && r == (l in old(streamLs)) && streamLs == Removed(old(streamLs), l) && l !in streamLs
    {
      r := l in streamLs;
      streamLs := Removed(streamLs, l);
    }

    method RemoveMessageListener(l: ListenerId) returns (r: bool)
      requires Valid()
      modifies this`messageLs
      ensures Valid() && r == (l in old(messageLs)) && messageLs == Removed(old(messageLs), l) && l !in messageLs
    {
      r := l in messageLs;
      messageLs := Removed(messageLs, l);
    }

    method RemovePresenceListener(l: ListenerId) returns (r: bool)
      requires Valid()
      modifies this`presenceLs
      ensures Valid() && r == (l in old(presenceLs)) && presenceLs == Removed(old(presenceLs), l) && l !in presenceLs
    {
      r := l in presenceLs;
      presenceLs := Removed(presenceLs, l);
    }

    method RemoveIqListener(l: ListenerId) returns (r: bool)
      requires Valid()
      modifies this`iqLs
      ensures Valid() && r == (l in old(iqLs)) && iqLs == Removed(old(iqLs), l) && l !in iqLs
    {
      r := l in iqLs;
      iqLs := Removed(iqLs, l);
    }

    method NotifyAll(ls: seq<ListenerId>, call: Call)
      modifies this`trace
      ensures trace == old(trace) + Broadcast(ls, call)
    {
      for k := 0 to |ls|
        invariant trace == old(trace) + Broadcast(ls[..k], call)
      {
        BroadcastStep(ls, k, call);
        trace := trace + [To(ls[k], call)];
      }
      BroadcastAll(ls, call);
    }

    /** `connectionFailed(msg)`. */
    method ConnectionFailed(f: Failure)
      modifies this`open, this`trace
      ensures State() == Failing(streamLs, old(State()), f)
    {
      if loggedIn {
        open := false;
      }
      NotifyAll(streamLs, Failed(f));
    }

    /** `send(stanza)`. */
    method Send(s: string)
      modifies this`out, this`open, this`trace
      ensures State() == Sent(streamLs, old(State()), s)
    {
      if open {
        out := out + [s];
      } else {
        ConnectionFailed(IoFault(ClosedMessage));
      }
    }

    /** `logoff()`. */
    method Logoff()
      modifies this`loggedIn, this`open, this`trace
      ensures State() == LoggedOff(streamLs, old(State()))
    {
      loggedIn := false;
      if open {
        open := false;
      } else {
        ConnectionFailed(IoFault(ClosedMessage));
      }
    }

    method OfferIq(iq: Received, answer: (ListenerId, Received) -> bool) returns (parsed: bool)
      modifies this`trace
      ensures trace == old(trace) + Broadcast(iqLs, OnIq(iq))
      ensures parsed == Handled(iqLs, answer, iq)
    {
      parsed := false;
      for k := 0 to |iqLs|
        invariant trace == old(trace) + Broadcast(iqLs[..k], OnIq(iq))
        invariant parsed <==> exists m :: 0 <= m < k && answer(iqLs[m], iq)
      {
        BroadcastStep(iqLs, k, OnIq(iq));
        var h := answer(iqLs[k], iq);
        trace := trace + [To(iqLs[k], OnIq(iq))];
        parsed := parsed || h;
      }
      BroadcastAll(iqLs, OnIq(iq));
    }

    method Deliver(key: string, iq: Received, answer: (ListenerId, Received) -> bool) returns (parsed: bool)
      modifies this`trace, this`pending
      ensures State() == Delivered(Cfg(answer), old(State()), key, iq)
      ensures parsed == Taken(Cfg(answer), old(State()), key, iq)
    {
      if key in pending {
        var l := pending[key];
        parsed := answer(l, iq);
        trace := trace + [To(l, OnIq(iq))];
        pending := pending - {key};
      } else {
        parsed := OfferIq(iq, answer);
      }
    }

    method SendError(iq: Iqs.Iq, defaultId: string)
      modifies this`out, this`open, this`trace
      ensures State() == Sent(streamLs, old(State()), ErrorReply(iq.stanza.Env()))
    {
      var e := iq.Error(defaultId);
      var s := e.ToString();
      ErrorReplyIsError(iq.stanza.Env());
      Send(s.value);
    }

    /** The dispatch of `parse` for an iq already read and given a sender. */
    method Dispatch(iq: Iqs.Iq, answer: (ListenerId, Received) -> bool, defaultId: string)
      modifies this`out, this`open, this`trace, this`pending
      ensures State() == Answered(Cfg(answer), old(State()), IqKey(iq.stanza.Env()), Received(iq.stanza.Env(), iq.stanza.childs))
    {
      var env := iq.stanza.Env();
      var parsed := Deliver(IqKey(env), Received(env, iq.stanza.childs), answer);
      if !parsed {
        SendError(iq, defaultId);
      }
    }

    /** A sender-less stanza is given the host's address. */
    method GiveSender(st: Stanza)
      modifies st`from
      ensures st.Env() == WithSender(old(st.Env()), jid.domain)
    {
      if st.from.None? {
        st.from := Some(DomainJid(jid.domain));
      }
    }

    /** The iq branch of `parse`, on an iq start tag. */
    method Iq(answer: (ListenerId, Received) -> bool, defaultId: string) returns (r: Outcome)
      requires Valid() && parser.Current().StartTag?
      modifies parser, this`out, this`open, this`trace, this`pending
      ensures Valid() && parser.events == old(parser.events)
      ensures LegacyIqRead(Cfg(answer), jid.domain, parser.events, old(parser.pos), old(State())) ==
              if r.Pass? then Ok((State(), parser.pos)) else Err(r.failure)
      ensures r.Fail? ==> State() == old(State())
    {
      var p := Iqs.Parse(parser, Some(childParsers), defaultId);
      if p.Err? {
        return Fail(p.failure);
      }
      GiveSender(p.value.stanza);
      Dispatch(p.value, answer, defaultId);
      return Pass;
    }

    /** The branches of `parse` on a start tag. */
    method Element(answer: (ListenerId, Received) -> bool, defaultId: string) returns (r: Outcome)
      requires Valid() && parser.Current().StartTag?
      modifies parser, this`out, this`open, this`trace, this`pending
      ensures Valid() && parser.events == old(parser.events)
      ensures LegacyElementStep(Cfg(answer), jid.domain, parser.events, old(parser.pos), old(State())) ==
              if r.Pass? then Ok((State(), parser.pos)) else Err(r.failure)
      ensures r.Fail? ==> State() == old(State())
    {
      var e := parser.Current();
      if e.name == "message" || e.name == "presence" {
        var env := ReadEnvelope(e.attrs, Blank);
        r := Skip(parser);
        if r.Pass? {
          if e.name == "message" {
            NotifyAll(messageLs, OnMessage(env));
          } else {
            NotifyAll(presenceLs, OnLegacyPresence(env));
          }
        }
      } else if e.name == Iqs.TagName {
        r := Iq(answer, defaultId);
      } else {
        r := Skip(parser);
      }
    }

    /** `parse()`. */
    method Parse(answer: (ListenerId, Received) -> bool, defaultId: string) returns (r: Outcome)
      requires Valid()
      modifies parser, this`out, this`open, this`trace, this`pending
      ensures Valid() && parser.events == old(parser.events)
      ensures Run(State(), r) == LegacyLoop(Cfg(answer), jid.domain, parser.events, old(parser.pos), old(State()))
    {
      while true
        invariant Valid() && parser.events == old(parser.events)
        invariant LegacyLoop(Cfg(answer), jid.domain, parser.events, parser.pos, State()) ==
                  LegacyLoop(Cfg(answer), jid.domain, parser.events, old(parser.pos), old(State()))
        decreases |parser.events| - parser.pos
      {
        ghost var i := parser.pos;
        var n := parser.Next();
        if n.Err? {
          return Fail(n.failure);
        }
        if !parser.Current().StartTag? {
          ghost var j := parser.pos;
          assert Step(parser.events, i) == Ok(j);
          r := Skip(parser);
          return;
        }
        r := Element(answer, defaultId);
        if r.Fail? {
          return;
        }
      }
    }
  }
}
