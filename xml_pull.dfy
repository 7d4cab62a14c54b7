/** The XML pull-parser cursor that every parse routine advances.

    The parser itself is not part of this model: its input is the sequence of
    events it would report, with namespace processing on, and its state is a
    position in that sequence. `next()` moves one event forward, and fails in
    three ways: at the end of the document (XmlPullParserException), when the
    input ends before the document does (EOFException from the reader), and
    when the next piece of input is not well-formed XML. */
module XmlPull {
  import opened Wrappers

  datatype Attr = Attr(name: string, value: string)

  datatype Event =
    | StartDocument
      /** `ns` is the element's namespace URI ("" when it has none); `bindings`
          maps the prefixes this start tag declares to their URIs, with ""
          standing for the default namespace. */
    | StartTag(name: string, ns: string, attrs: seq<Attr>, bindings: seq<Attr>)
    | Text(text: string)
    | EndTag(name: string)
    | EndDocument
      /** Input the tokenizer rejects. */
    | Malformed

  /** `getAttributeValue(null, key)`: the value of the first attribute named `key`. */
  function Lookup(attrs: seq<Attr>, key: string): (r: Option<string>)
    ensures r.None? <==> forall i :: 0 <= i < |attrs| ==> attrs[i].name != key
    ensures r.Some? ==> exists i :: 0 <= i < |attrs| && attrs[i] == Attr(key, r.value) &&
                                    forall j :: 0 <= j < i ==> attrs[j].name != key
  {
    if attrs == [] then None
    else if attrs[0].name == key then
      assert attrs[0] == Attr(key, attrs[0].value);
      Some(attrs[0].value)
    else
      var r := Lookup(attrs[1..], key);
      if r.Some? then
        ghost var i :| 0 <= i < |attrs[1..]| && attrs[1..][i] == Attr(key, r.value) &&
                       forall j :: 0 <= j < i ==> attrs[1..][j].name != key;
        assert attrs[i + 1] == Attr(key, r.value);
        assert forall j :: 0 <= j < i + 1 ==> attrs[j].name != key by {
          forall j | 0 <= j < i + 1 ensures attrs[j].name != key {
            if j > 0 { assert attrs[j] == attrs[1..][j - 1]; }
          }
        }
        r
      else
        assert forall i :: 0 <= i < |attrs| ==> attrs[i].name != key by {
          forall i | 0 <= i < |attrs| ensures attrs[i].name != key {
            if i > 0 { assert attrs[i] == attrs[1..][i - 1]; }
          }
        }
        None
  }

  /** Looking a key up in two attribute lists one after the other. */
  lemma {:induction false} LookupAppend(xs: seq<Attr>, ys: seq<Attr>, key: string)
    ensures Lookup(xs + ys, key) == if Lookup(xs, key).Some? then Lookup(xs, key) else Lookup(ys, key)
  {
    if xs != [] {
      assert (xs + ys)[1..] == xs[1..] + ys;
      LookupAppend(xs[1..], ys, key);
    } else {
      assert xs + ys == ys;
    }
  }

  /** An attribute that is present only when it has a value. */
  function OptAttr(name: string, v: Option<string>): seq<Attr>
  {
    if v.Some? then [Attr(name, v.value)] else []
  }

  lemma LookupOptAttr(name: string, v: Option<string>, key: string)
    ensures Lookup(OptAttr(name, v), key) == if name == key then v else None
  {
  }

  /** `ws[k]`, named so that the quantifier of `Occurs` is used only where a
      proof asks for one element. */
  function Nth<T>(ws: seq<T>, k: nat): T
    requires k < |ws|
  {
    ws[k]
  }

  /** `ws` occurs in `events` starting at position `i`. */
  ghost predicate Occurs<T>(events: seq<T>, i: nat, ws: seq<T>)
  {
    i + |ws| <= |events| && forall k :: 0 <= k < |ws| ==> events[i + k] == Nth(ws, k)
  }

  /** An occurrence of `a + b` is an occurrence of `a` followed by one of `b`. */
  lemma OccursSplit<T>(events: seq<T>, i: nat, a: seq<T>, b: seq<T>)
    requires Occurs(events, i, a + b)
    ensures Occurs(events, i, a) && Occurs(events, i + |a|, b)
  {
    forall k | 0 <= k < |a| ensures events[i + k] == Nth(a, k) {
      assert Nth(a + b, k) == a[k];
    }
    forall k | 0 <= k < |b| ensures events[i + |a| + k] == Nth(b, k) {
      assert Nth(a + b, |a| + k) == b[k];
    }
  }

  lemma OccursSplit4<T>(events: seq<T>, i: nat, a: seq<T>, b: seq<T>, c: seq<T>, d: seq<T>)
    requires Occurs(events, i, a + b + c + d)
    ensures Occurs(events, i, a) && Occurs(events, i + |a|, b)
    ensures Occurs(events, i + |a| + |b|, c) && Occurs(events, i + |a| + |b| + |c|, d)
  {
    OccursSplit(events, i, a + b + c, d);
    OccursSplit(events, i, a + b, c);
    OccursSplit(events, i, a, b);
  }

  lemma OccursAt<T>(events: seq<T>, i: nat, ws: seq<T>, k: nat)
    requires Occurs(events, i, ws) && k < |ws|
    ensures events[i + k] == ws[k]
  {
    assert Nth(ws, k) == ws[k];
  }

  /** `getName()`: the local name of a start or end tag, null for any other event. */
  function NameOf(e: Event): Option<string>
  {
    match e
    case StartTag(n, _, _, _) => Some(n)
    case EndTag(n) => Some(n)
    case _ => None
  }

  /** `getAttributeValue(null, key)` on a start tag. */
  function AttrOf(e: Event, key: string): Option<string>
    requires e.StartTag?
  {
    Lookup(e.attrs, key)
  }

  /** `getNamespace(prefix)` on a start tag: the URI the tag binds to `prefix`
      ("" for the default namespace), null when it binds none. */
  function NamespaceOf(e: Event, prefix: string): Option<string>
    requires e.StartTag?
  {
    Lookup(e.bindings, prefix)
  }

  /** What one `next()` does at position `pos`: the position it moves to,
      or the exception it throws (and then the position does not move). */
  function Step(events: seq<Event>, pos: nat): (r: Result<nat>)
    requires pos < |events|
    ensures r.Ok? ==> r.value == pos + 1 < |events| && !events[r.value].Malformed?
  {
    if events[pos].EndDocument? then Err(XmlFault("already reached end of XML input"))
    else if pos + 1 == |events| then Err(EndOfStream)
    else if events[pos + 1].Malformed? then Err(XmlFault("malformed input"))
    else Ok(pos + 1)
  }

  /** The cursor: a position in the events of the document being read. */
  class Parser {
    var events: seq<Event>
    var pos: nat

    ghost predicate Valid()
      reads this
    {
      pos < |events|
    }

    /** A parser set on an input: it stands before the first event. */
    constructor (input: seq<Event>)
      ensures Valid() && events == [StartDocument] + input && pos == 0
    {
      events := [StartDocument] + input;
      pos := 0;
    }

    /** The current event (`getEventType()` and what goes with it). */
    function Current(): Event
      reads this
      requires Valid()
    {
      events[pos]
    }

    /** `getName()`. */
    function Name(): Option<string>
      reads this
      requires Valid()
    {
      NameOf(events[pos])
    }

    /** `next()`. */
    method Next() returns (r: Result<Event>)
      requires Valid()
      modifies this
      ensures Valid() && events == old(events)
      ensures Step(events, old(pos)).Ok? ==> pos == old(pos) + 1 && r == Ok(events[pos])
      ensures Step(events, old(pos)).Err? ==> pos == old(pos) && r == Err(Step(events, old(pos)).failure)
    {
      var s := Step(events, pos);
      if s.Ok? {
        pos := s.value;
        r := Ok(events[pos]);
      } else {
        r := Err(s.failure);
      }
    }

    /** Starting a new parser on what is left of the connection (stream restart):
        the cursor is reset onto the events of the new document. */
    method Restart(input: seq<Event>)
      modifies this
      ensures Valid() && events == [StartDocument] + input && pos == 0
    {
      events := [StartDocument] + input;
      pos := 0;
    }
  }
}
